# saslog / slog: a Dafny model of a structured log-line formatter

This project models the two loggers of the Go repository `josepht/saslog`:

- package `slog` (`slog.go`);
- package `saslog` (`saslog.go`).

Both loggers attach three groups of string tags to a message and print one line per call:

- system tags;
- application ("app") tags;
- per-call tags.

The line has this shape:

    <timestamp> <level> <name or prefix> "<message>" key="v" ... scope.key="v" ...

The model has six modules, plus `Wrappers` (`wrappers.dfy`) for the `Option` and `Result` types:

- `Text` (`text.dfy`) models the Go library functions the loggers call.
  - `strconv.Quote` is `Quote`. It is exact for ASCII and for the Latin-1 characters that Go escapes.
  - `strings.TrimSpace` is `TrimSpace`. It uses the full white-space set of `unicode.IsSpace`.
  - The byte count that `Write` returns is `Utf8Length`.
  - `Unquote` decodes what `Quote` produces. The round trip `Unquote(Quote(s)) == Some(s)` is proved, and so is the fact that a quoted string holds no newline or other control character.
- `Render` (`render.dfy`) holds the line-building parts that both packages share.
  - `Token` renders one tag, bare (`" k=" + Quote(v)`) or scoped (`" s.k=" + Quote(v)`).
  - `AppendTokens` is one `for key, value := range` loop of `log`.
  - `Line` is the whole text that `log` passes to `log.Logger.Print`.
  - Go's map iteration order is random. It is a parameter: an `order` that visits each key of the map exactly once (`IsOrderOf`). The properties are stated per key and per token, never per position.
- `StdLog` (`stdlog.dfy`) holds `Sink`. It stands for the `io.Writer` behind a `log.Logger` created with flags 0 and an empty prefix. Its `Print` records one write and appends `"\n"` unless the text already ends with one.
- `Slog` (`slog.dfy`) models `slog.go` in the imperative form of the Go code.
  - Go maps are `TagMap` objects held by reference.
  - `Logger` is a class.
  - Deriving a logger copies the parent's map references. It then inserts the override keys that are absent into those shared maps.
  - The parent therefore sees every key that a derivation adds (`SlogExamples.DerivationSharesMaps`).
  - A key that is already present never changes value.
- `SlogExamples` (also in `slog.dfy`) holds two worked examples: the empty-prefix rendering and map sharing on derivation.
- `Saslog` (`saslog.dfy`) models `saslog.go`.
  - `saslog` never writes to a map, so its `Logger` is a datatype holding its maps as values, and `New` and `(*Logger).New` are pure functions. Go shares these maps by reference; see "## Left out".
  - Only `Log` and its wrappers are methods, because they write to the shared `Sink`.

The timestamp (`time.Now().UTC().Format(...)`) is a parameter `ts`. `os.Stderr` is a `Sink` parameter `stderr`.

Where the tests and the code disagree, the model follows the code:

- `slog_test.go:274-288` expects no `.` when the prefix is empty. `slog.go:112,117` always write `prefix + "."` (see `SlogExamples.EmptyPrefixKeepsDot`).
- `saslog_test.go:61` expects unquoted values. `saslog.go:106` quotes them (see `Render.PlainToken`).
- A derived slog logger does not get its own copy of the tag maps. It shares the parent's maps, so the parent changes when a child adds a key.

## Model

| member | source | states |
|---|---|---|
| `Text.IsSpace` | slog.go:136 | definition, no ensures: the white-space set of `unicode.IsSpace` that `strings.TrimSpace` removes (tab, newline, vertical tab, form feed, carriage return, space, U+0085, U+00A0, U+1680, U+2000-U+200A, U+2028, U+2029, U+202F, U+205F, U+3000) |
| `Text.TrimSpace` | slog.go:136 | the trimmed text neither starts nor ends with a white-space character |
| `Text.TrimSpaceRemovesOnlySpace` | slog.go:136 | the input is some white space, then the trimmed text, then some white space |
| `Text.TrimSpaceIdempotent` | saslog.go:143 | trimming an already trimmed text changes nothing |
| `Text.Utf8Length` | slog.go:137 | the byte count is at least the character count and at most four times it, and it equals the character count exactly when the text is ASCII |
| `Text.Quote` | slog.go:121 | definition, no ensures: `strconv.Quote`, the text between double quotes with `"` and `\` escaped, the control escapes `\a \b \f \n \r \t \v`, `\xHH` for other characters below U+0020 and for U+007F, and `\u00HH` for U+0080-U+00A0 and U+00AD |
| `Text.QuoteDelimited` | slog.go:107 | a quoted value opens and closes with a double quote |
| `Text.QuotePlain` | slog.go:120-121 | on printable ASCII without `"` or `\`, quoting only adds the surrounding double quotes |
| `Text.UnquoteQuote` | saslog.go:106 | quoting loses nothing: decoding `Quote(s)` gives back `s` |
| `Text.QuoteIsPrintable` | saslog.go:127-128 | a quoted message or value contains no control character (nothing below U+0100 that `strconv.IsPrint` rejects), in particular no newline, so it cannot split the line |
| `Render.Token` | slog.go:105-118 | definition, no ensures: the `fmt.Sprintf` token ` key=` + quoted value for a system tag, and ` scope.key=` + quoted value for an app or per-call tag |
| `Render.Line` | slog.go:120-121 | definition, no ensures: the `output` text, `ts level head quoted-message` followed by the system, app and per-call tokens |
| `Render.AppendTokens` | slog.go:105-118 | each loop appends to `d` the tokens of its map in iteration order |
| `Render.TokensOneForEachKey` | saslog.go:104-107 | a group renders as many tokens as its map has keys, the token of every key is among them, and every token belongs to some key |
| `Render.KeyAtOnePosition` | saslog.go:104-107 | every key sits at exactly one position of the iteration order, so its token is rendered exactly once |
| `Render.LineTokens` | slog.go:101-121 | the line is the header followed by the system, app and per-call tokens in that group order, and the token count is the sum of the three map sizes, with no merging across groups |
| `Render.PlainToken` | saslog.go:106 | a token is `key="value"` (or `scope.key="value"`) with the value in quotes |
| `Render.LineEndsWithQuote` | slog.go:120-123 | every line ends with a closing quote, so `Print` adds exactly one newline |
| `StdLog.Sink.Print` | slog.go:123 | one write of the line, with a newline appended unless it already ends with one |
| `Slog.Merge` | slog.go:80-96 | after a derivation loop the map has the old keys and the override keys; old keys keep their values and only absent override keys take the override's value |
| `Slog.MergeGrowth` | slog.go:83-85 | the map grows by exactly the number of override keys it did not have |
| `Slog.MergeIdempotent` | slog.go:89-95 | deriving twice with the same tags equals deriving once, and merging a map into itself changes nothing |
| `Slog.InsertAbsent` | slog.go:81-86 | the loop leaves the map equal to `Merge` of its old entries and the override entries, whatever the iteration order |
| `Slog.Logger.New` | slog.go:65-99 | the child keeps the parent's prefix, writer and the parent's map objects; the name is the override's when non-empty; the map contents are the merges of the two loops, stated for every aliasing among the maps |
| `Slog.Logger.Line` | slog.go:101-121 | definition, no ensures: the line of a slog logger, with the name as third field, bare system tokens and app and per-call tokens under `prefix.` |
| `Slog.Logger.Log` | slog.go:101-125 | one write of `Line(...) + "\n"` is appended to the shared writer, and nothing else changes |
| `Slog.Logger.Info` | slog.go:127-129 | the line always carries the level `INFO` |
| `Slog.Logger.Debug` | slog.go:130-132 | the line always carries the level `DEBUG` |
| `Slog.Logger.Write` | slog.go:134-138 | the trimmed text is logged at INFO with no per-call tags; the method returns the byte count of the input and no error |
| `Slog.New` | slog.go:33-60 | never fails; the name defaults to `-`; the prefix is kept even when empty; the writer defaults to stderr; a nil map becomes a new empty map and a non-nil map is kept by reference; a new default map is never the other map, so the two maps are distinct objects whenever either is a default |
| `SlogExamples.EmptyPrefixKeepsDot` | slog.go:116-118 | with an empty prefix every per-call token is ` .key="value"`, so it always differs from the unscoped ` key="value"` |
| `SlogExamples.DerivationSharesMaps` | slog.go:70-96 | parent and child share the system map; an override key the parent lacked appears in the parent; an existing key keeps the parent's value; the child keeps the parent's prefix |
| `Saslog.Lookup` | saslog.go:111 | indexing a possibly nil map gives the value of a present key and `""` otherwise |
| `Saslog.Logger.New` | saslog.go:65-98 | name and prefix come from the override when non-empty; each tag map comes from the override whenever it is non-nil, even if empty; the writer comes from the override when non-nil; otherwise each comes from the parent |
| `Saslog.DeriveComposes` | saslog.go:65-98 | deriving with `c1` and then `c2` equals deriving once with `c2` laid over `c1` |
| `Saslog.DeriveIdentityAndIdempotence` | saslog.go:75-95 | an empty override gives the parent back, and repeating a derivation changes nothing |
| `Saslog.CompleteOverrideIsNew` | saslog.go:34-98 | an override that supplies every field yields the logger that `New` builds from it, whatever the parent |
| `Saslog.Logger.Scope` | saslog.go:109-115 | app and per-call keys are scoped by `systemData["service"]` when it is non-empty, and by the name otherwise |
| `Saslog.ServiceHidesName` | saslog.go:109-128 | with a non-empty service tag the line does not depend on the name, since the third field is the prefix |
| `Saslog.Logger.Line` | saslog.go:100-128 | definition, no ensures: the line of a saslog logger, with the prefix as third field, bare system tokens and app and per-call tokens under the scope `Scope()` picks |
| `Saslog.Logger.Log` | saslog.go:100-132 | one write of `Line(...) + "\n"` is appended to the writer, where the line has the prefix as third field, bare system tokens and scoped app and per-call tokens |
| `Saslog.Logger.Info` | saslog.go:134-136 | the line always carries the level `INFO` |
| `Saslog.Logger.Debug` | saslog.go:137-139 | the line always carries the level `DEBUG` |
| `Saslog.Logger.Write` | saslog.go:141-145 | the trimmed text is logged at INFO with no per-call tags; the method returns the byte count of the input and no error |
| `Saslog.New` | saslog.go:34-60 | fails with `missing field 'name'` exactly when the name is empty; otherwise fails with `missing field 'prefix'` exactly when the prefix is empty; on success it stores name, prefix and both maps as given, and the writer defaults to stderr |

## Left out

- Timestamps: `time.Now().UTC().Format("2006-01-02 15:04:05.000")` is the parameter `ts`. The clock and its format are not modelled.
- I/O: `io.Writer`, `os.Stderr` and byte-level writes are not modelled. A writer is a `Sink` that records each write as a string. Write errors and partial writes are not modelled.
- The `l *log.Logger` field: it is determined by the writer, so each `Log` prints directly into the writer. The mutex inside `log.Logger` and all concurrency are left out.
- Map iteration order: Go randomises it. Each `log` call takes the orders as the parameter `Orders`. The derivation loop picks its next key with `:|`, and its result is the same for every order.
- Text.Quote: a character above U+00FF is always kept literally. Go escapes the unprintable ones (`\u`/`\U` escapes from the Unicode tables). Invalid UTF-8 bytes (Go's `\x` escapes for them) are not modelled either, since model strings hold characters rather than bytes.
- Text.Unquote: it is the reference decoder for the escapes `Quote` emits. It is not a model of `strconv.Unquote`, so octal, `\U` and `\'` escapes are not accepted.
- Slog.Logger.Write: the input bytes are taken to be valid UTF-8 text, and the returned count is the length of its UTF-8 encoding. Invalid byte sequences are not modelled.
- Saslog.Logger.Write: the same restriction to valid UTF-8 text as `Slog.Logger.Write`.
- Saslog maps by reference: `saslog.go:55-56` keeps the caller's config maps, and `saslog.go:72-73,89-95` hands a parent's maps to its children. A caller that later writes to such a map (sets `"service"`, say) changes the later lines of that logger and of every logger derived from it. `Saslog` copies the maps into its values when a logger is built or derived, so these later outside writes are not modelled. No operation of the package writes to a map, so every result the model states is unaffected.
- Nil receivers and an `Error` level: `slog_test.go:258-271` calls both, but neither source file has an `Error` method. A zero `Logger{}` has a nil `l`, so its methods would fault rather than do nothing.
- Test files: `slog_test.go`, `saslog_test.go` and `saslog/saslog_test.go` call `New` with signatures that `slog.go` and `saslog.go` do not have, and `saslog/saslog_test.go` tests a `level`/`Data` API that is not part of this model. Only their expectations that agree with the code are used.
- The concrete line of `TestLoggerAppDataPrefix` is not stated as a literal. Evaluating `Quote` on several literal strings at once is too costly for the verifier. `Render.LineTokens` and `Render.PlainToken` state the same content for all inputs.

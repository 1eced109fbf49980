/**
 * Package slog (slog.go): a logger whose tag maps are Go maps held by
 * reference. `New` fills in defaults and never fails; deriving a logger
 * copies the parent's map references and inserts only the override keys
 * that are absent, so parent and child share (and both see) those maps.
 */
module Slog {
  import opened Wrappers
  import opened Text
  import opened Render
  import opened StdLog

  /** A Go map F, an object that several loggers may reference. */
  class TagMap {
    var entries: Tags

    constructor (entries: Tags)
      ensures this.entries == entries
    {
      this.entries := entries;
    }
  }

  /** slog.Config; a null field is Go's nil. */
  datatype Config = Config(writer: Sink?, name: string, prefix: string,
                           systemData: TagMap?, appData: TagMap?)

  /** The per-call tags of `Write`, which passes none. */
  const NoTags: Tags := map[]

  /** The entries a derivation loop leaves in a map: the keys already there
      keep their values and the absent keys of `add` are inserted. */
  function Merge(base: Tags, add: Tags): (r: Tags)
    ensures r.Keys == base.Keys + add.Keys
    ensures forall k :: k in base ==> r[k] == base[k]
    ensures forall k :: k in add && k !in base ==> r[k] == add[k]
  {
    add + base
  }

  /** A derivation grows a map by exactly the number of new keys. */
  lemma MergeGrowth(base: Tags, add: Tags)
    ensures |Merge(base, add)| == |base| + |add.Keys - base.Keys|
  {
    var r := Merge(base, add);
    assert r.Keys == base.Keys + (add.Keys - base.Keys);
    assert base.Keys !! (add.Keys - base.Keys);
    assert |r.Keys| == |base.Keys| + |add.Keys - base.Keys|;
  }

  /** Deriving twice with the same tags is deriving once, and a map merged
      into itself is unchanged. */
  lemma MergeIdempotent(base: Tags, add: Tags)
    ensures Merge(Merge(base, add), add) == Merge(base, add)
    ensures Merge(base, base) == base
  {
  }

  /** One of the `for k, v := range c.SystemData` loops of the derivation:
      every key of `src` absent from `dst` is inserted, in whatever order
      the runtime visits them; present keys are left alone. */
  method InsertAbsent(dst: TagMap, src: Tags)
    modifies dst
    ensures dst.entries == Merge(old(dst.entries), src)
  {
    var rest := src.Keys;
    while rest != {}
      invariant rest <= src.Keys
      invariant dst.entries == Merge(old(dst.entries), src - rest)
      decreases rest
    {
      var k :| k in rest;
      if k !in dst.entries {
        dst.entries := dst.entries[k := src[k]];
      }
      rest := rest - {k};
      assert src - rest == (src - (rest + {k}))[k := src[k]];
    }
    assert src - rest == src;
  }

  class Logger {
    var systemData: TagMap
    var appData: TagMap
    var name: string
    var prefix: string
    /** The writer; the Go struct's log.Logger `l` is log.New(writer, "", 0). */
    var writer: Sink

    constructor (systemData: TagMap, appData: TagMap, name: string, prefix: string, writer: Sink)
      ensures this.systemData == systemData && this.appData == appData
      ensures this.name == name && this.prefix == prefix && this.writer == writer
    {
      this.systemData := systemData;
      this.appData := appData;
      this.name := name;
      this.prefix := prefix;
      this.writer := writer;
    }

    /** (*Logger).New: the child takes the parent's prefix, writer and map
        references; the override name replaces the parent's when non-empty;
        then the override's system keys and app keys that are absent are
        inserted into those shared maps. The map contents are stated for
        any aliasing among the four maps: the second loop sees what the
        first one inserted. */
    method New(c: Config) returns (nl: Logger)
      modifies systemData, appData
      ensures fresh(nl)
      ensures nl.prefix == prefix && nl.writer == writer
      ensures nl.name == (if c.name != "" then c.name else name)
      ensures nl.systemData == systemData && nl.appData == appData
      ensures var system1 := if c.systemData == null then old(systemData.entries)
                             else Merge(old(systemData.entries), old(c.systemData.entries));
              var appBefore := if appData == systemData then system1 else old(appData.entries);
              var appAdd := if c.appData == null then map[]
                            else if c.appData == systemData then system1
                            else old(c.appData.entries);
              && appData.entries == Merge(appBefore, appAdd)
              && systemData.entries == (if appData == systemData then appData.entries else system1)
    {
      nl := new Logger(systemData, appData, name, prefix, writer);
      if c.name != "" {
        nl.name := c.name;
      }
      if c.systemData != null {
        InsertAbsent(nl.systemData, c.systemData.entries);
      }
      if c.appData != null {
        InsertAbsent(nl.appData, c.appData.entries);
      }
    }

    /** The iteration orders are orders of the maps a call ranges over. */
    predicate OrdersFit(o: Orders, data: Tags)
      reads this, systemData, appData
    {
      IsOrderOf(o.system, systemData.entries) && IsOrderOf(o.app, appData.entries)
        && IsOrderOf(o.call, data)
    }

    /** The line `log` prints: name as third field, system keys bare, app
        and per-call keys under `prefix.` (the dot is written even when
        the prefix is empty). */
    function Line(ts: string, level: string, msg: string, data: Tags, o: Orders): string
      reads this, systemData, appData
      requires OrdersFit(o, data)
    {
      Render.Line(ts, level, name, msg,
                  Group(Bare, systemData.entries, o.system),
                  Group(Scoped(prefix), appData.entries, o.app),
                  Group(Scoped(prefix), data, o.call))
    }

    /** (*Logger).log: builds the line with three loops and prints it to
        the shared writer as one write ending in a newline. */
    method Log(ts: string, msg: string, level: string, data: Tags, o: Orders)
      requires OrdersFit(o, data)
      modifies writer
      ensures writer.writes == old(writer.writes) + [Line(ts, level, msg, data, o) + "\n"]
    {
      var system := Group(Bare, systemData.entries, o.system);
      var app := Group(Scoped(prefix), appData.entries, o.app);
      var call := Group(Scoped(prefix), data, o.call);
      var d := "";
      d := AppendTokens(d, system);
      assert d == Concat(system.Tokens());
      d := AppendTokens(d, app);
      d := AppendTokens(d, call);
      var output := Header(ts, level, name, msg) + d;
      LineEndsWithQuote(ts, level, name, msg, system, app, call);
      writer.Print(output);
    }

    /** Info logs at the fixed level "INFO". */
    method Info(ts: string, msg: string, data: Tags, o: Orders)
      requires OrdersFit(o, data)
      modifies writer
      ensures writer.writes == old(writer.writes) + [Line(ts, "INFO", msg, data, o) + "\n"]
    {
      Log(ts, msg, "INFO", data, o);
    }

    /** Debug logs at the fixed level "DEBUG". */
    method Debug(ts: string, msg: string, data: Tags, o: Orders)
      requires OrdersFit(o, data)
      modifies writer
      ensures writer.writes == old(writer.writes) + [Line(ts, "DEBUG", msg, data, o) + "\n"]
    {
      Log(ts, msg, "DEBUG", data, o);
    }

    /** Write, the io.Writer adapter: logs the trimmed text at INFO with no
        per-call tags and reports every byte as written, with no error. */
    method Write(b: string, ts: string, o: Orders) returns (n: nat, err: Option<string>)
      requires OrdersFit(o, NoTags)
      modifies writer
      ensures n == Utf8Length(b) && err == None
      // Restated after the call so that the next clause, read in the new
      // heap, has Line's precondition at hand without a costly frame proof.
      ensures OrdersFit(o, NoTags)
      ensures writer.writes == old(writer.writes) + [Line(ts, "INFO", TrimSpace(b), NoTags, o) + "\n"]
    {
      Info(ts, TrimSpace(b), NoTags, o);
      n, err := Utf8Length(b), None;
    }
  }

  /** slog.New: the writer defaults to `stderr`, an empty name to "-"; the
      prefix is kept even when empty; a nil tag map becomes a new empty
      map and a non-nil one is kept by reference. The error is always nil. */
  method New(c: Config, stderr: Sink) returns (l: Logger, err: Option<string>)
    ensures fresh(l) && err == None
    ensures l.writer == (if c.writer == null then stderr else c.writer)
    ensures l.name == (if c.name == "" then "-" else c.name)
    ensures l.prefix == c.prefix
    ensures c.systemData != null ==> l.systemData == c.systemData
    ensures c.systemData == null ==> fresh(l.systemData) && l.systemData.entries == map[]
    ensures c.appData != null ==> l.appData == c.appData
    ensures c.appData == null ==> fresh(l.appData) && l.appData.entries == map[]
    ensures c.systemData == null || c.appData == null ==> l.systemData != l.appData
  {
    var writer := if c.writer == null then stderr else c.writer;
    var name := if c.name == "" then "-" else c.name;
    var systemData := c.systemData;
    if systemData == null {
      systemData := new TagMap(map[]);
    }
    var appData := c.appData;
    if appData == null {
      appData := new TagMap(map[]);
    }
    l := new Logger(systemData, appData, name, c.prefix, writer);
    err := None;
  }
}

/** Worked examples of package slog: how an empty prefix renders and how
    derivation shares maps with the parent. */
module SlogExamples {
  import opened Text
  import opened Render
  import opened StdLog
  import opened Slog

  /** With an empty prefix the dot is still written: a per-call token is
      ` .key="value"`, never the ` key="value"` that TestEmptyPrefix
      expects. */
  lemma EmptyPrefixKeepsDot(key: string, value: string)
    ensures Token(Scoped(""), key, value) == " ." + key + "=" + Quote(value)
    ensures Token(Scoped(""), key, value) != Token(Bare, key, value)
  {
    assert |Token(Scoped(""), key, value)| == |Token(Bare, key, value)| + 1;
  }

  /** Deriving shares the parent's maps: a new override key shows up in the
      parent as well, an existing key keeps the parent's value, and the
      child keeps the parent's prefix even when the override names one. */
  method DerivationSharesMaps() returns (parent: Logger, child: Logger)
    ensures parent.systemData == child.systemData
    ensures parent.systemData.entries == map["orig_key" := "orig_value", "extra" := "extra"]
    ensures child.name == "new_name" && child.prefix == "SAS:" && parent.name == "sas"
  {
    var out := new Sink();
    var system := new TagMap(map["orig_key" := "orig_value"]);
    var err;
    parent, err := New(Config(out, "sas", "SAS:", system, null), out);
    var add := new TagMap(map["orig_key" := "new_value", "extra" := "extra"]);
    child := parent.New(Config(null, "new_name", "new_prefix", add, null));
  }
}

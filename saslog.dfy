/**
 * Package saslog (saslog.go): a logger that validates its configuration
 * and derives children by letting every field the override supplies win.
 * It never writes to a tag map, so a logger is a value here and its maps
 * are held as values; only the writer it prints to is shared state.
 */
module Saslog {
  import opened Wrappers
  import opened Text
  import opened Render
  import opened StdLog

  /** saslog.Config; a null writer and a None map are Go's nil. */
  datatype Config = Config(writer: Sink?, name: string, prefix: string,
                           systemData: Option<Tags>, appData: Option<Tags>)

  /** The entries of a possibly nil map. */
  function Entries(m: Option<Tags>): Tags {
    match m
    case Some(t) => t
    case None => map[]
  }

  /** `m[key]` on a possibly nil Go map: "" when the key is missing. */
  function Lookup(m: Option<Tags>, key: string): (v: string)
    ensures key in Entries(m) ==> v == Entries(m)[key]
    ensures key !in Entries(m) ==> v == ""
  {
    if key in Entries(m) then Entries(m)[key] else ""
  }

  datatype Logger = Logger(systemData: Option<Tags>, appData: Option<Tags>,
                           name: string, prefix: string, writer: Sink)
  {
    /** (*Logger).New: name and prefix from the override when non-empty,
        each tag map from the override whenever it is non-nil (even if
        empty), the writer from the override when non-nil; everything
        else from the parent. */
    function New(c: Config): (nl: Logger)
      ensures nl.name == (if c.name != "" then c.name else name)
      ensures nl.prefix == (if c.prefix != "" then c.prefix else prefix)
      ensures nl.systemData == (if c.systemData.Some? then c.systemData else systemData)
      ensures nl.appData == (if c.appData.Some? then c.appData else appData)
      ensures nl.writer == (if c.writer != null then c.writer else writer)
    {
      Logger(if c.systemData.Some? then c.systemData else systemData,
             if c.appData.Some? then c.appData else appData,
             if c.name != "" then c.name else name,
             if c.prefix != "" then c.prefix else prefix,
             if c.writer == null then writer else c.writer)
    }

    /** The scope of app and per-call keys: systemData["service"] when it
        is non-empty, the logger's name otherwise. */
    function Scope(): (s: string)
      ensures Lookup(systemData, "service") != "" ==> s == Lookup(systemData, "service")
      ensures Lookup(systemData, "service") == "" ==> s == name
    {
      var service := Lookup(systemData, "service");
      if service == "" then name else service
    }

    predicate OrdersFit(o: Orders, data: Tags) {
      IsOrderOf(o.system, Entries(systemData)) && IsOrderOf(o.app, Entries(appData))
        && IsOrderOf(o.call, data)
    }

    /** The line `log` prints: prefix as third field, system keys bare, app
        and per-call keys under the scope. */
    function Line(ts: string, level: string, msg: string, data: Tags, o: Orders): string
      requires OrdersFit(o, data)
    {
      Render.Line(ts, level, prefix, msg,
                  Group(Bare, Entries(systemData), o.system),
                  Group(Scoped(Scope()), Entries(appData), o.app),
                  Group(Scoped(Scope()), data, o.call))
    }

    /** (*Logger).log: builds the line with three loops and prints it to
        the writer as one write ending in a newline. */
    method Log(ts: string, msg: string, level: string, data: Tags, o: Orders)
      requires OrdersFit(o, data)
      modifies writer
      ensures writer.writes == old(writer.writes) + [Line(ts, level, msg, data, o) + "\n"]
    {
      var system := Group(Bare, Entries(systemData), o.system);
      var d := "";
      d := AppendTokens(d, system);
      assert d == Concat(system.Tokens());
      var s: string;
      if Lookup(systemData, "service") == "" {
        s := name;
      } else {
        s := Lookup(systemData, "service");
      }
      var app := Group(Scoped(s), Entries(appData), o.app);
      var call := Group(Scoped(s), data, o.call);
      d := AppendTokens(d, app);
      d := AppendTokens(d, call);
      var output := Header(ts, level, prefix, msg) + d;
      LineEndsWithQuote(ts, level, prefix, msg, system, app, call);
      writer.Print(output);
    }

    /** Info logs at the fixed level "INFO". */
    method Info(ts: string, msg: string, data: Tags, o: Orders)
      requires OrdersFit(o, data)
      modifies writer
      ensures writer.writes == old(writer.writes) + [Line(ts, "INFO", msg, data, o) + "\n"]
    {
      Log(ts, msg, "INFO", data, o);
    }

    /** Debug logs at the fixed level "DEBUG". */
    method Debug(ts: string, msg: string, data: Tags, o: Orders)
      requires OrdersFit(o, data)
      modifies writer
      ensures writer.writes == old(writer.writes) + [Line(ts, "DEBUG", msg, data, o) + "\n"]
    {
      Log(ts, msg, "DEBUG", data, o);
    }

    /** Write, the io.Writer adapter: logs the trimmed text at INFO with no
        per-call tags and reports every byte as written, with no error. */
    method Write(b: string, ts: string, o: Orders) returns (n: nat, err: Option<string>)
      requires OrdersFit(o, map[])
      modifies writer
      ensures n == Utf8Length(b) && err == None
      ensures writer.writes == old(writer.writes) + [Line(ts, "INFO", TrimSpace(b), map[], o) + "\n"]
    {
      Info(ts, TrimSpace(b), map[], o);
      n, err := Utf8Length(b), None;
    }
  }

  /** saslog.New: a missing name is reported first, then a missing prefix;
      otherwise the logger keeps name, prefix and both maps exactly as
      given (nil included) and writes to the writer, or to `stderr` when
      the writer is nil. */
  function New(c: Config, stderr: Sink): (r: Result<Logger, string>)
    ensures r.Failure? <==> c.name == "" || c.prefix == ""
    ensures c.name == "" ==> r == Failure("missing field 'name'")
    ensures c.name != "" && c.prefix == "" ==> r == Failure("missing field 'prefix'")
    ensures r.Success? ==> && r.value.name == c.name && r.value.prefix == c.prefix
                           && r.value.systemData == c.systemData && r.value.appData == c.appData
                           && r.value.writer == (if c.writer == null then stderr else c.writer)
  {
    var writer := if c.writer == null then stderr else c.writer;
    if c.name == "" then Failure("missing field 'name'")
    else if c.prefix == "" then Failure("missing field 'prefix'")
    else Success(Logger(c.systemData, c.appData, c.name, c.prefix, writer))
  }

  /** The override that applies `top` on top of `below`: what deriving
      with `below` and then with `top` amounts to. */
  function Overlay(top: Config, below: Config): Config {
    Config(if top.writer != null then top.writer else below.writer,
           if top.name != "" then top.name else below.name,
           if top.prefix != "" then top.prefix else below.prefix,
           if top.systemData.Some? then top.systemData else below.systemData,
           if top.appData.Some? then top.appData else below.appData)
  }

  /** Deriving twice is deriving once with the two overrides overlaid. */
  lemma DeriveComposes(l: Logger, c1: Config, c2: Config)
    ensures l.New(c1).New(c2) == l.New(Overlay(c2, c1))
  {
  }

  /** Deriving with an empty override gives the parent back, and deriving
      again with the same override changes nothing. */
  lemma DeriveIdentityAndIdempotence(l: Logger, c: Config)
    ensures l.New(Config(null, "", "", None, None)) == l
    ensures l.New(c).New(c) == l.New(c)
  {
  }

  /** An override that supplies every field wins entirely: the derived
      logger is the one saslog.New builds from it, whatever the parent. */
  lemma CompleteOverrideIsNew(l: Logger, c: Config, stderr: Sink)
    requires c.writer != null && c.systemData.Some? && c.appData.Some?
    requires New(c, stderr).Success?
    ensures l.New(c) == New(c, stderr).value
  {
  }

  /** With a non-empty "service" system tag the name does not appear in
      the line at all: two loggers that differ only in name print the
      same line. */
  lemma ServiceHidesName(l: Logger, otherName: string, ts: string, level: string,
                         msg: string, data: Tags, o: Orders)
    requires Lookup(l.systemData, "service") != ""
    requires l.OrdersFit(o, data)
    ensures l.(name := otherName).Line(ts, level, msg, data, o) == l.Line(ts, level, msg, data, o)
  {
  }
}

/**
 * The line both loggers build in their `log` method:
 *   <timestamp> <level> <head> <quoted message><tokens>
 * where every tag becomes one token ` key="value"` (bare) or
 * ` scope.key="value"` (scoped), group by group: system, app, per-call.
 */
module Render {
  import opened Text

  /** A Go map F: string keys to string values. A nil map reads as empty. */
  type Tags = map<string, string>

  /** How the keys of one group are written. */
  datatype Scope = Bare | Scoped(name: string)

  /** fmt.Sprintf(" %s=%s", key, strconv.Quote(value)) for a bare group,
      fmt.Sprintf(" %s.%s=%s", scope, key, strconv.Quote(value)) otherwise. */
  function Token(scope: Scope, key: string, value: string): string {
    match scope
    case Bare => " " + key + "=" + Quote(value)
    case Scoped(s) => " " + s + "." + key + "=" + Quote(value)
  }

  /** The iteration orders the Go runtime picks for the three `range`
      loops of one `log` call. */
  datatype Orders = Orders(system: seq<string>, app: seq<string>, call: seq<string>)

  /** `order` is one visit of every key of `m`, each key once: what a Go
      `range` over the map produces, in whatever order the runtime picks. */
  predicate IsOrderOf(order: seq<string>, m: Tags) {
    && (forall i, j :: 0 <= i < j < |order| ==> order[i] != order[j])
    && (forall k :: k in m ==> k in order)
    && (forall k :: k in order ==> k in m)
  }

  /** One tag map being rendered, with its scope and its iteration order. */
  datatype Group = Group(scope: Scope, tags: Tags, order: seq<string>) {

    predicate Covered() {
      forall i :: 0 <= i < |order| ==> order[i] in tags
    }

    /** The tokens of the group, in iteration order. */
    function Tokens(): (ts: seq<string>)
      requires Covered()
      ensures |ts| == |order|
    {
      seq(|order|, i requires 0 <= i < |order| => Token(scope, order[i], tags[order[i]]))
    }
  }

  /** The concatenation of a list of strings. */
  function Concat(ss: seq<string>): string
    decreases |ss|
  {
    if ss == [] then "" else Concat(ss[..|ss| - 1]) + ss[|ss| - 1]
  }

  /** One of the `for key, value := range ...` loops of `log`: appends the
      tokens of a group to the accumulated text `d`. */
  method AppendTokens(d: string, g: Group) returns (r: string)
    requires g.Covered()
    ensures r == d + Concat(g.Tokens())
  {
    r := d;
    ghost var ts := g.Tokens();
    for i := 0 to |g.order|
      invariant r == d + Concat(ts[..i])
    {
      var key := g.order[i];
      var t := Token(g.scope, key, g.tags[key]);
      ConcatStep(d, ts, i);
      r := r + t;
    }
    assert ts[..|g.order|] == ts;
  }

  lemma ConcatStep(d: string, ts: seq<string>, i: nat)
    requires i < |ts|
    ensures d + Concat(ts[..i + 1]) == d + Concat(ts[..i]) + ts[i]
  {
    assert ts[..i + 1][..i] == ts[..i];
  }

  /** The fixed fields: timestamp, level, name (or prefix) and the quoted
      message, separated by single spaces. */
  function Header(ts: string, level: string, head: string, msg: string): string {
    ts + " " + level + " " + head + " " + Quote(msg)
  }

  /** The text `d` that the three loops of `log` accumulate. */
  function Tail(system: Group, app: Group, call: Group): string
    requires system.Covered() && app.Covered() && call.Covered()
  {
    Concat(system.Tokens()) + Concat(app.Tokens()) + Concat(call.Tokens())
  }

  /** The whole line `log` hands to log.Logger.Print. */
  function Line(ts: string, level: string, head: string, msg: string,
                system: Group, app: Group, call: Group): string
    requires system.Covered() && app.Covered() && call.Covered()
  {
    Header(ts, level, head, msg) + Tail(system, app, call)
  }

  lemma {:induction false} ConcatAppend(a: seq<string>, b: seq<string>)
    ensures Concat(a + b) == Concat(a) + Concat(b)
    decreases |b|
  {
    if b != [] {
      var n := |b| - 1;
      assert (a + b)[..|a + b| - 1] == a + b[..n];
      ConcatAppend(a, b[..n]);
    } else {
      assert a + b == a;
    }
  }

  lemma DistinctCount(order: seq<string>)
    requires forall i, j :: 0 <= i < j < |order| ==> order[i] != order[j]
    ensures |set k | k in order| == |order|
    decreases |order|
  {
    if order != [] {
      var n := |order| - 1;
      DistinctCount(order[..n]);
      assert (set k | k in order) == (set k | k in order[..n]) + {order[n]};
    }
  }

  lemma TokensCount(g: Group)
    requires IsOrderOf(g.order, g.tags)
    ensures g.Covered()
    ensures |g.Tokens()| == |g.tags|
  {
    DistinctCount(g.order);
    assert (set k | k in g.order) == g.tags.Keys;
  }

  /** A key of the map sits at exactly one position of its order, so the
      group renders its token exactly once. */
  lemma KeyAtOnePosition(order: seq<string>, m: Tags, k: string)
    requires IsOrderOf(order, m) && k in m
    ensures |set i | 0 <= i < |order| && order[i] == k| == 1
  {
    var j :| 0 <= j < |order| && order[j] == k;
    assert (set i | 0 <= i < |order| && order[i] == k) == {j};
  }

  /** A rendered group has as many tokens as its map has keys, the token
      of every key is among them, and every token is the token of one of
      its keys. With KeyAtOnePosition: exactly one token per key. */
  lemma TokensOneForEachKey(g: Group)
    requires IsOrderOf(g.order, g.tags)
    ensures g.Covered()
    ensures |g.Tokens()| == |g.tags|
    ensures forall k :: k in g.tags ==> Token(g.scope, k, g.tags[k]) in g.Tokens()
    ensures forall t :: t in g.Tokens() ==> exists k :: k in g.tags && t == Token(g.scope, k, g.tags[k])
  {
    TokensCount(g);
    forall k | k in g.tags ensures Token(g.scope, k, g.tags[k]) in g.Tokens() {
      var i :| 0 <= i < |g.order| && g.order[i] == k;
      assert g.Tokens()[i] == Token(g.scope, k, g.tags[k]);
    }
  }

  /** The line is the header followed by the tokens of the three groups in
      order: one per key of each map, with nothing merged across groups. */
  lemma LineTokens(ts: string, level: string, head: string, msg: string,
                   system: Group, app: Group, call: Group)
    requires IsOrderOf(system.order, system.tags)
    requires IsOrderOf(app.order, app.tags)
    requires IsOrderOf(call.order, call.tags)
    ensures system.Covered() && app.Covered() && call.Covered()
    ensures var all := system.Tokens() + app.Tokens() + call.Tokens();
            && Line(ts, level, head, msg, system, app, call) == Header(ts, level, head, msg) + Concat(all)
            && |all| == |system.tags| + |app.tags| + |call.tags|
  {
    TokensCount(system);
    TokensCount(app);
    TokensCount(call);
    var s, a, c := system.Tokens(), app.Tokens(), call.Tokens();
    ConcatAppend(s, a);
    ConcatAppend(s + a, c);
  }

  /** On printable ASCII values without quotes or backslashes a token is
      the key, `=` and the value in double quotes. */
  lemma PlainToken(scope: Scope, key: string, value: string)
    requires forall i :: 0 <= i < |value| ==> Plain(value[i])
    ensures scope.Bare? ==> Token(scope, key, value) == " " + key + "=\"" + value + "\""
    ensures scope.Scoped? ==> Token(scope, key, value) == " " + scope.name + "." + key + "=\"" + value + "\""
  {
    QuotePlain(value);
  }

  predicate EndsWithQuote(s: string) {
    |s| > 0 && s[|s| - 1] == '"'
  }

  lemma TokenEndsWithQuote(scope: Scope, key: string, value: string)
    ensures EndsWithQuote(Token(scope, key, value))
  {
    QuoteDelimited(value);
  }

  /** The tokens of a group, run together, end with a closing quote. */
  lemma GroupEndsWithQuote(g: Group)
    requires g.Covered()
    ensures g.order == [] || EndsWithQuote(Concat(g.Tokens()))
  {
    if g.order != [] {
      var n := |g.order| - 1;
      TokenEndsWithQuote(g.scope, g.order[n], g.tags[g.order[n]]);
    }
  }

  /** Every line ends with a closing quote, so log.Logger.Print adds exactly
      one newline to it. */
  lemma LineEndsWithQuote(ts: string, level: string, head: string, msg: string,
                          system: Group, app: Group, call: Group)
    requires system.Covered() && app.Covered() && call.Covered()
    ensures EndsWithQuote(Line(ts, level, head, msg, system, app, call))
  {
    QuoteDelimited(msg);
    GroupEndsWithQuote(system);
    GroupEndsWithQuote(app);
    GroupEndsWithQuote(call);
  }
}

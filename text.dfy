/**
 * The Go library text functions the loggers rely on:
 * strconv.Quote (values and messages), strings.TrimSpace (the Write
 * adapter) and len([]byte(s)) (the count Write reports).
 */
module Text {
  import opened Wrappers

  // ---------------------------------------------------------------------
  // strings.TrimSpace
  // ---------------------------------------------------------------------

  /** unicode.IsSpace: the characters strings.TrimSpace removes. */
  predicate IsSpace(c: char) {
    var n := c as int;
    n == 0x09 || n == 0x0A || n == 0x0B || n == 0x0C || n == 0x0D || n == 0x20
    || n == 0x85 || n == 0xA0 || n == 0x1680 || (0x2000 <= n <= 0x200A)
    || n == 0x2028 || n == 0x2029 || n == 0x202F || n == 0x205F || n == 0x3000
  }

  /** Every character of `s[lo..hi]` is white space. */
  predicate SpaceBetween(s: string, lo: nat, hi: nat)
    requires lo <= hi <= |s|
  {
    forall k :: lo <= k < hi ==> IsSpace(s[k])
  }

  /** The scan from the front: the index of the first character at or
      after `i` that is not white space, or `|s|` if there is none. */
  function SkipSpace(s: string, i: nat): (j: nat)
    requires i <= |s|
    ensures i <= j <= |s| && SpaceBetween(s, i, j)
    ensures j == |s| || !IsSpace(s[j])
    decreases |s| - i
  {
    if i < |s| && IsSpace(s[i]) then SkipSpace(s, i + 1) else i
  }

  /** The scan from the back, which stops at `lo`: the end of `s[lo..hi]`
      once the white space at its back is dropped. */
  function SkipSpaceBack(s: string, lo: nat, hi: nat): (j: nat)
    requires lo <= hi <= |s|
    ensures lo <= j <= hi && SpaceBetween(s, j, hi)
    ensures j == lo || !IsSpace(s[j - 1])
  {
    if lo < hi && IsSpace(s[hi - 1]) then SkipSpaceBack(s, lo, hi - 1) else hi
  }

  /** strings.TrimSpace: white space removed at both ends. */
  function TrimSpace(s: string): (r: string)
    ensures r == [] || (!IsSpace(r[0]) && !IsSpace(r[|r| - 1]))
  {
    var lo := SkipSpace(s, 0);
    s[lo..SkipSpaceBack(s, lo, |s|)]
  }

  /** TrimSpace removes only white space, and only at the two ends: the
      result is the slice of `s` from `i`, with only white space before
      and after it. */
  lemma TrimSpaceRemovesOnlySpace(s: string)
    ensures var r := TrimSpace(s);
            var i := SkipSpace(s, 0);
            && i + |r| <= |s| && r == s[i..i + |r|]
            && SpaceBetween(s, 0, i) && SpaceBetween(s, i + |r|, |s|)
  {
  }

  /** Trimming twice is trimming once. */
  lemma TrimSpaceIdempotent(s: string)
    ensures TrimSpace(TrimSpace(s)) == TrimSpace(s)
  {
    var r := TrimSpace(s);
    assert SkipSpace(r, 0) == 0;
    assert SkipSpaceBack(r, 0, |r|) == |r|;
    assert r[0..|r|] == r;
  }

  // ---------------------------------------------------------------------
  // len([]byte(s)) for a string holding valid UTF-8
  // ---------------------------------------------------------------------

  /** Number of bytes of the UTF-8 encoding of one character. */
  function Utf8Width(c: char): (w: nat)
    ensures 1 <= w <= 4
    ensures w == 1 <==> c as int < 0x80
  {
    var n := c as int;
    if n < 0x80 then 1 else if n < 0x800 then 2 else if n < 0x10000 then 3 else 4
  }

  /** Number of bytes of the UTF-8 encoding of `s`. */
  function Utf8Length(s: string): (n: nat)
    ensures |s| <= n <= 4 * |s|
    ensures (forall i :: 0 <= i < |s| ==> s[i] as int < 0x80) <==> n == |s|
  {
    if s == [] then 0 else Utf8Width(s[0]) + Utf8Length(s[1..])
  }

  // ---------------------------------------------------------------------
  // strconv.Quote
  // ---------------------------------------------------------------------

  const HexDigits: string := "0123456789abcdef"

  /** Two lower-case hex digits of a byte value. */
  function Hex2(n: nat): (h: string)
    requires n < 0x100
    ensures |h| == 2
  {
    [HexDigits[n / 16], HexDigits[n % 16]]
  }

  /** Four lower-case hex digits of a 16-bit value. */
  function Hex4(n: nat): (h: string)
    requires n < 0x10000
    ensures |h| == 4
  {
    Hex2(n / 0x100) + Hex2(n % 0x100)
  }

  /** Characters strconv.IsPrint rejects. Exact below U+0100; above it every
      character counts as printable in this model. */
  predicate NonPrintable(c: char) {
    var n := c as int;
    n < 0x20 || (0x7F <= n <= 0xA0) || n == 0xAD
  }

  /** The escaped form strconv.Quote gives one character. */
  function EscapeChar(c: char): (e: string)
  {
    var n := c as int;
    if c == '"' then "\\\""
    else if c == '\\' then "\\\\"
    else if !NonPrintable(c) then [c]
    else if n == 0x07 then "\\a"
    else if n == 0x08 then "\\b"
    else if n == 0x0C then "\\f"
    else if n == 0x0A then "\\n"
    else if n == 0x0D then "\\r"
    else if n == 0x09 then "\\t"
    else if n == 0x0B then "\\v"
    else if n < 0x20 || n == 0x7F then "\\x" + Hex2(n)
    else "\\u" + Hex4(n)
  }

  /** The escaped body of a quoted string. */
  function Escape(s: string): (e: string)
    decreases |s|
  {
    if s == [] then [] else EscapeChar(s[0]) + Escape(s[1..])
  }

  /** strconv.Quote: a double-quoted Go string literal for `s`. */
  function Quote(s: string): (q: string)
  {
    "\"" + Escape(s) + "\""
  }

  /** A quoted string opens and closes with a double quote. */
  lemma QuoteDelimited(s: string)
    ensures |Quote(s)| >= 2 && Quote(s)[0] == '"' && Quote(s)[|Quote(s)| - 1] == '"'
  {
  }

  /** Printable ASCII other than the double quote and the backslash. */
  predicate Plain(c: char) {
    0x20 <= c as int < 0x7F && c != '"' && c != '\\'
  }

  /** On printable ASCII without quotes or backslashes, strconv.Quote only
      adds the surrounding double quotes. */
  lemma {:induction false} QuotePlain(s: string)
    requires forall i :: 0 <= i < |s| ==> Plain(s[i])
    ensures Quote(s) == "\"" + s + "\""
  {
    EscapePlain(s);
  }

  lemma {:induction false} EscapePlain(s: string)
    requires forall i :: 0 <= i < |s| ==> Plain(s[i])
    ensures Escape(s) == s
    decreases |s|
  {
    if s != [] {
      EscapePlain(s[1..]);
      assert [s[0]] + s[1..] == s;
    }
  }

  // ---------------------------------------------------------------------
  // Decoding a quoted string: the inverse Quote is checked against
  // ---------------------------------------------------------------------

  /** Value of a lower-case hex digit. */
  function HexValue(c: char): Option<nat> {
    if '0' <= c <= '9' then Some(c as int - '0' as int)
    else if 'a' <= c <= 'f' then Some(c as int - 'a' as int + 10)
    else None
  }

  /** Value of a run of hex digits. */
  function HexNumber(h: string): Option<nat>
    decreases |h|
  {
    if h == [] then Some(0)
    else match (HexNumber(h[..|h| - 1]), HexValue(h[|h| - 1]))
      case (Some(hi), Some(lo)) => Some(hi * 16 + lo)
      case _ => None
  }

  /** The character with code point `n`, when there is one. */
  function CharOf(n: nat): Option<char> {
    if n < 0xD800 || (0xE000 <= n < 0x110000) then Some(n as char) else None
  }

  function Prepend(c: char, r: Option<string>): Option<string> {
    match r
    case Some(t) => Some([c] + t)
    case None => None
  }

  /** Decodes an escaped body: the escapes strconv.Quote emits, and no raw
      double quote or newline. */
  function Unescape(b: string): (r: Option<string>)
    decreases |b|
  {
    if b == [] then Some([])
    else if b[0] == '"' || b[0] == '\n' then None
    else if b[0] != '\\' then Prepend(b[0], Unescape(b[1..]))
    else if |b| < 2 then None
    else
      var k := b[1];
      if k == '"' || k == '\\' then Prepend(k, Unescape(b[2..]))
      else if k == 'a' then Prepend(7 as char, Unescape(b[2..]))
      else if k == 'b' then Prepend(8 as char, Unescape(b[2..]))
      else if k == 'f' then Prepend(12 as char, Unescape(b[2..]))
      else if k == 'n' then Prepend(10 as char, Unescape(b[2..]))
      else if k == 'r' then Prepend(13 as char, Unescape(b[2..]))
      else if k == 't' then Prepend(9 as char, Unescape(b[2..]))
      else if k == 'v' then Prepend(11 as char, Unescape(b[2..]))
      else if k == 'x' && |b| >= 4 then
        match HexNumber(b[2..4])
        case Some(n) => (match CharOf(n) case Some(c) => Prepend(c, Unescape(b[4..])) case None => None)
        case None => None
      else if k == 'u' && |b| >= 6 then
        match HexNumber(b[2..6])
        case Some(n) => (match CharOf(n) case Some(c) => Prepend(c, Unescape(b[6..])) case None => None)
        case None => None
      else None
  }

  /** Decodes a double-quoted string literal. */
  function Unquote(q: string): Option<string> {
    if |q| < 2 || q[0] != '"' || q[|q| - 1] != '"' then None
    else Unescape(q[1..|q| - 1])
  }

  lemma HexDigitValue(n: nat)
    requires n < 16
    ensures HexValue(HexDigits[n]) == Some(n)
  {
  }

  lemma Hex2Value(n: nat)
    requires n < 0x100
    ensures HexNumber(Hex2(n)) == Some(n)
  {
    var h := Hex2(n);
    HexDigitValue(n / 16);
    HexDigitValue(n % 16);
    assert h[..1][..0] == [];
    assert HexNumber(h[..1]) == Some(n / 16);
  }

  lemma Hex4Value(n: nat)
    requires n < 0x10000
    ensures HexNumber(Hex4(n)) == Some(n)
  {
    var hi, lo := n / 0x100, n % 0x100;
    var h3 := Hex2(hi) + [HexDigits[lo / 16]];
    Hex2Value(hi);
    HexDigitValue(lo / 16);
    HexDigitValue(lo % 16);
    HexNumberSnoc(Hex2(hi), HexDigits[lo / 16]);
    HexNumberSnoc(h3, HexDigits[lo % 16]);
    assert Hex4(n) == h3 + [HexDigits[lo % 16]];
    HexPlaces(n);
  }

  /** One more digit on the right multiplies the value by 16 and adds it. */
  lemma HexNumberSnoc(h: string, d: char)
    requires HexNumber(h).Some? && HexValue(d).Some?
    ensures HexNumber(h + [d]) == Some(HexNumber(h).value * 16 + HexValue(d).value)
  {
    assert (h + [d])[..|h|] == h;
  }

  lemma HexPlaces(n: nat)
    requires n < 0x10000
    ensures ((n / 0x100) * 16 + (n % 0x100) / 16) * 16 + (n % 0x100) % 16 == n
  {
  }

  /** Decoding the escape of one character gives that character back,
      whatever follows. */
  lemma UnescapeEscapeChar(c: char, rest: string)
    ensures Unescape(EscapeChar(c) + rest) == Prepend(c, Unescape(rest))
  {
    var n := c as int;
    var b := EscapeChar(c) + rest;
    if c == '"' || c == '\\' {
      assert b[2..] == rest;
    } else if !NonPrintable(c) {
      assert b[1..] == rest;
    } else if n == 0x07 || n == 0x08 || n == 0x0C || n == 0x0A || n == 0x0D || n == 0x09 || n == 0x0B {
      assert b[2..] == rest;
    } else if n < 0x20 || n == 0x7F {
      UnescapeHex2(n, rest);
    } else {
      UnescapeHex4(n, rest);
    }
  }

  /** Decoding a `\x` escape gives its character back. */
  lemma UnescapeHex2(n: nat, rest: string)
    requires n < 0x80
    ensures Unescape("\\x" + Hex2(n) + rest) == Prepend(n as char, Unescape(rest))
  {
    var b := "\\x" + Hex2(n) + rest;
    assert b[2..4] == Hex2(n) && b[4..] == rest;
    Hex2Value(n);
  }

  /** Decoding a `\u` escape of a non-surrogate gives its character back. */
  lemma UnescapeHex4(n: nat, rest: string)
    requires n < 0xD800
    ensures Unescape("\\u" + Hex4(n) + rest) == Prepend(n as char, Unescape(rest))
  {
    var b := "\\u" + Hex4(n) + rest;
    assert b[2..6] == Hex4(n) && b[6..] == rest;
    Hex4Value(n);
  }

  lemma {:induction false} UnescapeEscape(s: string)
    ensures Unescape(Escape(s)) == Some(s)
    decreases |s|
  {
    if s != [] {
      UnescapeEscapeChar(s[0], Escape(s[1..]));
      UnescapeEscape(s[1..]);
      assert [s[0]] + s[1..] == s;
    }
  }

  /** strconv.Quote loses nothing: decoding its output gives back `s`. */
  lemma UnquoteQuote(s: string)
    ensures Unquote(Quote(s)) == Some(s)
  {
    var q := Quote(s);
    assert q[1..|q| - 1] == Escape(s);
    UnescapeEscape(s);
  }

  /** A quoted string holds no control character (nothing below U+0100
      that strconv.IsPrint rejects), in particular no raw newline, so a
      quoted message or value cannot break a log line. */
  lemma {:induction false} QuoteIsPrintable(s: string)
    ensures forall i :: 0 <= i < |Quote(s)| ==> !NonPrintable(Quote(s)[i])
  {
    EscapeIsPrintable(s);
  }

  lemma {:induction false} EscapeIsPrintable(s: string)
    ensures forall i :: 0 <= i < |Escape(s)| ==> !NonPrintable(Escape(s)[i])
    decreases |s|
  {
    if s != [] {
      EscapeIsPrintable(s[1..]);
      EscapeCharIsPrintable(s[0]);
      var e, t := EscapeChar(s[0]), Escape(s[1..]);
      forall i | 0 <= i < |e + t| ensures !NonPrintable((e + t)[i]) {
        if i >= |e| { assert (e + t)[i] == t[i - |e|]; }
      }
    }
  }

  lemma EscapeCharIsPrintable(c: char)
    ensures forall i :: 0 <= i < |EscapeChar(c)| ==> !NonPrintable(EscapeChar(c)[i])
  {
    var n := c as int;
    if NonPrintable(c) && c != '"' && c != '\\' {
      if n == 0x07 || n == 0x08 || n == 0x0C || n == 0x0A || n == 0x0D || n == 0x09 || n == 0x0B {
      } else if n < 0x20 || n == 0x7F {
        var h := Hex2(n);
        assert forall i :: 0 <= i < 2 ==> h[i] in HexDigits;
      } else {
        var h := Hex4(n);
        assert h == Hex2(n / 0x100) + Hex2(n % 0x100);
        assert forall i :: 0 <= i < 4 ==> h[i] in HexDigits;
      }
    }
  }
}

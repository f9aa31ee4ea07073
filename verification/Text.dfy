/** Text primitives: splitting on a separator, dropping a character, decimals and JSON strings. */
module Text {
  /** `s.split(sep)`: never empty. */
  function Split(s: string, sep: char): (parts: seq<string>)
    ensures |parts| >= 1
    ensures forall p :: p in parts ==> sep !in p
  {
    if s == "" then [""]
    else
      var rest := Split(s[1..], sep);
      if s[0] == sep then [""] + rest else [[s[0]] + rest[0]] + rest[1..]
  }

  /** `parts.join(sep)`. */
  function Join(parts: seq<string>, sep: char): string
  {
    if parts == [] then ""
    else if |parts| == 1 then parts[0]
    else parts[0] + [sep] + Join(parts[1..], sep)
  }

  lemma {:induction false} SplitOne(p: string, sep: char)
    requires sep !in p
    ensures Split(p, sep) == [p]
  {
    if p != "" {
      assert p[0] in p;
      forall c | c in p[1..] ensures c in p {}
      SplitOne(p[1..], sep);
      assert [p[0]] + p[1..] == p;
    }
  }

  lemma {:induction false} SplitHead(p: string, rest: string, sep: char)
    requires sep !in p
    ensures Split(p + [sep] + rest, sep) == [p] + Split(rest, sep)
  {
    var s := p + [sep] + rest;
    if p == "" {
      assert s[1..] == rest;
    } else {
      assert p[0] in p;
      forall c | c in p[1..] ensures c in p {}
      SplitHead(p[1..], rest, sep);
      assert s[1..] == p[1..] + [sep] + rest;
      assert [p[0]] + p[1..] == p;
    }
  }

  /** Splitting what was joined gives the parts back, provided no part holds the separator. */
  lemma {:induction false} SplitJoin(parts: seq<string>, sep: char)
    requires parts != [] && forall p :: p in parts ==> sep !in p
    ensures Split(Join(parts, sep), sep) == parts
    decreases |parts|
  {
    assert parts[0] in parts;
    if |parts| == 1 {
      SplitOne(parts[0], sep);
    } else {
      forall p | p in parts[1..] ensures sep !in p { assert p in parts; }
      SplitJoin(parts[1..], sep);
      SplitHead(parts[0], Join(parts[1..], sep), sep);
    }
  }

  /** Joining what was split gives the text back. */
  lemma {:induction false} JoinSplit(s: string, sep: char)
    ensures Join(Split(s, sep), sep) == s
    decreases |s|
  {
    if s != "" {
      JoinSplit(s[1..], sep);
      var rest := Split(s[1..], sep);
      if s[0] == sep {
        assert ([""] + rest)[1..] == rest;
        assert "" + [sep] + s[1..] == s;
      } else {
        var parts := [[s[0]] + rest[0]] + rest[1..];
        assert Split(s, sep) == parts;
        assert parts[1..] == rest[1..];
        assert s == [s[0]] + s[1..];
        if |rest| > 1 {
          assert [s[0]] + rest[0] + [sep] + Join(rest[1..], sep) == [s[0]] + (rest[0] + [sep] + Join(rest[1..], sep));
        }
      }
    }
  }

  /** `s.replaceAll(c, '')`. */
  function Drop(s: string, c: char): (r: string)
    ensures c !in r
    ensures c !in s ==> r == s
    ensures forall d :: d in r ==> d in s
  {
    if s == "" then "" else if s[0] == c then Drop(s[1..], c) else [s[0]] + Drop(s[1..], c)
  }

  lemma {:induction false} DropConcat(s: string, t: string, c: char)
    ensures Drop(s + t, c) == Drop(s, c) + Drop(t, c)
    decreases |s|
  {
    if s == "" {
      assert s + t == t;
    } else {
      assert (s + t)[1..] == s[1..] + t;
      DropConcat(s[1..], t, c);
    }
  }

  predicate IsDigit(c: char) { '0' <= c <= '9' }

  predicate AllDigits(s: string) { forall i :: 0 <= i < |s| ==> IsDigit(s[i]) }

  /** A VND amount as the provider sends it: 1 to 18 digits, leading zeros allowed. */
  type Decimal = s: string | 1 <= |s| <= 18 && AllDigits(s) witness "0"

  /** `BigInt(text)`. */
  function BigIntOf(s: string): nat
    requires AllDigits(s)
  {
    if s == "" then 0 else 10 * BigIntOf(s[..|s| - 1]) + (s[|s| - 1] as int - '0' as int)
  }

  function NatText(n: nat): (s: string)
    ensures |s| > 0 && AllDigits(s)
    ensures BigIntOf(s) == n
  {
    if n < 10 then
      var s := [('0' as int + n) as char];
      assert s[..0] == "";
      s
    else
      var s := NatText(n / 10) + [('0' as int + n % 10) as char];
      assert s[..|s| - 1] == NatText(n / 10);
      s
  }

  function HexDigit(n: nat): char
    requires n < 16
  {
    if n < 10 then ('0' as int + n) as char else ('a' as int + n - 10) as char
  }

  /** One character of a JSON string. */
  function Escape(c: char): (s: string)
    ensures |s| > 0
  {
    if c == '"' then "\\\""
    else if c == '\\' then "\\\\"
    else if c == 8 as char then "\\b"
    else if c == '\t' then "\\t"
    else if c == '\n' then "\\n"
    else if c == 12 as char then "\\f"
    else if c == '\r' then "\\r"
    else if c < ' ' then "\\u00" + [HexDigit(c as int / 16), HexDigit(c as int % 16)]
    else [c]
  }

  function EscapeAll(s: string): string {
    if s == "" then "" else Escape(s[0]) + EscapeAll(s[1..])
  }

  /** `JSON.stringify(s)` for a string. */
  function Quote(s: string): string {
    "\"" + EscapeAll(s) + "\""
  }

  lemma HexDigitInjective(m: nat, n: nat)
    requires m < 16 && n < 16 && HexDigit(m) == HexDigit(n)
    ensures m == n
  {
  }

  /** Escapes are a prefix code, and none of them starts with a bare quote. */
  lemma EscapePrefixCode(c: char, d: char, x: string, y: string)
    requires Escape(c) + x == Escape(d) + y
    ensures c == d && x == y
  {
    var s := Escape(c) + x;
    assert s[0] == Escape(c)[0] == Escape(d)[0];
    if s[0] == '\\' {
      assert s[1] == Escape(c)[1] == Escape(d)[1];
      if s[1] == 'u' {
        assert s[4] == Escape(c)[4] == Escape(d)[4] && s[5] == Escape(c)[5] == Escape(d)[5];
        HexDigitInjective(c as int / 16, d as int / 16);
        HexDigitInjective(c as int % 16, d as int % 16);
      }
    }
    assert c == d;
    assert x == s[|Escape(c)|..] == y;
  }

  lemma ClosingQuote(a: string, x: string)
    ensures (EscapeAll(a) + "\"" + x)[0] == '"' <==> a == ""
    ensures a != "" ==> EscapeAll(a) + "\"" + x == Escape(a[0]) + (EscapeAll(a[1..]) + "\"" + x)
  {
    if a != "" {
      var tail := EscapeAll(a[1..]) + "\"" + x;
      assert EscapeAll(a) + "\"" + x == Escape(a[0]) + tail;
      assert (Escape(a[0]) + tail)[0] == Escape(a[0])[0];
    }
  }

  lemma {:induction false} EscapeAllInjective(a: string, b: string, x: string, y: string)
    requires EscapeAll(a) + "\"" + x == EscapeAll(b) + "\"" + y
    ensures a == b && x == y
    decreases |a|
  {
    ClosingQuote(a, x);
    ClosingQuote(b, y);
    if a == "" {
      assert b == "";
      assert EscapeAll("") + "\"" + x == "\"" + x && EscapeAll("") + "\"" + y == "\"" + y;
      assert ("\"" + x)[1..] == x && ("\"" + y)[1..] == y;
    } else {
      EscapePrefixCode(a[0], b[0], EscapeAll(a[1..]) + "\"" + x, EscapeAll(b[1..]) + "\"" + y);
      EscapeAllInjective(a[1..], b[1..], x, y);
      assert a == [a[0]] + a[1..] && b == [b[0]] + b[1..];
    }
  }

  lemma QuoteTail(a: string, x: string)
    ensures |Quote(a) + x| > 0 && (Quote(a) + x)[1..] == EscapeAll(a) + "\"" + x
  {
    hide EscapeAll;
  }

  /** A quoted string is self-delimiting. */
  lemma QuoteInjective(a: string, b: string, x: string, y: string)
    requires Quote(a) + x == Quote(b) + y
    ensures a == b && x == y
  {
    hide Quote, EscapeAll;
    QuoteTail(a, x);
    QuoteTail(b, y);
    EscapeAllInjective(a, b, x, y);
  }

  /** A run of digits ends at the first character that is not one. */
  lemma {:induction false} DigitsInjective(a: string, b: string, x: string, y: string)
    requires AllDigits(a) && AllDigits(b)
    requires x != "" && !IsDigit(x[0]) && y != "" && !IsDigit(y[0])
    requires a + x == b + y
    ensures a == b && x == y
    decreases |a|
  {
    var s := a + x;
    assert IsDigit(s[0]) <==> a != "";
    assert IsDigit((b + y)[0]) <==> b != "";
    if a == "" {
      assert "" + x == x && "" + y == y;
    } else {
      assert s[0] == a[0] == b[0];
      assert s[1..] == a[1..] + x == b[1..] + y;
      DigitsInjective(a[1..], b[1..], x, y);
      assert a == [a[0]] + a[1..] && b == [b[0]] + b[1..];
    }
  }
}

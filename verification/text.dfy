/** String helpers that stand for the Python built-ins the core relies on:
    `sep.join(parts)`, `str(n)` for a natural number and `repr` of a string
    and of a list of strings. */
module Text {

  /** Python's `sep.join(parts)`. */
  function Join(parts: seq<string>, sep: string): string
  {
    if |parts| == 0 then ""
    else if |parts| == 1 then parts[0]
    else parts[0] + sep + Join(parts[1..], sep)
  }

  /** Joining two lists is joining each and putting one separator between
      them, when both are non-empty: order is kept and nothing is dropped. */
  lemma {:induction false} JoinAppend(a: seq<string>, b: seq<string>, sep: string)
    ensures Join(a + b, sep) ==
              if a == [] then Join(b, sep)
              else if b == [] then Join(a, sep)
              else Join(a, sep) + sep + Join(b, sep)
  {
    if a == [] {
      assert a + b == b;
    } else if b == [] {
      assert a + b == a;
    } else if |a| == 1 {
      assert (a + b)[1..] == b;
    } else {
      assert (a + b)[1..] == a[1..] + b;
      JoinAppend(a[1..], b, sep);
    }
  }

  /** A join of non-empty parts is empty only when there are no parts. */
  lemma JoinOfNonEmptyParts(parts: seq<string>, sep: string)
    requires forall i :: 0 <= i < |parts| ==> parts[i] != ""
    ensures Join(parts, sep) == "" <==> parts == []
  {
    if |parts| > 1 {
      assert |Join(parts, sep)| >= |parts[0]|;
    }
  }

  predicate IsDigit(c: char) {
    '0' <= c <= '9'
  }

  function Digit(d: nat): (c: char)
    requires d < 10
    ensures IsDigit(c) && c as int - '0' as int == d
  {
    ('0' as int + d) as char
  }

  /** Python's `str(n)` for a natural number: its decimal digits. */
  function NatToString(n: nat): (r: string)
    ensures |r| > 0 && forall i :: 0 <= i < |r| ==> IsDigit(r[i])
  {
    if n < 10 then [Digit(n)] else NatToString(n / 10) + [Digit(n % 10)]
  }

  /** The number a string of decimal digits denotes. */
  function DigitsValue(s: string): nat
    requires forall i :: 0 <= i < |s| ==> IsDigit(s[i])
  {
    if s == [] then 0
    else
      assert IsDigit(s[|s| - 1]);
      10 * DigitsValue(s[..|s| - 1]) + (s[|s| - 1] as int - '0' as int)
  }

  lemma {:induction false} NatToStringRoundTrip(n: nat)
    ensures DigitsValue(NatToString(n)) == n
  {
    if n >= 10 {
      var s := NatToString(n);
      assert s[..|s| - 1] == NatToString(n / 10);
      NatToStringRoundTrip(n / 10);
    }
  }

  /** A decimal number followed by a non-digit can be read back: the number
      and the text after it are determined. */
  lemma NumberThenNonDigit(i: nat, j: nat, x: string, y: string)
    requires |x| > 0 && |y| > 0 && !IsDigit(x[0]) && !IsDigit(y[0])
    requires NatToString(i) + x == NatToString(j) + y
    ensures i == j && x == y
  {
    var a, b := NatToString(i), NatToString(j);
    assert |a| == |b| by {
      assert (a + x)[|a|] == x[0] && (b + y)[|b|] == y[0];
    }
    assert a == (a + x)[..|a|] == (b + y)[..|b|] == b;
    NatToStringRoundTrip(i);
    NatToStringRoundTrip(j);
    assert x == (a + x)[|a|..] == (b + y)[|b|..] == y;
  }

  /** One character of a Python string literal, inside quotes `q`. */
  function EscapeChar(c: char, q: char): string
  {
    if c == '\\' || c == q then ['\\', c]
    else if c == '\n' then "\\n"
    else if c == '\r' then "\\r"
    else if c == '\t' then "\\t"
    else [c]
  }

  function Escape(s: string, q: char): string
  {
    if s == [] then "" else EscapeChar(s[0], q) + Escape(s[1..], q)
  }

  /** Python's `repr` of a string: single quotes unless the text holds a
      single quote and no double quote. */
  function PyStrRepr(s: string): (r: string)
    ensures |r| >= 2 && r[0] == r[|r| - 1] && (r[0] == '\'' || r[0] == '"')
  {
    var q := if '\'' in s && '"' !in s then '"' else '\'';
    [q] + Escape(s, q) + [q]
  }

  /** Python's `repr` (and `str`) of a list of strings. */
  function PyListRepr(items: seq<string>): string
  {
    "[" + Join(seq(|items|, i requires 0 <= i < |items| => PyStrRepr(items[i])), ", ") + "]"
  }

  /** Text that `repr` leaves as it is between single quotes. */
  predicate Plain(s: string)
  {
    forall i :: 0 <= i < |s| ==> s[i] != '\'' && s[i] != '\\' && s[i] != '\n' && s[i] != '\r' && s[i] != '\t'
  }

  lemma {:induction false} EscapePlain(s: string)
    requires Plain(s)
    ensures Escape(s, '\'') == s
  {
    if s != [] {
      assert Plain(s[1..]);
      EscapePlain(s[1..]);
    }
  }

  lemma PlainRepr(s: string)
    requires Plain(s)
    ensures PyStrRepr(s) == "'" + s + "'"
  {
    EscapePlain(s);
  }
}

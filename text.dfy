/** The small pieces of Python's string handling that rendering a chain uses:
    `sep.join(xs)`, `list.reverse()`, `str(n)` for an integer, and counting
    the occurrences of one character. */
module Text {

  /** `sep.join(xs)`: the strings of `xs` in order, with `sep` between neighbours. */
  function Join(xs: seq<string>, sep: string): string
  {
    if |xs| == 0 then ""
    else if |xs| == 1 then xs[0]
    else Join(xs[..|xs| - 1], sep) + sep + xs[|xs| - 1]
  }

  /** Unfolding a join from the front: the first piece, the separator, and
      the join of the rest. */
  lemma {:induction false} JoinCons(xs: seq<string>, sep: string)
    requires |xs| > 1
    ensures Join(xs, sep) == xs[0] + sep + Join(xs[1..], sep)
    decreases |xs|
  {
    var n := |xs|;
    if n > 2 {
      JoinCons(xs[..n - 1], sep);
      assert xs[..n - 1][1..] == xs[1..][..n - 2];
    }
  }

  /** Appending one more piece to a join adds the separator only when
      something was there before. */
  lemma JoinSnoc(xs: seq<string>, x: string, sep: string)
    ensures Join(xs + [x], sep) == if xs == [] then x else Join(xs, sep) + sep + x
  {
    assert (xs + [x])[..|xs|] == xs;
  }

  /** A join of non-empty pieces is empty exactly when there are no pieces. */
  lemma JoinEmptyIff(xs: seq<string>, sep: string)
    requires forall i :: 0 <= i < |xs| ==> xs[i] != ""
    ensures Join(xs, sep) == "" <==> xs == []
  {
    if |xs| > 1 {
      assert |Join(xs, sep)| >= |xs[|xs| - 1]| > 0;
    }
  }

  /** `list.reverse()`: element i of the result is element |s|-1-i of `s`. */
  function Reversed<T>(s: seq<T>): (r: seq<T>)
    ensures |r| == |s|
    ensures forall i :: 0 <= i < |s| ==> r[i] == s[|s| - 1 - i]
  {
    if s == [] then [] else [s[|s| - 1]] + Reversed(s[..|s| - 1])
  }

  predicate IsDigit(ch: char)
  {
    '0' <= ch <= '9'
  }

  function DigitChar(d: nat): (ch: char)
    requires d < 10
    ensures IsDigit(ch)
  {
    ('0' as int + d) as char
  }

  function DigitValue(ch: char): nat
  {
    if IsDigit(ch) then ch as int - '0' as int else 0
  }

  /** `str(n)` for a non-negative integer: decimal digits, most significant
      first, with no leading zero. */
  function NatToString(n: nat): (r: string)
    ensures |r| > 0
    ensures forall i :: 0 <= i < |r| ==> IsDigit(r[i])
    ensures r[0] == '0' ==> r == "0"
    decreases n
  {
    if n < 10 then [DigitChar(n)] else NatToString(n / 10) + [DigitChar(n % 10)]
  }

  /** The value of a string of decimal digits, read most significant first. */
  function DecimalValue(s: string): nat
  {
    if s == [] then 0 else DecimalValue(s[..|s| - 1]) * 10 + DigitValue(s[|s| - 1])
  }

  lemma {:induction false} DecimalRoundTrip(n: nat)
    ensures DecimalValue(NatToString(n)) == n
    decreases n
  {
    var s := NatToString(n);
    if n >= 10 {
      DecimalRoundTrip(n / 10);
      assert s[..|s| - 1] == NatToString(n / 10);
    }
  }

  /** `str(i)` for any integer: a minus sign before the digits of a negative one. */
  function IntToString(i: int): (r: string)
  {
    if i < 0 then "-" + NatToString(-i) else NatToString(i)
  }

  /** Reads back what IntToString writes. */
  function ParseInt(s: string): int
  {
    if |s| > 0 && s[0] == '-' then -(DecimalValue(s[1..]) as int) else DecimalValue(s)
  }

  lemma IntToStringRoundTrip(i: int)
    ensures ParseInt(IntToString(i)) == i
  {
    if i < 0 {
      DecimalRoundTrip(-i);
      assert IntToString(i)[1..] == NatToString(-i);
    } else {
      DecimalRoundTrip(i);
    }
  }

  /** The total of a sequence of naturals. */
  function Sum(xs: seq<nat>): nat
  {
    if xs == [] then 0 else Sum(xs[..|xs| - 1]) + xs[|xs| - 1]
  }

  /** The number of occurrences of `ch` in `s`. */
  function Count(ch: char, s: string): nat
  {
    if s == [] then 0 else Count(ch, s[..|s| - 1]) + (if s[|s| - 1] == ch then 1 else 0)
  }

  lemma {:induction false} CountConcat(ch: char, a: string, b: string)
    ensures Count(ch, a + b) == Count(ch, a) + Count(ch, b)
    decreases |b|
  {
    if b != [] {
      assert (a + b)[..|a + b| - 1] == a + b[..|b| - 1];
      assert (a + b)[|a + b| - 1] == b[|b| - 1];
      CountConcat(ch, a, b[..|b| - 1]);
    } else {
      assert a + b == a;
    }
  }

  /** `c * n` for a one-character string `c`. */
  function Repeat(ch: char, n: nat): (r: string)
    ensures |r| == n
    ensures forall i :: 0 <= i < n ==> r[i] == ch
  {
    seq(n, _ => ch)
  }

  lemma {:induction false} CountRepeat(ch: char, n: nat)
    ensures Count(ch, Repeat(ch, n)) == n
    decreases n
  {
    if n > 0 {
      assert Repeat(ch, n)[..n - 1] == Repeat(ch, n - 1);
      CountRepeat(ch, n - 1);
    }
  }
}

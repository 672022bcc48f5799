/**
 * Decimal text of natural numbers, as Python's `str(n)`, `f"{n:02d}"` and the
 * thousands separator of `f"{x:,}"` produce it, together with the parsers that
 * invert them.
 */
module Decimal {

  predicate IsDigit(ch: char) {
    '0' <= ch <= '9'
  }

  predicate AllDigits(s: string) {
    forall i :: 0 <= i < |s| ==> IsDigit(s[i])
  }

  function DigitChar(d: nat): (ch: char)
    requires d < 10
    ensures IsDigit(ch) && (ch as int) - ('0' as int) == d
  {
    (('0' as int) + d) as char
  }

  function DigitValue(ch: char): (d: nat)
    requires IsDigit(ch)
    ensures d < 10
  {
    (ch as int) - ('0' as int)
  }

  /** The decimal digits of n, most significant first, without leading zeros. */
  function Show(n: nat): (s: string)
    ensures 1 <= |s| && AllDigits(s)
    ensures s[0] == '0' <==> n == 0
    decreases n
  {
    if n < 10 then [DigitChar(n)] else Show(n / 10) + [DigitChar(n % 10)]
  }

  /** The number a string of decimal digits denotes (the empty string denotes 0). */
  function Parse(s: string): nat
    requires AllDigits(s)
  {
    if s == [] then 0 else Parse(s[..|s| - 1]) * 10 + DigitValue(s[|s| - 1])
  }

  lemma {:induction false} ParseShow(n: nat)
    ensures Parse(Show(n)) == n
    decreases n
  {
    if n >= 10 {
      var s := Show(n);
      assert s[..|s| - 1] == Show(n / 10);
      ParseShow(n / 10);
    }
  }

  /** Python's `f"{n:02d}"` for 0 <= n < 100: two digits, zero-padded. */
  function Pad2(n: nat): (s: string)
    requires n < 100
    ensures |s| == 2 && AllDigits(s) && Parse(s) == n
    ensures n >= 10 ==> s == Show(n)
  {
    var s := [DigitChar(n / 10), DigitChar(n % 10)];
    assert s[..1] == [DigitChar(n / 10)] && s[..1][..0] == [];
    assert Parse(s[..1]) == n / 10;
    s
  }

  /**
   * The `,` option of Python's format mini-language applied to a digit string:
   * a comma before every group of three digits counted from the right.
   */
  function Group(d: string): (g: string)
    requires AllDigits(d)
    decreases |d|
  {
    if |d| <= 3 then d else Group(d[..|d| - 3]) + "," + d[|d| - 3..]
  }

  /** Drops every comma. */
  function Ungroup(g: string): (d: string)
    ensures |d| <= |g|
  {
    if g == [] then []
    else if g[|g| - 1] == ',' then Ungroup(g[..|g| - 1])
    else Ungroup(g[..|g| - 1]) + [g[|g| - 1]]
  }

  lemma UngroupAppend(a: string, b: string)
    ensures Ungroup(a + b) == Ungroup(a) + Ungroup(b)
    decreases |b|
  {
    if b == [] {
      assert a + b == a;
    } else {
      assert (a + b)[..|a + b| - 1] == a + b[..|b| - 1];
      assert (a + b)[|a + b| - 1] == b[|b| - 1];
      UngroupAppend(a, b[..|b| - 1]);
      if b[|b| - 1] == ',' {
        calc {
          Ungroup(a + b);
          Ungroup(a + b[..|b| - 1]);
          Ungroup(a) + Ungroup(b[..|b| - 1]);
          Ungroup(a) + Ungroup(b);
        }
      } else {
        calc {
          Ungroup(a + b);
          Ungroup(a + b[..|b| - 1]) + [b[|b| - 1]];
          Ungroup(a) + Ungroup(b[..|b| - 1]) + [b[|b| - 1]];
          Ungroup(a) + (Ungroup(b[..|b| - 1]) + [b[|b| - 1]]);
          Ungroup(a) + Ungroup(b);
        }
      }
    }
  }

  lemma UngroupDigits(d: string)
    requires AllDigits(d)
    ensures Ungroup(d) == d
    decreases |d|
  {
    if d != [] {
      UngroupDigits(d[..|d| - 1]);
    }
  }

  /** Removing the separators gives back the digits: grouping loses nothing. */
  lemma {:induction false} UngroupGroup(d: string)
    requires AllDigits(d)
    ensures Ungroup(Group(d)) == d
    decreases |d|
  {
    if |d| <= 3 {
      UngroupDigits(d);
    } else {
      var head, tail := d[..|d| - 3], d[|d| - 3..];
      UngroupGroup(head);
      UngroupAppend(Group(head) + ",", tail);
      UngroupAppend(Group(head), ",");
      UngroupDigits(tail);
      assert Ungroup(",") == [];
      assert head + tail == d;
    }
  }

  /** A grouped number is never empty and ends in a digit group of one to three digits. */
  lemma {:induction false} GroupShape(d: string)
    requires AllDigits(d) && d != []
    ensures Group(d) != [] && IsDigit(Group(d)[0]) && IsDigit(Group(d)[|Group(d)| - 1])
    ensures forall i :: 0 <= i < |Group(d)| ==> IsDigit(Group(d)[i]) || Group(d)[i] == ','
    decreases |d|
  {
    if |d| > 3 {
      GroupShape(d[..|d| - 3]);
    }
  }
}

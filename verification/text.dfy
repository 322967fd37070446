/**
 String helpers the queue views rely on: ASCII lower-casing, substring
 search (`includes`), and the decimal rendering of a natural number that a
 template literal produces.
 */
module Text {

  /** Lower-cases one character; only the ASCII capitals change. */
  function LowerChar(c: char): (d: char)
    ensures 'A' <= c <= 'Z' ==> d as int == c as int + 32
    ensures !('A' <= c <= 'Z') ==> d == c
  {
    if 'A' <= c <= 'Z' then (c as int - 'A' as int + 'a' as int) as char else c
  }

  function Lower(s: string): (r: string)
    ensures |r| == |s|
    ensures forall i :: 0 <= i < |s| ==> r[i] == LowerChar(s[i])
  {
    if |s| == 0 then [] else [LowerChar(s[0])] + Lower(s[1..])
  }

  /** `q` occurs in `s` starting at index `i`. */
  predicate OccursAt(s: string, q: string, i: nat)
  {
    i + |q| <= |s| && s[i..i + |q|] == q
  }

  /** Substring search: true iff `q` occurs somewhere in `s`. */
  function Contains(s: string, q: string): (b: bool)
    ensures b <==> exists i: nat :: OccursAt(s, q, i)
    decreases |s|
  {
    if |q| > |s| then false
    else if s[..|q|] == q then
      assert OccursAt(s, q, 0);
      true
    else
      var rest := Contains(s[1..], q);
      assert rest ==> exists i: nat :: OccursAt(s, q, i) by {
        if rest {
          var j: nat :| OccursAt(s[1..], q, j);
          assert s[1..][j..j + |q|] == s[j + 1..j + 1 + |q|];
          assert OccursAt(s, q, j + 1);
        }
      }
      assert (exists i: nat :: OccursAt(s, q, i)) ==> rest by {
        if exists i: nat :: OccursAt(s, q, i) {
          var i: nat :| OccursAt(s, q, i);
          assert i != 0;
          assert s[1..][i - 1..i - 1 + |q|] == s[i..i + |q|];
          assert OccursAt(s[1..], q, i - 1);
        }
      }
      rest
  }

  /** The empty query occurs in every string. */
  lemma ContainsEmpty(s: string)
    ensures Contains(s, "")
  {
    assert OccursAt(s, "", 0);
  }

  // ---------------------------------------------------------------- digits

  predicate IsDigit(c: char)
  {
    '0' <= c <= '9'
  }

  predicate AllDigits(s: string)
  {
    forall i :: 0 <= i < |s| ==> IsDigit(s[i])
  }

  function DigitChar(d: nat): (c: char)
    requires d < 10
    ensures IsDigit(c)
  {
    ('0' as int + d) as char
  }

  function DigitValue(c: char): (d: nat)
    requires IsDigit(c)
    ensures d < 10
  {
    c as int - '0' as int
  }

  /** The decimal numeral of `n`, without leading zeros, as `String(n)` gives it. */
  function Digits(n: nat): (r: string)
    ensures 1 <= |r|
    ensures AllDigits(r)
    ensures n > 0 ==> r[0] != '0'
  {
    if n < 10 then [DigitChar(n)] else Digits(n / 10) + [DigitChar(n % 10)]
  }

  /** The number a string of decimal digits denotes (the empty string denotes 0). */
  function NumeralValue(s: string): nat
    requires AllDigits(s)
  {
    if |s| == 0 then 0 else NumeralValue(s[..|s| - 1]) * 10 + DigitValue(s[|s| - 1])
  }

  /** Reading back a rendered numeral gives the number. */
  lemma {:induction false} DigitsRoundTrip(n: nat)
    ensures NumeralValue(Digits(n)) == n
  {
    var r := Digits(n);
    if n < 10 {
      assert r[..0] == [];
    } else {
      DigitsRoundTrip(n / 10);
      assert r[..|r| - 1] == Digits(n / 10);
    }
  }

  function Pow10(k: nat): (p: nat)
    ensures p >= 1
  {
    if k == 0 then 1 else 10 * Pow10(k - 1)
  }

  /** A number of `k` decimal places is rendered with exactly `k` characters. */
  lemma {:induction false} DigitsLength(n: nat, k: nat)
    requires 1 <= k
    requires n < Pow10(k)
    requires k == 1 || Pow10(k - 1) <= n
    ensures |Digits(n)| == k
  {
    if k == 1 {
      assert n < 10;
    } else {
      assert n >= 10 by {
        assert Pow10(k - 1) >= 10 by { PowMonotone(k - 1); }
      }
      assert n / 10 < Pow10(k - 1);
      assert k - 1 == 1 || Pow10(k - 2) <= n / 10;
      DigitsLength(n / 10, k - 1);
    }
  }

  lemma {:induction false} PowMonotone(k: nat)
    requires 1 <= k
    ensures Pow10(k) >= 10
  {
    if k > 1 {
      PowMonotone(k - 1);
    }
  }

  /** A '0' when `n` is a single digit, as the templates put before seconds and minutes. */
  function ZeroPad(n: nat): string
  {
    if n < 10 then "0" else ""
  }

  /** The numeral of `n` padded on the left to two digits. */
  function Pad2(n: nat): (r: string)
    requires n < 100
    ensures |r| == 2
    ensures AllDigits(r)
    ensures NumeralValue(r) == n
  {
    DigitsRoundTrip(n);
    if n < 10 then
      var r := ZeroPad(n) + Digits(n);
      assert r == ['0', DigitChar(n)];
      assert r[..1] == ['0'] && ['0'][..0] == [];
      r
    else
      DigitsLength(n, 2);
      ZeroPad(n) + Digits(n)
  }
}

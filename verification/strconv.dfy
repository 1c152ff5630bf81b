/** Decimal rendering of integers, as `strconv.Itoa` produces it. */
module Strconv {

  function DigitChar(d: int): (c: char)
    requires 0 <= d <= 9
    ensures '0' <= c <= '9'
  {
    ('0' as int + d) as char
  }

  /** Decimal digits of `n`, most significant first, without leading zeros. */
  function FormatNat(n: nat): (s: string)
    ensures |s| >= 1
    ensures forall i :: 0 <= i < |s| ==> '0' <= s[i] <= '9'
    decreases n
  {
    if n < 10 then [DigitChar(n)] else FormatNat(n / 10) + [DigitChar(n % 10)]
  }

  /** `strconv.Itoa`: a leading '-' for negative numbers, then the digits. */
  function Itoa(n: int): (s: string)
  {
    if n < 0 then "-" + FormatNat(-n) else FormatNat(n)
  }

  function Pow10(k: nat): (p: nat)
    ensures p >= 1
  {
    if k == 0 then 1 else 10 * Pow10(k - 1)
  }

  lemma {:induction false} Pow10Monotone(i: nat, j: nat)
    requires i <= j
    ensures Pow10(i) <= Pow10(j)
    decreases j - i
  {
    if i < j {
      Pow10Monotone(i, j - 1);
    }
  }

  /** A number rendered with `w` digits lies in [10^(w-1), 10^w), except zero. */
  lemma {:induction false} FormatNatWidthBounds(n: nat)
    ensures n < Pow10(|FormatNat(n)|)
    ensures n >= 10 ==> Pow10(|FormatNat(n)| - 1) <= n
    decreases n
  {
    if n >= 10 {
      var q := n / 10;
      FormatNatWidthBounds(q);
      var w := |FormatNat(q)|;
      assert |FormatNat(n)| == w + 1;
      assert Pow10(w + 1) == 10 * Pow10(w);
      assert n == 10 * q + n % 10;
      if q >= 10 {
        assert Pow10(w) == 10 * Pow10(w - 1);
      } else {
        assert w == 1;
      }
    }
  }

  /** The width of a rendering with at least two digits pins down its range. */
  lemma FormatNatWidth(n: nat, k: nat)
    requires k >= 2
    ensures |FormatNat(n)| == k <==> Pow10(k - 1) <= n < Pow10(k)
  {
    FormatNatWidthBounds(n);
    var w := |FormatNat(n)|;
    assert n < 10 ==> w == 1;
    if w < k {
      Pow10Monotone(w, k - 1);
    } else if w > k {
      Pow10Monotone(k, w - 1);
    }
  }

  /** `len(strconv.Itoa(n))` is 3 or 4 exactly for 100..9999 and for -999..-10. */
  lemma ItoaWidthThreeOrFour(n: int)
    ensures |Itoa(n)| == 3 || |Itoa(n)| == 4
            <==> 100 <= n <= 9999 || -999 <= n <= -10
  {
    assert Pow10(1) == 10 && Pow10(2) == 100 && Pow10(3) == 1000 && Pow10(4) == 10000;
    var m: nat := if n < 0 then -n else n;
    FormatNatWidth(m, 2);
    FormatNatWidth(m, 3);
    FormatNatWidth(m, 4);
  }

  /** A non-negative number renders with exactly three characters iff it is 100..999. */
  lemma ItoaWidthThree(n: int)
    ensures n >= 0 && |Itoa(n)| == 3 <==> 100 <= n <= 999
  {
    assert Pow10(2) == 100 && Pow10(3) == 1000;
    if n >= 0 {
      FormatNatWidth(n, 3);
    }
  }
}

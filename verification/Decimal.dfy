/** Decimal text: Go's %d, %010d and ParseUint. */
module Decimal {
  import opened Common

  predicate IsDigit(c: char) { '0' <= c <= '9' }

  predicate AllDigits(s: string) { forall i :: 0 <= i < |s| ==> IsDigit(s[i]) }

  function Digit(d: nat): char
    requires d < 10
  {
    '0' + d as char
  }

  function Dec(n: nat): string {
    if n < 10 then [Digit(n)] else Dec(n / 10) + [Digit(n % 10)]
  }

  function DecInt(x: int): string {
    if x < 0 then "-" + Dec(-x) else Dec(x)
  }

  function Number(s: string): nat
    requires AllDigits(s)
  {
    if s == "" then 0 else 10 * Number(s[..|s| - 1]) + (s[|s| - 1] as nat - '0' as nat)
  }

  function Zeros(n: nat): string { seq(n, _ => '0') }

  /** %0<width>d. */
  function Padded(s: string, width: nat): string {
    if |s| >= width then s else Zeros(width - |s|) + s
  }

  /** ParseUint in base ten, on inputs short enough not to overflow. */
  function Parse(s: string): Option<nat> {
    if s != "" && AllDigits(s) then Some(Number(s)) else None
  }

  function Pow10(n: nat): (p: nat)
    ensures p > 0
  {
    if n == 0 then 1 else 10 * Pow10(n - 1)
  }

  lemma {:induction false} DecIsNumber(n: nat)
    ensures Dec(n) != "" && AllDigits(Dec(n)) && Number(Dec(n)) == n
    ensures n > 0 ==> Dec(n)[0] != '0'
  {
    if n >= 10 {
      DecIsNumber(n / 10);
      assert Dec(n)[..|Dec(n)| - 1] == Dec(n / 10);
    }
  }

  lemma {:induction false} DecLength(n: nat, k: nat)
    requires k > 0 && n < Pow10(k)
    ensures |Dec(n)| <= k
  {
    if n >= 10 { DecLength(n / 10, k - 1); }
  }

  lemma {:induction false} NumberBelow(s: string)
    requires AllDigits(s)
    ensures Number(s) < Pow10(|s|)
  {
    if s != "" { NumberBelow(s[..|s| - 1]); }
  }

  lemma {:induction false} LeadingZerosDoNotCount(k: nat, s: string)
    requires AllDigits(s)
    ensures AllDigits(Zeros(k) + s) && Number(Zeros(k) + s) == Number(s)
  {
    if s == "" {
      assert Zeros(k) + s == Zeros(k);
      OnlyZeros(k);
    } else {
      LeadingZerosDoNotCount(k, s[..|s| - 1]);
      assert (Zeros(k) + s)[..k + |s| - 1] == Zeros(k) + s[..|s| - 1];
    }
  }

  lemma {:induction false} OnlyZeros(k: nat)
    ensures AllDigits(Zeros(k)) && Number(Zeros(k)) == 0
  {
    if k > 0 {
      OnlyZeros(k - 1);
      assert Zeros(k)[..k - 1] == Zeros(k - 1);
    }
  }

  /** Distinct integers print differently. */
  lemma DecIntInjective(x: int, y: int)
    requires DecInt(x) == DecInt(y)
    ensures x == y
  {
    var a: nat, b: nat := if x < 0 then -x else x, if y < 0 then -y else y;
    DecIsNumber(a);
    DecIsNumber(b);
    assert DecInt(x)[0] == '-' <==> x < 0;
    assert DecInt(y)[0] == '-' <==> y < 0;
    if x < 0 {
      assert Dec(a) == DecInt(x)[1..] == DecInt(y)[1..] == Dec(b);
    }
  }

  lemma PrintThenParse(n: nat, width: nat)
    ensures Parse(Padded(Dec(n), width)) == Some(n)
  {
    DecIsNumber(n);
    if |Dec(n)| < width { LeadingZerosDoNotCount(width - |Dec(n)|, Dec(n)); }
  }

  /** Fixed-width digit strings are exactly the padded prints of their numbers. */
  lemma {:induction false} ParseThenPrint(s: string)
    requires s != "" && AllDigits(s)
    ensures Padded(Dec(Number(s)), |s|) == s
  {
    var k := |s| - 1;
    var d := s[k] as nat - '0' as nat;
    assert s == s[..k] + [Digit(d)];
    if k > 0 {
      ParseThenPrint(s[..k]);
      NumberBelow(s[..k]);
      DecLength(Number(s[..k]), k);
      PaddedDigit(Number(s[..k]), d, k);
    }
  }

  lemma PaddedDigit(v: nat, d: nat, k: nat)
    requires 0 <= d < 10 && k > 0 && |Dec(v)| <= k
    ensures Padded(Dec(10 * v + d), k + 1) == Padded(Dec(v), k) + [Digit(d)]
  {
    if v == 0 {
      assert Zeros(k - 1) + "0" == Zeros(k);
    } else {
      assert Dec(10 * v + d) == Dec(v) + [Digit(d)];
    }
  }

  lemma SixtyFourBitsFit()
    ensures 0x1_0000_0000_0000_0000 < Pow10(20)
  {
    assert Pow10(4) == 10_000;
    assert Pow10(8) == 100_000_000;
    assert Pow10(12) == 1_000_000_000_000;
    assert Pow10(16) == 10_000_000_000_000_000;
    assert Pow10(20) == 100_000_000_000_000_000_000;
  }
}

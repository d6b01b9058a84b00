/** Correlation ids of kernel-routed actions: `kact-` followed by a decimal counter. */
module ActionIds {

  function DigitChar(d: nat): char
    requires d < 10
  {
    '0' + d as char
  }

  function Decimal(n: nat): (s: string)
    ensures s != []
  {
    if n < 10 then [DigitChar(n)] else Decimal(n / 10) + [DigitChar(n % 10)]
  }

  function KernelId(n: nat): string {
    "kact-" + Decimal(n)
  }

  ghost predicate IsKernelId(id: string) {
    exists n: nat :: id == KernelId(n)
  }

  lemma {:induction false} DecimalInjective(m: nat, n: nat)
    requires Decimal(m) == Decimal(n)
    ensures m == n
  {
    var s, t := Decimal(m), Decimal(n);
    assert s[|s| - 1] == DigitChar(m % 10);
    assert t[|t| - 1] == DigitChar(n % 10);
    assert m % 10 == n % 10;
    if m >= 10 && n >= 10 {
      assert s[..|s| - 1] == Decimal(m / 10);
      assert t[..|t| - 1] == Decimal(n / 10);
      DecimalInjective(m / 10, n / 10);
    }
  }

  /** Distinct counter values give distinct ids, so a minted id is never reused. */
  lemma KernelIdInjective(m: nat, n: nat)
    requires KernelId(m) == KernelId(n)
    ensures m == n
  {
    assert KernelId(m)[5..] == Decimal(m);
    assert KernelId(n)[5..] == Decimal(n);
    DecimalInjective(m, n);
  }
}

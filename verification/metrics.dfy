/** The unit loop of `formatBytes`. */
module Metrics {
  import opened Wrappers

  const UNITS: string := "KMGTPE"

  /** Either "n B", or `bytes / div` followed by a unit letter and "B". */
  datatype Formatted = Plain(n: nat) | Scaled(bytes: nat, div: nat, letter: char)

  function Pow1024(n: nat): (p: nat)
    ensures p >= 1
  {
    if n == 0 then 1 else 1024 * Pow1024(n - 1)
  }

  lemma {:induction false} PowGrows(a: nat, b: nat)
    requires a < b
    ensures 1024 * Pow1024(a) <= Pow1024(b)
    decreases b
  {
    if a + 1 < b {
      PowGrows(a, b - 1);
    }
  }

  lemma Regroup(q: nat, r: nat, div: nat)
    ensures (q * 1024 + r) * div == q * (div * 1024) + r * div
  {
  }

  lemma Scales(a: nat, b: nat, div: nat)
    requires a <= b
    ensures a * div <= b * div
  {
  }

  /** One turn of the loop keeps `n` the quotient by `div`, and `div` below the number. */
  lemma DivideOnce(bytes: nat, n: nat, div: nat)
    requires n >= 1024 && n * div <= bytes < (n + 1) * div
    ensures n / 1024 * (div * 1024) <= bytes < (n / 1024 + 1) * (div * 1024)
    ensures div * 1024 <= bytes
  {
    var q, r := n / 1024, n % 1024;
    assert n == q * 1024 + r;
    Regroup(q, r, div);
    Regroup(q, 1024, div);
    Regroup(q + 1, 0, div);
    Scales(n + 1, q * 1024 + 1024, div);
    Scales(0, r, div);
    Scales(1024, n, div);
  }

  /** At most one power of 1024 scales a number into [1, 1024). */
  lemma ScaleIsUnique(bytes: nat, a: nat, b: nat)
    requires Pow1024(a) <= bytes < 1024 * Pow1024(a)
    requires Pow1024(b) <= bytes < 1024 * Pow1024(b)
    ensures a == b
  {
    if a < b { PowGrows(a, b); }
    if b < a { PowGrows(b, a); }
  }

  lemma SixthPower()
    ensures Pow1024(6) == 0x1000_0000_0000_0000
  {
    assert Pow1024(2) == 0x10_0000;
    assert Pow1024(4) == 0x100_0000_0000;
  }

  lemma SeventhPowerIsTooBig(k: nat)
    requires k >= 7
    ensures Pow1024(k) > TWO_64
  {
    SixthPower();
    PowGrows(6, k);
  }

  method FormatBytes(bytes: nat) returns (r: Formatted, ghost exp: nat)
    requires bytes < TWO_64
    ensures bytes < 1024 ==> r == Plain(bytes)
    ensures bytes >= 1024 ==>
              && exp < 6 && r == Scaled(bytes, Pow1024(exp + 1), "KMGTPE"[exp])
              && r.div <= bytes < 1024 * r.div
  {
    exp := 0;
    if bytes < 1024 {
      return Plain(bytes), exp;
    }
    var div, e, n := 1024, 0, bytes / 1024;
    assert Pow1024(1) == 1024;
    while n >= 1024
      invariant e >= 0 && div == Pow1024(e + 1) && 1 <= n
      invariant n * div <= bytes < (n + 1) * div && div <= bytes
    {
      DivideOnce(bytes, n, div);
      div := div * 1024 % TWO_64;
      e := e + 1;
      n := n / 1024;
    }
    Scales(n + 1, 1024, div);
    if e >= 6 {
      SeventhPowerIsTooBig(e + 1);
    }
    return Scaled(bytes, div, UNITS[e]), e;
  }
}

/**
 * LEVELING_TABLE: the experience a character needs to leave each level 1..40,
 * 1000 times 1.2 to the power level - 1, truncated to an integer.
 */
module Leveling {

  const MAX_LEVEL := 40
  const BASE_EXPERIENCE := 1000

  function Pow(b: nat, e: nat): (r: nat)
    requires b >= 1
    ensures r >= 1
  {
    if e == 0 then 1 else b * Pow(b, e - 1)
  }

  lemma {:induction false} PowMonotone(e: nat)
    ensures Pow(5, e) <= Pow(6, e)
  {
    if e > 0 {
      PowMonotone(e - 1);
    }
  }

  lemma ProductOrder(x: int, y: int, b: int)
    requires b > 0 && x * b > y * b
    ensures x > y
  {
  }

  lemma DivAtLeast(a: int, b: int, q: int)
    requires b > 0 && a >= q * b
    ensures a / b >= q
  {
    var m := a / b;
    assert a == m * b + a % b;
    assert m * b > (q - 1) * b;
    ProductOrder(m, q - 1, b);
  }

  /**
   * LEVELING_TABLE[level]: 1000 * 6^(level-1) / 5^(level-1), the real-number
   * value of 1000 * 1.2^(level-1), truncated (Dafny's `/` truncates on
   * naturals); the program's floating-point table can be one lower, as at
   * level 4 (1727 there, 1728 here).
   */
  function Requirement(level: int): (r: nat)
    requires 1 <= level <= MAX_LEVEL
    ensures r >= BASE_EXPERIENCE
  {
    PowMonotone(level - 1);
    DivAtLeast(BASE_EXPERIENCE * Pow(6, level - 1), Pow(5, level - 1), BASE_EXPERIENCE);
    BASE_EXPERIENCE * Pow(6, level - 1) / Pow(5, level - 1)
  }

  /** The first threshold is exactly 1000, the second 1200. */
  lemma FirstRequirements()
    ensures Requirement(1) == 1000
    ensures Requirement(2) == 1200
  {
    assert Pow(6, 1) == 6 && Pow(5, 1) == 5;
  }

  /** Each level costs strictly more experience than the one before it. */
  lemma RequirementIncreasing(level: int)
    requires 1 <= level < MAX_LEVEL
    ensures Requirement(level) < Requirement(level + 1)
  {
    var n, d := BASE_EXPERIENCE * Pow(6, level - 1), Pow(5, level - 1);
    var q := n / d;
    PowMonotone(level - 1);
    assert n >= BASE_EXPERIENCE * d;
    assert n >= q * d by {
      assert n == q * d + n % d;
    }
    assert q >= BASE_EXPERIENCE by {
      DivAtLeast(n, d, BASE_EXPERIENCE);
    }
    assert 6 * n >= (q + 1) * (5 * d) by {
      assert 6 * n == 5 * n + n;
      assert 5 * n >= 5 * (q * d);
      assert n >= 5 * d;
    }
    DivAtLeast(6 * n, 5 * d, q + 1);
    assert BASE_EXPERIENCE * Pow(6, level) == 6 * n;
    assert Pow(5, level) == 5 * d;
  }
}

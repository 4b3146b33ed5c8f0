/**
 * The amount generator: put the two configured bounds in order, draw an
 * integer in the closed range, and round it to a multiple of 1000 with
 * `Math.round`, which rounds halves up.
 */
module Amount {

  import Types

  /** The smaller of the two settings (`Math.min`). */
  function Low(minAmount: int, maxAmount: int): int {
    if minAmount <= maxAmount then minAmount else maxAmount
  }

  /** The larger of the two settings (`Math.max`). */
  function High(minAmount: int, maxAmount: int): int {
    if minAmount <= maxAmount then maxAmount else minAmount
  }

  function Abs(x: int): nat {
    if x < 0 then -x else x
  }

  /**
   * The rounding of App.tsx:38: divide by 1000, round half up, multiply back.
   * Rounding half up is the floor of the value plus one half, and Dafny's `/`
   * is floor division for a positive divisor, so the integer form is exact.
   */
  function RoundToThousand(v: int): (a: int)
    ensures a % 1000 == 0
    ensures v - 500 < a <= v + 500
  {
    var q := (v + 500) / 1000;
    assert v + 500 == 1000 * q + (v + 500) % 1000;
    1000 * q
  }

  /**
   * The draw of App.tsx:35: the smaller setting plus a random whole offset.
   * The offset is the parameter `offset`; a random fraction in [0, 1) scaled
   * by the width of the range and floored keeps it in [0, max - min].
   */
  function DrawnValue(minAmount: int, maxAmount: int, offset: int): (v: int)
    requires 0 <= offset <= High(minAmount, maxAmount) - Low(minAmount, maxAmount)
    ensures Low(minAmount, maxAmount) <= v <= High(minAmount, maxAmount)
  {
    Low(minAmount, maxAmount) + offset
  }

  /** `getRandomAmount()`, with the settings and the random draw as parameters. */
  function RandomAmount(minAmount: int, maxAmount: int, offset: int): (a: int)
    requires 0 <= offset <= High(minAmount, maxAmount) - Low(minAmount, maxAmount)
    ensures a % 1000 == 0
    ensures Low(minAmount, maxAmount) - 500 < a <= High(minAmount, maxAmount) + 500
  {
    RoundToThousand(DrawnValue(minAmount, maxAmount, offset))
  }

  /** Every amount the generator can produce for the given settings. */
  ghost function PossibleAmounts(minAmount: int, maxAmount: int): set<int> {
    set offset | 0 <= offset <= High(minAmount, maxAmount) - Low(minAmount, maxAmount)
      :: RandomAmount(minAmount, maxAmount, offset)
  }

  /** Two distinct multiples of 1000 are at least 1000 apart. */
  lemma MultiplesApart(x: int, y: int)
    requires x % 1000 == 0 && y % 1000 == 0 && x < y
    ensures x + 1000 <= y
  {
    assert x == 1000 * (x / 1000);
    assert y == 1000 * (y / 1000);
  }

  /** The rounded value is the only multiple of 1000 in (v - 500, v + 500]. */
  lemma RoundUnique(v: int, m: int)
    requires m % 1000 == 0 && v - 500 < m <= v + 500
    ensures RoundToThousand(v) == m
  {
    var a := RoundToThousand(v);
    if a < m {
      MultiplesApart(a, m);
    } else if m < a {
      MultiplesApart(m, a);
    }
  }

  /**
   * Rounding goes to the nearest multiple of 1000, and of two equally near
   * ones it picks the larger (halves round up).
   */
  lemma RoundIsNearest(v: int, m: int)
    requires m % 1000 == 0
    ensures Abs(v - RoundToThousand(v)) <= Abs(v - m)
    ensures Abs(v - RoundToThousand(v)) == Abs(v - m) ==> m <= RoundToThousand(v)
  {
    var a := RoundToThousand(v);
    if a < m {
      MultiplesApart(a, m);
    } else if m < a {
      MultiplesApart(m, a);
    }
  }

  /** Exchanging the two settings does not change any draw. */
  lemma SwapSettings(minAmount: int, maxAmount: int)
    ensures PossibleAmounts(minAmount, maxAmount) == PossibleAmounts(maxAmount, minAmount)
    ensures forall offset :: 0 <= offset <= High(minAmount, maxAmount) - Low(minAmount, maxAmount) ==>
      RandomAmount(minAmount, maxAmount, offset) == RandomAmount(maxAmount, minAmount, offset)
  {
    assert Low(minAmount, maxAmount) == Low(maxAmount, minAmount);
    assert High(minAmount, maxAmount) == High(maxAmount, minAmount);
    forall a | a in PossibleAmounts(minAmount, maxAmount)
      ensures a in PossibleAmounts(maxAmount, minAmount)
    {
      var offset :| 0 <= offset <= High(minAmount, maxAmount) - Low(minAmount, maxAmount)
        && a == RandomAmount(minAmount, maxAmount, offset);
      assert a == RandomAmount(maxAmount, minAmount, offset);
    }
    forall a | a in PossibleAmounts(maxAmount, minAmount)
      ensures a in PossibleAmounts(minAmount, maxAmount)
    {
      var offset :| 0 <= offset <= High(maxAmount, minAmount) - Low(maxAmount, minAmount)
        && a == RandomAmount(maxAmount, minAmount, offset);
      assert a == RandomAmount(minAmount, maxAmount, offset);
    }
  }

  /**
   * When both settings are multiples of 1000 the generator yields exactly the
   * multiples of 1000 between them.
   */
  lemma AlignedSettingsStayInRange(minAmount: int, maxAmount: int)
    requires minAmount % 1000 == 0 && maxAmount % 1000 == 0
    ensures PossibleAmounts(minAmount, maxAmount) ==
      set m | Low(minAmount, maxAmount) <= m <= High(minAmount, maxAmount) && m % 1000 == 0
  {
    var lo, hi := Low(minAmount, maxAmount), High(minAmount, maxAmount);
    var aligned := set m | lo <= m <= hi && m % 1000 == 0;
    forall a | a in PossibleAmounts(minAmount, maxAmount)
      ensures a in aligned
    {
      var offset :| 0 <= offset <= hi - lo && a == RandomAmount(minAmount, maxAmount, offset);
      if a < lo {
        MultiplesApart(a, lo);
      } else if hi < a {
        MultiplesApart(hi, a);
      }
    }
    forall m | m in aligned
      ensures m in PossibleAmounts(minAmount, maxAmount)
    {
      RoundUnique(m, m);
      assert RandomAmount(minAmount, maxAmount, m - lo) == m;
    }
  }

  /** Rounding never reverses the order of two values. */
  lemma RoundMonotone(v: int, w: int)
    requires v <= w
    ensures RoundToThousand(v) <= RoundToThousand(w)
  {
    if RoundToThousand(w) < RoundToThousand(v) {
      MultiplesApart(RoundToThousand(w), RoundToThousand(v));
    }
  }

  /**
   * Every possible amount lies between the two settings exactly when the
   * smaller setting does not round down and the larger does not round up.
   */
  lemma StaysInRangeIff(minAmount: int, maxAmount: int)
    ensures (forall a :: a in PossibleAmounts(minAmount, maxAmount) ==>
               Low(minAmount, maxAmount) <= a <= High(minAmount, maxAmount))
        <==> (Low(minAmount, maxAmount) <= RoundToThousand(Low(minAmount, maxAmount)) &&
              RoundToThousand(High(minAmount, maxAmount)) <= High(minAmount, maxAmount))
  {
    var lo, hi := Low(minAmount, maxAmount), High(minAmount, maxAmount);
    assert RandomAmount(minAmount, maxAmount, 0) == RoundToThousand(lo);
    assert RandomAmount(minAmount, maxAmount, hi - lo) == RoundToThousand(hi);
    assert RoundToThousand(lo) in PossibleAmounts(minAmount, maxAmount);
    assert RoundToThousand(hi) in PossibleAmounts(minAmount, maxAmount);
    if lo <= RoundToThousand(lo) && RoundToThousand(hi) <= hi {
      forall a | a in PossibleAmounts(minAmount, maxAmount)
        ensures lo <= a <= hi
      {
        var offset :| 0 <= offset <= hi - lo && a == RandomAmount(minAmount, maxAmount, offset);
        RoundMonotone(lo, lo + offset);
        RoundMonotone(lo + offset, hi);
      }
    }
  }

  /** Settings 10000 and 10400 are not both multiples of 1000, yet every amount stays between them. */
  lemma MisalignedSettingsCanStayInRange()
    ensures PossibleAmounts(10000, 10400) == {10000}
  {
    forall a | a in PossibleAmounts(10000, 10400)
      ensures a == 10000
    {
      var offset :| 0 <= offset <= 400 && a == RandomAmount(10000, 10400, offset);
      RoundUnique(10000 + offset, 10000);
    }
    RoundUnique(10000, 10000);
    assert RandomAmount(10000, 10400, 0) in PossibleAmounts(10000, 10400);
  }

  /**
   * Settings that are not multiples of 1000 can push every amount outside
   * them: with 10500 and 10600 each draw rounds to 11000.
   */
  lemma MisalignedSettingsLeaveRange()
    ensures PossibleAmounts(10500, 10600) == {11000}
  {
    forall offset | 0 <= offset <= 100
      ensures RandomAmount(10500, 10600, offset) == 11000
    {
      RoundUnique(10500 + offset, 11000);
    }
    assert RandomAmount(10500, 10600, 0) in PossibleAmounts(10500, 10600);
  }

  /** Under the default settings the generator yields amounts outside the denomination set. */
  lemma DefaultSettingsLeaveDenominations()
    ensures 40000 in PossibleAmounts(10000, 50000)
    ensures 40000 !in Types.Denominations
  {
    RoundUnique(40000, 40000);
    assert RandomAmount(10000, 50000, 30000) == 40000;
  }
}

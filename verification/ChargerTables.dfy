/** The charger's limit tables, and rounding a request down over them. */
module ChargerTables {

  /** Low-current limits, indexed by two bits: 0 selects USB 3.0, 1 selects full current. */
  const LC_OPTIONS: seq<int> := [100000, 150000, 500000, 900000]

  const ILIM_PMI8994: seq<int> :=
    [300000, 400000, 450000, 475000, 500000, 550000, 600000, 650000]
    + [700000, 900000, 950000, 1000000, 1100000, 1200000, 1400000, 1450000]
    + [1500000, 1600000, 1800000, 1850000, 1880000, 1910000, 1930000, 1950000]
    + [1970000, 2000000, 2050000, 2100000, 2300000, 2400000, 2500000, 3000000]

  const ILIM_PMI8996: seq<int> :=
    [300000, 400000, 500000, 600000, 700000, 800000, 900000, 1000000]
    + [1100000, 1200000, 1300000, 1400000, 1450000, 1500000, 1550000, 1600000]
    + [1700000, 1800000, 1900000, 1950000, 2000000, 2050000, 2100000, 2200000]
    + [2300000, 2400000, 2500000, 2600000, 2700000, 2800000, 2900000, 3000000]

  const FV_LOW: seq<int> :=
    [3600000, 3620000, 3640000, 3660000, 3680000, 3700000, 3720000, 3740000]
    + [3760000, 3780000, 3800000, 3820000, 3840000, 3860000, 3880000, 3900000]
    + [3920000, 3940000, 3960000, 3980000, 4000000, 4020000, 4040000, 4060000]

  const FV_HIGH: seq<int> :=
    [4080000, 4100000, 4120000, 4140000, 4160000, 4180000, 4200000, 4220000]
    + [4240000, 4260000, 4280000, 4300000, 4320000, 4340000, 4350000, 4360000]
    + [4380000, 4400000, 4420000, 4440000, 4460000, 4480000, 4500000]

  /** Float voltages; the hardware counts them from 5. */
  const FV_TABLE: seq<int> := FV_LOW + FV_HIGH

  ghost predicate Ascending(t: seq<int>) {
    forall i, j :: 0 <= i < j < |t| ==> t[i] < t[j]
  }

  /** Entry `i` is the largest of the table that does not exceed `x`. */
  ghost predicate IsFloor(t: seq<int>, x: int, i: int) {
    0 <= i < |t| && t[i] <= x && forall j :: 0 <= j < |t| && t[j] <= x ==> t[j] <= t[i]
  }

  /** `v` is the largest value not exceeding `x` that either of two tables offers. */
  ghost predicate IsBest(a: seq<int>, b: seq<int>, x: int, v: int) {
    && (v in a || v in b) && v <= x
    && (forall i :: 0 <= i < |a| && a[i] <= x ==> a[i] <= v)
    && (forall i :: 0 <= i < |b| && b[i] <= x ==> b[i] <= v)
  }

  /** What the selection rests on: 32 ascending entries that start where the low-current range is
      still coarse, and that offer the two larger low-current options themselves. */
  ghost predicate IsIlimTable(t: seq<int>) {
    Ascending(t) && |t| == 32 && t[0] == 300000 && 500000 in t && 900000 in t
  }

  predicate Stepwise(t: seq<int>) {
    forall i :: 0 < i < |t| ==> t[i - 1] < t[i]
  }

  lemma {:induction false} StepwiseAscends(t: seq<int>, i: nat, j: nat)
    requires Stepwise(t) && i < j < |t|
    ensures t[i] < t[j]
  {
    if i + 1 < j {
      StepwiseAscends(t, i, j - 1);
    }
  }

  lemma AscendingIfStepwise(t: seq<int>)
    requires Stepwise(t)
    ensures Ascending(t)
  {
    forall i, j | 0 <= i < j < |t| ensures t[i] < t[j] {
      StepwiseAscends(t, i, j);
    }
  }

  lemma StepwiseJoins(a: seq<int>, b: seq<int>)
    requires Stepwise(a) && Stepwise(b) && a != [] && b != [] && a[|a| - 1] < b[0]
    ensures Stepwise(a + b)
  {
    forall i | 0 < i < |a + b| ensures (a + b)[i - 1] < (a + b)[i] {
      assert i > |a| ==> b[i - |a| - 1] < b[i - |a|];
    }
  }

  lemma Pmi8994Fits()
    ensures IsIlimTable(ILIM_PMI8994)
  {
    AscendingIfStepwise(ILIM_PMI8994);
    assert ILIM_PMI8994[4] == 500000 && ILIM_PMI8994[9] == 900000;
  }

  lemma Pmi8996Fits()
    ensures IsIlimTable(ILIM_PMI8996)
  {
    AscendingIfStepwise(ILIM_PMI8996);
    assert ILIM_PMI8996[2] == 500000 && ILIM_PMI8996[6] == 900000;
  }

  lemma FloatVoltagesAscend()
    ensures Ascending(FV_TABLE) && |FV_TABLE| == 47 && FV_TABLE[0] == 3600000 && FV_TABLE[46] == 4500000
  {
    StepwiseJoins(FV_LOW, FV_HIGH);
    AscendingIfStepwise(FV_TABLE);
  }

  /** Walks up an ascending table; a request below every entry gets the first one. */
  method FindClosestSmaller(x: int, a: seq<int>) returns (i: nat)
    requires a != [] && Ascending(a)
    ensures i < |a|
    ensures a[0] <= x ==> IsFloor(a, x, i)
    ensures x < a[0] ==> i == 0
  {
    var last := |a| - 1;
    i := 0;
    while i < last
      invariant i <= last
      invariant forall j :: 0 < j <= i ==> a[0] < a[j] <= x
    {
      if x < a[i + 1] {
        break;
      }
      i := i + 1;
    }
    assert i < last ==> x < a[i + 1];
    assert 0 < i ==> a[0] < a[i] <= x;
    assert forall j :: i < j < |a| ==> a[i + 1] <= a[j];
  }

  /** An exact low-current option, or anything below the high-current table, is best served in
      low-current mode; everything else in high-current mode. */
  lemma BestOfBothModes(t: seq<int>, x: int, i: int)
    requires IsIlimTable(t)
    ensures IsFloor(LC_OPTIONS, x, i) && (x in LC_OPTIONS || x < t[0]) ==> IsBest(LC_OPTIONS, t, x, LC_OPTIONS[i])
    ensures IsFloor(t, x, i) && x !in LC_OPTIONS ==> IsBest(LC_OPTIONS, t, x, t[i])
  {
    var five, nine :| 0 <= five < |t| && t[five] == 500000 && 0 <= nine < |t| && t[nine] == 900000;
    if x in LC_OPTIONS && IsFloor(LC_OPTIONS, x, i) {
      var k :| 0 <= k < |LC_OPTIONS| && LC_OPTIONS[k] == x;
      assert LC_OPTIONS[i] == x;
    }
  }
}

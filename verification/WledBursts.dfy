/** The two fault counters of the WLED driver as functions of the trace of event times, in
    microseconds, and what they say about that trace. */
module WledBursts {

  const RESET_US := 1_000_000
  const SHORT_CNT_MAX := 5
  const OVP_COUNT := 5

  // ---------------------------------------------------------------- short circuits

  datatype Burst = Burst(count: nat, last: int, disabled: bool)

  const NO_SHORTS := Burst(0, 0, false)

  function ShortStep(b: Burst, now: int): Burst {
    if b.disabled then b.(count := b.count + 1)
    else
      var count := if now - b.last > RESET_US then 1 else b.count + 1;
      if count > SHORT_CNT_MAX then Burst(count, b.last, true) else Burst(count, now, false)
  }

  function Shorts(times: seq<int>): Burst {
    if times == [] then NO_SHORTS
    else ShortStep(Shorts(times[..|times| - 1]), times[|times| - 1])
  }

  /** Events s..n follow each other without a pause of more than a second. */
  predicate Unbroken(times: seq<int>, s: nat, n: nat)
    requires n <= |times|
  {
    forall k :: s < k < n ==> times[k] - times[k - 1] <= 1_000_000
  }

  /** The latest run of shorts among the first n starts at s. */
  predicate LatestRun(times: seq<int>, s: nat, n: nat)
    requires n <= |times|
  {
    s < n && Unbroken(times, s, n) && (s > 0 ==> times[s] - times[s - 1] > 1_000_000)
  }

  lemma LatestRunUnique(times: seq<int>, s: nat, t: nat, n: nat)
    requires n <= |times| && LatestRun(times, s, n) && LatestRun(times, t, n)
    ensures s == t
  {
  }

  /** Six shorts in a row end with the k-th. */
  predicate SixInARow(times: seq<int>, k: nat) {
    6 <= k <= |times| && Unbroken(times, k - 6, k)
  }

  /** Until the driver gives up, the counter is the length of the latest run. */
  lemma {:induction false} CountIsRunLength(times: seq<int>) returns (s: nat)
    requires times != [] && !Shorts(times).disabled
    ensures LatestRun(times, s, |times|)
    ensures Shorts(times).count == |times| - s <= SHORT_CNT_MAX
    ensures Shorts(times).last == times[|times| - 1]
  {
    var n := |times| - 1;
    var before := times[..n];
    s := 0;
    if n > 0 {
      s := CountIsRunLength(before);
      if times[n] - times[n - 1] > RESET_US {
        s := n;
      }
    }
  }

  /** The driver gives up exactly when six shorts in a row have happened. */
  lemma {:induction false} DisabledIffSixInARow(times: seq<int>)
    ensures Shorts(times).disabled <==> exists k: nat :: SixInARow(times, k)
  {
    if times != [] {
      var n := |times| - 1;
      var before := times[..n];
      DisabledIffSixInARow(before);
      if Shorts(before).disabled {
        var k: nat :| SixInARow(before, k);
        assert SixInARow(times, k);
      } else {
        forall k: nat | SixInARow(times, k) ensures k == |times| {
          assert k < |times| ==> SixInARow(before, k);
        }
        if n > 0 {
          var s := CountIsRunLength(before);
          if Shorts(times).disabled {
            assert SixInARow(times, |times|);
          } else if SixInARow(times, |times|) {
            var t := CountIsRunLength(times);
            assert false;
          }
        }
      }
    }
  }

  /** ... and at the very short that completes the first such row. */
  lemma GivesUpAtFirstSix(times: seq<int>)
    requires times != [] && Shorts(times).disabled && !Shorts(times[..|times| - 1]).disabled
    ensures SixInARow(times, |times|)
    ensures forall k: nat :: SixInARow(times, k) ==> k == |times|
  {
    var before := times[..|times| - 1];
    DisabledIffSixInARow(times);
    DisabledIffSixInARow(before);
    forall k: nat | SixInARow(times, k) ensures k == |times| {
      assert k < |times| ==> SixInARow(before, k);
    }
  }

  // ---------------------------------------------------------------- over-voltage faults

  datatype Window = Window(count: nat, start: int)

  const NO_FAULTS := Window(0, 0)

  /** One fault; the flag says whether string detection is called for. */
  function OvpStep(w: Window, now: int): (Window, bool) {
    if w.count == 0 then (Window(1, now), false)
    else if now - w.start > RESET_US then (Window(0, w.start), false)
    else if w.count + 1 >= OVP_COUNT then (Window(0, w.start), true)
    else (Window(w.count + 1, w.start), false)
  }

  function Ovp(times: seq<int>): (Window, bool) {
    if times == [] then (NO_FAULTS, false)
    else OvpStep(Ovp(times[..|times| - 1]).0, times[|times| - 1])
  }

  /** The n-th fault calls for detection. */
  predicate FiresAt(times: seq<int>, n: nat) { n <= |times| && Ovp(times[..n]).1 }

  predicate WithinASecond(times: seq<int>, s: nat, n: nat)
    requires n <= |times|
  {
    forall k :: s <= k < n ==> times[k] - times[s] <= 1_000_000
  }

  /** The open window holds the latest faults, and none of them has fired. */
  lemma {:induction false} OpenWindow(times: seq<int>, n: nat)
    requires n <= |times|
    ensures var w := Ovp(times[..n]).0;
            && w.count < OVP_COUNT && w.count <= n
            && (w.count > 0 ==> w.start == times[n - w.count] && WithinASecond(times, n - w.count, n))
            && (forall k :: n - w.count < k <= n ==> !FiresAt(times, k))
  {
    if n > 0 {
      OpenWindow(times, n - 1);
      assert times[..n][..n - 1] == times[..n - 1];
    }
  }

  /** Sound: detection is called for only when the fault and the four before it lie within a
      second, and none of those four has called for it already. */
  lemma FiringIsDeserved(times: seq<int>, n: nat)
    requires FiresAt(times, n)
    ensures n >= 5 && WithinASecond(times, n - 5, n)
    ensures forall k :: n - 5 < k < n ==> !FiresAt(times, k)
  {
    assert n > 0;
    assert times[..n][..n - 1] == times[..n - 1];
    OpenWindow(times, n - 1);
  }

  predicate Monotone(times: seq<int>) { forall i, j :: 0 <= i < j < |times| ==> times[i] <= times[j] }

  lemma OvpUnfold(times: seq<int>, n: nat)
    requires n < |times|
    ensures Ovp(times[..n + 1]) == OvpStep(Ovp(times[..n]).0, times[n])
  {
    assert times[..n + 1][..n] == times[..n];
  }

  /** The fifth of five faults within a second fires exactly if the first of them opens a window. */
  lemma FreshWindowFires(times: seq<int>, p: nat)
    requires p + 5 <= |times| && WithinASecond(times, p, p + 5)
    ensures FiresAt(times, p + 5) <==> Ovp(times[..p]).0.count == 0
  {
    OvpUnfold(times, p);
    OvpUnfold(times, p + 1);
    OvpUnfold(times, p + 2);
    OvpUnfold(times, p + 3);
    OvpUnfold(times, p + 4);
  }

  /** An open window is closed again by the fault that would be its fifth, at the latest. */
  lemma {:induction false} WindowCloses(times: seq<int>, m: nat) returns (p: nat)
    requires m <= |times| && Ovp(times[..m]).0.count > 0
    requires m + OVP_COUNT - Ovp(times[..m]).0.count <= |times|
    ensures m < p <= m + OVP_COUNT - Ovp(times[..m]).0.count
    ensures Ovp(times[..p]).0.count == 0
    decreases OVP_COUNT - Ovp(times[..m]).0.count
  {
    OpenWindow(times, m);
    OvpUnfold(times, m);
    p := m + 1;
    if Ovp(times[..p]).0.count > 0 {
      OpenWindow(times, p);
      p := WindowCloses(times, p);
    }
  }

  /** Complete: among any nine faults within a second at least one calls for detection, however
      the windows happen to lie. */
  lemma NineWithinASecondFire(times: seq<int>, m: nat)
    requires m + 9 <= |times| && Monotone(times) && times[m + 8] - times[m] <= 1_000_000
    ensures exists k: nat :: m < k <= m + 9 && FiresAt(times, k)
  {
    OpenWindow(times, m);
    var p := m;
    if Ovp(times[..m]).0.count > 0 {
      p := WindowCloses(times, m);
    }
    FreshWindowFires(times, p);
    assert FiresAt(times, p + OVP_COUNT);
  }

  function EightUnheard(): seq<int> {
    [0, 900_000, 920_000, 940_000, 1_100_000, 1_200_000, 1_300_000, 1_400_000, 1_500_000]
  }

  /** Eight are not enough: these eight lie within 0.6 seconds and none of them fires. */
  lemma EightAreNotEnough()
    ensures var times := EightUnheard();
            && Monotone(times) && |times| == 9 && times[8] - times[1] <= 600_000
            && (forall k: nat :: k <= 9 ==> !FiresAt(times, k))
  {
    var times := EightUnheard();
    assert times[..0] == [];
    OvpUnfold(times, 0);
    OvpUnfold(times, 1);
    OvpUnfold(times, 2);
    OvpUnfold(times, 3);
    OvpUnfold(times, 4);
    OvpUnfold(times, 5);
    OvpUnfold(times, 6);
    OvpUnfold(times, 7);
    OvpUnfold(times, 8);
  }
}

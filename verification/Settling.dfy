/** The two-clock standstill detector of control/settling.py. */
module Settling {
  import opened Prelude
  import opened Model

  const STOP_TIMEOUT_NS := 4_000_000_000
  const STABLE_NS := 200_000_000

  /** Seconds to integer nanoseconds, halves to even. */
  function Round(x: real): int {
    var low := x.Floor;
    var rest := x - low as real;
    if rest < 0.5 || (rest == 0.5 && low % 2 == 0) then low else low + 1
  }

  datatype Stamp = Stamp(sourceNs: int, hostNs: int)

  /** One feedback packet as the detector examines it. */
  datatype Observation = Observation(qd: Joints, stamp: Stamp)

  /** Freshness bound per sample, and the stop speed (0.01 degrees per second in radians). */
  datatype Policy = Policy(freshnessNs: int, stopSpeed: real)

  datatype Window = Window(previous: Option<Stamp>, start: Option<Stamp>)

  const EMPTY := Window(None, None)

  predicate Slow(policy: Policy, qd: Joints) {
    forall j :: 0 <= j < 6 ==> Abs(qd[j]) <= policy.stopSpeed
  }

  function SmallGap(a: Stamp, b: Stamp): int {
    MinInt(b.sourceNs - a.sourceNs, b.hostNs - a.hostNs)
  }

  function LargeGap(a: Stamp, b: Stamp): int {
    MaxInt(b.sourceNs - a.sourceNs, b.hostNs - a.hostNs)
  }

  predicate Broken(policy: Policy, a: Stamp, b: Stamp) {
    SmallGap(a, b) < 0 || LargeGap(a, b) > policy.freshnessNs
  }

  /** One of the clocks did not advance: the packet is not examined. */
  predicate Repeated(policy: Policy, a: Stamp, b: Stamp) {
    !Broken(policy, a, b) && SmallGap(a, b) == 0
  }

  predicate Spans(a: Stamp, b: Stamp) {
    b.sourceNs - a.sourceNs >= STABLE_NS && b.hostNs - a.hostNs >= STABLE_NS
  }

  function Examine(policy: Policy, w: Window, x: Observation): (bool, Window) {
    if w.previous.Some? && Repeated(policy, w.previous.value, x.stamp) then (false, w)
    else
      var kept := if w.previous.Some? && Broken(policy, w.previous.value, x.stamp) then None else w.start;
      if !Slow(policy, x.qd) then (false, Window(Some(x.stamp), None))
      else
        var start := if kept.None? then x.stamp else kept.value;
        (Spans(start, x.stamp), Window(Some(x.stamp), Some(start)))
  }

  class Standstill {
    const policy: Policy
    var previous: Option<Stamp>
    var start: Option<Stamp>

    ghost function Value(): Window
      reads this
    {
      Window(previous, start)
    }

    constructor (policy: Policy)
      ensures this.policy == policy && Value() == EMPTY
    {
      this.policy, previous, start := policy, None, None;
    }

    method Update(qd: Joints, sourceSeconds: real, now: int) returns (stopped: bool)
      modifies this
      ensures (stopped, Value()) ==
              Examine(policy, old(Value()), Observation(qd, Stamp(Round(sourceSeconds * 1000000000.0), now)))
    {
      var current := Stamp(Round(sourceSeconds * 1000000000.0), now);
      if previous.Some? {
        if SmallGap(previous.value, current) < 0 || LargeGap(previous.value, current) > policy.freshnessNs {
          start := None;
        } else if SmallGap(previous.value, current) == 0 {
          return false;
        }
      }
      previous := Some(current);
      if !Slow(policy, qd) {
        start := None;
        return false;
      }
      if start.None? {
        start := Some(current);
      }
      return Spans(start.value, current);
    }
  }

  // The detector against its history.

  /** The window after a whole history. */
  function Replay(policy: Policy, h: seq<Observation>): Window {
    if h == [] then EMPTY else Examine(policy, Replay(policy, h[..|h| - 1]), h[|h| - 1]).1
  }

  /** The packets of a history that were examined: repeats of either clock are skipped. */
  function Examined(policy: Policy, h: seq<Observation>): (k: seq<Observation>)
    ensures h != [] ==> k != []
  {
    if h == [] then []
    else
      var before := Examined(policy, h[..|h| - 1]);
      var x := h[|h| - 1];
      if before != [] && Repeated(policy, before[|before| - 1].stamp, x.stamp) then before else before + [x]
  }

  predicate Advances(policy: Policy, a: Stamp, b: Stamp) {
    && 0 < b.sourceNs - a.sourceNs <= policy.freshnessNs
    && 0 < b.hostNs - a.hostNs <= policy.freshnessNs
  }

  /** From packet i on: all slow, both clocks strictly advancing within the freshness bound. */
  ghost predicate Steady(policy: Policy, k: seq<Observation>, i: nat) {
    && i < |k|
    && (forall j :: i <= j < |k| ==> Slow(policy, k[j].qd))
    && (forall j :: i < j < |k| ==> Advances(policy, k[j - 1].stamp, k[j].stamp))
  }

  lemma SteadyMonotone(policy: Policy, k: seq<Observation>, i: nat, j: nat)
    requires Steady(policy, k, i) && i <= j < |k|
    ensures k[i].stamp.sourceNs <= k[j].stamp.sourceNs && k[i].stamp.hostNs <= k[j].stamp.hostNs
  {
    if i < j {
      SteadyMonotone(policy, k, i, j - 1);
    }
  }

  /** First packet of the steady run that ends the examined history; |k| when there is none. */
  function Begin(policy: Policy, k: seq<Observation>): (i: nat)
    ensures i <= |k|
  {
    var n := |k|;
    if n == 0 || !Slow(policy, k[n - 1].qd) then n
    else
      var before := Begin(policy, k[..n - 1]);
      if n == 1 || before == n - 1 || !Advances(policy, k[n - 2].stamp, k[n - 1].stamp) then n - 1 else before
  }

  lemma {:induction false} BeginIsFirst(policy: Policy, k: seq<Observation>)
    ensures Begin(policy, k) < |k| ==> Steady(policy, k, Begin(policy, k))
    ensures forall i: nat :: Steady(policy, k, i) ==> Begin(policy, k) <= i
  {
    var n := |k|;
    if n > 0 && Slow(policy, k[n - 1].qd) {
      BeginIsFirst(policy, k[..n - 1]);
      forall i: nat | Steady(policy, k, i)
        ensures Begin(policy, k) <= i
      {
        if i < n - 1 {
          assert Advances(policy, k[n - 1 - 1].stamp, k[n - 1].stamp);
          assert Steady(policy, k[..n - 1], i);
        }
      }
    }
  }

  /** The window remembers the last examined packet and where its steady run began. */
  lemma {:induction false} ReplayIsExamined(policy: Policy, h: seq<Observation>)
    ensures Remembers(policy, Replay(policy, h), Examined(policy, h))
  {
    if h == [] {
      assert Remembers(policy, EMPTY, []);
    } else {
      hide *;
      var before, x := h[..|h| - 1], h[|h| - 1];
      assert before + [x] == h;
      ReplayIsExamined(policy, before);
      ExaminedNext(policy, before, x);
      ExamineRemembers(policy, Replay(policy, before), Examined(policy, before), x);
    }
  }

  /** A window that remembers the last examined packet and the first packet of the steady run that ends them. */
  ghost predicate Remembers(policy: Policy, w: Window, k: seq<Observation>) {
    && (k == [] ==> w == EMPTY)
    && (k != [] ==> w.previous == Some(k[|k| - 1].stamp))
    && w.start == if Begin(policy, k) < |k| then Some(k[Begin(policy, k)].stamp) else None
  }

  /** One packet keeps the memory. */
  lemma ExamineRemembers(policy: Policy, w: Window, k: seq<Observation>, x: Observation)
    requires Remembers(policy, w, k)
    ensures Remembers(policy, Examine(policy, w, x).1,
                      if k != [] && Repeated(policy, k[|k| - 1].stamp, x.stamp) then k else k + [x])
  {
    hide Slow;
    if !(k != [] && Repeated(policy, k[|k| - 1].stamp, x.stamp)) {
      BeginAppend(policy, k, x);
      hide Begin;
      assert |k + [x]| == |k| + 1;
    }
  }

  /** Where the steady run begins when one more packet was examined. */
  lemma BeginAppend(policy: Policy, k: seq<Observation>, x: Observation)
    ensures Begin(policy, k + [x]) ==
            if !Slow(policy, x.qd) then |k| + 1
            else if k == [] || Begin(policy, k) == |k| || !Advances(policy, k[|k| - 1].stamp, x.stamp) then |k|
            else Begin(policy, k)
  {
    hide Slow, Advances;
    var all := k + [x];
    assert all[..|all| - 1] == k && all[|all| - 1] == x;
  }

  /** A history whose last packet was examined and ends a steady run of 200 ms on both clocks. */
  ghost predicate Stationary(policy: Policy, h: seq<Observation>) {
    && h != []
    && var k := Examined(policy, h);
       && (Examined(policy, h[..|h| - 1]) + [h[|h| - 1]] == k)
       && exists i: nat :: Steady(policy, k, i) && Spans(k[i].stamp, k[|k| - 1].stamp)
  }

  /** A steady run that spans the window exists exactly when the longest one does. */
  lemma LongestSpans(policy: Policy, k: seq<Observation>)
    requires k != []
    ensures (exists i: nat :: Steady(policy, k, i) && Spans(k[i].stamp, k[|k| - 1].stamp))
       <==> Begin(policy, k) < |k| && Spans(k[Begin(policy, k)].stamp, k[|k| - 1].stamp)
  {
    BeginIsFirst(policy, k);
    forall i: nat | Steady(policy, k, i) && Spans(k[i].stamp, k[|k| - 1].stamp)
      ensures Spans(k[Begin(policy, k)].stamp, k[|k| - 1].stamp)
    {
      SteadyMonotone(policy, k, Begin(policy, k), i);
    }
  }

  /** What is examined when one more packet arrives. */
  lemma ExaminedNext(policy: Policy, h: seq<Observation>, x: Observation)
    ensures var before := Examined(policy, h);
            Examined(policy, h + [x])
            == if before != [] && Repeated(policy, before[|before| - 1].stamp, x.stamp) then before else before + [x]
    ensures Replay(policy, h + [x]) == Examine(policy, Replay(policy, h), x).1
  {
    hide Repeated, Examine;
    var all := h + [x];
    assert all[..|all| - 1] == h && all[|all| - 1] == x;
  }

  /** The verdict on an examined packet, in terms of the steady run it ends. */
  lemma ExamineVerdict(policy: Policy, w: Window, k: seq<Observation>, x: Observation)
    requires Remembers(policy, w, k)
    ensures k != [] && Repeated(policy, k[|k| - 1].stamp, x.stamp) ==> !Examine(policy, w, x).0
    ensures !(k != [] && Repeated(policy, k[|k| - 1].stamp, x.stamp)) ==>
              (Examine(policy, w, x).0 <==>
                 Begin(policy, k + [x]) < |k + [x]| && Spans((k + [x])[Begin(policy, k + [x])].stamp, x.stamp))
  {
    hide Slow;
    BeginAppend(policy, k, x);
    hide Begin;
    assert |k + [x]| == |k| + 1;
  }

  /** A history ends stationary exactly when its last packet was examined and ends a steady run that spans. */
  lemma StationaryNext(policy: Policy, h: seq<Observation>, x: Observation)
    ensures var k := Examined(policy, h);
            Stationary(policy, h + [x]) <==>
              && !(k != [] && Repeated(policy, k[|k| - 1].stamp, x.stamp))
              && Begin(policy, k + [x]) < |k + [x]| && Spans((k + [x])[Begin(policy, k + [x])].stamp, x.stamp)
  {
    var all, k := h + [x], Examined(policy, h);
    assert all[..|all| - 1] == h && all[|all| - 1] == x;
    ExaminedNext(policy, h, x);
    LongestSpans(policy, k + [x]);
    hide Steady, Repeated, Spans, Begin, Examined;
    assert |k + [x]| != |k|;
  }

  /** The detector confirms exactly the stationary histories. */
  lemma ConfirmsExactly(policy: Policy, h: seq<Observation>, x: Observation)
    ensures Examine(policy, Replay(policy, h), x).0 <==> Stationary(policy, h + [x])
  {
    hide *;
    ReplayIsExamined(policy, h);
    ExamineVerdict(policy, Replay(policy, h), Examined(policy, h), x);
    StationaryNext(policy, h, x);
  }
}

/** Exactly when the tracker overshoots a fixed goal. */
module Overshoot {
  import opened Prelude
  import opened Model
  import opened Conditioning
  import opened ConditioningProofs

  /** A joint at rest, or moving toward its goal, or standing on it. */
  predicate Facing(error: real, velocity: real) {
    (error >= 0.0 && velocity >= 0.0) || (error <= 0.0 && velocity <= 0.0)
  }

  /** What a joint must still travel in one step of `dt` even when it brakes as hard as it may. */
  function Runout(a: real, dt: real, velocity: real): real {
    (Abs(velocity) - a * dt) * dt
  }

  /** The unavoidable travel fits into the error: readable before the step. */
  predicate Stoppable(a: real, dt: real, error: real, velocity: real) {
    Runout(a, dt, velocity) <= Abs(error)
  }

  // One joint.

  /** Toward a goal ahead, with the products named. */
  lemma SpeedExactly(speed: real, change: real, dt: real, e: real, quotient: real, root: real, v: real, w: real)
    requires speed > 0.0 && change > 0.0 && dt > 0.0 && root >= 0.0 && e >= 0.0 && v >= 0.0
    requires quotient >= 0.0 && quotient * dt == e
    requires w == Approach(v, Min(Min(speed, quotient), root), change)
    ensures w >= 0.0 && (w * dt <= e <==> (v - change) * dt <= e)
  {
    var requested := Min(Min(speed, quotient), root);
    if v - change <= requested {
      assert v - change <= w <= requested;
      ProductOrder(dt, v - change, quotient);
      ProductOrder(dt, w, quotient);
    } else {
      assert w == v - change;
    }
  }

  lemma AheadExactly(speed: real, a: real, dt: real, q: real, goal: real, v: real, root: real, w: real)
    requires speed > 0.0 && a > 0.0 && dt > 0.0 && root >= 0.0 && goal - q >= 0.0 && v >= 0.0
    requires w == VelocityFrom(speed, a, dt, goal - q, root, v)
    ensures w >= 0.0 && (Closer(q, Advance(q, w, dt), goal) <==> (v - a * dt) * dt <= goal - q)
  {
    var e := goal - q;
    Quotient(e, dt);
    ProductPositive(a, dt);
    SpeedExactly(speed, a * dt, dt, e, e / dt, root, v, w);
    AdvanceExactly(q, goal, w, dt, w * dt);
  }

  lemma AdvanceExactly(q: real, goal: real, w: real, dt: real, travel: real)
    requires w >= 0.0 && dt > 0.0 && travel == w * dt && goal - q >= 0.0
    ensures Closer(q, Advance(q, w, dt), goal) <==> travel <= goal - q
  {
    ProductOrder(dt, 0.0, w);
  }

  lemma RunoutAhead(a: real, dt: real, velocity: real)
    ensures velocity >= 0.0 ==> Runout(a, dt, velocity) == (velocity - a * dt) * dt
    ensures Runout(a, dt, -velocity) == Runout(a, dt, velocity)
  {
    assert Abs(-velocity) == Abs(velocity);
  }

  /** One step of a joint that faces its goal stays between its position and the goal exactly when it is stoppable. */
  lemma JointExactly(speed: real, a: real, dt: real, q: real, goal: real, v: real, root: real, w: real)
    requires speed > 0.0 && a > 0.0 && dt > 0.0 && root >= 0.0 && Facing(goal - q, v)
    requires w == VelocityFrom(speed, a, dt, goal - q, root, v)
    ensures Closer(q, Advance(q, w, dt), goal) <==> Stoppable(a, dt, goal - q, v)
    ensures Closer(q, Advance(q, w, dt), goal) ==> Facing(goal - Advance(q, w, dt), w)
  {
    hide VelocityFrom, Advance, Runout, Requested, Braking;
    RunoutAhead(a, dt, v);
    if goal - q >= 0.0 && v >= 0.0 {
      AheadExactly(speed, a, dt, q, goal, v, root, w);
      AheadStays(q, goal, Advance(q, w, dt), w);
    } else {
      Mirror(speed, a, dt, goal - q, root, v, q);
      assert -goal - -q == -(goal - q);
      AheadExactly(speed, a, dt, -q, -goal, -v, root, -w);
      RunoutAhead(a, dt, -v);
      AheadStays(-q, -goal, Advance(-q, -w, dt), -w);
      MirrorCloser(q, Advance(q, w, dt), goal);
    }
  }

  lemma AheadStays(q: real, goal: real, p: real, w: real)
    requires w >= 0.0 && goal - q >= 0.0
    ensures Closer(q, p, goal) ==> goal - p >= 0.0
  {
  }

  lemma MirrorCloser(q: real, p: real, goal: real)
    ensures Closer(-q, -p, -goal) <==> Closer(q, p, goal)
  {
  }

  // One command.

  ghost predicate AllFacing(s: Track, goal: Joints) {
    forall j :: 0 <= j < 6 ==> Facing(goal[j] - s.target.q[j], s.velocity[j])
  }

  ghost predicate AllCloser(before: Joints, after: Joints, goal: Joints) {
    forall j :: 0 <= j < 6 ==> Closer(before[j], after[j], goal[j])
  }

  /** Every joint can still stop in time: a condition on the tracker as it stands and on the time of the next step. */
  predicate AllStoppable(limits: Limits, s: Track, goal: Joints, now: int, gain: real) {
    forall j :: 0 <= j < 6 ==>
      Stoppable(Acceleration(limits, gain), Seconds(now - s.target.createdNs), goal[j] - s.target.q[j], s.velocity[j])
  }

  /** What a command that raises nothing computed. */
  lemma NextElements(sqrt: real -> real, limits: Limits, s: Track, goal: Joints, now: int, gain: real, j: nat)
    requires Next(sqrt, limits, s, goal, now, gain).Ok? && j < 6
    ensures var t := Next(sqrt, limits, s, goal, now, gain).value;
            var dt := Seconds(now - s.target.createdNs);
            && dt > 0.0 && 0.0 < gain <= 1.0
            && t.velocity[j] == NextVelocity(sqrt, Speed(limits, gain), Acceleration(limits, gain), dt,
                                             goal[j] - s.target.q[j], s.velocity[j])
            && t.target.q[j] == Advance(s.target.q[j], t.velocity[j], dt)
  {
    hide NextVelocity, Speed, Acceleration, Advance;
  }

  lemma CommandExactly(sqrt: real -> real, limits: Limits, s: Track, goal: Joints, now: int, gain: real)
    requires IsSqrt(sqrt) && limits.Valid() && AllFacing(s, goal) && Next(sqrt, limits, s, goal, now, gain).Ok?
    ensures var t := Next(sqrt, limits, s, goal, now, gain).value;
            && (AllCloser(s.target.q, t.target.q, goal) <==> AllStoppable(limits, s, goal, now, gain))
            && (AllCloser(s.target.q, t.target.q, goal) ==> AllFacing(t, goal))
  {
    var t := Next(sqrt, limits, s, goal, now, gain).value;
    var dt := Seconds(now - s.target.createdNs);
    forall j | 0 <= j < 6
      ensures Closer(s.target.q[j], t.target.q[j], goal[j])
              <==> Stoppable(Acceleration(limits, gain), dt, goal[j] - s.target.q[j], s.velocity[j])
      ensures Closer(s.target.q[j], t.target.q[j], goal[j]) ==> Facing(goal[j] - t.target.q[j], t.velocity[j])
    {
      NextElements(sqrt, limits, s, goal, now, gain, j);
      PositiveRates(limits, gain);
      ElementExactly(sqrt, Speed(limits, gain), Acceleration(limits, gain), dt, s.target.q[j], goal[j], s.velocity[j],
                     t.velocity[j]);
    }
    hide Next, Closer, Stoppable, Facing, Speed, Acceleration;
  }

  lemma ElementExactly(sqrt: real -> real, speed: real, a: real, dt: real, q: real, goal: real, v: real, w: real)
    requires IsSqrt(sqrt) && speed > 0.0 && a > 0.0 && dt > 0.0 && Facing(goal - q, v)
    requires w == NextVelocity(sqrt, speed, a, dt, goal - q, v)
    ensures Closer(q, Advance(q, w, dt), goal) <==> Stoppable(a, dt, goal - q, v)
    ensures Closer(q, Advance(q, w, dt), goal) ==> Facing(goal - Advance(q, w, dt), w)
  {
    hide Closer, IsRoot, Braking, VelocityFrom, Advance, IsSqrt, Stoppable, Facing;
    var energy := Braking(a, goal - q);
    RootExists(sqrt, a, goal - q, energy);
    RootNonnegative(sqrt(energy), energy);
    JointExactly(speed, a, dt, q, goal, v, sqrt(energy), w);
  }

  lemma RootNonnegative(root: real, energy: real)
    requires IsRoot(root, energy)
    ensures root >= 0.0
  {
  }

  // Whole runs.

  /** The tracker after the first k commands of a run. */
  function After(sqrt: real -> real, limits: Limits, seed: Target, goal: Joints, times: seq<int>, gain: real, k: nat)
    : Result<Track, ControlError>
    requires k <= |times|
  {
    Run(sqrt, limits, Track(seed, ZERO), goal, times[..k], gain)
  }

  lemma AfterNext(sqrt: real -> real, limits: Limits, seed: Target, goal: Joints, times: seq<int>, gain: real, k: nat)
    requires Run(sqrt, limits, Track(seed, ZERO), goal, times, gain).Ok? && k < |times|
    ensures After(sqrt, limits, seed, goal, times, gain, k).Ok?
        && After(sqrt, limits, seed, goal, times, gain, k + 1).Ok?
    ensures Next(sqrt, limits, After(sqrt, limits, seed, goal, times, gain, k).value, goal, times[k], gain)
            == After(sqrt, limits, seed, goal, times, gain, k + 1)
  {
    hide Next;
    var start := Track(seed, ZERO);
    RunSplit(sqrt, limits, start, goal, times, gain, k + 1);
    RunSplit(sqrt, limits, start, goal, times[..k + 1], gain, k);
    assert times[..k + 1][..k] == times[..k] && times[..k + 1][k..] == [times[k]] && [times[k]][1..] == [];
  }

  lemma AfterOk(sqrt: real -> real, limits: Limits, seed: Target, goal: Joints, times: seq<int>, gain: real, k: nat)
    requires Run(sqrt, limits, Track(seed, ZERO), goal, times, gain).Ok? && k <= |times|
    ensures After(sqrt, limits, seed, goal, times, gain, k).Ok?
  {
    RunSplit(sqrt, limits, Track(seed, ZERO), goal, times, gain, k);
  }

  /** No joint ever passes its goal or turns back from it: later positions lie between earlier ones and the goal. */
  ghost predicate NeverOvershoots(
    sqrt: real -> real, limits: Limits, seed: Target, goal: Joints, times: seq<int>, gain: real
  ) {
    forall k: nat, n: nat :: k <= n <= |times| ==>
      Ordered(After(sqrt, limits, seed, goal, times, gain, k), After(sqrt, limits, seed, goal, times, gain, n), goal)
  }

  ghost predicate Ordered(before: Result<Track, ControlError>, after: Result<Track, ControlError>, goal: Joints) {
    before.Ok? && after.Ok? && AllCloser(before.value.target.q, after.value.target.q, goal)
  }

  ghost predicate AlwaysStoppable(
    sqrt: real -> real, limits: Limits, seed: Target, goal: Joints, times: seq<int>, gain: real
  ) {
    forall k: nat :: k < |times| ==>
      StoppableAt(limits, After(sqrt, limits, seed, goal, times, gain, k), goal, times[k], gain)
  }

  predicate StoppableAt(limits: Limits, at: Result<Track, ControlError>, goal: Joints, now: int, gain: real) {
    at.Ok? && AllStoppable(limits, at.value, goal, now, gain)
  }

  lemma CloserTrans(a: Joints, b: Joints, c: Joints, goal: Joints)
    requires AllCloser(a, b, goal) && AllCloser(b, c, goal)
    ensures AllCloser(a, c, goal)
  {
  }

  lemma CloserSelf(s: Track, goal: Joints)
    requires AllFacing(s, goal)
    ensures AllCloser(s.target.q, s.target.q, goal)
  {
  }

  /** The first n commands, when each of them was issued by a stoppable tracker. */
  lemma {:induction false} StoppableRun(
    sqrt: real -> real, limits: Limits, seed: Target, goal: Joints, times: seq<int>, gain: real, k: nat, n: nat
  )
    requires IsSqrt(sqrt) && limits.Valid() && k <= n <= |times|
    requires Run(sqrt, limits, Track(seed, ZERO), goal, times, gain).Ok?
    requires forall i: nat :: i < n ==>
               StoppableAt(limits, After(sqrt, limits, seed, goal, times, gain, i), goal, times[i], gain)
    ensures After(sqrt, limits, seed, goal, times, gain, n).Ok?
            && AllFacing(After(sqrt, limits, seed, goal, times, gain, n).value, goal)
    ensures Ordered(After(sqrt, limits, seed, goal, times, gain, k), After(sqrt, limits, seed, goal, times, gain, n),
        goal)
    decreases n
  {
    hide Next, AllFacing, AllCloser, AllStoppable, After, Run, IsSqrt;
    AfterOk(sqrt, limits, seed, goal, times, gain, n);
    var at := After(sqrt, limits, seed, goal, times, gain, n);
    if n == 0 {
      StartFacing(sqrt, limits, seed, goal, times, gain);
    } else {
      var before := After(sqrt, limits, seed, goal, times, gain, n - 1);
      AfterNext(sqrt, limits, seed, goal, times, gain, n - 1);
      StoppableRun(sqrt, limits, seed, goal, times, gain, MinInt(k, n - 1), n - 1);
      assert StoppableAt(limits, before, goal, times[n - 1], gain);
      CommandExactly(sqrt, limits, before.value, goal, times[n - 1], gain);
      if k < n {
        CloserTrans(After(sqrt, limits, seed, goal, times, gain, k).value.target.q, before.value.target.q,
                    at.value.target.q, goal);
      }
    }
    if k == n {
      CloserSelf(at.value, goal);
    }
  }

  lemma StartFacing(sqrt: real -> real, limits: Limits, seed: Target, goal: Joints, times: seq<int>, gain: real)
    ensures After(sqrt, limits, seed, goal, times, gain, 0) == Ok(Track(seed, ZERO))
        && AllFacing(Track(seed, ZERO), goal)
  {
  }

  /**
   * From rest, under a fixed goal and gain and any step times: no joint ever overshoots if and only if before each
   * step every joint's error exceeds what the joint must travel under full deceleration.
   */
  lemma OvershootExactly(
    sqrt: real -> real, limits: Limits, seed: Target, goal: Joints, times: seq<int>, gain: real
  )
    requires IsSqrt(sqrt) && limits.Valid() && Run(sqrt, limits, Track(seed, ZERO), goal, times, gain).Ok?
    ensures NeverOvershoots(sqrt, limits, seed, goal, times, gain)
       <==> AlwaysStoppable(sqrt, limits, seed, goal, times, gain)
  {
    hide After, Ordered, StoppableAt, Run, IsSqrt;
    if AlwaysStoppable(sqrt, limits, seed, goal, times, gain) {
      forall k: nat, n: nat | k <= n <= |times|
        ensures Ordered(After(sqrt, limits, seed, goal, times, gain, k),
            After(sqrt, limits, seed, goal, times, gain, n), goal)
      {
        StoppableRun(sqrt, limits, seed, goal, times, gain, k, n);
      }
    }
    if NeverOvershoots(sqrt, limits, seed, goal, times, gain) {
      OrderedRun(sqrt, limits, seed, goal, times, gain, |times|);
    }
  }

  /** A run whose positions stay ordered was stoppable before each of its commands. */
  lemma {:induction false} OrderedRun(
    sqrt: real -> real, limits: Limits, seed: Target, goal: Joints, times: seq<int>, gain: real, n: nat
  )
    requires IsSqrt(sqrt) && limits.Valid() && n <= |times|
    requires Run(sqrt, limits, Track(seed, ZERO), goal, times, gain).Ok?
    requires NeverOvershoots(sqrt, limits, seed, goal, times, gain)
    ensures forall i: nat :: i < n ==>
              StoppableAt(limits, After(sqrt, limits, seed, goal, times, gain, i), goal, times[i], gain)
    decreases n
  {
    hide Next, AllFacing, AllCloser, AllStoppable, After, Run, IsSqrt;
    if n > 0 {
      OrderedRun(sqrt, limits, seed, goal, times, gain, n - 1);
      StoppableRun(sqrt, limits, seed, goal, times, gain, n - 1, n - 1);
      AfterNext(sqrt, limits, seed, goal, times, gain, n - 1);
      var before, after := After(sqrt, limits, seed, goal, times, gain, n - 1),
          After(sqrt, limits, seed, goal, times, gain, n);
      assert Ordered(before, after, goal);
      CommandExactly(sqrt, limits, before.value, goal, times[n - 1], gain);
    }
  }

  // An overshoot the program admits.

  function All(x: real): Joints {
    [x, x, x, x, x, x]
  }

  /** The rates, step and freshness that limits have by default, on joints between -1 and 1. */
  const ORDINARY := Limits(All(-1.0), All(1.0), All(0.0), 0.3, 0.5, 1.0, 3.0, 0.08, 250_000_000, 0.01, 0.01)

  lemma OrdinaryFacts()
    ensures ORDINARY.Valid() && Speed(ORDINARY, 1.0) == 0.9 && Acceleration(ORDINARY, 1.0) == 2.7
    ensures forall x: real :: -1.0 <= x <= 1.0 ==> ORDINARY.Admits(All(x))
  {
  }

  /** A command of a tracker whose joints all agree. */
  lemma UniformNext(sqrt: real -> real, n: int, since: int, q: real, v: real, goal: real, now: int, dt: real, w: real)
    requires dt == Seconds(now - since) && 0.0 < dt <= 0.25 && -1.0 <= goal <= 1.0
    requires w == NextVelocity(sqrt, 0.9, 2.7, dt, goal - q, v)
    requires -1.0 <= Advance(q, w, dt) <= 1.0 && Abs(Advance(q, w, dt) - q) <= 0.08
    ensures Next(sqrt, ORDINARY, Track(Target(All(q), n, since, ""), All(v)), All(goal), now, 1.0)
            == Ok(Track(Target(All(Advance(q, w, dt)), n + 1, now, ""), All(w)))
  {
    OrdinaryFacts();
    var s := Track(Target(All(q), n, since, ""), All(v));
    var p := Advance(q, w, dt);
    UniformVelocities(sqrt, n, since, q, v, goal, dt, w);
    UniformMoved(q, w, dt);
    UniformStep(p, q);
    assert Seconds(ORDINARY.freshnessNs) == 0.25;
    hide NextVelocity, Advance, Speed, Acceleration, Distance, Velocities, Moved, All;
    NextIs(sqrt, ORDINARY, s, All(goal), now, 1.0, dt);
  }

  lemma UniformVelocities(sqrt: real -> real, n: int, since: int, q: real, v: real, goal: real, dt: real, w: real)
    requires dt > 0.0 && w == NextVelocity(sqrt, 0.9, 2.7, dt, goal - q, v)
    ensures Velocities(sqrt, ORDINARY, Track(Target(All(q), n, since, ""), All(v)), All(goal), dt, 1.0) == All(w)
  {
    OrdinaryFacts();
    hide NextVelocity, Speed, Acceleration;
  }

  lemma UniformMoved(q: real, w: real, dt: real)
    ensures Moved(All(q), All(w), dt) == All(Advance(q, w, dt))
  {
    hide Advance;
  }

  lemma UniformStep(p: real, q: real)
    requires Abs(p - q) <= 0.08
    ensures Distance(All(p), All(q)) <= ORDINARY.step
  {
    hide Distance;
    DistanceWithin(All(p), All(q), 0.08);
  }

  lemma Roots(sqrt: real -> real)
    requires IsSqrt(sqrt)
    ensures sqrt(0.0729) == 0.27 && sqrt(0.0) == 0.0
  {
    var r, z := sqrt(0.0729), sqrt(0.0);
    assert r >= 0.0 && r * r == 0.0729 && z >= 0.0 && z * z == 0.0;
    hide IsSqrt;
    SquareOrder(r, 0.27);
    SquareOrder(0.27, r);
    ZeroSquare(z, z * z);
  }

  /** A tenth of a second from rest to a goal 27 mrad ahead: full acceleration arrives there exactly. */
  lemma FullTenth(sqrt: real -> real)
    requires sqrt(0.0729) == 0.27
    ensures NextVelocity(sqrt, 0.9, 2.7, 0.1, 0.027, 0.0) == 0.27 && Advance(0.0, 0.27, 0.1) == 0.027
  {
    assert Braking(2.7, 0.027) == 0.0729;
  }

  /** Half as long afterwards: full deceleration cannot stop there. */
  lemma HalfTenth(sqrt: real -> real)
    requires sqrt(0.0) == 0.0
    ensures NextVelocity(sqrt, 0.9, 2.7, 0.05, 0.0, 0.27) == 0.135 && Advance(0.027, 0.135, 0.05) == 0.03375
  {
    assert Braking(2.7, 0.0) == 0.0;
    assert Requested(0.9, 0.05, 0.0, 0.0) == 0.0;
  }

  const AT_REST := Track(Target(All(0.0), 0, 0, ""), All(0.0))
  const ARRIVED := Track(Target(All(0.027), 1, 100_000_000, ""), All(0.27))
  const PAST := Track(Target(All(0.03375), 2, 150_000_000, ""), All(0.135))

  lemma FirstNext(sqrt: real -> real)
    requires sqrt(0.0729) == 0.27
    ensures Next(sqrt, ORDINARY, AT_REST, All(0.027), 100_000_000, 1.0) == Ok(ARRIVED)
  {
    FullTenth(sqrt);
    hide NextVelocity, Next;
    assert Seconds(100_000_000 - 0) == 0.1;
    UniformNext(sqrt, 0, 0, 0.0, 0.0, 0.027, 100_000_000, 0.1, 0.27);
  }

  lemma SecondNext(sqrt: real -> real)
    requires sqrt(0.0) == 0.0
    ensures Next(sqrt, ORDINARY, ARRIVED, All(0.027), 150_000_000, 1.0) == Ok(PAST)
  {
    HalfTenth(sqrt);
    hide NextVelocity, Next;
    assert Seconds(150_000_000 - 100_000_000) == 0.05;
    UniformNext(sqrt, 1, 100_000_000, 0.027, 0.27, 0.027, 150_000_000, 0.05, 0.135);
  }

  lemma CannotStop()
    ensures !AllStoppable(ORDINARY, ARRIVED, All(0.027), 150_000_000, 1.0)
  {
    OrdinaryFacts();
    assert Seconds(150_000_000 - 100_000_000) == 0.05;
    assert Runout(2.7, 0.05, 0.27) == 0.00675 && Abs(0.0) == 0.0;
    hide Runout, Acceleration;
    assert !Stoppable(2.7, 0.05, All(0.027)[0] - ARRIVED.target.q[0], ARRIVED.velocity[0]);
  }

  lemma RunTwice(
    sqrt: real -> real, limits: Limits, s: Track, t: Track, u: Track, goal: Joints, first: int, second: int, gain: real
  )
    requires Next(sqrt, limits, s, goal, first, gain) == Ok(t) && Next(sqrt, limits, t, goal, second, gain) == Ok(u)
    ensures Run(sqrt, limits, s, goal, [first, second], gain) == Ok(u)
    ensures Run(sqrt, limits, s, goal, [first, second][..1], gain) == Ok(t)
  {
    hide Next;
    var times, one, other := [first, second], [first], [second];
    assert times[1..] == other && times[..1] == one && one[1..] == [] && other[1..] == [];
    assert Run(sqrt, limits, t, goal, other, gain) == Ok(u);
    assert Run(sqrt, limits, s, goal, one, gain) == Ok(t);
  }

  lemma PastGoal()
    ensures PAST.target.q == All(0.03375)
  {
  }

  /**
   * With the limits the program uses by default, from rest, after steps of 100 and then 50 ms, every joint stands past
   * its goal by a quarter of the way there, and no check of the command refuses it.
   */
  lemma ShrinkingStepOvershoots(sqrt: real -> real)
    requires IsSqrt(sqrt)
    ensures ORDINARY.Valid()
    ensures var goal, times := All(0.027), [100_000_000, 150_000_000];
            && Run(sqrt, ORDINARY, AT_REST, goal, times, 1.0) == Ok(PAST)
            && Run(sqrt, ORDINARY, AT_REST, goal, times[..1], 1.0) == Ok(ARRIVED)
            && !AllStoppable(ORDINARY, ARRIVED, goal, times[1], 1.0)
            && PAST.target.q == All(0.03375)
  {
    hide *;
    OrdinaryFacts();
    Roots(sqrt);
    FirstNext(sqrt);
    SecondNext(sqrt);
    CannotStop();
    RunTwice(sqrt, ORDINARY, AT_REST, ARRIVED, PAST, All(0.027), 100_000_000, 150_000_000, 1.0);
    PastGoal();
  }
}

/** No overshoot and finite convergence of the tracker toward a fixed goal. */
module ConditioningProofs {
  import opened Prelude
  import opened Model
  import opened Conditioning

  /** Issue one command per time toward a fixed goal at a fixed gain. */
  function Run(sqrt: real -> real, limits: Limits, s: Track, goal: Joints, times: seq<int>, gain: real)
    : Result<Track, ControlError>
    decreases |times|
  {
    if times == [] then Ok(s)
    else match Next(sqrt, limits, s, goal, times[0], gain)
      case Ok(next) => Run(sqrt, limits, next, goal, times[1..], gain)
      case Err(e) => Err(e)
  }

  lemma {:induction false} RunSplit(
    sqrt: real -> real, limits: Limits, s: Track, goal: Joints, times: seq<int>, gain: real, k: nat
  )
    requires k <= |times|
    ensures Run(sqrt, limits, s, goal, times, gain) ==
            match Run(sqrt, limits, s, goal, times[..k], gain)
            case Ok(middle) => Run(sqrt, limits, middle, goal, times[k..], gain)
            case Err(e) => Err(e)
    decreases |times|
  {
    if k == 0 {
      assert times[k..] == times;
    } else {
      assert times[..k][0] == times[0] && times[..k][1..] == times[1..][..k - 1];
      assert times[1..][k - 1..] == times[k..];
      match Next(sqrt, limits, s, goal, times[0], gain)
      case Ok(next) => RunSplit(sqrt, limits, next, goal, times[1..], gain, k - 1);
      case Err(_) =>
    }
  }

  /** Durations of consecutive steps, in seconds. */
  function Steps(now: int, times: seq<int>): (dts: seq<real>)
    ensures |dts| == |times|
    decreases |times|
  {
    if times == [] then [] else [Seconds(times[0] - now)] + Steps(times[0], times[1..])
  }

  ghost predicate Positive(dts: seq<real>) {
    forall i :: 0 <= i < |dts| ==> dts[i] > 0.0
  }

  /** Step times never shrink, starting no shorter than `last`. */
  ghost predicate Nondecreasing(last: real, dts: seq<real>)
    decreases |dts|
  {
    dts == [] || (last <= dts[0] && Nondecreasing(dts[0], dts[1..]))
  }

  /** `after` lies between `before` and the goal: same error sign, no larger error. */
  ghost predicate Closer(before: real, after: real, goal: real) {
    before <= after <= goal || goal <= after <= before
  }

  /** One joint is not moving faster than the braking law allowed a step of `dt` ago. */
  ghost predicate Poised(speed: real, a: real, dt: real, error: real, velocity: real) {
    PoisedAhead(speed, a, dt, error, velocity) || PoisedAhead(speed, a, dt, -error, -velocity)
  }

  ghost predicate PoisedAhead(speed: real, a: real, dt: real, error: real, velocity: real) {
    error >= 0.0 && 0.0 <= velocity <= speed && velocity * velocity <= a * (error + velocity * dt)
  }

  /** A velocity that neither passes an error ahead in one step nor breaks the braking law. */
  ghost predicate Bounded(speed: real, a: real, dt: real, error: real, w: real) {
    0.0 <= w <= speed && 0.0 <= w * dt <= error && w * w <= a * error
  }

  /** The braking root of one joint: what NextVelocity takes from `sqrt`. */
  ghost predicate IsRoot(root: real, energy: real) {
    root >= 0.0 && root * root == energy
  }

  lemma RootExists(sqrt: real -> real, a: real, error: real, energy: real)
    requires IsSqrt(sqrt) && a >= 0.0 && energy == Braking(a, error)
    ensures IsRoot(sqrt(energy), energy)
  {
    ProductOrder(a, 0.0, Abs(error));
  }

  /** Mirroring the error and the velocity mirrors the step. */
  lemma Mirror(speed: real, a: real, dt: real, error: real, root: real, velocity: real, q: real)
    requires dt > 0.0 && speed >= 0.0 && a > 0.0 && root >= 0.0
    ensures var w := VelocityFrom(speed, a, dt, error, root, velocity);
            && VelocityFrom(speed, a, dt, -error, root, -velocity) == -w
            && Advance(-q, -w, dt) == -Advance(q, w, dt)
    ensures Braking(a, -error) == Braking(a, error)
  {
    ProductPositive(a, dt);
    if error == 0.0 {
      assert error / dt == 0.0 && -error / dt == 0.0;
      assert Requested(speed, dt, error, root) == 0.0;
    }
    AdvanceMirror(q, VelocityFrom(speed, a, dt, error, root, velocity), dt);
  }

  lemma AdvanceMirror(q: real, w: real, dt: real)
    ensures Advance(-q, -w, dt) == -Advance(q, w, dt)
  {
  }

  /** The velocity after a full deceleration, times the velocity before it. */
  lemma BrakingProduct(a: real, last: real, dt: real, e: real, v: real)
    requires a > 0.0 && 0.0 <= last <= dt && v >= 0.0
    requires v * v <= a * (e + v * last)
    ensures (v - a * dt) * v <= a * e
  {
    ProductOrder(v, last, dt);
    ProductOrder(a, e + v * last, e + v * dt);
  }

  lemma Cancel(k: real, x: real, y: real)
    requires k > 0.0 && k * x <= k * y
    ensures x <= y
  {
    if x > y {
      ProductPositive(k, x - y);
    }
  }

  lemma DivideBound(x: real, d: real, y: real)
    requires d > 0.0
    ensures x * d <= y <==> x <= y / d
  {
    var z := y / d;
    assert y == z * d;
    if x <= z {
      ProductOrder(d, x, z);
    } else {
      ProductPositive(d, x - z);
    }
  }

  /** With steps that do not shrink, full deceleration is always enough to meet the request. */
  lemma BrakingSuffices(root: real, a: real, last: real, dt: real, e: real, v: real)
    requires a > 0.0 && 0.0 <= last <= dt && dt > 0.0
    requires e >= 0.0 && v >= 0.0 && v * v <= a * (e + v * last)
    requires root >= 0.0 && root * root == a * e
    ensures v - a * dt <= e / dt
    ensures v - a * dt <= root
  {
    BrakingProduct(a, last, dt, e, v);
    if v > a * dt {
      BrakingBounds(root, a, dt, e, v, v - a * dt);
    } else {
      DivideBound(0.0, dt, e);
    }
  }

  lemma BrakingBounds(root: real, a: real, dt: real, e: real, v: real, w: real)
    requires a > 0.0 && dt > 0.0 && e >= 0.0 && w > 0.0 && v == w + a * dt
    requires w * v <= a * e
    requires root >= 0.0 && root * root == a * e
    ensures w <= e / dt
    ensures w <= root
  {
    ProductPositive(a, dt);
    assert w <= root by {
      ProductOrder(w, w, v);
      SquareOrder(w, root);
    }
    assert w <= e / dt by {
      ProductOrder(w, a * dt, v);
      assert w * (a * dt) == a * (w * dt);
      Cancel(a, w * dt, e);
      DivideBound(w, dt, e);
    }
  }

  /** One step toward a goal ahead: the limiter only ever delays acceleration. */
  lemma StepAhead(speed: real, a: real, last: real, dt: real, e: real, v: real, root: real, w: real)
    requires speed > 0.0 && a > 0.0 && 0.0 <= last <= dt && dt > 0.0
    requires PoisedAhead(speed, a, last, e, v) && IsRoot(root, Braking(a, e))
    requires w == VelocityFrom(speed, a, dt, e, root, v)
    ensures w == Min(Min(Min(speed, e / dt), root), v + a * dt)
    ensures Bounded(speed, a, dt, e, w)
  {
    BrakingSuffices(root, a, last, dt, e, v);
    DivideBound(0.0, dt, e);
    ProductPositive(a, dt);
    StepBounds(speed, a * e, a * dt, dt, e, e / dt, root, v, w);
  }

  lemma StepBounds(
    speed: real, energy: real, change: real, dt: real, e: real, quotient: real, root: real, v: real, w: real
  )
    requires dt > 0.0 && change >= 0.0 && quotient == e / dt && quotient >= 0.0
    requires root >= 0.0 && root * root == energy
    requires 0.0 <= v <= speed && v - change <= quotient && v - change <= root
    requires w == Approach(v, Min(Min(speed, quotient), root), change)
    ensures w == Min(Min(Min(speed, quotient), root), v + change)
    ensures 0.0 <= w <= speed && 0.0 <= w * dt <= e && w * w <= energy
  {
    assert 0.0 <= w <= speed && w <= quotient && w <= root;
    DivideBound(w, dt, e);
    SquareOrder(w, root);
    ProductOrder(dt, 0.0, w);
  }

  lemma AheadAfter(speed: real, a: real, dt: real, q: real, goal: real, w: real)
    requires Bounded(speed, a, dt, goal - q, w)
    ensures var p := Advance(q, w, dt);
            q <= p <= goal && PoisedAhead(speed, a, dt, goal - p, w)
  {
    assert goal - Advance(q, w, dt) + w * dt == goal - q;
  }

  /** One joint's step: the new position lies between the old one and the goal. */
  lemma StepJoint(speed: real, a: real, last: real, dt: real, q: real, goal: real, v: real, root: real, w: real)
    requires speed > 0.0 && a > 0.0 && 0.0 <= last <= dt && dt > 0.0
    requires Poised(speed, a, last, goal - q, v) && IsRoot(root, Braking(a, goal - q))
    requires w == VelocityFrom(speed, a, dt, goal - q, root, v)
    ensures Closer(q, Advance(q, w, dt), goal) && Poised(speed, a, dt, goal - Advance(q, w, dt), w)
  {
    assert root >= 0.0;
    hide PoisedAhead, IsRoot, Braking, VelocityFrom, Advance, Bounded;
    if PoisedAhead(speed, a, last, goal - q, v) {
      StepAhead(speed, a, last, dt, goal - q, v, root, w);
      AheadAfter(speed, a, dt, q, goal, w);
    } else {
      Mirror(speed, a, dt, goal - q, root, v, q);
      StepAhead(speed, a, last, dt, -(goal - q), -v, root, -w);
      assert -(goal - q) == -goal - -q;
      AheadAfter(speed, a, dt, -q, -goal, -w);
      assert -goal - Advance(-q, -w, dt) == -(goal - Advance(q, w, dt));
    }
  }

  /** Position and velocity of one joint. */
  datatype Joint = Joint(q: real, v: real)

  function JointNext(sqrt: real -> real, speed: real, a: real, goal: real, s: Joint, dt: real): Joint
    requires dt > 0.0
  {
    var w := NextVelocity(sqrt, speed, a, dt, goal - s.q, s.v);
    Joint(Advance(s.q, w, dt), w)
  }

  function JointRun(sqrt: real -> real, speed: real, a: real, goal: real, s: Joint, dts: seq<real>): Joint
    requires Positive(dts)
    decreases |dts|
  {
    if dts == [] then s
    else JointRun(sqrt, speed, a, goal, JointNext(sqrt, speed, a, goal, s, dts[0]), dts[1..])
  }

  lemma PositiveRates(limits: Limits, gain: real)
    requires limits.Valid() && 0.0 < gain <= 1.0
    ensures 0.0 < Speed(limits, gain) <= 0.9 * limits.speed
    ensures 0.0 < Acceleration(limits, gain) <= 0.9 * limits.acceleration
  {
    ProductPositive(limits.speed * 0.9, gain);
    ProductPositive(limits.acceleration * 0.9, gain);
    ProductOrder(limits.speed * 0.9, gain, 1.0);
    ProductOrder(limits.acceleration * 0.9, gain, 1.0);
  }

  /** Each joint of a run that does not fault moves by itself. */
  lemma {:induction false} RunJoint(
    sqrt: real -> real, limits: Limits, s: Track, goal: Joints, times: seq<int>, gain: real, j: nat
  )
    requires j < 6 && Run(sqrt, limits, s, goal, times, gain).Ok?
    ensures var dts := Steps(s.target.createdNs, times);
            var end := Run(sqrt, limits, s, goal, times, gain).value;
            && Positive(dts)
            && JointRun(sqrt, Speed(limits, gain), Acceleration(limits, gain), goal[j],
                        Joint(s.target.q[j], s.velocity[j]), dts)
               == Joint(end.target.q[j], end.velocity[j])
    decreases |times|
  {
    if times != [] {
      var next := Next(sqrt, limits, s, goal, times[0], gain).value;
      RunJoint(sqrt, limits, next, goal, times[1..], gain, j);
      var dts := Steps(s.target.createdNs, times);
      assert dts[1..] == Steps(times[0], times[1..]);
      assert JointNext(sqrt, Speed(limits, gain), Acceleration(limits, gain), goal[j],
                       Joint(s.target.q[j], s.velocity[j]), dts[0])
          == Joint(next.target.q[j], next.velocity[j]);
    }
  }

  /** A step of the joint run, with the braking root named. */
  lemma NextPoised(sqrt: real -> real, speed: real, a: real, last: real, goal: real, s: Joint, dt: real)
    requires IsSqrt(sqrt) && speed > 0.0 && a > 0.0 && 0.0 <= last <= dt && dt > 0.0
    requires Poised(speed, a, last, goal - s.q, s.v)
    ensures var next := JointNext(sqrt, speed, a, goal, s, dt);
            Closer(s.q, next.q, goal) && Poised(speed, a, dt, goal - next.q, next.v)
  {
    hide Poised, Closer, IsRoot, Braking, VelocityFrom, Advance, IsSqrt;
    var energy := Braking(a, goal - s.q);
    RootExists(sqrt, a, goal - s.q, energy);
    StepJoint(speed, a, last, dt, s.q, goal, s.v, sqrt(energy), NextVelocity(sqrt, speed, a, dt, goal - s.q, s.v));
  }

  lemma {:induction false} JointRunCloser(
    sqrt: real -> real, speed: real, a: real, goal: real, s: Joint, last: real, dts: seq<real>
  )
    requires IsSqrt(sqrt) && speed > 0.0 && a > 0.0 && last >= 0.0
    requires Positive(dts) && Nondecreasing(last, dts) && Poised(speed, a, last, goal - s.q, s.v)
    ensures Closer(s.q, JointRun(sqrt, speed, a, goal, s, dts).q, goal)
    decreases |dts|
  {
    hide Poised, JointNext;
    if dts != [] {
      var next := JointNext(sqrt, speed, a, goal, s, dts[0]);
      NextPoised(sqrt, speed, a, last, goal, s, dts[0]);
      JointRunCloser(sqrt, speed, a, goal, next, dts[0], dts[1..]);
    }
  }

  /** Every later position of one joint lies between an earlier one and the goal. */
  lemma {:induction false} JointNoOvershoot(
    sqrt: real -> real, speed: real, a: real, goal: real, s: Joint, last: real, dts: seq<real>, k: nat
  )
    requires IsSqrt(sqrt) && speed > 0.0 && a > 0.0 && last >= 0.0 && k <= |dts|
    requires Positive(dts) && Nondecreasing(last, dts) && Poised(speed, a, last, goal - s.q, s.v)
    ensures Closer(JointRun(sqrt, speed, a, goal, s, dts[..k]).q, JointRun(sqrt, speed, a, goal, s, dts).q, goal)
    decreases k
  {
    hide Poised, Closer, JointNext;
    if k == 0 {
      JointRunCloser(sqrt, speed, a, goal, s, last, dts);
    } else {
      var next := JointNext(sqrt, speed, a, goal, s, dts[0]);
      NextPoised(sqrt, speed, a, last, goal, s, dts[0]);
      JointNoOvershoot(sqrt, speed, a, goal, next, dts[0], dts[1..], k - 1);
      assert dts[..k][0] == dts[0] && dts[..k][1..] == dts[1..][..k - 1];
    }
  }

  /** A joint at rest is poised for any first step. */
  lemma AtRest(speed: real, a: real, error: real, last: real)
    requires speed > 0.0 && a > 0.0
    ensures Poised(speed, a, last, error, 0.0)
  {
    ProductOrder(a, 0.0, Abs(error));
    assert 0.0 * last == 0.0;
    assert PoisedAhead(speed, a, last, Abs(error), 0.0);
  }

  lemma StepsPrefix(now: int, times: seq<int>, k: nat)
    requires k <= |times|
    ensures Steps(now, times[..k]) == Steps(now, times)[..k]
    decreases |times|
  {
    if k > 0 {
      assert times[..k][0] == times[0] && times[..k][1..] == times[1..][..k - 1];
      StepsPrefix(times[0], times[1..], k - 1);
    }
  }

  /**
   * No overshoot: from rest, under a fixed goal and gain and step times that never shrink, every joint of
   * every later command lies between its earlier position and the goal.
   */
  lemma NoOvershoot(
    sqrt: real -> real, limits: Limits, seed: Target, goal: Joints, times: seq<int>, gain: real, k: nat, j: nat
  )
    requires IsSqrt(sqrt) && limits.Valid() && k <= |times| && j < 6
    requires Nondecreasing(0.0, Steps(seed.createdNs, times))
    requires Run(sqrt, limits, Track(seed, ZERO), goal, times, gain).Ok?
    ensures var earlier := Run(sqrt, limits, Track(seed, ZERO), goal, times[..k], gain);
            var later := Run(sqrt, limits, Track(seed, ZERO), goal, times, gain);
            earlier.Ok? && Closer(earlier.value.target.q[j], later.value.target.q[j], goal[j])
  {
    var start := Track(seed, ZERO);
    RunSplit(sqrt, limits, start, goal, times, gain, k);
    RunJoint(sqrt, limits, start, goal, times[..k], gain, j);
    RunJoint(sqrt, limits, start, goal, times, gain, j);
    StepsPrefix(seed.createdNs, times, k);
    if times != [] {
      var speed, a := Speed(limits, gain), Acceleration(limits, gain);
      PositiveRates(limits, gain);
      AtRest(speed, a, goal[j] - seed.q[j], 0.0);
      JointNoOvershoot(sqrt, speed, a, goal[j], Joint(seed.q[j], 0.0), 0.0, Steps(seed.createdNs, times), k);
    }
  }

  /** A speed within one step's velocity change that fits into the error obeys the braking law. */
  lemma BrakingAllows(x: real, dt: real, e: real, a: real, root: real)
    requires 0.0 <= x <= a * dt && x * dt <= e && a > 0.0
    requires root >= 0.0 && root * root == a * e
    ensures x <= root
  {
    ProductOrder(x, x, a * dt);
    ProductOrder(a, x * dt, e);
    assert x * (a * dt) == a * (x * dt);
    SquareOrder(x, root);
  }

  /** The velocity of one step closes `pace * dt` of the error, or all of it. */
  lemma PaceBound(
    speed: real, change: real, dt: real, e: real, a: real, root: real, quotient: real, v: real, w: real, pace: real,
    stride: real
  )
    requires a > 0.0 && dt > 0.0 && e >= 0.0 && v >= 0.0 && speed > 0.0 && change > 0.0 && change == a * dt
    requires root >= 0.0 && root * root == a * e && quotient >= 0.0 && quotient * dt == e
    requires pace == Min(speed, change) && stride == pace * dt
    requires w == Min(Min(Min(speed, quotient), root), v + change)
    ensures e - w * dt <= Max(0.0, e - stride)
  {
    if quotient <= pace {
      BrakingAllows(quotient, dt, e, a, root);
      assert w == quotient;
    } else {
      ProductOrder(dt, pace, quotient);
      BrakingAllows(pace, dt, e, a, root);
      assert w >= pace;
      ProductOrder(dt, pace, w);
    }
  }

  /** The least distance a joint far from its goal covers in one step: min(speed, a * dt) * dt. */
  function Stride(speed: real, a: real, dt: real): real {
    Min(speed, a * dt) * dt
  }

  lemma StridePositive(speed: real, a: real, dt: real)
    requires speed > 0.0 && a > 0.0 && dt > 0.0
    ensures Stride(speed, a, dt) > 0.0 && a * dt > 0.0
  {
    ProductPositive(a, dt);
    ProductPositive(Min(speed, a * dt), dt);
  }

  /** One joint closes at least a stride of an error ahead, or all of it. */
  lemma AheadProgress(speed: real, a: real, dt: real, q: real, goal: real, v: real, root: real, w: real)
    requires speed > 0.0 && a > 0.0 && dt > 0.0
    requires PoisedAhead(speed, a, dt, goal - q, v) && IsRoot(root, Braking(a, goal - q))
    requires w == Min(Min(Min(speed, (goal - q) / dt), root), v + a * dt)
    ensures goal - Advance(q, w, dt) <= Max(0.0, goal - q - Stride(speed, a, dt))
  {
    hide *;
    AheadFacts(speed, a, dt, goal - q, v, root);
    PaceCloses(speed, a, dt, goal - q, v, root, w);
    AdvanceGap(q, goal, w, dt);
  }

  lemma AheadFacts(speed: real, a: real, dt: real, e: real, v: real, root: real)
    requires PoisedAhead(speed, a, dt, e, v) && IsRoot(root, Braking(a, e))
    ensures e >= 0.0 && v >= 0.0 && root >= 0.0 && root * root == a * e
  {
  }

  lemma AdvanceGap(q: real, goal: real, w: real, dt: real)
    ensures goal - Advance(q, w, dt) == goal - q - w * dt
  {
  }

  lemma PaceCloses(speed: real, a: real, dt: real, e: real, v: real, root: real, w: real)
    requires speed > 0.0 && a > 0.0 && dt > 0.0 && e >= 0.0 && v >= 0.0
    requires root >= 0.0 && root * root == a * e
    requires w == Min(Min(Min(speed, e / dt), root), v + a * dt)
    ensures e - w * dt <= Max(0.0, e - Stride(speed, a, dt))
  {
    hide *;
    Quotient(e, dt);
    ProductPositive(a, dt);
    StrideIs(speed, a, dt);
    PaceBound(speed, a * dt, dt, e, a, root, e / dt, v, w, Min(speed, a * dt), Stride(speed, a, dt));
  }

  lemma Quotient(e: real, dt: real)
    requires dt > 0.0 && e >= 0.0
    ensures (e / dt) * dt == e && e / dt >= 0.0
  {
    DivideBound(0.0, dt, e);
  }

  lemma StrideIs(speed: real, a: real, dt: real)
    ensures Stride(speed, a, dt) == Min(speed, a * dt) * dt
  {
  }

  /** One joint closes at least a stride of its error, or all of it. */
  lemma JointCloses(speed: real, a: real, dt: real, q: real, goal: real, v: real, root: real, w: real)
    requires speed > 0.0 && a > 0.0 && dt > 0.0
    requires Poised(speed, a, dt, goal - q, v) && IsRoot(root, Braking(a, goal - q))
    requires w == VelocityFrom(speed, a, dt, goal - q, root, v)
    ensures Abs(goal - Advance(q, w, dt)) <= Max(0.0, Abs(goal - q) - Stride(speed, a, dt))
  {
    assert root >= 0.0;
    hide PoisedAhead, IsRoot, Braking, VelocityFrom, Advance, Stride, Bounded;
    StepJoint(speed, a, dt, dt, q, goal, v, root, w);
    if PoisedAhead(speed, a, dt, goal - q, v) {
      StepAhead(speed, a, dt, dt, goal - q, v, root, w);
      AheadAfter(speed, a, dt, q, goal, w);
      AheadProgress(speed, a, dt, q, goal, v, root, w);
    } else {
      Mirror(speed, a, dt, goal - q, root, v, q);
      assert -(goal - q) == -goal - -q;
      StepAhead(speed, a, dt, dt, -goal - -q, -v, root, -w);
      AheadAfter(speed, a, dt, -q, -goal, -w);
      AheadProgress(speed, a, dt, -q, -goal, -v, root, -w);
    }
  }

  ghost predicate Equal(dt: real, dts: seq<real>) {
    forall i :: 0 <= i < |dts| ==> dts[i] == dt
  }

  lemma NextCloses(sqrt: real -> real, speed: real, a: real, goal: real, s: Joint, dt: real)
    requires IsSqrt(sqrt) && speed > 0.0 && a > 0.0 && dt > 0.0
    requires Poised(speed, a, dt, goal - s.q, s.v)
    ensures Abs(goal - JointNext(sqrt, speed, a, goal, s, dt).q)
            <= Max(0.0, Abs(goal - s.q) - Stride(speed, a, dt))
  {
    hide Poised, IsRoot, Braking, VelocityFrom, Advance, IsSqrt, Stride;
    var energy := Braking(a, goal - s.q);
    RootExists(sqrt, a, goal - s.q, energy);
    JointCloses(speed, a, dt, s.q, goal, s.v, sqrt(energy), NextVelocity(sqrt, speed, a, dt, goal - s.q, s.v));
  }

  lemma {:induction false} JointRunProgress(
    sqrt: real -> real, speed: real, a: real, goal: real, s: Joint, dt: real, dts: seq<real>, stride: real
  )
    requires IsSqrt(sqrt) && speed > 0.0 && a > 0.0 && dt > 0.0 && stride == Stride(speed, a, dt)
    requires Equal(dt, dts) && Poised(speed, a, dt, goal - s.q, s.v)
    ensures Abs(goal - JointRun(sqrt, speed, a, goal, s, dts).q) <= Remaining(Abs(goal - s.q), stride, |dts|)
    decreases |dts|
  {
    hide Poised, JointNext, Stride, IsSqrt;
    if dts != [] {
      var next := JointNext(sqrt, speed, a, goal, s, dt);
      NextPoised(sqrt, speed, a, dt, goal, s, dt);
      NextCloses(sqrt, speed, a, goal, s, dt);
      JointRunProgress(sqrt, speed, a, goal, next, dt, dts[1..], stride);
      StridePositive(speed, a, dt);
      StrideSum(Abs(goal - s.q), Abs(goal - next.q), stride, |dts| - 1);
    }
  }

  /** What is left of an error after n strides. */
  function Remaining(error: real, stride: real, n: nat): real {
    Max(0.0, error - n as real * stride)
  }

  lemma StrideSum(before: real, after: real, stride: real, n: nat)
    requires before >= 0.0 && stride >= 0.0 && after <= Max(0.0, before - stride)
    ensures Remaining(after, stride, n) <= Remaining(before, stride, n + 1)
  {
    ProductOrder(stride, 0.0, n as real);
    assert (n + 1) as real * stride == n as real * stride + stride;
  }

  /**
   * Finite convergence: from rest and with a constant step time, the goal is reached exactly as soon as the
   * step count times the stride covers the initial error.
   */
  lemma ReachesGoal(
    sqrt: real -> real, limits: Limits, seed: Target, goal: Joints, times: seq<int>, gain: real, dt: real, stride: real
  )
    requires IsSqrt(sqrt) && limits.Valid() && 0.0 < dt && Equal(dt, Steps(seed.createdNs, times))
    requires Run(sqrt, limits, Track(seed, ZERO), goal, times, gain).Ok?
    requires stride == Stride(Speed(limits, gain), Acceleration(limits, gain), dt)
        && |times| as real * stride >= Distance(goal, seed.q)
    ensures Run(sqrt, limits, Track(seed, ZERO), goal, times, gain).value.target.q == goal
  {
    hide *;
    if times == [] {
      AlreadyThere(sqrt, limits, seed, goal, gain);
      return;
    }
    var end := Run(sqrt, limits, Track(seed, ZERO), goal, times, gain).value;
    forall j | 0 <= j < 6
      ensures end.target.q[j] == goal[j]
    {
      DistanceWithin(goal, seed.q, Distance(goal, seed.q));
      JointReaches(sqrt, limits, seed, goal, times, gain, dt, j, stride);
      NothingRemains(goal[j], seed.q[j], end.target.q[j], stride, |times|);
    }
  }

  lemma AlreadyThere(sqrt: real -> real, limits: Limits, seed: Target, goal: Joints, gain: real)
    requires Distance(goal, seed.q) <= 0.0
    ensures Run(sqrt, limits, Track(seed, ZERO), goal, [], gain) == Ok(Track(seed, ZERO)) && seed.q == goal
  {
    DistanceWithin(goal, seed.q, 0.0);
    assert forall j :: 0 <= j < 6 ==> goal[j] == seed.q[j];
  }

  lemma NothingRemains(goal: real, q: real, p: real, stride: real, n: nat)
    requires Abs(goal - q) <= n as real * stride && Abs(goal - p) <= Remaining(Abs(goal - q), stride, n)
    ensures p == goal
  {
  }

  lemma JointReaches(
    sqrt: real -> real, limits: Limits, seed: Target, goal: Joints, times: seq<int>, gain: real, dt: real, j: nat,
    stride: real
  )
    requires IsSqrt(sqrt) && limits.Valid() && 0.0 < dt && Equal(dt, Steps(seed.createdNs, times))
    requires j < 6 && times != [] && stride == Stride(Speed(limits, gain), Acceleration(limits, gain), dt)
    requires Run(sqrt, limits, Track(seed, ZERO), goal, times, gain).Ok?
    ensures Abs(goal[j] - Run(sqrt, limits, Track(seed, ZERO), goal, times, gain).value.target.q[j])
            <= Remaining(Abs(goal[j] - seed.q[j]), stride, |times|)
  {
    var speed, a := Speed(limits, gain), Acceleration(limits, gain);
    RunJoint(sqrt, limits, Track(seed, ZERO), goal, times, gain, j);
    PositiveRates(limits, gain);
    hide *;
    JointFromRest(sqrt, Speed(limits, gain), Acceleration(limits, gain), goal[j], seed.q[j], dt,
                  Steps(seed.createdNs, times), stride);
  }

  lemma JointFromRest(
    sqrt: real -> real, speed: real, a: real, goal: real, q: real, dt: real, dts: seq<real>, stride: real
  )
    requires IsSqrt(sqrt) && speed > 0.0 && a > 0.0 && dt > 0.0 && Equal(dt, dts)
    requires stride == Stride(speed, a, dt)
    ensures Abs(goal - JointRun(sqrt, speed, a, goal, Joint(q, 0.0), dts).q)
            <= Remaining(Abs(goal - q), stride, |dts|)
  {
    AtRest(speed, a, goal - q, dt);
    JointRunProgress(sqrt, speed, a, goal, Joint(q, 0.0), dt, dts, stride);
  }

  // When a run cannot fault.

  ghost predicate AllPoised(limits: Limits, s: Track, goal: Joints, gain: real, last: real) {
    forall j :: 0 <= j < 6 ==>
      Poised(Speed(limits, gain), Acceleration(limits, gain), last, goal[j] - s.target.q[j], s.velocity[j])
  }

  /** How far a joint may move in one step. */
  function Reach(speed: real, dt: real): real {
    speed * dt
  }

  /** One step of one joint: toward the goal, still poised, and no farther than the speed allows. */
  lemma JointMoves(
    sqrt: real -> real, speed: real, a: real, last: real, goal: real, q: real, v: real, dt: real, w: real
  )
    requires IsSqrt(sqrt) && speed > 0.0 && a > 0.0 && 0.0 <= last <= dt && dt > 0.0
    requires Poised(speed, a, last, goal - q, v) && w == NextVelocity(sqrt, speed, a, dt, goal - q, v)
    ensures Closer(q, Advance(q, w, dt), goal) && Poised(speed, a, dt, goal - Advance(q, w, dt), w)
    ensures Abs(Advance(q, w, dt) - q) <= Reach(speed, dt)
  {
    var s := Joint(q, v);
    NextPoised(sqrt, speed, a, last, goal, s, dt);
    assert JointNext(sqrt, speed, a, goal, s, dt) == Joint(Advance(q, w, dt), w);
    hide NextVelocity, Closer, IsSqrt;
    PoisedSpeed(speed, a, dt, goal - Advance(q, w, dt), w);
    AdvanceWithin(q, w, dt, speed);
  }

  lemma PoisedSpeed(speed: real, a: real, dt: real, error: real, v: real)
    requires Poised(speed, a, dt, error, v)
    ensures Abs(v) <= speed
  {
  }

  lemma AdvanceWithin(q: real, w: real, dt: real, speed: real)
    requires dt > 0.0 && Abs(w) <= speed
    ensures Abs(Advance(q, w, dt) - q) <= Reach(speed, dt)
  {
    ProductOrder(dt, w, speed);
    ProductOrder(dt, -speed, w);
  }

  /** A poised step succeeds when its time is fresh and its stride fits the step limit. */
  lemma NextSucceeds(
    sqrt: real -> real, limits: Limits, s: Track, goal: Joints, now: int, gain: real, last: real, dt: real
  )
    requires IsSqrt(sqrt) && limits.Valid() && limits.Admits(goal) && limits.Admits(s.target.q)
    requires 0.0 < gain <= 1.0 && dt == Seconds(now - s.target.createdNs)
    requires 0.0 <= last <= dt && 0.0 < dt <= Seconds(limits.freshnessNs)
        && Reach(Speed(limits, gain), dt) <= limits.step
    requires AllPoised(limits, s, goal, gain, last)
    ensures Next(sqrt, limits, s, goal, now, gain).Ok?
    ensures AllPoised(limits, Next(sqrt, limits, s, goal, now, gain).value, goal, gain, dt)
  {
    hide Next, Velocities, Moved, Speed, Acceleration, Poised, IsSqrt, Distance, Reach, Advance, NextVelocity;
    var w := Velocities(sqrt, limits, s, goal, dt, gain);
    var q := Moved(s.target.q, w, dt);
    PositiveRates(limits, gain);
    NextIs(sqrt, limits, s, goal, now, gain, dt);
    forall j | 0 <= j < 6
      ensures limits.lower[j] <= q[j] <= limits.upper[j] && Abs(q[j] - s.target.q[j]) <= limits.step
      ensures Poised(Speed(limits, gain), Acceleration(limits, gain), dt, goal[j] - q[j], w[j])
    {
      VelocityElement(sqrt, limits, s, goal, dt, gain, j);
      MovedElement(s.target.q, w, dt, j);
      JointMoves(sqrt, Speed(limits, gain), Acceleration(limits, gain), last, goal[j], s.target.q[j], s.velocity[j],
          dt, w[j]);
    }
    DistanceWithin(q, s.target.q, limits.step);
  }

  lemma VelocityElement(sqrt: real -> real, limits: Limits, s: Track, desired: Joints, dt: real, gain: real, j: nat)
    requires dt != 0.0 && j < 6
    ensures Velocities(sqrt, limits, s, desired, dt, gain)[j]
            == NextVelocity(sqrt, Speed(limits, gain), Acceleration(limits, gain), dt, desired[j] - s.target.q[j],
                            s.velocity[j])
  {
    hide NextVelocity, Speed, Acceleration;
  }

  lemma MovedElement(q: Joints, w: Joints, dt: real, j: nat)
    requires j < 6
    ensures Moved(q, w, dt)[j] == Advance(q[j], w[j], dt)
  {
    hide Advance;
  }

  /** What a step issues, given that its pose passes the checks. */
  lemma NextIs(sqrt: real -> real, limits: Limits, s: Track, goal: Joints, now: int, gain: real, dt: real)
    requires limits.Admits(goal) && 0.0 < gain <= 1.0 && dt == Seconds(now - s.target.createdNs)
    requires 0.0 < dt <= Seconds(limits.freshnessNs)
    ensures var w := Velocities(sqrt, limits, s, goal, dt, gain);
            var q := Moved(s.target.q, w, dt);
            limits.Admits(q) && Distance(q, s.target.q) <= limits.step ==>
              Next(sqrt, limits, s, goal, now, gain)
              == Ok(Track(Target(q, s.target.sequence + 1, now, s.target.source), w))
  {
    hide Velocities, Moved, Distance;
  }

  lemma NextAdmitted(sqrt: real -> real, limits: Limits, s: Track, goal: Joints, now: int, gain: real)
    requires Next(sqrt, limits, s, goal, now, gain).Ok?
    ensures var t := Next(sqrt, limits, s, goal, now, gain).value.target; limits.Admits(t.q) && t.createdNs == now
  {
    hide Velocities, Moved, Distance;
  }

  ghost predicate Brief(limits: Limits, gain: real, dts: seq<real>) {
    forall i :: 0 <= i < |dts| ==>
      0.0 < dts[i] <= Seconds(limits.freshnessNs) && Reach(Speed(limits, gain), dts[i]) <= limits.step
  }

  lemma {:induction false} PoisedRunSucceeds(
    sqrt: real -> real, limits: Limits, s: Track, goal: Joints, times: seq<int>, gain: real, last: real
  )
    requires IsSqrt(sqrt) && limits.Valid() && limits.Admits(goal) && limits.Admits(s.target.q) && 0.0 < gain <= 1.0
    requires 0.0 <= last && AllPoised(limits, s, goal, gain, last)
    requires Nondecreasing(last, Steps(s.target.createdNs, times))
        && Brief(limits, gain, Steps(s.target.createdNs, times))
    ensures Run(sqrt, limits, s, goal, times, gain).Ok?
    decreases |times|
  {
    hide Speed, AllPoised, IsSqrt, Next, Reach;
    if times != [] {
      var dts := Steps(s.target.createdNs, times);
      var dt := dts[0];
      NextSucceeds(sqrt, limits, s, goal, times[0], gain, last, dt);
      NextAdmitted(sqrt, limits, s, goal, times[0], gain);
      assert dts[1..] == Steps(times[0], times[1..]);
      PoisedRunSucceeds(sqrt, limits, Next(sqrt, limits, s, goal, times[0], gain).value, goal, times[1..], gain, dt);
    }
  }

  /** From rest, toward an admissible goal, with fresh steps that never shrink and fit the step limit: no fault. */
  lemma NeverFaults(sqrt: real -> real, limits: Limits, seed: Target, goal: Joints, times: seq<int>, gain: real)
    requires IsSqrt(sqrt) && limits.Valid() && limits.Admits(goal) && limits.Admits(seed.q) && 0.0 < gain <= 1.0
    requires Nondecreasing(0.0, Steps(seed.createdNs, times)) && Brief(limits, gain, Steps(seed.createdNs, times))
    ensures Run(sqrt, limits, Track(seed, ZERO), goal, times, gain).Ok?
  {
    PositiveRates(limits, gain);
    forall j | 0 <= j < 6
      ensures Poised(Speed(limits, gain), Acceleration(limits, gain), 0.0, goal[j] - seed.q[j], ZERO[j])
    {
      AtRest(Speed(limits, gain), Acceleration(limits, gain), goal[j] - seed.q[j], 0.0);
    }
    PoisedRunSucceeds(sqrt, limits, Track(seed, ZERO), goal, times, gain, 0.0);
  }

  lemma {:induction false} EqualNeverShrinks(last: real, dt: real, dts: seq<real>)
    requires Equal(dt, dts) && last <= dt
    ensures Nondecreasing(last, dts)
    decreases |dts|
  {
    if dts != [] {
      assert dts[0] == dt;
      EqualNeverShrinks(dt, dt, dts[1..]);
    }
  }

  /**
   * From rest, toward an admissible goal, with a constant step time that is fresh and fits the step limit: the
   * tracker never faults, and stands exactly at the goal once the step count times the stride covers the distance.
   */
  lemma AlwaysReachesGoal(
    sqrt: real -> real, limits: Limits, seed: Target, goal: Joints, times: seq<int>, gain: real, dt: real, stride: real
  )
    requires IsSqrt(sqrt) && limits.Valid() && limits.Admits(goal) && limits.Admits(seed.q) && 0.0 < gain <= 1.0
    requires 0.0 < dt <= Seconds(limits.freshnessNs) && Reach(Speed(limits, gain), dt) <= limits.step
    requires Equal(dt, Steps(seed.createdNs, times))
    requires stride == Stride(Speed(limits, gain), Acceleration(limits, gain), dt)
             && |times| as real * stride >= Distance(goal, seed.q)
    ensures Run(sqrt, limits, Track(seed, ZERO), goal, times, gain).Ok?
    ensures Run(sqrt, limits, Track(seed, ZERO), goal, times, gain).value.target.q == goal
  {
    var dts := Steps(seed.createdNs, times);
    hide Run, Steps, Reach, Speed, Acceleration, Stride, Distance, IsSqrt;
    EqualNeverShrinks(0.0, dt, dts);
    assert forall i :: 0 <= i < |dts| ==> dts[i] == dt;
    hide Equal, Nondecreasing;
    assert Brief(limits, gain, dts);
    NeverFaults(sqrt, limits, seed, goal, times, gain);
    ReachesGoal(sqrt, limits, seed, goal, times, gain, dt, stride);
  }
}

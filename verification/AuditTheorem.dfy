/** Every stream the leader input produces is accepted by the separately written auditor. */
module AuditTheorem {
  import opened Prelude
  import opened Model
  import opened Precision
  import C = Conditioning
  import L = LeaderInput
  import A = LeaderAudit

  // The two gain forms.

  /** Below its first knot the schedule's clamped segments contribute nothing. */
  lemma {:induction false} SharesBelow(knots: seq<Knot>, h: real)
    requires Rising(knots) && |knots| >= 1 && h <= knots[0].height
    ensures A.Shares(knots, h) == 0.0
    decreases |knots|
  {
    if |knots| >= 2 {
      assert knots[0].height < knots[0 + 1].height;
      RisingTail(knots);
      SharesBelow(knots[1..], h);
      ShareBelow(knots[0], knots[1], h);
    }
  }

  lemma ShareBelow(low: Knot, high: Knot, h: real)
    requires low.height < high.height && h <= low.height
    ensures A.Share(low, high, h) == 0.0
  {
    Ratio(h - low.height, high.height - low.height);
  }

  lemma Ratio(part: real, whole: real)
    requires whole > 0.0
    ensures part <= 0.0 <==> part / whole <= 0.0
    ensures part >= whole <==> part / whole >= 1.0
  {
    var x := part / whole;
    Order(x, 0.0, whole);
    Order(1.0, x, whole);
  }

  /** Scaling by a positive number keeps the order. */
  lemma Order(x: real, y: real, k: real)
    requires k > 0.0
    ensures x <= y <==> x * k <= y * k
  {
    if x <= y {
      ProductOrder(k, x, y);
    } else {
      ProductPositive(x - y, k);
      assert (x - y) * k == x * k - y * k;
    }
  }

  lemma ShareAbove(low: Knot, high: Knot, h: real)
    requires low.height < high.height && h >= high.height
    ensures A.Share(low, high, h) == high.gain - low.gain
  {
    Ratio(h - low.height, high.height - low.height);
  }

  lemma ShareInside(low: Knot, high: Knot, h: real)
    requires low.height < high.height && low.height <= h < high.height
    ensures low.gain + A.Share(low, high, h) == Segment(low, high, h)
  {
    Ratio(h - low.height, high.height - low.height);
    if h - low.height > 0.0 {
      var x := (h - low.height) / (high.height - low.height);
      assert x > 0.0;
    }
    Regroup(high.gain - low.gain, h - low.height, high.height - low.height);
  }

  lemma Regroup(rise: real, part: real, whole: real)
    requires whole != 0.0
    ensures rise * (part / whole) == rise * part / whole
  {
  }

  lemma {:induction false} SharesAbove(knots: seq<Knot>, h: real)
    requires Rising(knots) && |knots| >= 1 && h >= knots[0].height
    ensures knots[0].gain + A.Shares(knots, h) == Interpolate(knots, h)
    decreases |knots|
  {
    if |knots| >= 2 {
      assert knots[0].height < knots[0 + 1].height;
      RisingTail(knots);
      if h < knots[1].height {
        ShareInside(knots[0], knots[1], h);
        SharesBelow(knots[1..], h);
      } else {
        ShareAbove(knots[0], knots[1], h);
        SharesAbove(knots[1..], h);
      }
    }
  }

  /** The first-matching-segment form and the sum of clamped segments are the same gain. */
  lemma GainsAgree(settings: Settings, z: real)
    requires settings.Valid()
    ensures A.SummedGain(settings, z) == settings.Gain(z)
  {
    var h := z - settings.referenceZ;
    if h <= settings.knots[0].height {
      SharesBelow(settings.knots, h);
    } else {
      SharesAbove(settings.knots, h);
    }
  }

  // The two contraction forms.

  /** Blending toward the feasible interval by 1 - decay is clipping and decaying the excess. */
  lemma ContractionsAgree(target: real, q: real, stopping: real, lead: real, decay: real)
    requires lead >= 0.0
    ensures Contract(target, q, stopping, lead, -(decay - 1.0)) == A.Clip(target, q, stopping, lead, decay)
  {
    var brake := q + stopping;
    var feasible := Max(Min(q, brake) - lead, Min(Max(q, brake) + lead, target));
    var clipped := Min(q + Max(0.0, stopping) + lead, Max(q + Min(0.0, stopping) - lead, target));
    assert feasible == clipped;
    Blend(target, feasible, decay);
  }

  lemma Blend(target: real, feasible: real, decay: real)
    ensures target + -(decay - 1.0) * (feasible - target) == feasible + decay * (target - feasible)
  {
  }

  lemma LeadsAgree(limits: Limits, settings: Settings, gain: real)
    requires limits.Valid() && settings.Valid() && 0.0 < gain
    ensures Lead(settings, limits, gain) == A.AuditLead(limits, settings, gain) && Lead(settings, limits, gain) >= 0.0
    ensures CorrectionAcceleration(limits, settings) == A.AuditAcceleration(limits, settings)
  {
    ProductPositive(0.9 * limits.speed, gain);
    ProductPositive(CorrectionSpeed(limits, gain), settings.leadSeconds);
    assert CorrectionSpeed(limits, gain) == limits.speed * 0.9 * gain;
  }

  function CommandOf(t: C.Track): A.Command {
    A.Command(t.target.q, t.target.createdNs, t.velocity)
  }

  /** The whole correction: the runtime's and the auditor's vectors are equal. */
  lemma CorrectionsAgree(
    exp: real -> real, limits: Limits, settings: Settings, s: C.Track, candidate: Joints, gain: real, dt: real
  )
    requires limits.Valid() && settings.Valid() && 0.0 < gain
    requires CorrectionAcceleration(limits, settings) != 0.0 && A.AuditAcceleration(limits, settings) != 0.0
    ensures Correct(exp, settings, limits, s, candidate, gain, dt)
            == A.Contracted(exp, limits, settings, candidate, CommandOf(s), dt, gain)
  {
    LeadsAgree(limits, settings, gain);
    var a, lead := CorrectionAcceleration(limits, settings), Lead(settings, limits, gain);
    var decay := exp(-dt / settings.correctionSeconds);
    VectorsAgree(s, candidate, a, lead, decay);
  }

  lemma VectorsAgree(s: C.Track, candidate: Joints, a: real, lead: real, decay: real)
    requires a != 0.0 && lead >= 0.0
    ensures ContractAll(candidate, s, a, lead, -(decay - 1.0)) == A.ClipAll(candidate, CommandOf(s), a, lead, decay)
  {
    hide Contract, A.Clip, StoppingDistance;
    var left, right := ContractAll(candidate, s, a, lead, -(decay - 1.0)),
        A.ClipAll(candidate, CommandOf(s), a, lead, decay);
    forall j | 0 <= j < 6
      ensures left[j] == right[j]
    {
      ContractionsAgree(candidate[j], s.target.q[j], StoppingDistance(s.velocity[j], a), lead, decay);
    }
  }

  // The two velocity-limit forms.

  lemma LimitsAgree(velocity: real, desired: real, change: real)
    requires change >= 0.0
    ensures A.Reachable(velocity, desired, change) == C.Approach(velocity, desired, change)
  {
  }

  lemma JointsAgree(sqrt: real -> real, speed: real, a: real, dt: real, target: real, before: real, velocity: real)
    requires dt > 0.0 && a > 0.0
    ensures A.FollowOne(sqrt, speed, a, dt, target, before, velocity)
            == C.Advance(before, C.NextVelocity(sqrt, speed, a, dt, target - before, velocity), dt)
  {
    hide *;
    ProductPositive(a, dt);
    var error := target - before;
    DesiredAgree(sqrt, speed, a, dt, error);
    LimitsAgree(velocity, A.DesiredVelocity(sqrt, speed, a, dt, error), a * dt);
    VelocityIs(sqrt, speed, a, dt, error, velocity);
    FollowIs(sqrt, speed, a, dt, target, before, velocity);
  }

  lemma DesiredAgree(sqrt: real -> real, speed: real, a: real, dt: real, error: real)
    requires dt != 0.0
    ensures A.DesiredVelocity(sqrt, speed, a, dt, error) == C.Requested(speed, dt, error, sqrt(C.Braking(a, error)))
  {
  }

  lemma FollowIs(sqrt: real -> real, speed: real, a: real, dt: real, target: real, before: real, velocity: real)
    requires dt != 0.0
    ensures A.FollowOne(sqrt, speed, a, dt, target, before, velocity)
            == C.Advance(before,
                A.Reachable(velocity, A.DesiredVelocity(sqrt, speed, a, dt, target - before), a * dt), dt)
  {
  }

  /** The auditor recomputes exactly the command the tracker issued. */
  lemma CommandsAgree(sqrt: real -> real, limits: Limits, s: C.Track, goal: Joints, now: int, gain: real, p: A.Restored)
    requires limits.Valid() && C.Next(sqrt, limits, s, goal, now, gain).Ok?
    requires p.reference == goal && p.gain == gain
    ensures A.FollowAll(sqrt, limits, p, CommandOf(s), Seconds(now - s.target.createdNs))
            == C.Next(sqrt, limits, s, goal, now, gain).value.target.q
  {
    var next := C.Next(sqrt, limits, s, goal, now, gain).value;
    var dt := Seconds(now - s.target.createdNs);
    forall j | 0 <= j < 6
      ensures A.FollowAll(sqrt, limits, p, CommandOf(s), dt)[j] == next.target.q[j]
    {
      CommandJoint(sqrt, limits, s, goal, now, gain, p, j);
    }
  }

  lemma FollowElement(sqrt: real -> real, limits: Limits, p: A.Restored, c: A.Command, dt: real, j: nat)
    requires dt != 0.0 && j < 6
    ensures A.FollowAll(sqrt, limits, p, c, dt)[j]
            == A.FollowOne(sqrt, A.CommandSpeed(limits, p.gain), A.CommandAcceleration(limits, p.gain), dt,
                           p.reference[j], c.q[j], c.velocity[j])
  {
    hide A.FollowOne, A.CommandSpeed, A.CommandAcceleration;
  }

  lemma SpeedsAgree(limits: Limits, gain: real)
    ensures A.CommandSpeed(limits, gain) == C.Speed(limits, gain)
    ensures A.CommandAcceleration(limits, gain) == C.Acceleration(limits, gain)
  {
  }

  lemma CommandJoint(
    sqrt: real -> real, limits: Limits, s: C.Track, goal: Joints, now: int, gain: real, p: A.Restored, j: nat
  )
    requires limits.Valid() && C.Next(sqrt, limits, s, goal, now, gain).Ok? && j < 6
    requires p.reference == goal && p.gain == gain
    ensures A.FollowAll(sqrt, limits, p, CommandOf(s), Seconds(now - s.target.createdNs))[j]
            == C.Next(sqrt, limits, s, goal, now, gain).value.target.q[j]
  {
    var next := C.Next(sqrt, limits, s, goal, now, gain).value;
    var dt := Seconds(now - s.target.createdNs);
    var speed, a := C.Speed(limits, gain), C.Acceleration(limits, gain);
    Rates(limits, gain);
    assert next.target.q[j]
        == C.Advance(s.target.q[j], C.NextVelocity(sqrt, speed, a, dt, goal[j] - s.target.q[j], s.velocity[j]), dt);
    FollowElement(sqrt, limits, p, CommandOf(s), dt, j);
    SpeedsAgree(limits, gain);
    hide *;
    JointsAgree(sqrt, speed, a, dt, goal[j], s.target.q[j], s.velocity[j]);
  }

  // Derivatives of an issued command.

  /** No tracked joint moves faster than nine tenths of the speed limit. */
  ghost predicate Slow(limits: Limits, s: C.Track) {
    forall j :: 0 <= j < 6 ==> Abs(s.velocity[j]) <= 0.9 * limits.speed
  }

  lemma ApproachBounds(velocity: real, request: real, change: real, bound: real)
    requires change >= 0.0 && Abs(velocity) <= bound && Abs(request) <= bound
    ensures Abs(C.Approach(velocity, request, change)) <= bound
    ensures Abs(C.Approach(velocity, request, change) - velocity) <= change
  {
  }

  lemma RequestBounds(speed: real, dt: real, error: real, root: real)
    requires speed >= 0.0 && dt > 0.0 && root >= 0.0
    ensures Abs(C.Requested(speed, dt, error, root)) <= speed
  {
    if error < 0.0 {
      NonnegativeQuotient(-error, dt);
    } else {
      NonnegativeQuotient(error, dt);
    }
  }

  lemma NonnegativeQuotient(x: real, d: real)
    requires x >= 0.0 && d > 0.0
    ensures x / d >= 0.0
  {
    Ratio(-x, d);
    assert -x / d == -(x / d);
  }

  lemma RootNonnegative(sqrt: real -> real, a: real, error: real)
    requires IsSqrt(sqrt) && a >= 0.0
    ensures sqrt(C.Braking(a, error)) >= 0.0
  {
    ProductOrder(a, 0.0, Abs(error));
  }

  lemma VelocityBounds(
    sqrt: real -> real, speed: real, a: real, dt: real, error: real, velocity: real, bound: real, w: real
  )
    requires IsSqrt(sqrt) && 0.0 <= speed <= bound && a > 0.0 && dt > 0.0 && Abs(velocity) <= bound
    requires w == C.NextVelocity(sqrt, speed, a, dt, error, velocity)
    ensures Abs(w) <= bound && Abs(w - velocity) <= a * dt
  {
    hide *;
    RootNonnegative(sqrt, a, error);
    var root := sqrt(C.Braking(a, error));
    RequestBounds(speed, dt, error, root);
    ProductPositive(a, dt);
    BoundsWeaken(C.Requested(speed, dt, error, root), speed, bound);
    ApproachBounds(velocity, C.Requested(speed, dt, error, root), a * dt, bound);
    VelocityIs(sqrt, speed, a, dt, error, velocity);
  }

  lemma BoundsWeaken(x: real, small: real, large: real)
    requires Abs(x) <= small <= large
    ensures Abs(x) <= large
  {
  }

  lemma VelocityIs(sqrt: real -> real, speed: real, a: real, dt: real, error: real, velocity: real)
    requires dt != 0.0
    ensures C.NextVelocity(sqrt, speed, a, dt, error, velocity)
            == C.Approach(velocity, C.Requested(speed, dt, error, sqrt(C.Braking(a, error))), a * dt)
  {
  }

  /** One joint's finite differences recover its velocity and obey the limits. */
  lemma JointDerivatives(
    sqrt: real -> real, speed: real, a: real, dt: real, error: real, velocity: real, bound: real, q: real, w: real
  )
    requires IsSqrt(sqrt) && 0.0 <= speed <= bound && a > 0.0 && dt > 0.0 && Abs(velocity) <= bound
    requires w == C.NextVelocity(sqrt, speed, a, dt, error, velocity)
    ensures A.Velocity(C.Advance(q, w, dt), q, dt) == w
    ensures Abs(w) <= bound && Abs(A.Velocity(w, velocity, dt)) <= a
  {
    VelocityBounds(sqrt, speed, a, dt, error, velocity, bound, w);
    DifferenceQuotient(q, w, dt);
    QuotientBound(w - velocity, dt, a);
  }

  lemma DifferenceQuotient(q: real, w: real, dt: real)
    requires dt != 0.0
    ensures A.Velocity(C.Advance(q, w, dt), q, dt) == w
  {
    assert w * dt / dt == w;
  }

  lemma QuotientBound(x: real, d: real, bound: real)
    requires d > 0.0 && Abs(x) <= bound * d
    ensures Abs(x / d) <= bound
  {
    var z := x / d;
    assert z * d == x;
    if z > bound {
      ProductPositive(z - bound, d);
    } else if -z > bound {
      ProductPositive(-z - bound, d);
    }
  }

  /** Every command the tracker issues has the derivatives its own state claims, within the limits. */
  lemma IssuedDerivatives(sqrt: real -> real, limits: Limits, s: C.Track, goal: Joints, now: int, gain: real)
    requires IsSqrt(sqrt) && limits.Valid() && Slow(limits, s) && C.Next(sqrt, limits, s, goal, now, gain).Ok?
    ensures var next := C.Next(sqrt, limits, s, goal, now, gain).value;
            var dt := Seconds(now - s.target.createdNs);
            && Slow(limits, next)
            && A.VelocityAll(next.target.q, CommandOf(s), dt) == next.velocity
            && Peak(next.velocity) <= limits.speed
            && Peak(A.AccelerationAll(next.velocity, CommandOf(s), dt)) <= limits.acceleration
  {
    var next := C.Next(sqrt, limits, s, goal, now, gain).value;
    var dt := Seconds(now - s.target.createdNs);
    var measured := A.VelocityAll(next.target.q, CommandOf(s), dt);
    var jerk := A.AccelerationAll(next.velocity, CommandOf(s), dt);
    forall j | 0 <= j < 6
      ensures measured[j] == next.velocity[j]
      ensures Abs(next.velocity[j]) <= 0.9 * limits.speed && Abs(jerk[j]) <= limits.acceleration
    {
      JointIssued(sqrt, limits, s, goal, now, gain, j);
    }
    PeakWithin(next.velocity, limits.speed);
    PeakWithin(jerk, limits.acceleration);
  }

  lemma JointIssued(sqrt: real -> real, limits: Limits, s: C.Track, goal: Joints, now: int, gain: real, j: nat)
    requires IsSqrt(sqrt) && limits.Valid() && Slow(limits, s) && C.Next(sqrt, limits, s, goal, now, gain).Ok? && j < 6
    ensures var next := C.Next(sqrt, limits, s, goal, now, gain).value;
            var dt := Seconds(now - s.target.createdNs);
            && A.Velocity(next.target.q[j], s.target.q[j], dt) == next.velocity[j]
            && Abs(next.velocity[j]) <= 0.9 * limits.speed
            && Abs(A.Velocity(next.velocity[j], s.velocity[j], dt)) <= limits.acceleration
  {
    var next := C.Next(sqrt, limits, s, goal, now, gain).value;
    var dt := Seconds(now - s.target.createdNs);
    var speed, a := C.Speed(limits, gain), C.Acceleration(limits, gain);
    Rates(limits, gain);
    assert next.velocity[j] == C.NextVelocity(sqrt, speed, a, dt, goal[j] - s.target.q[j], s.velocity[j]);
    assert next.target.q[j] == C.Advance(s.target.q[j], next.velocity[j], dt);
    hide *;
    JointDerivatives(sqrt, speed, a, dt, goal[j] - s.target.q[j], s.velocity[j], 0.9 * limits.speed, s.target.q[j],
                     next.velocity[j]);
  }

  lemma Rates(limits: Limits, gain: real)
    requires limits.Valid() && 0.0 < gain <= 1.0
    ensures 0.0 < C.Speed(limits, gain) <= 0.9 * limits.speed
    ensures 0.0 < C.Acceleration(limits, gain) <= limits.acceleration
  {
    ProductPositive(limits.speed * 0.9, gain);
    ProductPositive(limits.acceleration * 0.9, gain);
    ProductOrder(limits.speed * 0.9, gain, 1.0);
    ProductOrder(limits.acceleration * 0.9, gain, 1.0);
  }

  // One step, and every run.

  /** What a run keeps about the input besides agreeing with the auditor. */
  ghost predicate Kept(setup: L.Setup, s: L.State) {
    && s.mapping.last == s.reading
    && setup.calibration.WellFormed()
    && setup.calibration.Accepts(s.mapping.baseline.raw) && setup.calibration.Accepts(s.reading.raw)
    && s.reading.endNs <= s.track.target.createdNs
    && Slow(setup.limits, s.track)
    && setup.limits.Admits(s.reference)
    && (setup.profile.None? ==>
          && s.evidence.None?
          && s.desired.q == L.ShiftAll(setup.limits.ready, 1.0,
                                       setup.calibration.Delta(s.reading.raw, s.mapping.baseline.raw))
          && setup.limits.Admits(s.desired.q))
  }

  /** The auditor carries exactly the runtime's baseline, reading, command, velocity and reference. */
  ghost predicate Agrees(setup: L.Setup, a: A.Audit, s: L.State) {
    && a.baseline == s.mapping.baseline && a.previous == s.reading
    && a.command == CommandOf(s.track)
    && (setup.profile.Some? <==> a.precision.Some?)
    && (a.precision.Some? ==>
          && a.precision.value.reference == s.reference
          && a.precision.value.feedback == if s.evidence.Some? then Some(s.evidence.value.feedback) else None)
  }

  /** The intent and the command the recorder stores for one advanced sample. */
  function Recorded(s: L.State): A.Intent {
    A.Intent(s.track.target.createdNs, s.reading, s.desired.q, s.evidence)
  }

  /** One feedback source: known clock, neither clock moves back, equal times mean the same packet. */
  ghost predicate Follows(previous: Option<View>, view: View) {
    && view.clock in A.CLOCKS && view.timestamp >= 0.0
    && (previous.Some? ==>
          && view.clock == previous.value.clock
          && view.timestamp >= previous.value.timestamp && view.receivedNs >= previous.value.receivedNs
          && (view.timestamp == previous.value.timestamp ==> view == previous.value))
  }

  function LastView(s: L.State): Option<View> {
    if s.evidence.Some? then Some(s.evidence.value.feedback) else None
  }

  lemma SameDistance(q: Joints)
    ensures Distance(q, q) == 0.0
  {
    DistanceWithin(q, q, 0.0);
    DistanceNonnegative(q, q);
  }

  lemma DistanceNonnegative(a: seq<real>, b: seq<real>)
    requires |a| == |b|
    ensures Distance(a, b) >= 0.0
  {
  }

  /** What an issued command satisfies by the tracker's own checks. */
  lemma NextFacts(sqrt: real -> real, limits: Limits, s: C.Track, goal: Joints, now: int, gain: real)
    requires C.Next(sqrt, limits, s, goal, now, gain).Ok?
    ensures var next := C.Next(sqrt, limits, s, goal, now, gain).value;
            && next.target.createdNs == now && now > s.target.createdNs
            && 0.0 < Seconds(now - s.target.createdNs) <= Seconds(limits.freshnessNs)
            && limits.Admits(goal) && limits.Admits(next.target.q) && 0.0 < gain <= 1.0
            && Distance(next.target.q, s.target.q) <= limits.step
  {
    hide C.Velocities, C.Moved, Distance;
  }

  /** The auditor accepts the command issued toward the reference it restored. */
  lemma SentAccepted(setup: L.Setup, a: A.Audit, s: C.Track, goal: Joints, now: int, gain: real)
    requires setup.Valid() && IsSqrt(setup.sqrt) && Slow(setup.limits, s)
    requires C.Next(setup.sqrt, setup.limits, s, goal, now, gain).Ok?
    requires a.command == CommandOf(s) && a.intentNs == Some(now)
    requires a.precision.Some? ==> a.precision.value.reference == goal && a.precision.value.gain == gain
    ensures var next := C.Next(setup.sqrt, setup.limits, s, goal, now, gain).value;
            A.CheckSent(setup, a, next.target.q) == Ok(a.(command := CommandOf(next))) && Slow(setup.limits, next)
  {
    hide C.Next, A.FollowAll, A.VelocityAll, A.AccelerationAll, Distance, Peak, Slow, IsSqrt;
    var next := C.Next(setup.sqrt, setup.limits, s, goal, now, gain).value;
    NextFacts(setup.sqrt, setup.limits, s, goal, now, gain);
    IssuedDerivatives(setup.sqrt, setup.limits, s, goal, now, gain);
    if a.precision.Some? {
      CommandsAgree(setup.sqrt, setup.limits, s, goal, now, gain, a.precision.value);
      SameDistance(next.target.q);
    }
  }

  lemma NoShift(setup: L.Setup, reference: Joints, gain: real, raw: seq<int>)
    requires setup.calibration.WellFormed() && |raw| == 7
    ensures L.ShiftAll(reference, gain, setup.calibration.Delta(raw, raw)) == reference
  {
    var delta := setup.calibration.Delta(raw, raw);
    forall j | 0 <= j < 6
      ensures L.ShiftAll(reference, gain, delta)[j] == reference[j]
    {
      assert delta[j] == 0.0;
    }
  }

  /** An acquisition the input accepts passes the auditor, and its intent is the auditor's expectation. */
  lemma AcquisitionAccepted(setup: L.Setup, s: L.State, reading: L.Sample, now: int, gain: real)
    requires setup.Valid() && setup.freshnessNs <= MAXIMUM_AGE_NS && Kept(setup, s)
    requires now > s.track.target.createdNs && L.Acquire(setup, s, reading, now, gain).Ok?
    ensures var acquired := L.Acquire(setup, s, reading, now, gain).value;
            && A.CheckAcquisition(setup, s.reading, reading, now) == None
            && acquired.reading == reading && acquired.mapping == s.mapping.(last := reading)
            && acquired.track == s.track && acquired.reference == s.reference && acquired.evidence == s.evidence
            && setup.calibration.Accepts(reading.raw) && reading.endNs <= now
            && setup.limits.Admits(acquired.desired.q)
    ensures setup.profile.Some? ==>
              L.Acquire(setup, s, reading, now, gain).value.desired.q
              == L.ShiftAll(s.reference, gain, setup.calibration.Delta(reading.raw, s.reading.raw))
    ensures setup.profile.None? && gain == 1.0 ==>
              L.Acquire(setup, s, reading, now, gain).value.desired.q
              == L.ShiftAll(setup.limits.ready, 1.0, setup.calibration.Delta(reading.raw, s.mapping.baseline.raw))
  {
    hide L.ShiftAll;
    if reading == s.reading {
      NoShift(setup, s.reference, gain, reading.raw);
    }
  }

  /** Without a precision profile: the recorded pair is accepted and the states stay equal. */
  lemma RelativeStep(
    setup: L.Setup, a: A.Audit, s: L.State, readings: seq<L.Sample>, feedback: Option<Feedback>, now: int
  )
    requires setup.Valid() && IsSqrt(setup.sqrt) && setup.freshnessNs <= MAXIMUM_AGE_NS && setup.profile.None?
    requires Kept(setup, s) && Agrees(setup, a, s)
    requires L.Advance(setup, s, readings, feedback, now).Ok?
    ensures var next := L.Advance(setup, s, readings, feedback, now).value;
            && A.CheckIntent(setup, a, Recorded(next)).Ok?
            && var intended := A.CheckIntent(setup, a, Recorded(next)).value;
            && A.CheckSent(setup, intended, next.track.target.q).Ok?
            && Agrees(setup, A.CheckSent(setup, intended, next.track.target.q).value, next)
            && Kept(setup, next)
  {
    hide L.Acquire, C.Next, Distance, A.CheckSent, L.ShiftAll, Slow, IsSqrt, A.CheckAcquisition;
    var reading := readings[|readings| - 1];
    var acquired := L.Acquire(setup, s, reading, now, 1.0).value;
    var next := L.Advance(setup, s, readings, feedback, now).value;
    NextFrame(setup, s, reading, now, 1.0);
    AcquisitionAccepted(setup, s, reading, now, 1.0);
    NextFacts(setup.sqrt, setup.limits, s.track, acquired.desired.q, now, 1.0);
    SameDistance(next.desired.q);
    var intended := A.CheckIntent(setup, a, Recorded(next)).value;
    SentAccepted(setup, intended, s.track, acquired.desired.q, now, 1.0);
  }

  /** Acquiring changes neither the tracker nor the reference; conditioning requires time to advance. */
  lemma NextFrame(setup: L.Setup, s: L.State, reading: L.Sample, now: int, gain: real)
    requires setup.calibration.WellFormed() && L.Acquire(setup, s, reading, now, gain).Ok?
    ensures var acquired := L.Acquire(setup, s, reading, now, gain).value;
            && acquired.track == s.track
            && (C.Next(setup.sqrt, setup.limits, s.track, acquired.desired.q, now, gain).Ok?
                ==> now > s.track.target.createdNs)
  {
    hide L.Mapped, C.Velocities, C.Moved, Distance;
  }

  /** The precision part of one intent is restored exactly. */
  lemma IntentRestored(
    setup: L.Setup, profile: Profile, p: A.Restored, intent: A.Intent, delta: Joints, s: C.Track, f: Feedback
  )
    requires setup.Valid() && profile.settings.Valid()
    requires intent.evidence.Some? && intent.evidence.value.accepted.Some?
    requires Follows(p.feedback, ViewOf(f)) && setup.limits.Admits(f.q)
    requires 0 <= intent.sourceNs - f.receivedNs <= MinInt(setup.limits.freshnessNs, MAXIMUM_AGE_NS)
    requires var z := profile.height(f.q);
             var gain := profile.settings.Gain(z);
             intent.evidence.value == Evidence(ViewOf(f), z, gain, intent.evidence.value.accepted)
    requires var gain := profile.settings.Gain(profile.height(f.q));
             var dt := Seconds(intent.sourceNs - s.target.createdNs);
             && intent.q == L.ShiftAll(p.reference, gain, delta) && setup.limits.Admits(intent.q)
             && 0.0 < dt <= Seconds(setup.limits.freshnessNs)
             && setup.limits.Admits(intent.evidence.value.accepted.value)
             && CorrectionAcceleration(setup.limits, profile.settings) != 0.0
             && intent.evidence.value.accepted.value
                == Correct(setup.exp, profile.settings, setup.limits, s, intent.q, gain, dt)
    ensures A.RestoreIntent(setup, profile, p, intent, delta, CommandOf(s))
            == Ok((intent.q,
                A.Restored(intent.evidence.value.accepted.value, Some(ViewOf(f)), intent.evidence.value.gain)))
  {
    hide Correct, A.Contracted, L.ShiftAll, Distance, A.SummedGain, Settings.Gain;
    var gain := profile.settings.Gain(profile.height(f.q));
    var dt := Seconds(intent.sourceNs - s.target.createdNs);
    GainWithin(profile.settings, profile.height(f.q));
    GainsAgree(profile.settings, profile.height(f.q));
    A.AuditAccelerationPositive(setup.limits, profile.settings);
    CorrectionsAgree(setup.exp, setup.limits, profile.settings, s, intent.q, gain, dt);
    SameDistance(intent.q);
    SameDistance(intent.evidence.value.accepted.value);
  }

  /** With a precision profile: the recorded pair is accepted and the states stay equal. */
  lemma PrecisionStep(
    setup: L.Setup, a: A.Audit, s: L.State, readings: seq<L.Sample>, feedback: Option<Feedback>, now: int
  )
    requires setup.Valid() && IsSqrt(setup.sqrt) && setup.freshnessNs <= MAXIMUM_AGE_NS && setup.profile.Some?
    requires Kept(setup, s) && Agrees(setup, a, s)
    requires L.Advance(setup, s, readings, feedback, now).Ok? && Follows(LastView(s), ViewOf(feedback.value))
    ensures var next := L.Advance(setup, s, readings, feedback, now).value;
            && A.CheckIntent(setup, a, Recorded(next)).Ok?
            && var intended := A.CheckIntent(setup, a, Recorded(next)).value;
            && A.CheckSent(setup, intended, next.track.target.q).Ok?
            && Agrees(setup, A.CheckSent(setup, intended, next.track.target.q).value, next)
            && Kept(setup, next)
  {
    hide L.Acquire, C.Next, Correct, Distance, A.CheckSent, L.ShiftAll, Slow, IsSqrt, A.CheckAcquisition,
         A.RestoreIntent, Settings.Gain, Follows;
    var profile := setup.profile.value;
    var reading := readings[|readings| - 1];
    var f := feedback.value;
    var z := profile.height(f.q);
    var gain := profile.settings.Gain(z);
    var acquired := L.Acquire(setup, s, reading, now, gain).value;
    var next := L.Advance(setup, s, readings, feedback, now).value;
    L.LowestAccelerationPositive(setup.limits, profile.settings);
    NextFrame(setup, s, reading, now, gain);
    SecondsMonotone(0, now - s.track.target.createdNs);
    AcquisitionAccepted(setup, s, reading, now, gain);
    NextFacts(setup.sqrt, setup.limits, s.track, next.reference, now, gain);
    var delta := setup.calibration.Delta(reading.raw, s.reading.raw);
    IntentRestored(setup, profile, a.precision.value, Recorded(next), delta, s.track, f);
    SameDistance(next.desired.q);
    var intended := A.CheckIntent(setup, a, Recorded(next)).value;
    SentAccepted(setup, intended, s.track, next.reference, now, gain);
  }

  /** A tick that the runtime accepted is refused by the auditor when its feedback does not continue its source. */
  lemma PrecisionRefused(setup: L.Setup, a: A.Audit, s: L.State, t: Tick)
    requires setup.Valid() && setup.profile.Some? && Kept(setup, s) && Agrees(setup, a, s)
    requires L.Advance(setup, s, t.readings, t.feedback, t.now).Ok?
    ensures t.feedback.Some?
    ensures !Follows(LastView(s), ViewOf(t.feedback.value)) ==>
              A.CheckIntent(setup, a, Recorded(L.Advance(setup, s, t.readings, t.feedback, t.now).value)).Err?
  {
    hide L.Acquire, C.Next, Correct, Distance, L.ShiftAll, Slow, A.CheckAcquisition, Settings.Gain;
    var profile := setup.profile.value;
    var gain := profile.settings.Gain(profile.height(t.feedback.value.q));
    var acquired := L.Acquire(setup, s, t.readings[|t.readings| - 1], t.now, gain).value;
    var next := L.Advance(setup, s, t.readings, t.feedback, t.now).value;
    L.LowestAccelerationPositive(setup.limits, profile.settings);
  }

  // Whole runs.

  /** What the environment supplies to one sample. */
  datatype Tick = Tick(readings: seq<L.Sample>, feedback: Option<Feedback>, now: int)

  /** Samples after the first, until one is refused. */
  function Run(setup: L.Setup, s: L.State, ticks: seq<Tick>): Result<L.State, ControlError>
    requires setup.Valid()
    decreases |ticks|
  {
    if ticks == [] then Ok(s)
    else match L.Advance(setup, s, ticks[0].readings, ticks[0].feedback, ticks[0].now)
      case Err(e) => Err(e)
      case Ok(next) => Run(setup, next, ticks[1..])
  }

  /** The auditor's verdict over the stream recorded by the same run: one intent, then one command, per tick. */
  function Replay(setup: L.Setup, a: A.Audit, s: L.State, ticks: seq<Tick>): Result<A.Audit, A.AuditError>
    requires setup.Valid() && Run(setup, s, ticks).Ok?
    requires (a.precision.Some? ==> setup.profile.Some?) && |a.baseline.raw| == 7 && |a.previous.raw| == 7
    decreases |ticks|
  {
    if ticks == [] then Ok(a)
    else
      var next := L.Advance(setup, s, ticks[0].readings, ticks[0].feedback, ticks[0].now).value;
      match A.CheckIntent(setup, a, Recorded(next))
      case Err(e) => Err(e)
      case Ok(intended) =>
        match A.CheckSent(setup, intended, next.track.target.q)
        case Err(e) => Err(e)
        case Ok(after) => Replay(setup, after, next, ticks[1..])
  }

  /** Every tick's feedback continues one source. */
  ghost predicate OneSource(previous: Option<View>, ticks: seq<Tick>)
    decreases |ticks|
  {
    ticks == [] ||
    (ticks[0].feedback.Some? && Follows(previous, ViewOf(ticks[0].feedback.value))
     && OneSource(Some(ViewOf(ticks[0].feedback.value)), ticks[1..]))
  }

  lemma {:induction false} ReplayAgrees(setup: L.Setup, a: A.Audit, s: L.State, ticks: seq<Tick>)
    requires setup.Valid() && IsSqrt(setup.sqrt) && setup.freshnessNs <= MAXIMUM_AGE_NS
    requires Kept(setup, s) && Agrees(setup, a, s)
    requires Run(setup, s, ticks).Ok?
    ensures Replay(setup, a, s, ticks).Ok? <==> (setup.profile.Some? ==> OneSource(LastView(s), ticks))
    ensures Replay(setup, a, s, ticks).Ok? ==>
              Agrees(setup, Replay(setup, a, s, ticks).value, Run(setup, s, ticks).value)
    decreases |ticks|
  {
    hide L.Advance, A.CheckIntent, A.CheckSent, IsSqrt, Follows;
    if ticks != [] {
      var t := ticks[0];
      if setup.profile.Some? {
        PrecisionRefused(setup, a, s, t);
        if !Follows(LastView(s), ViewOf(t.feedback.value)) {
          return;
        }
        PrecisionStep(setup, a, s, t.readings, t.feedback, t.now);
        ViewKept(setup, s, t);
      } else {
        RelativeStep(setup, a, s, t.readings, t.feedback, t.now);
      }
      var next := L.Advance(setup, s, t.readings, t.feedback, t.now).value;
      var intended := A.CheckIntent(setup, a, Recorded(next)).value;
      ReplayAgrees(setup, A.CheckSent(setup, intended, next.track.target.q).value, next, ticks[1..]);
    }
  }

  lemma ViewKept(setup: L.Setup, s: L.State, t: Tick)
    requires setup.Valid() && setup.profile.Some? && L.Advance(setup, s, t.readings, t.feedback, t.now).Ok?
    ensures t.feedback.Some?
    ensures LastView(L.Advance(setup, s, t.readings, t.feedback, t.now).value) == Some(ViewOf(t.feedback.value))
  {
    hide L.Acquire, C.Next, Correct, Settings.Gain;
  }

  /**
   * The runtime refines the auditor: for every engagement and every run of samples that the input does not
   * refuse, the recorded stream of intents and commands is accepted record by record, and the auditor ends with
   * the runtime's own reading, reference, command and velocity. With a precision profile this holds exactly when
   * the feedback continues one source, equal controller times meaning equal packets.
   */
  lemma RuntimeRefinesAuditor(
    setup: L.Setup, samples: seq<L.Sample>, follower: Feedback, start: int, ticks: seq<Tick>
  )
    requires setup.Valid() && IsSqrt(setup.sqrt) && setup.freshnessNs <= MAXIMUM_AGE_NS
    requires L.Engage(setup, samples, follower, start).Ok?
    requires Run(setup, L.Opened(setup, samples, L.Engage(setup, samples, follower, start).value, start), ticks).Ok?
    ensures var began := L.Opened(setup, samples, L.Engage(setup, samples, follower, start).value, start);
            var audit := A.Open(setup, began.mapping.baseline, start);
            && audit.Ok?
            && (Replay(setup, audit.value, began, ticks).Ok? <==> (setup.profile.Some? ==> OneSource(None, ticks)))
            && (Replay(setup, audit.value, began, ticks).Ok? ==>
                  Agrees(setup, Replay(setup, audit.value, began, ticks).value, Run(setup, began, ticks).value))
  {
    var began := L.Opened(setup, samples, L.Engage(setup, samples, follower, start).value, start);
    NoShift(setup, setup.limits.ready, 1.0, began.reading.raw);
    assert Kept(setup, began) by {
      hide L.ShiftAll;
    }
    ReplayAgrees(setup, A.Open(setup, began.mapping.baseline, start).value, began, ticks);
  }
}

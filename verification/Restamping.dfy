/** A stream that the runtime produces and its auditor refuses: one controller packet, read twice and stamped anew. */
module Restamping {
  import opened Prelude
  import opened Model
  import opened Precision
  import C = Conditioning
  import P = ConditioningProofs
  import L = LeaderInput
  import A = LeaderAudit
  import opened AuditTheorem

  // A tracker at rest at HOME stays there.

  ghost predicate AtRest(setup: L.Setup, s: L.State) {
    && s.track.target.q == setup.limits.ready && s.track.velocity == ZERO && s.reference == setup.limits.ready
  }

  lemma RestingVelocity(sqrt: real -> real, speed: real, a: real, dt: real)
    requires IsSqrt(sqrt) && speed > 0.0 && a > 0.0 && dt > 0.0
    ensures C.NextVelocity(sqrt, speed, a, dt, 0.0, 0.0) == 0.0
  {
    assert C.Braking(a, 0.0) == 0.0;
    assert sqrt(0.0) >= 0.0;
    hide IsSqrt;
    ProductPositive(a, dt);
    RestingRequest(speed, dt, sqrt(0.0));
  }

  lemma RestingRequest(speed: real, dt: real, root: real)
    requires speed > 0.0 && dt > 0.0 && root >= 0.0
    ensures C.Requested(speed, dt, 0.0, root) == 0.0
  {
    assert 0.0 / dt == 0.0;
  }

  lemma RestingVelocities(sqrt: real -> real, limits: Limits, s: C.Track, dt: real, gain: real)
    requires IsSqrt(sqrt) && limits.Valid() && 0.0 < gain <= 1.0 && dt > 0.0
    requires s.target.q == limits.ready && s.velocity == ZERO
    ensures C.Velocities(sqrt, limits, s, limits.ready, dt, gain) == ZERO
    ensures C.Moved(s.target.q, ZERO, dt) == limits.ready
  {
    P.PositiveRates(limits, gain);
    RestingVelocity(sqrt, C.Speed(limits, gain), C.Acceleration(limits, gain), dt);
    hide C.NextVelocity, C.Speed, C.Acceleration, IsSqrt;
    assert 0.0 * dt == 0.0;
  }

  lemma RestingNext(sqrt: real -> real, limits: Limits, s: C.Track, now: int, gain: real)
    requires IsSqrt(sqrt) && limits.Valid() && 0.0 < gain <= 1.0
    requires s.target.q == limits.ready && s.velocity == ZERO
    requires 0 < now - s.target.createdNs <= limits.freshnessNs
    ensures C.Next(sqrt, limits, s, limits.ready, now, gain)
            == Ok(C.Track(Target(limits.ready, s.target.sequence + 1, now, s.target.source), ZERO))
  {
    var dt := Seconds(now - s.target.createdNs);
    SecondsMonotone(now - s.target.createdNs, limits.freshnessNs);
    SecondsMonotone(0, now - s.target.createdNs);
    RestingVelocities(sqrt, limits, s, dt, gain);
    SameDistance(limits.ready);
    hide C.Velocities, C.Moved, Distance, IsSqrt, Seconds;
  }

  /** Nothing to contract at rest, whatever the decay and the lead. */
  lemma RestingContract(q: real, a: real, lead: real, beta: real)
    requires a != 0.0 && lead >= 0.0
    ensures Contract(q, q, StoppingDistance(0.0, a), lead, beta) == q
  {
    assert StoppingDistance(0.0, a) == 0.0;
    assert Max(q - lead, Min(q + lead, q)) == q;
    assert beta * 0.0 == 0.0;
  }

  lemma LeadNonnegative(settings: Settings, limits: Limits, gain: real)
    requires settings.Valid() && limits.Valid() && 0.0 < gain <= 1.0
    ensures Lead(settings, limits, gain) >= 0.0
  {
    ProductPositive(0.9 * limits.speed, gain);
    ProductPositive(CorrectionSpeed(limits, gain), settings.leadSeconds);
  }

  lemma RestingCorrect(exp: real -> real, settings: Settings, limits: Limits, s: C.Track, gain: real, dt: real)
    requires settings.Valid() && limits.Valid() && 0.0 < gain <= 1.0
    requires CorrectionAcceleration(limits, settings) > 0.0
    requires s.target.q == limits.ready && s.velocity == ZERO
    ensures Correct(exp, settings, limits, s, limits.ready, gain, dt) == limits.ready
  {
    var a, lead := CorrectionAcceleration(limits, settings), Lead(settings, limits, gain);
    var beta := -Expm1(exp, -dt / settings.correctionSeconds);
    LeadNonnegative(settings, limits, gain);
    hide CorrectionAcceleration, Lead, Expm1, StoppingDistance, Contract;
    forall j | 0 <= j < 6
      ensures Contract(limits.ready[j], s.target.q[j], StoppingDistance(s.velocity[j], a), lead, beta)
          == limits.ready[j]
    {
      RestingContract(limits.ready[j], a, lead, beta);
    }
  }

  /** One sample with the reading repeated: no refusal, no motion, and the packet becomes the evidence. */
  lemma RestingTick(setup: L.Setup, s: L.State, reading: L.Sample, f: Feedback, now: int)
    requires setup.Valid() && IsSqrt(setup.sqrt) && setup.profile.Some?
    requires AtRest(setup, s) && reading == s.reading && setup.limits.Admits(f.q)
    requires 0 <= now - f.receivedNs <= MinInt(setup.AgeNs(), MAXIMUM_AGE_NS)
    requires 0 < now - s.track.target.createdNs <= setup.limits.freshnessNs && now - reading.startNs <= setup.AgeNs()
    ensures var r := L.Advance(setup, s, [reading], Some(f), now);
            && r.Ok? && AtRest(setup, r.value) && r.value.reading == reading
            && r.value.track.target.createdNs == now && LastView(r.value) == Some(ViewOf(f))
  {
    var profile := setup.profile.value;
    var gain := profile.settings.Gain(profile.height(f.q));
    GainWithin(profile.settings, profile.height(f.q));
    L.LowestAccelerationPositive(setup.limits, profile.settings);
    var dt := Seconds(now - s.track.target.createdNs);
    SecondsMonotone(now - s.track.target.createdNs, setup.limits.freshnessNs);
    SecondsMonotone(0, now - s.track.target.createdNs);
    RestingCorrect(setup.exp, profile.settings, setup.limits, s.track, gain, dt);
    RestingNext(setup.sqrt, setup.limits, s.track, now, gain);
    hide Correct, C.Next, Settings.Gain, CorrectionAcceleration, Seconds, IsSqrt, L.Mapped;
  }

  // Two samples on one packet.

  /** The controller packet a read returns, as stamped by that read. */
  function Stamped(f: Feedback, receivedNs: int): Feedback {
    f.(receivedNs := receivedNs)
  }

  /** The last engagement sample twice, at two times, each with a read of the same controller packet. */
  function TwoReads(reading: L.Sample, f: Feedback, first: int, second: int, read: int, reread: int): seq<Tick> {
    [Tick([reading], Some(Stamped(f, read)), first), Tick([reading], Some(Stamped(f, reread)), second)]
  }

  /** Two samples after engagement, and two reads of the packet, each recent enough for its sample. */
  predicate Timely(setup: L.Setup, reading: L.Sample, start: int, first: int, second: int, read: int, reread: int) {
    && start < first < second && second - reading.startNs <= setup.AgeNs()
    && 0 <= first - read <= MinInt(setup.AgeNs(), MAXIMUM_AGE_NS)
    && 0 <= second - reread <= MinInt(setup.AgeNs(), MAXIMUM_AGE_NS)
  }

  lemma RunTwo(setup: L.Setup, s: L.State, t: L.State, u: L.State, one: Tick, two: Tick)
    requires setup.Valid()
    requires L.Advance(setup, s, one.readings, one.feedback, one.now) == Ok(t)
    requires L.Advance(setup, t, two.readings, two.feedback, two.now) == Ok(u)
    ensures Run(setup, s, [one, two]) == Ok(u)
  {
    hide L.Advance;
    var ticks, rest := [one, two], [two];
    assert ticks[1..] == rest && rest[1..] == [];
    assert Run(setup, t, rest) == Ok(u);
  }

  lemma SourceOfTwo(f: Feedback, one: Tick, two: Tick, read: int, reread: int)
    requires one.feedback == Some(Stamped(f, read)) && two.feedback == Some(Stamped(f, reread))
    ensures OneSource(None, [one, two]) <==> f.clock in A.CLOCKS && f.timestamp >= 0.0 && read == reread
  {
    var ticks, rest := [one, two], [two];
    assert ticks[1..] == rest && rest[1..] == [];
    var view := Some(ViewOf(Stamped(f, read)));
    assert OneSource(view, rest) <==> Follows(view, ViewOf(Stamped(f, reread)));
    assert OneSource(None, ticks) <==> Follows(None, ViewOf(Stamped(f, read))) && OneSource(view, rest);
  }

  lemma EngagedFacts(setup: L.Setup, samples: seq<L.Sample>, follower: Feedback, start: int)
    requires setup.Valid() && L.Engage(setup, samples, follower, start).Ok?
    ensures |samples| >= 3 && samples[|samples| - 1].startNs <= start && setup.limits.Admits(follower.q)
    ensures var began := L.Opened(setup, samples, L.Engage(setup, samples, follower, start).value, start);
            && AtRest(setup, began) && began.reading == samples[|samples| - 1] && began.track.target.createdNs == start
  {
    assert L.Usable(setup, samples, start, |samples|);
    hide L.Advances, L.Steady, L.Resting;
    assert L.Fresh(samples[|samples| - 1], start, setup.AgeNs());
  }

  /** The runtime advances over both reads of the packet, whatever their receipts. */
  lemma BothReadsAdvance(
    setup: L.Setup, samples: seq<L.Sample>, follower: Feedback, start: int, first: int, second: int, read: int,
    reread: int
  )
    requires setup.Valid() && IsSqrt(setup.sqrt) && setup.profile.Some?
    requires L.Engage(setup, samples, follower, start).Ok? && samples != []
    requires Timely(setup, samples[|samples| - 1], start, first, second, read, reread)
    ensures var began := L.Opened(setup, samples, L.Engage(setup, samples, follower, start).value, start);
            Run(setup, began, TwoReads(samples[|samples| - 1], follower, first, second, read, reread)).Ok?
  {
    EngagedFacts(setup, samples, follower, start);
    hide L.Engage, L.Advance, L.Opened, AtRest, IsSqrt;
    var reading := samples[|samples| - 1];
    var began := L.Opened(setup, samples, L.Engage(setup, samples, follower, start).value, start);
    RestingTick(setup, began, reading, Stamped(follower, read), first);
    var one := L.Advance(setup, began, [reading], Some(Stamped(follower, read)), first).value;
    RestingTick(setup, one, reading, Stamped(follower, reread), second);
    var two := L.Advance(setup, one, [reading], Some(Stamped(follower, reread)), second).value;
    var ticks := TwoReads(reading, follower, first, second, read, reread);
    RunTwo(setup, began, one, two, ticks[0], ticks[1]);
  }

  /**
   * From any engagement with a precision profile, two samples that each read the same controller packet: the runtime
   * accepts both, and the auditor accepts what was recorded if and only if the packet is from a known clock, its time
   * is not negative, and the second read did not stamp it anew.
   */
  lemma RestampedExactly(
    setup: L.Setup, samples: seq<L.Sample>, follower: Feedback, start: int, first: int, second: int, read: int,
    reread: int
  )
    requires setup.Valid() && IsSqrt(setup.sqrt) && setup.freshnessNs <= MAXIMUM_AGE_NS && setup.profile.Some?
    requires L.Engage(setup, samples, follower, start).Ok? && samples != []
    requires Timely(setup, samples[|samples| - 1], start, first, second, read, reread)
    ensures var began := L.Opened(setup, samples, L.Engage(setup, samples, follower, start).value, start);
            var ticks := TwoReads(samples[|samples| - 1], follower, first, second, read, reread);
            var audit := A.Open(setup, began.mapping.baseline, start);
            && Run(setup, began, ticks).Ok? && audit.Ok?
            && (Replay(setup, audit.value, began, ticks).Ok?
                <==> follower.clock in A.CLOCKS && follower.timestamp >= 0.0 && read == reread)
  {
    hide *;
    BothReadsAdvance(setup, samples, follower, start, first, second, read, reread);
    var ticks := TwoReads(samples[|samples| - 1], follower, first, second, read, reread);
    RuntimeRefinesAuditor(setup, samples, follower, start, ticks);
    TwoReadsAre(samples[|samples| - 1], follower, first, second, read, reread);
    SourceOfTwo(follower, ticks[0], ticks[1], read, reread);
    assert ticks == [ticks[0], ticks[1]];
  }

  lemma TwoReadsAre(reading: L.Sample, f: Feedback, first: int, second: int, read: int, reread: int)
    ensures var ticks := TwoReads(reading, f, first, second, read, reread);
            && |ticks| == 2
            && ticks[0].feedback == Some(Stamped(f, read)) && ticks[1].feedback == Some(Stamped(f, reread))
  {
  }

  /** Each read stamped at its own sample: accepted by the runtime, refused by the auditor. */
  lemma RestampedRefused(
    setup: L.Setup, samples: seq<L.Sample>, follower: Feedback, start: int, first: int, second: int
  )
    requires setup.Valid() && IsSqrt(setup.sqrt) && setup.freshnessNs <= MAXIMUM_AGE_NS && setup.profile.Some?
    requires L.Engage(setup, samples, follower, start).Ok? && samples != []
    requires start < first < second && second - samples[|samples| - 1].startNs <= setup.AgeNs()
    ensures var began := L.Opened(setup, samples, L.Engage(setup, samples, follower, start).value, start);
            var ticks := TwoReads(samples[|samples| - 1], follower, first, second, first, second);
            var audit := A.Open(setup, began.mapping.baseline, start);
            Run(setup, began, ticks).Ok? && audit.Ok? && Replay(setup, audit.value, began, ticks).Err?
  {
    AgePositive(setup);
    hide *;
    ReadAtOnce(setup, samples[|samples| - 1], start, first, second);
    RestampedExactly(setup, samples, follower, start, first, second, first, second);
  }

  lemma AgePositive(setup: L.Setup)
    requires setup.Valid()
    ensures setup.AgeNs() > 0
  {
  }

  lemma ReadAtOnce(setup: L.Setup, reading: L.Sample, start: int, first: int, second: int)
    requires setup.AgeNs() > 0 && start < first < second && second - reading.startNs <= setup.AgeNs()
    ensures Timely(setup, reading, start, first, second, first, second)
  {
  }

  // One such engagement.

  function All(x: real): Joints {
    [x, x, x, x, x, x]
  }

  const ONE_AXIS := L.Axis(1, 0, 4095, 1.0)

  /** An ordinary station: the default limits, six alike leader axes, a schedule from one half to full gain. */
  function Station(sqrt: real -> real, exp: real -> real, height: Joints -> real): L.Setup {
    L.Setup(
      sqrt, exp, L.Calibration([ONE_AXIS, ONE_AXIS, ONE_AXIS, ONE_AXIS, ONE_AXIS, ONE_AXIS], 0.0015),
      Limits(All(-1.0), All(1.0), All(0.0), 0.3, 0.5, 1.0, 3.0, 0.08, 250_000_000, 0.01, 0.01), 100_000_000,
      Some(Profile(Settings(0.0, [Knot(0.0, 0.5), Knot(0.1, 1.0)], 0.1, 0.5), height)))
  }

  function Still(sequence: int, startNs: int): L.Sample {
    L.Sample("epoch", sequence, startNs, startNs + 1_000_000, [2048, 2048, 2048, 2048, 2048, 2048, 2048])
  }

  const WINDOW := [Still(0, 0), Still(1, 20_000_000), Still(2, 40_000_000)]

  const HOME := Feedback(All(0.0), All(0.0), 5.0, 42_000_000, "ur_controller_uptime", true)

  lemma StationValid(sqrt: real -> real, exp: real -> real, height: Joints -> real)
    ensures Station(sqrt, exp, height).Valid() && Station(sqrt, exp, height).AgeNs() == 100_000_000
  {
    assert Rising([Knot(0.0, 0.5), Knot(0.1, 1.0)]);
  }

  lemma StationAtHome(sqrt: real -> real, exp: real -> real, height: Joints -> real)
    ensures L.AtHome(Station(sqrt, exp, height), HOME, 45_000_000)
  {
    StationValid(sqrt, exp, height);
    PeakWithin(All(0.0), 0.0);
    SameDistance(All(0.0));
    hide Peak, Distance;
  }

  lemma StationSteady(sqrt: real -> real, exp: real -> real, height: Joints -> real)
    ensures L.StableStart(Station(sqrt, exp, height), WINDOW, 45_000_000)
  {
    StationValid(sqrt, exp, height);
    var setup := Station(sqrt, exp, height);
    forall i | 0 <= i < 3
      ensures L.Fresh(WINDOW[i], 45_000_000, setup.AgeNs()) && setup.calibration.Accepts(WINDOW[i].raw)
    {
    }
    forall i | 1 <= i < 3
      ensures L.Advances(WINDOW[i - 1], WINDOW[i], setup.AgeNs())
    {
    }
    hide L.Fresh, L.Advances;
  }

  /** A station engaged at HOME, sampled 10 and 20 ms later with one controller packet read again each time. */
  lemma RestampedStation(sqrt: real -> real, exp: real -> real, height: Joints -> real)
    requires IsSqrt(sqrt)
    ensures var setup := Station(sqrt, exp, height);
            && setup.Valid() && L.Engage(setup, WINDOW, HOME, 45_000_000).Ok?
            && var began := L.Opened(setup, WINDOW, L.Engage(setup, WINDOW, HOME, 45_000_000).value, 45_000_000);
               var ticks := TwoReads(Still(2, 40_000_000), HOME, 55_000_000, 65_000_000, 55_000_000, 65_000_000);
               var audit := A.Open(setup, began.mapping.baseline, 45_000_000);
               Run(setup, began, ticks).Ok? && audit.Ok? && Replay(setup, audit.value, began, ticks).Err?
  {
    var setup := Station(sqrt, exp, height);
    StationValid(sqrt, exp, height);
    StationAtHome(sqrt, exp, height);
    StationSteady(sqrt, exp, height);
    assert setup.freshnessNs <= MAXIMUM_AGE_NS && setup.profile.Some?;
    assert WINDOW[|WINDOW| - 1] == Still(2, 40_000_000);
    hide Station, L.AtHome, L.StableStart, L.Usable, L.Steady, L.Resting, IsSqrt, Run, Replay, TwoReads, A.Open,
        L.Opened;
    assert L.Engage(setup, WINDOW, HOME, 45_000_000).Ok? by {
      EngagesWhen(setup, WINDOW, HOME, 45_000_000);
    }
    RestampedRefused(setup, WINDOW, HOME, 45_000_000, 55_000_000, 65_000_000);
  }

  lemma EngagesWhen(setup: L.Setup, samples: seq<L.Sample>, follower: Feedback, now: int)
    requires setup.calibration.WellFormed() && L.AtHome(setup, follower, now) && L.StableStart(setup, samples, now)
    ensures L.Engage(setup, samples, follower, now).Ok?
  {
    hide L.Resting, L.Usable, L.Steady;
  }
}

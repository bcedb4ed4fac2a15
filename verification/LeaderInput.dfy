/** Leader acquisitions, the episode mapper and the shared input of leader/episode.py and leader/input.py. */
module LeaderInput {
  import opened Prelude
  import opened Model
  import opened Precision
  import C = Conditioning

  /** One real acquisition: source epoch, sequence, host start and end, seven raw counts. */
  datatype Sample = Sample(epoch: string, sequence: int, startNs: int, endNs: int, raw: seq<int>)

  datatype Axis = Axis(sign: int, minimum: int, maximum: int, ratio: real)

  /** Six calibrated axes; `unit` is the angle of one encoder count. */
  datatype Calibration = Calibration(axes: seq<Axis>, unit: real) {
    predicate WellFormed() {
      |axes| == 6
    }

    /** All seven counts inside their signed intervals. */
    predicate Accepts(raw: seq<int>)
      requires WellFormed()
    {
      && |raw| == 7
      && (forall j :: 0 <= j < 6 ==> axes[j].minimum <= raw[j] <= axes[j].maximum)
      && -0x8000_0000 <= raw[6] <= 0x7fff_ffff
    }

    function AxisDelta(j: nat, count: int, start: int): real
      requires WellFormed() && j < 6
    {
      (count - start) as real * axes[j].sign as real * axes[j].ratio * unit
    }

    /** Joint displacement between two raw readings. */
    function Delta(raw: seq<int>, origin: seq<int>): Joints
      requires WellFormed() && |raw| == 7 && |origin| == 7
    {
      seq(6, (j: int) requires 0 <= j < 6 => AxisDelta(j, raw[j], origin[j]))
    }
  }

  predicate Fresh(sample: Sample, now: int, ageNs: int) {
    sample.startNs <= sample.endNs <= now && now - sample.startNs <= ageNs
  }

  /** Source continuity: same epoch, strictly later, without overlap or an excessive gap. */
  predicate Advances(previous: Sample, current: Sample, ageNs: int) {
    && previous.epoch == current.epoch
    && current.sequence > previous.sequence
    && current.startNs >= previous.endNs
    && current.startNs > previous.startNs
    && current.startNs - previous.startNs <= ageNs
  }

  /** What both the mapper and the input are configured with. */
  datatype Setup = Setup(
    sqrt: real -> real,
    exp: real -> real,
    calibration: Calibration,
    limits: Limits,
    freshnessNs: int,
    profile: Option<Profile>
  ) {
    /** The effective acquisition age bound. */
    function AgeNs(): int {
      MinInt(limits.freshnessNs, freshnessNs)
    }

    ghost predicate Valid() {
      && calibration.WellFormed() && limits.Valid() && 0 < freshnessNs
      && (profile.Some? ==> profile.value.settings.Valid())
    }
  }

  /** Reference and last mapped acquisition of one episode; a fault is latched. */
  datatype Mapping = Mapping(baseline: Sample, last: Sample, faulted: bool)

  /** Why an engagement is refused; only an unsteady reference is worth another try with later samples. */
  datatype EngageError = NotHome | OutsideLimits | TooFewSamples | SampleRefused | ShortReference | UnsteadyReference

  /** The first n samples are fresh, calibrated and continuous. */
  predicate Usable(setup: Setup, samples: seq<Sample>, now: int, n: nat)
    requires setup.calibration.WellFormed() && n <= |samples|
  {
    && (forall i :: 0 <= i < n ==>
          Fresh(samples[i], now, setup.AgeNs()) && setup.calibration.Accepts(samples[i].raw))
    && (forall i :: 1 <= i < n ==> Advances(samples[i - 1], samples[i], setup.AgeNs()))
  }

  predicate Steady(samples: seq<Sample>)
    requires forall i :: 0 <= i < |samples| ==> |samples[i].raw| == 7
  {
    forall i, k, axis :: 0 <= i < |samples| && 0 <= k < |samples| && 0 <= axis < 7 ==>
      samples[i].raw[axis] - samples[k].raw[axis] <= 10
  }

  predicate StableStart(setup: Setup, samples: seq<Sample>, now: int)
    requires setup.calibration.WellFormed()
  {
    && |samples| >= 3
    && Usable(setup, samples, now, |samples|)
    && samples[|samples| - 1].startNs - samples[0].startNs >= 40_000_000
    && Steady(samples)
  }

  /** Fresh, stationary and close to HOME. */
  predicate Resting(setup: Setup, follower: Feedback, now: int) {
    && 0 <= now - follower.receivedNs <= setup.AgeNs()
    && Peak(follower.qd) <= setup.limits.stoppedSpeed
    && Distance(follower.q, setup.limits.ready) <= setup.limits.arrival
    && Distance(follower.q, setup.limits.ready) <= setup.limits.step
  }

  /** The follower must be fresh, stationary and at HOME. */
  predicate AtHome(setup: Setup, follower: Feedback, now: int) {
    Resting(setup, follower, now) && setup.limits.Admits(follower.q)
  }

  /** The first check that fails, in the order of the checks. */
  function EngageRefusal(setup: Setup, samples: seq<Sample>, follower: Feedback, now: int): Option<EngageError>
    requires setup.calibration.WellFormed()
  {
    if !Resting(setup, follower, now) then Some(NotHome)
    else if !setup.limits.Admits(follower.q) then Some(EngageError.OutsideLimits)
    else if |samples| < 3 then Some(TooFewSamples)
    else if !Usable(setup, samples, now, |samples|) then Some(SampleRefused)
    else if samples[|samples| - 1].startNs - samples[0].startNs < 40_000_000 then Some(ShortReference)
    else if !Steady(samples) then Some(UnsteadyReference)
    else None
  }

  function Engage(setup: Setup, samples: seq<Sample>, follower: Feedback, now: int): Result<Mapping, EngageError>
    requires setup.calibration.WellFormed()
  {
    match EngageRefusal(setup, samples, follower, now)
    case Some(e) => Err(e)
    case None => Ok(Mapping(samples[|samples| - 1], samples[|samples| - 1], false))
  }

  /** The checks as they run, sample by sample. */
  method CheckEngagement(setup: Setup, samples: seq<Sample>, follower: Feedback, now: int)
    returns (refusal: Option<EngageError>)
    requires setup.calibration.WellFormed()
    ensures refusal.None? <==> AtHome(setup, follower, now) && StableStart(setup, samples, now)
    ensures refusal == EngageRefusal(setup, samples, follower, now)
  {
    if !Resting(setup, follower, now) {
      return Some(NotHome);
    }
    if !setup.limits.Admits(follower.q) {
      return Some(EngageError.OutsideLimits);
    }
    if |samples| < 3 {
      return Some(TooFewSamples);
    }
    for i := 0 to |samples|
      invariant Usable(setup, samples, now, i)
    {
      if !Fresh(samples[i], now, setup.AgeNs()) || !setup.calibration.Accepts(samples[i].raw) {
        return Some(SampleRefused);
      }
      if i > 0 && !Advances(samples[i - 1], samples[i], setup.AgeNs()) {
        return Some(SampleRefused);
      }
    }
    if samples[|samples| - 1].startNs - samples[0].startNs < 40_000_000 {
      return Some(ShortReference);
    }
    refusal := if Steady(samples) then None else Some(UnsteadyReference);
  }

  function Shift(q: real, gain: real, delta: real): real {
    q + gain * delta
  }

  function ShiftAll(reference: Joints, gain: real, delta: Joints): Joints {
    seq(6, (j: int) requires 0 <= j < 6 => Shift(reference[j], gain, delta[j]))
  }

  /** Map one acquisition against the fixed baseline, or against the last one when a reference is given. */
  function Mapped(setup: Setup, m: Mapping, sample: Sample, now: int, reference: Option<Joints>, gain: real)
    : Result<Target, ControlError>
    requires setup.calibration.WellFormed()
  {
    var origin := if reference.None? then m.baseline else m.last;
    if m.faulted then Err(MappingStopped)
    else if !Fresh(sample, now, setup.AgeNs()) || !Advances(m.last, sample, setup.AgeNs()) then Err(InputInvalid)
    else if !setup.calibration.Accepts(sample.raw) || !setup.calibration.Accepts(origin.raw) then Err(InputInvalid)
    else
      var start := if reference.None? then setup.limits.ready else reference.value;
      var desired := ShiftAll(start, gain, setup.calibration.Delta(sample.raw, origin.raw));
      if !setup.limits.Admits(desired) then Err(JointLimit)
      else Ok(Target(desired, sample.sequence, sample.startNs, "gello"))
  }

  class EpisodeMapper {
    const setup: Setup
    const baseline: Sample
    var last: Sample
    var faulted: bool

    ghost function Value(): Mapping
      reads this
    {
      Mapping(baseline, last, faulted)
    }

    constructor (setup: Setup, samples: seq<Sample>, follower: Feedback, now: int)
      requires setup.calibration.WellFormed() && Engage(setup, samples, follower, now).Ok?
      ensures this.setup == setup
      ensures Engage(setup, samples, follower, now) == Ok(Value())
    {
      this.setup := setup;
      baseline, last, faulted := samples[|samples| - 1], samples[|samples| - 1], false;
    }

    /** Any refusal latches the mapper; a success consumes the acquisition. */
    method Target(sample: Sample, now: int, reference: Option<Joints>, gain: real)
      returns (r: Result<Target, ControlError>)
      requires setup.calibration.WellFormed()
      modifies this
      ensures r == Mapped(setup, old(Value()), sample, now, reference, gain)
      ensures r.Ok? ==> Value() == old(Value()).(last := sample)
      ensures r.Err? ==> Value() == old(Value()).(faulted := true)
    {
      r := Mapped(setup, Mapping(baseline, last, faulted), sample, now, reference, gain);
      if r.Ok? {
        last := sample;
      } else {
        faulted := true;
      }
    }

    method Stop()
      modifies this
      ensures Value() == old(Value()).(faulted := true)
    {
      faulted := true;
    }
  }

  /** Everything one leader input carries between samples. */
  datatype State = State(
    mapping: Mapping,
    track: C.Track,
    reference: Joints,
    evidence: Option<Evidence>,
    reading: Sample,
    desired: Target
  )

  /** The state right after engagement: zero displacement from HOME, tracker at rest. */
  function Opened(setup: Setup, samples: seq<Sample>, mapping: Mapping, now: int): State
    requires |samples| > 0
  {
    var ready := setup.limits.ready;
    State(mapping, C.Track(Target(ready, 0, now, "gello"), ZERO), ready, None, samples[|samples| - 1],
          Target(ready, mapping.baseline.sequence, mapping.baseline.startNs, "gello"))
  }

  /** Validate the latest acquisition and consume its displacement once. */
  function Acquire(setup: Setup, s: State, reading: Sample, now: int, gain: real): Result<State, ControlError>
    requires setup.calibration.WellFormed()
  {
    if reading == s.reading then
      if now - reading.startNs > setup.AgeNs() then Err(InputStale)
      else if setup.profile.Some? then Ok(s.(desired := s.desired.(q := s.reference)))
      else Ok(s)
    else
      var reference := if setup.profile.Some? then Some(s.reference) else None;
      match Mapped(setup, s.mapping, reading, now, reference, gain)
      case Err(e) => Err(e)
      case Ok(desired) => Ok(s.(desired := desired, mapping := s.mapping.(last := reading), reading := reading))
  }

  /** Contract the accumulated lead and keep the corrected reference. */
  function Accept(setup: Setup, s: State, now: int, gain: real, evidence: Evidence): Result<State, ControlError>
    requires setup.profile.Some?
    requires setup.profile.value.settings.Valid() && setup.limits.Valid()
  {
    var dt := Seconds(now - s.track.target.createdNs);
    if !(0.0 < dt <= Seconds(setup.limits.freshnessNs)) then Err(ClockStalled)
    else
      LowestAccelerationPositive(setup.limits, setup.profile.value.settings);
      var accepted := Correct(setup.exp, setup.profile.value.settings, setup.limits, s.track, s.desired.q, gain, dt);
      Ok(s.(reference := accepted, evidence := Some(evidence.(accepted := Some(accepted)))))
  }

  lemma LowestAccelerationPositive(limits: Limits, settings: Settings)
    requires limits.Valid() && settings.Valid()
    ensures CorrectionAcceleration(limits, settings) > 0.0
  {
    ProductPositive(0.9 * limits.acceleration, settings.knots[0].gain);
  }

  /** One sample after the first: observe, map, correct, condition. */
  function Advance(setup: Setup, s: State, readings: seq<Sample>, feedback: Option<Feedback>, now: int)
    : Result<State, ControlError>
    requires setup.Valid()
  {
    if readings == [] then Err(InputUnavailable)
    else
      match setup.profile
      case None =>
        (match Acquire(setup, s, readings[|readings| - 1], now, 1.0)
         case Err(e) => Err(e)
         case Ok(acquired) => Condition(setup, acquired, acquired.desired.q, now, 1.0))
      case Some(profile) =>
        (match Observe(profile, feedback, now, setup.AgeNs())
         case Err(e) => Err(e)
         case Ok(evidence) =>
           if !setup.limits.Admits(feedback.value.q) then Err(JointLimit)
           else
             match Acquire(setup, s, readings[|readings| - 1], now, evidence.gain)
             case Err(e) => Err(e)
             case Ok(acquired) =>
               match Accept(setup, acquired, now, evidence.gain, evidence)
               case Err(e) => Err(e)
               case Ok(accepted) => Condition(setup, accepted, accepted.reference, now, evidence.gain))
  }

  function Condition(setup: Setup, s: State, goal: Joints, now: int, gain: real): Result<State, ControlError> {
    match C.Next(setup.sqrt, setup.limits, s.track, goal, now, gain)
    case Err(e) => Err(e)
    case Ok(track) => Ok(s.(track := track))
  }

  class Input {
    const setup: Setup
    const mapper: EpisodeMapper
    const conditioner: C.Conditioner
    var reference: Joints
    var evidence: Option<Evidence>
    var reading: Sample
    var desired: Target
    var initial: bool
    var closed: bool

    ghost predicate Valid() {
      && setup.Valid() && mapper.setup == setup
      && conditioner.sqrt == setup.sqrt && conditioner.limits == setup.limits
    }

    ghost function Value(): State
      reads this, mapper, conditioner
    {
      State(mapper.Value(), conditioner.Value(), reference, evidence, reading, desired)
    }

    constructor (setup: Setup, samples: seq<Sample>, follower: Feedback, now: int)
      requires setup.Valid() && Engage(setup, samples, follower, now).Ok?
      ensures Valid() && this.setup == setup && initial && !closed && fresh(mapper) && fresh(conditioner)
      ensures Value() == Opened(setup, samples, Engage(setup, samples, follower, now).value, now)
    {
      this.setup := setup;
      var m := new EpisodeMapper(setup, samples, follower, now);
      mapper := m;
      conditioner := new C.Conditioner(setup.sqrt, setup.limits, Target(setup.limits.ready, 0, now, "gello"));
      reference, evidence, reading := setup.limits.ready, None, samples[|samples| - 1];
      desired := Target(setup.limits.ready, m.baseline.sequence, m.baseline.startNs, "gello");
      initial, closed := true, false;
    }

    /**
     * The first sample returns the engagement pose; each later one advances the input. Every refusal closes it,
     * and a closed input refuses everything.
     */
    method Sample(readings: seq<Sample>, feedback: Option<Feedback>, now: int)
      returns (r: Result<Target, ControlError>)
      requires Valid()
      modifies this, mapper, conditioner
      ensures old(closed) ==> r == Err(OwnershipEnded) && closed && Value() == old(Value())
      ensures !old(closed) && old(initial) ==>
        if readings == [] then r == Err(InputUnavailable)
        else if now - old(reading).startNs > setup.AgeNs() then r == Err(InputStale)
        else r == Ok(old(conditioner.target)) && Value() == old(Value()) && !initial
      ensures !old(closed) && !old(initial) ==>
        match Advance(setup, old(Value()), readings, feedback, now)
        case Err(e) => r == Err(e)
        case Ok(s) => r == Ok(s.track.target) && Value() == s && !initial
      ensures closed == (old(closed) || r.Err?)
      ensures r.Err? && !old(closed) ==> mapper.faulted
    {
      if closed {
        return Err(OwnershipEnded);
      }
      r := Pull(readings, feedback, now);
      if r.Err? {
        Close();
      }
    }

    method Pull(readings: seq<Sample>, feedback: Option<Feedback>, now: int)
      returns (r: Result<Target, ControlError>)
      requires Valid() && !closed
      modifies this, mapper, conditioner
      ensures old(initial) ==>
        if readings == [] then r == Err(InputUnavailable)
        else if now - old(reading).startNs > setup.AgeNs() then r == Err(InputStale)
        else r == Ok(old(conditioner.target)) && Value() == old(Value()) && !initial
      ensures !old(initial) ==>
        match Advance(setup, old(Value()), readings, feedback, now)
        case Err(e) => r == Err(e)
        case Ok(s) => r == Ok(s.track.target) && Value() == s && !initial
      ensures !closed
    {
      if readings == [] {
        return Err(InputUnavailable);
      }
      if initial {
        if now - reading.startNs > setup.AgeNs() {
          return Err(InputStale);
        }
        initial := false;
        return Ok(conditioner.target);
      }
      hide Advance;
      r := Continue(readings, feedback, now);
    }

    /** Every sample after the first: observe, map, correct, condition. */
    method Continue(readings: seq<Sample>, feedback: Option<Feedback>, now: int)
      returns (r: Result<Target, ControlError>)
      requires Valid() && !initial && readings != []
      modifies this, mapper, conditioner
      ensures match Advance(setup, old(Value()), readings, feedback, now)
              case Err(e) => r == Err(e)
              case Ok(s) => r == Ok(s.track.target) && Value() == s
      ensures !initial && closed == old(closed)
    {
      hide C.Next, Observe, Acquire, Accept;
      var fault, observed, gain := Look(feedback, now);
      if fault.Some? {
        return Err(fault.value);
      }
      fault := Take(readings[|readings| - 1], now, gain);
      if fault.Some? {
        return Err(fault.value);
      }
      if setup.profile.Some? {
        fault := CorrectNow(observed.value, now, gain);
        if fault.Some? {
          return Err(fault.value);
        }
      }
      r := conditioner.Step(if setup.profile.Some? then reference else desired.q, now, gain);
    }

    /** The precision evidence of one sample, and its gain. */
    method Look(feedback: Option<Feedback>, now: int)
      returns (fault: Option<ControlError>, observed: Option<Evidence>, gain: real)
      requires Valid()
      ensures setup.profile.None? ==> fault.None? && gain == 1.0
      ensures setup.profile.Some? ==>
        match Observe(setup.profile.value, feedback, now, setup.AgeNs())
        case Err(e) => fault == Some(e)
        case Ok(o) =>
          feedback.Some?
          && if setup.limits.Admits(feedback.value.q) then fault.None? && observed == Some(o) && gain == o.gain
             else fault == Some(JointLimit)
    {
      fault, observed, gain := None, None, 1.0;
      if setup.profile.Some? {
        var o := Observe(setup.profile.value, feedback, now, setup.AgeNs());
        if o.Err? {
          fault := Some(o.error);
        } else if !setup.limits.Admits(feedback.value.q) {
          fault := Some(JointLimit);
        } else {
          observed, gain := Some(o.value), o.value.gain;
        }
      }
    }

    /** Contract the mapped pose into the reference, and complete the evidence. */
    method CorrectNow(observed: Evidence, now: int, gain: real) returns (fault: Option<ControlError>)
      requires Valid() && setup.profile.Some?
      modifies this
      ensures match Accept(setup, old(Value()), now, gain, observed)
              case Err(e) => fault == Some(e)
              case Ok(s) => fault == None && Value() == s
      ensures initial == old(initial) && closed == old(closed)
    {
      hide Correct;
      var dt := Seconds(now - conditioner.target.createdNs);
      if !(0.0 < dt <= Seconds(setup.limits.freshnessNs)) {
        return Some(ClockStalled);
      }
      LowestAccelerationPositive(setup.limits, setup.profile.value.settings);
      reference := CorrectAll(setup.exp, setup.profile.value.settings, setup.limits,
                              C.Track(conditioner.target, conditioner.velocity), desired.q, gain, dt);
      evidence := Some(observed.(accepted := Some(reference)));
      fault := None;
    }

    /** The source's `_advance`. */
    method Take(sample: Sample, now: int, gain: real) returns (fault: Option<ControlError>)
      requires Valid()
      modifies this, mapper
      ensures match Acquire(setup, old(Value()), sample, now, gain)
              case Err(e) => fault == Some(e)
              case Ok(s) => fault == None && Value() == s
      ensures initial == old(initial) && closed == old(closed)
    {
      fault := None;
      if sample == reading {
        if now - sample.startNs > setup.AgeNs() {
          fault := Some(InputStale);
        } else if setup.profile.Some? {
          desired := desired.(q := reference);
        }
        return;
      }
      var mapped := mapper.Target(sample, now, if setup.profile.Some? then Some(reference) else None, gain);
      if mapped.Err? {
        fault := Some(mapped.error);
        return;
      }
      desired, reading := mapped.value, sample;
    }

    method Close()
      modifies this, mapper
      ensures closed && mapper.faulted && initial == old(initial)
    {
      closed := true;
      mapper.Stop();
    }
  }

  /** Engage a mapper, or say why not. */
  method EngageMapper(setup: Setup, samples: seq<Sample>, follower: Feedback, now: int)
    returns (r: Result<EpisodeMapper, EngageError>)
    requires setup.calibration.WellFormed()
    ensures match Engage(setup, samples, follower, now)
            case Err(e) => r == Err(e)
            case Ok(m) => r.Ok? && fresh(r.value) && r.value.setup == setup && r.value.Value() == m
  {
    var refusal := CheckEngagement(setup, samples, follower, now);
    if refusal.Some? {
      return Err(refusal.value);
    }
    var mapper := new EpisodeMapper(setup, samples, follower, now);
    r := Ok(mapper);
  }

  /** Open an input on the samples of its source, or say why not. */
  method EngageInput(setup: Setup, samples: seq<Sample>, follower: Feedback, now: int)
    returns (r: Result<Input, EngageError>)
    requires setup.Valid()
    ensures match Engage(setup, samples, follower, now)
            case Err(e) => r == Err(e)
            case Ok(m) =>
              && r.Ok? && fresh(r.value) && r.value.Valid() && r.value.setup == setup
              && r.value.initial && !r.value.closed && r.value.Value() == Opened(setup, samples, m, now)
  {
    var refusal := CheckEngagement(setup, samples, follower, now);
    if refusal.Some? {
      return Err(refusal.value);
    }
    var input := new Input(setup, samples, follower, now);
    r := Ok(input);
  }
}

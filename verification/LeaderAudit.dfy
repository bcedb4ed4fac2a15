/** The independent replay checks of leader/audit.py and leader/precision_audit.py. */
module LeaderAudit {
  import opened Prelude
  import opened Model
  import opened Precision
  import L = LeaderInput

  datatype AuditError =
    | InvalidContext
    | AcquisitionStale
    | Discontinuity
    | Uncalibrated
    | EvidenceInvalid
    | EvidenceUnexpected
    | FeedbackStale
    | FeedbackChanged
    | HeightDiffers
    | IntentDiffers
    | CommandTime
    | CorrectionDiffers
    | OutsideLimits
    | CommandDiffers
    | DerivativesExceeded
    | NoIntent

  /** One recorded intent: its time, raw acquisition, mapped joints and precision evidence. */
  datatype Intent = Intent(sourceNs: int, acquisition: L.Sample, q: Joints, evidence: Option<Evidence>)

  const CLOCKS := ["ur_controller_uptime", "isaac_physics_simulation", "isaac_kinematic_monotonic"]

  /** Position and time of the previous command, and its velocity. */
  datatype Command = Command(q: Joints, createdNs: int, velocity: Joints)

  /** The independently restored incremental mapping. */
  datatype Restored = Restored(reference: Joints, feedback: Option<View>, gain: real)

  /** Clamp first, scale after: the auditor's form of one schedule segment. */
  function Share(low: Knot, high: Knot, h: real): real
    requires low.height != high.height
  {
    (high.gain - low.gain) * Max(0.0, Min(1.0, (h - low.height) / (high.height - low.height)))
  }

  /** Sum of the clamped segments from knot i on. */
  function Shares(knots: seq<Knot>, h: real): real
    decreases |knots|
  {
    if |knots| < 2 then 0.0
    else (if knots[0].height != knots[1].height then Share(knots[0], knots[1], h) else 0.0) + Shares(knots[1..], h)
  }

  function SummedGain(settings: Settings, z: real): real
    requires |settings.knots| >= 1
  {
    settings.knots[0].gain + Shares(settings.knots, z - settings.referenceZ)
  }

  /** The accumulating loop over the schedule's segments. */
  method SumGain(settings: Settings, z: real) returns (gain: real)
    requires settings.Valid()
    ensures gain == SummedGain(settings, z)
  {
    var h, knots := z - settings.referenceZ, settings.knots;
    gain := knots[0].gain;
    for i := 0 to |knots| - 1
      invariant gain + Shares(knots[i..], h) == SummedGain(settings, z)
    {
      assert knots[i..][0] == knots[i] && knots[i..][1] == knots[i + 1] && knots[i..][1..] == knots[i + 1..];
      gain := gain + Share(knots[i], knots[i + 1], h);
    }
  }

  /** Fresh evidence of the same source; equal controller times require equal packets. */
  function CheckFeedback(limits: Limits, previous: Option<View>, view: View, now: int): Option<AuditError> {
    if view.clock !in CLOCKS || (previous.Some? && view.clock != previous.value.clock) then Some(FeedbackChanged)
    else if !limits.Admits(view.q) then Some(OutsideLimits)
    else if !(0 <= now - view.receivedNs <= MinInt(limits.freshnessNs, MAXIMUM_AGE_NS)) || view.timestamp < 0.0 then
      Some(FeedbackStale)
    else if previous.Some? && (view.timestamp < previous.value.timestamp
                               || view.receivedNs < previous.value.receivedNs
                               || (view.timestamp == previous.value.timestamp && view != previous.value)) then
      Some(FeedbackChanged)
    else None
  }

  /** The auditor's contraction: clip into the feasible interval, then decay the excess. */
  function Clip(target: real, q: real, stopping: real, lead: real, decay: real): real {
    var lo := q + Min(0.0, stopping) - lead;
    var hi := q + Max(0.0, stopping) + lead;
    var clipped := Min(hi, Max(lo, target));
    clipped + decay * (target - clipped)
  }

  function ClipAll(expected: Joints, c: Command, a: real, lead: real, decay: real): Joints
    requires a != 0.0
  {
    seq(6, (j: int) requires 0 <= j < 6 =>
      Clip(expected[j], c.q[j], StoppingDistance(c.velocity[j], a), lead, decay))
  }

  /** The accumulating loop of `_contract`. */
  method ClipLoop(expected: Joints, c: Command, a: real, lead: real, decay: real) returns (accepted: Joints)
    requires a != 0.0
    ensures accepted == ClipAll(expected, c, a, lead, decay)
  {
    ghost var all := ClipAll(expected, c, a, lead, decay);
    var result: seq<real> := [];
    for j := 0 to 6
      invariant result == all[..j]
    {
      var position := Clip(expected[j], c.q[j], StoppingDistance(c.velocity[j], a), lead, decay);
      assert all[j] == position;
      result := result + [position];
    }
    accepted := result;
  }

  function AuditAcceleration(limits: Limits, settings: Settings): real
    requires |settings.knots| >= 1
  {
    limits.acceleration * 0.9 * settings.knots[0].gain
  }

  function AuditLead(limits: Limits, settings: Settings, gain: real): real {
    limits.speed * 0.9 * gain * settings.leadSeconds
  }

  function Contracted(
    exp: real -> real, limits: Limits, settings: Settings, expected: Joints, c: Command, dt: real, gain: real
  ): Joints
    requires |settings.knots| >= 1 && settings.correctionSeconds != 0.0 && AuditAcceleration(limits, settings) != 0.0
  {
    ClipAll(expected, c, AuditAcceleration(limits, settings), AuditLead(limits, settings, gain),
            exp(-dt / settings.correctionSeconds))
  }

  lemma AuditAccelerationPositive(limits: Limits, settings: Settings)
    requires limits.Valid() && settings.Valid()
    ensures AuditAcceleration(limits, settings) > 0.0
  {
    ProductPositive(limits.acceleration * 0.9, settings.knots[0].gain);
  }

  /** Restore one precision intent from its evidence. */
  function RestoreIntent(
    setup: L.Setup, profile: Profile, p: Restored, intent: Intent, delta: Joints, c: Command
  ): Result<(Joints, Restored), AuditError>
    requires setup.Valid() && profile.settings.Valid()
  {
    if intent.evidence.None? || intent.evidence.value.accepted.None? then Err(EvidenceInvalid)
    else
      var state := intent.evidence.value;
      var fault := CheckFeedback(setup.limits, p.feedback, state.feedback, intent.sourceNs);
      if fault.Some? then Err(fault.value)
      else
        var z := profile.height(state.feedback.q);
        var gain := SummedGain(profile.settings, z);
        if Abs(z - state.z) > 0.000000000001 || Abs(gain - state.gain) > 0.000000000001 then Err(HeightDiffers)
        else
          var expected := L.ShiftAll(p.reference, gain, delta);
          if Distance(expected, intent.q) > 0.000000000001 then Err(IntentDiffers)
          else if !setup.limits.Admits(expected) then Err(OutsideLimits)
          else
            var dt := Seconds(intent.sourceNs - c.createdNs);
            if !(0.0 < dt <= Seconds(setup.limits.freshnessNs)) then Err(CommandTime)
            else
              AuditAccelerationPositive(setup.limits, profile.settings);
              var accepted := Contracted(setup.exp, setup.limits, profile.settings, expected, c, dt, gain);
              var actual := state.accepted.value;
              if !setup.limits.Admits(actual) then Err(OutsideLimits)
              else if Distance(accepted, actual) > 0.0000000001 then Err(CorrectionDiffers)
              else Ok((expected, Restored(actual, Some(state.feedback), gain)))
  }

  /** The precision auditor's `intent`, with its two loops. */
  method Restore(
    setup: L.Setup, profile: Profile, p: Restored, intent: Intent, delta: Joints, c: Command
  ) returns (r: Result<(Joints, Restored), AuditError>)
    requires setup.Valid() && profile.settings.Valid()
    ensures r == RestoreIntent(setup, profile, p, intent, delta, c)
  {
    hide L.ShiftAll, ClipAll, Distance, CheckFeedback;
    if intent.evidence.None? || intent.evidence.value.accepted.None? {
      return Err(EvidenceInvalid);
    }
    var state := intent.evidence.value;
    var fault := CheckFeedback(setup.limits, p.feedback, state.feedback, intent.sourceNs);
    if fault.Some? {
      return Err(fault.value);
    }
    var z := profile.height(state.feedback.q);
    var gain := SumGain(profile.settings, z);
    if Abs(z - state.z) > 0.000000000001 || Abs(gain - state.gain) > 0.000000000001 {
      return Err(HeightDiffers);
    }
    var expected := L.ShiftAll(p.reference, gain, delta);
    if Distance(expected, intent.q) > 0.000000000001 {
      return Err(IntentDiffers);
    }
    if !setup.limits.Admits(expected) {
      return Err(OutsideLimits);
    }
    var dt := Seconds(intent.sourceNs - c.createdNs);
    if !(0.0 < dt <= Seconds(setup.limits.freshnessNs)) {
      return Err(CommandTime);
    }
    AuditAccelerationPositive(setup.limits, profile.settings);
    var accepted := ClipLoop(expected, c, AuditAcceleration(setup.limits, profile.settings),
                             AuditLead(setup.limits, profile.settings, gain),
                             setup.exp(-dt / profile.settings.correctionSeconds));
    var actual := state.accepted.value;
    if !setup.limits.Admits(actual) {
      return Err(OutsideLimits);
    }
    if Distance(accepted, actual) > 0.0000000001 {
      return Err(CorrectionDiffers);
    }
    return Ok((expected, Restored(actual, Some(state.feedback), gain)));
  }

  /** The auditor's velocity limit: clamp the desired velocity into the reachable interval. */
  function Reachable(velocity: real, desired: real, change: real): real {
    Min(velocity + change, Max(velocity - change, desired))
  }

  /** sign(error) * min(speed, |error| / dt, sqrt(a |error|)). */
  function DesiredVelocity(sqrt: real -> real, speed: real, a: real, dt: real, error: real): real
    requires dt != 0.0
  {
    if error < 0.0 then -Min(Min(speed, -error / dt), sqrt(a * -error))
    else Min(Min(speed, error / dt), sqrt(a * error))
  }

  function Step(before: real, velocity: real, dt: real): real {
    before + velocity * dt
  }

  function FollowOne(
    sqrt: real -> real, speed: real, a: real, dt: real, target: real, before: real, velocity: real
  ): real
    requires dt != 0.0
  {
    Step(before, Reachable(velocity, DesiredVelocity(sqrt, speed, a, dt, target - before), a * dt), dt)
  }

  function FollowJoints(
    sqrt: real -> real, speed: real, a: real, dt: real, target: Joints, before: Joints, velocity: Joints
  ): Joints
    requires dt != 0.0
  {
    seq(6, (j: int) requires 0 <= j < 6 => FollowOne(sqrt, speed, a, dt, target[j], before[j], velocity[j]))
  }

  function FollowAll(sqrt: real -> real, limits: Limits, p: Restored, c: Command, dt: real): Joints
    requires dt != 0.0
  {
    FollowJoints(sqrt, CommandSpeed(limits, p.gain), CommandAcceleration(limits, p.gain), dt, p.reference, c.q,
        c.velocity)
  }

  function CommandSpeed(limits: Limits, gain: real): real {
    limits.speed * 0.9 * gain
  }

  function CommandAcceleration(limits: Limits, gain: real): real {
    limits.acceleration * 0.9 * gain
  }

  /** The appending loop of the precision auditor's `sent`. */
  method FollowLoop(sqrt: real -> real, limits: Limits, p: Restored, c: Command, dt: real)
    returns (expected: Joints)
    requires dt != 0.0
    ensures expected == FollowAll(sqrt, limits, p, c, dt)
  {
    hide FollowOne;
    var a := CommandAcceleration(limits, p.gain);
    var speed := CommandSpeed(limits, p.gain);
    ghost var all := FollowJoints(sqrt, speed, a, dt, p.reference, c.q, c.velocity);
    var result: seq<real> := [];
    for j := 0 to 6
      invariant result == all[..j]
    {
      var position := FollowOne(sqrt, speed, a, dt, p.reference[j], c.q[j], c.velocity[j]);
      assert all[j] == position;
      result := result + [position];
    }
    expected := result;
  }

  /** Finite-difference derivatives of a recorded command. */
  function Velocity(q: real, before: real, dt: real): real
    requires dt != 0.0
  {
    (q - before) / dt
  }

  function VelocityAll(q: Joints, c: Command, dt: real): Joints
    requires dt != 0.0
  {
    seq(6, (j: int) requires 0 <= j < 6 => Velocity(q[j], c.q[j], dt))
  }

  function AccelerationAll(velocity: Joints, c: Command, dt: real): Joints
    requires dt != 0.0
  {
    seq(6, (j: int) requires 0 <= j < 6 => Velocity(velocity[j], c.velocity[j], dt))
  }

  datatype Audit = Audit(
    baseline: L.Sample,
    previous: L.Sample,
    intentNs: Option<int>,
    command: Command,
    precision: Option<Restored>
  )

  /** Restore the episode's context: the baseline must be fresh and calibrated. */
  function Open(setup: L.Setup, baseline: L.Sample, startedNs: int): Result<Audit, AuditError>
    requires setup.calibration.WellFormed()
  {
    if !(0 <= startedNs - baseline.startNs <= MAXIMUM_AGE_NS) then Err(InvalidContext)
    else if !setup.calibration.Accepts(baseline.raw) then Err(Uncalibrated)
    else
      Ok(Audit(baseline, baseline, None, Command(setup.limits.ready, startedNs, ZERO),
               if setup.profile.Some? then Some(Restored(setup.limits.ready, None, 1.0)) else None))
  }

  function CheckAcquisition(setup: L.Setup, previous: L.Sample, sample: L.Sample, now: int): Option<AuditError>
    requires setup.calibration.WellFormed()
  {
    if !(sample.endNs <= now <= sample.startNs + MAXIMUM_AGE_NS) then Some(AcquisitionStale)
    else if sample != previous
            && (sample.epoch != previous.epoch
                || sample.sequence <= previous.sequence
                || sample.startNs < previous.endNs
                || !(0 < sample.startNs - previous.startNs <= MAXIMUM_AGE_NS)) then Some(Discontinuity)
    else if !setup.calibration.Accepts(sample.raw) then Some(Uncalibrated)
    else None
  }

  function CheckIntent(setup: L.Setup, a: Audit, intent: Intent): Result<Audit, AuditError>
    requires setup.Valid() && (a.precision.Some? ==> setup.profile.Some?)
    requires |a.baseline.raw| == 7 && |a.previous.raw| == 7
  {
    var sample := intent.acquisition;
    var fault := CheckAcquisition(setup, a.previous, sample, intent.sourceNs);
    if fault.Some? then Err(fault.value)
    else if a.precision.None? && intent.evidence.Some? then Err(EvidenceUnexpected)
    else if a.precision.Some? && !setup.calibration.Accepts(a.previous.raw) then Err(Uncalibrated)
    else
      var restored: Result<(Joints, Restored), AuditError> :=
        if a.precision.None? then
          Ok((L.ShiftAll(setup.limits.ready, 1.0, setup.calibration.Delta(sample.raw, a.baseline.raw)),
              Restored(ZERO, None, 1.0)))
        else
          RestoreIntent(setup, setup.profile.value, a.precision.value, intent,
                        setup.calibration.Delta(sample.raw, a.previous.raw), a.command);
      match restored
      case Err(e) => Err(e)
      case Ok((expected, p)) =>
        if Distance(expected, intent.q) > 0.000000000001 then Err(IntentDiffers)
        else if !setup.limits.Admits(expected) then Err(OutsideLimits)
        else Ok(a.(previous := sample, intentNs := Some(intent.sourceNs),
                   precision := if a.precision.None? then None else Some(p)))
  }

  /** Check one sent command against the restored intent and the limits. */
  function CheckSent(setup: L.Setup, a: Audit, q: Joints): Result<Audit, AuditError>
    requires setup.Valid()
  {
    if a.intentNs.None? then Err(NoIntent)
    else
      var now := a.intentNs.value;
      var dt := Seconds(now - a.command.createdNs);
      if !(0.0 < dt <= Seconds(setup.limits.freshnessNs)) then Err(CommandTime)
      else if !setup.limits.Admits(q) then Err(OutsideLimits)
      else if a.precision.Some?
              && Distance(FollowAll(setup.sqrt, setup.limits, a.precision.value, a.command, dt), q) > 0.0000000001 then
        Err(CommandDiffers)
      else
        var velocity := VelocityAll(q, a.command, dt);
        if Distance(q, a.command.q) > setup.limits.step + 0.0000000001
           || Peak(velocity) > setup.limits.speed + 0.0000000001
           || Peak(AccelerationAll(velocity, a.command, dt)) > setup.limits.acceleration + 0.00000001 then
          Err(DerivativesExceeded)
        else Ok(a.(command := Command(q, now, velocity)))
  }

  /** The auditor as the source has it: one object whose state advances record by record. */
  class Auditor {
    const setup: L.Setup
    const baseline: L.Sample
    var previous: L.Sample
    var intentNs: Option<int>
    var command: Command
    var precision: Option<Restored>

    ghost function Value(): Audit
      reads this
    {
      Audit(baseline, previous, intentNs, command, precision)
    }

    ghost predicate Valid()
      reads this
    {
      && setup.Valid() && (precision.Some? ==> setup.profile.Some?)
      && |baseline.raw| == 7 && |previous.raw| == 7
    }

    constructor (setup: L.Setup, baseline: L.Sample, startedNs: int)
      requires setup.Valid() && Open(setup, baseline, startedNs).Ok?
      ensures Valid() && this.setup == setup && Open(setup, baseline, startedNs) == Ok(Value())
    {
      this.setup, this.baseline, previous, intentNs := setup, baseline, baseline, None;
      command := Command(setup.limits.ready, startedNs, ZERO);
      precision := if setup.profile.Some? then Some(Restored(setup.limits.ready, None, 1.0)) else None;
    }

    /** A refused record changes nothing. */
    method Intent(intent: Intent) returns (fault: Option<AuditError>)
      requires Valid()
      modifies this
      ensures Valid()
      ensures match CheckIntent(setup, old(Value()), intent)
              case Err(e) => fault == Some(e) && Value() == old(Value())
              case Ok(a) => fault == None && Value() == a
    {
      hide RestoreIntent, L.ShiftAll, Distance;
      var sample := intent.acquisition;
      fault := CheckAcquisition(setup, previous, sample, intent.sourceNs);
      if fault.Some? {
        return;
      }
      var expected: Joints := ZERO;
      var restored: Option<Restored> := None;
      if precision.None? {
        if intent.evidence.Some? {
          return Some(EvidenceUnexpected);
        }
        expected := L.ShiftAll(setup.limits.ready, 1.0, setup.calibration.Delta(sample.raw, baseline.raw));
      } else {
        if !setup.calibration.Accepts(previous.raw) {
          return Some(Uncalibrated);
        }
        var r := Restore(setup, setup.profile.value, precision.value, intent,
                         setup.calibration.Delta(sample.raw, previous.raw), command);
        if r.Err? {
          return Some(r.error);
        }
        expected, restored := r.value.0, Some(r.value.1);
      }
      if Distance(expected, intent.q) > 0.000000000001 {
        return Some(IntentDiffers);
      }
      if !setup.limits.Admits(expected) {
        return Some(OutsideLimits);
      }
      previous, intentNs, precision := sample, Some(intent.sourceNs), restored;
    }

    method Sent(q: Joints) returns (fault: Option<AuditError>)
      requires Valid()
      modifies this
      ensures Valid()
      ensures match CheckSent(setup, old(Value()), q)
              case Err(e) => fault == Some(e) && Value() == old(Value())
              case Ok(a) => fault == None && Value() == a
    {
      hide FollowAll, VelocityAll, AccelerationAll, Distance, Peak;
      if intentNs.None? {
        return Some(NoIntent);
      }
      var now := intentNs.value;
      var dt := Seconds(now - command.createdNs);
      if !(0.0 < dt <= Seconds(setup.limits.freshnessNs)) {
        return Some(CommandTime);
      }
      if !setup.limits.Admits(q) {
        return Some(OutsideLimits);
      }
      if precision.Some? {
        var expected := FollowLoop(setup.sqrt, setup.limits, precision.value, command, dt);
        if Distance(expected, q) > 0.0000000001 {
          return Some(CommandDiffers);
        }
      }
      var velocity := VelocityAll(q, command, dt);
      if Distance(q, command.q) > setup.limits.step + 0.0000000001
         || Peak(velocity) > setup.limits.speed + 0.0000000001
         || Peak(AccelerationAll(velocity, command, dt)) > setup.limits.acceleration + 0.00000001 {
        return Some(DerivativesExceeded);
      }
      fault, command := None, Command(q, now, velocity);
    }
  }

  /** Open an audit on the recorded baseline, or say why not. */
  method OpenAudit(setup: L.Setup, baseline: L.Sample, startedNs: int) returns (r: Result<Auditor, AuditError>)
    requires setup.Valid()
    ensures match Open(setup, baseline, startedNs)
            case Err(e) => r == Err(e)
            case Ok(a) => r.Ok? && fresh(r.value) && r.value.Valid() && r.value.setup == setup && r.value.Value() == a
  {
    if !(0 <= startedNs - baseline.startNs <= MAXIMUM_AGE_NS) {
      return Err(InvalidContext);
    }
    if !setup.calibration.Accepts(baseline.raw) {
      return Err(Uncalibrated);
    }
    var auditor := new Auditor(setup, baseline, startedNs);
    r := Ok(auditor);
  }
}

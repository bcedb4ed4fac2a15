/** The height-dependent gain and the anti-windup contraction of control/precision.py. */
module Precision {
  import opened Prelude
  import opened Model
  import opened Conditioning

  /** One point of the schedule: height above the reference, gain there. */
  datatype Knot = Knot(height: real, gain: real)

  ghost predicate Rising(knots: seq<Knot>) {
    forall i :: 0 <= i < |knots| - 1 ==> knots[i].height < knots[i + 1].height && knots[i].gain < knots[i + 1].gain
  }

  datatype Settings = Settings(referenceZ: real, knots: seq<Knot>, leadSeconds: real, correctionSeconds: real) {
    /** What construction enforces: at least two rising knots with gains in (0, 1]. */
    ghost predicate Valid() {
      && 0.0 < leadSeconds && 0.0 < correctionSeconds
      && |knots| >= 2 && Rising(knots)
      && forall i :: 0 <= i < |knots| ==> 0.0 < knots[i].gain <= 1.0
    }

    function Gain(z: real): real
      requires |knots| >= 1
    {
      var h := z - referenceZ;
      if h <= knots[0].height then knots[0].gain else Interpolate(knots, h)
    }
  }

  function Segment(low: Knot, high: Knot, h: real): real
    requires low.height != high.height
  {
    low.gain + (high.gain - low.gain) * (h - low.height) / (high.height - low.height)
  }

  /** Scan the knots for the first segment whose upper height exceeds h. */
  function Interpolate(knots: seq<Knot>, h: real): real
    requires |knots| >= 1
    decreases |knots|
  {
    if |knots| == 1 then knots[0].gain
    else if h < knots[1].height && knots[0].height != knots[1].height then Segment(knots[0], knots[1], h)
    else Interpolate(knots[1..], h)
  }

  /** What the mapping keeps of one feedback packet. */
  datatype View = View(q: Joints, timestamp: real, receivedNs: int, clock: string)

  function ViewOf(f: Feedback): View {
    View(f.q, f.timestamp, f.receivedNs, f.clock)
  }

  /** The evidence recorded with one intent. */
  datatype Evidence = Evidence(feedback: View, z: real, gain: real, accepted: Option<Joints>)

  /** Settings and the forward kinematics' height of the tool. */
  datatype Profile = Profile(settings: Settings, height: Joints -> real)

  const MAXIMUM_AGE_NS := 100_000_000

  function Observe(profile: Profile, feedback: Option<Feedback>, now: int, freshnessNs: int)
    : Result<Evidence, ControlError>
    requires |profile.settings.knots| >= 1
  {
    if feedback.None? then Err(StaleFeedback)
    else
      var f := feedback.value;
      if !(0 <= now - f.receivedNs <= MinInt(freshnessNs, MAXIMUM_AGE_NS)) then Err(StaleFeedback)
      else
        var z := profile.height(f.q);
        Ok(Evidence(ViewOf(f), z, profile.settings.Gain(z), None))
  }

  /** Signed stopping distance of the braking law at acceleration a. */
  function StoppingDistance(velocity: real, a: real): real
    requires a != 0.0
  {
    velocity * Abs(velocity) / a
  }

  /** Blend a desired position toward the interval that command lead and braking allow. */
  function Contract(desired: real, q: real, stopping: real, lead: real, beta: real): real {
    var brake := q + stopping;
    var feasible := Max(Min(q, brake) - lead, Min(Max(q, brake) + lead, desired));
    desired + beta * (feasible - desired)
  }

  function CorrectionSpeed(limits: Limits, gain: real): real {
    0.9 * limits.speed * gain
  }

  /** The braking the correction counts on: what the least gain of the schedule still allows. */
  function CorrectionAcceleration(limits: Limits, settings: Settings): real
    requires |settings.knots| >= 1
  {
    0.9 * limits.acceleration * settings.knots[0].gain
  }

  /** expm1 written over `exp`. */
  function Expm1(exp: real -> real, x: real): real {
    exp(x) - 1.0
  }

  function Correct(
    exp: real -> real, settings: Settings, limits: Limits, s: Track, candidate: Joints, gain: real, dt: real
  ): Joints
    requires |settings.knots| >= 1 && settings.correctionSeconds != 0.0
    requires CorrectionAcceleration(limits, settings) != 0.0
  {
    ContractAll(candidate, s, CorrectionAcceleration(limits, settings), Lead(settings, limits, gain),
                -Expm1(exp, -dt / settings.correctionSeconds))
  }

  function Lead(settings: Settings, limits: Limits, gain: real): real {
    CorrectionSpeed(limits, gain) * settings.leadSeconds
  }

  function ContractAll(candidate: Joints, s: Track, a: real, lead: real, beta: real): Joints
    requires a != 0.0
  {
    seq(6, (j: int) requires 0 <= j < 6 =>
      Contract(candidate[j], s.target.q[j], StoppingDistance(s.velocity[j], a), lead, beta))
  }

  /** The appending loop of `Profile.correct`. */
  method CorrectAll(
    exp: real -> real, settings: Settings, limits: Limits, s: Track, candidate: Joints, gain: real, dt: real
  ) returns (accepted: Joints)
    requires |settings.knots| >= 1 && settings.correctionSeconds != 0.0
    requires CorrectionAcceleration(limits, settings) != 0.0
    ensures accepted == Correct(exp, settings, limits, s, candidate, gain, dt)
  {
    var acceleration := CorrectionAcceleration(limits, settings);
    var lead := Lead(settings, limits, gain);
    var beta := -Expm1(exp, -dt / settings.correctionSeconds);
    ghost var expected := ContractAll(candidate, s, acceleration, lead, beta);
    var result: seq<real> := [];
    for j := 0 to 6
      invariant result == expected[..j]
    {
      var position :=
        Contract(candidate[j], s.target.q[j], StoppingDistance(s.velocity[j], acceleration), lead, beta);
      assert expected[j] == position;
      result := result + [position];
    }
    accepted := result;
  }

  lemma {:induction false} InterpolateWithin(knots: seq<Knot>, h: real)
    requires |knots| >= 1 && Rising(knots) && h >= knots[0].height
    ensures knots[0].gain <= Interpolate(knots, h) <= knots[|knots| - 1].gain
    decreases |knots|
  {
    if |knots| > 1 {
      assert knots[0].height < knots[0 + 1].height && knots[0].gain < knots[0 + 1].gain;
      RisingTail(knots);
      GainsRise(knots[1..]);
      if h < knots[1].height {
        SegmentWithin(knots[0], knots[1], h);
      } else {
        InterpolateWithin(knots[1..], h);
      }
    }
  }

  lemma RisingTail(knots: seq<Knot>)
    requires |knots| > 1 && Rising(knots)
    ensures Rising(knots[1..])
  {
    forall i | 0 <= i < |knots[1..]| - 1
      ensures knots[1..][i].height < knots[1..][i + 1].height && knots[1..][i].gain < knots[1..][i + 1].gain
    {
      assert knots[i + 1].height < knots[i + 1 + 1].height && knots[i + 1].gain < knots[i + 1 + 1].gain;
    }
  }

  lemma {:induction false} GainsRise(knots: seq<Knot>)
    requires |knots| >= 1 && Rising(knots)
    ensures knots[0].gain <= knots[|knots| - 1].gain
    decreases |knots|
  {
    if |knots| > 1 {
      assert knots[0].gain < knots[0 + 1].gain;
      RisingTail(knots);
      GainsRise(knots[1..]);
    }
  }

  lemma SegmentWithin(low: Knot, high: Knot, h: real)
    requires low.height <= h <= high.height && low.height < high.height && low.gain < high.gain
    ensures low.gain <= Segment(low, high, h) <= high.gain
  {
    Fraction(high.gain - low.gain, h - low.height, high.height - low.height);
  }

  lemma Fraction(rise: real, part: real, whole: real)
    requires rise > 0.0 && 0.0 <= part <= whole && whole > 0.0
    ensures 0.0 <= rise * part / whole <= rise
  {
    var x := rise * part / whole;
    assert x * whole == rise * part;
    ProductOrder(rise, 0.0, part);
    ProductOrder(rise, part, whole);
    if x < 0.0 {
      ProductPositive(-x, whole);
    }
    if x > rise {
      ProductPositive(x - rise, whole);
    }
  }

  /** The schedule stays between its lowest and highest gain, hence in (0, 1]. */
  lemma GainWithin(settings: Settings, z: real)
    requires settings.Valid()
    ensures settings.knots[0].gain <= settings.Gain(z) <= settings.knots[|settings.knots| - 1].gain
    ensures 0.0 < settings.Gain(z) <= 1.0
  {
    GainsRise(settings.knots);
    if z - settings.referenceZ > settings.knots[0].height {
      InterpolateWithin(settings.knots, z - settings.referenceZ);
    }
  }
}

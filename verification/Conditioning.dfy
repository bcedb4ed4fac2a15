/** The acceleration, speed and braking limited tracker of control/conditioning.py. */
module Conditioning {
  import opened Prelude
  import opened Model

  /** The bounded velocity state of one ownership interval. */
  datatype Track = Track(target: Target, velocity: Joints)

  /** Move a velocity toward the request by at most `change`. */
  function Approach(velocity: real, requested: real, change: real): real {
    velocity + Max(-change, Min(change, requested - velocity))
  }

  /** The speed that neither passes the goal in dt nor outruns the braking law, signed like the error. */
  function Requested(speed: real, dt: real, error: real, root: real): real
    requires dt != 0.0
  {
    if error < 0.0 then -Min(Min(speed, -error / dt), root) else Min(Min(speed, error / dt), root)
  }

  /** The square of the speed from which the braking law stops within the error. */
  function Braking(acceleration: real, error: real): real {
    if error < 0.0 then acceleration * -error else acceleration * error
  }

  /** One joint's next velocity, given the braking root: toward the request, within acceleration * dt. */
  function VelocityFrom(speed: real, acceleration: real, dt: real, error: real, root: real, velocity: real): real
    requires dt != 0.0
  {
    Approach(velocity, Requested(speed, dt, error, root), acceleration * dt)
  }

  function NextVelocity(
    sqrt: real -> real, speed: real, acceleration: real, dt: real, error: real, velocity: real
  ): real
    requires dt != 0.0
  {
    VelocityFrom(speed, acceleration, dt, error, sqrt(Braking(acceleration, error)), velocity)
  }

  function Velocities(sqrt: real -> real, limits: Limits, s: Track, desired: Joints, dt: real, gain: real): Joints
    requires dt != 0.0
  {
    seq(6, (j: int) requires 0 <= j < 6 =>
      NextVelocity(sqrt, Speed(limits, gain), Acceleration(limits, gain), dt, desired[j] - s.target.q[j],
          s.velocity[j]))
  }

  function Advance(q: real, velocity: real, dt: real): real {
    q + velocity * dt
  }

  function Moved(q: Joints, velocity: Joints, dt: real): Joints {
    seq(6, (j: int) requires 0 <= j < 6 => Advance(q[j], velocity[j], dt))
  }

  function Speed(limits: Limits, gain: real): real {
    limits.speed * 0.9 * gain
  }

  function Acceleration(limits: Limits, gain: real): real {
    limits.acceleration * 0.9 * gain
  }

  /** The command the tracker issues for one desired pose, or the fault it raises. */
  function Next(sqrt: real -> real, limits: Limits, s: Track, desired: Joints, now: int, gain: real)
    : Result<Track, ControlError>
  {
    var dt := Seconds(now - s.target.createdNs);
    if !limits.Admits(desired) then Err(JointLimit)
    else if !(0.0 < dt <= Seconds(limits.freshnessNs)) then Err(ClockStalled)
    else if !(0.0 < gain <= 1.0) then Err(InvalidGain)
    else
      var velocity := Velocities(sqrt, limits, s, desired, dt, gain);
      var q := Moved(s.target.q, velocity, dt);
      if !limits.Admits(q) then Err(JointLimit)
      else if Distance(q, s.target.q) > limits.step then Err(StepExceeded)
      else Ok(Track(Target(q, s.target.sequence + 1, now, s.target.source), velocity))
  }

  class Conditioner {
    const sqrt: real -> real
    const limits: Limits
    var target: Target
    var velocity: Joints

    ghost function Value(): Track
      reads this
    {
      Track(target, velocity)
    }

    constructor (sqrt: real -> real, limits: Limits, seed: Target)
      ensures this.sqrt == sqrt && this.limits == limits
      ensures Value() == Track(seed, ZERO)
    {
      this.sqrt, this.limits := sqrt, limits;
      target, velocity := seed, ZERO;
    }

    /** The per-joint loop: accumulate the next velocities and positions. */
    method Integrate(desired: Joints, dt: real, gain: real) returns (positions: Joints, velocities: Joints)
      requires dt > 0.0
      ensures velocities == Velocities(sqrt, limits, Value(), desired, dt, gain)
      ensures positions == Moved(target.q, velocities, dt)
    {
      var acceleration, speed := Acceleration(limits, gain), Speed(limits, gain);
      ghost var expected := Velocities(sqrt, limits, Value(), desired, dt, gain);
      var p: seq<real>, w: seq<real> := [], [];
      for j := 0 to 6
        invariant |p| == |w| == j
        invariant forall i :: 0 <= i < j ==> w[i] == expected[i] && p[i] == Advance(target.q[i], expected[i], dt)
      {
        var v := NextVelocity(sqrt, speed, acceleration, dt, desired[j] - target.q[j], velocity[j]);
        assert expected[j] == v;
        p, w := p + [Advance(target.q[j], v, dt)], w + [v];
      }
      positions, velocities := p, w;
    }

    /** A fault leaves the tracker where it was. */
    method Step(desired: Joints, now: int, gain: real) returns (r: Result<Target, ControlError>)
      modifies this
      ensures match Next(sqrt, limits, old(Value()), desired, now, gain)
              case Ok(s) => Value() == s && r == Ok(s.target)
              case Err(e) => Value() == old(Value()) && r == Err(e)
    {
      if !limits.Admits(desired) {
        return Err(JointLimit);
      }
      var dt := Seconds(now - target.createdNs);
      if !(0.0 < dt <= Seconds(limits.freshnessNs)) {
        return Err(ClockStalled);
      }
      if !(0.0 < gain <= 1.0) {
        return Err(InvalidGain);
      }
      var positions, velocities := Integrate(desired, dt, gain);
      var result := Target(positions, target.sequence + 1, now, target.source);
      if !limits.Admits(result.q) {
        return Err(JointLimit);
      }
      if Distance(result.q, target.q) > limits.step {
        return Err(StepExceeded);
      }
      target, velocity := result, velocities;
      return Ok(result);
    }
  }
}

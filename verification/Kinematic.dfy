/** The joint-space route executor of followers/kinematic.py over exact real time. */
module KinematicSteps {
  import opened Prelude
  import opened Model

  const WATCHDOG_SECONDS := 0.5
  const SHORTEST_SECONDS := 0.001
  const SLOPE := 1.875
  const CURVATURE := 5.774

  /** A running move: straight in joint space, blended in time. */
  datatype Route = Route(start: Joints, goal: Joints, began: real, duration: real)

  datatype State = State(
    q: Joints,
    qd: Joints,
    target: Joints,
    route: Option<Route>,
    previous: real,
    heartbeatAt: real,
    gripper: real,
    gripperTarget: real,
    sequence: nat,
    active: bool,
    faulted: bool
  )

  datatype Command =
    | Claim
    | Servo(q: Joints, gripper: Option<real>)
    | Move(q: Joints, gripper: Option<real>, speed: real, acceleration: real)
    | Stop
    | Release
    | Heartbeat

  datatype Refusal = NoHealthyOwner | OutsideLimits | InvalidGripper | RouteLimits

  function Initial(limits: Limits, now: real): State {
    State(limits.ready, ZERO, limits.ready, None, now, now, 0.0, 0.0, 0, false, false)
  }

  /** The quintic blend, from 0 to 1 with zero slope and curvature at both ends. */
  function Blend(u: real): real {
    u * u * u * (10.0 + u * (-15.0 + 6.0 * u))
  }

  /** Long enough for the blend's steepest slope and curvature. */
  function Duration(sqrt: real -> real, distance: real, speed: real, acceleration: real): real
    requires speed != 0.0 && acceleration != 0.0
  {
    Max(SHORTEST_SECONDS, Max(SLOPE * distance / speed, sqrt(CURVATURE * distance / acceleration)))
  }

  function Held(s: State): State {
    s.(target := s.q, gripperTarget := s.gripper, route := None, qd := ZERO)
  }

  predicate GripperInRange(value: real) {
    0.0 <= value <= 255.0
  }

  /** The outcome and the state a command leaves: a refused move has already replaced the target and the route. */
  function Commanded(sqrt: real -> real, limits: Limits, s: State, c: Command, now: real): (Option<Refusal>, State) {
    if c.Claim? then (None, s.(active := true, faulted := false, heartbeatAt := now))
    else if !s.active || s.faulted then (Some(NoHealthyOwner), s)
    else match c
      case Heartbeat => (None, s.(heartbeatAt := now))
      case Stop => (None, Held(s).(heartbeatAt := now))
      case Release => (None, Held(s).(active := false, heartbeatAt := now))
      case Servo(q, gripper) =>
        var refusal := AimRefusal(limits, q, gripper);
        (refusal, if refusal.Some? then s else Aimed(s, q, gripper).(heartbeatAt := now))
      case Move(q, gripper, speed, acceleration) =>
        var refusal := AimRefusal(limits, q, gripper);
        if refusal.Some? then (refusal, s)
        else if !(0.0 < speed <= limits.speed && 0.0 < acceleration <= limits.acceleration) then
          (Some(RouteLimits), Aimed(s, q, gripper))
        else
          (None, Aimed(s, q, gripper).(route := Some(NewRoute(sqrt, s.q, q, now, speed, acceleration)),
              heartbeatAt := now))
  }

  function NewRoute(sqrt: real -> real, from: Joints, to: Joints, now: real, speed: real, acceleration: real): Route
    requires speed != 0.0 && acceleration != 0.0
  {
    Route(from, to, now, Duration(sqrt, Distance(from, to), speed, acceleration))
  }

  function AimRefusal(limits: Limits, q: Joints, gripper: Option<real>): Option<Refusal> {
    if !limits.Admits(q) then Some(OutsideLimits)
    else if gripper.Some? && !GripperInRange(gripper.value) then Some(InvalidGripper)
    else None
  }

  function Aimed(s: State, q: Joints, gripper: Option<real>): State {
    s.(target := q, route := None, gripperTarget := if gripper.Some? then gripper.value else s.gripperTarget)
  }

  /** How much of a route has passed. */
  function Progress(r: Route, now: real): real
    requires r.duration != 0.0
  {
    Min(1.0, Max(0.0, (now - r.began) / r.duration))
  }

  function Along(from: real, to: real, blend: real): real {
    from + (to - from) * blend
  }

  function OnRoute(r: Route, blend: real): Joints {
    seq(6, (j: int) requires 0 <= j < 6 => Along(r.start[j], r.goal[j], blend))
  }

  function Slewed(gripper: real, goal: real, speed: real, dt: real): real {
    gripper + Max(-(speed * dt), Min(speed * dt, goal - gripper))
  }

  function Rates(q: Joints, before: Joints, dt: real): Joints {
    if dt > 0.0 then seq(6, (j: int) requires 0 <= j < 6 => (q[j] - before[j]) / dt) else ZERO
  }

  /** One render update: gripper slew, then the blended pose or the target, and the rates that follow from it. */
  function Advanced(gripperSpeed: real, s: State, now: real): State
    requires s.route.Some? ==> s.route.value.duration != 0.0
  {
    var moved :=
      if !s.active || s.faulted then s
      else
        var slewed := s.(gripper := Slewed(s.gripper, s.gripperTarget, gripperSpeed, Max(0.0, now - s.previous)));
        match s.route
        case None => slewed.(q := s.target)
        case Some(r) =>
          var u := Progress(r, now);
          slewed.(q := OnRoute(r, Blend(u)), route := if u == 1.0 then None else s.route);
    moved.(qd := Rates(moved.q, s.q, now - s.previous), previous := now, sequence := s.sequence + 1)
  }

  function Updated(gripperSpeed: real, s: State, now: real): State
    requires s.route.Some? ==> s.route.value.duration != 0.0
  {
    if s.active && now - s.heartbeatAt > WATCHDOG_SECONDS then Advanced(gripperSpeed, Held(s).(faulted := true), now)
    else Advanced(gripperSpeed, s, now)
  }
}

/** The engine itself: commands and updates overwrite its joint, gripper and watchdog fields. */
module Kinematic {
  import opened Prelude
  import opened Model
  import opened Steps = KinematicSteps

  class Engine {
    const sqrt: real -> real
    const limits: Limits
    const gripperSpeed: real
    var q: Joints
    var qd: Joints
    var target: Joints
    var route: Option<Route>
    var previous: real
    var heartbeatAt: real
    var gripper: real
    var gripperTarget: real
    var sequence: nat
    var active: bool
    var faulted: bool

    ghost function Value(): State
      reads this
    {
      State(q, qd, target, route, previous, heartbeatAt, gripper, gripperTarget, sequence, active, faulted)
    }

    predicate Valid()
      reads this
    {
      route.Some? ==> route.value.duration > 0.0
    }

    constructor (sqrt: real -> real, limits: Limits, now: real, gripperSpeed: real)
      ensures Valid() && Value() == Initial(limits, now)
      ensures this.sqrt == sqrt && this.limits == limits && this.gripperSpeed == gripperSpeed
    {
      this.sqrt, this.limits, this.gripperSpeed := sqrt, limits, gripperSpeed;
      q, qd, target, route := limits.ready, ZERO, limits.ready, None;
      previous, heartbeatAt, gripper, gripperTarget, sequence, active, faulted := now, now, 0.0, 0.0, 0, false, false;
    }

    method Hold()
      requires Valid()
      modifies this
      ensures Valid() && Value() == Held(old(Value()))
    {
      target, gripperTarget, route, qd := q, gripper, None, ZERO;
    }

    method Command(c: Command, now: real) returns (refusal: Option<Refusal>)
      requires Valid()
      modifies this
      ensures Valid()
      ensures (refusal, Value()) == Commanded(sqrt, limits, old(Value()), c, now)
    {
      hide Distance;
      if c.Claim? {
        active, faulted, heartbeatAt := true, false, now;
        return None;
      }
      if !active || faulted {
        return Some(NoHealthyOwner);
      }
      match c {
        case Heartbeat =>
        case Stop =>
          Hold();
        case Release =>
          Hold();
          active := false;
        case Servo(goal, grip) =>
          refusal := Aim(goal, grip);
          if refusal.Some? {
            return;
          }
        case Move(goal, grip, speed, acceleration) =>
          refusal := Aim(goal, grip);
          if refusal.Some? {
            return;
          }
          if !(0.0 < speed <= limits.speed && 0.0 < acceleration <= limits.acceleration) {
            return Some(RouteLimits);
          }
          route := Some(NewRoute(sqrt, q, goal, now, speed, acceleration));
      }
      heartbeatAt := now;
      refusal := None;
    }

    /** Check a servo or move goal and make it the target. */
    method Aim(goal: Joints, grip: Option<real>) returns (refusal: Option<Refusal>)
      requires Valid()
      modifies this
      ensures Valid() && refusal == AimRefusal(limits, goal, grip)
      ensures Value() == if refusal.Some? then old(Value()) else Aimed(old(Value()), goal, grip)
    {
      if !limits.Admits(goal) {
        return Some(OutsideLimits);
      }
      if grip.Some? && !GripperInRange(grip.value) {
        return Some(InvalidGripper);
      }
      target, route := goal, None;
      if grip.Some? {
        gripperTarget := grip.value;
      }
      refusal := None;
    }

    method AdvanceTargets(now: real)
      requires Valid()
      modifies this
      ensures Valid() && Value() == Advanced(gripperSpeed, old(Value()), now)
    {
      hide Blend, Along, Slewed;
      var before := q;
      if active && !faulted {
        gripper := Slewed(gripper, gripperTarget, gripperSpeed, Max(0.0, now - previous));
        if route.Some? {
          var r := route.value;
          var u := Progress(r, now);
          q := Follow(r, Blend(u));
          if u == 1.0 {
            route := None;
          }
        } else {
          q := target;
        }
      }
      qd := Rates(q, before, now - previous);
      previous, sequence := now, sequence + 1;
    }

    /** The per-joint blend. */
    method Follow(r: Route, blend: real) returns (joints: Joints)
      ensures joints == OnRoute(r, blend)
    {
      hide Along;
      ghost var expected := OnRoute(r, blend);
      var p: seq<real> := [];
      for j := 0 to 6
        invariant |p| == j && forall i :: 0 <= i < j ==> p[i] == expected[i]
      {
        p := p + [Along(r.start[j], r.goal[j], blend)];
      }
      joints := p;
    }

    method Update(now: real)
      requires Valid()
      modifies this
      ensures Valid() && Value() == Updated(gripperSpeed, old(Value()), now)
    {
      if active && now - heartbeatAt > WATCHDOG_SECONDS {
        faulted := true;
        Hold();
      }
      AdvanceTargets(now);
    }
  }
}

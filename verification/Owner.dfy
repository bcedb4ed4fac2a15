/** The transitions of the single motion owner of control/owner.py, with every transport outcome as an input. */
module OwnerSteps {
  import opened Prelude
  import opened Model
  import S = Settling
  import A = LeaderAudit

  datatype Phase = Hold | Moving | Following | Stopping | Fault | Closed

  /** What the owner asked of its transport, in order; `Engaged` marks the start of a following interval. */
  datatype Dispatch =
    | Servo(target: Target)
    | Move(q: Joints, speed: real, acceleration: real)
    | Stop(servo: bool)
    | Heartbeat
    | Engaged(seed: Target)

  /** Outcomes of the transport calls one operation may make; a failed read has no packet. */
  datatype Outcome = Outcome(read: Option<Feedback>, heartbeat: bool, move: bool, servo: bool, stop: bool)

  /** Limits, authorized leader and the standstill's stop speed. */
  datatype Setup = Setup(limits: Limits, leader: string, stopSpeed: real) {
    function Policy(): S.Policy {
      S.Policy(limits.freshnessNs, stopSpeed)
    }
  }

  /** The mutable trajectory state, its dispatches, and the packets examined since the last halt. */
  datatype Progress = Progress(
    phase: Phase,
    feedback: Option<Feedback>,
    progressNs: int,
    deadlineNs: int,
    settledNs: Option<int>,
    standstill: S.Window,
    target: Option<Target>,
    velocity: Joints,
    route: seq<Joints>,
    routeSpeed: real,
    routeAcceleration: real,
    movingTo: Option<Joints>,
    log: seq<Dispatch>,
    stopping: seq<S.Observation>
  )

  const INITIAL := Progress(Hold, None, 0, 0, None, S.EMPTY, None, ZERO, [], 0.0, 0.0, None, [], [])

  const RECEIPT_LEAD_NS := 100_000_000
  const SETTLE_NS := 100_000_000
  const MOVE_TIMEOUT_NS := 60_000_000_000

  /** Latch the first fault, revoke queued targets, and dispatch a stop whether or not it succeeds. */
  function Fail(p: Progress): Progress {
    if p.phase.Fault? || p.phase.Closed? then p
    else p.(phase := Fault, route := [], target := None, log := p.log + [Stop(p.phase.Following?)])
  }

  /** Every reason `tick` rejects a packet before refreshing the watchdog. */
  function Rejection(setup: Setup, p: Progress, f: Feedback, now: int): Option<ControlError> {
    var limits := setup.limits;
    var age := now - f.receivedNs;
    var progressed := Progressed(p, f, now);
    if !limits.Admits(f.q) then Some(JointLimit)
    else if !f.motionAllowed then Some(MotionForbidden)
    else if age < -RECEIPT_LEAD_NS || age > limits.freshnessNs then Some(StaleFeedback)
    else if p.feedback.Some? && f.timestamp < p.feedback.value.timestamp then Some(NotAdvancing)
    else if now - progressed > limits.freshnessNs then Some(StaleFeedback)
    else if p.phase.Following? && p.target.Some? && now - p.target.value.createdNs > limits.freshnessNs then
        Some(InputStale)
    else if (p.phase.Moving? || p.phase.Stopping?) && now > p.deadlineNs then Some(TimedOut)
    else None
  }

  /** Host time of the last packet whose controller time advanced. */
  function Progressed(p: Progress, f: Feedback, now: int): int {
    if p.feedback.None? || f.timestamp > p.feedback.value.timestamp then now else p.progressNs
  }

  function ObservationOf(f: Feedback, now: int): S.Observation {
    S.Observation(f.qd, S.Stamp(S.Round(f.timestamp * 1000000000.0), now))
  }

  function NextMove(p: Progress, now: int): Progress
    requires p.route != []
  {
    p.(movingTo := Some(p.route[0]), route := p.route[1..], deadlineNs := now + MOVE_TIMEOUT_NS, settledNs := None,
       log := p.log + [Move(p.route[0], p.routeSpeed, p.routeAcceleration)])
  }

  /** Measured arrival: a stop must be confirmed by the standstill, a move must rest 100 ms at its waypoint. */
  function Settle(setup: Setup, p: Progress, f: Feedback, now: int, moves: bool): Progress {
    if p.phase.Stopping? then
      var x := ObservationOf(f, now);
      var (confirmed, window) := S.Examine(setup.Policy(), p.standstill, x);
      var q := p.(standstill := window, stopping := p.stopping + [x]);
      if confirmed then q.(phase := Hold, movingTo := None) else q
    else
      var stopped := Peak(f.qd) < setup.limits.stoppedSpeed;
      var arrived := p.movingTo.Some? && Distance(f.q, p.movingTo.value) < setup.limits.arrival;
      if p.phase.Moving? && arrived && stopped then
        var since := if p.settledNs.None? then now else p.settledNs.value;
        var q := p.(settledNs := Some(since));
        if now - since < SETTLE_NS then q
        else if q.route == [] then q.(phase := Hold, movingTo := None)
        else if moves then NextMove(q, now)
        else Fail(NextMove(q, now))
      else p.(settledNs := None)
  }

  predicate Ticking(p: Progress) {
    p.phase.Hold? || p.phase.Moving? || p.phase.Following? || p.phase.Stopping?
  }

  function Tick(setup: Setup, p: Progress, e: Outcome, now: int): (Option<ControlError>, Progress) {
    if !Ticking(p) then (Some(WrongState), p)
    else if e.read.None? then (Some(TransportFailed), Fail(p))
    else
      var f := e.read.value;
      var held := p.(feedback := Some(f));
      var fault := Rejection(setup, p, f, now);
      if fault.Some? then
          (fault, Fail(held.(progressNs := if Judged(setup, p, f, now) then Progressed(p, f, now) else p.progressNs)))
      else
        var current := held.(progressNs := Progressed(p, f, now));
        if !e.heartbeat then (Some(TransportFailed), Fail(current.(log := current.log + [Heartbeat])))
        else
          var settled := Settle(setup, current.(log := current.log + [Heartbeat]), f, now, e.move);
          (if settled.phase.Fault? then Some(TransportFailed) else None, settled)
  }

  /** Whether a rejected packet got as far as refreshing the progress clock. */
  predicate Judged(setup: Setup, p: Progress, f: Feedback, now: int) {
    && setup.limits.Admits(f.q) && f.motionAllowed
    && -RECEIPT_LEAD_NS <= now - f.receivedNs <= setup.limits.freshnessNs
    && !(p.feedback.Some? && f.timestamp < p.feedback.value.timestamp)
  }

  function Route(setup: Setup, p: Progress, points: seq<Joints>, start: Joints, now: int, ready: bool, e: Outcome)
    : (Option<ControlError>, Progress)
  {
    var limits := setup.limits;
    if !p.phase.Hold? then (Some(WrongState), p)
    else if points == [] then (Some(InvalidRoute), Fail(p))
    else if !limits.Admits(start) || (exists i :: 0 <= i < |points| && !limits.Admits(points[i])) then
      (Some(JointLimit), Fail(p))
    else if p.feedback.None? || Distance(p.feedback.value.q, start) > limits.arrival then (Some(PoseMismatch), Fail(p))
    else if now - p.feedback.value.receivedNs > limits.freshnessNs then (Some(StaleFeedback), Fail(p))
    else if Peak(p.feedback.value.qd) >= limits.stoppedSpeed then (Some(NotStopped), Fail(p))
    else
      var moving := NextMove(
        p.(route := points, phase := Moving,
           routeSpeed := if ready then limits.readySpeed else limits.speed,
           routeAcceleration := if ready then limits.readyAcceleration else limits.acceleration), now);
      if e.move then (None, moving) else (Some(TransportFailed), Fail(moving))
  }

  function GoReady(setup: Setup, p: Progress, now: int, e: Outcome): (Option<ControlError>, Progress) {
    if p.feedback.None? then (Some(MissingFeedback), p)
    else Route(setup, p, [setup.limits.ready], p.feedback.value.q, now, true, e)
  }

  function EngageFault(setup: Setup, p: Progress, target: Target, now: int): Option<ControlError> {
    var limits := setup.limits;
    if target.source != setup.leader then Some(Unauthorized)
    else if !limits.Admits(target.q) then Some(JointLimit)
    else if p.feedback.None? || Distance(p.feedback.value.q, target.q) > limits.arrival then Some(PoseMismatch)
    else if !(0 <= now - target.createdNs <= limits.freshnessNs) then Some(InputStale)
    else if !(-RECEIPT_LEAD_NS <= now - p.feedback.value.receivedNs <= limits.freshnessNs) then Some(StaleFeedback)
    else if Peak(p.feedback.value.qd) >= limits.stoppedSpeed then Some(NotStopped)
    else None
  }

  function Engage(setup: Setup, p: Progress, target: Target, now: int): (Option<ControlError>, Progress) {
    if !p.phase.Hold? then (Some(WrongState), p)
    else
      var fault := EngageFault(setup, p, target, now);
      if fault.Some? then (fault, Fail(p))
      else (None, p.(target := Some(target), velocity := ZERO, phase := Following, log := p.log + [Engaged(target)]))
  }

  function CommandOf(target: Target, velocity: Joints): A.Command {
    A.Command(target.q, target.createdNs, velocity)
  }

  /** Every reason `follow` refuses a target, given the last one; nothing is clamped. */
  function FollowFault(setup: Setup, last: Target, velocity: Joints, target: Target, now: int): Option<ControlError> {
    var limits := setup.limits;
    if target.source != setup.leader then Some(Unauthorized)
    else if !limits.Admits(target.q) then Some(JointLimit)
    else if target.sequence <= last.sequence || target.createdNs <= last.createdNs then Some(NotAdvancing)
    else if !(0 <= now - target.createdNs <= limits.freshnessNs) then Some(InputStale)
    else
      var dt := Seconds(target.createdNs - last.createdNs);
      if dt > Seconds(limits.freshnessNs) then Some(InputStale)
      else if Distance(target.q, last.q) > limits.step then Some(StepExceeded)
      else
        var measured := A.VelocityAll(target.q, CommandOf(last, velocity), dt);
        if Peak(measured) > limits.speed then Some(VelocityExceeded)
        else if Peak(A.AccelerationAll(measured, CommandOf(last, velocity), dt)) > limits.acceleration then
          Some(AccelerationExceeded)
        else None
  }

  function Follow(setup: Setup, p: Progress, target: Target, now: int, e: Outcome): (Option<ControlError>, Progress) {
    if !p.phase.Following? || p.target.None? then (Some(WrongState), p)
    else
      var fault := FollowFault(setup, p.target.value, p.velocity, target, now);
      if fault.Some? then (fault, Fail(p))
      else
        var sent := p.(log := p.log + [Servo(target)]);
        if !e.servo then (Some(TransportFailed), Fail(sent))
        else
          var dt := Seconds(target.createdNs - p.target.value.createdNs);
          SecondsMonotone(p.target.value.createdNs, target.createdNs);
          (None, sent.(target := Some(target),
                       velocity := A.VelocityAll(target.q, CommandOf(p.target.value, p.velocity), dt)))
  }

  function Halted(p: Progress, now: int): Progress {
    p.(route := [], target := None, phase := Stopping, deadlineNs := now + S.STOP_TIMEOUT_NS,
       settledNs := None, standstill := S.EMPTY, stopping := [],
       log := p.log + [Stop(p.phase.Following?)])
  }

  function Halt(p: Progress, now: int, e: Outcome): (Option<ControlError>, Progress) {
    if !(p.phase.Hold? || p.phase.Moving? || p.phase.Following?) then (Some(WrongState), p)
    else
      var halted := Halted(p, now);
      if e.stop then (None, halted) else (Some(TransportFailed), Fail(halted))
  }

  function Close(p: Progress, closes: bool): Progress {
    var stopped := if p.phase.Hold? || p.phase.Fault? || p.phase.Closed? then p else Fail(p);
    if closes then stopped.(phase := Closed) else stopped
  }
}

/** The motion owner itself: each operation updates the shared trajectory state in place. */
module Owner {
  import opened Prelude
  import opened Model
  import opened Steps = OwnerSteps
  import S = Settling
  import A = LeaderAudit

  class Controller {
    const setup: Setup
    var phase: Phase
    var feedback: Option<Feedback>
    var progressNs: int
    var deadlineNs: int
    var settledNs: Option<int>
    var standstill: S.Standstill
    var target: Option<Target>
    var velocity: Joints
    var route: seq<Joints>
    var routeSpeed: real
    var routeAcceleration: real
    var movingTo: Option<Joints>
    ghost var log: seq<Dispatch>
    ghost var stopping: seq<S.Observation>

    ghost function Value(): Progress
      reads this, standstill
    {
      Progress(phase, feedback, progressNs, deadlineNs, settledNs, standstill.Value(), target, velocity, route,
               routeSpeed, routeAcceleration, movingTo, log, stopping)
    }

    ghost predicate Valid()
      reads this
    {
      standstill.policy == setup.Policy()
    }

    constructor (setup: Setup)
      ensures Valid() && this.setup == setup && Value() == INITIAL && fresh(standstill)
    {
      this.setup := setup;
      phase, feedback, progressNs, deadlineNs, settledNs := Hold, None, 0, 0, None;
      standstill := new S.Standstill(setup.Policy());
      target, velocity, route, routeSpeed, routeAcceleration, movingTo := None, ZERO, [], 0.0, 0.0, None;
      log, stopping := [], [];
    }

    method Fail()
      requires Valid()
      modifies this
      ensures Valid() && Value() == Steps.Fail(old(Value())) && standstill == old(standstill)
    {
      if phase.Fault? || phase.Closed? {
        return;
      }
      log := log + [Stop(phase.Following?)];
      phase, route, target := Fault, [], None;
    }

    method Tick(e: Outcome, now: int) returns (fault: Option<ControlError>)
      requires Valid()
      modifies this, standstill
      ensures Valid() && standstill == old(standstill)
      ensures (fault, Value()) == Steps.Tick(setup, old(Value()), e, now)
    {
      if !(phase.Hold? || phase.Moving? || phase.Following? || phase.Stopping?) {
        return Some(WrongState);
      }
      if e.read.None? {
        Fail();
        return Some(TransportFailed);
      }
      var f := e.read.value;
      var previous := feedback;
      feedback := Some(f);
      fault := Inspect(previous, f, now);
      if fault.Some? {
        Fail();
        return;
      }
      log := log + [Heartbeat];
      if !e.heartbeat {
        Fail();
        return Some(TransportFailed);
      }
      SettleNow(f, now, e.move);
      fault := if phase.Fault? then Some(TransportFailed) else None;
    }

    /** The checks of `tick` between the read and the heartbeat. */
    method Inspect(previous: Option<Feedback>, f: Feedback, now: int) returns (fault: Option<ControlError>)
      requires Valid()
      modifies this`progressNs
      ensures var before := old(Value()).(feedback := previous);
              && fault == Rejection(setup, before, f, now)
              && progressNs == if Judged(setup, before, f, now) then Progressed(before, f, now) else old(progressNs)
    {
      if !setup.limits.Admits(f.q) {
        return Some(JointLimit);
      }
      if !f.motionAllowed {
        return Some(MotionForbidden);
      }
      var age := now - f.receivedNs;
      if age < -RECEIPT_LEAD_NS || age > setup.limits.freshnessNs {
        return Some(StaleFeedback);
      }
      if previous.None? || f.timestamp > previous.value.timestamp {
        progressNs := now;
      } else if f.timestamp < previous.value.timestamp {
        return Some(NotAdvancing);
      }
      if now - progressNs > setup.limits.freshnessNs {
        return Some(StaleFeedback);
      }
      if phase.Following? && target.Some? && now - target.value.createdNs > setup.limits.freshnessNs {
        return Some(InputStale);
      }
      if (phase.Moving? || phase.Stopping?) && now > deadlineNs {
        return Some(TimedOut);
      }
      return None;
    }

    method SettleNow(f: Feedback, now: int, moves: bool)
      requires Valid()
      modifies this, standstill
      ensures Valid() && standstill == old(standstill)
      ensures Value() == Settle(setup, old(Value()), f, now, moves)
    {
      if phase.Stopping? {
        stopping := stopping + [ObservationOf(f, now)];
        var confirmed := standstill.Update(f.qd, f.timestamp, now);
        if confirmed {
          phase, movingTo := Hold, None;
        }
        return;
      }
      var stopped := Peak(f.qd) < setup.limits.stoppedSpeed;
      var arrived := movingTo.Some? && Distance(f.q, movingTo.value) < setup.limits.arrival;
      if phase.Moving? && arrived && stopped {
        if settledNs.None? {
          settledNs := Some(now);
        }
        if now - settledNs.value >= SETTLE_NS {
          if route != [] {
            MoveNext(now);
            if !moves {
              Fail();
            }
          } else {
            phase, movingTo := Hold, None;
          }
        }
      } else {
        settledNs := None;
      }
    }

    method MoveNext(now: int)
      requires Valid() && route != []
      modifies this
      ensures Valid() && standstill == old(standstill) && Value() == NextMove(old(Value()), now)
    {
      movingTo, route := Some(route[0]), route[1..];
      log := log + [Move(movingTo.value, routeSpeed, routeAcceleration)];
      deadlineNs, settledNs := now + MOVE_TIMEOUT_NS, None;
    }

    method Route(points: seq<Joints>, start: Joints, now: int, ready: bool, e: Outcome)
      returns (fault: Option<ControlError>)
      requires Valid()
      modifies this
      ensures Valid() && standstill == old(standstill)
      ensures (fault, Value()) == Steps.Route(setup, old(Value()), points, start, now, ready, e)
    {
      if !phase.Hold? {
        return Some(WrongState);
      }
      fault := RouteFault(points, start, now);
      if fault.Some? {
        Fail();
        return;
      }
      route, phase := points, Moving;
      routeSpeed := if ready then setup.limits.readySpeed else setup.limits.speed;
      routeAcceleration := if ready then setup.limits.readyAcceleration else setup.limits.acceleration;
      MoveNext(now);
      if !e.move {
        Fail();
        return Some(TransportFailed);
      }
    }

    function RouteFault(points: seq<Joints>, start: Joints, now: int): Option<ControlError>
      reads this
    {
      var limits := setup.limits;
      if points == [] then Some(InvalidRoute)
      else if !limits.Admits(start) || (exists i :: 0 <= i < |points| && !limits.Admits(points[i])) then
          Some(JointLimit)
      else if feedback.None? || Distance(feedback.value.q, start) > limits.arrival then Some(PoseMismatch)
      else if now - feedback.value.receivedNs > limits.freshnessNs then Some(StaleFeedback)
      else if Peak(feedback.value.qd) >= limits.stoppedSpeed then Some(NotStopped)
      else None
    }

    method Engage(target: Target, now: int) returns (fault: Option<ControlError>)
      requires Valid()
      modifies this
      ensures Valid() && standstill == old(standstill)
      ensures (fault, Value()) == Steps.Engage(setup, old(Value()), target, now)
    {
      if !phase.Hold? {
        return Some(WrongState);
      }
      var limits := setup.limits;
      if target.source != setup.leader {
        fault := Some(Unauthorized);
      } else if !limits.Admits(target.q) {
        fault := Some(JointLimit);
      } else if feedback.None? || Distance(feedback.value.q, target.q) > limits.arrival {
        fault := Some(PoseMismatch);
      } else if !(0 <= now - target.createdNs <= limits.freshnessNs) {
        fault := Some(InputStale);
      } else if !(-RECEIPT_LEAD_NS <= now - feedback.value.receivedNs <= limits.freshnessNs) {
        fault := Some(StaleFeedback);
      } else if Peak(feedback.value.qd) >= limits.stoppedSpeed {
        fault := Some(NotStopped);
      } else {
        fault := None;
      }
      if fault.Some? {
        Fail();
        return;
      }
      this.target, velocity, phase := Some(target), ZERO, Following;
      log := log + [Engaged(target)];
    }

    method Follow(target: Target, now: int, e: Outcome) returns (fault: Option<ControlError>)
      requires Valid()
      modifies this
      ensures Valid() && standstill == old(standstill)
      ensures (fault, Value()) == Steps.Follow(setup, old(Value()), target, now, e)
    {
      if !phase.Following? || this.target.None? {
        return Some(WrongState);
      }
      hide A.VelocityAll, A.AccelerationAll, Distance, Peak;
      var last, limits := this.target.value, setup.limits;
      fault := FollowFault(setup, last, velocity, target, now);
      if fault.Some? {
        Fail();
        return;
      }
      SecondsMonotone(last.createdNs, target.createdNs);
      log := log + [Servo(target)];
      if !e.servo {
        Fail();
        return Some(TransportFailed);
      }
      velocity := A.VelocityAll(target.q, CommandOf(last, velocity), Seconds(target.createdNs - last.createdNs));
      this.target := Some(target);
    }

    method Halt(now: int, e: Outcome) returns (fault: Option<ControlError>)
      requires Valid()
      modifies this
      ensures Valid() && (old(phase.Stopping?) ==> standstill == old(standstill))
      ensures (fault, Value()) == Steps.Halt(old(Value()), now, e)
    {
      if !(phase.Hold? || phase.Moving? || phase.Following?) {
        return Some(WrongState);
      }
      var empty := new S.Standstill(setup.Policy());
      ghost var before := Value();
      Revoke(now, empty);
      assert Value() == Steps.Halted(before, now);
      fault := None;
      if !e.stop {
        Fail();
        fault := Some(TransportFailed);
      }
    }

    /** Revoke following and every queued target, and start a new standstill window. */
    method Revoke(now: int, empty: S.Standstill)
      requires Valid() && empty.policy == setup.Policy() && empty.Value() == S.EMPTY
      modifies this
      ensures Valid() && standstill == empty && Value() == Halted(old(Value()), now)
    {
      ghost var expected := Halted(Value(), now);
      log := log + [Stop(phase.Following?)];
      assert log == expected.log;
      route, target, phase, deadlineNs, settledNs := [], None, Stopping, now + S.STOP_TIMEOUT_NS, None;
      standstill, stopping := empty, [];
      assert standstill.Value() == expected.standstill;
      assert Value() == expected;
    }

    method Close(closes: bool)
      requires Valid()
      modifies this
      ensures Valid() && Value() == Steps.Close(old(Value()), closes)
    {
      if !(phase.Hold? || phase.Fault? || phase.Closed?) {
        Fail();
      }
      if closes {
        phase := Closed;
      }
    }
  }
}

/** Safety of the motion owner over every sequence of operations and transport outcomes. */
module OwnerProofs {
  import opened Prelude
  import opened Model
  import opened OwnerSteps
  import S = Settling
  import A = LeaderAudit
  import C = Conditioning
  import T = AuditTheorem

  /** One call on the owner, with the outcomes of the transport calls it makes. */
  datatype Operation =
    | Ticked(e: Outcome, now: int)
    | Routed(points: seq<Joints>, start: Joints, now: int, e: Outcome)
    | Readied(now: int, e: Outcome)
    | Engaging(target: Target, now: int)
    | Followed(target: Target, now: int, e: Outcome)
    | Halting(now: int, e: Outcome)
    | Closing(closes: bool)

  function Apply(setup: Setup, p: Progress, op: Operation): Progress {
    match op
    case Ticked(e, now) => Tick(setup, p, e, now).1
    case Routed(points, start, now, e) => Route(setup, p, points, start, now, false, e).1
    case Readied(now, e) => GoReady(setup, p, now, e).1
    case Engaging(target, now) => Engage(setup, p, target, now).1
    case Followed(target, now, e) => Follow(setup, p, target, now, e).1
    case Halting(now, e) => Halt(p, now, e).1
    case Closing(closes) => Close(p, closes)
  }

  function Run(setup: Setup, p: Progress, ops: seq<Operation>): Progress
    decreases |ops|
  {
    if ops == [] then p else Run(setup, Apply(setup, p, ops[0]), ops[1..])
  }

  // The live following interval of a dispatch log.

  predicate Posed(d: Dispatch) {
    d.Servo? || d.Engaged?
  }

  function Pose(d: Dispatch): Target
    requires Posed(d)
  {
    if d.Servo? then d.target else d.seed
  }

  /** The last target of the following interval still open at the end of the log. */
  function Last(log: seq<Dispatch>): Option<Target> {
    if log == [] then None
    else
      var d := log[|log| - 1];
      if Posed(d) then Some(Pose(d)) else if d.Heartbeat? then Last(log[..|log| - 1]) else None
  }

  /** How far a joint may move at a speed in integer nanoseconds. */
  function Travel(speed: real, ns: int): real {
    speed * Seconds(ns)
  }

  lemma TravelAdds(speed: real, x: int, y: int)
    ensures Travel(speed, x + y) == Travel(speed, x) + Travel(speed, y)
  {
  }

  /** A later target of the same interval: newer, numbered higher, and no faster than the speed limit. */
  ghost predicate Paced(speed: real, a: Target, b: Target) {
    && a.createdNs < b.createdNs && a.sequence < b.sequence
    && forall j :: 0 <= j < 6 ==> Abs(b.q[j] - a.q[j]) <= Travel(speed, b.createdNs - a.createdNs)
  }

  lemma PacedChain(speed: real, a: Target, b: Target, c: Target)
    requires Paced(speed, a, b) && Paced(speed, b, c)
    ensures Paced(speed, a, c)
  {
    hide Travel;
    TravelAdds(speed, b.createdNs - a.createdNs, c.createdNs - b.createdNs);
    forall j | 0 <= j < 6
      ensures Abs(c.q[j] - a.q[j]) <= Travel(speed, c.createdNs - a.createdNs)
    {
      assert Abs(b.q[j] - a.q[j]) <= Travel(speed, b.createdNs - a.createdNs);
      assert Abs(c.q[j] - b.q[j]) <= Travel(speed, c.createdNs - b.createdNs);
    }
  }

  /** Every servo dispatch continues an open interval at a bounded pace, inside the joint limits. */
  ghost predicate Linked(setup: Setup, log: seq<Dispatch>) {
    forall j :: 0 <= j < |log| && log[j].Servo? ==>
      && Last(log[..j]).Some?
      && Paced(setup.limits.speed, Last(log[..j]).value, log[j].target)
      && setup.limits.Admits(log[j].target.q)
  }

  lemma LinkedAppend(setup: Setup, log: seq<Dispatch>, d: Dispatch)
    requires Linked(setup, log)
    requires d.Servo? ==> Last(log).Some? && Paced(setup.limits.speed, Last(log).value, d.target)
                          && setup.limits.Admits(d.target.q)
    ensures Linked(setup, log + [d])
    ensures Last(log + [d]) == if Posed(d) then Some(Pose(d)) else if d.Heartbeat? then Last(log) else None
  {
    var all := log + [d];
    assert all[..|log|] == log;
    forall j | 0 <= j < |all| && all[j].Servo?
      ensures Last(all[..j]).Some? && Paced(setup.limits.speed, Last(all[..j]).value, all[j].target)
              && setup.limits.Admits(all[j].target.q)
    {
      if j < |log| {
        assert all[..j] == log[..j] && all[j] == log[j];
      }
    }
  }

  /** Following exactly while an interval is open, and always at its last target. */
  ghost predicate Sound(setup: Setup, p: Progress) {
    && Linked(setup, p.log)
    && (if p.phase.Following? then p.target.Some? && p.target == Last(p.log) else Last(p.log).None?)
    && (p.phase.Stopping? ==> p.standstill == S.Replay(setup.Policy(), p.stopping))
  }

  lemma FailSound(setup: Setup, p: Progress)
    requires Linked(setup, p.log) && (p.phase.Fault? || p.phase.Closed? ==> Last(p.log).None?)
    ensures Sound(setup, Fail(p))
  {
    LinkedAppend(setup, p.log, Stop(p.phase.Following?));
  }

  lemma MoveSound(setup: Setup, p: Progress, now: int)
    requires Linked(setup, p.log) && p.route != [] && p.phase.Moving?
    ensures Sound(setup, NextMove(p, now))
    ensures Linked(setup, NextMove(p, now).log)
  {
    LinkedAppend(setup, p.log, Move(p.route[0], p.routeSpeed, p.routeAcceleration));
  }

  lemma SettleSound(setup: Setup, p: Progress, f: Feedback, now: int, moves: bool)
    requires Sound(setup, p)
    ensures Sound(setup, Settle(setup, p, f, now, moves))
  {
    hide S.Examine, Distance, Peak;
    if p.phase.Stopping? {
      var x := ObservationOf(f, now);
      assert (p.stopping + [x])[..|p.stopping|] == p.stopping;
    } else if p.phase.Moving? {
      var since := if p.settledNs.None? then now else p.settledNs.value;
      var q := p.(settledNs := Some(since));
      if q.route != [] {
        MoveSound(setup, q, now);
        FailSound(setup, NextMove(q, now));
      }
    }
  }

  lemma TickSound(setup: Setup, p: Progress, e: Outcome, now: int)
    requires Sound(setup, p)
    ensures Sound(setup, Tick(setup, p, e, now).1)
  {
    hide Linked, Last, Settle, Fail, S.Replay, Rejection, Judged, Progressed;
    if Ticking(p) {
      FailSound(setup, p);
      if e.read.Some? {
        var f := e.read.value;
        var held := p.(feedback := Some(f));
        FailSound(setup, held.(progressNs := Progressed(p, f, now)));
        FailSound(setup, held);
        var current := held.(progressNs := Progressed(p, f, now));
        LinkedAppend(setup, p.log, Heartbeat);
        FailSound(setup, current.(log := current.log + [Heartbeat]));
        SettleSound(setup, current.(log := current.log + [Heartbeat]), f, now, e.move);
      }
    }
  }

  lemma RouteSound(setup: Setup, p: Progress, points: seq<Joints>, start: Joints, now: int, ready: bool, e: Outcome)
    requires Sound(setup, p)
    ensures Sound(setup, Route(setup, p, points, start, now, ready, e).1)
  {
    hide Linked, Last, Fail, S.Replay, Distance, Peak;
    FailSound(setup, p);
    if p.phase.Hold? && points != [] {
      var loaded := p.(route := points, phase := Moving,
                       routeSpeed := if ready then setup.limits.readySpeed else setup.limits.speed,
                       routeAcceleration := if ready then setup.limits.readyAcceleration
                                             else setup.limits.acceleration);
      MoveSound(setup, loaded, now);
      FailSound(setup, NextMove(loaded, now));
    }
  }

  /** An accepted target is newer, no faster than the limit, and inside the joint limits. */
  lemma AcceptedPaced(setup: Setup, last: Target, velocity: Joints, target: Target, now: int)
    requires FollowFault(setup, last, velocity, target, now).None?
    ensures Paced(setup.limits.speed, last, target) && setup.limits.Admits(target.q)
  {
    hide A.VelocityAll, A.AccelerationAll, Peak, Distance, Travel;
    var ns := target.createdNs - last.createdNs;
    SecondsMonotone(0, ns);
    var measured := A.VelocityAll(target.q, CommandOf(last, velocity), Seconds(ns));
    PeakWithin(measured, setup.limits.speed);
    forall j | 0 <= j < 6
      ensures Abs(target.q[j] - last.q[j]) <= Travel(setup.limits.speed, ns)
    {
      assert Abs(measured[j]) <= setup.limits.speed;
      MeasuredJoint(last, velocity, target, ns, j);
      MovedWithin(target.q[j], last.q[j], ns, setup.limits.speed);
    }
  }

  lemma MeasuredJoint(last: Target, velocity: Joints, target: Target, ns: int, j: nat)
    requires Seconds(ns) != 0.0 && j < 6
    ensures A.VelocityAll(target.q, CommandOf(last, velocity), Seconds(ns))[j]
            == A.Velocity(target.q[j], last.q[j], Seconds(ns))
  {
    hide A.Velocity, Seconds;
  }

  lemma MovedWithin(q: real, before: real, ns: int, bound: real)
    requires Seconds(ns) > 0.0 && Abs(A.Velocity(q, before, Seconds(ns))) <= bound
    ensures Abs(q - before) <= Travel(bound, ns)
  {
    QuotientWithin(q - before, Seconds(ns), bound);
  }

  lemma QuotientWithin(x: real, dt: real, bound: real)
    requires dt > 0.0 && Abs(x / dt) <= bound
    ensures Abs(x) <= bound * dt
  {
    var z := x / dt;
    assert z * dt == x;
    ProductOrder(dt, z, bound);
    ProductOrder(dt, -bound, z);
  }

  lemma FollowSound(setup: Setup, p: Progress, target: Target, now: int, e: Outcome)
    requires Sound(setup, p)
    ensures Sound(setup, Follow(setup, p, target, now, e).1)
  {
    hide Linked, Last, Fail, S.Replay, FollowFault, Paced, A.VelocityAll;
    FailSound(setup, p);
    if p.phase.Following? && FollowFault(setup, p.target.value, p.velocity, target, now).None? {
      AcceptedPaced(setup, p.target.value, p.velocity, target, now);
      LinkedAppend(setup, p.log, Servo(target));
      FailSound(setup, p.(log := p.log + [Servo(target)]));
    }
  }

  lemma ApplySound(setup: Setup, p: Progress, op: Operation)
    requires Sound(setup, p)
    ensures Sound(setup, Apply(setup, p, op))
  {
    hide Linked, Last, Fail, S.Replay, Tick, Route, Follow, EngageFault;
    match op
    case Ticked(e, now) => TickSound(setup, p, e, now);
    case Routed(points, start, now, e) => RouteSound(setup, p, points, start, now, false, e);
    case Readied(now, e) =>
      if p.feedback.Some? {
        RouteSound(setup, p, [setup.limits.ready], p.feedback.value.q, now, true, e);
      }
    case Engaging(target, now) =>
      FailSound(setup, p);
      LinkedAppend(setup, p.log, Engaged(target));
    case Followed(target, now, e) => FollowSound(setup, p, target, now, e);
    case Halting(now, e) =>
      HaltSound(setup, p, now, e);
    case Closing(closes) => CloseSound(setup, p, closes);
  }

  lemma CloseSound(setup: Setup, p: Progress, closes: bool)
    requires Sound(setup, p)
    ensures Sound(setup, Close(p, closes))
  {
    hide Linked, Last;
    FailSound(setup, p);
  }

  lemma InitialSound(setup: Setup)
    ensures Sound(setup, INITIAL)
  {
  }

  lemma HaltSound(setup: Setup, p: Progress, now: int, e: Outcome)
    requires Sound(setup, p)
    ensures Sound(setup, Halt(p, now, e).1)
  {
    hide Linked, Last, Fail;
    LinkedAppend(setup, p.log, Stop(p.phase.Following?));
    FailSound(setup, Halted(p, now));
  }

  lemma {:induction false} RunSound(setup: Setup, p: Progress, ops: seq<Operation>)
    requires Sound(setup, p)
    ensures Sound(setup, Run(setup, p, ops))
    decreases |ops|
  {
    hide Sound, Apply;
    if ops != [] {
      ApplySound(setup, p, ops[0]);
      RunSound(setup, Apply(setup, p, ops[0]), ops[1..]);
    }
  }

  // What a sound log means.

  /** Without a new engagement in between, an open interval descends from every earlier target, and not from a stop. */
  lemma {:induction false} Descends(setup: Setup, log: seq<Dispatch>, i: nat, j: nat)
    requires Linked(setup, log) && i < j <= |log| && Last(log[..j]).Some?
    requires forall k :: i < k < j ==> !log[k].Engaged?
    ensures !log[i].Stop? && !log[i].Move?
    ensures Posed(log[i]) ==> Last(log[..j]).value == Pose(log[i])
                              || Paced(setup.limits.speed, Pose(log[i]), Last(log[..j]).value)
    decreases j
  {
    hide Paced;
    var front := log[..j];
    assert front[..j - 1] == log[..j - 1] && front[j - 1] == log[j - 1];
    if i < j - 1 {
      if log[j - 1].Servo? {
        Descends(setup, log, i, j - 1);
        if Posed(log[i]) && Last(log[..j - 1]).value != Pose(log[i]) {
          PacedChain(setup.limits.speed, Pose(log[i]), Last(log[..j - 1]).value, log[j - 1].target);
        }
      } else {
        Descends(setup, log, i, j - 1);
      }
    }
  }

  /**
   * Over every run: two targets of one following interval never differ by more than speed times the time between
   * them, on any joint, and after a stop no servo target is dispatched until a new engagement.
   */
  lemma FollowingIsPaced(setup: Setup, ops: seq<Operation>, i: nat, j: nat)
    requires var log := Run(setup, INITIAL, ops).log;
             i < j < |log| && log[j].Servo? && forall k :: i < k < j ==> !log[k].Engaged?
    ensures var log := Run(setup, INITIAL, ops).log;
            && !log[i].Stop? && !log[i].Move?
            && setup.limits.Admits(log[j].target.q)
            && (Posed(log[i]) ==> Paced(setup.limits.speed, Pose(log[i]), log[j].target))
  {
    hide Paced, Run;
    var log := Run(setup, INITIAL, ops).log;
    InitialSound(setup);
    RunSound(setup, INITIAL, ops);
    Descends(setup, log, i, j);
    if Posed(log[i]) && Last(log[..j]).value != Pose(log[i]) {
      PacedChain(setup.limits.speed, Pose(log[i]), Last(log[..j]).value, log[j].target);
    }
  }

  /** A faulted or closed owner dispatches nothing more, whatever is called on it. */
  lemma {:induction false} FaultIsFinal(setup: Setup, p: Progress, ops: seq<Operation>)
    requires p.phase.Fault? || p.phase.Closed?
    ensures var q := Run(setup, p, ops); q.log == p.log && (q.phase.Fault? || q.phase.Closed?)
    decreases |ops|
  {
    if ops != [] {
      FaultIsFinal(setup, Apply(setup, p, ops[0]), ops[1..]);
    }
  }

  /**
   * In every reachable stopping state, a tick ends in hold exactly when its packet is accepted, the watchdog is
   * refreshed, and the packets examined since the halt end in a stationary run.
   */
  lemma HoldOnlyAfterStandstill(setup: Setup, ops: seq<Operation>, e: Outcome, now: int)
    requires Run(setup, INITIAL, ops).phase.Stopping?
    ensures var p := Run(setup, INITIAL, ops);
            Tick(setup, p, e, now).1.phase.Hold? <==>
              && e.read.Some? && Rejection(setup, p, e.read.value, now).None? && e.heartbeat
              && S.Stationary(setup.Policy(), p.stopping + [ObservationOf(e.read.value, now)])
  {
    hide Run, Linked, Last, Rejection, Judged, Progressed, S.Examine, S.Stationary, S.Replay;
    var p := Run(setup, INITIAL, ops);
    InitialSound(setup);
    RunSound(setup, INITIAL, ops);
    if e.read.Some? {
      S.ConfirmsExactly(setup.Policy(), p.stopping, ObservationOf(e.read.value, now));
    }
  }

  /** Only a tick takes a stopping owner to hold. */
  lemma OnlyTicksHold(setup: Setup, p: Progress, op: Operation)
    requires p.phase.Stopping? && Apply(setup, p, op).phase.Hold?
    ensures op.Ticked?
  {
  }

  // The conditioner in front of the owner.

  /** One control period: a tick, a conditioned command, and its dispatch. */
  datatype Period = Period(e: Outcome, tickAt: int, goal: Joints, now: int, gain: real, servo: Outcome, followAt: int)

  datatype Cause = TickRefused | ConditionerRefused | FollowRefused

  /** Tick, condition and follow for each period until something refuses. */
  function Drive(sqrt: real -> real, setup: Setup, p: Progress, s: C.Track, periods: seq<Period>)
    : Result<(Progress, C.Track), Cause>
    decreases |periods|
  {
    if periods == [] then Ok((p, s))
    else
      var t := periods[0];
      var (refused, ticked) := Tick(setup, p, t.e, t.tickAt);
      if refused.Some? then Err(TickRefused)
      else
        match C.Next(sqrt, setup.limits, s, t.goal, t.now, t.gain)
        case Err(_) => Err(ConditionerRefused)
        case Ok(next) =>
          var (fault, followed) := Follow(setup, ticked, next.target, t.followAt, t.servo);
          if fault.Some? then Err(FollowRefused) else Drive(sqrt, setup, followed, next, periods[1..])
  }

  /** The owner is at the conditioner's own target and velocity. */
  ghost predicate InStep(setup: Setup, p: Progress, s: C.Track) {
    && p.phase.Following? && p.target == Some(s.target) && p.velocity == s.velocity
    && s.target.source == setup.leader && T.Slow(setup.limits, s)
  }

  /** Dispatched while fresh, over a transport that accepts it. */
  predicate Prompt(setup: Setup, t: Period) {
    0 <= t.followAt - t.now <= setup.limits.freshnessNs && t.servo.servo
  }

  lemma TickKeepsStep(setup: Setup, p: Progress, s: C.Track, e: Outcome, now: int)
    requires InStep(setup, p, s) && Tick(setup, p, e, now).0.None?
    ensures InStep(setup, Tick(setup, p, e, now).1, s)
  {
    hide Rejection, T.Slow, Distance, Peak;
  }

  lemma FollowKeepsStep(sqrt: real -> real, setup: Setup, p: Progress, s: C.Track, t: Period)
    requires IsSqrt(sqrt) && setup.limits.Valid() && InStep(setup, p, s) && Prompt(setup, t)
    requires C.Next(sqrt, setup.limits, s, t.goal, t.now, t.gain).Ok?
    ensures var next := C.Next(sqrt, setup.limits, s, t.goal, t.now, t.gain).value;
            var (fault, followed) := Follow(setup, p, next.target, t.followAt, t.servo);
            fault.None? && InStep(setup, followed, next)
  {
    var next := C.Next(sqrt, setup.limits, s, t.goal, t.now, t.gain).value;
    var dt := Seconds(t.now - s.target.createdNs);
    assert next.target.sequence == s.target.sequence + 1 && next.target.source == s.target.source by {
      hide C.Velocities, C.Moved, Distance;
    }
    hide C.Next, A.VelocityAll, A.AccelerationAll, Distance, Peak, T.Slow, IsSqrt;
    T.NextFacts(sqrt, setup.limits, s, t.goal, t.now, t.gain);
    T.IssuedDerivatives(sqrt, setup.limits, s, t.goal, t.now, t.gain);
    assert CommandOf(s.target, s.velocity) == T.CommandOf(s);
  }

  /**
   * Every command the conditioner issues, at any gain it admits and toward any goals, passes every check of the
   * owner engaged at its seed, and the owner ends at the conditioner's own target and velocity.
   */
  lemma {:induction false} ConditionedAlwaysFollowed(
    sqrt: real -> real, setup: Setup, p: Progress, s: C.Track, periods: seq<Period>
  )
    requires IsSqrt(sqrt) && setup.limits.Valid() && InStep(setup, p, s)
    requires forall i :: 0 <= i < |periods| ==> Prompt(setup, periods[i])
    ensures Drive(sqrt, setup, p, s, periods) != Err(FollowRefused)
    ensures Drive(sqrt, setup, p, s, periods).Ok? ==>
              InStep(setup, Drive(sqrt, setup, p, s, periods).value.0, Drive(sqrt, setup, p, s, periods).value.1)
    decreases |periods|
  {
    hide Tick, Follow, C.Next, IsSqrt, T.Slow;
    if periods != [] {
      var t := periods[0];
      var (refused, ticked) := Tick(setup, p, t.e, t.tickAt);
      if refused.None? && C.Next(sqrt, setup.limits, s, t.goal, t.now, t.gain).Ok? {
        TickKeepsStep(setup, p, s, t.e, t.tickAt);
        FollowKeepsStep(sqrt, setup, ticked, s, t);
        var next := C.Next(sqrt, setup.limits, s, t.goal, t.now, t.gain).value;
        var (fault, followed) := Follow(setup, ticked, next.target, t.followAt, t.servo);
        ConditionedAlwaysFollowed(sqrt, setup, followed, next, periods[1..]);
      }
    }
  }

  /** Engaging at the conditioner's seed puts the two in step. */
  lemma EngagedInStep(setup: Setup, p: Progress, seed: Target, now: int)
    requires setup.limits.Valid() && Engage(setup, p, seed, now).0.None?
    ensures InStep(setup, Engage(setup, p, seed, now).1, C.Track(seed, ZERO))
  {
  }
}

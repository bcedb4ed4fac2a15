/** The follower service of followers/local.py: which packets reach the engine, and what follows a refusal. */
module ServiceSteps {
  import opened Prelude
  import opened Model
  import opened KinematicSteps

  const SERVO_AGE_NS := 100_000_000
  const AGE_NS := 500_000_000

  /** One received line at the time it is handled: not a valid envelope, or an owner's numbered command. */
  datatype Line =
    | Malformed
    | Packet(ageNs: int, epoch: string, sequence: nat, command: Command, now: real)

  /** How the reads of one reception end without lines. */
  datatype Loss = Disconnected | Oversized

  datatype Service = Service(engine: State, connected: bool, epoch: Option<string>, sequence: int)

  function Opened(limits: Limits, now: real): Service {
    Service(Initial(limits, now), false, None, -1)
  }

  /** Revoke execution and forget the owner. */
  function Released(s: Service): Service {
    Service(Held(s.engine).(active := false), false, None, -1)
  }

  /** Latch a fault and hold: what every error but a lost connection leads to. */
  function Failed(s: Service): Service {
    s.(engine := Held(s.engine).(faulted := true))
  }

  function AgeLimit(c: Command): int {
    if c.Servo? then SERVO_AGE_NS else AGE_NS
  }

  /** The service once a packet may name a new owner, or nothing when the packet is to be skipped. */
  function Heeded(s: Service, line: Line): Option<Service>
    requires line.Packet?
  {
    if !(0 <= line.ageNs <= AgeLimit(line.command)) || (line.command.Claim? && s.epoch.Some?) then None
    else Some(if line.command.Claim? then s.(epoch := Some(line.epoch)) else s)
  }

  /** Whether the engine is told this packet at all. */
  predicate Numbered(s: Service, line: Line)
    requires line.Packet?
  {
    s.epoch == Some(line.epoch) && line.sequence > s.sequence
  }

  /** One line, and whether the reception goes on after it. */
  function Handled(sqrt: real -> real, limits: Limits, s: Service, line: Line): (Service, bool) {
    if line.Malformed? then (Failed(s), false)
    else match Heeded(s, line)
      case None => (s, true)
      case Some(owned) =>
        if !Numbered(owned, line) then (owned, true)
        else
          var (refusal, engine) := Commanded(sqrt, limits, owned.engine, line.command, line.now);
          var told := owned.(sequence := line.sequence, engine := engine);
          if refusal.Some? then (Failed(told), false)
          else if line.command.Release? then (Released(told), false)
          else (told, true)
  }

  function HandledAll(sqrt: real -> real, limits: Limits, s: Service, lines: seq<Line>): Service
    decreases |lines|
  {
    if lines == [] then s
    else
      var (t, goes) := Handled(sqrt, limits, s, lines[0]);
      if goes then HandledAll(sqrt, limits, t, lines[1..]) else t
  }

  /** One reception: nothing without a peer, otherwise its lines in order until one ends it. */
  function Received(
    sqrt: real -> real, limits: Limits, s: Service, accepts: bool, read: Result<seq<Line>, Loss>
  ): Service {
    if !s.connected && !accepts then s
    else
      var met := s.(connected := true);
      match read
      case Err(Disconnected) => Released(met)
      case Err(Oversized) => Failed(met)
      case Ok(lines) => HandledAll(sqrt, limits, met, lines)
  }
}

/** The service object over its engine, updated in place. */
module FollowerService {
  import opened Prelude
  import opened Model
  import K = KinematicSteps
  import Kinematic
  import opened Steps = ServiceSteps

  class Server {
    const engine: Kinematic.Engine
    var connected: bool
    var epoch: Option<string>
    var sequence: int

    ghost function Value(): Service
      reads this, engine
    {
      Service(engine.Value(), connected, epoch, sequence)
    }

    predicate Valid()
      reads this, engine
    {
      engine.Valid()
    }

    constructor (sqrt: real -> real, limits: Limits, now: real, gripperSpeed: real)
      ensures Valid() && Value() == Opened(limits, now) && fresh(engine)
      ensures engine.sqrt == sqrt && engine.limits == limits && engine.gripperSpeed == gripperSpeed
    {
      engine := new Kinematic.Engine(sqrt, limits, now, gripperSpeed);
      connected, epoch, sequence := false, None, -1;
    }

    method Release()
      requires Valid()
      modifies this, engine
      ensures Valid() && Value() == Released(old(Value()))
    {
      engine.Hold();
      engine.active := false;
      connected, epoch, sequence := false, None, -1;
    }

    method Fail()
      requires Valid()
      modifies engine
      ensures Valid() && Value() == Failed(old(Value()))
    {
      engine.faulted := true;
      engine.Hold();
    }

    method Handle(line: Line) returns (goes: bool)
      requires Valid()
      modifies this, engine
      ensures Valid() && (Value(), goes) == Handled(engine.sqrt, engine.limits, old(Value()), line)
    {
      hide K.Commanded;
      if line.Malformed? {
        Fail();
        return false;
      }
      if !(0 <= line.ageNs <= AgeLimit(line.command)) {
        return true;
      }
      if line.command.Claim? {
        if epoch.Some? {
          return true;
        }
        epoch := Some(line.epoch);
      }
      if epoch != Some(line.epoch) || line.sequence <= sequence {
        return true;
      }
      sequence := line.sequence;
      var refusal := engine.Command(line.command, line.now);
      if refusal.Some? {
        Fail();
        return false;
      }
      goes := true;
      if line.command.Release? {
        Release();
        goes := false;
      }
    }

    method Receive(accepts: bool, read: Result<seq<Line>, Loss>)
      requires Valid()
      modifies this, engine
      ensures Valid() && Value() == Received(engine.sqrt, engine.limits, old(Value()), accepts, read)
    {
      if !connected {
        if !accepts {
          return;
        }
        connected := true;
      }
      hide Handled;
      match read
      case Err(loss) =>
        if loss.Disconnected? {
          Release();
        } else {
          Fail();
        }
      case Ok(lines) =>
        ghost var expected := HandledAll(engine.sqrt, engine.limits, Value(), lines);
        for i := 0 to |lines|
          invariant Valid() && HandledAll(engine.sqrt, engine.limits, Value(), lines[i..]) == expected
        {
          assert lines[i..][0] == lines[i] && lines[i..][1..] == lines[i + 1..];
          var goes := Handle(lines[i]);
          if !goes {
            return;
          }
        }
    }
  }
}

/** Over every run of the service: a refusal moves nothing, and no move exceeds the speed limit. */
module ServiceProofs {
  import opened Prelude
  import opened Model
  import opened KinematicSteps
  import opened ServiceSteps
  import opened P = KinematicProofs

  /** One reception, or one render update. */
  datatype Happening = Heard(accepts: bool, read: Result<seq<Line>, Loss>) | Drawn(now: real)

  /** Nothing left to execute. */
  predicate Still(e: State) {
    e.target == e.q && e.route.None?
  }

  /** Executing a route that was accepted within the limits. */
  ghost predicate Running(limits: Limits, e: State, r: Route, speed: real, acceleration: real) {
    && e.active && !e.faulted && e.route == Some(r) && OnWay(e, r)
    && Roomy(r, speed, acceleration) && 0.0 < speed <= limits.speed
  }

  ghost predicate Engaged(limits: Limits, e: State) {
    exists r: Route, speed: real, acceleration: real :: Running(limits, e, r, speed, acceleration)
  }

  // Safety, which the updates need.

  lemma HeldSafe(limits: Limits, e: State)
    requires Safe(limits, e)
    ensures Safe(limits, Held(e)) && Still(Held(e)) && Held(e).q == e.q && Held(e).previous == e.previous
  {
  }

  lemma HandledSafe(sqrt: real -> real, limits: Limits, s: Service, line: Line)
    requires IsSqrt(sqrt) && Safe(limits, s.engine)
    ensures Safe(limits, Handled(sqrt, limits, s, line).0.engine)
  {
    HeldSafe(limits, s.engine);
    if line.Packet? {
      CommandSafe(sqrt, limits, s.engine, line.command, line.now);
      HeldSafe(limits, Commanded(sqrt, limits, s.engine, line.command, line.now).1);
    }
    hide Commanded, Held, IsSqrt;
  }

  lemma {:induction false} HandledAllSafe(sqrt: real -> real, limits: Limits, s: Service, lines: seq<Line>)
    requires IsSqrt(sqrt) && Safe(limits, s.engine)
    ensures Safe(limits, HandledAll(sqrt, limits, s, lines).engine)
    decreases |lines|
  {
    hide Handled, Safe, IsSqrt;
    if lines != [] {
      HandledSafe(sqrt, limits, s, lines[0]);
      var (t, goes) := Handled(sqrt, limits, s, lines[0]);
      if goes {
        HandledAllSafe(sqrt, limits, t, lines[1..]);
      }
    }
  }

  function Happened(sqrt: real -> real, limits: Limits, gripperSpeed: real, s: Service, h: Happening): Service
    requires Safe(limits, s.engine)
  {
    match h
    case Heard(accepts, read) => Received(sqrt, limits, s, accepts, read)
    case Drawn(now) => s.(engine := Updated(gripperSpeed, s.engine, now))
  }

  lemma HappenedSafe(sqrt: real -> real, limits: Limits, gripperSpeed: real, s: Service, h: Happening)
    requires IsSqrt(sqrt) && Safe(limits, s.engine)
    ensures Safe(limits, Happened(sqrt, limits, gripperSpeed, s, h).engine)
  {
    match h
    case Heard(accepts, read) =>
      HeldSafe(limits, s.engine);
      if read.Ok? {
        HandledAllSafe(sqrt, limits, s.(connected := true), read.value);
      }
      hide HandledAll, Held, IsSqrt;
    case Drawn(now) => UpdateSafe(limits, gripperSpeed, s.engine, now);
  }

  function Serve(sqrt: real -> real, limits: Limits, gripperSpeed: real, s: Service, hs: seq<Happening>): Service
    requires IsSqrt(sqrt) && Safe(limits, s.engine)
    decreases |hs|
  {
    if hs == [] then s
    else
      HappenedSafe(sqrt, limits, gripperSpeed, s, hs[0]);
      Serve(sqrt, limits, gripperSpeed, Happened(sqrt, limits, gripperSpeed, s, hs[0]), hs[1..])
  }

  lemma {:induction false} ServeSafe(
    sqrt: real -> real, limits: Limits, gripperSpeed: real, s: Service, hs: seq<Happening>
  )
    requires IsSqrt(sqrt) && Safe(limits, s.engine)
    ensures Safe(limits, Serve(sqrt, limits, gripperSpeed, s, hs).engine)
    decreases |hs|
  {
    hide Happened, Safe, IsSqrt;
    if hs != [] {
      HappenedSafe(sqrt, limits, gripperSpeed, s, hs[0]);
      ServeSafe(sqrt, limits, gripperSpeed, Happened(sqrt, limits, gripperSpeed, s, hs[0]), hs[1..]);
    }
  }

  // A refusal moves nothing.

  /** The engine, or the envelope check before it, refuses this line. */
  predicate Refused(sqrt: real -> real, limits: Limits, s: Service, line: Line) {
    line.Malformed? ||
    match Heeded(s, line)
    case None => false
    case Some(owned) =>
      Numbered(owned, line) && Commanded(sqrt, limits, owned.engine, line.command, line.now).0.Some?
  }

  /** One of these lines is refused, before any of them ends the reception. */
  predicate Refuses(sqrt: real -> real, limits: Limits, s: Service, lines: seq<Line>)
    decreases |lines|
  {
    lines != [] &&
    (Refused(sqrt, limits, s, lines[0]) ||
     var (t, goes) := Handled(sqrt, limits, s, lines[0]);
     goes && Refuses(sqrt, limits, t, lines[1..]))
  }

  /** A line is a claim that the service takes up. */
  predicate Claims(s: Service, line: Line) {
    line.Packet? && line.command.Claim? && Heeded(s, line).Some?
  }

  predicate ClaimsAny(sqrt: real -> real, limits: Limits, s: Service, lines: seq<Line>)
    decreases |lines|
  {
    lines != [] &&
    (Claims(s, lines[0]) ||
     var (t, goes) := Handled(sqrt, limits, s, lines[0]);
     goes && ClaimsAny(sqrt, limits, t, lines[1..]))
  }

  predicate Reclaims(sqrt: real -> real, limits: Limits, s: Service, h: Happening) {
    h.Heard? && h.read.Ok? && (s.connected || h.accepts) && ClaimsAny(sqrt, limits, s.(connected := true), h.read.value)
  }

  /** No claim is taken up in the course of these receptions and updates. */
  ghost predicate Unclaimed(sqrt: real -> real, limits: Limits, gripperSpeed: real, s: Service, hs: seq<Happening>)
    requires IsSqrt(sqrt) && Safe(limits, s.engine)
    decreases |hs|
  {
    hs == [] ||
    (HappenedSafe(sqrt, limits, gripperSpeed, s, hs[0]);
     !Reclaims(sqrt, limits, s, hs[0])
     && Unclaimed(sqrt, limits, gripperSpeed, Happened(sqrt, limits, gripperSpeed, s, hs[0]), hs[1..]))
  }

  /** Without a healthy owner and with nothing left to execute. */
  predicate Frozen(e: State) {
    Still(e) && (!e.active || e.faulted)
  }

  /** No command moves a joint by itself, and a refusal freezes the engine. */
  lemma HandledInPlace(sqrt: real -> real, limits: Limits, s: Service, line: Line)
    ensures var (t, goes) := Handled(sqrt, limits, s, line);
            && t.engine.q == s.engine.q && t.engine.previous == s.engine.previous
            && (Refused(sqrt, limits, s, line) ==> !goes && Frozen(t.engine))
            && (Frozen(s.engine) && !Claims(s, line) ==> Frozen(t.engine))
  {
    hide NewRoute, AimRefusal;
  }

  lemma {:induction false} HandledAllInPlace(sqrt: real -> real, limits: Limits, s: Service, lines: seq<Line>)
    ensures var t := HandledAll(sqrt, limits, s, lines);
            && t.engine.q == s.engine.q && t.engine.previous == s.engine.previous
            && (Refuses(sqrt, limits, s, lines) ==> Frozen(t.engine))
            && (Frozen(s.engine) && !ClaimsAny(sqrt, limits, s, lines) ==> Frozen(t.engine))
    decreases |lines|
  {
    hide Handled, Frozen, Refused, Claims;
    if lines != [] {
      HandledInPlace(sqrt, limits, s, lines[0]);
      var (t, goes) := Handled(sqrt, limits, s, lines[0]);
      if goes {
        HandledAllInPlace(sqrt, limits, t, lines[1..]);
      }
    }
  }

  lemma FrozenUpdate(limits: Limits, gripperSpeed: real, e: State, now: real)
    requires Safe(limits, e) && Frozen(e)
    ensures Updated(gripperSpeed, e, now).q == e.q && Frozen(Updated(gripperSpeed, e, now))
  {
    hide Rates;
  }

  lemma FrozenHappening(sqrt: real -> real, limits: Limits, gripperSpeed: real, s: Service, h: Happening)
    requires Safe(limits, s.engine) && Frozen(s.engine) && !Reclaims(sqrt, limits, s, h)
    ensures var t := Happened(sqrt, limits, gripperSpeed, s, h); t.engine.q == s.engine.q && Frozen(t.engine)
  {
    match h
    case Heard(accepts, read) =>
      if read.Ok? {
        HandledAllInPlace(sqrt, limits, s.(connected := true), read.value);
        hide HandledAll, ClaimsAny;
      }
    case Drawn(now) =>
      FrozenUpdate(limits, gripperSpeed, s.engine, now);
      hide Updated;
  }

  lemma {:induction false} FrozenServes(
    sqrt: real -> real, limits: Limits, gripperSpeed: real, s: Service, hs: seq<Happening>
  )
    requires IsSqrt(sqrt) && Safe(limits, s.engine) && Frozen(s.engine)
    requires Unclaimed(sqrt, limits, gripperSpeed, s, hs)
    ensures Serve(sqrt, limits, gripperSpeed, s, hs).engine.q == s.engine.q
    decreases |hs|
  {
    hide Happened, Safe, IsSqrt, Frozen, Reclaims;
    if hs != [] {
      HappenedSafe(sqrt, limits, gripperSpeed, s, hs[0]);
      FrozenHappening(sqrt, limits, gripperSpeed, s, hs[0]);
      FrozenServes(sqrt, limits, gripperSpeed, Happened(sqrt, limits, gripperSpeed, s, hs[0]), hs[1..]);
    }
  }

  /**
   * When a reception refuses a line, whatever lines came before it, every joint stays where it was over every further
   * sequence of receptions and updates, until a claim is taken up.
   */
  lemma RefusalMovesNothing(
    sqrt: real -> real, limits: Limits, gripperSpeed: real, s: Service, accepts: bool, lines: seq<Line>,
    hs: seq<Happening>
  )
    requires IsSqrt(sqrt) && Safe(limits, s.engine) && (s.connected || accepts)
    requires Refuses(sqrt, limits, s.(connected := true), lines)
    ensures var t := Received(sqrt, limits, s, accepts, Ok(lines));
            Safe(limits, t.engine)
            && (Unclaimed(sqrt, limits, gripperSpeed, t, hs) ==>
                  Serve(sqrt, limits, gripperSpeed, t, hs).engine.q == s.engine.q)
  {
    HappenedSafe(sqrt, limits, gripperSpeed, s, Heard(accepts, Ok(lines)));
    HandledAllInPlace(sqrt, limits, s.(connected := true), lines);
    var t := Received(sqrt, limits, s, accepts, Ok(lines));
    hide HandledAll, Refuses, Safe, IsSqrt, Frozen, Unclaimed, Serve;
    if Unclaimed(sqrt, limits, gripperSpeed, t, hs) {
      FrozenServes(sqrt, limits, gripperSpeed, t, hs);
    }
  }

  /** A claim is taken up only from a service without an owner, which has been released since it last had one. */
  lemma ClaimNeedsRelease(s: Service, line: Line)
    requires Claims(s, line)
    ensures s.epoch.None?
  {
  }

  // Every move is paced.

  /** The engine executes an accepted route or nothing. */
  ghost predicate Paced(limits: Limits, e: State) {
    Still(e) || Engaged(limits, e)
  }

  /** No servo target, and times that never go back. */
  predicate Timely(previous: real, lines: seq<Line>)
    decreases |lines|
  {
    lines == [] ||
    match lines[0]
    case Malformed => Timely(previous, lines[1..])
    case Packet(_, _, _, command, now) => !command.Servo? && previous <= now && Timely(now, lines[1..])
  }

  function Latest(previous: real, lines: seq<Line>): real
    decreases |lines|
  {
    if lines == [] then previous
    else Latest(if lines[0].Packet? then lines[0].now else previous, lines[1..])
  }

  function Passed(previous: real, hs: seq<Happening>): real
    decreases |hs|
  {
    if hs == [] then previous
    else match hs[0]
      case Heard(_, read) => Passed(if read.Ok? then Latest(previous, read.value) else previous, hs[1..])
      case Drawn(now) => Passed(now, hs[1..])
  }

  /** No servo target, and times that never go back, over receptions and updates. */
  predicate AllTimely(previous: real, hs: seq<Happening>)
    decreases |hs|
  {
    hs == [] ||
    match hs[0]
    case Heard(_, read) =>
      (read.Ok? ==> Timely(previous, read.value))
      && AllTimely(if read.Ok? then Latest(previous, read.value) else previous, hs[1..])
    case Drawn(now) => previous <= now && AllTimely(now, hs[1..])
  }

  lemma {:induction false} LatestOrder(previous: real, lines: seq<Line>)
    requires Timely(previous, lines)
    ensures previous <= Latest(previous, lines)
    decreases |lines|
  {
    if lines != [] {
      LatestOrder(if lines[0].Packet? then lines[0].now else previous, lines[1..]);
    }
  }

  lemma StillPaced(limits: Limits, e: State)
    requires Still(e)
    ensures Paced(limits, e)
  {
    hide Engaged;
  }

  /** Commands other than servo targets leave the engine executing an accepted route or nothing. */
  lemma CommandPaced(sqrt: real -> real, limits: Limits, e: State, c: Command, now: real)
    requires IsSqrt(sqrt) && Safe(limits, e) && Paced(limits, e) && !c.Servo? && e.previous <= now
    requires Commanded(sqrt, limits, e, c, now).0.None?
    ensures Paced(limits, Commanded(sqrt, limits, e, c, now).1)
  {
    var t := Commanded(sqrt, limits, e, c, now).1;
    if c.Move? {
      MoveStarts(sqrt, limits, e, c, now);
      MoveRuns(sqrt, limits, e, c, now);
    } else if c.Stop? || c.Release? {
      HeldSafe(limits, e);
      StillPaced(limits, t);
    } else if Still(e) {
      StillPaced(limits, t);
    } else {
      var r: Route, speed: real, acceleration: real :| Running(limits, e, r, speed, acceleration);
      KeepsRunning(limits, e, t, r, speed, acceleration);
    }
  }

  lemma MoveRuns(sqrt: real -> real, limits: Limits, e: State, c: Command, now: real)
    requires IsSqrt(sqrt) && c.Move? && e.previous <= now && Commanded(sqrt, limits, e, c, now).0.None?
    ensures Engaged(limits, Commanded(sqrt, limits, e, c, now).1)
  {
    MoveStarts(sqrt, limits, e, c, now);
    hide OnWay, Roomy, NewRoute, IsSqrt;
    var t := Commanded(sqrt, limits, e, c, now).1;
    var r := NewRoute(sqrt, e.q, c.q, now, c.speed, c.acceleration);
    assert Running(limits, t, r, c.speed, c.acceleration);
  }

  lemma KeepsRunning(limits: Limits, e: State, t: State, r: Route, speed: real, acceleration: real)
    requires Running(limits, e, r, speed, acceleration)
    requires t == e.(active := true, faulted := false, heartbeatAt := t.heartbeatAt)
    ensures Paced(limits, t)
  {
    hide Roomy, PoseAt, Progress;
    assert Running(limits, t, r, speed, acceleration);
  }

  lemma HandledPaced(sqrt: real -> real, limits: Limits, s: Service, line: Line)
    requires IsSqrt(sqrt) && Safe(limits, s.engine) && Paced(limits, s.engine)
    requires line.Packet? ==> !line.command.Servo? && s.engine.previous <= line.now
    ensures Paced(limits, Handled(sqrt, limits, s, line).0.engine)
  {
    if line.Packet? && Commanded(sqrt, limits, s.engine, line.command, line.now).0.None? {
      CommandPaced(sqrt, limits, s.engine, line.command, line.now);
    }
    HandledInPlace(sqrt, limits, s, line);
    var t := Handled(sqrt, limits, s, line).0;
    hide Commanded, Engaged, IsSqrt, Safe;
    if Still(t.engine) {
      StillPaced(limits, t.engine);
    }
  }

  lemma {:induction false} HandledAllPaced(
    sqrt: real -> real, limits: Limits, s: Service, previous: real, lines: seq<Line>
  )
    requires IsSqrt(sqrt) && Safe(limits, s.engine) && Paced(limits, s.engine)
    requires s.engine.previous <= previous && Timely(previous, lines)
    ensures Paced(limits, HandledAll(sqrt, limits, s, lines).engine)
    decreases |lines|
  {
    hide Handled, Safe, IsSqrt, Paced;
    if lines != [] {
      HandledSafe(sqrt, limits, s, lines[0]);
      HandledPaced(sqrt, limits, s, lines[0]);
      HandledInPlace(sqrt, limits, s, lines[0]);
      var (t, goes) := Handled(sqrt, limits, s, lines[0]);
      if goes {
        HandledAllPaced(sqrt, limits, t, if lines[0].Packet? then lines[0].now else previous, lines[1..]);
      }
    }
  }

  /** An update of a paced engine moves no joint faster than the speed limit. */
  lemma UpdatePaced(limits: Limits, gripperSpeed: real, e: State, now: real)
    requires limits.Valid() && Safe(limits, e) && Paced(limits, e) && e.previous <= now
    ensures var t := Updated(gripperSpeed, e, now);
            Paced(limits, t) && t.previous == now && Within(t.q, e.q, Travel(limits.speed, e.previous, now))
  {
    var t := Updated(gripperSpeed, e, now);
    SpeedPositive(limits);
    TravelNonnegative(limits.speed, e.previous, now);
    StillWithin(e.q, Travel(limits.speed, e.previous, now));
    if Still(e) {
      StillUpdate(gripperSpeed, e, now);
      StillPaced(limits, t);
    } else {
      var r: Route, speed: real, acceleration: real :| Running(limits, e, r, speed, acceleration);
      RunningUpdate(limits, gripperSpeed, e, r, speed, acceleration, now);
    }
  }

  lemma StillUpdate(gripperSpeed: real, e: State, now: real)
    requires Still(e)
    ensures var t := Updated(gripperSpeed, e, now); Still(t) && t.q == e.q && t.previous == now
  {
    hide Slewed, Rates;
  }

  lemma RunningUpdate(
    limits: Limits, gripperSpeed: real, e: State, r: Route, speed: real, acceleration: real, now: real
  )
    requires Safe(limits, e) && Running(limits, e, r, speed, acceleration) && e.previous <= now
    ensures var t := Updated(gripperSpeed, e, now);
            Paced(limits, t) && t.previous == now && Within(t.q, e.q, Travel(limits.speed, e.previous, now))
  {
    var t := Updated(gripperSpeed, e, now);
    UpdateOnWay(limits, gripperSpeed, e, r, speed, acceleration, now);
    TravelOrder(speed, limits.speed, e.previous, now);
    WithinMore(t.q, e.q, Travel(speed, e.previous, now), Travel(limits.speed, e.previous, now));
    UpdatedShape(gripperSpeed, e, now);
    FinishedPose(r, t.previous);
    hide Updated, Safe, Roomy, Within, Travel, Progress, PoseAt;
    if t.route.Some? && t.active && !t.faulted {
      assert Running(limits, t, r, speed, acceleration);
    } else {
      assert Still(t);
    }
  }

  /** An update either keeps a healthy owner or holds. */
  lemma UpdatedShape(gripperSpeed: real, e: State, now: real)
    requires e.active && !e.faulted && (e.route.Some? ==> e.route.value.duration != 0.0)
    ensures var t := Updated(gripperSpeed, e, now); t.active && (t.faulted ==> Still(t))
  {
    hide Slewed, Rates, OnRoute, Blend, Progress;
  }

  lemma {:induction false} ServePaced(
    sqrt: real -> real, limits: Limits, gripperSpeed: real, s: Service, previous: real, hs: seq<Happening>
  )
    requires IsSqrt(sqrt) && limits.Valid() && Safe(limits, s.engine) && Paced(limits, s.engine)
    requires s.engine.previous <= previous && AllTimely(previous, hs)
    ensures var t := Serve(sqrt, limits, gripperSpeed, s, hs);
            Safe(limits, t.engine) && Paced(limits, t.engine) && t.engine.previous <= Passed(previous, hs)
    decreases |hs|
  {
    hide Safe, IsSqrt, Paced, Updated, HandledAll, Timely, Latest;
    if hs != [] {
      HappenedSafe(sqrt, limits, gripperSpeed, s, hs[0]);
      var t := Happened(sqrt, limits, gripperSpeed, s, hs[0]);
      match hs[0] {
        case Heard(accepts, read) =>
          HeardPaced(sqrt, limits, s, accepts, read, previous);
          if read.Ok? {
            LatestOrder(previous, read.value);
          }
          hide Received;
          var latest := if read.Ok? then Latest(previous, read.value) else previous;
          ServePaced(sqrt, limits, gripperSpeed, t, latest, hs[1..]);
        case Drawn(now) =>
          UpdatePaced(limits, gripperSpeed, s.engine, now);
          ServePaced(sqrt, limits, gripperSpeed, t, now, hs[1..]);
      }
    }
  }

  lemma HeardPaced(
    sqrt: real -> real, limits: Limits, s: Service, accepts: bool, read: Result<seq<Line>, Loss>, previous: real
  )
    requires IsSqrt(sqrt) && Safe(limits, s.engine) && Paced(limits, s.engine)
    requires s.engine.previous <= previous && (read.Ok? ==> Timely(previous, read.value))
    ensures var t := Received(sqrt, limits, s, accepts, read);
            Paced(limits, t.engine) && t.engine.previous == s.engine.previous
  {
    HeldSafe(limits, s.engine);
    var t := Received(sqrt, limits, s, accepts, read);
    if read.Ok? {
      HandledAllPaced(sqrt, limits, s.(connected := true), previous, read.value);
      HandledAllInPlace(sqrt, limits, s.(connected := true), read.value);
      hide HandledAll, Paced, Safe, IsSqrt, Timely;
    } else if t != s {
      StillPaced(limits, t.engine);
    }
  }

  /**
   * From its start, over every sequence of receptions and updates in the order of time that carries no servo target,
   * with owners coming and going, packets skipped, refused or malformed, and heartbeats expiring: the next update moves
   * no joint by more than the speed limit times the time since the last one.
   */
  lemma ServiceIsPaced(
    sqrt: real -> real, limits: Limits, gripperSpeed: real, start: real, hs: seq<Happening>, next: real
  )
    requires IsSqrt(sqrt) && limits.Valid() && AllTimely(start, hs) && Passed(start, hs) <= next
    ensures var s := Opened(limits, start);
            Safe(limits, s.engine)
            && var t := Serve(sqrt, limits, gripperSpeed, s, hs);
               Safe(limits, t.engine)
               && Within(Updated(gripperSpeed, t.engine, next).q, t.engine.q,
                         Travel(limits.speed, t.engine.previous, next))
  {
    InitialSafe(limits, start);
    var s := Opened(limits, start);
    StillPaced(limits, s.engine);
    hide Safe, Paced, IsSqrt, Serve, AllTimely, Passed;
    ServePaced(sqrt, limits, gripperSpeed, s, start, hs);
    UpdatePaced(limits, gripperSpeed, Serve(sqrt, limits, gripperSpeed, s, hs).engine, next);
  }
}

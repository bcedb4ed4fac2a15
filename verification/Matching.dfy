/** The wrist-anchored matcher of matching.py as transitions on values. */
module MatchingSteps {
  import opened Prelude
  import opened Contracts

  const RGB_TIME_QUANTUM_NS := 1000

  /** Decoded pixels of one RGB-D pair. */
  datatype Images = Images(rgb: seq<int>, depth: seq<int>)

  datatype Frame = Frame(
    role: Role,
    generation: int,
    clockId: string,
    timestampNs: int,
    color: Provenance,
    depth: Provenance,
    depthTimestampNs: int,
    payload: Option<Images>
  ) {
    function ReceivedNs(): int {
      color.time.receivedNs
    }
  }

  /** A frame without its images: all that the matcher remembers and the archive describes. */
  function Bare(f: Frame): Frame {
    f.(payload := None)
  }

  datatype Reason =
    | Accepted
    | MissingView
    | ExcessiveSkew
    | FrameReuse
    | InvalidTiming
    | Overflow
    | Discarded
    | SourceFault

  datatype Match = Match(anchor: Frame, members: seq<Frame>, reason: Reason, decidedNs: int)

  datatype Config = Config(maxSkewNs: int, waitNs: int, capacity: int) {
    predicate Valid() {
      0 <= maxSkewNs && 0 <= waitNs && 0 < capacity
    }
  }

  /** The accepted-stream rule shared with the archive. */
  function Freshness(frame: Frame, previous: Option<Frame>): Reason {
    match previous
    case None => Accepted
    case Some(p) =>
      if frame.color.sequence <= p.color.sequence || frame.depth.sequence <= p.depth.sequence then FrameReuse
      else if frame.timestampNs - p.timestampNs < RGB_TIME_QUANTUM_NS
          || frame.depthTimestampNs <= p.depthTimestampNs then
        InvalidTiming
      else Accepted
  }

  /** `last` is the newest admitted frame of each camera, `used` the newest accepted one, both without images. */
  datatype State = State(
    buffers: PerRole<seq<Frame>>,
    last: PerRole<Option<Frame>>,
    used: PerRole<Option<Frame>>,
    now: int,
    blocked: bool,
    generation: int
  )

  const NO_FRAMES: PerRole<seq<Frame>> := PerRole([], [], [])
  const NOTHING: PerRole<Option<Frame>> := PerRole(None, None, None)
  const INITIAL := State(NO_FRAMES, NOTHING, NOTHING, 0, false, 0)

  /** The matcher of the source prunes and bounds its third cameras; a simpler one does neither. */
  datatype Policy = Policy(prunes: bool, bounded: bool)

  const ONLINE := Policy(true, true)
  const REFERENCE := Policy(false, false)

  datatype Operation =
    | Push(frame: Frame, now: int)
    | Advance(now: int)
    | Finish(now: int)
    | Reset(generation: int)

  /** What one operation returns or raises. */
  datatype Answer =
    | Matches(matches: seq<Match>)
    | Faulted(generation: int, rejections: seq<Match>)
    | Refused
  {
    /** The decisions the operation made, whether returned or carried by the fault. */
    function Decisions(): seq<Match> {
      match this
      case Matches(matches) => matches
      case Faulted(_, rejections) => rejections
      case Refused => []
    }
  }

  predicate ValidSource(clockId: string, s: State, f: Frame) {
    && f.clockId == clockId && f.generation == s.generation
    && (forall role: Role :: s.last.Get(role).Some? ==>
          && s.last.Get(role).value.color.simulated == f.color.simulated
          && (role != f.role ==> s.last.Get(role).value.color.sourceId != f.color.sourceId))
    && match s.last.Get(f.role)
       case None => true
       case Some(p) =>
         && f.generation == p.generation
         && f.color.sourceId == p.color.sourceId
         && f.timestampNs > p.timestampNs
         && f.color.sequence > p.color.sequence
         && f.depth.sequence >= p.depth.sequence
  }

  function Reject(anchor: Frame, reason: Reason, now: int): Match {
    Match(anchor, [], reason, now)
  }

  function RejectAll(frames: seq<Frame>, reason: Reason, now: int): seq<Match> {
    seq(|frames|, (i: int) requires 0 <= i < |frames| => Reject(frames[i], reason, now))
  }

  function Invalidated(s: State): State {
    s.(buffers := NO_FRAMES, last := NOTHING, used := NOTHING)
  }

  // Selecting a member.

  function Skew(anchor: Frame, f: Frame): int {
    if f.timestampNs < anchor.timestampNs then anchor.timestampNs - f.timestampNs
    else f.timestampNs - anchor.timestampNs
  }

  predicate Near(config: Config, anchor: Frame, f: Frame) {
    Skew(anchor, f) <= config.maxSkewNs
  }

  function Candidates(config: Config, anchor: Frame, buffer: seq<Frame>): seq<Frame>
    decreases |buffer|
  {
    if buffer == [] then []
    else (if Near(config, anchor, buffer[0]) then [buffer[0]] else []) + Candidates(config, anchor, buffer[1..])
  }

  function Eligible(candidates: seq<Frame>, used: Option<Frame>): seq<Frame>
    decreases |candidates|
  {
    if candidates == [] then []
    else (if Freshness(candidates[0], used) == Accepted then [candidates[0]] else []) + Eligible(candidates[1..], used)
  }

  /** The order of the selection key: skew, then time. */
  predicate NoLater(anchor: Frame, a: Frame, b: Frame) {
    Skew(anchor, a) < Skew(anchor, b) || (Skew(anchor, a) == Skew(anchor, b) && a.timestampNs <= b.timestampNs)
  }

  /** The first frame of least key. */
  function Closest(anchor: Frame, frames: seq<Frame>): Frame
    requires frames != []
    decreases |frames|
  {
    if |frames| == 1 then frames[0]
    else
      var rest := Closest(anchor, frames[1..]);
      if NoLater(anchor, frames[0], rest) then frames[0] else rest
  }

  function Select(config: Config, anchor: Frame, buffer: seq<Frame>, used: Option<Frame>): (Option<Frame>, Reason) {
    var candidates := Candidates(config, anchor, buffer);
    if candidates == [] then (None, if buffer == [] then MissingView else ExcessiveSkew)
    else
      var eligible := Eligible(candidates, used);
      if eligible == [] then
        var late := exists i :: 0 <= i < |candidates| && Freshness(candidates[i], used) == InvalidTiming;
        (None, if late then InvalidTiming else FrameReuse)
      else (Some(Closest(anchor, eligible)), Accepted)
  }

  /** Decide an anchor that has left the wrist buffer. */
  function Decide(config: Config, s: State, anchor: Frame): (Match, State) {
    var reason := Freshness(anchor, s.used.wrist);
    if reason != Accepted then (Reject(anchor, reason, s.now), s)
    else
      var (left, leftReason) := Select(config, anchor, s.buffers.left, s.used.left);
      if left.None? then (Reject(anchor, leftReason, s.now), s)
      else
        var (right, rightReason) := Select(config, anchor, s.buffers.right, s.used.right);
        if right.None? then (Reject(anchor, rightReason, s.now), s)
        else
          (Match(anchor, [anchor, left.value, right.value], Accepted, s.now),
           s.(used := PerRole(Some(Bare(anchor)), Some(Bare(left.value)), Some(Bare(right.value)))))
  }

  // Draining, pruning and admission.

  predicate Passed(last: Option<Frame>, anchor: Frame) {
    last.Some? && last.value.timestampNs >= anchor.timestampNs
  }

  predicate Ready(s: State, anchor: Frame) {
    Passed(s.last.left, anchor) && Passed(s.last.right, anchor)
  }

  predicate Expired(config: Config, s: State, anchor: Frame, strict: bool) {
    var deadline := anchor.ReceivedNs() + config.waitNs;
    if strict then s.now > deadline else s.now >= deadline
  }

  predicate Due(config: Config, s: State, force: bool, strict: bool) {
    && s.buffers.wrist != []
    && (force || Expired(config, s, s.buffers.wrist[0], strict) || Ready(s, s.buffers.wrist[0]))
  }

  function Popped(s: State): State
    requires s.buffers.wrist != []
  {
    s.(buffers := s.buffers.(wrist := s.buffers.wrist[1..]))
  }

  function Drain(config: Config, s: State, force: bool, strict: bool): (seq<Match>, State)
    decreases |s.buffers.wrist|
  {
    if !Due(config, s, force, strict) then ([], s)
    else
      var (decision, decided) := Decide(config, Popped(s), s.buffers.wrist[0]);
      var (rest, final) := Drain(config, decided, force, strict);
      ([decision] + rest, final)
  }

  lemma DueHasAnchor(config: Config, s: State, force: bool, strict: bool)
    requires Due(config, s, force, strict)
    ensures s.buffers.wrist != []
  {
  }

  lemma DrainDecides(config: Config, s: State, force: bool, strict: bool)
    requires Due(config, s, force, strict)
    ensures s.buffers.wrist != []
    ensures var (decision, decided) := Decide(config, Popped(s), s.buffers.wrist[0]);
            var (rest, final) := Drain(config, decided, force, strict);
            Drain(config, s, force, strict) == ([decision] + rest, final)
  {
    hide Decide, Expired, Ready;
  }

  lemma DrainEnds(config: Config, s: State, force: bool, strict: bool)
    requires !Due(config, s, force, strict)
    ensures Drain(config, s, force, strict) == ([], s)
  {
    hide Decide, Due;
  }

  lemma DecisionMoves(done: seq<Match>, decision: Match, rest: seq<Match>)
    ensures done + ([decision] + rest) == done + [decision] + rest
  {
  }

  lemma DecidesPopped(config: Config, s: State)
    requires s.buffers.wrist != []
    ensures Decide(config, Popped(s), s.buffers.wrist[0]).1.buffers.wrist == s.buffers.wrist[1..]
  {
  }

  function DropBefore(earliest: int, buffer: seq<Frame>): seq<Frame>
    decreases |buffer|
  {
    if buffer == [] || buffer[0].timestampNs >= earliest then buffer else DropBefore(earliest, buffer[1..])
  }

  /** The oldest anchor a frame could still serve. */
  function Oldest(s: State): Option<Frame> {
    if s.buffers.wrist != [] then Some(s.buffers.wrist[0]) else s.last.wrist
  }

  function Prune(config: Config, s: State): State {
    match Oldest(s)
    case None => s
    case Some(anchor) =>
      var earliest := anchor.timestampNs - config.maxSkewNs;
      s.(buffers :=
          s.buffers.(left := DropBefore(earliest, s.buffers.left), right := DropBefore(earliest, s.buffers.right)))
  }

  predicate Full(policy: Policy, config: Config, s: State, role: Role) {
    |s.buffers.Get(role)| == config.capacity && (role.Wrist? || policy.bounded)
  }

  function Remembered(s: State, f: Frame): State {
    s.(last := s.last.Put(f.role, Some(Bare(f))))
  }

  /** The buffer as a frame of its role is about to be appended. */
  function Trimmed(policy: Policy, config: Config, s: State, f: Frame): State {
    var remembered := Remembered(s, f);
    if policy.prunes then Prune(config, remembered) else remembered
  }

  /** Admit one frame: remember it, prune, make room, append. */
  function Arrive(policy: Policy, config: Config, s: State, f: Frame): (seq<Match>, State)
    requires config.Valid()
  {
    var t := Trimmed(policy, config, s, f);
    var buffer := t.buffers.Get(f.role);
    if Full(policy, config, t, f.role) then
      (if f.role.Wrist? then [Reject(buffer[0], Overflow, t.now)] else [],
       t.(buffers := t.buffers.Put(f.role, buffer[1..] + [f])))
    else ([], t.(buffers := t.buffers.Put(f.role, buffer + [f])))
  }

  function Step(policy: Policy, config: Config, clockId: string, s: State, op: Operation): (Answer, State)
    requires config.Valid()
  {
    match op
    case Reset(generation) =>
      if generation < 0 || generation <= s.generation then (Refused, s)
      else
        (Matches(RejectAll(s.buffers.wrist, Discarded, s.now)),
            Invalidated(s).(generation := generation, blocked := false))
    case Advance(now) =>
      if now < 0 || now < s.now then (Refused, s)
      else
        var (matches, drained) := Drain(config, s.(now := now), false, false);
        (Matches(matches), drained)
    case Finish(now) =>
      if now < 0 || now < s.now then (Refused, s)
      else
        var (matches, drained) := Drain(config, s.(now := now), true, false);
        (Matches(matches), drained.(buffers := NO_FRAMES))
    case Push(frame, now) =>
      if now < 0 || now < s.now then (Refused, s)
      else PushAt(policy, config, clockId, s.(now := now), frame)
  }

  function PushAt(policy: Policy, config: Config, clockId: string, s: State, frame: Frame): (Answer, State)
    requires config.Valid()
  {
    if s.blocked then (Faulted(s.generation, []), s)
    else if frame.ReceivedNs() > s.now then (Refused, s)
    else if !ValidSource(clockId, s, frame) then
      (Faulted(s.generation, RejectAll(s.buffers.wrist, SourceFault, s.now)), Invalidated(s).(blocked := true))
    else
      var (early, drained) := Drain(config, s, false, true);
      var (evicted, admitted) := Arrive(policy, config, drained, frame);
      var (late, final) := Drain(config, admitted, false, false);
      (Matches(early + evicted + late), final)
  }
}

/** The matcher itself: every operation updates its buffers, newest and used frames in place. */
module Matching {
  import opened Prelude
  import opened Contracts
  import opened Steps = MatchingSteps

  class Matcher {
    const clockId: string
    const config: Config
    var buffers: PerRole<seq<Frame>>
    var last: PerRole<Option<Frame>>
    var used: PerRole<Option<Frame>>
    var now: int
    var blocked: bool
    var generation: int

    ghost function Value(): State
      reads this
    {
      State(buffers, last, used, now, blocked, generation)
    }

    constructor (clockId: string, config: Config)
      ensures this.clockId == clockId && this.config == config && Value() == INITIAL
    {
      this.clockId, this.config := clockId, config;
      buffers, last, used, now, blocked, generation := NO_FRAMES, NOTHING, NOTHING, 0, false, 0;
    }

    method Invalidate(reason: Reason) returns (result: seq<Match>)
      modifies this
      ensures result == RejectAll(old(buffers.wrist), reason, now) && Value() == Invalidated(old(Value()))
    {
      ghost var expected := RejectAll(buffers.wrist, reason, now);
      result := [];
      for i := 0 to |buffers.wrist|
        invariant |result| == i && forall k :: 0 <= k < i ==> result[k] == expected[k]
      {
        result := result + [Reject(buffers.wrist[i], reason, now)];
      }
      buffers, last, used := NO_FRAMES, NOTHING, NOTHING;
    }

    /** Pop and decide anchors from the front while one is due. */
    method DrainDue(force: bool, strict: bool) returns (result: seq<Match>)
      modifies this
      ensures (result, Value()) == Drain(config, old(Value()), force, strict)
    {
      hide Decide, Due, Expired, Ready, Drain;
      ghost var expected := Drain(config, Value(), force, strict);
      result := [];
      while Due(config, State(buffers, last, used, now, blocked, generation), force, strict)
        invariant result + Drain(config, Value(), force, strict).0 == expected.0
        invariant Drain(config, Value(), force, strict).1 == expected.1
        decreases |buffers.wrist|
      {
        ghost var before := Value();
        DueHasAnchor(config, before, force, strict);
        var anchor := buffers.wrist[0];
        DecidesPopped(config, before);
        DrainDecides(config, before, force, strict);
        buffers := buffers.(wrist := buffers.wrist[1..]);
        var decision := DecideNow(anchor);
        DecisionMoves(result, decision, Drain(config, Value(), force, strict).0);
        result := result + [decision];
      }
      DrainEnds(config, Value(), force, strict);
      assert result + [] == result;
    }

    method DecideNow(anchor: Frame) returns (decision: Match)
      modifies this`used
      ensures (decision, Value()) == Decide(config, old(Value()), anchor)
    {
      var reason := Freshness(anchor, used.wrist);
      if reason != Accepted {
        return Reject(anchor, reason, now);
      }
      var (left, leftReason) := Select(config, anchor, buffers.left, used.left);
      if left.None? {
        return Reject(anchor, leftReason, now);
      }
      var (right, rightReason) := Select(config, anchor, buffers.right, used.right);
      if right.None? {
        return Reject(anchor, rightReason, now);
      }
      used := PerRole(Some(Bare(anchor)), Some(Bare(left.value)), Some(Bare(right.value)));
      return Match(anchor, [anchor, left.value, right.value], Accepted, now);
    }

    /** Third-camera buffers lose what lies before the reach of the oldest undecided anchor, or of the last one. */
    method PruneOld()
      modifies this`buffers
      ensures Value() == Prune(config, old(Value()))
    {
      if buffers.wrist == [] && last.wrist.None? {
        return;
      }
      var anchor := if buffers.wrist != [] then buffers.wrist[0] else last.wrist.value;
      var earliest := anchor.timestampNs - config.maxSkewNs;
      while buffers.left != [] && buffers.left[0].timestampNs < earliest
        invariant buffers == old(buffers).(left := buffers.left)
        invariant DropBefore(earliest, buffers.left) == DropBefore(earliest, old(buffers.left))
        decreases |buffers.left|
      {
        buffers := buffers.(left := buffers.left[1..]);
      }
      while buffers.right != [] && buffers.right[0].timestampNs < earliest
        invariant buffers == old(buffers).(left := DropBefore(earliest, old(buffers.left)), right := buffers.right)
        invariant DropBefore(earliest, buffers.right) == DropBefore(earliest, old(buffers.right))
        decreases |buffers.right|
      {
        buffers := buffers.(right := buffers.right[1..]);
      }
    }

    method ArriveNow(frame: Frame) returns (evictions: seq<Match>)
      requires config.Valid()
      modifies this
      ensures (evictions, Value()) == Arrive(ONLINE, config, old(Value()), frame)
    {
      last := last.Put(frame.role, Some(Bare(frame)));
      PruneOld();
      var buffer := buffers.Get(frame.role);
      evictions := [];
      if |buffer| == config.capacity {
        if frame.role.Wrist? {
          evictions := [Reject(buffer[0], Overflow, now)];
        }
        buffer := buffer[1..];
      }
      buffers := buffers.Put(frame.role, buffer + [frame]);
    }

    method Push(frame: Frame, time: int) returns (answer: Answer)
      requires config.Valid()
      modifies this
      ensures (answer, Value()) == Step(ONLINE, config, clockId, old(Value()), Operation.Push(frame, time))
    {
      if time < 0 || time < now {
        return Refused;
      }
      now := time;
      if blocked {
        return Faulted(generation, []);
      }
      if frame.ReceivedNs() > now {
        return Refused;
      }
      if !ValidSource(clockId, State(buffers, last, used, now, blocked, generation), frame) {
        var rejections := Invalidate(SourceFault);
        blocked := true;
        return Faulted(generation, rejections);
      }
      var early := DrainDue(false, true);
      var evictions := ArriveNow(frame);
      var late := DrainDue(false, false);
      return Matches(early + evictions + late);
    }

    method Advance(time: int) returns (answer: Answer)
      requires config.Valid()
      modifies this
      ensures (answer, Value()) == Step(ONLINE, config, clockId, old(Value()), Operation.Advance(time))
    {
      if time < 0 || time < now {
        return Refused;
      }
      now := time;
      var matches := DrainDue(false, false);
      return Matches(matches);
    }

    method Finish(time: int) returns (answer: Answer)
      requires config.Valid()
      modifies this
      ensures (answer, Value()) == Step(ONLINE, config, clockId, old(Value()), Operation.Finish(time))
    {
      if time < 0 || time < now {
        return Refused;
      }
      now := time;
      var matches := DrainDue(true, false);
      buffers := NO_FRAMES;
      return Matches(matches);
    }

    method Reset(next: int) returns (answer: Answer)
      requires config.Valid()
      modifies this
      ensures (answer, Value()) == Step(ONLINE, config, clockId, old(Value()), Operation.Reset(next))
    {
      if next < 0 || next <= generation {
        return Refused;
      }
      var matches := Invalidate(Discarded);
      generation, blocked := next, false;
      return Matches(matches);
    }
  }
}

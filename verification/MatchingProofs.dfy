/** What every run of the matcher conserves, and why the archive accepts its groups. */
module MatchingProofs {
  import opened Prelude
  import opened Contracts
  import opened MatchingSteps
  import opened GroupSteps

  /** Operations from a state on: the answers, and the state they leave. */
  function Run(policy: Policy, config: Config, clockId: string, s: State, ops: seq<Operation>): (seq<Answer>, State)
    requires config.Valid()
    decreases |ops|
  {
    if ops == [] then ([], s)
    else
      var (answer, next) := Step(policy, config, clockId, s, ops[0]);
      var (rest, final) := Run(policy, config, clockId, next, ops[1..]);
      ([answer] + rest, final)
  }

  /** Every decision of a run, in order. */
  function Decisions(answers: seq<Answer>): seq<Match>
    decreases |answers|
  {
    if answers == [] then [] else answers[0].Decisions() + Decisions(answers[1..])
  }

  function Anchors(ms: seq<Match>): seq<Frame> {
    seq(|ms|, (i: int) requires 0 <= i < |ms| => ms[i].anchor)
  }

  /** The wrist frame an operation admitted: pushed, and answered by matches rather than a fault or refusal. */
  function Admits(op: Operation, answer: Answer): seq<Frame> {
    if op.Push? && op.frame.role.Wrist? && answer.Matches? then [op.frame] else []
  }

  function Admitted(ops: seq<Operation>, answers: seq<Answer>): seq<Frame>
    requires |ops| == |answers|
    decreases |ops|
  {
    if ops == [] then [] else Admits(ops[0], answers[0]) + Admitted(ops[1..], answers[1..])
  }

  // Conservation.

  lemma DecideFrame(config: Config, s: State, anchor: Frame)
    ensures var (m, t) := Decide(config, s, anchor);
            m.anchor == anchor && t == s.(used := t.used)
  {
    hide Select, Freshness;
  }

  lemma AnchorsFirst(decision: Match, rest: seq<Match>, wrist: seq<Frame>, left: seq<Frame>)
    requires wrist != [] && decision.anchor == wrist[0] && Anchors(rest) + left == wrist[1..]
    ensures Anchors([decision] + rest) + left == wrist
  {
    assert Anchors([decision] + rest) == [decision.anchor] + Anchors(rest);
    assert wrist == [wrist[0]] + wrist[1..];
  }

  /** Draining moves a prefix of the wrist buffer into decisions and touches nothing else but the used frames. */
  lemma {:induction false} DrainConserves(config: Config, s: State, force: bool, strict: bool)
    ensures var (ms, t) := Drain(config, s, force, strict);
            && Anchors(ms) + t.buffers.wrist == s.buffers.wrist
            && t == s.(buffers := s.buffers.(wrist := t.buffers.wrist), used := t.used)
            && (force ==> t.buffers.wrist == [])
    decreases |s.buffers.wrist|
  {
    hide Decide, Expired, Ready, Drain, Anchors;
    if Due(config, s, force, strict) {
      DrainDecides(config, s, force, strict);
      DecideFrame(config, Popped(s), s.buffers.wrist[0]);
      var (decision, decided) := Decide(config, Popped(s), s.buffers.wrist[0]);
      DrainConserves(config, decided, force, strict);
      var (rest, final) := Drain(config, decided, force, strict);
      AnchorsFirst(decision, rest, s.buffers.wrist, final.buffers.wrist);
    } else {
      DrainEnds(config, s, force, strict);
      assert Anchors([]) == [] by {
        EmptyAnchors();
      }
    }
  }

  lemma AnchorsSplit(a: seq<Match>, b: seq<Match>)
    ensures Anchors(a + b) == Anchors(a) + Anchors(b)
  {
  }

  lemma ArriveConserves(policy: Policy, config: Config, s: State, f: Frame)
    requires config.Valid()
    ensures var (ms, t) := Arrive(policy, config, s, f);
            Anchors(ms) + t.buffers.wrist == s.buffers.wrist + (if f.role.Wrist? then [f] else [])
  {
    hide DropBefore;
    var t := Trimmed(policy, config, s, f);
    assert t.buffers.wrist == s.buffers.wrist;
  }

  lemma StepConserves(policy: Policy, config: Config, clockId: string, s: State, op: Operation)
    requires config.Valid()
    ensures var (answer, t) := Step(policy, config, clockId, s, op);
            Anchors(answer.Decisions()) + t.buffers.wrist == s.buffers.wrist + Admits(op, answer)
  {
    hide Drain, Arrive, ValidSource;
    match op
    case Reset(_) =>
    case Advance(now) => DrainConserves(config, s.(now := now), false, false);
    case Finish(now) => DrainConserves(config, s.(now := now), true, false);
    case Push(frame, now) =>
      if now >= 0 && now >= s.now {
        var timed := s.(now := now);
        DrainConserves(config, timed, false, true);
        var (early, drained) := Drain(config, timed, false, true);
        ArriveConserves(policy, config, drained, frame);
        var (evicted, admitted) := Arrive(policy, config, drained, frame);
        DrainConserves(config, admitted, false, false);
        var (late, final) := Drain(config, admitted, false, false);
        AnchorsSplit(early + evicted, late);
        AnchorsSplit(early, evicted);
        assert Anchors(early + evicted + late) + final.buffers.wrist
            == Anchors(early) + (Anchors(evicted) + (Anchors(late) + final.buffers.wrist));
        assert Anchors(early) + (drained.buffers.wrist + Admits(op, Matches(early)))
            == (Anchors(early) + drained.buffers.wrist) + Admits(op, Matches(early));
      }
  }

  /**
   * Over every run, with or without pruning: the anchors decided so far, followed by the wrist buffer, are exactly
   * the admitted wrist frames in order, so each is decided once and first come, first decided.
   */
  lemma {:induction false} EachAnchorOnce(
    policy: Policy, config: Config, clockId: string, s: State, ops: seq<Operation>
  )
    requires config.Valid()
    ensures var (answers, t) := Run(policy, config, clockId, s, ops);
            && |answers| == |ops|
            && Anchors(Decisions(answers)) + t.buffers.wrist == s.buffers.wrist + Admitted(ops, answers)
    decreases |ops|
  {
    hide Step, Anchors, Admits;
    if ops == [] {
      assert Anchors([]) == [] by {
        EmptyAnchors();
      }
    } else {
      var (answer, next) := Step(policy, config, clockId, s, ops[0]);
      StepConserves(policy, config, clockId, s, ops[0]);
      EachAnchorOnce(policy, config, clockId, next, ops[1..]);
      var (rest, t) := Run(policy, config, clockId, next, ops[1..]);
      AnchorsSplit(answer.Decisions(), Decisions(rest));
      assert ([answer] + rest)[1..] == rest;
      assert Anchors(answer.Decisions()) + Anchors(Decisions(rest)) + t.buffers.wrist
          == Anchors(answer.Decisions()) + (next.buffers.wrist + Admitted(ops[1..], rest));
      assert s.buffers.wrist + Admits(ops[0], answer) + Admitted(ops[1..], rest)
          == s.buffers.wrist + (Admits(ops[0], answer) + Admitted(ops[1..], rest));
    }
  }

  lemma EmptyAnchors()
    ensures Anchors([]) == []
  {
  }

  predicate WithinCapacity(config: Config, s: State) {
    && |s.buffers.wrist| <= config.capacity
    && |s.buffers.left| <= config.capacity
    && |s.buffers.right| <= config.capacity
  }

  lemma {:induction false} DropBeforeIsSuffix(earliest: int, buffer: seq<Frame>)
    ensures var rest := DropBefore(earliest, buffer);
            && |rest| <= |buffer| && rest == buffer[|buffer| - |rest|..]
            && (forall i :: 0 <= i < |buffer| - |rest| ==> buffer[i].timestampNs < earliest)
            && (rest != [] ==> rest[0].timestampNs >= earliest)
    decreases |buffer|
  {
    if buffer != [] && buffer[0].timestampNs < earliest {
      DropBeforeIsSuffix(earliest, buffer[1..]);
    }
  }

  lemma StepWithinCapacity(config: Config, clockId: string, s: State, op: Operation)
    requires config.Valid() && WithinCapacity(config, s)
    ensures WithinCapacity(config, Step(ONLINE, config, clockId, s, op).1)
  {
    hide Drain, ValidSource, DropBefore;
    match op
    case Reset(_) =>
    case Advance(now) => DrainConserves(config, s.(now := now), false, false);
    case Finish(now) => DrainConserves(config, s.(now := now), true, false);
    case Push(frame, now) =>
      var timed := s.(now := now);
      DrainConserves(config, timed, false, true);
      var drained := Drain(config, timed, false, true).1;
      assert WithinCapacity(config, drained);
      ArriveWithinCapacity(config, drained, frame);
      DrainConserves(config, Arrive(ONLINE, config, drained, frame).1, false, false);
  }

  lemma TrimmedNoLarger(policy: Policy, config: Config, s: State, f: Frame)
    ensures var t := Trimmed(policy, config, s, f);
            && |t.buffers.wrist| == |s.buffers.wrist| && |t.buffers.left| <= |s.buffers.left|
            && |t.buffers.right| <= |s.buffers.right|
  {
    hide DropBefore;
    var anchor := Oldest(Remembered(s, f));
    if anchor.Some? {
      DropBeforeIsSuffix(anchor.value.timestampNs - config.maxSkewNs, s.buffers.left);
      DropBeforeIsSuffix(anchor.value.timestampNs - config.maxSkewNs, s.buffers.right);
    }
  }

  lemma ArriveWithinCapacity(config: Config, s: State, f: Frame)
    requires config.Valid() && WithinCapacity(config, s)
    ensures WithinCapacity(config, Arrive(ONLINE, config, s, f).1)
  {
    hide Trimmed;
    TrimmedNoLarger(ONLINE, config, s, f);
  }

  /** No buffer of the matcher ever exceeds its capacity. */
  lemma {:induction false} BuffersStayBounded(config: Config, clockId: string, s: State, ops: seq<Operation>)
    requires config.Valid() && WithinCapacity(config, s)
    ensures WithinCapacity(config, Run(ONLINE, config, clockId, s, ops).1)
    decreases |ops|
  {
    hide Step, WithinCapacity;
    if ops != [] {
      StepWithinCapacity(config, clockId, s, ops[0]);
      BuffersStayBounded(config, clockId, Step(ONLINE, config, clockId, s, ops[0]).1, ops[1..]);
    }
  }

  // What a selection means.

  predicate IsCandidate(config: Config, anchor: Frame, used: Option<Frame>, f: Frame) {
    Near(config, anchor, f) && Freshness(f, used) == Accepted
  }

  lemma {:induction false} CandidatesAre(config: Config, anchor: Frame, buffer: seq<Frame>)
    ensures forall f :: f in Candidates(config, anchor, buffer) <==> f in buffer && Near(config, anchor, f)
    decreases |buffer|
  {
    if buffer != [] {
      CandidatesAre(config, anchor, buffer[1..]);
      assert forall f :: f in buffer <==> f == buffer[0] || f in buffer[1..];
    }
  }

  lemma {:induction false} EligibleAre(candidates: seq<Frame>, used: Option<Frame>)
    ensures forall f :: f in Eligible(candidates, used) <==> f in candidates && Freshness(f, used) == Accepted
    decreases |candidates|
  {
    if candidates != [] {
      EligibleAre(candidates[1..], used);
      assert forall f :: f in candidates <==> f == candidates[0] || f in candidates[1..];
    }
  }

  lemma {:induction false} ClosestIs(anchor: Frame, frames: seq<Frame>)
    requires frames != []
    ensures Closest(anchor, frames) in frames
    ensures forall f :: f in frames ==> NoLater(anchor, Closest(anchor, frames), f)
    decreases |frames|
  {
    if |frames| > 1 {
      ClosestIs(anchor, frames[1..]);
      assert forall f :: f in frames <==> f == frames[0] || f in frames[1..];
    }
  }

  /** A camera's choice is a buffered, fresh frame within the skew with the least key; there is none exactly when
      no buffered frame qualifies. */
  lemma SelectIsNearest(config: Config, anchor: Frame, buffer: seq<Frame>, used: Option<Frame>)
    ensures var (choice, reason) := Select(config, anchor, buffer, used);
            && (choice.Some? <==> exists f :: f in buffer && IsCandidate(config, anchor, used, f))
            && (choice.Some? <==> reason == Accepted)
            && (choice.Some? ==>
                  && choice.value in buffer && IsCandidate(config, anchor, used, choice.value)
                  && forall f :: f in buffer && IsCandidate(config, anchor, used, f) ==>
                       NoLater(anchor, choice.value, f))
  {
    hide Candidates, Eligible, Closest, Near, Freshness, NoLater;
    var candidates := Candidates(config, anchor, buffer);
    var eligible := Eligible(candidates, used);
    CandidatesAre(config, anchor, buffer);
    EligibleAre(candidates, used);
    if eligible != [] {
      assert eligible[0] in eligible;
      ClosestIs(anchor, eligible);
    }
    if exists f :: f in buffer && IsCandidate(config, anchor, used, f) {
      var f :| f in buffer && IsCandidate(config, anchor, used, f);
      assert f in candidates && f in eligible;
    }
  }

  // The archive accepts the groups of one generation.

  /** A frame the snapshot describes, from the current generation of its camera. */
  predicate Owned(snapshot: Snapshot, generation: int, role: Role, f: Frame) {
    && f.role == role && f.generation == generation && f.clockId == snapshot.clockId
    && f.color.sourceId == snapshot.cameras.Get(role) && f.color.simulated == snapshot.simulated
  }

  ghost predicate AllOwned(snapshot: Snapshot, s: State) {
    && (forall role: Role, f :: f in s.buffers.Get(role) ==> Owned(snapshot, s.generation, role, f))
    && (forall role: Role :: s.used.Get(role).Some? ==> Owned(snapshot, s.generation, role, s.used.Get(role).value))
  }

  /** Every pushed frame carries its camera's identity and provenance. */
  ghost predicate Described(snapshot: Snapshot, ops: seq<Operation>) {
    forall i :: 0 <= i < |ops| && ops[i].Push? ==>
      && ops[i].frame.color.sourceId == snapshot.cameras.Get(ops[i].frame.role)
      && ops[i].frame.color.simulated == snapshot.simulated
  }

  lemma DecideChecks(snapshot: Snapshot, config: Config, s: State, anchor: Frame)
    requires config.Valid() && AllOwned(snapshot, s) && Owned(snapshot, s.generation, Wrist, anchor)
    ensures var (m, t) := Decide(config, s, anchor);
            && CheckAll(snapshot, config, s.used, [m]) == Some(t.used)
            && AllOwned(snapshot, t)
  {
    hide Select, Freshness, Near;
    SelectIsNearest(config, anchor, s.buffers.left, s.used.left);
    SelectIsNearest(config, anchor, s.buffers.right, s.used.right);
    var (m, t) := Decide(config, s, anchor);
    var leftChoice := Select(config, anchor, s.buffers.left, s.used.left);
    var rightChoice := Select(config, anchor, s.buffers.right, s.used.right);
    if m.reason == Accepted {
      assert leftChoice.0.Some? && rightChoice.0.Some?;
      var left, right := leftChoice.0.value, rightChoice.0.value;
      assert m.members == [anchor, left, right];
      NearSelf(config, anchor);
      assert left in s.buffers.Get(ThirdLeft) && right in s.buffers.Get(ThirdRight);
      AcceptedOwned(snapshot, s, t, anchor, left, right);
      MemberOwned(snapshot, config, s, Wrist, anchor, anchor);
      MemberOwned(snapshot, config, s, ThirdLeft, anchor, left);
      MemberOwned(snapshot, config, s, ThirdRight, anchor, right);
      assert Check(snapshot, config, s.used, m) == Some(t.used) by {
        hide MemberPasses;
        assert m.members[0] == anchor;
      }
    }
    assert [m][1..] == [];
  }

  lemma NearSelf(config: Config, anchor: Frame)
    requires config.Valid()
    ensures Near(config, anchor, anchor)
  {
  }

  lemma MemberOwned(snapshot: Snapshot, config: Config, s: State, role: Role, anchor: Frame, f: Frame)
    requires AllOwned(snapshot, s) && Owned(snapshot, s.generation, role, f)
    requires Near(config, anchor, f) && Freshness(f, s.used.Get(role)) == Accepted
    ensures MemberPasses(snapshot, config, s.used, anchor, f)
  {
    hide Freshness, Near;
  }

  lemma AcceptedOwned(snapshot: Snapshot, s: State, t: State, anchor: Frame, left: Frame, right: Frame)
    requires AllOwned(snapshot, s)
    requires Owned(snapshot, s.generation, Wrist, anchor) && Owned(snapshot, s.generation, ThirdLeft, left)
             && Owned(snapshot, s.generation, ThirdRight, right)
    requires t == s.(used := PerRole(Some(Bare(anchor)), Some(Bare(left)), Some(Bare(right))))
    ensures AllOwned(snapshot, t)
  {
  }

  lemma {:induction false} DrainChecks(snapshot: Snapshot, config: Config, s: State, force: bool, strict: bool)
    requires config.Valid() && AllOwned(snapshot, s)
    ensures var (ms, t) := Drain(config, s, force, strict);
            && CheckAll(snapshot, config, s.used, ms) == Some(t.used)
            && AllOwned(snapshot, t)
    decreases |s.buffers.wrist|
  {
    hide Decide, Expired, Ready, Check;
    if Due(config, s, force, strict) {
      var anchor, popped := s.buffers.wrist[0], Popped(s);
      assert anchor in s.buffers.Get(Wrist);
      PoppedOwned(snapshot, s);
      DecideChecks(snapshot, config, popped, anchor);
      DecidesPopped(config, s);
      var (decision, decided) := Decide(config, popped, anchor);
      DrainChecks(snapshot, config, decided, force, strict);
      var (rest, final) := Drain(config, decided, force, strict);
      CheckAllSplit(snapshot, config, s.used, [decision], rest);
    }
  }

  lemma PoppedOwned(snapshot: Snapshot, s: State)
    requires AllOwned(snapshot, s) && s.buffers.wrist != []
    ensures AllOwned(snapshot, Popped(s))
  {
    hide Owned;
    forall role: Role, f | f in Popped(s).buffers.Get(role)
      ensures Owned(snapshot, s.generation, role, f)
    {
      assert f in s.buffers.Get(role);
    }
  }

  lemma TrimmedFrom(policy: Policy, config: Config, s: State, f: Frame, role: Role)
    requires config.Valid()
    ensures forall g :: g in Trimmed(policy, config, s, f).buffers.Get(role) ==> g in s.buffers.Get(role)
  {
    hide DropBefore;
    var anchor := Oldest(Remembered(s, f));
    if anchor.Some? {
      DropBeforeIsSuffix(anchor.value.timestampNs - config.maxSkewNs, s.buffers.left);
      DropBeforeIsSuffix(anchor.value.timestampNs - config.maxSkewNs, s.buffers.right);
    }
  }

  lemma ArriveChecks(snapshot: Snapshot, policy: Policy, config: Config, s: State, f: Frame)
    requires config.Valid() && AllOwned(snapshot, s) && Owned(snapshot, s.generation, f.role, f)
    ensures var (ms, t) := Arrive(policy, config, s, f);
            && CheckAll(snapshot, config, s.used, ms) == Some(t.used)
            && AllOwned(snapshot, t)
  {
    hide Owned, Prune;
    var (ms, t) := Arrive(policy, config, s, f);
    TrimmedFrame(policy, config, s, f);
    forall role: Role, g | g in t.buffers.Get(role)
      ensures Owned(snapshot, s.generation, role, g)
    {
      TrimmedFrom(policy, config, s, f, role);
      assert (role == f.role && g == f) || g in Trimmed(policy, config, s, f).buffers.Get(role);
    }
    forall role: Role | t.used.Get(role).Some?
      ensures Owned(snapshot, s.generation, role, t.used.Get(role).value)
    {
      assert t.used == s.used;
    }
  }

  lemma TrimmedFrame(policy: Policy, config: Config, s: State, f: Frame)
    ensures var t := Trimmed(policy, config, s, f);
            t.used == s.used && t.generation == s.generation && t.now == s.now && t.blocked == s.blocked
            && t.buffers.wrist == s.buffers.wrist
  {
    hide DropBefore;
  }

  /** Rejections never reach the validator. */
  lemma {:induction false} RejectionsSkipped(snapshot: Snapshot, config: Config, previous: Previous, ms: seq<Match>)
    requires forall i :: 0 <= i < |ms| ==> ms[i].reason != Accepted
    ensures CheckAll(snapshot, config, previous, ms) == Some(previous)
    decreases |ms|
  {
    if ms != [] {
      RejectionsSkipped(snapshot, config, previous, ms[1..]);
    }
  }

  /** One operation, short of a reset: its accepted groups pass, and the validator remembers the used frames. */
  lemma StepChecks(snapshot: Snapshot, policy: Policy, config: Config, s: State, op: Operation)
    requires config.Valid() && AllOwned(snapshot, s) && !op.Reset? && Described(snapshot, [op])
    requires s.blocked ==> s.buffers.wrist == []
    ensures var (answer, t) := Step(policy, config, snapshot.clockId, s, op);
            var checked := CheckAll(snapshot, config, s.used, answer.Decisions());
            && AllOwned(snapshot, t) && (t.blocked ==> t.buffers.wrist == [])
            && checked.Some? && (!t.blocked ==> checked == Some(t.used)) && (s.blocked ==> t.blocked)
            && (s.blocked ==> answer.Decisions() == [])
  {
    hide Drain, Arrive, AllOwned, Owned, CheckAll;
    assert Described(snapshot, [op]) && [op][0] == op;
    RejectionsSkipped(snapshot, config, s.used, []);
    match op
    case Advance(now) => TimedDrain(snapshot, config, s, now, false, false);
    case Finish(now) =>
      TimedDrain(snapshot, config, s, now, true, false);
      EmptiedOwned(snapshot, Drain(config, s.(now := now), true, false).1);
    case Push(frame, now) =>
      TimedOwned(snapshot, s, now);
      PushChecks(snapshot, policy, config, s.(now := now), frame);
  }

  lemma TimedOwned(snapshot: Snapshot, s: State, now: int)
    requires AllOwned(snapshot, s)
    ensures AllOwned(snapshot, s.(now := now))
  {
  }

  lemma TimedDrain(snapshot: Snapshot, config: Config, s: State, now: int, force: bool, strict: bool)
    requires config.Valid() && AllOwned(snapshot, s)
    ensures var (ms, t) := Drain(config, s.(now := now), force, strict);
            && AllOwned(snapshot, t) && CheckAll(snapshot, config, s.used, ms) == Some(t.used)
            && t.blocked == s.blocked && Anchors(ms) + t.buffers.wrist == s.buffers.wrist
            && (s.buffers.wrist == [] ==> ms == [])
  {
    hide AllOwned, CheckAll;
    TimedOwned(snapshot, s, now);
    DrainChecks(snapshot, config, s.(now := now), force, strict);
    DrainConserves(config, s.(now := now), force, strict);
  }

  lemma EmptiedOwned(snapshot: Snapshot, s: State)
    requires AllOwned(snapshot, s)
    ensures AllOwned(snapshot, s.(buffers := NO_FRAMES))
  {
  }

  lemma InvalidatedOwned(snapshot: Snapshot, s: State)
    ensures AllOwned(snapshot, Invalidated(s).(blocked := true))
  {
  }

  lemma PushChecks(snapshot: Snapshot, policy: Policy, config: Config, s: State, frame: Frame)
    requires config.Valid() && (s.blocked ==> s.buffers.wrist == []) && AllOwned(snapshot, s)
    requires frame.color.sourceId == snapshot.cameras.Get(frame.role) && frame.color.simulated == snapshot.simulated
    ensures var (answer, t) := PushAt(policy, config, snapshot.clockId, s, frame);
            var checked := CheckAll(snapshot, config, s.used, answer.Decisions());
            && AllOwned(snapshot, t) && (t.blocked ==> t.buffers.wrist == [])
            && checked.Some? && (!t.blocked ==> checked == Some(t.used)) && (s.blocked ==> t.blocked)
            && (s.blocked ==> answer.Decisions() == [])
  {
    hide Drain, Arrive, AllOwned, CheckAll;
    RejectionsSkipped(snapshot, config, s.used, []);
    if !s.blocked && frame.ReceivedNs() <= s.now {
      if !ValidSource(snapshot.clockId, s, frame) {
        InvalidatedOwned(snapshot, s);
        RejectionsSkipped(snapshot, config, s.used, RejectAll(s.buffers.wrist, SourceFault, s.now));
      } else {
        DrainChecks(snapshot, config, s, false, true);
        DrainConserves(config, s, false, true);
        var (early, drained) := Drain(config, s, false, true);
        ArriveChecks(snapshot, policy, config, drained, frame);
        ArriveKeeps(policy, config, drained, frame);
        var (evicted, admitted) := Arrive(policy, config, drained, frame);
        DrainChecks(snapshot, config, admitted, false, false);
        DrainConserves(config, admitted, false, false);
        var (late, final) := Drain(config, admitted, false, false);
        CheckAllSplit(snapshot, config, s.used, early + evicted, late);
        CheckAllSplit(snapshot, config, s.used, early, evicted);
      }
    }
  }

  lemma ArriveKeeps(policy: Policy, config: Config, s: State, f: Frame)
    requires config.Valid()
    ensures var t := Arrive(policy, config, s, f).1;
            t.blocked == s.blocked && t.generation == s.generation && t.used == s.used && t.now == s.now
  {
    hide DropBefore;
  }

  /**
   * Within one generation, every accepted match of any run passes the archive's validator, which ends remembering
   * the matcher's own used frames unless a source fault has blocked the matcher.
   */
  lemma {:induction false} GroupsPassTheArchive(
    snapshot: Snapshot, policy: Policy, config: Config, s: State, ops: seq<Operation>
  )
    requires config.Valid() && AllOwned(snapshot, s) && (s.blocked ==> s.buffers.wrist == [])
    requires Described(snapshot, ops) && forall i :: 0 <= i < |ops| ==> !ops[i].Reset?
    ensures var (answers, t) := Run(policy, config, snapshot.clockId, s, ops);
            var checked := CheckAll(snapshot, config, s.used, Decisions(answers));
            && checked.Some? && (!t.blocked ==> checked == Some(t.used))
            && (s.blocked ==> Decisions(answers) == [])
    decreases |ops|
  {
    hide Step, AllOwned, CheckAll;
    RejectionsSkipped(snapshot, config, s.used, []);
    if ops != [] {
      var (answer, next) := Step(policy, config, snapshot.clockId, s, ops[0]);
      assert Described(snapshot, [ops[0]]);
      StepChecks(snapshot, policy, config, s, ops[0]);
      GroupsPassTheArchive(snapshot, policy, config, next, ops[1..]);
      var (rest, t) := Run(policy, config, snapshot.clockId, next, ops[1..]);
      assert ([answer] + rest)[0] == answer && ([answer] + rest)[1..] == rest;
      CheckAllSplit(snapshot, config, s.used, answer.Decisions(), Decisions(rest));
      if next.blocked {
        assert answer.Decisions() + [] == answer.Decisions();
        StaysBlocked(policy, config, snapshot.clockId, next, ops[1..]);
      }
    }
  }

  /**
   * A new matcher, and one that has just been reset from any state at all, begin a generation whose accepted groups
   * the archive's empty validator takes to the last one.
   */
  lemma GenerationPasses(
    snapshot: Snapshot, policy: Policy, config: Config, s: State, generation: int, ops: seq<Operation>
  )
    requires config.Valid() && 0 <= generation && s.generation < generation
    requires Described(snapshot, ops) && forall i :: 0 <= i < |ops| ==> !ops[i].Reset?
    ensures var started := Step(policy, config, snapshot.clockId, s, Reset(generation)).1;
            CheckAll(snapshot, config, NOTHING,
                     Decisions(Run(policy, config, snapshot.clockId, started, ops).0)).Some?
    ensures CheckAll(snapshot, config, NOTHING,
                     Decisions(Run(policy, config, snapshot.clockId, INITIAL, ops).0)).Some?
  {
    var started := Step(policy, config, snapshot.clockId, s, Reset(generation)).1;
    StartedOwned(snapshot, started);
    StartedOwned(snapshot, INITIAL);
    hide CheckAll, Run, AllOwned, Described;
    GroupsPassTheArchive(snapshot, policy, config, started, ops);
    GroupsPassTheArchive(snapshot, policy, config, INITIAL, ops);
  }

  lemma StartedOwned(snapshot: Snapshot, s: State)
    requires s.buffers == NO_FRAMES && s.used == NOTHING
    ensures AllOwned(snapshot, s)
  {
  }

  lemma {:induction false} StaysBlocked(policy: Policy, config: Config, clockId: string, s: State, ops: seq<Operation>)
    requires config.Valid() && s.blocked && forall i :: 0 <= i < |ops| ==> !ops[i].Reset?
    ensures Run(policy, config, clockId, s, ops).1.blocked
    decreases |ops|
  {
    hide Drain, Arrive;
    if ops != [] {
      match ops[0] {
        case Advance(now) => DrainConserves(config, s.(now := now), false, false);
        case Finish(now) => DrainConserves(config, s.(now := now), true, false);
        case Push(_, _) =>
      }
      StaysBlocked(policy, config, clockId, Step(policy, config, clockId, s, ops[0]).1, ops[1..]);
    }
  }
}

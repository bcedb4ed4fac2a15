/** Deciding an anchor early, because every other camera has passed it, loses nothing. */
module MatchingEager {
  import opened Prelude
  import opened Contracts
  import opened MatchingSteps
  import opened MatchingProofs

  /** Consecutive frames of one camera: time and color number increase, depth number never decreases. */
  ghost predicate Chain(buffer: seq<Frame>) {
    forall i, j :: 0 <= i < j < |buffer| ==>
      && buffer[i].timestampNs < buffer[j].timestampNs
      && buffer[i].color.sequence < buffer[j].color.sequence
      && buffer[i].depth.sequence <= buffer[j].depth.sequence
  }

  ghost predicate DepthOrdered(buffer: seq<Frame>) {
    forall i, j :: 0 <= i < j < |buffer| ==> buffer[i].depthTimestampNs <= buffer[j].depthTimestampNs
  }

  /** A buffer is a chain that ends, unless it is empty, in the camera's newest frame. */
  ghost predicate Tidy(role: Role, buffer: seq<Frame>, last: Option<Frame>) {
    && Chain(buffer)
    && (forall i :: 0 <= i < |buffer| ==> buffer[i].role == role)
    && (buffer != [] ==> last == Some(Bare(buffer[|buffer| - 1])))
  }

  ghost predicate Coherent(s: State) {
    && Tidy(Wrist, s.buffers.wrist, s.last.wrist)
    && Tidy(ThirdLeft, s.buffers.left, s.last.left)
    && Tidy(ThirdRight, s.buffers.right, s.last.right)
  }

  ghost predicate DepthCoherent(s: State) {
    Coherent(s) && DepthOrdered(s.buffers.left) && DepthOrdered(s.buffers.right)
  }

  // Every reachable state is coherent.

  lemma TidySuffix(role: Role, buffer: seq<Frame>, last: Option<Frame>, k: nat)
    requires Tidy(role, buffer, last) && k <= |buffer|
    ensures Tidy(role, buffer[k..], last)
  {
  }

  lemma TidyAppend(role: Role, buffer: seq<Frame>, last: Option<Frame>, f: Frame)
    requires Tidy(role, buffer, last) && f.role == role
    requires last.Some? ==> f.timestampNs > last.value.timestampNs && f.color.sequence > last.value.color.sequence
                            && f.depth.sequence >= last.value.depth.sequence
    ensures Tidy(role, buffer + [f], Some(Bare(f)))
  {
    if buffer != [] {
      var tail := buffer[|buffer| - 1];
      forall i | 0 <= i < |buffer|
        ensures buffer[i].timestampNs < f.timestampNs && buffer[i].color.sequence < f.color.sequence
                && buffer[i].depth.sequence <= f.depth.sequence
      {
        assert i == |buffer| - 1 || buffer[i].timestampNs < tail.timestampNs;
      }
    }
  }

  /** The drained state keeps newest frames and third cameras, and a suffix of the wrist buffer. */
  lemma DrainCoherent(config: Config, s: State, force: bool, strict: bool)
    requires Coherent(s)
    ensures Coherent(Drain(config, s, force, strict).1)
  {
    hide Drain, Tidy;
    DrainConserves(config, s, force, strict);
    var (ms, t) := Drain(config, s, force, strict);
    assert t.buffers.wrist == s.buffers.wrist[|ms|..] by {
      assert (Anchors(ms) + t.buffers.wrist)[|ms|..] == t.buffers.wrist;
    }
    TidySuffix(Wrist, s.buffers.wrist, s.last.wrist, |ms|);
  }

  /** A buffer after admission: what pruning and room-making left of it, and the new frame. */
  lemma ArriveShape(policy: Policy, config: Config, s: State, f: Frame, role: Role) returns (k: nat)
    requires config.Valid()
    ensures k <= |s.buffers.Get(role)|
    ensures var t := Arrive(policy, config, s, f).1;
            && t.buffers.Get(role) == s.buffers.Get(role)[k..] + (if role == f.role then [f] else [])
            && t.last == s.last.Put(f.role, Some(Bare(f)))
            && t.used == s.used && t.now == s.now && t.generation == s.generation && t.blocked == s.blocked
    ensures var trimmed := Trimmed(policy, config, s, f).buffers.Get(role);
            var full := role == f.role && Full(policy, config, Trimmed(policy, config, s, f), role);
            k == |s.buffers.Get(role)| - |trimmed| + (if full then 1 else 0)
  {
    var trimmed := Trimmed(policy, config, s, f);
    TrimmedSuffix(policy, config, s, f, role);
    hide Trimmed;
    TrimmedFrame(policy, config, s, f);
    k := |s.buffers.Get(role)| - |trimmed.buffers.Get(role)|;
    var t := Arrive(policy, config, s, f).1;
    if role == f.role && Full(policy, config, trimmed, role) {
      k := k + 1;
      assert s.buffers.Get(role)[k - 1..][1..] == s.buffers.Get(role)[k..];
    }
  }

  lemma TrimmedSuffix(policy: Policy, config: Config, s: State, f: Frame, role: Role)
    ensures var t := Trimmed(policy, config, s, f);
            var b, c := s.buffers.Get(role), t.buffers.Get(role);
            && |c| <= |b| && c == b[|b| - |c|..] && t.last == s.last.Put(f.role, Some(Bare(f)))
            && (forall i :: 0 <= i < |b| - |c| ==>
                  Oldest(Remembered(s, f)).Some?
                  && b[i].timestampNs < Oldest(Remembered(s, f)).value.timestampNs - config.maxSkewNs)
  {
    hide DropBefore;
    var anchor := Oldest(Remembered(s, f));
    if anchor.Some? {
      DropBeforeIsSuffix(anchor.value.timestampNs - config.maxSkewNs, s.buffers.left);
      DropBeforeIsSuffix(anchor.value.timestampNs - config.maxSkewNs, s.buffers.right);
    }
  }

  ghost predicate Follows(s: State, f: Frame) {
    var last := s.last.Get(f.role);
    last.Some? ==> f.timestampNs > last.value.timestampNs && f.color.sequence > last.value.color.sequence
                   && f.depth.sequence >= last.value.depth.sequence
  }

  lemma ArriveTidy(policy: Policy, config: Config, s: State, f: Frame, role: Role)
    requires config.Valid() && Follows(s, f) && Tidy(role, s.buffers.Get(role), s.last.Get(role))
    ensures var t := Arrive(policy, config, s, f).1; Tidy(role, t.buffers.Get(role), t.last.Get(role))
  {
    var k := ArriveShape(policy, config, s, f, role);
    hide Arrive, Tidy;
    TidySuffix(role, s.buffers.Get(role), s.last.Get(role), k);
    if role == f.role {
      TidyAppend(role, s.buffers.Get(role)[k..], s.last.Get(role), f);
    } else {
      assert s.buffers.Get(role)[k..] + [] == s.buffers.Get(role)[k..];
    }
  }

  lemma ArriveCoherent(policy: Policy, config: Config, s: State, f: Frame)
    requires config.Valid() && Coherent(s) && Follows(s, f)
    ensures Coherent(Arrive(policy, config, s, f).1)
  {
    hide Arrive, Tidy;
    ArriveTidy(policy, config, s, f, Wrist);
    ArriveTidy(policy, config, s, f, ThirdLeft);
    ArriveTidy(policy, config, s, f, ThirdRight);
  }

  lemma StepCoherent(policy: Policy, config: Config, clockId: string, s: State, op: Operation)
    requires config.Valid() && Coherent(s)
    ensures Coherent(Step(policy, config, clockId, s, op).1)
  {
    hide Drain, Arrive, Chain;
    match op
    case Reset(_) => EmptyChain();
    case Advance(now) => DrainCoherent(config, s.(now := now), false, false);
    case Finish(now) => EmptyChain();
    case Push(frame, now) =>
      EmptyChain();
      var timed := s.(now := now);
      if now >= 0 && now >= s.now && !s.blocked && ValidSource(clockId, timed, frame) {
        DrainCoherent(config, timed, false, true);
        DrainConserves(config, timed, false, true);
        var drained := Drain(config, timed, false, true).1;
        ArriveCoherent(policy, config, drained, frame);
        DrainCoherent(config, Arrive(policy, config, drained, frame).1, false, false);
      }
  }

  lemma EmptyChain()
    ensures Chain([])
  {
  }

  /** Every state of every run is coherent, including the ones a drain starts from. */
  lemma {:induction false} RunCoherent(policy: Policy, config: Config, clockId: string, s: State, ops: seq<Operation>)
    requires config.Valid() && Coherent(s)
    ensures Coherent(Run(policy, config, clockId, s, ops).1)
    decreases |ops|
  {
    hide Step, Coherent;
    if ops != [] {
      StepCoherent(policy, config, clockId, s, ops[0]);
      RunCoherent(policy, config, clockId, Step(policy, config, clockId, s, ops[0]).1, ops[1..]);
    }
  }

  // One camera's choice.

  /** In a chain with ordered depth, the frames after a fresh one are fresh too. */
  lemma FreshAfter(buffer: seq<Frame>, used: Option<Frame>, i: nat, j: nat)
    requires Chain(buffer) && DepthOrdered(buffer) && i <= j < |buffer| && Freshness(buffer[i], used) == Accepted
    ensures Freshness(buffer[j], used) == Accepted
  {
  }

  /**
   * Once a camera has passed the anchor, neither later frames nor the pruning of frames out of reach change an
   * accepted choice.
   */
  lemma ChoiceIsFinal(config: Config, anchor: Frame, used: Option<Frame>, before: seq<Frame>, k: nat, more: seq<Frame>)
    requires Chain(before + more) && DepthOrdered(before + more) && k <= |before|
    requires forall i :: 0 <= i < k ==> before[i].timestampNs < anchor.timestampNs - config.maxSkewNs
    requires Select(config, anchor, before, used).0.Some?
    requires before != [] && before[|before| - 1].timestampNs >= anchor.timestampNs
    ensures Select(config, anchor, before[k..] + more, used) == Select(config, anchor, before, used)
  {
    hide *;
    var all, after := before + more, before[k..] + more;
    SelectIsNearest(config, anchor, before, used);
    SelectIsNearest(config, anchor, after, used);
    var m := Select(config, anchor, before, used).0.value;
    var i := PositionAfter(config, anchor, used, before, k, more, m);
    TailSurvives(config, anchor, used, before, k, more, i);
    var n := Select(config, anchor, after, used).0.value;
    var j :| 0 <= j < |after| && after[j] == n;
    assert all[j + k] == n;
    SameChoice(config, anchor, used, all, i, |before| - 1, j + k) by {
      assert after[|before| - 1 - k] == before[|before| - 1] == all[|before| - 1];
      assert j + k < |before| ==> before[j + k] == n;
    }
  }

  /** A candidate of the unpruned buffer is still there after pruning and arrivals. */
  lemma PositionAfter(
    config: Config, anchor: Frame, used: Option<Frame>, before: seq<Frame>, k: nat, more: seq<Frame>, m: Frame
  ) returns (i: nat)
    requires k <= |before| && m in before && IsCandidate(config, anchor, used, m)
    requires forall i :: 0 <= i < k ==> before[i].timestampNs < anchor.timestampNs - config.maxSkewNs
    ensures k <= i < |before| && before[i] == m && (before + more)[i] == m && (before[k..] + more)[i - k] == m
    ensures m in before[k..] + more
  {
    hide Freshness;
    i :| 0 <= i < |before| && before[i] == m;
    assert (before[k..] + more)[i - k] == m;
  }

  /** Pruning keeps the frame that passed the anchor, and it is a candidate if it is near. */
  lemma TailSurvives(
    config: Config, anchor: Frame, used: Option<Frame>, before: seq<Frame>, k: nat, more: seq<Frame>, i: nat
  )
    requires k <= i < |before|
    ensures (before[k..] + more)[|before| - 1 - k] == before[|before| - 1] == (before + more)[|before| - 1]
    ensures before[|before| - 1] in before[k..] + more
  {
    assert (before[k..] + more)[|before| - 1 - k] == before[|before| - 1];
  }

  /** Two nearest choices, one at or before the tail and one anywhere, are the same frame. */
  lemma SameChoice(config: Config, anchor: Frame, used: Option<Frame>, all: seq<Frame>, i: nat, tail: nat, n: nat)
    requires Chain(all) && DepthOrdered(all) && i <= tail < |all| && n < |all|
    requires IsCandidate(config, anchor, used, all[i]) && IsCandidate(config, anchor, used, all[n])
    requires all[tail].timestampNs >= anchor.timestampNs
    requires n <= tail ==> NoLater(anchor, all[i], all[n])
    requires NoLater(anchor, all[n], all[i])
    requires IsCandidate(config, anchor, used, all[tail]) ==> NoLater(anchor, all[n], all[tail])
    ensures all[i] == all[n]
  {
    if n <= tail {
      MutuallyNearest(anchor, all[i], all[n]);
      ChainInjective(all, i, n);
    } else {
      TailIsNearer(config, anchor, used, all, i, tail, n);
      assert false;
    }
  }

  lemma MutuallyNearest(anchor: Frame, a: Frame, b: Frame)
    requires NoLater(anchor, a, b) && NoLater(anchor, b, a)
    ensures a.timestampNs == b.timestampNs
  {
  }

  /** The newest frame past the anchor is eligible when an earlier one is, and nearer than every later one. */
  lemma TailIsNearer(config: Config, anchor: Frame, used: Option<Frame>, all: seq<Frame>, i: nat, tail: nat, n: nat)
    requires Chain(all) && DepthOrdered(all) && i <= tail < n < |all|
    requires IsCandidate(config, anchor, used, all[i]) && Near(config, anchor, all[n])
    requires all[tail].timestampNs >= anchor.timestampNs
    ensures IsCandidate(config, anchor, used, all[tail]) && !NoLater(anchor, all[n], all[tail])
  {
    FreshAfter(all, used, i, tail);
  }

  lemma ChainInjective(buffer: seq<Frame>, i: nat, j: nat)
    requires Chain(buffer) && i < |buffer| && j < |buffer| && buffer[i].timestampNs == buffer[j].timestampNs
    ensures i == j
  {
  }

  // Deferring a decision.

  /** Admit frames without deciding anything. */
  function Arrivals(config: Config, s: State, frames: seq<Frame>): State
    requires config.Valid()
    decreases |frames|
  {
    if frames == [] then s else Arrivals(config, Arrive(ONLINE, config, s, frames[0]).1, frames[1..])
  }

  /** One valid arrival that overflows no buffer and whose depth time does not move back. */
  ghost predicate Timely(config: Config, clockId: string, s: State, f: Frame)
    requires config.Valid()
  {
    && ValidSource(clockId, s, f)
    && !Full(ONLINE, config, Trimmed(ONLINE, config, s, f), f.role)
    && (s.last.Get(f.role).Some? ==> f.depthTimestampNs >= s.last.Get(f.role).value.depthTimestampNs)
  }

  ghost predicate AllTimely(config: Config, clockId: string, s: State, frames: seq<Frame>)
    requires config.Valid()
    decreases |frames|
  {
    frames == [] ||
    (Timely(config, clockId, s, frames[0])
     && AllTimely(config, clockId, Arrive(ONLINE, config, s, frames[0]).1, frames[1..]))
  }

  /** An anchor at the head of the wrist buffer that both other cameras have passed. */
  ghost predicate Pending(s: State, anchor: Frame) {
    && s.buffers.wrist != [] && s.buffers.wrist[0] == anchor && Ready(s, anchor)
    && DepthCoherent(s)
  }

  function Arriving(f: Frame, role: Role): seq<Frame> {
    if role == f.role then [f] else []
  }

  /** What pruning took from a camera is out of the pending anchor's reach. */
  lemma CameraShape(config: Config, s: State, f: Frame, anchor: Frame, role: Role) returns (k: nat)
    requires config.Valid() && s.buffers.wrist != [] && s.buffers.wrist[0] == anchor
    requires !Full(ONLINE, config, Trimmed(ONLINE, config, s, f), f.role)
    ensures k <= |s.buffers.Get(role)|
    ensures Arrive(ONLINE, config, s, f).1.buffers.Get(role) == s.buffers.Get(role)[k..] + Arriving(f, role)
    ensures Arrive(ONLINE, config, s, f).1.last == s.last.Put(f.role, Some(Bare(f)))
    ensures forall i :: 0 <= i < k ==> s.buffers.Get(role)[i].timestampNs < anchor.timestampNs - config.maxSkewNs
  {
    k := ArriveShape(ONLINE, config, s, f, role);
    TrimmedSuffix(ONLINE, config, s, f, role);
    hide Arrive, Trimmed;
    assert Oldest(Remembered(s, f)) == Some(anchor);
  }

  /** An arrival extends its camera's chain. */
  lemma CameraChain(s: State, f: Frame, role: Role)
    requires Tidy(role, s.buffers.Get(role), s.last.Get(role)) && DepthOrdered(s.buffers.Get(role)) && Follows(s, f)
    requires s.last.Get(f.role).Some? ==> f.depthTimestampNs >= s.last.Get(f.role).value.depthTimestampNs
    requires s.buffers.Get(role) != []
    ensures var all := s.buffers.Get(role) + Arriving(f, role); Chain(all) && DepthOrdered(all)
  {
    var before := s.buffers.Get(role);
    if role == f.role {
      TidyAppend(role, before, s.last.Get(role), f);
      DepthAppend(before, f);
    } else {
      assert before + [] == before;
    }
  }

  lemma PendingCamera(config: Config, s: State, anchor: Frame, role: Role)
    requires Pending(s, anchor) && !role.Wrist?
    requires Select(config, anchor, s.buffers.Get(role), s.used.Get(role)).0.Some?
    ensures var before := s.buffers.Get(role);
            && Tidy(role, before, s.last.Get(role)) && DepthOrdered(before) && Passed(s.last.Get(role), anchor)
            && before != [] && before[|before| - 1].timestampNs >= anchor.timestampNs
    ensures s.buffers.wrist != [] && s.buffers.wrist[0] == anchor
  {
    SelectIsNearest(config, anchor, s.buffers.Get(role), s.used.Get(role));
    hide Select, Chain, DepthOrdered;
  }

  lemma TimelyFollows(config: Config, clockId: string, s: State, f: Frame)
    requires config.Valid() && Timely(config, clockId, s, f)
    ensures Follows(s, f)
    ensures !Full(ONLINE, config, Trimmed(ONLINE, config, s, f), f.role)
    ensures s.last.Get(f.role).Some? ==> f.depthTimestampNs >= s.last.Get(f.role).value.depthTimestampNs
  {
    hide Trimmed;
  }

  lemma CameraArrival(config: Config, clockId: string, s: State, f: Frame, anchor: Frame, role: Role)
    requires config.Valid() && Pending(s, anchor) && Timely(config, clockId, s, f) && !role.Wrist?
    requires Select(config, anchor, s.buffers.Get(role), s.used.Get(role)).0.Some?
    ensures var t := Arrive(ONLINE, config, s, f).1;
            && Select(config, anchor, t.buffers.Get(role), s.used.Get(role))
               == Select(config, anchor, s.buffers.Get(role), s.used.Get(role))
            && DepthOrdered(t.buffers.Get(role))
  {
    hide *;
    PendingCamera(config, s, anchor, role);
    TimelyFollows(config, clockId, s, f);
    var k := CameraShape(config, s, f, anchor, role);
    var before := s.buffers.Get(role);
    CameraChain(s, f, role);
    ChoiceIsFinal(config, anchor, s.used.Get(role), before, k, Arriving(f, role));
    DepthSuffix(before + Arriving(f, role), k);
    assert (before + Arriving(f, role))[k..] == before[k..] + Arriving(f, role);
  }

  lemma StillPassed(config: Config, s: State, f: Frame, anchor: Frame)
    requires config.Valid() && Ready(s, anchor) && Follows(s, f)
    ensures Ready(Arrive(ONLINE, config, s, f).1, anchor)
  {
    var k := ArriveShape(ONLINE, config, s, f, Wrist);
    hide Arrive;
  }

  lemma DepthSuffix(buffer: seq<Frame>, k: nat)
    requires DepthOrdered(buffer) && k <= |buffer|
    ensures DepthOrdered(buffer[k..])
  {
  }

  lemma DepthAppend(buffer: seq<Frame>, f: Frame)
    requires DepthOrdered(buffer) && buffer != [] && f.depthTimestampNs >= buffer[|buffer| - 1].depthTimestampNs
    ensures DepthOrdered(buffer + [f])
  {
    forall i | 0 <= i < |buffer|
      ensures buffer[i].depthTimestampNs <= f.depthTimestampNs
    {
      assert i == |buffer| - 1 || buffer[i].depthTimestampNs <= buffer[|buffer| - 1].depthTimestampNs;
    }
  }

  /** One arrival leaves a pending, acceptable anchor pending with the same decision. */
  lemma ArrivalKeepsDecision(config: Config, clockId: string, s: State, f: Frame, anchor: Frame)
    requires config.Valid() && Pending(s, anchor) && Timely(config, clockId, s, f)
    requires Decide(config, s, anchor).0.reason == Accepted
    ensures var t := Arrive(ONLINE, config, s, f).1;
            Pending(t, anchor) && Decide(config, t, anchor).0 == Decide(config, s, anchor).0
  {
    AcceptedChoices(config, s, anchor);
    CameraArrival(config, clockId, s, f, anchor, ThirdLeft);
    CameraArrival(config, clockId, s, f, anchor, ThirdRight);
    TimelyFollows(config, clockId, s, f);
    StillPassed(config, s, f, anchor);
    ArriveCoherent(ONLINE, config, s, f);
    var k := ArriveShape(ONLINE, config, s, f, Wrist);
    TrimmedFrame(ONLINE, config, s, f);
    hide Arrive, Select, Freshness, Trimmed, ValidSource, DepthOrdered, Coherent;
    assert k == 0;
    assert s.buffers.wrist[0..] == s.buffers.wrist;
  }

  lemma AcceptedChoices(config: Config, s: State, anchor: Frame)
    requires Decide(config, s, anchor).0.reason == Accepted
    ensures Select(config, anchor, s.buffers.left, s.used.left).0.Some?
    ensures Select(config, anchor, s.buffers.right, s.used.right).0.Some?
  {
    SelectIsNearest(config, anchor, s.buffers.left, s.used.left);
    SelectIsNearest(config, anchor, s.buffers.right, s.used.right);
    hide Select;
  }

  /**
   * An anchor accepted as soon as every other camera has passed it gets the same three members when it is decided
   * after any further valid arrivals instead.
   */
  lemma {:induction false} EagerAcceptanceIsFinal(
    config: Config, clockId: string, s: State, frames: seq<Frame>, anchor: Frame
  )
    requires config.Valid() && Pending(s, anchor) && AllTimely(config, clockId, s, frames)
    requires Decide(config, s, anchor).0.reason == Accepted
    ensures Decide(config, Arrivals(config, s, frames), anchor).0 == Decide(config, s, anchor).0
    ensures Pending(Arrivals(config, s, frames), anchor)
    decreases |frames|
  {
    hide Arrive, Decide, Pending, Timely;
    if frames != [] {
      ArrivalKeepsDecision(config, clockId, s, frames[0], anchor);
      EagerAcceptanceIsFinal(config, clockId, Arrive(ONLINE, config, s, frames[0]).1, frames[1..], anchor);
    }
  }

  /** A decision does not look at the wrist buffer its anchor left. */
  lemma DecidesFromThirds(config: Config, s: State)
    requires s.buffers.wrist != []
    ensures Decide(config, Popped(s), s.buffers.wrist[0]).0 == Decide(config, s, s.buffers.wrist[0]).0
  {
    hide Select, Freshness;
  }

  /**
   * The drain that finds an anchor ready and accepts it, and any later drain, timed or forced, that first sees the
   * anchor after more valid arrivals, begin with the same match.
   */
  lemma EagerDrainIsFinal(
    config: Config, clockId: string, s: State, frames: seq<Frame>, anchor: Frame, force: bool, strict: bool
  )
    requires config.Valid() && Pending(s, anchor) && AllTimely(config, clockId, s, frames)
    requires Decide(config, s, anchor).0.reason == Accepted
    ensures var early := Drain(config, s, false, true).0;
            var late := Drain(config, Arrivals(config, s, frames), force, strict).0;
            && early != [] && late != [] && early[0] == late[0]
            && early[0].anchor == anchor && early[0].reason == Accepted && |early[0].members| == 3
  {
    var t := Arrivals(config, s, frames);
    EagerAcceptanceIsFinal(config, clockId, s, frames, anchor);
    AcceptedShape(config, s, anchor);
    hide Decide, Arrivals, DepthCoherent, AllTimely, Ready;
    DecidesFromThirds(config, s);
    DecidesFromThirds(config, t);
  }

  lemma AcceptedShape(config: Config, s: State, anchor: Frame)
    requires Decide(config, s, anchor).0.reason == Accepted
    ensures Decide(config, s, anchor).0.anchor == anchor && |Decide(config, s, anchor).0.members| == 3
  {
    SelectIsNearest(config, anchor, s.buffers.left, s.used.left);
    SelectIsNearest(config, anchor, s.buffers.right, s.used.right);
    hide Select, Freshness;
  }

  // Runs whose depth times never move back reach only the states the finality theorems speak of.

  predicate DepthFollows(s: State, f: Frame) {
    s.last.Get(f.role).Some? ==> f.depthTimestampNs >= s.last.Get(f.role).value.depthTimestampNs
  }

  /** No admitted frame's depth time lies before that of its camera's newest frame. */
  ghost predicate DepthNeverBack(policy: Policy, config: Config, clockId: string, s: State, ops: seq<Operation>)
    requires config.Valid()
    decreases |ops|
  {
    ops == [] ||
    ((ops[0].Push? && ValidSource(clockId, s, ops[0].frame) ==> DepthFollows(s, ops[0].frame))
     && DepthNeverBack(policy, config, clockId, Step(policy, config, clockId, s, ops[0]).1, ops[1..]))
  }

  lemma DrainDepth(config: Config, s: State, force: bool, strict: bool)
    requires DepthCoherent(s)
    ensures DepthCoherent(Drain(config, s, force, strict).1)
  {
    DrainCoherent(config, s, force, strict);
    DrainConserves(config, s, force, strict);
    hide Drain, Coherent, DepthOrdered;
  }

  lemma ArriveDepthCamera(policy: Policy, config: Config, s: State, f: Frame, role: Role)
    requires config.Valid() && Tidy(role, s.buffers.Get(role), s.last.Get(role)) && DepthFollows(s, f)
    requires DepthOrdered(s.buffers.Get(role))
    ensures DepthOrdered(Arrive(policy, config, s, f).1.buffers.Get(role))
  {
    hide Arrive, Chain, DepthOrdered, Trimmed;
    var k := ArriveShape(policy, config, s, f, role);
    var before := s.buffers.Get(role);
    DepthSuffix(before, k);
    if role == f.role {
      if before[k..] == [] {
        assert before[k..] + [f] == [f];
        DepthOne(f);
      } else {
        assert before[k..][|before[k..]| - 1] == before[|before| - 1];
        DepthAppend(before[k..], f);
      }
    } else {
      assert before[k..] + [] == before[k..];
    }
  }

  lemma DepthOne(f: Frame)
    ensures DepthOrdered([f])
  {
  }

  lemma ArriveDepth(policy: Policy, config: Config, s: State, f: Frame)
    requires config.Valid() && DepthCoherent(s) && Follows(s, f) && DepthFollows(s, f)
    ensures DepthCoherent(Arrive(policy, config, s, f).1)
  {
    ArriveCoherent(policy, config, s, f);
    hide Arrive, Tidy, DepthOrdered, Follows, DepthFollows;
    ArriveDepthCamera(policy, config, s, f, ThirdLeft);
    ArriveDepthCamera(policy, config, s, f, ThirdRight);
  }

  /** The state in which a push has admitted its frame and not yet drained what became ready. */
  function Admitting(policy: Policy, config: Config, s: State, f: Frame, now: int): State
    requires config.Valid()
  {
    Arrive(policy, config, Drain(config, s.(now := now), false, true).1, f).1
  }

  lemma SourceFollows(clockId: string, s: State, f: Frame)
    requires ValidSource(clockId, s, f)
    ensures Follows(s, f)
  {
  }

  lemma AdmittingDepth(policy: Policy, config: Config, clockId: string, s: State, f: Frame, now: int)
    requires config.Valid() && DepthCoherent(s) && ValidSource(clockId, s, f) && DepthFollows(s, f)
    ensures DepthCoherent(Admitting(policy, config, s, f, now))
  {
    var timed := s.(now := now);
    SourceFollows(clockId, s, f);
    assert DepthCoherent(timed) by {
      hide Tidy, DepthOrdered;
    }
    DrainDepth(config, timed, false, true);
    DrainConserves(config, timed, false, true);
    var drained := Drain(config, timed, false, true).1;
    assert Follows(drained, f) && DepthFollows(drained, f);
    hide Drain, Arrive, DepthCoherent, Follows, DepthFollows;
    ArriveDepth(policy, config, drained, f);
  }

  lemma NothingDepthCoherent(s: State)
    requires s.buffers == NO_FRAMES
    ensures DepthCoherent(s)
  {
  }

  lemma PushDepth(policy: Policy, config: Config, clockId: string, s: State, frame: Frame, now: int)
    requires config.Valid() && DepthCoherent(s) && (ValidSource(clockId, s, frame) ==> DepthFollows(s, frame))
    ensures DepthCoherent(Step(policy, config, clockId, s, Push(frame, now)).1)
  {
    var t := Step(policy, config, clockId, s, Push(frame, now)).1;
    TimedDepth(s, now);
    assert ValidSource(clockId, s.(now := now), frame) == ValidSource(clockId, s, frame);
    hide DepthCoherent, Drain, Arrive, DepthFollows, ValidSource;
    if ValidSource(clockId, s, frame) {
      AdmittingDepth(policy, config, clockId, s, frame, now);
      DrainDepth(config, Admitting(policy, config, s, frame, now), false, false);
    }
    if t.buffers == NO_FRAMES {
      NothingDepthCoherent(t);
    }
  }

  lemma StepDepth(policy: Policy, config: Config, clockId: string, s: State, op: Operation)
    requires config.Valid() && DepthCoherent(s)
    requires op.Push? && ValidSource(clockId, s, op.frame) ==> DepthFollows(s, op.frame)
    ensures DepthCoherent(Step(policy, config, clockId, s, op).1)
  {
    var t := Step(policy, config, clockId, s, op).1;
    match op {
      case Reset(_) =>
        if t != s {
          NothingDepthCoherent(t);
        }
      case Advance(now) =>
        TimedDepth(s, now);
        DrainDepth(config, s.(now := now), false, false);
      case Finish(_) =>
        if t != s {
          NothingDepthCoherent(t);
        }
      case Push(frame, now) =>
        PushDepth(policy, config, clockId, s, frame, now);
    }
    hide DepthCoherent, Drain, Arrive, DepthFollows, ValidSource;
  }

  lemma TimedDepth(s: State, now: int)
    requires DepthCoherent(s)
    ensures DepthCoherent(s.(now := now))
  {
    hide Tidy, DepthOrdered;
  }

  /** While no camera's depth time moves back, every state of every run has tidy, depth-ordered buffers. */
  lemma {:induction false} RunDepthCoherent(
    policy: Policy, config: Config, clockId: string, s: State, ops: seq<Operation>
  )
    requires config.Valid() && DepthCoherent(s) && DepthNeverBack(policy, config, clockId, s, ops)
    ensures DepthCoherent(Run(policy, config, clockId, s, ops).1)
    decreases |ops|
  {
    hide Step, DepthCoherent, DepthFollows, ValidSource;
    if ops != [] {
      StepDepth(policy, config, clockId, s, ops[0]);
      RunDepthCoherent(policy, config, clockId, Step(policy, config, clockId, s, ops[0]).1, ops[1..]);
    }
  }

  /**
   * From a new matcher, over any run and any push in which no camera's depth time moves back: the anchor that the push
   * finds ready and acceptable is accepted with the members that any later drain after more valid arrivals would give
   * it.
   */
  lemma EagerRunIsFinal(
    config: Config, clockId: string, ops: seq<Operation>, f: Frame, now: int, frames: seq<Frame>, anchor: Frame,
    force: bool, strict: bool
  )
    requires config.Valid() && DepthNeverBack(ONLINE, config, clockId, INITIAL, ops)
    requires var s := Run(ONLINE, config, clockId, INITIAL, ops).1; ValidSource(clockId, s, f) && DepthFollows(s, f)
    requires var t := Admitting(ONLINE, config, Run(ONLINE, config, clockId, INITIAL, ops).1, f, now);
             && t.buffers.wrist != [] && t.buffers.wrist[0] == anchor && Ready(t, anchor)
             && Decide(config, t, anchor).0.reason == Accepted && AllTimely(config, clockId, t, frames)
    ensures var t := Admitting(ONLINE, config, Run(ONLINE, config, clockId, INITIAL, ops).1, f, now);
            var early := Drain(config, t, false, false).0;
            var late := Drain(config, Arrivals(config, t, frames), force, strict).0;
            && early != [] && late != [] && early[0] == late[0]
            && early[0].anchor == anchor && early[0].reason == Accepted && |early[0].members| == 3
  {
    NothingDepthCoherent(INITIAL);
    RunDepthCoherent(ONLINE, config, clockId, INITIAL, ops);
    var s := Run(ONLINE, config, clockId, INITIAL, ops).1;
    AdmittingDepth(ONLINE, config, clockId, s, f, now);
    var t := Admitting(ONLINE, config, s, f, now);
    hide Run, Admitting, DepthNeverBack, DepthCoherent, Decide, Drain, ValidSource, AllTimely, Arrivals, DepthFollows;
    assert Pending(t, anchor);
    ReadyDrains(config, t, anchor);
    EagerDrainIsFinal(config, clockId, t, frames, anchor, force, strict);
  }

  /** A ready head is decided first, whatever the deadline rule. */
  lemma ReadyDrains(config: Config, s: State, anchor: Frame)
    requires s.buffers.wrist != [] && s.buffers.wrist[0] == anchor && Ready(s, anchor)
    ensures var strictly, loosely := Drain(config, s, false, true).0, Drain(config, s, false, false).0;
            strictly != [] && loosely != [] && strictly[0] == loosely[0]
  {
    hide Decide, Ready;
  }
}

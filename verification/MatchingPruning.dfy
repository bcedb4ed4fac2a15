/** Pruning and bounding the third cameras does not change which anchors are accepted, or with which members. */
module MatchingPruning {
  import opened Prelude
  import opened Contracts
  import opened MatchingSteps
  import opened MatchingProofs
  import opened MatchingEager

  /** The same decision, except that an emptied buffer reads as a missing view instead of an excessive skew. */
  predicate SameDecision(a: Match, b: Match) {
    && a.anchor == b.anchor && a.members == b.members && a.decidedNs == b.decidedNs
    && SameReason(a.reason, b.reason)
  }

  predicate SameReason(a: Reason, b: Reason) {
    a == b || (a == MissingView && b == ExcessiveSkew)
  }

  predicate SameDecisions(a: seq<Match>, b: seq<Match>) {
    |a| == |b| && forall i :: 0 <= i < |a| ==> SameDecision(a[i], b[i])
  }

  predicate SameAnswer(a: Answer, b: Answer) {
    match a
    case Matches(m) => b.Matches? && SameDecisions(m, b.matches)
    case Faulted(g, m) => b.Faulted? && b.generation == g && SameDecisions(m, b.rejections)
    case Refused => b == Refused
  }

  /** A frame too old for every pending anchor and for every future one. */
  ghost predicate Useless(config: Config, s: State, f: Frame) {
    && s.last.wrist.Some? && f.timestampNs < s.last.wrist.value.timestampNs - config.maxSkewNs
    && forall i :: 0 <= i < |s.buffers.wrist| ==> f.timestampNs < s.buffers.wrist[i].timestampNs - config.maxSkewNs
  }

  /** The reference buffer is the pruned one behind frames that no longer matter. */
  ghost predicate Extends(config: Config, s: State, small: seq<Frame>, large: seq<Frame>) {
    && |small| <= |large| && large[|large| - |small|..] == small
    && forall i :: 0 <= i < |large| - |small| ==> Useless(config, s, large[i])
  }

  ghost predicate Simulates(config: Config, s: State, r: State) {
    && r == s.(buffers := r.buffers)
    && s.buffers.wrist == r.buffers.wrist
    && Extends(config, s, s.buffers.left, r.buffers.left)
    && Extends(config, s, s.buffers.right, r.buffers.right)
  }

  // Decisions agree.

  lemma {:induction false} CandidatesIgnore(config: Config, anchor: Frame, large: seq<Frame>, k: nat)
    requires k <= |large|
    requires forall i :: 0 <= i < k ==> large[i].timestampNs < anchor.timestampNs - config.maxSkewNs
    ensures Candidates(config, anchor, large) == Candidates(config, anchor, large[k..])
    decreases k
  {
    if k > 0 {
      CandidatesIgnore(config, anchor, large[1..], k - 1);
      assert large[1..][k - 1..] == large[k..];
    } else {
      assert large[0..] == large;
    }
  }

  /** The pruned and the reference camera make the same choice. */
  lemma ChoicesAgree(config: Config, s: State, anchor: Frame, small: seq<Frame>, large: seq<Frame>, used: Option<Frame>)
    requires Extends(config, s, small, large) && s.buffers.wrist != [] && s.buffers.wrist[0] == anchor
    ensures var a, b := Select(config, anchor, small, used), Select(config, anchor, large, used);
            a.0 == b.0 && SameReason(a.1, b.1) && (a.1 == Accepted <==> b.1 == Accepted)
  {
    hide Candidates, Eligible, Closest, Freshness;
    CandidatesIgnore(config, anchor, large, |large| - |small|);
  }

  lemma DecisionsAgree(config: Config, s: State, r: State)
    requires Simulates(config, s, r) && s.buffers.wrist != []
    ensures var anchor := s.buffers.wrist[0];
            var (a, t) := Decide(config, Popped(s), anchor);
            var (b, u) := Decide(config, Popped(r), anchor);
            SameDecision(a, b) && Simulates(config, t, u)
  {
    var anchor := s.buffers.wrist[0];
    ChoicesAgree(config, s, anchor, s.buffers.left, r.buffers.left, s.used.left);
    ChoicesAgree(config, s, anchor, s.buffers.right, r.buffers.right, s.used.right);
    hide Select, Freshness, Extends;
    var (a, t) := Decide(config, Popped(s), anchor);
    var (b, u) := Decide(config, Popped(r), anchor);
    assert s.used == r.used && s.now == r.now;
    assert SameDecision(a, b) && t.used == u.used;
    ExtendsStays(config, s, t, s.buffers.left, r.buffers.left);
    ExtendsStays(config, s, t, s.buffers.right, r.buffers.right);
  }

  lemma ExtendsStays(config: Config, s: State, t: State, small: seq<Frame>, large: seq<Frame>)
    requires t.last.wrist == s.last.wrist && Extends(config, s, small, large)
    requires |t.buffers.wrist| <= |s.buffers.wrist|
             && t.buffers.wrist == s.buffers.wrist[|s.buffers.wrist| - |t.buffers.wrist|..]
    ensures Extends(config, t, small, large)
  {
    UselessStays(config, s, t);
  }

  /** Frames out of reach stay so while the wrist buffer only loses anchors. */
  lemma UselessStays(config: Config, s: State, t: State)
    requires t.last.wrist == s.last.wrist
    requires |t.buffers.wrist| <= |s.buffers.wrist|
             && t.buffers.wrist == s.buffers.wrist[|s.buffers.wrist| - |t.buffers.wrist|..]
    ensures forall f :: Useless(config, s, f) ==> Useless(config, t, f)
  {
  }

  lemma {:induction false} DrainsAgree(config: Config, s: State, r: State, force: bool, strict: bool)
    requires Simulates(config, s, r)
    ensures var (a, t) := Drain(config, s, force, strict);
            var (b, u) := Drain(config, r, force, strict);
            SameDecisions(a, b) && Simulates(config, t, u)
    decreases |s.buffers.wrist|
  {
    hide Decide, Expired, Ready, Extends;
    DueAgrees(config, s, r, force, strict);
    if Due(config, s, force, strict) {
      DecisionsAgree(config, s, r);
      DecidesPopped(config, s);
      var anchor := s.buffers.wrist[0];
      DrainsAgree(config, Decide(config, Popped(s), anchor).1, Decide(config, Popped(r), anchor).1, force, strict);
    }
  }

  lemma DueAgrees(config: Config, s: State, r: State, force: bool, strict: bool)
    requires Simulates(config, s, r)
    ensures Due(config, s, force, strict) == Due(config, r, force, strict)
  {
    hide Extends;
  }

  // Admissions agree.

  /** The pruned matcher has no room for a frame of a third camera. */
  predicate Overflows(config: Config, s: State, f: Frame) {
    !f.role.Wrist? && Full(ONLINE, config, Trimmed(ONLINE, config, s, f), f.role)
  }

  /** The newest wrist frame is later than every pending anchor. */
  lemma WristLast(s: State, i: nat)
    requires Coherent(s) && i < |s.buffers.wrist|
    ensures s.last.wrist.Some? && s.buffers.wrist[i].timestampNs <= s.last.wrist.value.timestampNs
  {
    assert i == |s.buffers.wrist| - 1
        || s.buffers.wrist[i].timestampNs < s.buffers.wrist[|s.buffers.wrist| - 1].timestampNs;
  }

  /** A frame older than every pending anchor, as a bound. */
  ghost predicate Below(s: State, bound: int) {
    forall i :: 0 <= i < |s.buffers.wrist| ==> bound < s.buffers.wrist[i].timestampNs
  }

  /** Older than the oldest pending anchor is older than all of them. */
  lemma BelowOldest(s: State, bound: int)
    requires Coherent(s) && s.buffers.wrist != [] && bound < s.buffers.wrist[0].timestampNs
    ensures Below(s, bound)
  {
    forall i | 0 <= i < |s.buffers.wrist|
      ensures bound < s.buffers.wrist[i].timestampNs
    {
      assert i == 0 || s.buffers.wrist[0].timestampNs < s.buffers.wrist[i].timestampNs;
    }
  }

  /** A bound below the pending anchors and the newest wrist frame stays below them over an admission. */
  lemma BelowAfter(config: Config, s: State, f: Frame, g: Frame)
    requires config.Valid() && Follows(s, f)
    requires Below(s, g.timestampNs + config.maxSkewNs)
    requires s.last.wrist.Some? && g.timestampNs + config.maxSkewNs < s.last.wrist.value.timestampNs
    ensures Useless(config, Arrive(ONLINE, config, s, f).1, g)
  {
    var k := ArriveShape(ONLINE, config, s, f, Wrist);
    hide Arrive, Trimmed;
  }

  /** What was out of reach, and what pruning drops, is out of reach once the frame is admitted. */
  lemma UselessAfter(config: Config, s: State, f: Frame, g: Frame)
    requires config.Valid() && Coherent(s) && Follows(s, f)
    requires Useless(config, s, g)
             || (Oldest(Remembered(s, f)).Some?
                 && g.timestampNs < Oldest(Remembered(s, f)).value.timestampNs - config.maxSkewNs)
    ensures Useless(config, Arrive(ONLINE, config, s, f).1, g)
  {
    var bound := g.timestampNs + config.maxSkewNs;
    if Useless(config, s, g) {
      BelowAfter(config, s, f, g);
    } else if s.buffers.wrist != [] {
      BelowOldest(s, bound);
      WristLast(s, 0);
      hide Coherent;
      BelowAfter(config, s, f, g);
    } else {
      hide Coherent;
      FirstAfter(config, s, f, g);
    }
  }

  /** With nothing pending, pruning goes by the newest wrist frame, the admitted one included. */
  lemma FirstAfter(config: Config, s: State, f: Frame, g: Frame)
    requires config.Valid() && Follows(s, f) && s.buffers.wrist == []
    requires var newest := if f.role.Wrist? then Some(f) else s.last.wrist;
             newest.Some? && g.timestampNs + config.maxSkewNs < newest.value.timestampNs
    ensures Useless(config, Arrive(ONLINE, config, s, f).1, g)
  {
    var k := ArriveShape(ONLINE, config, s, f, Wrist);
    hide Arrive, Trimmed;
  }

  /** Buffers before and after one admission, as sequences. */
  lemma ExtendsAfter(
    config: Config, s: State, t: State, small: seq<Frame>, large: seq<Frame>, k: nat, more: seq<Frame>
  )
    requires Extends(config, s, small, large) && k <= |small|
    requires forall g :: Useless(config, s, g) ==> Useless(config, t, g)
    requires forall i :: 0 <= i < k ==> Useless(config, t, small[i])
    ensures Extends(config, t, small[k..] + more, large + more)
  {
    hide Useless;
    var skip := |large| - |small|;
    forall i | 0 <= i < skip + k
      ensures Useless(config, t, (large + more)[i])
    {
      if i >= skip {
        assert large[i] == small[i - skip];
      }
    }
    assert large[skip + k..] == small[k..];
    assert (large + more)[skip + k..] == large[skip + k..] + more;
  }

  /** One third camera across an admission. */
  lemma CameraAgrees(config: Config, s: State, r: State, f: Frame, role: Role)
    requires config.Valid() && Coherent(s) && Follows(s, f) && !Overflows(config, s, f) && !role.Wrist?
    requires Extends(config, s, s.buffers.Get(role), r.buffers.Get(role))
    ensures var t, u := Arrive(ONLINE, config, s, f).1, Arrive(REFERENCE, config, r, f).1;
            Extends(config, t, t.buffers.Get(role), u.buffers.Get(role))
  {
    var k := ArriveShape(ONLINE, config, s, f, role);
    TrimmedSuffix(ONLINE, config, s, f, role);
    var z := ArriveShape(REFERENCE, config, r, f, role);
    assert z == 0;
    hide Arrive, Useless, Trimmed, Extends, Coherent, Follows;
    var t := Arrive(ONLINE, config, s, f).1;
    var small, large := s.buffers.Get(role), r.buffers.Get(role);
    forall g | Useless(config, s, g)
      ensures Useless(config, t, g)
    {
      UselessAfter(config, s, f, g);
    }
    forall i | 0 <= i < k
      ensures Useless(config, t, small[i])
    {
      UselessAfter(config, s, f, small[i]);
    }
    ExtendsAfter(config, s, t, small, large, k, Arriving(f, role));
    assert large[0..] == large;
  }

  lemma ArrivalsAgree(config: Config, s: State, r: State, f: Frame)
    requires config.Valid() && Coherent(s) && Follows(s, f) && Simulates(config, s, r) && !Overflows(config, s, f)
    ensures var (a, t) := Arrive(ONLINE, config, s, f);
            var (b, u) := Arrive(REFERENCE, config, r, f);
            SameDecisions(a, b) && Simulates(config, t, u)
  {
    CameraAgrees(config, s, r, f, ThirdLeft);
    CameraAgrees(config, s, r, f, ThirdRight);
    TrimmedFrame(ONLINE, config, s, f);
    var x := ArriveShape(ONLINE, config, s, f, Wrist);
    var y := ArriveShape(REFERENCE, config, r, f, Wrist);
    hide Extends, Trimmed;
    assert Trimmed(REFERENCE, config, r, f).buffers.wrist == s.buffers.wrist by {
      TrimmedFrame(REFERENCE, config, r, f);
    }
  }

  // Whole runs.

  /** No push of the run finds a third camera's buffer full. */
  ghost predicate NeverOverflows(config: Config, clockId: string, s: State, ops: seq<Operation>)
    requires config.Valid()
    decreases |ops|
  {
    ops == [] ||
    (!OverflowsAt(config, clockId, s, ops[0])
     && NeverOverflows(config, clockId, Step(ONLINE, config, clockId, s, ops[0]).1, ops[1..]))
  }

  predicate OverflowsAt(config: Config, clockId: string, s: State, op: Operation) {
    match op
    case Push(frame, now) =>
      && 0 <= now && s.now <= now && !s.blocked && ValidSource(clockId, s, frame)
      && Overflows(config, Drain(config, s.(now := now), false, true).1, frame)
    case _ => false
  }

  lemma StepsAgree(config: Config, clockId: string, s: State, r: State, op: Operation)
    requires config.Valid() && Coherent(s) && Simulates(config, s, r) && !OverflowsAt(config, clockId, s, op)
    ensures var (a, t) := Step(ONLINE, config, clockId, s, op);
            var (b, u) := Step(REFERENCE, config, clockId, r, op);
            SameAnswer(a, b) && Simulates(config, t, u)
  {
    hide Drain, Arrive, Extends, Overflows;
    match op
    case Reset(_) => NothingExtends(config, Step(ONLINE, config, clockId, s, op).1);
    case Advance(now) =>
      TimedAgree(config, s, r, now);
      DrainsAgree(config, s.(now := now), r.(now := now), false, false);
    case Finish(now) =>
      TimedAgree(config, s, r, now);
      DrainsAgree(config, s.(now := now), r.(now := now), true, false);
      NothingExtends(config, Drain(config, s.(now := now), true, false).1.(buffers := NO_FRAMES));
    case Push(frame, now) =>
      if now >= 0 && now >= s.now {
        TimedAgree(config, s, r, now);
        PushesAgree(config, clockId, s.(now := now), r.(now := now), frame);
      }
  }

  lemma NothingExtends(config: Config, s: State)
    ensures Extends(config, s, [], [])
  {
  }

  lemma TimedAgree(config: Config, s: State, r: State, now: int)
    requires Simulates(config, s, r)
    ensures Simulates(config, s.(now := now), r.(now := now))
  {
    var t := s.(now := now);
    assert forall f :: Useless(config, s, f) ==> Useless(config, t, f);
  }

  lemma PushesAgree(config: Config, clockId: string, s: State, r: State, frame: Frame)
    requires config.Valid() && Coherent(s) && Simulates(config, s, r)
    requires !s.blocked && ValidSource(clockId, s, frame) ==> !Overflows(config, Drain(config, s, false, true).1, frame)
    ensures var (a, t) := PushAt(ONLINE, config, clockId, s, frame);
            var (b, u) := PushAt(REFERENCE, config, clockId, r, frame);
            SameAnswer(a, b) && Simulates(config, t, u)
  {
    hide Drain, Arrive, Extends, Overflows, Coherent, Follows;
    ValidAgrees(config, clockId, s, r, frame);
    if !s.blocked && frame.ReceivedNs() <= s.now {
      if !ValidSource(clockId, s, frame) {
        NothingExtends(config, Invalidated(s).(blocked := true));
      } else {
        DrainsAgree(config, s, r, false, true);
        DrainCoherent(config, s, false, true);
        var (early, drained) := Drain(config, s, false, true);
        var (early', drained') := Drain(config, r, false, true);
        DrainedFollows(config, clockId, s, frame);
        ArrivalsAgree(config, drained, drained', frame);
        var (evicted, admitted) := Arrive(ONLINE, config, drained, frame);
        var (evicted', admitted') := Arrive(REFERENCE, config, drained', frame);
        DrainsAgree(config, admitted, admitted', false, false);
      }
    }
  }

  lemma ValidAgrees(config: Config, clockId: string, s: State, r: State, f: Frame)
    requires Simulates(config, s, r)
    ensures ValidSource(clockId, s, f) == ValidSource(clockId, r, f)
  {
    hide Extends;
  }

  lemma DrainedFollows(config: Config, clockId: string, s: State, f: Frame)
    requires ValidSource(clockId, s, f)
    ensures Follows(Drain(config, s, false, true).1, f)
  {
    DrainConserves(config, s, false, true);
    hide Drain;
  }

  ghost predicate SameAnswers(a: seq<Answer>, b: seq<Answer>) {
    |a| == |b| && forall i :: 0 <= i < |a| ==> SameAnswer(a[i], b[i])
  }

  /**
   * Over every run in which no third camera overflows, the matcher answers each operation as the reference that
   * never prunes and never bounds its third cameras: same anchors, same members, same decision times, and the same
   * reasons up to a missing view standing in for an excessive skew.
   */
  lemma {:induction false} PruningIsTransparent(
    config: Config, clockId: string, s: State, r: State, ops: seq<Operation>
  )
    requires config.Valid() && Coherent(s) && Simulates(config, s, r) && NeverOverflows(config, clockId, s, ops)
    ensures SameAnswers(Run(ONLINE, config, clockId, s, ops).0, Run(REFERENCE, config, clockId, r, ops).0)
    ensures Simulates(config, Run(ONLINE, config, clockId, s, ops).1, Run(REFERENCE, config, clockId, r, ops).1)
    decreases |ops|
  {
    hide Step, OverflowsAt, Coherent, Simulates, SameAnswer;
    if ops != [] {
      StepsAgree(config, clockId, s, r, ops[0]);
      StepCoherent(ONLINE, config, clockId, s, ops[0]);
      var (a, t) := Step(ONLINE, config, clockId, s, ops[0]);
      var (b, u) := Step(REFERENCE, config, clockId, r, ops[0]);
      PruningIsTransparent(config, clockId, t, u, ops[1..]);
    }
  }

  lemma StartsRelated(config: Config)
    ensures Coherent(INITIAL) && Simulates(config, INITIAL, INITIAL)
  {
  }

  /** Two new matchers, one pruning and bounded and one neither, answer every run without overflow alike. */
  lemma NewMatchersAgree(config: Config, clockId: string, ops: seq<Operation>)
    requires config.Valid() && NeverOverflows(config, clockId, INITIAL, ops)
    ensures SameAnswers(Run(ONLINE, config, clockId, INITIAL, ops).0, Run(REFERENCE, config, clockId, INITIAL, ops).0)
  {
    StartsRelated(config);
    PruningIsTransparent(config, clockId, INITIAL, INITIAL, ops);
  }
}

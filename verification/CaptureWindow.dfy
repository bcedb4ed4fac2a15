/** Exactly when a capture window is complete, read off the sequence of messages and passes alone. */
module CaptureWindow {
  import opened Prelude
  import opened Contracts
  import opened CaptureSteps
  import opened RecordingProofs
  import R = ControlSteps

  // What a sequence of operations that raises nowhere has fixed, without the state it leads to.

  /** The boundary in force. */
  function Boundary(ops: seq<Operation>): Option<int>
    decreases |ops|
  {
    if ops == [] then None
    else match ops[|ops| - 1]
      case Begin(_, _) => None
      case Freeze(boundary) => Some(boundary)
      case Stop(cutoff, _) => Some(cutoff)
      case Cancel => None
      case _ => Boundary(ops[..|ops| - 1])
  }

  /** The end of the window. */
  function Cutoff(ops: seq<Operation>): Option<int>
    decreases |ops|
  {
    if ops == [] then None
    else match ops[|ops| - 1]
      case Begin(_, _) => None
      case Stop(cutoff, _) => Some(cutoff)
      case Cancel => None
      case _ => Cutoff(ops[..|ops| - 1])
  }

  /** The start of the window. */
  function Start(ops: seq<Operation>): int
    decreases |ops|
  {
    if ops == [] then 0
    else if ops[|ops| - 1].Begin? then ops[|ops| - 1].boundary
    else Start(ops[..|ops| - 1])
  }

  /** The frames read since the window began. */
  function Read(ops: seq<Operation>): seq<Frame>
    decreases |ops|
  {
    if ops == [] then []
    else match ops[|ops| - 1]
      case Begin(_, _) => []
      case Pass(frames, _, _, _) => Read(ops[..|ops| - 1]) + frames
      case _ => Read(ops[..|ops| - 1])
  }

  /** How many operations precede the window. */
  function Opened(ops: seq<Operation>): nat
    decreases |ops|
  {
    if ops == [] then 0
    else if ops[|ops| - 1].Begin? then |ops|
    else Opened(ops[..|ops| - 1])
  }

  /** The n-th operation is a pass that finds a frame at or past the boundary then in force. */
  predicate Cuts(ops: seq<Operation>, n: nat, f: Frame)
    requires n < |ops|
  {
    var boundary := Boundary(ops[..n]);
    ops[n].Pass? && boundary.Some? && boundary.value <= f.ReceivedNs() && f in Read(ops[..n + 1])
  }

  ghost predicate CutEver(ops: seq<Operation>, f: Frame) {
    exists n: nat :: Opened(ops) <= n < |ops| && Cuts(ops, n, f)
  }

  /**
   * For every pass made while a boundary was in force, no frame read up to and including that pass lies both at or past
   * that boundary and inside the final window.
   */
  ghost predicate NothingCut(ops: seq<Operation>) {
    forall n: nat, f: Frame ::
      Opened(ops) <= n < |ops| && Cuts(ops, n, f) ==> !Inside(Some(Start(ops)), Cutoff(ops), f.ReceivedNs())
  }

  // The state against the operations.

  lemma {:induction false} RunAppend(s: State, waitNs: int, ops: seq<Operation>, op: Operation)
    ensures Run(s, waitNs, ops + [op]) ==
            match Run(s, waitNs, ops)
            case None => None
            case Some(t) => Next(t, waitNs, op)
    decreases |ops|
  {
    hide Next;
    var all := ops + [op];
    if ops == [] {
      assert all == [op] && all[1..] == [];
    } else {
      assert all[0] == ops[0] && all[1..] == ops[1..] + [op];
      match Next(s, waitNs, ops[0])
      case None =>
      case Some(t) => RunAppend(t, waitNs, ops[1..], op);
    }
  }

  lemma OpenedWithin(ops: seq<Operation>)
    ensures Opened(ops) <= |ops|
    decreases |ops|
  {
  }

  /** Only an opening forgets what was cut, and only a pass cuts. */
  lemma CutAppend(ops: seq<Operation>, op: Operation, f: Frame)
    ensures CutEver(ops + [op], f) <==> !op.Begin? && (CutEver(ops, f) || Cuts(ops + [op], |ops|, f))
  {
    var all := ops + [op];
    assert all[..|ops|] == ops && all[|all| - 1] == op;
    OpenedWithin(ops);
    forall n: nat | n < |ops|
      ensures Cuts(all, n, f) == Cuts(ops, n, f)
    {
      assert all[..n] == ops[..n] && all[..n + 1] == ops[..n + 1] && all[n] == ops[n];
      hide Boundary, Read;
    }
    hide Cuts, Boundary, Read;
  }

  /** What the state remembers of the operations. */
  ghost predicate Remembers(s: State, ops: seq<Operation>) {
    && s.read == Read(ops) && s.boundary == Boundary(ops) && s.cutoff == Cutoff(ops)
    && (Live(s) ==> s.owner.start == Start(ops))
  }

  /** Dropped and cut are the same, as far as the window can still reach. */
  ghost predicate DropsAreCuts(s: State, ops: seq<Operation>) {
    Live(s) ==>
      forall f: Frame ::
        f.ReceivedNs() >= s.owner.start && (s.owner.phase.Finalizing? ==> f.ReceivedNs() < s.owner.stop) ==>
        (f in s.dropped <==> CutEver(ops, f))
  }

  /** What the last operation adds to each view. */
  lemma ViewsAppend(ops: seq<Operation>, op: Operation)
    ensures var all := ops + [op];
            && Read(all) == (if op.Begin? then [] else if op.Pass? then Read(ops) + op.frames else Read(ops))
            && Boundary(all) == (match op
                                 case Begin(_, _) => None
                                 case Freeze(boundary) => Some(boundary)
                                 case Stop(cutoff, _) => Some(cutoff)
                                 case Cancel => None
                                 case _ => Boundary(ops))
            && Cutoff(all) == (match op
                               case Begin(_, _) => None
                               case Stop(cutoff, _) => Some(cutoff)
                               case Cancel => None
                               case _ => Cutoff(ops))
            && Start(all) == if op.Begin? then op.boundary else Start(ops)
  {
    assert (ops + [op])[..|ops + [op]| - 1] == ops;
  }

  /** What one pass leaves alone. */
  lemma PassFrame(s: State, frames: seq<Frame>, now: int, waitNs: int, accepted: bool, completed: bool)
    requires PassOver(s, frames, now, waitNs, accepted, completed).Some?
    ensures var t := PassOver(s, frames, now, waitNs, accepted, completed).value;
            && t.read == s.read + frames && t.boundary == s.boundary && t.cutoff == s.cutoff
            && (Live(t) ==> Live(s) && t.owner.start == s.owner.start)
            && (s.owner.phase.Finalizing? && Live(t) ==> t.owner.phase.Finalizing? && t.owner.stop == s.owner.stop)
  {
    SubmitFrame(s.owner, frames);
    var c := Collect(s, frames).value;
    SubmitFrame(c.owner, Between(c.pending, None, Some(c.watermark)));
    hide SubmitAll, Between;
  }

  lemma {:induction false} SubmitFrame(o: Owner, frames: seq<Frame>)
    ensures SubmitAll(o, frames).Some? ==>
              SubmitAll(o, frames).value == o.(pushed := SubmitAll(o, frames).value.pushed)
    decreases |frames|
  {
    if frames != [] && Submit(o, frames[0]).Some? {
      SubmitFrame(Submit(o, frames[0]).value, frames[1..]);
    }
  }

  lemma RemembersNext(s: State, waitNs: int, ops: seq<Operation>, op: Operation)
    requires Remembers(s, ops) && Next(s, waitNs, op).Some?
    ensures Remembers(Next(s, waitNs, op).value, ops + [op])
  {
    ViewsAppend(ops, op);
    hide Read, Boundary, Cutoff, Start;
    match op
    case Pass(frames, now, accepted, completed) =>
      PassFrame(s, frames, now, waitNs, accepted, completed);
      hide PassOver;
    case _ =>
  }

  /** A frame counted in a sequence is in it. */
  lemma Counted(frames: seq<Frame>, f: Frame)
    ensures Times(frames, f) > 0 <==> f in frames
  {
  }

  /** A pass drops exactly the frames it cuts, besides those dropped before. */
  lemma PassDrops(s: State, frames: seq<Frame>, now: int, waitNs: int, accepted: bool, completed: bool, f: Frame)
    requires Live(s) && Kept(s) && PassOver(s, frames, now, waitNs, accepted, completed).Some?
    requires f.ReceivedNs() >= s.owner.start && (s.owner.phase.Finalizing? ==> f.ReceivedNs() < s.owner.stop)
    ensures var t := PassOver(s, frames, now, waitNs, accepted, completed).value;
            f in t.dropped <==>
              f in s.dropped || (s.boundary.Some? && s.boundary.value <= f.ReceivedNs() && f in s.read + frames)
  {
    CollectExact(s, frames);
    var c := Collect(s, frames).value;
    CollectDrops(s, frames, f);
    ReleaseExact(c);
    var r := Release(c).value;
    ReleaseDrops(c, f);
    hide Collect, Release, Exact, Ordered, Recorded;
  }

  lemma CollectDrops(s: State, frames: seq<Frame>, f: Frame)
    requires Live(s) && Ordered(s) && Collect(s, frames).Some?
    requires f.ReceivedNs() >= s.owner.start && (s.owner.phase.Finalizing? ==> f.ReceivedNs() < s.owner.stop)
    ensures var c := Collect(s, frames).value;
            && c.read == s.read + frames
            && (f in s.dropped ==> f in c.dropped)
            && (f in c.dropped && f !in s.dropped ==>
                  f in frames && s.boundary.Some? && s.boundary.value <= f.ReceivedNs())
  {
    BetweenInside(frames, s.boundary, None);
    if s.owner.phase.Finalizing? {
      SubmitsFinalizing(s.owner, frames);
    }
    hide Between, SubmitAll, AllInside;
  }

  /** Once the boundary is in force, a frame past it that was read is neither pushed nor pending, so it was dropped. */
  lemma ReleaseDrops(c: State, f: Frame)
    requires Live(c) && Ordered(c) && Exact(c) && Release(c).Some? && f.ReceivedNs() >= c.owner.start
    ensures var r := Release(c).value;
            && (f in c.dropped ==> f in r.dropped)
            && (f in r.dropped && f !in c.dropped ==>
                  f in c.read && c.boundary.Some? && c.boundary.value <= f.ReceivedNs())
            && (f in c.read && c.boundary.Some? && c.boundary.value <= f.ReceivedNs() ==> f in r.dropped)
  {
    ReleaseExact(c);
    var r := Release(c).value;
    BetweenInside(c.pending, c.boundary, None);
    BetweenInside(c.pending, Some(c.watermark), c.boundary);
    Counted(c.read, f);
    Counted(c.pending, f);
    Counted(r.dropped, f);
    assert Times(c.owner.pushed, f) + Times(c.pending, f) + Times(c.dropped, f) == Times(c.read, f);
    assert Times(r.owner.pushed, f) + Times(r.pending, f) + Times(r.dropped, f) == Times(r.read, f);
    if c.boundary.Some? && c.boundary.value <= f.ReceivedNs() {
      AbsentOutside(r.owner.pushed, Some(r.owner.start), Some(r.watermark), f);
      AbsentOutside(r.pending, Some(c.watermark), c.boundary, f);
    }
    hide Between, SubmitAll, Exact, AllInside;
  }

  /** The last operation of a sequence that cuts nothing by itself. */
  lemma MessageCutsNothing(ops: seq<Operation>, op: Operation, f: Frame)
    requires !op.Pass? && !op.Begin?
    ensures CutEver(ops + [op], f) <==> CutEver(ops, f)
  {
    CutAppend(ops, op, f);
    hide CutEver, Boundary, Read;
    assert (ops + [op])[|ops|] == op;
  }

  /** A pass cuts what the boundary in force excludes of the frames read. */
  lemma PassCuts(ops: seq<Operation>, op: Operation, f: Frame)
    requires op.Pass?
    ensures var boundary := Boundary(ops);
            CutEver(ops + [op], f) <==>
              CutEver(ops, f) || (boundary.Some? && boundary.value <= f.ReceivedNs() && f in Read(ops) + op.frames)
  {
    CutAppend(ops, op, f);
    ViewsAppend(ops, op);
    hide CutEver, Boundary, Read;
    assert (ops + [op])[..|ops|] == ops && (ops + [op])[..|ops| + 1] == ops + [op] && (ops + [op])[|ops|] == op;
  }

  lemma MessageDrops(s: State, waitNs: int, ops: seq<Operation>, op: Operation, f: Frame)
    requires !op.Pass? && DropsAreCuts(s, ops) && Next(s, waitNs, op).Some? && Live(Next(s, waitNs, op).value)
    requires var t := Next(s, waitNs, op).value;
             f.ReceivedNs() >= t.owner.start && (t.owner.phase.Finalizing? ==> f.ReceivedNs() < t.owner.stop)
    ensures f in Next(s, waitNs, op).value.dropped <==> CutEver(ops + [op], f)
  {
    if op.Begin? {
      CutAppend(ops, op, f);
    } else {
      MessageCutsNothing(ops, op, f);
    }
    hide CutEver, Feedback;
  }

  lemma DropsNext(s: State, waitNs: int, ops: seq<Operation>, op: Operation)
    requires Kept(s) && Remembers(s, ops) && DropsAreCuts(s, ops) && Next(s, waitNs, op).Some?
    ensures DropsAreCuts(Next(s, waitNs, op).value, ops + [op])
  {
    hide Kept, CutEver;
    var t := Next(s, waitNs, op).value;
    if Live(t) {
      forall f: Frame
        | f.ReceivedNs() >= t.owner.start && (t.owner.phase.Finalizing? ==> f.ReceivedNs() < t.owner.stop)
        ensures f in t.dropped <==> CutEver(ops + [op], f)
      {
        if op.Pass? {
          PassFrame(s, op.frames, op.now, waitNs, op.accepted, op.completed);
          PassDrops(s, op.frames, op.now, waitNs, op.accepted, op.completed, f);
          PassCuts(ops, op, f);
          hide PassOver, Read, Boundary;
        } else {
          MessageDrops(s, waitNs, ops, op, f);
        }
      }
    }
  }

  lemma {:induction false} RunRemembers(waitNs: int, ops: seq<Operation>)
    requires Run(INITIAL, waitNs, ops).Some?
    ensures var s := Run(INITIAL, waitNs, ops).value; Kept(s) && Remembers(s, ops) && DropsAreCuts(s, ops)
    decreases |ops|
  {
    hide Kept, Next, Remembers, DropsAreCuts;
    InitialKept();
    if ops == [] {
      InitialRemembers();
    } else {
      var front, op := ops[..|ops| - 1], ops[|ops| - 1];
      assert front + [op] == ops;
      RunAppend(INITIAL, waitNs, front, op);
      RunRemembers(waitNs, front);
      var s := Run(INITIAL, waitNs, front).value;
      NextKept(s, waitNs, op);
      RemembersNext(s, waitNs, front, op);
      DropsNext(s, waitNs, front, op);
    }
  }

  lemma InitialRemembers()
    ensures Remembers(INITIAL, []) && DropsAreCuts(INITIAL, [])
  {
  }

  /**
   * In every run that raises nowhere and ends finalizing: the matcher has every frame read inside the window, as often
   * as it was read, and no other, if and only if no pass cut a frame of the final window at an earlier boundary.
   */
  lemma CapturedExactly(waitNs: int, ops: seq<Operation>)
    requires Run(INITIAL, waitNs, ops).Some? && Run(INITIAL, waitNs, ops).value.owner.phase.Finalizing?
    ensures var s := Run(INITIAL, waitNs, ops).value;
            && s.owner.start == Start(ops) && Cutoff(ops) == Some(s.owner.stop) && s.read == Read(ops)
            && (WindowCaptured(s) <==> NothingCut(ops))
  {
    RunRemembers(waitNs, ops);
    CapturedUnlessDropped(waitNs, ops);
    var s := Run(INITIAL, waitNs, ops).value;
    hide Run, WindowCaptured, Exact, Recorded, Read, Boundary, Cutoff, Start, Opened, Cuts;
    forall f: Frame | s.owner.start <= f.ReceivedNs() < s.owner.stop
      ensures f in s.dropped <==> CutEver(ops, f)
    {
    }
    if NothingCut(ops) {
      forall f: Frame | s.owner.start <= f.ReceivedNs() < s.owner.stop
        ensures f !in s.dropped
      {
      }
    } else {
      var n: nat, f: Frame :|
        Opened(ops) <= n < |ops| && Cuts(ops, n, f) && Inside(Some(Start(ops)), Cutoff(ops), f.ReceivedNs());
      assert CutEver(ops, f);
    }
  }

  // One freeze per window.

  /** A freeze only ever sets a boundary that is not yet set. */
  ghost predicate FreezesFirst(ops: seq<Operation>) {
    forall j :: 0 <= j < |ops| && ops[j].Freeze? ==> Boundary(ops[..j]).None?
  }

  lemma {:induction false} FirstNeverRaises(s: State, waitNs: int, done: seq<Operation>, rest: seq<Operation>)
    requires Remembers(s, done) && FreezesFirst(done + rest)
    ensures NeverRaises(s, waitNs, rest)
    decreases |rest|
  {
    hide Next, Read, Boundary, Cutoff, Start;
    if rest != [] {
      var all := done + rest;
      assert all[|done|] == rest[0] && all[..|done|] == done;
      if Next(s, waitNs, rest[0]).Some? {
        RemembersNext(s, waitNs, done, rest[0]);
        assert done + [rest[0]] + rest[1..] == all;
        FirstNeverRaises(Next(s, waitNs, rest[0]).value, waitNs, done + [rest[0]], rest[1..]);
      }
    }
  }

  /** With one freeze per window nothing is ever cut. */
  lemma FirstCapturesAll(waitNs: int, ops: seq<Operation>)
    requires FreezesFirst(ops)
    requires Run(INITIAL, waitNs, ops).Some? && Run(INITIAL, waitNs, ops).value.owner.phase.Finalizing?
    ensures WindowCaptured(Run(INITIAL, waitNs, ops).value) && NothingCut(ops)
  {
    InitialRemembers();
    assert [] + ops == ops;
    FirstNeverRaises(INITIAL, waitNs, [], ops);
    FramesReachTheMatcher(waitNs, ops);
    CapturedExactly(waitNs, ops);
  }
}

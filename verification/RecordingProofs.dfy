/** What a recording that raises nowhere has captured. */
module RecordingProofs {
  import opened Prelude
  import opened Contracts
  import opened CaptureSteps
  import R = ControlSteps
  import C = ControlProofs

  // Windows of sequences.

  lemma {:induction false} BetweenCount(frames: seq<Frame>, low: Option<int>, high: Option<int>, f: Frame)
    ensures multiset(Between(frames, low, high))[f]
            == if Inside(low, high, f.ReceivedNs()) then multiset(frames)[f] else 0
    decreases |frames|
  {
    if frames != [] {
      BetweenCount(frames[1..], low, high, f);
      BetweenFirst(frames, low, high);
      hide Between;
      var head := if Inside(low, high, frames[0].ReceivedNs()) then [frames[0]] else [];
      var rest := Between(frames[1..], low, high);
      assert frames == [frames[0]] + frames[1..];
      assert multiset(head + rest)[f] == multiset(head)[f] + multiset(rest)[f];
    }
  }

  lemma {:induction false} BetweenAppend(a: seq<Frame>, b: seq<Frame>, low: Option<int>, high: Option<int>)
    ensures Between(a + b, low, high) == Between(a, low, high) + Between(b, low, high)
    decreases |a|
  {
    if a == [] {
      assert a + b == b;
    } else {
      BetweenAppend(a[1..], b, low, high);
      BetweenFirst(a, low, high);
      BetweenFirst(a + b, low, high);
      hide Between;
      assert (a + b)[0] == a[0] && (a + b)[1..] == a[1..] + b;
    }
  }

  lemma BetweenFirst(frames: seq<Frame>, low: Option<int>, high: Option<int>)
    requires frames != []
    ensures Between(frames, low, high)
            == (if Inside(low, high, frames[0].ReceivedNs()) then [frames[0]] else []) + Between(frames[1..], low, high)
  {
  }

  /** One camera's frames, in order. */
  function OfCamera(frames: seq<Frame>, role: Role): seq<Frame>
    decreases |frames|
  {
    if frames == [] then [] else (if frames[0].role == role then [frames[0]] else []) + OfCamera(frames[1..], role)
  }

  lemma {:induction false} OfCameraAppend(a: seq<Frame>, b: seq<Frame>, role: Role)
    ensures OfCamera(a + b, role) == OfCamera(a, role) + OfCamera(b, role)
    decreases |a|
  {
    if a == [] {
      assert a + b == b;
    } else {
      OfCameraAppend(a[1..], b, role);
      OfCameraFirst(a, role);
      OfCameraFirst(a + b, role);
      hide OfCamera;
      assert (a + b)[0] == a[0] && (a + b)[1..] == a[1..] + b;
    }
  }

  lemma OfCameraFirst(frames: seq<Frame>, role: Role)
    requires frames != []
    ensures OfCamera(frames, role) == (if frames[0].role == role then [frames[0]] else []) + OfCamera(frames[1..], role)
  {
  }

  lemma {:induction false} CameraBetween(frames: seq<Frame>, low: Option<int>, high: Option<int>, role: Role)
    ensures OfCamera(Between(frames, low, high), role) == Between(OfCamera(frames, role), low, high)
    decreases |frames|
  {
    if frames != [] {
      CameraBetween(frames[1..], low, high, role);
      var head := if Inside(low, high, frames[0].ReceivedNs()) then [frames[0]] else [];
      OfCameraAppend(head, Between(frames[1..], low, high), role);
      var one := if frames[0].role == role then [frames[0]] else [];
      BetweenAppend(one, OfCamera(frames[1..], role), low, high);
    }
  }

  lemma {:induction false} BetweenTwice(
    frames: seq<Frame>, a: Option<int>, b: Option<int>, c: Option<int>, d: Option<int>, low: Option<int>,
    high: Option<int>
  )
    requires forall r: int :: Inside(a, b, r) && Inside(c, d, r) <==> Inside(low, high, r)
    ensures Between(Between(frames, a, b), c, d) == Between(frames, low, high)
    decreases |frames|
  {
    if frames != [] {
      BetweenTwice(frames[1..], a, b, c, d, low, high);
      var head := if Inside(a, b, frames[0].ReceivedNs()) then [frames[0]] else [];
      BetweenAppend(head, Between(frames[1..], a, b), c, d);
    }
  }

  ghost predicate Sorted(frames: seq<Frame>) {
    forall i, j :: 0 <= i < j < |frames| ==> frames[i].ReceivedNs() <= frames[j].ReceivedNs()
  }

  ghost predicate AllInside(frames: seq<Frame>, low: Option<int>, high: Option<int>) {
    forall i :: 0 <= i < |frames| ==> Inside(low, high, frames[i].ReceivedNs())
  }

  lemma {:induction false} BetweenAll(frames: seq<Frame>, low: Option<int>, high: Option<int>)
    requires AllInside(frames, low, high)
    ensures Between(frames, low, high) == frames
    decreases |frames|
  {
    if frames != [] {
      BetweenAll(frames[1..], low, high);
    }
  }

  lemma {:induction false} BetweenInside(frames: seq<Frame>, low: Option<int>, high: Option<int>)
    ensures AllInside(Between(frames, low, high), low, high)
    ensures forall f :: f in Between(frames, low, high) ==> f in frames && Inside(low, high, f.ReceivedNs())
    decreases |frames|
  {
    if frames != [] {
      BetweenInside(frames[1..], low, high);
    }
  }

  /** What lies inside a sorted sequence's window is sorted. */
  lemma {:induction false} BetweenSorted(frames: seq<Frame>, low: Option<int>, high: Option<int>)
    requires Sorted(frames)
    ensures Sorted(Between(frames, low, high))
    decreases |frames|
  {
    if frames != [] {
      BetweenSorted(frames[1..], low, high);
      BetweenInside(frames[1..], low, high);
      var rest := Between(frames[1..], low, high);
      forall i | 0 <= i < |rest|
        ensures frames[0].ReceivedNs() <= rest[i].ReceivedNs()
      {
        assert rest[i] in frames[1..];
      }
    }
  }

  /** A sorted sequence splits at any time. */
  lemma {:induction false} SplitSorted(frames: seq<Frame>, low: Option<int>, middle: int, high: Option<int>)
    requires Sorted(frames) && (low.Some? ==> low.value <= middle) && (high.Some? ==> middle <= high.value)
    ensures Between(frames, low, Some(middle)) + Between(frames, Some(middle), high) == Between(frames, low, high)
    decreases |frames|
  {
    if frames != [] {
      var rest := frames[1..];
      SplitSorted(rest, low, middle, high);
      var early, late := Between(rest, low, Some(middle)), Between(rest, Some(middle), high);
      if frames[0].ReceivedNs() >= middle {
        NoneBefore(frames, low, middle);
        NoneBefore(rest, low, middle);
        hide Sorted;
        assert [] + Between(frames, Some(middle), high) == Between(frames, Some(middle), high);
        assert [] + late == late;
      } else {
        hide Sorted;
        var head := if Inside(low, high, frames[0].ReceivedNs()) then [frames[0]] else [];
        assert head + early + late == head + (early + late);
        assert [] + late == late;
      }
    }
  }

  lemma {:induction false} NoneBefore(frames: seq<Frame>, low: Option<int>, middle: int)
    requires forall i :: 0 <= i < |frames| ==> frames[i].ReceivedNs() >= middle
    ensures Between(frames, low, Some(middle)) == []
    decreases |frames|
  {
    if frames != [] {
      NoneBefore(frames[1..], low, middle);
    }
  }

  // Session submissions.

  lemma {:induction false} SubmitsRecording(o: Owner, frames: seq<Frame>)
    requires o.phase.Recording?
    ensures SubmitAll(o, frames) == Some(o.(pushed := o.pushed + Between(frames, Some(o.start), None)))
    decreases |frames|
  {
    if frames == [] {
      assert o.pushed + [] == o.pushed;
    } else {
      var next := Submit(o, frames[0]).value;
      var rest := Between(frames[1..], Some(o.start), None);
      SubmitsRecording(next, frames[1..]);
      assert o.pushed + [frames[0]] + rest == o.pushed + ([frames[0]] + rest);
      assert [] + rest == rest;
    }
  }

  lemma {:induction false} SubmitsFinalizing(o: Owner, frames: seq<Frame>)
    requires o.phase.Finalizing? && SubmitAll(o, frames).Some?
    ensures SubmitAll(o, frames) == Some(o)
    ensures forall f :: f in frames ==> !(o.start <= f.ReceivedNs() < o.stop)
    decreases |frames|
  {
    if frames != [] {
      SubmitsFinalizing(o, frames[1..]);
    }
  }

  // The invariant of one episode.

  predicate Live(s: State) {
    s.owner.phase.Recording? || s.owner.phase.Finalizing?
  }

  /** Bounds: the watermark never passes the boundary, and stands at the cutoff once there is one. */
  ghost predicate Ordered(s: State) {
    && s.owner.start <= s.watermark
    && (s.boundary.Some? ==> s.watermark <= s.boundary.value)
    && (s.cutoff.Some? ==> s.watermark == s.cutoff.value && s.boundary.Some? && s.release.Some?)
    && (s.owner.phase.Finalizing? ==> s.cutoff == Some(s.owner.stop) && AllInside(s.pending, s.cutoff, None))
    && AllInside(s.owner.pushed, Some(s.owner.start), Some(s.watermark))
  }

  function Times(frames: seq<Frame>, f: Frame): nat {
    multiset(frames)[f]
  }

  lemma TimesAppend(a: seq<Frame>, b: seq<Frame>, f: Frame)
    ensures Times(a + b, f) == Times(a, f) + Times(b, f)
  {
  }

  /** Every frame read from the start on is pushed, pending or dropped, as often as it was read. */
  ghost predicate Exact(s: State) {
    forall f: Frame :: f.ReceivedNs() >= s.owner.start ==>
      Times(s.owner.pushed, f) + Times(s.pending, f) + Times(s.dropped, f) == Times(s.read, f)
  }

  /** The records submitted: the acquisition, the samples in their window, and the release at the end. */
  ghost predicate Recorded(s: State) {
    && s.acquired.Some?
    && (forall i :: 0 <= i < |s.samples| ==> s.samples[i].ReceivedNs() < s.watermark)
    && s.owner.recorded == Since([s.acquired.value] + s.samples, s.owner.start) + Concluding(s)
  }

  function Concluding(s: State): seq<R.Record> {
    if s.owner.phase.Finalizing? && s.release.Some? then Since([s.release.value], s.owner.start) else []
  }

  ghost predicate Kept(s: State) {
    && (Live(s) ==> Ordered(s) && Exact(s) && Recorded(s))
    && (s.owner.phase.Prepared? ==> s.owner.pushed == [] && s.owner.recorded == [])
  }

  lemma {:induction false} SinceAppend(a: seq<R.Record>, b: seq<R.Record>, low: int)
    ensures Since(a + b, low) == Since(a, low) + Since(b, low)
    decreases |a|
  {
    if a == [] {
      assert a + b == b;
    } else {
      assert (a + b)[0] == a[0] && (a + b)[1..] == a[1..] + b;
      SinceAppend(a[1..], b, low);
      var head := if low <= a[0].ReceivedNs() then [a[0]] else [];
      assert head + (Since(a[1..], low) + Since(b, low)) == head + Since(a[1..], low) + Since(b, low);
    }
  }

  lemma BeginKept(s: State, start: int, event: R.Record)
    requires Kept(s) && Message(s, Begin(start, event)).Some?
    ensures Kept(Message(s, Begin(start, event)).value)
  {
    var t := Message(s, Begin(start, event)).value;
    assert [event] + [] == [event] && Since([event], start) + [] == Since([event], start);
    assert [] + Since([event], start) == Since([event], start);
  }

  lemma SamplesKept(s: State, watermark: int, records: seq<R.Record>)
    requires Kept(s) && Message(s, Samples(watermark, records)).Some?
    ensures Kept(Message(s, Samples(watermark, records)).value)
  {
    var t := Message(s, Samples(watermark, records)).value;
    var before := [s.acquired.value] + s.samples;
    SinceAppend(before, records, s.owner.start);
    assert [s.acquired.value] + (s.samples + records) == before + records;
    assert Since(before, s.owner.start) + [] == Since(before, s.owner.start);
    assert Since(before + records, s.owner.start) + [] == Since(before + records, s.owner.start);
    hide Since;
  }

  /** One pass, first half: what was read is pending or dropped. */
  lemma CollectExact(s: State, frames: seq<Frame>)
    requires Live(s) && Ordered(s) && Exact(s) && Collect(s, frames).Some?
    ensures var t := Collect(s, frames).value; Live(t) && Ordered(t) && Exact(t)
    ensures var t := Collect(s, frames).value;
            t.owner == s.owner && t.watermark == s.watermark && t.samples == s.samples && t.acquired == s.acquired
            && t.cutoff == s.cutoff && t.boundary == s.boundary && t.release == s.release && t.settled == s.settled
  {
    var t := Collect(s, frames).value;
    if s.owner.phase.Finalizing? {
      SubmitsFinalizing(s.owner, frames);
    }
    hide Between, SubmitAll, AllInside;
    forall f: Frame | f.ReceivedNs() >= s.owner.start
      ensures Times(t.owner.pushed, f) + Times(t.pending, f) + Times(t.dropped, f) == Times(t.read, f)
    {
      CollectTimes(s, frames, f);
      assert Times(s.owner.pushed, f) + Times(s.pending, f) + Times(s.dropped, f) == Times(s.read, f);
      TimesAppend(s.read, frames, f);
    }
  }

  lemma CollectTimes(s: State, frames: seq<Frame>, f: Frame)
    requires Collect(s, frames).Some? && Live(s)
    requires s.owner.phase.Finalizing? ==> SubmitAll(s.owner, frames) == Some(s.owner)
    ensures var t := Collect(s, frames).value;
            Times(t.pending, f) + Times(t.dropped, f) == Times(s.pending, f) + Times(s.dropped, f) + Times(frames, f)
  {
    TimesAppend(s.pending, Admitted(s, frames), f);
    TimesAppend(s.dropped, Beyond(s, frames), f);
    TimesAppend(s.dropped, frames, f);
    BetweenCount(frames, None, s.boundary, f);
    BetweenCount(frames, s.boundary, None, f);
    hide Between, SubmitAll;
  }

  /** One pass, second half: what the watermark releases is pushed, what the boundary excludes is dropped. */
  lemma ReleaseExact(s: State)
    requires Live(s) && Ordered(s) && Exact(s) && Release(s).Some?
    ensures var t := Release(s).value;
            && Live(t) && Ordered(t) && Exact(t) && AllInside(t.pending, Some(s.watermark), None)
            && t == s.(owner := s.owner.(pushed := t.owner.pushed), pending := t.pending, dropped := t.dropped)
  {
    var t := Release(s).value;
    var due := Between(s.pending, None, Some(s.watermark));
    BetweenInside(s.pending, None, Some(s.watermark));
    BetweenInside(s.pending, Some(s.watermark), s.boundary);
    BetweenInside(due, Some(s.owner.start), None);
    if s.owner.phase.Recording? {
      SubmitsRecording(s.owner, due);
    } else {
      SubmitsFinalizing(s.owner, due);
      NoneBefore(s.pending, None, s.watermark);
    }
    PushedInside(s, due);
    forall f: Frame | f.ReceivedNs() >= s.owner.start
      ensures Times(t.owner.pushed, f) + Times(t.pending, f) + Times(t.dropped, f) == Times(t.read, f)
    {
      assert Times(s.owner.pushed, f) + Times(s.pending, f) + Times(s.dropped, f) == Times(s.read, f);
      ReleaseTimes(s, f);
    }
  }

  lemma PushedInside(s: State, due: seq<Frame>)
    requires due == Between(s.pending, None, Some(s.watermark))
        && AllInside(s.owner.pushed, Some(s.owner.start), Some(s.watermark))
    ensures AllInside(s.owner.pushed + Between(due, Some(s.owner.start), None), Some(s.owner.start), Some(s.watermark))
  {
    BetweenInside(s.pending, None, Some(s.watermark));
    BetweenInside(due, Some(s.owner.start), None);
    var more := Between(due, Some(s.owner.start), None);
    forall i | 0 <= i < |more|
      ensures Inside(Some(s.owner.start), Some(s.watermark), more[i].ReceivedNs())
    {
      assert more[i] in more;
      assert more[i] in due;
    }
  }

  lemma ReleaseTimes(s: State, f: Frame)
    requires Live(s) && Ordered(s) && Release(s).Some? && f.ReceivedNs() >= s.owner.start
    ensures var t := Release(s).value;
            Times(t.owner.pushed, f) + Times(t.pending, f) + Times(t.dropped, f)
            == Times(s.owner.pushed, f) + Times(s.pending, f) + Times(s.dropped, f)
  {
    var due := Between(s.pending, None, Some(s.watermark));
    if s.owner.phase.Recording? {
      SubmitsRecording(s.owner, due);
      TimesAppend(s.owner.pushed, Between(due, Some(s.owner.start), None), f);
      BetweenCount(due, Some(s.owner.start), None, f);
    } else {
      NoneBefore(s.pending, None, s.watermark);
    }
    BetweenCount(s.pending, None, Some(s.watermark), f);
    BetweenCount(s.pending, Some(s.watermark), s.boundary, f);
    BetweenCount(s.pending, s.boundary, None, f);
    TimesAppend(s.dropped, Beyond(s, s.pending), f);
    hide Between;
  }

  lemma ConcludeKept(s: State, now: int, waitNs: int)
    requires Live(s) && Kept(s) && AllInside(s.pending, Some(s.watermark), None) && Conclude(s, now, waitNs).Some?
    ensures Kept(Conclude(s, now, waitNs).value)
  {
    hide AllInside, Since;
    var t := Conclude(s, now, waitNs).value;
    if t != s {
      var recorded := Since([s.acquired.value] + s.samples, s.owner.start);
      assert recorded + [] == recorded;
    }
  }

  lemma PassKept(s: State, frames: seq<Frame>, now: int, waitNs: int, accepted: bool, completed: bool)
    requires Kept(s) && PassOver(s, frames, now, waitNs, accepted, completed).Some?
    ensures Kept(PassOver(s, frames, now, waitNs, accepted, completed).value)
  {
    hide Exact, Ordered, Between, Since, AllInside;
    if Live(s) {
      CollectExact(s, frames);
      var collected := Collect(s, frames).value;
      hide Collect;
      ReleaseExact(collected);
      var released := Release(collected).value;
      hide Release;
      assert Recorded(released);
      ConcludeKept(released, now, waitNs);
    } else {
      IdleSubmits(s.owner, Between(s.pending, None, Some(s.watermark)));
    }
  }

  /** Outside recording and finalizing, submitted frames are ignored. */
  lemma {:induction false} IdleSubmits(o: Owner, frames: seq<Frame>)
    requires !o.phase.Recording? && !o.phase.Finalizing?
    ensures SubmitAll(o, frames) == Some(o)
    decreases |frames|
  {
    if frames != [] {
      IdleSubmits(o, frames[1..]);
    }
  }

  lemma NextKept(s: State, waitNs: int, op: Operation)
    requires Kept(s) && Next(s, waitNs, op).Some?
    ensures Kept(Next(s, waitNs, op).value)
  {
    hide AllInside, Since;
    match op
    case Begin(start, event) => BeginKept(s, start, event);
    case Samples(watermark, records) => SamplesKept(s, watermark, records);
    case Pass(frames, now, accepted, completed) => PassKept(s, frames, now, waitNs, accepted, completed);
    case Stop(cutoff, event) => StopKept(s, cutoff, event);
    case _ =>
  }

  lemma StopKept(s: State, cutoff: int, event: R.Record)
    requires Kept(s) && Message(s, Stop(cutoff, event)).Some?
    ensures Kept(Message(s, Stop(cutoff, event)).value)
  {
    hide Since;
  }

  lemma {:induction false} RunKept(s: State, waitNs: int, ops: seq<Operation>)
    requires Kept(s) && Run(s, waitNs, ops).Some?
    ensures Kept(Run(s, waitNs, ops).value)
    decreases |ops|
  {
    hide Kept, Next;
    if ops != [] {
      NextKept(s, waitNs, ops[0]);
      RunKept(Next(s, waitNs, ops[0]).value, waitNs, ops[1..]);
    }
  }

  // Exactly once.

  lemma InitialKept()
    ensures Kept(INITIAL)
  {
  }

  /** The matcher gets every frame read of the capture window as often as it was read, and no other frame. */
  ghost predicate WindowCaptured(s: State) {
    forall f: Frame ::
      Times(s.owner.pushed, f) == if s.owner.start <= f.ReceivedNs() < s.owner.stop then Times(s.read, f) else 0
  }

  /**
   * In every run that raises nowhere, a finalizing episode has handed the matcher exactly the window's frames, as
   * often as each was read, if and only if no frame of the window was dropped at an earlier boundary.
   */
  lemma CapturedUnlessDropped(waitNs: int, ops: seq<Operation>)
    requires Run(INITIAL, waitNs, ops).Some? && Run(INITIAL, waitNs, ops).value.owner.phase.Finalizing?
    ensures var s := Run(INITIAL, waitNs, ops).value;
            WindowCaptured(s) <==> forall f: Frame :: s.owner.start <= f.ReceivedNs() < s.owner.stop ==> f !in s.dropped
  {
    InitialKept();
    RunKept(INITIAL, waitNs, ops);
    FinalCounts(Run(INITIAL, waitNs, ops).value);
  }

  lemma AbsentOutside(frames: seq<Frame>, low: Option<int>, high: Option<int>, f: Frame)
    requires AllInside(frames, low, high) && !Inside(low, high, f.ReceivedNs())
    ensures Times(frames, f) == 0
  {
  }

  lemma FinalCounts(s: State)
    requires Kept(s) && s.owner.phase.Finalizing?
    ensures WindowCaptured(s) <==> forall f: Frame :: s.owner.start <= f.ReceivedNs() < s.owner.stop ==> f !in s.dropped
  {
    forall f: Frame
      ensures !(s.owner.start <= f.ReceivedNs() < s.owner.stop) ==> Times(s.owner.pushed, f) == 0
      ensures s.owner.start <= f.ReceivedNs() < s.owner.stop ==>
                Times(s.owner.pushed, f) + Times(s.dropped, f) == Times(s.read, f)
    {
      if s.owner.start <= f.ReceivedNs() < s.owner.stop {
        assert Times(s.owner.pushed, f) + Times(s.pending, f) + Times(s.dropped, f) == Times(s.read, f);
        AbsentOutside(s.pending, s.cutoff, None, f);
      } else {
        AbsentOutside(s.owner.pushed, Some(s.owner.start), Some(s.watermark), f);
      }
    }
    hide Exact, Ordered, Recorded;
    forall f: Frame
      ensures Times(s.dropped, f) == 0 <==> f !in s.dropped
    {
    }
  }

  /** No freeze raises a boundary already set, which the control side's single freeze per episode never does. */
  predicate Raises(s: State, op: Operation) {
    op.Freeze? && s.boundary.Some? && op.boundary > s.boundary.value
  }

  ghost predicate NeverRaises(s: State, waitNs: int, ops: seq<Operation>)
    decreases |ops|
  {
    ops == [] ||
    (!Raises(s, ops[0])
        && (Next(s, waitNs, ops[0]).Some? ==> NeverRaises(Next(s, waitNs, ops[0]).value, waitNs, ops[1..])))
  }

  /** Everything dropped lies at or past the boundary, which a stop fixes at the cutoff. */
  ghost predicate Steady(s: State) {
    Live(s) ==>
      && (s.cutoff.Some? ==> s.boundary == s.cutoff)
      && DroppedBeyond(s.dropped, s.owner.start, s.boundary)
  }

  /** Where a camera's leftovers may lie. */
  ghost predicate DroppedBeyond(dropped: seq<Frame>, start: int, boundary: Option<int>) {
    forall i :: 0 <= i < |dropped| && dropped[i].ReceivedNs() >= start ==>
      boundary.Some? && dropped[i].ReceivedNs() >= boundary.value
  }

  lemma DroppedMore(s: State, frames: seq<Frame>)
    requires DroppedBeyond(s.dropped, s.owner.start, s.boundary)
    ensures DroppedBeyond(s.dropped + Beyond(s, frames), s.owner.start, s.boundary)
  {
    BetweenInside(frames, s.boundary, None);
    hide Between;
  }

  lemma CollectSteady(s: State, frames: seq<Frame>)
    requires Live(s) && Ordered(s) && Steady(s) && Collect(s, frames).Some?
    ensures Steady(Collect(s, frames).value)
  {
    hide AllInside;
    if s.owner.phase.Finalizing? {
      SubmitsFinalizing(s.owner, frames);
      hide SubmitAll;
      assert forall i :: 0 <= i < |frames| ==> frames[i] in frames;
    } else {
      DroppedMore(s, frames);
      hide Between;
    }
  }

  lemma ReleaseSteady(s: State)
    requires Live(s) && Ordered(s) && Exact(s) && Steady(s) && Release(s).Some?
    ensures Steady(Release(s).value)
  {
    ReleaseExact(s);
    DroppedMore(s, s.pending);
    hide Exact, Ordered, Between, SubmitAll, AllInside;
  }

  lemma PassSteady(s: State, frames: seq<Frame>, now: int, waitNs: int, accepted: bool, completed: bool)
    requires Kept(s) && Steady(s) && PassOver(s, frames, now, waitNs, accepted, completed).Some?
    ensures Steady(PassOver(s, frames, now, waitNs, accepted, completed).value)
  {
    hide Exact, Ordered, Recorded, Since;
    if Live(s) {
      CollectExact(s, frames);
      CollectSteady(s, frames);
      var collected := Collect(s, frames).value;
      hide Collect;
      ReleaseSteady(collected);
      ReleaseExact(collected);
      hide Release;
    } else {
      IdleSubmits(s.owner, Between(s.pending, None, Some(s.watermark)));
      hide Between, SubmitAll;
    }
  }

  lemma NextSteady(s: State, waitNs: int, op: Operation)
    requires Kept(s) && Steady(s) && !Raises(s, op) && Next(s, waitNs, op).Some?
    ensures Steady(Next(s, waitNs, op).value)
  {
    hide Exact, Recorded, AllInside;
    match op
    case Pass(frames, now, accepted, completed) => PassSteady(s, frames, now, waitNs, accepted, completed);
    case _ =>
  }

  lemma {:induction false} RunSteady(s: State, waitNs: int, ops: seq<Operation>)
    requires Kept(s) && Steady(s) && NeverRaises(s, waitNs, ops) && Run(s, waitNs, ops).Some?
    ensures Steady(Run(s, waitNs, ops).value)
    decreases |ops|
  {
    hide Kept, Steady, Raises, Next;
    if ops != [] {
      NextKept(s, waitNs, ops[0]);
      NextSteady(s, waitNs, ops[0]);
      RunSteady(Next(s, waitNs, ops[0]).value, waitNs, ops[1..]);
    }
  }

  /**
   * As long as no freeze raises an earlier boundary, a finalizing episode has handed the matcher every frame read
   * since `begin` with start <= receipt < cutoff exactly as often as it was read, and no other.
   */
  lemma FramesReachTheMatcher(waitNs: int, ops: seq<Operation>)
    requires NeverRaises(INITIAL, waitNs, ops)
    requires Run(INITIAL, waitNs, ops).Some? && Run(INITIAL, waitNs, ops).value.owner.phase.Finalizing?
    ensures WindowCaptured(Run(INITIAL, waitNs, ops).value)
  {
    InitialKept();
    assert Steady(INITIAL);
    RunKept(INITIAL, waitNs, ops);
    RunSteady(INITIAL, waitNs, ops);
    CapturedUnlessDropped(waitNs, ops);
    hide Run, Exact, Recorded, AllInside, WindowCaptured;
  }

  /** The order of calls that loses a frame: frozen at 10, a frame of 15 read, frozen again at 20, stopped at 20. */
  function RaisingRun(f: Frame, event: R.Record): seq<Operation> {
    [Prepare, Begin(0, event), Freeze(10), Pass([f], 16, true, false), Freeze(20), Stop(20, event), Settled,
     Pass([], 20, true, false)]
  }

  /** Raising the boundary does lose frames: the run raises nowhere, finalizes, and the frame never arrives. */
  lemma RaisedBoundaryLoses(f: Frame, event: R.Record)
    requires f.ReceivedNs() == 15
    ensures Run(INITIAL, 0, RaisingRun(f, event)).Some?
    ensures var s := Run(INITIAL, 0, RaisingRun(f, event)).value;
            s.owner.phase.Finalizing? && s.owner.start <= 15 < s.owner.stop && f in s.read && f !in s.owner.pushed
  {
    var ops := RaisingRun(f, event);
    var s1 := Next(INITIAL, 0, ops[0]).value;
    var s2 := Next(s1, 0, ops[1]).value;
    var s3 := Next(s2, 0, ops[2]).value;
    assert Between([f], None, Some(10)) == [] && Between([f], Some(10), None) == [f] by {
      assert [f][1..] == [];
    }
    var s4 := Next(s3, 0, ops[3]).value;
    assert s4.pending == [] && s4.owner.pushed == [] && s4.read == [f];
    var s5 := Next(s4, 0, ops[4]).value;
    var s6 := Next(s5, 0, ops[5]).value;
    var s7 := Next(s6, 0, ops[6]).value;
    var s8 := Next(s7, 0, ops[7]).value;
    assert s8.owner.phase.Finalizing? && s8.owner.pushed == [] && s8.read == [f];
    hide Next;
    assert ops[7..] == [ops[7]] && ops[8..] == [];
    assert Run(s7, 0, ops[7..]) == Some(s8);
    assert Run(s6, 0, ops[6..]) == Some(s8);
    assert Run(s5, 0, ops[5..]) == Some(s8);
    assert Run(s4, 0, ops[4..]) == Some(s8);
    assert Run(s3, 0, ops[3..]) == Some(s8);
    assert Run(s2, 0, ops[2..]) == Some(s8);
    assert Run(s1, 0, ops[1..]) == Some(s8);
  }

  // Order.

  function Windowed(s: State, frames: seq<Frame>, role: Role): seq<Frame> {
    Between(OfCamera(frames, role), Some(s.owner.start), s.boundary)
  }

  /** While a camera's receipts never move back, its pushed frames and then its pending ones are its reads, in order. */
  ghost predicate InOrder(s: State, role: Role) {
    Sorted(OfCamera(s.read, role)) ==>
      OfCamera(s.owner.pushed, role) + Windowed(s, s.pending, role) == Windowed(s, s.read, role)
  }

  ghost predicate OrderKept(s: State, role: Role) {
    Live(s) ==> InOrder(s, role)
  }

  lemma OfCameraInside(frames: seq<Frame>, low: Option<int>, high: Option<int>, role: Role)
    requires AllInside(frames, low, high)
    ensures AllInside(OfCamera(frames, role), low, high)
  {
    BetweenAll(frames, low, high);
    CameraBetween(frames, low, high, role);
    BetweenInside(OfCamera(frames, role), low, high);
  }

  /** Lowering the boundary, or setting it, trims both sides alike. */
  lemma BoundaryOrder(s: State, t: State, role: Role)
    requires Live(s) && Ordered(s) && InOrder(s, role)
    requires t.owner == s.owner && t.pending == s.pending && t.read == s.read && t.boundary.Some?
    requires s.watermark <= t.boundary.value && (s.boundary.Some? ==> t.boundary.value <= s.boundary.value)
    ensures InOrder(t, role)
  {
    if Sorted(OfCamera(s.read, role)) {
      var start := Some(s.owner.start);
      var pushed, pending, read := OfCamera(s.owner.pushed, role), OfCamera(s.pending, role), OfCamera(s.read, role);
      BetweenTwice(pending, start, s.boundary, start, t.boundary, start, t.boundary);
      BetweenTwice(read, start, s.boundary, start, t.boundary, start, t.boundary);
      BetweenAppend(pushed, Between(pending, start, s.boundary), start, t.boundary);
      OfCameraInside(s.owner.pushed, start, Some(s.watermark), role);
      BetweenAll(pushed, start, t.boundary);
    }
  }

  lemma SortedPrefix(a: seq<Frame>, b: seq<Frame>)
    requires Sorted(a + b)
    ensures Sorted(a)
  {
    forall i, j | 0 <= i < j < |a|
      ensures a[i].ReceivedNs() <= a[j].ReceivedNs()
    {
      assert (a + b)[i].ReceivedNs() <= (a + b)[j].ReceivedNs();
    }
  }

  lemma SortedSuffix(a: seq<Frame>, b: seq<Frame>)
    requires Sorted(a + b)
    ensures Sorted(b)
  {
    forall i, j | 0 <= i < j < |b|
      ensures b[i].ReceivedNs() <= b[j].ReceivedNs()
    {
      assert (a + b)[|a| + i].ReceivedNs() <= (a + b)[|a| + j].ReceivedNs();
    }
  }

  /** A pass while recording adds the same window to both sides. */
  lemma HeldOrder(s: State, frames: seq<Frame>, role: Role)
    requires InOrder(s, role) && Sorted(OfCamera(s.read, role))
    ensures OfCamera(s.owner.pushed, role) + Windowed(s, s.pending + Admitted(s, frames), role)
            == Windowed(s, s.read + frames, role)
  {
    hide Between, OfCamera, Sorted;
    var start := Some(s.owner.start);
    var read, added := OfCamera(s.read, role), OfCamera(frames, role);
    var held := Between(frames, None, s.boundary);
    OfCameraAppend(s.read, frames, role);
    BetweenAppend(read, added, start, s.boundary);
    OfCameraAppend(s.pending, held, role);
    CameraBetween(frames, None, s.boundary, role);
    BetweenAppend(OfCamera(s.pending, role), OfCamera(held, role), start, s.boundary);
    BetweenTwice(added, None, s.boundary, start, s.boundary, start, s.boundary);
    var pushed, pending := OfCamera(s.owner.pushed, role), Windowed(s, s.pending, role);
    var more := Between(added, start, s.boundary);
    assert pushed + (pending + more) == pushed + pending + more;
  }

  lemma CollectOrder(s: State, frames: seq<Frame>, role: Role)
    requires Live(s) && Ordered(s) && Steady(s) && InOrder(s, role) && Collect(s, frames).Some?
    ensures InOrder(Collect(s, frames).value, role)
  {
    var t := Collect(s, frames).value;
    OfCameraAppend(s.read, frames, role);
    if Sorted(OfCamera(t.read, role)) {
      SortedPrefix(OfCamera(s.read, role), OfCamera(frames, role));
      if s.owner.phase.Recording? {
        HeldOrder(s, frames, role);
        hide OfCamera, Between, Sorted;
      } else {
        SubmitsFinalizing(s.owner, frames);
        LateOutside(s, frames, role);
        hide OfCamera, Between, Sorted, SubmitAll;
      }
    }
  }

  /** Frames read while finalizing add nothing to the window. */
  lemma LateOutside(s: State, frames: seq<Frame>, role: Role)
    requires s.boundary == Some(s.owner.stop)
    requires forall f :: f in frames ==> !(s.owner.start <= f.ReceivedNs() < s.owner.stop)
    ensures Windowed(s, s.read + frames, role) == Windowed(s, s.read, role)
  {
    var start := Some(s.owner.start);
    OfCameraAppend(s.read, frames, role);
    BetweenAppend(OfCamera(s.read, role), OfCamera(frames, role), start, s.boundary);
    NothingInside(frames, start, s.boundary);
    CameraBetween(frames, start, s.boundary, role);
  }

  lemma {:induction false} NothingInside(frames: seq<Frame>, low: Option<int>, high: Option<int>)
    requires forall f :: f in frames ==> !Inside(low, high, f.ReceivedNs())
    ensures Between(frames, low, high) == []
    decreases |frames|
  {
    if frames != [] {
      NothingInside(frames[1..], low, high);
    }
  }

  /** The watermark releases a prefix of what one camera still owes. */
  lemma ReleaseOrder(s: State, role: Role)
    requires Live(s) && Ordered(s) && Steady(s) && InOrder(s, role) && Release(s).Some?
    ensures InOrder(Release(s).value, role)
  {
    var t := Release(s).value;
    var start, mark := Some(s.owner.start), Some(s.watermark);
    var due := Between(s.pending, None, mark);
    var pending := OfCamera(s.pending, role);
    if Sorted(OfCamera(s.read, role)) {
      CameraBetween(s.pending, mark, s.boundary, role);
      BetweenTwice(pending, mark, s.boundary, start, s.boundary, mark, s.boundary);
      if s.owner.phase.Recording? {
        SubmitsRecording(s.owner, due);
        ReleasedPrefix(s, role);
        OfCameraAppend(s.owner.pushed, Between(due, start, None), role);
      } else {
        SubmitsFinalizing(s.owner, due);
        NoneBefore(s.pending, None, s.watermark);
        LaterOnly(s, role);
      }
    }
  }

  lemma LaterOnly(s: State, role: Role)
    requires s.owner.start <= s.watermark && AllInside(s.pending, Some(s.watermark), None)
    ensures Between(OfCamera(s.pending, role), Some(s.owner.start), s.boundary)
            == Between(OfCamera(s.pending, role), Some(s.watermark), s.boundary)
  {
    var pending := OfCamera(s.pending, role);
    OfCameraInside(s.pending, Some(s.watermark), None, role);
    BetweenAll(pending, Some(s.watermark), None);
    BetweenTwice(pending, Some(s.watermark), None, Some(s.owner.start), s.boundary, Some(s.watermark), s.boundary);
    BetweenTwice(pending, Some(s.watermark), None, Some(s.watermark), s.boundary, Some(s.watermark), s.boundary);
  }

  lemma ReleasedPrefix(s: State, role: Role)
    requires Ordered(s) && InOrder(s, role) && Sorted(OfCamera(s.read, role))
    ensures var due := Between(s.pending, None, Some(s.watermark));
            OfCamera(s.owner.pushed, role) + OfCamera(Between(due, Some(s.owner.start), None), role)
              + Between(OfCamera(s.pending, role), Some(s.watermark), s.boundary)
            == Windowed(s, s.read, role)
  {
    hide Between, OfCamera, Sorted, AllInside;
    var start, mark := Some(s.owner.start), Some(s.watermark);
    var due := Between(s.pending, None, mark);
    var pending, pushed := OfCamera(s.pending, role), OfCamera(s.owner.pushed, role);
    CameraBetween(due, start, None, role);
    CameraBetween(s.pending, None, mark, role);
    BetweenTwice(pending, None, mark, start, None, start, mark);
    var owed := Between(pending, start, s.boundary);
    BetweenSorted(OfCamera(s.read, role), start, s.boundary);
    SortedSuffix(pushed, owed);
    SplitSorted(owed, start, s.watermark, s.boundary);
    BetweenTwice(pending, start, s.boundary, start, mark, start, mark);
    BetweenTwice(pending, start, s.boundary, mark, s.boundary, mark, s.boundary);
    BetweenInside(pending, start, s.boundary);
    BetweenAll(owed, start, s.boundary);
    var early, late := Between(pending, start, mark), Between(pending, mark, s.boundary);
    assert pushed + early + late == pushed + (early + late);
  }

  lemma PassOrder(s: State, frames: seq<Frame>, now: int, waitNs: int, accepted: bool, completed: bool, role: Role)
    requires Kept(s) && Steady(s) && OrderKept(s, role) && PassOver(s, frames, now, waitNs, accepted, completed).Some?
    ensures OrderKept(PassOver(s, frames, now, waitNs, accepted, completed).value, role)
  {
    hide Exact, Ordered, Recorded, Since, Sorted, OfCamera, Between;
    if Live(s) {
      CollectExact(s, frames);
      CollectSteady(s, frames);
      CollectOrder(s, frames, role);
      var collected := Collect(s, frames).value;
      hide Collect, Steady;
      ReleaseOrder(collected, role);
      hide Release;
    } else {
      IdleSubmits(s.owner, Between(s.pending, None, Some(s.watermark)));
      hide SubmitAll;
    }
  }

  lemma NextOrder(s: State, waitNs: int, op: Operation, role: Role)
    requires Kept(s) && Steady(s) && OrderKept(s, role) && !Raises(s, op) && Next(s, waitNs, op).Some?
    ensures OrderKept(Next(s, waitNs, op).value, role)
  {
    var t := Next(s, waitNs, op).value;
    match op
    case Pass(frames, now, accepted, completed) => PassOrder(s, frames, now, waitNs, accepted, completed, role);
    case Freeze(_) => BoundaryOrder(s, t, role);
    case Stop(_, _) => BoundaryOrder(s, t, role);
    case _ =>
      hide Exact, Recorded, Ordered, Sorted, Since;
  }

  lemma {:induction false} RunOrder(s: State, waitNs: int, ops: seq<Operation>, role: Role)
    requires Kept(s) && Steady(s) && OrderKept(s, role) && NeverRaises(s, waitNs, ops) && Run(s, waitNs, ops).Some?
    ensures OrderKept(Run(s, waitNs, ops).value, role)
    decreases |ops|
  {
    hide Kept, Steady, OrderKept, Raises, Next;
    if ops != [] {
      NextKept(s, waitNs, ops[0]);
      NextSteady(s, waitNs, ops[0]);
      NextOrder(s, waitNs, ops[0], role);
      RunOrder(Next(s, waitNs, ops[0]).value, waitNs, ops[1..], role);
    }
  }

  /** A finalizing episode has handed the matcher each camera's window in the order that camera delivered it. */
  lemma CamerasKeepOrder(waitNs: int, ops: seq<Operation>, role: Role)
    requires NeverRaises(INITIAL, waitNs, ops)
    requires Run(INITIAL, waitNs, ops).Some? && Run(INITIAL, waitNs, ops).value.owner.phase.Finalizing?
    requires Sorted(OfCamera(Run(INITIAL, waitNs, ops).value.read, role))
    ensures var s := Run(INITIAL, waitNs, ops).value;
            OfCamera(s.owner.pushed, role) == Between(OfCamera(s.read, role), Some(s.owner.start), Some(s.owner.stop))
  {
    InitialKept();
    assert Steady(INITIAL);
    RunKept(INITIAL, waitNs, ops);
    RunSteady(INITIAL, waitNs, ops);
    RunOrder(INITIAL, waitNs, ops, role);
    var s := Run(INITIAL, waitNs, ops).value;
    hide Run, Exact, Recorded;
    OfCameraInside(s.pending, s.cutoff, None, role);
    NothingInside(OfCamera(s.pending, role), Some(s.owner.start), s.boundary);
    assert OfCamera(s.owner.pushed, role) + [] == OfCamera(s.owner.pushed, role);
  }

  // Samples, and the archive's containment check.

  /**
   * A finalizing episode has submitted its acquisition, its samples and its release, in that order and from the
   * start on; every sample lies below the cutoff.
   */
  lemma SamplesBelowCutoff(waitNs: int, ops: seq<Operation>)
    requires Run(INITIAL, waitNs, ops).Some? && Run(INITIAL, waitNs, ops).value.owner.phase.Finalizing?
    ensures var s := Run(INITIAL, waitNs, ops).value;
            && s.acquired.Some? && s.release.Some?
            && s.owner.recorded == Since([s.acquired.value] + s.samples, s.owner.start)
                                   + Since([s.release.value], s.owner.start)
            && forall i :: 0 <= i < |s.samples| ==> s.samples[i].ReceivedNs() < s.owner.stop
  {
    InitialKept();
    RunKept(INITIAL, waitNs, ops);
    hide Run, Exact, Since, AllInside;
  }

  /** An archive log of what one episode submitted: its samples in the window, and groups of its pushed frames. */
  ghost predicate LogOf(s: State, log: seq<C.Entry>) {
    forall k :: 0 <= k < |log| ==>
      match log[k]
      case Logged(record, _) =>
        record.AuthorityEvent? || (record in s.samples && record.ReceivedNs() >= s.owner.start)
      case Grouped(members) => forall i :: 0 <= i < |members| ==> members[i] in s.owner.pushed
  }

  /** The validator's interval containment cannot fail on what the capture submitted. */
  lemma ContainmentNeverFails(waitNs: int, ops: seq<Operation>, log: seq<C.Entry>)
    requires Run(INITIAL, waitNs, ops).Some? && Run(INITIAL, waitNs, ops).value.owner.phase.Finalizing?
    requires LogOf(Run(INITIAL, waitNs, ops).value, log)
    ensures var s := Run(INITIAL, waitNs, ops).value; C.Inside(log, s.owner.start, s.owner.stop)
  {
    InitialKept();
    RunKept(INITIAL, waitNs, ops);
    SamplesBelowCutoff(waitNs, ops);
    var s := Run(INITIAL, waitNs, ops).value;
    hide Run, Exact, Recorded, Since;
    forall k, receipt | 0 <= k < |log| && C.Observes(log[k], receipt)
      ensures s.owner.start <= receipt < s.owner.stop
    {
      match log[k]
      case Logged(record, _) =>
      case Grouped(members) =>
        var i :| 0 <= i < |members| && members[i].ReceivedNs() == receipt;
        assert members[i] in s.owner.pushed;
    }
  }
}

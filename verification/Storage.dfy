/** The bounded background writer of storage.py: two threads over one lock and one queue, as atomic steps. */
module StorageSteps {
  import opened Prelude
  import W = ArchiveSteps
  import P = ArchiveProofs

  datatype Status = Open | Closing | Committed | Aborted | Failed

  /** One accepted submission: a single operation, or a batch of feedback records. */
  datatype Submission = Single(entry: W.Entry) | Batch(entries: seq<W.Entry>) {
    function Entries(): seq<W.Entry> {
      match this
      case Single(entry) => [entry]
      case Batch(entries) => entries
    }
  }

  datatype Item = Work(submission: Submission) | Sentinel

  datatype Config = Config(capacity: nat, feedbackCapacity: nat) {
    /** The queue's own bound. */
    function Bound(): nat {
      capacity + feedbackCapacity
    }
  }

  const LARGEST_BATCH := 64

  /** Where the writer thread is. */
  datatype Place<V> =
    | Starting
    | Checking
    | Taking
    | Accounting(submission: Submission)
    | Writing(submission: Submission)
    | Finishing
    | Committing
    | Failing
    | Draining
    | Done

  /** Where the caller of `finish` is. */
  datatype Caller = Idle | Placing | Awaiting

  datatype State<V> = State(
    status: Status,
    deadline: Option<int>,
    queued: int,
    queuedFeedback: int,
    queue: seq<Item>,
    place: Place<V>,
    caller: Caller,
    archive: W.Writer<V>,
    fullRaised: bool,
    accepted: seq<Submission>,
    consumed: seq<Submission>
  )

  function Initial<V>(e: W.Episode<V>): State<V> {
    State(Open, None, 0, 0, [], Starting, Idle, W.Opening(e), false, [], [])
  }

  /** One atomic action; the flags are what the environment makes of it. */
  datatype Step =
    | Submit(submission: Submission)
    | Abort
    | BeginFinish(deadline: int)
    | PlaceSentinel(expired: bool)
    | EndFinish
    | Start(ok: bool)
    | Check
    | Take
    | Account
    | Write
    | Finish
    | Commit(now: int, free: bool, synced: bool)
    | Fail
    | Drain

  /** How much a submission weighs, and against which counter. */
  function Weight(x: Submission): nat {
    match x
    case Single(_) => 1
    case Batch(entries) => |entries|
  }

  predicate Admissible(x: Submission) {
    match x
    case Single(_) => true
    case Batch(entries) => 1 <= |entries| <= LARGEST_BATCH && forall i :: 0 <= i < |entries| ==> entries[i].Record?
  }

  predicate Fits<V>(config: Config, s: State<V>, x: Submission) {
    if x.Batch? then s.queuedFeedback + Weight(x) <= config.feedbackCapacity else s.queued + 1 <= config.capacity
  }

  function Counted<V>(s: State<V>, x: Submission, sign: int): State<V> {
    if x.Batch? then s.(queuedFeedback := s.queuedFeedback + sign * Weight(x)) else s.(queued := s.queued + sign)
  }

  predicate Active<V>(s: State<V>) {
    s.status.Open? || s.status.Closing?
  }

  /** Apply the operations of one submission in order. */
  function ApplyAll<V>(e: W.Episode<V>, w: W.Writer<V>, entries: seq<W.Entry>): Option<W.Writer<V>>
    decreases |entries|
  {
    if entries == [] then Some(w)
    else match W.Apply(e, w, entries[0])
      case None => None
      case Some(next) => ApplyAll(e, next, entries[1..])
  }

  /** The finished file passes the independent verifier with the writer's own counts. */
  predicate Sealed<V>(e: W.Episode<V>, w: W.Writer<V>) {
    && e.records.complete(w.records)
    && W.Verify(e, w.out).Some? && W.Accepts(e, W.Verify(e, w.out).value)
    && W.Verify(e, w.out).value.counts == w.counts
  }

  function Next<V>(config: Config, e: W.Episode<V>, s: State<V>, step: Step): State<V> {
    match step
    case Submit(x) => Submitted(config, s, x)
    case Abort => if s.status.Committed? then s else s.(status := Aborted)
    case BeginFinish(deadline) =>
      if !s.status.Open? then s else s.(status := Closing, deadline := Some(deadline), caller := Placing)
    case PlaceSentinel(expired) =>
      if !s.caller.Placing? then s
      else if |s.queue| < config.Bound() then s.(queue := s.queue + [Sentinel], caller := Awaiting)
      else if expired then s.(caller := Awaiting)
      else s
    case EndFinish =>
      if !s.caller.Awaiting? then s
      else if s.status.Committed? then s.(caller := Idle)
      else s.(caller := Idle, status := Aborted)
    case Start(ok) => if !s.place.Starting? then s else s.(place := if ok then Checking else Failing)
    case Check => if !s.place.Checking? then s else s.(place := if Active(s) then Taking else Failing)
    case Take =>
      if !s.place.Taking? then s
      else if s.queue == [] then s.(place := Checking)
      else
        s.(queue := s.queue[1..],
           place := match s.queue[0] case Sentinel => Finishing case Work(x) => Accounting(x))
    case Account =>
      if !s.place.Accounting? then s
      else Counted(s, s.place.submission, -1).(place := Writing(s.place.submission))
    case Write =>
      if !s.place.Writing? then s
      else
        var written := ApplyAll(e, s.archive, s.place.submission.Entries());
        if written.None? then s.(place := Failing)
        else s.(archive := written.value, consumed := s.consumed + [s.place.submission], place := Checking)
    case Finish => if !s.place.Finishing? then s else s.(place := if Sealed(e, s.archive) then Committing else Failing)
    case Commit(now, free, synced) =>
      if !s.place.Committing? then s
      else if !s.status.Closing? || s.deadline.None? || now >= s.deadline.value || !free || !synced then
          s.(place := Failing)
      else s.(status := Committed, place := Draining)
    case Fail => if !s.place.Failing? then s else s.(status := Failed, place := Draining)
    case Drain =>
      if !s.place.Draining? then s
      else if s.queue == [] then s.(place := Done)
      else s.(queue := s.queue[1..])
  }

  /** A submission outside `open` is refused; one that exceeds its counter aborts the recording. */
  function Submitted<V>(config: Config, s: State<V>, x: Submission): State<V> {
    if !Admissible(x) || !s.status.Open? then s
    else if !Fits(config, s, x) then s.(status := Aborted)
    else if |s.queue| >= config.Bound() then s.(fullRaised := true)
    else Counted(s.(queue := s.queue + [Work(x)], accepted := s.accepted + [x]), x, 1)
  }

  function Run<V>(config: Config, e: W.Episode<V>, s: State<V>, steps: seq<Step>): State<V>
    decreases |steps|
  {
    if steps == [] then s else Run(config, e, Next(config, e, s, steps[0]), steps[1..])
  }

  // The invariant.

  /** The submissions among the queued items, in order. */
  function Works(queue: seq<Item>): seq<Submission>
    decreases |queue|
  {
    if queue == [] then []
    else (match queue[0] case Sentinel => [] case Work(x) => [x]) + Works(queue[1..])
  }

  function InHand<V>(s: State<V>): seq<Submission> {
    match s.place
    case Accounting(x) => [x]
    case Writing(x) => [x]
    case _ => []
  }

  function Uncounted<V>(s: State<V>): seq<Submission> {
    if s.place.Accounting? then [s.place.submission] else []
  }

  /** Total weight against one of the two counters. */
  function Load(xs: seq<Submission>, batches: bool): nat
    decreases |xs|
  {
    if xs == [] then 0 else (if xs[0].Batch? == batches then Weight(xs[0]) else 0) + Load(xs[1..], batches)
  }

  predicate Alive<V>(s: State<V>) {
    !s.place.Failing? && !s.place.Draining? && !s.place.Done?
  }

  /** The writer thread is past its last decision. */
  predicate Settled<V>(s: State<V>) {
    s.place.Draining? || s.place.Done?
  }

  predicate Sealing<V>(s: State<V>) {
    s.place.Finishing? || s.place.Committing?
  }

  /** A sentinel only ever stands at the end of the queue. */
  ghost predicate SentinelLast(queue: seq<Item>) {
    forall i :: 0 <= i < |queue| - 1 ==> queue[i].Work?
  }

  predicate EndsSealed(queue: seq<Item>) {
    queue != [] && queue[|queue| - 1].Sentinel?
  }

  ghost predicate AllAdmissible(xs: seq<Submission>) {
    forall i :: 0 <= i < |xs| ==> Admissible(xs[i])
  }

  /** Nothing is lost, reordered or repeated on the way from submission to archive. */
  ghost predicate Flow<V(!new)>(s: State<V>) {
    && (Alive(s) ==> s.consumed + InHand(s) + Works(s.queue) == s.accepted)
    && SentinelLast(s.queue)
    && AllAdmissible(Works(s.queue))
    && (Sealing(s) ==> s.queue == [])
    && (EndsSealed(s.queue) || Sealing(s) ==> !s.status.Open? && !s.caller.Placing?)
    && (s.caller.Placing? ==> !s.status.Open?)
    && (s.status.Committed? ==> s.consumed == s.accepted && Settled(s))
  }

  /** The counters are the weights still queued or in hand, and the queue never outgrows them. */
  ghost predicate Balanced<V(!new)>(config: Config, s: State<V>) {
    && !s.fullRaised
    && s.queued <= config.capacity && s.queuedFeedback <= config.feedbackCapacity
    && (s.status.Open? ==>
          && !Settled(s)
          && s.queued == Load(Uncounted(s) + Works(s.queue), false)
          && s.queuedFeedback == Load(Uncounted(s) + Works(s.queue), true))
  }

  /** The file is what the consumed operations write. */
  ghost predicate Faithful<V(!new)>(e: W.Episode<V>, s: State<V>) {
    && ApplyAll(e, W.Opening(e), Entries(s.consumed)) == Some(s.archive)
    && (s.place.Committing? || s.status.Committed? ==> Sealed(e, s.archive))
  }

  /** The operations of a sequence of submissions, flattened. */
  function Entries(xs: seq<Submission>): seq<W.Entry>
    decreases |xs|
  {
    if xs == [] then [] else Entries(xs[..|xs| - 1]) + xs[|xs| - 1].Entries()
  }

  // Sequences of items and submissions.

  lemma {:induction false} WorksAppend(queue: seq<Item>, item: Item)
    ensures Works(queue + [item]) == Works(queue) + Works([item])
    decreases |queue|
  {
    if queue == [] {
      assert queue + [item] == [item];
    } else {
      assert (queue + [item])[0] == queue[0] && (queue + [item])[1..] == queue[1..] + [item];
      WorksAppend(queue[1..], item);
      var head := match queue[0] case Sentinel => [] case Work(x) => [x];
      assert head + (Works(queue[1..]) + Works([item])) == head + Works(queue[1..]) + Works([item]);
    }
  }

  lemma {:induction false} LoadAppend(xs: seq<Submission>, ys: seq<Submission>, batches: bool)
    ensures Load(xs + ys, batches) == Load(xs, batches) + Load(ys, batches)
    decreases |xs|
  {
    if xs == [] {
      assert xs + ys == ys;
    } else {
      assert (xs + ys)[1..] == xs[1..] + ys;
      LoadAppend(xs[1..], ys, batches);
    }
  }

  /** Each admissible submission weighs at least one against exactly one counter. */
  lemma {:induction false} LoadCovers(xs: seq<Submission>)
    requires forall i :: 0 <= i < |xs| ==> Admissible(xs[i])
    ensures |xs| <= Load(xs, false) + Load(xs, true)
    decreases |xs|
  {
    if xs != [] {
      assert Admissible(xs[0]);
      LoadCovers(xs[1..]);
    }
  }

  lemma {:induction false} WorksLength(queue: seq<Item>)
    requires SentinelLast(queue) && !EndsSealed(queue)
    ensures |Works(queue)| == |queue|
    decreases |queue|
  {
    if queue != [] {
      assert queue[0].Work?;
      WorksLength(queue[1..]);
    }
  }

  /** With room on its counter, a submission always finds room in the queue. */
  lemma QueueHasRoom<V(!new)>(config: Config, s: State<V>, x: Submission)
    requires Flow(s) && Balanced(config, s) && s.status.Open? && Admissible(x) && Fits(config, s, x)
    ensures |s.queue| < config.Bound()
  {
    var works := Works(s.queue);
    WorksLength(s.queue);
    LoadCovers(works);
    LoadAppend(Uncounted(s), works, false);
    LoadAppend(Uncounted(s), works, true);
  }

  lemma WorksOne(x: Submission)
    ensures Works([Work(x)]) == [x]
  {
    assert [Work(x)][1..] == [];
  }

  lemma SubmitFlow<V(!new)>(config: Config, s: State<V>, x: Submission)
    requires Flow(s) && s.status.Open? && Admissible(x) && Fits(config, s, x) && |s.queue| < config.Bound()
    ensures Flow(Submitted(config, s, x))
  {
    var works := Works(s.queue);
    WorksAppend(s.queue, Work(x));
    WorksOne(x);
    assert s.consumed + InHand(s) + (works + [x]) == s.consumed + InHand(s) + works + [x];
    hide Works, Admissible;
  }

  /** A submission adds its weight to its own counter. */
  lemma LoadGrows(held: seq<Submission>, works: seq<Submission>, x: Submission, batches: bool)
    ensures Load(held + (works + [x]), batches)
            == Load(held + works, batches) + if x.Batch? == batches then Weight(x) else 0
  {
    LoadOne(x);
    LoadAppend(held + works, [x], batches);
    assert held + (works + [x]) == held + works + [x];
    hide Load;
  }

  lemma SubmitBalanced<V(!new)>(config: Config, s: State<V>, x: Submission)
    requires Balanced(config, s) && s.status.Open? && Admissible(x) && Fits(config, s, x) && |s.queue| < config.Bound()
    ensures Balanced(config, Submitted(config, s, x))
  {
    WorksAppend(s.queue, Work(x));
    WorksOne(x);
    hide Works, Load, Admissible;
    LoadGrows(Uncounted(s), Works(s.queue), x, false);
    LoadGrows(Uncounted(s), Works(s.queue), x, true);
  }

  lemma SubmitKeeps<V(!new)>(config: Config, e: W.Episode<V>, s: State<V>, x: Submission)
    requires Flow(s) && Balanced(config, s)
    ensures Flow(Submitted(config, s, x)) && Balanced(config, Submitted(config, s, x))
  {
    if Admissible(x) && s.status.Open? && Fits(config, s, x) {
      QueueHasRoom(config, s, x);
      SubmitFlow(config, s, x);
      SubmitBalanced(config, s, x);
      hide Flow, Balanced;
    }
  }

  lemma LoadOne(x: Submission)
    ensures Load([x], x.Batch?) == Weight(x) && Load([x], !x.Batch?) == 0
  {
    assert [x][1..] == [];
  }

  /** What the head of the queue contributes. */
  lemma WorksHead(queue: seq<Item>)
    requires queue != [] && SentinelLast(queue) && AllAdmissible(Works(queue))
    ensures Works(queue) == (match queue[0] case Sentinel => [] case Work(x) => [x]) + Works(queue[1..])
    ensures SentinelLast(queue[1..]) && AllAdmissible(Works(queue[1..]))
    ensures queue[0].Sentinel? ==> queue[1..] == []
    ensures EndsSealed(queue[1..]) ==> EndsSealed(queue)
  {
    var head := match queue[0] case Sentinel => [] case Work(x) => [x];
    var rest := Works(queue[1..]);
    forall i | 0 <= i < |rest|
      ensures Admissible(rest[i])
    {
      assert (head + rest)[i + |head|] == rest[i];
    }
  }

  lemma HeadInHand(consumed: seq<Submission>, x: Submission, rest: seq<Submission>)
    ensures consumed + [] + ([x] + rest) == consumed + [x] + rest
  {
  }

  lemma NothingInHand(consumed: seq<Submission>, rest: seq<Submission>)
    ensures consumed + [] + ([] + rest) == consumed + [] + rest
  {
  }

  lemma TakeFlow<V(!new)>(config: Config, e: W.Episode<V>, s: State<V>)
    requires Flow(s) && s.place.Taking? && s.queue != []
    ensures Flow(Next(config, e, s, Take))
  {
    WorksHead(s.queue);
    var rest := Works(s.queue[1..]);
    hide Works, SentinelLast, AllAdmissible;
    match s.queue[0] {
      case Sentinel =>
        NothingInHand(s.consumed, rest);
        assert EndsSealed(s.queue);
      case Work(x) => HeadInHand(s.consumed, x, rest);
    }
  }

  lemma TakeBalanced<V(!new)>(config: Config, e: W.Episode<V>, s: State<V>)
    requires Flow(s) && Balanced(config, s) && s.place.Taking? && s.queue != []
    ensures Balanced(config, Next(config, e, s, Take))
  {
    if s.queue[0].Sentinel? {
      SealedTake(s);
    }
    FlowQueue(s);
    WorksHead(s.queue);
    var t := Next(config, e, s, Take);
    TakeNext(config, e, s);
    hide Next, Load, Works, SentinelLast, AllAdmissible, Flow, EndsSealed;
    assert [] + Works(s.queue) == Works(s.queue);
    if s.queue[0].Work? {
      assert Uncounted(t) + Works(t.queue) == Uncounted(s) + Works(s.queue);
    }
  }

  lemma FlowQueue<V(!new)>(s: State<V>)
    requires Flow(s)
    ensures SentinelLast(s.queue) && AllAdmissible(Works(s.queue))
  {
    hide Works, AllAdmissible, SentinelLast;
  }

  lemma TakeNext<V(!new)>(config: Config, e: W.Episode<V>, s: State<V>)
    requires s.place.Taking? && s.queue != []
    ensures var t := Next(config, e, s, Take);
            && t.queue == s.queue[1..] && t.status == s.status && t.fullRaised == s.fullRaised
            && t.queued == s.queued && t.queuedFeedback == s.queuedFeedback
            && t.place == match s.queue[0] case Sentinel => Finishing case Work(x) => Accounting(x)
  {
  }

  /** A sentinel is queued only once submission is closed. */
  lemma SealedTake<V(!new)>(s: State<V>)
    requires Flow(s) && s.queue != [] && s.queue[0].Sentinel?
    ensures !s.status.Open?
  {
    WorksHead(s.queue);
    hide Works, AllAdmissible;
    assert EndsSealed(s.queue);
  }

  lemma TakeKeeps<V(!new)>(config: Config, e: W.Episode<V>, s: State<V>)
    requires Flow(s) && Balanced(config, s)
    ensures Flow(Next(config, e, s, Take)) && Balanced(config, Next(config, e, s, Take))
  {
    if s.place.Taking? && s.queue != [] {
      TakeFlow(config, e, s);
      TakeBalanced(config, e, s);
      hide Flow, Balanced;
    }
  }

  lemma AccountKeeps<V(!new)>(config: Config, e: W.Episode<V>, s: State<V>)
    requires Flow(s) && Balanced(config, s)
    ensures Flow(Next(config, e, s, Account)) && Balanced(config, Next(config, e, s, Account))
  {
    if s.place.Accounting? {
      var x, works := s.place.submission, Works(s.queue);
      LoadOne(x);
      LoadAppend([x], works, false);
      LoadAppend([x], works, true);
      assert [] + works == works;
      hide Load, Works;
    }
  }

  lemma WriteKeeps<V(!new)>(config: Config, e: W.Episode<V>, s: State<V>)
    requires Flow(s) && Balanced(config, s)
    ensures Flow(Next(config, e, s, Write)) && Balanced(config, Next(config, e, s, Write))
  {
    if s.place.Writing? {
      var x, works := s.place.submission, Works(s.queue);
      assert s.consumed + [x] + [] + works == s.consumed + [x] + works;
      assert [] + works == works;
      hide Load, Works;
    }
  }

  lemma SentinelKeeps<V(!new)>(config: Config, e: W.Episode<V>, s: State<V>, expired: bool)
    requires Flow(s) && Balanced(config, s)
    ensures Flow(Next(config, e, s, PlaceSentinel(expired)))
        && Balanced(config, Next(config, e, s, PlaceSentinel(expired)))
  {
    if s.caller.Placing? {
      WorksAppend(s.queue, Sentinel);
      assert Works([Sentinel]) == [];
      assert Works(s.queue) + [] == Works(s.queue);
      hide Load, Works, AllAdmissible;
      SealedEnd(s.queue);
    }
  }

  lemma SealedEnd(queue: seq<Item>)
    requires SentinelLast(queue) && !EndsSealed(queue)
    ensures SentinelLast(queue + [Sentinel])
  {
  }

  lemma DrainKeeps<V(!new)>(config: Config, e: W.Episode<V>, s: State<V>)
    requires Flow(s) && Balanced(config, s)
    ensures Flow(Next(config, e, s, Drain)) && Balanced(config, Next(config, e, s, Drain))
  {
    if s.place.Draining? && s.queue != [] {
      WorksHead(s.queue);
      hide Load, Works, SentinelLast, AllAdmissible;
    }
  }

  /** The remaining steps move neither items nor submissions. */
  lemma QuietKeeps<V(!new)>(config: Config, e: W.Episode<V>, s: State<V>, step: Step)
    requires Flow(s) && Balanced(config, s)
    requires step.Abort? || step.BeginFinish? || step.EndFinish? || step.Start? || step.Check? || step.Finish?
             || step.Commit? || step.Fail?
    ensures Flow(Next(config, e, s, step)) && Balanced(config, Next(config, e, s, step))
  {
    hide Load, SentinelLast, AllAdmissible, Sealed;
    if step.Commit? && s.place.Committing? {
      assert Works(s.queue) == [];
      assert s.consumed + [] + [] == s.consumed;
    }
  }

  lemma ApplyAllAppend<V(!new)>(e: W.Episode<V>, w: W.Writer<V>, xs: seq<W.Entry>, ys: seq<W.Entry>)
    ensures ApplyAll(e, w, xs + ys)
            == match ApplyAll(e, w, xs) case None => None case Some(next) => ApplyAll(e, next, ys)
    decreases |xs|
  {
    hide W.Apply;
    if xs == [] {
      assert xs + ys == ys;
    } else {
      assert (xs + ys)[1..] == xs[1..] + ys;
      var first := W.Apply(e, w, xs[0]);
      if first.Some? {
        ApplyAllAppend(e, first.value, xs[1..], ys);
      }
    }
  }

  lemma FaithfulKeeps<V(!new)>(config: Config, e: W.Episode<V>, s: State<V>, step: Step)
    requires Flow(s) && Faithful(e, s)
    ensures Faithful(e, Next(config, e, s, step))
  {
    if step.Write? {
      WriteFaithful(config, e, s);
    } else {
      var t := Next(config, e, s, step);
      FileUntouched(config, e, s, step);
      hide Next, ApplyAll, Entries, Sealed, Flow;
    }
  }

  /** Only a write changes the file, and only a seal lets the thread commit. */
  lemma FileUntouched<V(!new)>(config: Config, e: W.Episode<V>, s: State<V>, step: Step)
    requires !step.Write?
    ensures var t := Next(config, e, s, step);
            && t.archive == s.archive && t.consumed == s.consumed
            && (t.place.Committing? ==> s.place.Committing? || Sealed(e, s.archive))
            && (t.status.Committed? ==> s.status.Committed? || s.place.Committing?)
  {
    hide Sealed;
  }

  lemma WriteFaithful<V(!new)>(config: Config, e: W.Episode<V>, s: State<V>)
    requires Flow(s) && Faithful(e, s)
    ensures Faithful(e, Next(config, e, s, Write))
  {
    hide *;
    WriteSettled(s);
    FileOf(e, s);
    WriteNext(config, e, s);
    var t := Next(config, e, s, Write);
    if s.place.Writing? {
      var x := s.place.submission;
      EntriesAppend(s.consumed, x);
      ApplyAllAppend(e, W.Opening(e), Entries(s.consumed), x.Entries());
      FaithfulFrom(e, t);
    }
  }

  lemma FileOf<V(!new)>(e: W.Episode<V>, s: State<V>)
    requires Faithful(e, s)
    ensures ApplyAll(e, W.Opening(e), Entries(s.consumed)) == Some(s.archive)
  {
    hide ApplyAll, Entries, Sealed;
  }

  lemma FaithfulFrom<V(!new)>(e: W.Episode<V>, s: State<V>)
    requires ApplyAll(e, W.Opening(e), Entries(s.consumed)) == Some(s.archive)
    requires !s.place.Committing? && !s.status.Committed?
    ensures Faithful(e, s)
  {
    hide ApplyAll, Entries, Sealed;
  }

  lemma WriteNext<V(!new)>(config: Config, e: W.Episode<V>, s: State<V>)
    ensures !s.place.Writing? ==> Next(config, e, s, Write) == s
    ensures s.place.Writing? ==>
              var t, written := Next(config, e, s, Write), ApplyAll(e, s.archive, s.place.submission.Entries());
              && t.status == s.status && !t.place.Committing?
              && (written.None? ==> t.archive == s.archive && t.consumed == s.consumed)
              && (written.Some? ==> t.archive == written.value && t.consumed == s.consumed + [s.place.submission])
  {
    hide ApplyAll;
  }

  lemma WriteSettled<V(!new)>(s: State<V>)
    requires Flow(s)
    ensures s.status.Committed? ==> !s.place.Writing?
  {
    hide Works, SentinelLast, AllAdmissible;
  }

  lemma EntriesAppend(xs: seq<Submission>, x: Submission)
    ensures Entries(xs + [x]) == Entries(xs) + x.Entries()
  {
    assert (xs + [x])[..|xs|] == xs;
  }

  ghost predicate Invariant<V(!new)>(config: Config, e: W.Episode<V>, s: State<V>) {
    Flow(s) && Balanced(config, s) && Faithful(e, s)
  }

  lemma NextKeeps<V(!new)>(config: Config, e: W.Episode<V>, s: State<V>, step: Step)
    requires Invariant(config, e, s)
    ensures Invariant(config, e, Next(config, e, s, step))
  {
    FaithfulKeeps(config, e, s, step);
    hide Flow, Balanced, Faithful;
    match step
    case Submit(x) => SubmitKeeps(config, e, s, x);
    case PlaceSentinel(expired) => SentinelKeeps(config, e, s, expired);
    case Take => TakeKeeps(config, e, s);
    case Account => AccountKeeps(config, e, s);
    case Write => WriteKeeps(config, e, s);
    case Drain => DrainKeeps(config, e, s);
    case _ => QuietKeeps(config, e, s, step);
  }

  lemma {:induction false} RunKeeps<V(!new)>(config: Config, e: W.Episode<V>, s: State<V>, steps: seq<Step>)
    requires Invariant(config, e, s)
    ensures Invariant(config, e, Run(config, e, s, steps))
    decreases |steps|
  {
    hide Invariant, Next;
    if steps != [] {
      NextKeeps(config, e, s, steps[0]);
      RunKeeps(config, e, Next(config, e, s, steps[0]), steps[1..]);
    }
  }

  lemma InitialHolds<V(!new)>(config: Config, e: W.Episode<V>)
    ensures Invariant(config, e, Initial(e))
  {
  }

  // What every interleaving guarantees.

  /**
   * Whatever the interleaving of submissions, aborts, completion and the writer thread: a committed episode has
   * consumed every accepted submission exactly once in order, and its file is what those operations write and passes
   * the independent verifier.
   */
  lemma CommittedIsComplete<V(!new)>(config: Config, e: W.Episode<V>, steps: seq<Step>)
    requires Run(config, e, Initial(e), steps).status.Committed?
    ensures var s := Run(config, e, Initial(e), steps);
            && s.consumed == s.accepted
            && ApplyAll(e, W.Opening(e), Entries(s.accepted)) == Some(s.archive)
            && Sealed(e, s.archive)
  {
    InitialHolds(config, e);
    RunKeeps(config, e, Initial(e), steps);
    hide Run, Sealed, ApplyAll;
  }

  /** No submission of any run ever finds the internal queue full. */
  lemma SubmissionNeverFull<V(!new)>(config: Config, e: W.Episode<V>, steps: seq<Step>)
    ensures !Run(config, e, Initial(e), steps).fullRaised
  {
    InitialHolds(config, e);
    RunKeeps(config, e, Initial(e), steps);
    hide Run, Sealed, ApplyAll;
  }

  predicate Revoked<V(!new)>(s: State<V>) {
    s.status.Aborted? || s.status.Failed?
  }

  /** After an abort, an overflow, a failure or an expired completion, no later step commits. */
  lemma {:induction false} RevokedStays<V(!new)>(config: Config, e: W.Episode<V>, s: State<V>, steps: seq<Step>)
    requires Revoked(s)
    ensures Revoked(Run(config, e, s, steps))
    decreases |steps|
  {
    hide Sealed, ApplyAll, Fits;
    if steps != [] {
      RevokedStays(config, e, Next(config, e, s, steps[0]), steps[1..]);
    }
  }

  /** What revokes: any abort or expired completion before the commit, and an overflowing submission. */
  lemma WhatRevokes<V(!new)>(config: Config, e: W.Episode<V>, s: State<V>, step: Step)
    requires !s.status.Committed?
    requires step.Abort? || (step.EndFinish? && s.caller.Awaiting?) || (step.Fail? && s.place.Failing?)
             || (step.Submit? && s.status.Open? && Admissible(step.submission) && !Fits(config, s, step.submission))
    ensures Revoked(Next(config, e, s, step))
  {
  }

  /** Only the writer's commit step commits, before the deadline of a completion still under way. */
  lemma OnlyCommitCommits<V(!new)>(config: Config, e: W.Episode<V>, s: State<V>, step: Step)
    requires !s.status.Committed? && Next(config, e, s, step).status.Committed?
    ensures step.Commit? && s.place.Committing? && s.status.Closing?
    ensures s.deadline.Some? && step.now < s.deadline.value && step.free && step.synced
  {
    hide Sealed, ApplyAll, Fits;
  }

  /** A committed episode stays committed, with what it has consumed. */
  lemma {:induction false} CommittedStays<V(!new)>(config: Config, e: W.Episode<V>, s: State<V>, steps: seq<Step>)
    requires s.status.Committed? && Settled(s)
    ensures var t := Run(config, e, s, steps); t.status.Committed? && t.consumed == s.consumed && t.archive == s.archive
    decreases |steps|
  {
    hide Sealed, ApplyAll, Fits;
    if steps != [] {
      CommittedStays(config, e, Next(config, e, s, steps[0]), steps[1..]);
    }
  }

  /** Applying operations one by one is writing the whole episode. */
  lemma {:induction false} AppliedIsWritten<V(!new)>(e: W.Episode<V>, ops: seq<W.Entry>)
    ensures ApplyAll(e, W.Opening(e), ops) == W.WriteAll(e, ops)
    decreases |ops|
  {
    hide W.Apply;
    if ops != [] {
      var front, last := ops[..|ops| - 1], ops[|ops| - 1];
      AppliedIsWritten(e, front);
      assert front + [last] == ops;
      ApplyAllAppend(e, W.Opening(e), front, [last]);
      var w := ApplyAll(e, W.Opening(e), front);
      if w.Some? {
        assert [last][1..] == [];
        var next := W.Apply(e, w.value, last);
        assert ApplyAll(e, w.value, [last]) == match next case None => None case Some(n) => ApplyAll(e, n, []);
      }
    }
  }

  /**
   * The verification between the sentinel and the commit never refuses a file of at least one group, complete
   * records and matched rejections: with correct codecs, only the deadline, the destination or the file system can
   * still prevent the commit.
   */
  lemma VerificationNeverRefuses<V(!new)>(config: Config, e: W.Episode<V>, steps: seq<Step>)
    requires var s := Run(config, e, Initial(e), steps);
             && s.place.Finishing? && e.codec.Correct() && e.records.complete(s.archive.records)
             && P.Matched(e, Entries(s.accepted)) && P.Groups(Entries(s.accepted)) >= 1
    ensures var s := Run(config, e, Initial(e), steps);
            Next(config, e, s, Finish).place.Committing?
  {
    var s := Run(config, e, Initial(e), steps);
    InitialHolds(config, e);
    RunKeeps(config, e, Initial(e), steps);
    hide *;
    FinishingConsumed(config, e, s);
    FileVerifies(e, s.archive, Entries(s.accepted));
    FinishSeals(config, e, s);
  }

  /** Past the sentinel, everything accepted has been consumed. */
  lemma FinishingConsumed<V(!new)>(config: Config, e: W.Episode<V>, s: State<V>)
    requires Invariant(config, e, s) && s.place.Finishing?
    ensures s.consumed == s.accepted && ApplyAll(e, W.Opening(e), Entries(s.accepted)) == Some(s.archive)
  {
    hide ApplyAll, Entries, Sealed;
    assert Works([]) == [] && s.consumed + [] + [] == s.consumed;
  }

  lemma FileVerifies<V(!new)>(e: W.Episode<V>, w: W.Writer<V>, ops: seq<W.Entry>)
    requires ApplyAll(e, W.Opening(e), ops) == Some(w)
    requires e.codec.Correct() && e.records.complete(w.records) && P.Matched(e, ops) && P.Groups(ops) >= 1
    ensures Sealed(e, w)
  {
    hide ApplyAll, P.Matched, P.Groups, W.Verify, W.WriteAll;
    AppliedIsWritten(e, ops);
    P.WrittenIsVerified(e, ops);
  }

  lemma FinishSeals<V(!new)>(config: Config, e: W.Episode<V>, s: State<V>)
    requires s.place.Finishing? && Sealed(e, s.archive)
    ensures Next(config, e, s, Finish).place.Committing?
  {
    hide Sealed;
  }
}

/** The writer object: every method is one critical section of its lock or one operation on its queue. */
module Storage {
  import opened Prelude
  import opened Steps = StorageSteps
  import W = ArchiveSteps

  class EpisodeWriter<V(==)> {
    const config: Config
    ghost const episode: W.Episode<V>
    var status: Status
    var deadline: Option<int>
    var queued: int
    var queuedFeedback: int
    var queue: seq<Item>
    ghost var place: Place<V>
    ghost var caller: Caller
    ghost var archive: W.Writer<V>
    ghost var fullRaised: bool
    ghost var accepted: seq<Submission>
    ghost var consumed: seq<Submission>

    ghost function Value(): State<V>
      reads this
    {
      State(status, deadline, queued, queuedFeedback, queue, place, caller, archive, fullRaised, accepted, consumed)
    }

    constructor (config: Config, ghost episode: W.Episode<V>)
      ensures this.config == config && this.episode == episode && Value() == Initial(episode)
    {
      this.config, this.episode := config, episode;
      status, deadline, queued, queuedFeedback, queue := Open, None, 0, 0, [];
      place, caller, archive, fullRaised, accepted, consumed := Starting, Idle, W.Opening(episode), false, [], [];
    }

    method Submit(x: Submission) returns (ok: bool)
      modifies this
      ensures Value() == Next(config, episode, old(Value()), Step.Submit(x))
      ensures ok <==> accepted == old(accepted) + [x]
      ensures !ok ==> accepted == old(accepted)
    {
      ok := false;
      if (x.Batch? && !(1 <= |x.entries| <= LARGEST_BATCH && forall i :: 0 <= i < |x.entries| ==> x.entries[i].Record?))
         || status != Open {
        return;
      }
      var count := if x.Batch? then |x.entries| else 1;
      if (if x.Batch? then queuedFeedback + count > config.feedbackCapacity else queued + count > config.capacity) {
        status := Aborted;
        return;
      }
      if |queue| >= config.Bound() {
        fullRaised := true;
        return;
      }
      queue, accepted := queue + [Work(x)], accepted + [x];
      if x.Batch? {
        queuedFeedback := queuedFeedback + count;
      } else {
        queued := queued + count;
      }
      ok := true;
    }

    method Abort()
      modifies this
      ensures Value() == Next(config, episode, old(Value()), Step.Abort)
    {
      if status != Committed {
        status := Aborted;
      }
    }

    method BeginFinish(until: int)
      modifies this
      ensures Value() == Next(config, episode, old(Value()), Step.BeginFinish(until))
    {
      if status == Open {
        status, deadline, caller := Closing, Some(until), Placing;
      }
    }

    method EndFinish() returns (committed: bool)
      requires caller.Awaiting?
      modifies this
      ensures Value() == Next(config, episode, old(Value()), Step.EndFinish)
      ensures committed == status.Committed?
    {
      caller := Idle;
      committed := status == Committed;
      if !committed {
        status := Aborted;
      }
    }

    method Take() returns (item: Option<Item>)
      requires place.Taking?
      modifies this
      ensures Value() == Next(config, episode, old(Value()), Step.Take)
      ensures item == if old(queue) == [] then None else Some(old(queue)[0])
    {
      if queue == [] {
        place := Checking;
        return None;
      }
      item := Some(queue[0]);
      queue := queue[1..];
      place := match item.value case Sentinel => Finishing case Work(x) => Accounting(x);
    }

    method Account(x: Submission)
      requires place == Accounting(x)
      modifies this
      ensures Value() == Next(config, episode, old(Value()), Step.Account)
    {
      if x.Batch? {
        queuedFeedback := queuedFeedback - |x.entries|;
      } else {
        queued := queued - 1;
      }
      place := Writing(x);
    }

    method Commit(now: int, free: bool, synced: bool) returns (ok: bool)
      requires place.Committing?
      modifies this
      ensures Value() == Next(config, episode, old(Value()), Step.Commit(now, free, synced))
      ensures ok <==> status.Committed? && place.Draining?
    {
      if status != Closing || deadline.None? || now >= deadline.value || !free || !synced {
        place := Failing;
        return false;
      }
      status, place := Committed, Draining;
      ok := true;
    }

    method Fail()
      requires place.Failing?
      modifies this
      ensures Value() == Next(config, episode, old(Value()), Step.Fail)
    {
      status, place := Failed, Draining;
    }
  }
}

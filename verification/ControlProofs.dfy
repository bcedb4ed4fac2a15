/** What an accepted control log looks like from the outside. */
module ControlProofs {
  import opened Prelude
  import opened Model
  import opened Contracts
  import opened MatchingSteps
  import opened ControlSteps

  /** One entry of an episode: a typed record with its publish time, or an accepted camera group. */
  datatype Entry = Logged(record: Record, timestampNs: int) | Grouped(members: seq<Frame>)

  function Enter<L>(auditing: Auditing<L>, context: Context, s: Interval<L>, e: Entry): Option<Interval<L>> {
    match e
    case Logged(record, timestampNs) => Check(auditing, context, s, record, timestampNs)
    case Grouped(members) => Some(Frames(s, members))
  }

  /** The validator after a whole log. */
  function Replay<L>(auditing: Auditing<L>, context: Context, log: seq<Entry>): Option<Interval<L>>
    decreases |log|
  {
    if log == [] then Some(Start())
    else match Replay(auditing, context, log[..|log| - 1])
      case None => None
      case Some(s) => Enter(auditing, context, s, log[|log| - 1])
  }

  ghost predicate AcceptedLog<L(!new)>(auditing: Auditing<L>, context: Context, log: seq<Entry>) {
    Replay(auditing, context, log).Some? && Complete(context, Replay(auditing, context, log).value)
  }

  // Independent views of a log.

  /** The records of one kind, in log order. */
  function Stream(log: seq<Entry>, kind: Kind): seq<Record>
    decreases |log|
  {
    if log == [] then []
    else
      var e := log[|log| - 1];
      Stream(log[..|log| - 1], kind) + if e.Logged? && e.record.Kind() == kind then [e.record] else []
  }

  /** Intents and commands together, in log order. */
  function Motion(log: seq<Entry>): seq<Record>
    decreases |log|
  {
    if log == [] then []
    else
      var e := log[|log| - 1];
      Motion(log[..|log| - 1])
      + if e.Logged? && (e.record.LeaderIntent? || e.record.SentCommand?) then [e.record] else []
  }

  /** Follower states and readbacks together, in log order. */
  function Readings(log: seq<Entry>): seq<Record>
    decreases |log|
  {
    if log == [] then []
    else
      var e := log[|log| - 1];
      Readings(log[..|log| - 1])
      + if e.Logged? && (e.record.FollowerState? || e.record.URFeedback?) then [e.record] else []
  }

  /** A receipt that must lie inside the ownership interval: any sample's, or any color frame's. */
  predicate Observes(e: Entry, receipt: int) {
    match e
    case Logged(record, _) => !record.AuthorityEvent? && record.ReceivedNs() == receipt
    case Grouped(members) => exists i :: 0 <= i < |members| && members[i].ReceivedNs() == receipt
  }

  /** Consecutive numbers, advancing clocks and bounded gaps along one stream. */
  ghost predicate Continuous(context: Context, kind: Kind, records: seq<Record>) {
    forall i :: 0 < i < |records| ==>
      && Advances(records[i - 1].provenance, records[i].provenance)
      && (kind != AuthorityKind ==> records[i].ReceivedNs() - records[i - 1].ReceivedNs() <= context.maximumGapNs)
  }

  /** Intent, command, intent, command, ...: each command follows its intent. */
  ghost predicate Alternating(records: seq<Record>) {
    forall i :: 0 <= i < |records| ==> AlternatesAt(records, i)
  }

  predicate AlternatesAt(records: seq<Record>, i: int)
    requires 0 <= i < |records|
  {
    if i % 2 == 0 then records[i].LeaderIntent?
    else records[i].SentCommand? && Commanded(false, records[i - 1], records[i])
  }

  /** State, readback, state, readback, ...: each readback equals its state. */
  ghost predicate PairedReadings(records: seq<Record>) {
    forall i :: 0 <= i < |records| ==> PairsAt(records, i)
  }

  predicate PairsAt(records: seq<Record>, i: int)
    requires 0 <= i < |records|
  {
    if i % 2 == 0 then records[i].FollowerState?
    else records[i].URFeedback? && ReadBack(records[i - 1], records[i])
  }

  /** Acquired first, then released, nothing else. */
  ghost predicate Authorities(records: seq<Record>, boundaries: map<Action, int>) {
    && |records| <= 2
    && (forall i :: 0 <= i < |records| ==>
          records[i].AuthorityEvent? && records[i].action == if i == 0 then Acquired else Released)
    && boundaries == (if |records| == 0 then map[]
                      else if |records| == 1 then map[Acquired := records[0].ReceivedNs()]
                      else map[Acquired := records[0].ReceivedNs(), Released := records[1].ReceivedNs()])
  }

  // The state against the log.

  /** Every record of a stream names the source the snapshot declares for it. */
  ghost predicate Sourced(context: Context, kind: Kind, records: seq<Record>) {
    forall i :: 0 <= i < |records| ==> SourceOf(context, kind) == Some(records[i].provenance.sourceId)
  }

  ghost predicate StreamKept<L(!new)>(context: Context, s: Interval<L>, log: seq<Entry>, kind: Kind) {
    StreamIs(context, s, Stream(log, kind), kind)
  }

  ghost predicate StreamIs<L(!new)>(context: Context, s: Interval<L>, records: seq<Record>, kind: Kind) {
    && Continuous(context, kind, records)
    && Sourced(context, kind, records)
    && (kind in s.previous <==> records != [])
    && (kind in s.first <==> records != [])
    && (kind in s.counts <==> records != [])
    && (records != [] ==>
          && s.previous[kind] == records[|records| - 1].provenance
          && s.first[kind] == records[0].ReceivedNs()
          && s.counts[kind] == |records|)
  }

  /** An intent is pending exactly while the motion stream has an unpaired one. */
  ghost predicate MotionIs(pending: Option<Record>, motion: seq<Record>) {
    && Alternating(motion)
    && pending == (if |motion| % 2 == 0 then None else Some(motion[|motion| - 1]))
  }

  ghost predicate ReadingsAre(pending: Option<Record>, readings: seq<Record>) {
    && PairedReadings(readings)
    && pending == (if |readings| % 2 == 0 then None else Some(readings[|readings| - 1]))
  }

  ghost predicate PairsKept<L(!new)>(s: Interval<L>, log: seq<Entry>) {
    MotionIs(s.pendingIntent, Motion(log)) && ReadingsAre(s.pendingState, Readings(log))
  }

  predicate Spans(receipts: Option<(int, int)>, receipt: int) {
    receipts.Some? && receipts.value.0 <= receipt <= receipts.value.1
  }

  ghost predicate ReceiptsKept<L(!new)>(s: Interval<L>, log: seq<Entry>) {
    forall k, receipt :: 0 <= k < |log| && Observes(log[k], receipt) ==> Spans(s.receipts, receipt)
  }

  ghost predicate Kept<L(!new)>(context: Context, s: Interval<L>, log: seq<Entry>) {
    && (forall kind: Kind :: StreamKept(context, s, log, kind))
    && Authorities(Stream(log, AuthorityKind), s.boundaries)
    && PairsKept(s, log)
    && ReceiptsKept(s, log)
  }

  /** What a check leaves alone, and what it notes, whatever the record. */
  lemma CheckFrame<L(!new)>(auditing: Auditing<L>, context: Context, s: Interval<L>, record: Record, timestampNs: int)
    requires Check(auditing, context, s, record, timestampNs).Some?
    ensures var t := Check(auditing, context, s, record, timestampNs).value;
            var noted := Noted(s, record);
            && Stamped(context, s, record, timestampNs)
            && t.previous == noted.previous && t.first == noted.first && t.counts == noted.counts
            && (record.AuthorityEvent? ==> t.receipts == s.receipts)
            && (!record.AuthorityEvent? ==> t.receipts == Received(s, record.ReceivedNs()).receipts
                                            && t.boundaries == s.boundaries)
  {
    hide Stamped, Noted;
    var noted := Noted(s, record);
    assert noted.receipts == s.receipts && noted.boundaries == s.boundaries by {
      NotedFrame(s, record);
    }
    if record.AuthorityEvent? {
      AuthorityFrame(auditing, context, noted, record);
      hide Authority;
    } else {
      SampleFrame(auditing, context, noted, record);
      hide Sample;
    }
  }

  lemma NotedFrame<L(!new)>(s: Interval<L>, record: Record)
    ensures Noted(s, record).receipts == s.receipts && Noted(s, record).boundaries == s.boundaries
  {
  }

  lemma AuthorityFrame<L(!new)>(auditing: Auditing<L>, context: Context, s: Interval<L>, record: Record)
    requires record.AuthorityEvent? && Authority(auditing, context, s, record).Some?
    ensures var t := Authority(auditing, context, s, record).value;
            t.previous == s.previous && t.first == s.first && t.counts == s.counts && t.receipts == s.receipts
  {
  }

  lemma SampleFrame<L(!new)>(auditing: Auditing<L>, context: Context, s: Interval<L>, record: Record)
    requires !record.AuthorityEvent? && Sample(auditing, context, s, record).Some?
    ensures var t := Sample(auditing, context, s, record).value;
            && t.previous == s.previous && t.first == s.first && t.counts == s.counts && t.boundaries == s.boundaries
            && t.receipts == Received(s, record.ReceivedNs()).receipts
  {
    hide Commanded, ReadBack;
  }

  lemma FramesFrame<L(!new)>(s: Interval<L>, members: seq<Frame>)
    ensures Frames(s, members) == s.(receipts := Frames(s, members).receipts)
    ensures forall r :: Spans(s.receipts, r) ==> Spans(Frames(s, members).receipts, r)
    ensures forall i :: 0 <= i < |members| ==> Spans(Frames(s, members).receipts, members[i].ReceivedNs())
    decreases |members|
  {
    if members != [] {
      FramesFrame(Received(s, members[0].ReceivedNs()), members[1..]);
      assert forall i :: 1 <= i < |members| ==> members[i] == members[1..][i - 1];
    }
  }

  function Seen(e: Entry, kind: Kind): seq<Record> {
    if e.Logged? && e.record.Kind() == kind then [e.record] else []
  }

  lemma StreamAppend(log: seq<Entry>, e: Entry, kind: Kind)
    ensures Stream(log + [e], kind) == Stream(log, kind) + Seen(e, kind)
  {
    assert (log + [e])[..|log|] == log;
  }

  lemma MotionAppend(log: seq<Entry>, e: Entry)
    ensures Motion(log + [e])
            == Motion(log) + if e.Logged? && (e.record.LeaderIntent? || e.record.SentCommand?) then [e.record] else []
  {
    assert (log + [e])[..|log|] == log;
  }

  lemma ReadingsAppend(log: seq<Entry>, e: Entry)
    ensures Readings(log + [e])
            == Readings(log) + if e.Logged? && (e.record.FollowerState? || e.record.URFeedback?) then [e.record] else []
  {
    assert (log + [e])[..|log|] == log;
  }

  lemma ContinuousAppend(context: Context, kind: Kind, records: seq<Record>, r: Record)
    requires Continuous(context, kind, records)
    requires records != [] ==>
               && Advances(records[|records| - 1].provenance, r.provenance)
               && (kind != AuthorityKind ==>
                     r.ReceivedNs() - records[|records| - 1].ReceivedNs() <= context.maximumGapNs)
    ensures Continuous(context, kind, records + [r])
  {
    hide Advances;
  }

  lemma SourcedAppend(context: Context, kind: Kind, records: seq<Record>, r: Record)
    requires Sourced(context, kind, records) && SourceOf(context, kind) == Some(r.provenance.sourceId)
    ensures Sourced(context, kind, records + [r])
  {
  }

  predicate Notes<L(!new)>(s: Interval<L>, t: Interval<L>, record: Record) {
    var noted := Noted(s, record);
    t.previous == noted.previous && t.first == noted.first && t.counts == noted.counts
  }

  /** Noting a record leaves the other streams. */
  lemma NotedOther<L(!new)>(
    context: Context, s: Interval<L>, t: Interval<L>, records: seq<Record>, r: Record, kind: Kind
  )
    requires StreamIs(context, s, records, kind) && Notes(s, t, r) && r.Kind() != kind
    ensures StreamIs(context, t, records, kind)
  {
    hide Continuous, Sourced;
  }

  /** Noting a record extends its own stream. */
  lemma NotedOwn<L(!new)>(
    context: Context, s: Interval<L>, t: Interval<L>, records: seq<Record>, r: Record, timestampNs: int
  )
    requires StreamIs(context, s, records, r.Kind()) && Notes(s, t, r) && Stamped(context, s, r, timestampNs)
    ensures StreamIs(context, t, records + [r], r.Kind())
  {
    hide Advances, ClockPasses, Continuous, Sourced;
    ContinuousAppend(context, r.Kind(), records, r);
    SourcedAppend(context, r.Kind(), records, r);
    if records != [] {
      assert (records + [r])[0] == records[0];
    }
  }

  lemma StreamStep<L(!new)>(
    auditing: Auditing<L>, context: Context, s: Interval<L>, log: seq<Entry>, e: Entry, kind: Kind
  )
    requires Enter(auditing, context, s, e).Some? && StreamKept(context, s, log, kind)
    ensures StreamKept(context, Enter(auditing, context, s, e).value, log + [e], kind)
  {
    StreamAppend(log, e, kind);
    assert Stream(log, kind) + [] == Stream(log, kind);
    match e
    case Grouped(members) => FramesFrame(s, members);
    case Logged(record, timestampNs) =>
      CheckFrame(auditing, context, s, record, timestampNs);
      hide Check, Noted, Stamped, StreamIs, Stream;
      var t := Enter(auditing, context, s, e).value;
      if record.Kind() == kind {
        NotedOwn(context, s, t, Stream(log, kind), record, timestampNs);
      } else {
        NotedOther(context, s, t, Stream(log, kind), record, kind);
      }
  }

  lemma AuthorityStep<L(!new)>(auditing: Auditing<L>, context: Context, s: Interval<L>, log: seq<Entry>, e: Entry)
    requires Enter(auditing, context, s, e).Some? && Authorities(Stream(log, AuthorityKind), s.boundaries)
    ensures Authorities(Stream(log + [e], AuthorityKind), Enter(auditing, context, s, e).value.boundaries)
  {
    StreamAppend(log, e, AuthorityKind);
    hide Stream;
    match e
    case Grouped(members) => FramesFrame(s, members);
    case Logged(record, timestampNs) =>
      CheckFrame(auditing, context, s, record, timestampNs);
      if record.AuthorityEvent? {
        AuthorityBounds(auditing, context, Noted(s, record), record);
        hide Check, Authority, Stamped;
        var records := Stream(log, AuthorityKind);
        if |records| > 0 {
          assert Acquired in s.boundaries;
        }
      }
  }

  lemma AuthorityBounds<L(!new)>(auditing: Auditing<L>, context: Context, s: Interval<L>, record: Record)
    requires record.AuthorityEvent? && Authority(auditing, context, s, record).Some?
    ensures record.action == (if s.boundaries == map[] then Acquired else Released) && record.action !in s.boundaries
    ensures Authority(auditing, context, s, record).value.boundaries
        == s.boundaries[record.action := record.ReceivedNs()]
    ensures var t := Authority(auditing, context, s, record).value;
            t == s.(boundaries := t.boundaries, audit := t.audit)
  {
  }

  lemma AlternatingAppend(records: seq<Record>, r: Record)
    requires Alternating(records)
    requires if |records| % 2 == 0 then r.LeaderIntent?
             else r.SentCommand? && Commanded(false, records[|records| - 1], r)
    ensures Alternating(records + [r])
  {
    hide Commanded;
    var all := records + [r];
    forall i | 0 <= i < |all|
      ensures AlternatesAt(all, i)
    {
      if i < |records| {
        assert AlternatesAt(records, i);
      }
    }
  }

  lemma PairedAppend(records: seq<Record>, r: Record)
    requires PairedReadings(records)
    requires if |records| % 2 == 0 then r.FollowerState? else r.URFeedback? && ReadBack(records[|records| - 1], r)
    ensures PairedReadings(records + [r])
  {
    hide ReadBack;
    var all := records + [r];
    forall i | 0 <= i < |all|
      ensures PairsAt(all, i)
    {
      if i < |records| {
        assert PairsAt(records, i);
      }
    }
  }

  /** Pending intents and states change only with their own streams. */
  lemma PendingFrame<L(!new)>(auditing: Auditing<L>, context: Context, s: Interval<L>, record: Record, timestampNs: int)
    requires Check(auditing, context, s, record, timestampNs).Some?
    ensures var t := Check(auditing, context, s, record, timestampNs).value;
            && (record.LeaderIntent? ==> s.pendingIntent.None? && t.pendingIntent == Some(record))
            && (record.SentCommand? ==> s.pendingIntent.Some? && t.pendingIntent.None?
                                        && Commanded(false, s.pendingIntent.value, record))
            && (!record.LeaderIntent? && !record.SentCommand? ==> t.pendingIntent == s.pendingIntent)
            && (record.FollowerState? ==> s.pendingState.None? && t.pendingState == Some(record))
            && (record.URFeedback? ==> s.pendingState.Some? && t.pendingState.None?
                                       && ReadBack(s.pendingState.value, record))
            && (!record.FollowerState? && !record.URFeedback? ==> t.pendingState == s.pendingState)
  {
    hide Stamped, ReadBack;
    if record.AuthorityEvent? {
      AuthorityBounds(auditing, context, Noted(s, record), record);
      hide Authority;
    }
  }

  lemma MotionStep(before: Option<Record>, after: Option<Record>, motion: seq<Record>, r: Record)
    requires MotionIs(before, motion)
    requires r.LeaderIntent? ==> before.None? && after == Some(r)
    requires r.SentCommand? ==> before.Some? && after.None? && Commanded(false, before.value, r)
    requires r.LeaderIntent? || r.SentCommand?
    ensures MotionIs(after, motion + [r])
  {
    hide Alternating, Commanded;
    AlternatingAppend(motion, r);
  }

  lemma ReadingStep(before: Option<Record>, after: Option<Record>, readings: seq<Record>, r: Record)
    requires ReadingsAre(before, readings)
    requires r.FollowerState? ==> before.None? && after == Some(r)
    requires r.URFeedback? ==> before.Some? && after.None? && ReadBack(before.value, r)
    requires r.FollowerState? || r.URFeedback?
    ensures ReadingsAre(after, readings + [r])
  {
    hide PairedReadings, ReadBack;
    PairedAppend(readings, r);
  }

  lemma PairsStep<L(!new)>(auditing: Auditing<L>, context: Context, s: Interval<L>, log: seq<Entry>, e: Entry)
    requires Enter(auditing, context, s, e).Some? && PairsKept(s, log)
    ensures PairsKept(Enter(auditing, context, s, e).value, log + [e])
  {
    MotionAppend(log, e);
    ReadingsAppend(log, e);
    var motion, readings := Motion(log), Readings(log);
    assert motion + [] == motion && readings + [] == readings;
    var t := Enter(auditing, context, s, e).value;
    match e
    case Grouped(members) =>
      FramesFrame(s, members);
      hide Frames, Motion, Readings, MotionIs, ReadingsAre;
    case Logged(record, timestampNs) =>
      PendingFrame(auditing, context, s, record, timestampNs);
      hide Check, Motion, Readings, MotionIs, ReadingsAre, Commanded, ReadBack;
      if record.LeaderIntent? || record.SentCommand? {
        MotionStep(s.pendingIntent, t.pendingIntent, motion, record);
      } else if record.FollowerState? || record.URFeedback? {
        ReadingStep(s.pendingState, t.pendingState, readings, record);
      }
  }

  lemma ReceivedSpans<L(!new)>(s: Interval<L>, receipt: int)
    ensures Spans(Received(s, receipt).receipts, receipt)
    ensures forall r :: Spans(s.receipts, r) ==> Spans(Received(s, receipt).receipts, r)
  {
  }

  lemma ReceiptsStep<L(!new)>(auditing: Auditing<L>, context: Context, s: Interval<L>, log: seq<Entry>, e: Entry)
    requires Enter(auditing, context, s, e).Some? && ReceiptsKept(s, log)
    ensures ReceiptsKept(Enter(auditing, context, s, e).value, log + [e])
  {
    var t := Enter(auditing, context, s, e).value;
    match e {
      case Grouped(members) => FramesFrame(s, members);
      case Logged(record, timestampNs) =>
        CheckFrame(auditing, context, s, record, timestampNs);
        ReceivedSpans(s, record.ReceivedNs());
    }
    hide Check, Frames, Received, Spans;
    assert forall r :: Spans(s.receipts, r) ==> Spans(t.receipts, r);
    forall k, receipt | 0 <= k < |log + [e]| && Observes((log + [e])[k], receipt)
      ensures Spans(t.receipts, receipt)
    {
      if k < |log| {
        assert Observes(log[k], receipt);
      }
    }
  }

  lemma {:induction false} ReplayKeeps<L(!new)>(auditing: Auditing<L>, context: Context, log: seq<Entry>)
    requires Replay(auditing, context, log).Some?
    ensures Kept(context, Replay(auditing, context, log).value, log)
    decreases |log|
  {
    hide Enter, Continuous, Alternating, PairedReadings, StreamKept, PairsKept, MotionIs, ReceiptsKept, Authorities;
    if log == [] {
      NothingKept<L>(context);
    } else {
      var front, e := log[..|log| - 1], log[|log| - 1];
      ReplayKeeps(auditing, context, front);
      var s := Replay(auditing, context, front).value;
      assert front + [e] == log;
      forall kind: Kind {
        StreamStep(auditing, context, s, front, e, kind);
      }
      AuthorityStep(auditing, context, s, front, e);
      PairsStep(auditing, context, s, front, e);
      ReceiptsStep(auditing, context, s, front, e);
    }
  }

  lemma NothingKept<L(!new)>(context: Context)
    ensures Kept<L>(context, Start(), [])
  {
  }

  // Coverage.

  /** Some record of the stream lies in every closed window of the maximum gap inside the interval. */
  lemma {:induction false} WindowCovered(
    context: Context, kind: Kind, records: seq<Record>, from: int, until: int, t: int
  )
    requires kind != AuthorityKind && Continuous(context, kind, records) && records != []
    requires records[0].ReceivedNs() - from <= context.maximumGapNs
    requires until - records[|records| - 1].ReceivedNs() <= context.maximumGapNs
    requires from <= t && t + context.maximumGapNs <= until
    ensures exists i :: 0 <= i < |records| && t <= records[i].ReceivedNs() <= t + context.maximumGapNs
    decreases |records|
  {
    hide Advances;
    var last := records[|records| - 1];
    if last.ReceivedNs() > t + context.maximumGapNs {
      if |records| > 1 {
        var front := records[..|records| - 1];
        var bound := MinInt(until, front[|front| - 1].ReceivedNs() + context.maximumGapNs);
        assert front[|front| - 1] == records[|records| - 2];
        assert t + context.maximumGapNs <= bound;
        WindowCovered(context, kind, front, from, bound, t);
        var i :| 0 <= i < |front| && t <= front[i].ReceivedNs() <= t + context.maximumGapNs;
        assert records[i] == front[i];
      }
    }
  }

  /** Everything the archive learns from an accepted control log. */
  ghost predicate WellFormed(context: Context, log: seq<Entry>) {
    var owners := Stream(log, AuthorityKind);
    && |owners| == 2
    && owners[0].AuthorityEvent? && owners[0].action == Acquired
    && owners[1].AuthorityEvent? && owners[1].action == Released
    && Alternating(Motion(log)) && |Motion(log)| % 2 == 0
    && PairedReadings(Readings(log)) && |Readings(log)| % 2 == 0
    && Inside(log, owners[0].ReceivedNs(), owners[1].ReceivedNs())
    && forall kind: Kind :: kind != AuthorityKind && Required(context, kind) ==>
         Covered(context, Stream(log, kind), kind, owners[0].ReceivedNs(), owners[1].ReceivedNs())
  }

  /** Every observation was received in the half-open ownership interval. */
  ghost predicate Inside(log: seq<Entry>, from: int, until: int) {
    forall k, receipt :: 0 <= k < |log| && Observes(log[k], receipt) ==> from <= receipt < until
  }

  ghost predicate Covered(context: Context, records: seq<Record>, kind: Kind, from: int, until: int) {
    && Continuous(context, kind, records)
    && forall t :: from <= t && t + context.maximumGapNs <= until ==> WindowHit(context, records, t)
  }

  ghost predicate WindowHit(context: Context, records: seq<Record>, t: int) {
    exists i :: 0 <= i < |records| && t <= records[i].ReceivedNs() <= t + context.maximumGapNs
  }

  /**
   * Every log accepted through `finish` has one acquisition and one release, alternating intents and commands,
   * states each paired with an equal readback, every observation inside the ownership interval, and on each
   * required stream consecutive numbers and a record in every closed window of the maximum gap.
   */
  lemma AcceptedIsWellFormed<L(!new)>(auditing: Auditing<L>, context: Context, log: seq<Entry>)
    requires AcceptedLog(auditing, context, log)
    ensures WellFormed(context, log)
  {
    ReplayKeeps(auditing, context, log);
    var s := Replay(auditing, context, log).value;
    hide Replay, Continuous, Alternating, PairedReadings, Observes, Stream, Motion, Readings;
    var owners := Stream(log, AuthorityKind);
    assert Acquired in s.boundaries && Released in s.boundaries;
    assert |owners| == 2;
    var from, until := owners[0].ReceivedNs(), owners[1].ReceivedNs();
    assert s.boundaries[Acquired] == from && s.boundaries[Released] == until;
    forall kind: Kind | kind != AuthorityKind && Required(context, kind)
      ensures Covered(context, Stream(log, kind), kind, from, until)
    {
      assert StreamKept(context, s, log, kind) && kind in s.previous;
      var records := Stream(log, kind);
      forall t | from <= t && t + context.maximumGapNs <= until
        ensures WindowHit(context, records, t)
      {
        WindowCovered(context, kind, records, from, until, t);
      }
    }
    forall k, receipt | 0 <= k < |log| && Observes(log[k], receipt)
      ensures from <= receipt < until
    {
      assert Spans(s.receipts, receipt);
    }
  }

  /** The recorded command rate exceeds the required minimum over the ownership interval. */
  lemma AcceptedRate<L(!new)>(auditing: Auditing<L>, context: Context, log: seq<Entry>)
    requires AcceptedLog(auditing, context, log)
    ensures var owners := Stream(log, AuthorityKind);
            |owners| == 2
            && FastEnough(context, |Stream(log, CommandKind)|, owners[1].ReceivedNs() - owners[0].ReceivedNs())
  {
    ReplayKeeps(auditing, context, log);
    var s := Replay(auditing, context, log).value;
    hide Replay, Continuous, Alternating, PairedReadings, Observes, Stream, Motion, Readings, FastEnough;
    assert Acquired in s.boundaries && Released in s.boundaries;
    assert StreamKept(context, s, log, CommandKind);
  }
}

/** The control-log validator accepts exactly the logs a reader would call well formed. */
module ControlExactly {
  import opened Prelude
  import opened Model
  import opened Contracts
  import opened MatchingSteps
  import opened ControlSteps
  import opened ControlProofs

  // The declarative form of a controlled log.

  /** What each entry must satisfy by itself. */
  predicate EntryLawful(context: Context, e: Entry) {
    match e
    case Grouped(_) => true
    case Logged(record, timestampNs) =>
      && SourceOf(context, record.Kind()) == Some(record.provenance.sourceId)
      && timestampNs == record.ReceivedNs() + context.monotonicToUnixNs
      && ClockPasses(record)
      && (!record.AuthorityEvent? && !record.HandEFeedback? ==>
            record.Values().Some? && !(context.hande.Bypassed? && record.HasGripperValue()))
  }

  /** Acquired, then released, and nothing more. */
  ghost predicate Ownership(records: seq<Record>) {
    && |records| <= 2
    && forall i :: 0 <= i < |records| ==> OwnerAt(records, i)
  }

  predicate OwnerAt(records: seq<Record>, i: int)
    requires 0 <= i < |records|
  {
    records[i].AuthorityEvent? && records[i].action == if i == 0 then Acquired else Released
  }

  /** The leader audit after one more entry, from nothing but its state before: it may refuse the entry. */
  function Track<L>(auditing: Auditing<L>, context: Context, audit: Option<L>, e: Entry): Option<Option<L>> {
    match e
    case Grouped(_) => Some(audit)
    case Logged(record, _) =>
      match record
      case AuthorityEvent(_, action, carried) =>
        if action == Released then Some(audit) else Opened(auditing, context, audit, carried, record.ReceivedNs())
      case LeaderIntent(_, _, _, acquisition) =>
        if audit.Some? then Running(auditing.intent(audit.value, record))
        else if acquisition then None
        else Some(None)
      case SentCommand(_, _, _) =>
        if audit.Some? then Running(auditing.sent(audit.value, record)) else Some(None)
      case _ => Some(audit)
  }

  function Running<L>(next: Option<L>): Option<Option<L>> {
    if next.None? then None else Some(next)
  }

  /** A relative mapping, and only that, opens the audit with the acquisition. */
  function Opened<L>(
    auditing: Auditing<L>, context: Context, audit: Option<L>, carried: Option<LeaderContext>, receivedNs: int
  ): Option<Option<L>> {
    if context.mapping.Direct? then if carried.None? then Some(audit) else None
    else if carried.None? || !Calibrated(context, carried.value) then None
    else Running(auditing.start(carried.value, receivedNs))
  }

  /** The leader audit over a whole log, by itself. */
  function Tracked<L>(auditing: Auditing<L>, context: Context, log: seq<Entry>): Option<Option<L>>
    decreases |log|
  {
    if log == [] then Some(None)
    else match Tracked(auditing, context, log[..|log| - 1])
      case None => None
      case Some(audit) => Track(auditing, context, audit, log[|log| - 1])
  }

  /** While no audit runs, a command repeats the intent before it. */
  predicate EchoesIn(audit: bool, motion: seq<Record>, e: Entry) {
    e.Logged? && e.record.SentCommand? && !audit && motion != [] ==>
      motion[|motion| - 1].Values() == e.record.Values()
  }

  predicate EchoesAt<L>(auditing: Auditing<L>, context: Context, log: seq<Entry>, k: int)
    requires 0 <= k < |log|
  {
    var tracked := Tracked(auditing, context, log[..k]);
    EchoesIn(tracked.Some? && tracked.value.Some?, Motion(log[..k]), log[k])
  }

  ghost predicate Echoes<L(!new)>(auditing: Auditing<L>, context: Context, log: seq<Entry>) {
    forall k :: 0 <= k < |log| ==> EchoesAt(auditing, context, log, k)
  }

  /** What every prefix of an accepted log satisfies. */
  ghost predicate Lawful<L(!new)>(auditing: Auditing<L>, context: Context, log: seq<Entry>) {
    && (forall k :: 0 <= k < |log| ==> EntryLawful(context, log[k]))
    && (forall kind: Kind :: Continuous(context, kind, Stream(log, kind)))
    && Ownership(Stream(log, AuthorityKind))
    && Alternating(Motion(log)) && Echoes(auditing, context, log)
    && PairedReadings(Readings(log))
    && Tracked(auditing, context, log).Some?
  }

  /** What makes a lawful log complete. */
  ghost predicate Finished(context: Context, log: seq<Entry>) {
    var owners := Stream(log, AuthorityKind);
    && (forall kind: Kind :: Stream(log, kind) != [] <==> Required(context, kind))
    && |Motion(log)| % 2 == 0 && |Readings(log)| % 2 == 0
    && |owners| == 2
    && FastEnough(context, |Stream(log, CommandKind)|, owners[1].ReceivedNs() - owners[0].ReceivedNs())
    && (forall kind: Kind :: kind != AuthorityKind && Required(context, kind) ==>
          Reaches(context, Stream(log, kind), owners[0].ReceivedNs(), owners[1].ReceivedNs()))
    && Inside(log, owners[0].ReceivedNs(), owners[1].ReceivedNs())
    && HasObservation(log)
  }

  /** A stream that starts and ends within the maximum gap of an interval's ends. */
  predicate Reaches(context: Context, records: seq<Record>, from: int, until: int) {
    && records != []
    && records[0].ReceivedNs() - from <= context.maximumGapNs
    && until - records[|records| - 1].ReceivedNs() <= context.maximumGapNs
  }

  predicate Witnessed(log: seq<Entry>, receipt: int) {
    exists k :: 0 <= k < |log| && Observes(log[k], receipt)
  }

  ghost predicate HasObservation(log: seq<Entry>) {
    exists receipt :: Witnessed(log, receipt)
  }

  // The state against the log, as far as a direct mapping adds to it.

  /** The receipt extremes are receipts that were observed, and there are some as soon as one was. */
  ghost predicate Extremes<L(!new)>(s: Interval<L>, log: seq<Entry>) {
    && (s.receipts.Some? ==>
          Witnessed(log, s.receipts.value.0) && Witnessed(log, s.receipts.value.1))
    && (HasObservation(log) ==> s.receipts.Some?)
  }

  ghost predicate Plain<L(!new)>(auditing: Auditing<L>, context: Context, s: Interval<L>, log: seq<Entry>) {
    && Tracked(auditing, context, log) == Some(s.audit) && Echoes(auditing, context, log)
    && Ownership(Stream(log, AuthorityKind)) && Extremes(s, log)
  }

  lemma WitnessKept(log: seq<Entry>, e: Entry, receipt: int)
    requires Witnessed(log, receipt)
    ensures Witnessed(log + [e], receipt)
  {
    var k :| 0 <= k < |log| && Observes(log[k], receipt);
    assert (log + [e])[k] == log[k];
  }

  lemma WitnessLast(log: seq<Entry>, e: Entry, receipt: int)
    requires Observes(e, receipt)
    ensures Witnessed(log + [e], receipt)
  {
    assert (log + [e])[|log|] == e;
  }

  lemma WitnessSplit(log: seq<Entry>, e: Entry)
    requires HasObservation(log + [e])
    ensures HasObservation(log) || exists receipt :: Observes(e, receipt)
  {
    var receipt :| Witnessed(log + [e], receipt);
    var k :| 0 <= k < |log + [e]| && Observes((log + [e])[k], receipt);
    if k < |log| {
      assert Witnessed(log, receipt);
    }
  }

  /** The extremes after a group are earlier ones or receipts of its frames. */
  lemma FramesExtremes<L(!new)>(s: Interval<L>, members: seq<Frame>)
    ensures var t := Frames(s, members);
            && (s.receipts.Some? || members != [] ==> t.receipts.Some?)
            && (t.receipts.Some? ==>
                  && From(s, members, t.receipts.value.0)
                  && From(s, members, t.receipts.value.1))
    decreases |members|
  {
    if members != [] {
      var first := Received(s, members[0].ReceivedNs());
      FramesExtremes(first, members[1..]);
      var t := Frames(first, members[1..]);
      FromTail(s, members, t.receipts.value.0);
      FromTail(s, members, t.receipts.value.1);
    }
  }

  predicate From<L(!new)>(s: Interval<L>, members: seq<Frame>, receipt: int) {
    || (s.receipts.Some? && (receipt == s.receipts.value.0 || receipt == s.receipts.value.1))
    || exists i :: 0 <= i < |members| && members[i].ReceivedNs() == receipt
  }

  lemma FromTail<L(!new)>(s: Interval<L>, members: seq<Frame>, receipt: int)
    requires members != [] && From(Received(s, members[0].ReceivedNs()), members[1..], receipt)
    ensures From(s, members, receipt)
  {
    if exists i :: 0 <= i < |members[1..]| && members[1..][i].ReceivedNs() == receipt {
      var i :| 0 <= i < |members[1..]| && members[1..][i].ReceivedNs() == receipt;
      assert members[i + 1].ReceivedNs() == receipt;
    } else {
      assert members[0].ReceivedNs() == receipt || s.receipts.Some?;
    }
  }

  /** One receipt noted: the extremes are old ones or the new one. */
  lemma ReceivedExtremes<L(!new)>(s: Interval<L>, receipt: int)
    ensures var r := Received(s, receipt).receipts;
            && r.Some?
            && (r.value.0 == receipt || (s.receipts.Some? && r.value.0 == s.receipts.value.0))
            && (r.value.1 == receipt || (s.receipts.Some? && r.value.1 == s.receipts.value.1))
  {
  }

  lemma ExtremesStep<L(!new)>(auditing: Auditing<L>, context: Context, s: Interval<L>, log: seq<Entry>, e: Entry)
    requires Enter(auditing, context, s, e).Some? && Extremes(s, log)
    ensures Extremes(Enter(auditing, context, s, e).value, log + [e])
  {
    var t := Enter(auditing, context, s, e).value;
    var all := log + [e];
    match e {
      case Grouped(members) =>
        FramesFrame(s, members);
        FramesExtremes(s, members);
        forall receipt | From(s, members, receipt)
          ensures Witnessed(all, receipt)
        {
          if s.receipts.Some? && (receipt == s.receipts.value.0 || receipt == s.receipts.value.1) {
            WitnessKept(log, e, receipt);
          } else {
            WitnessLast(log, e, receipt);
          }
        }
      case Logged(record, timestampNs) =>
        CheckFrame(auditing, context, s, record, timestampNs);
        ReceivedExtremes(s, record.ReceivedNs());
        if !record.AuthorityEvent? {
          WitnessLast(log, e, record.ReceivedNs());
        }
        if s.receipts.Some? {
          WitnessKept(log, e, s.receipts.value.0);
          WitnessKept(log, e, s.receipts.value.1);
        }
    }
    if HasObservation(all) {
      WitnessSplit(log, e);
    }
  }

  lemma OwnershipAppend(records: seq<Record>, r: Record)
    requires Ownership(records) && |records| < 2 && r.AuthorityEvent?
    requires r.action == if |records| == 0 then Acquired else Released
    ensures Ownership(records + [r])
  {
    var all := records + [r];
    forall i | 0 <= i < |all|
      ensures OwnerAt(all, i)
    {
      if i < |records| {
        assert OwnerAt(records, i);
      }
    }
  }

  lemma EchoesAppend<L(!new)>(auditing: Auditing<L>, context: Context, log: seq<Entry>, e: Entry)
    ensures Echoes(auditing, context, log + [e]) <==>
              Echoes(auditing, context, log) && EchoesAt(auditing, context, log + [e], |log|)
  {
    var all := log + [e];
    hide EchoesAt;
    forall k | 0 <= k < |log|
      ensures EchoesAt(auditing, context, all, k) == EchoesAt(auditing, context, log, k)
    {
      EchoesLocal(auditing, context, log, e, k);
    }
  }

  lemma EchoesLocal<L(!new)>(auditing: Auditing<L>, context: Context, log: seq<Entry>, e: Entry, k: int)
    requires 0 <= k < |log|
    ensures EchoesAt(auditing, context, log + [e], k) == EchoesAt(auditing, context, log, k)
  {
    hide Tracked, Motion;
    assert (log + [e])[..k] == log[..k] && (log + [e])[k] == log[k];
  }

  /** The last entry echoes what the audit and the motion before it say. */
  lemma EchoesLast<L(!new)>(auditing: Auditing<L>, context: Context, log: seq<Entry>, e: Entry)
    ensures var tracked := Tracked(auditing, context, log);
            EchoesAt(auditing, context, log + [e], |log|) ==
              EchoesIn(tracked.Some? && tracked.value.Some?, Motion(log), e)
  {
    hide Tracked, Motion, EchoesIn;
    assert (log + [e])[..|log|] == log && (log + [e])[|log|] == e;
  }

  lemma TrackedAppend<L(!new)>(auditing: Auditing<L>, context: Context, log: seq<Entry>, e: Entry)
    ensures Tracked(auditing, context, log + [e]) ==
            match Tracked(auditing, context, log)
            case None => None
            case Some(audit) => Track(auditing, context, audit, e)
  {
    hide Track;
    assert (log + [e])[..|log + [e]| - 1] == log;
  }

  // Accepted logs are lawful.

  /** What a passed check says about its own record. */
  lemma CheckLawful<L(!new)>(auditing: Auditing<L>, context: Context, s: Interval<L>, record: Record, timestampNs: int)
    requires Check(auditing, context, s, record, timestampNs).Some?
    ensures EntryLawful(context, Logged(record, timestampNs))
  {
    hide ClockPasses, Advances, ReadBack, Commanded;
  }

  lemma CheckTracks<L(!new)>(auditing: Auditing<L>, context: Context, s: Interval<L>, record: Record, timestampNs: int)
    requires Check(auditing, context, s, record, timestampNs).Some?
    ensures Track(auditing, context, s.audit, Logged(record, timestampNs))
            == Some(Check(auditing, context, s, record, timestampNs).value.audit)
    ensures record.SentCommand? && s.audit.None? ==>
              s.pendingIntent.Some? && s.pendingIntent.value.Values() == record.Values()
  {
    hide Stamped, ReadBack;
  }

  lemma EntryTracks<L(!new)>(auditing: Auditing<L>, context: Context, s: Interval<L>, e: Entry)
    requires Enter(auditing, context, s, e).Some?
    ensures Track(auditing, context, s.audit, e) == Some(Enter(auditing, context, s, e).value.audit)
    ensures e.Logged? && e.record.SentCommand? && s.audit.None? ==>
              s.pendingIntent.Some? && s.pendingIntent.value.Values() == e.record.Values()
    ensures EntryLawful(context, e)
  {
    match e
    case Grouped(members) =>
      FramesFrame(s, members);
    case Logged(record, timestampNs) =>
      CheckTracks(auditing, context, s, record, timestampNs);
      CheckLawful(auditing, context, s, record, timestampNs);
      hide Check, Track, EntryLawful;
  }

  /** A command that answers a pending intent without an audit echoes it. */
  lemma PendingEchoed<L(!new)>(s: Interval<L>, log: seq<Entry>, e: Entry)
    requires MotionIs(s.pendingIntent, Motion(log))
    requires e.Logged? && e.record.SentCommand? && s.audit.None? ==>
               s.pendingIntent.Some? && s.pendingIntent.value.Values() == e.record.Values()
    ensures EchoesIn(s.audit.Some?, Motion(log), e)
  {
    hide Motion, Alternating;
  }

  lemma PlainStep<L(!new)>(auditing: Auditing<L>, context: Context, s: Interval<L>, log: seq<Entry>, e: Entry)
    requires Enter(auditing, context, s, e).Some?
    requires Plain(auditing, context, s, log) && PairsKept(s, log)
    requires Authorities(Stream(log, AuthorityKind), s.boundaries)
    ensures Plain(auditing, context, Enter(auditing, context, s, e).value, log + [e]) && EntryLawful(context, e)
  {
    hide *;
    PlainParts(auditing, context, s, log);
    PairsParts(s, log);
    ExtremesStep(auditing, context, s, log, e);
    EntryTracks(auditing, context, s, e);
    TrackedAppend(auditing, context, log, e);
    PendingEchoed(s, log, e);
    EchoesLast(auditing, context, log, e);
    EchoesAppend(auditing, context, log, e);
    OwnershipStep(auditing, context, s, log, e);
    PlainFrom(auditing, context, Enter(auditing, context, s, e).value, log + [e]);
  }

  lemma OwnershipStep<L(!new)>(auditing: Auditing<L>, context: Context, s: Interval<L>, log: seq<Entry>, e: Entry)
    requires Enter(auditing, context, s, e).Some? && Ownership(Stream(log, AuthorityKind))
    requires Authorities(Stream(log, AuthorityKind), s.boundaries)
    ensures Ownership(Stream(log + [e], AuthorityKind))
  {
    StreamAppend(log, e, AuthorityKind);
    AuthorityStep(auditing, context, s, log, e);
    hide Enter, Stream, Ownership;
    var owners := Stream(log, AuthorityKind);
    assert owners + [] == owners;
    if e.Logged? && e.record.AuthorityEvent? {
      var all := owners + [e.record];
      assert all[|owners|] == e.record;
      OwnershipAppend(owners, e.record);
    }
  }

  lemma PlainParts<L(!new)>(auditing: Auditing<L>, context: Context, s: Interval<L>, log: seq<Entry>)
    requires Plain(auditing, context, s, log)
    ensures Tracked(auditing, context, log) == Some(s.audit) && Echoes(auditing, context, log)
    ensures Ownership(Stream(log, AuthorityKind)) && Extremes(s, log)
  {
    hide Tracked, Echoes, Ownership, Stream, Extremes;
  }

  lemma PlainFrom<L(!new)>(auditing: Auditing<L>, context: Context, s: Interval<L>, log: seq<Entry>)
    requires Tracked(auditing, context, log) == Some(s.audit) && Echoes(auditing, context, log)
    requires Ownership(Stream(log, AuthorityKind)) && Extremes(s, log)
    ensures Plain(auditing, context, s, log)
  {
    hide Tracked, Echoes, Ownership, Stream, Extremes;
  }

  lemma PairsParts<L(!new)>(s: Interval<L>, log: seq<Entry>)
    requires PairsKept(s, log)
    ensures MotionIs(s.pendingIntent, Motion(log)) && ReadingsAre(s.pendingState, Readings(log))
  {
    hide MotionIs, ReadingsAre, Motion, Readings;
  }

  lemma {:induction false} AcceptedPlain<L(!new)>(auditing: Auditing<L>, context: Context, log: seq<Entry>)
    requires Replay(auditing, context, log).Some?
    ensures Plain(auditing, context, Replay(auditing, context, log).value, log)
    ensures forall k :: 0 <= k < |log| ==> EntryLawful(context, log[k])
    decreases |log|
  {
    hide Enter, EntryLawful, Plain, Kept;
    if log == [] {
      NothingPlain(auditing, context);
    } else {
      var front, e := log[..|log| - 1], log[|log| - 1];
      AcceptedPlain(auditing, context, front);
      ReplayKeeps(auditing, context, front);
      var s := Replay(auditing, context, front).value;
      KeptParts(context, s, front);
      PlainStep(auditing, context, s, front, e);
      assert front + [e] == log;
      forall k | 0 <= k < |log|
        ensures EntryLawful(context, log[k])
      {
        if k < |front| {
          assert log[k] == front[k];
        }
      }
    }
  }

  lemma KeptParts<L(!new)>(context: Context, s: Interval<L>, log: seq<Entry>)
    requires Kept(context, s, log)
    ensures PairsKept(s, log) && Authorities(Stream(log, AuthorityKind), s.boundaries)
    ensures forall kind: Kind :: StreamKept(context, s, log, kind)
    ensures ReceiptsKept(s, log)
  {
    hide PairsKept, StreamKept, ReceiptsKept, Authorities, Stream;
  }

  lemma NothingPlain<L(!new)>(auditing: Auditing<L>, context: Context)
    ensures Plain(auditing, context, Start(), [])
  {
  }

  // Lawful logs are accepted.

  /** A record that lawfully extends the log passes the check in the state of the log. */
  lemma LawfulPasses<L(!new)>(
    auditing: Auditing<L>, context: Context, s: Interval<L>, log: seq<Entry>, record: Record, timestampNs: int
  )
    requires EntryLawful(context, Logged(record, timestampNs))
    requires Track(auditing, context, s.audit, Logged(record, timestampNs)).Some?
    requires EchoesIn(s.audit.Some?, Motion(log), Logged(record, timestampNs))
    requires StreamKept(context, s, log, record.Kind()) && PairsKept(s, log)
    requires Authorities(Stream(log, AuthorityKind), s.boundaries)
    requires Continuous(context, record.Kind(), Stream(log, record.Kind()) + [record])
    requires record.AuthorityEvent? ==> Ownership(Stream(log, AuthorityKind) + [record])
    requires record.LeaderIntent? || record.SentCommand? ==> Alternating(Motion(log) + [record])
    requires record.FollowerState? || record.URFeedback? ==> PairedReadings(Readings(log) + [record])
    ensures Check(auditing, context, s, record, timestampNs).Some?
  {
    LawfulStamp(context, s, log, record, timestampNs);
    hide Stamped, Continuous, Stream;
    if record.AuthorityEvent? {
      OwnerPasses(auditing, context, Noted(s, record), Stream(log, AuthorityKind), record, timestampNs);
    } else if record.LeaderIntent? || record.SentCommand? {
      MotionPasses(s.pendingIntent, s.audit.None?, Motion(log), record, timestampNs);
      hide Motion, Readings, MotionIs, ReadingsAre, Commanded;
    } else if record.FollowerState? || record.URFeedback? {
      ReadingPasses(s.pendingState, Readings(log), record);
      hide Motion, Readings, MotionIs, ReadingsAre;
    }
  }

  lemma LawfulStamp<L(!new)>(
    context: Context, s: Interval<L>, log: seq<Entry>, record: Record, timestampNs: int
  )
    requires EntryLawful(context, Logged(record, timestampNs)) && StreamKept(context, s, log, record.Kind())
    requires Continuous(context, record.Kind(), Stream(log, record.Kind()) + [record])
    ensures Stamped(context, s, record, timestampNs)
  {
    hide ClockPasses, Advances, Stream, Sourced;
    var records := Stream(log, record.Kind());
    if records != [] {
      var all := records + [record];
      assert all[|records| - 1] == records[|records| - 1] && all[|records|] == record;
    }
  }

  lemma OwnerPasses<L(!new)>(
    auditing: Auditing<L>, context: Context, s: Interval<L>, owners: seq<Record>, record: Record, timestampNs: int
  )
    requires record.AuthorityEvent? && Track(auditing, context, s.audit, Logged(record, timestampNs)).Some?
    requires Authorities(owners, s.boundaries) && Ownership(owners + [record])
    ensures Authority(auditing, context, s, record).Some?
  {
    var all := owners + [record];
    assert OwnerAt(all, |owners|) && all[|owners|] == record;
    if |owners| == 1 {
      assert Acquired in s.boundaries;
    }
  }

  lemma MotionPasses(
    pending: Option<Record>, direct: bool, motion: seq<Record>, record: Record, timestampNs: int
  )
    requires MotionIs(pending, motion) && Alternating(motion + [record])
    requires EchoesIn(!direct, motion, Logged(record, timestampNs))
    ensures record.LeaderIntent? ==> pending.None?
    ensures record.SentCommand? ==> pending.Some? && Commanded(direct, pending.value, record)
  {
    var all := motion + [record];
    var n := |motion|;
    assert AlternatesAt(all, n) && all[n] == record;
    if n % 2 == 1 {
      assert all[n - 1] == motion[n - 1];
    }
  }

  lemma ReadingPasses(pending: Option<Record>, readings: seq<Record>, record: Record)
    requires ReadingsAre(pending, readings) && PairedReadings(readings + [record])
    ensures record.FollowerState? ==> pending.None?
    ensures record.URFeedback? ==> pending.Some? && ReadBack(pending.value, record)
  {
    var all := readings + [record];
    var n := |readings|;
    assert PairsAt(all, n) && all[n] == record;
    if n % 2 == 1 {
      assert all[n - 1] == readings[n - 1];
    }
  }

  /** Dropping the last entry keeps a log lawful. */
  lemma LawfulPrefix<L(!new)>(auditing: Auditing<L>, context: Context, log: seq<Entry>, e: Entry)
    requires Lawful(auditing, context, log + [e])
    ensures Lawful(auditing, context, log)
  {
    var all := log + [e];
    TrackedAppend(auditing, context, log, e);
    EchoesAppend(auditing, context, log, e);
    hide Tracked, Track, Echoes;
    forall k | 0 <= k < |log|
      ensures EntryLawful(context, log[k])
    {
      assert all[k] == log[k];
    }
    forall kind: Kind
      ensures Continuous(context, kind, Stream(log, kind))
    {
      StreamAppend(log, e, kind);
      ContinuousPrefix(context, kind, Stream(log, kind), Seen(e, kind));
    }
    StreamAppend(log, e, AuthorityKind);
    MotionAppend(log, e);
    ReadingsAppend(log, e);
    hide EntryLawful, Continuous, Stream, Motion, Readings;
    OwnershipPrefix(Stream(log, AuthorityKind), Seen(e, AuthorityKind));
    MotionPrefix(Motion(log), Motion(all));
    ReadingsPrefix(Readings(log), Readings(all));
  }

  lemma ContinuousPrefix(context: Context, kind: Kind, a: seq<Record>, b: seq<Record>)
    requires Continuous(context, kind, a + b)
    ensures Continuous(context, kind, a)
  {
    hide Advances;
    var all := a + b;
    forall i | 0 < i < |a|
      ensures Advances(a[i - 1].provenance, a[i].provenance)
      ensures kind != AuthorityKind ==> a[i].ReceivedNs() - a[i - 1].ReceivedNs() <= context.maximumGapNs
    {
      assert all[i - 1] == a[i - 1] && all[i] == a[i];
    }
  }

  lemma OwnershipPrefix(a: seq<Record>, b: seq<Record>)
    requires Ownership(a + b)
    ensures Ownership(a)
  {
    forall i | 0 <= i < |a|
      ensures OwnerAt(a, i)
    {
      assert OwnerAt(a + b, i);
    }
  }

  lemma MotionPrefix(a: seq<Record>, all: seq<Record>)
    requires a <= all && Alternating(all)
    ensures Alternating(a)
  {
    forall i | 0 <= i < |a|
      ensures AlternatesAt(a, i)
    {
      assert AlternatesAt(all, i);
    }
  }

  lemma ReadingsPrefix(a: seq<Record>, all: seq<Record>)
    requires a <= all && PairedReadings(all)
    ensures PairedReadings(a)
  {
    forall i | 0 <= i < |a|
      ensures PairsAt(a, i)
    {
      assert PairsAt(all, i);
    }
  }

  lemma LawfulEnters<L(!new)>(auditing: Auditing<L>, context: Context, log: seq<Entry>, e: Entry)
    requires Lawful(auditing, context, log + [e]) && Replay(auditing, context, log).Some?
    ensures Enter(auditing, context, Replay(auditing, context, log).value, e).Some?
  {
    var s := Replay(auditing, context, log).value;
    ReplayKeeps(auditing, context, log);
    AcceptedPlain(auditing, context, log);
    KeptParts(context, s, log);
    match e
    case Grouped(_) =>
    case Logged(record, timestampNs) =>
      StreamAppend(log, e, record.Kind());
      StreamAppend(log, e, AuthorityKind);
      MotionAppend(log, e);
      ReadingsAppend(log, e);
      PlainParts(auditing, context, s, log);
      LawfulLast(auditing, context, log, e);
      hide Check, Kept, Replay, StreamKept, PairsKept, ReceiptsKept, Stream, Motion, Readings, Continuous, EntryLawful,
           Extremes, Authorities, Alternating, Echoes, PairedReadings, Ownership, Tracked, Track, EchoesIn, Plain,
           Lawful;
      LawfulPasses(auditing, context, s, log, record, timestampNs);
  }

  /** What lawfulness says about the last entry. */
  lemma LawfulLast<L(!new)>(auditing: Auditing<L>, context: Context, log: seq<Entry>, e: Entry)
    requires Lawful(auditing, context, log + [e]) && Tracked(auditing, context, log).Some?
    ensures EntryLawful(context, e)
    ensures var audit := Tracked(auditing, context, log).value;
            && Track(auditing, context, audit, e).Some?
            && EchoesIn(audit.Some?, Motion(log), e)
    ensures forall kind: Kind :: Continuous(context, kind, Stream(log + [e], kind))
    ensures Ownership(Stream(log + [e], AuthorityKind)) && Alternating(Motion(log + [e]))
    ensures PairedReadings(Readings(log + [e]))
  {
    TrackedAppend(auditing, context, log, e);
    EchoesAppend(auditing, context, log, e);
    EchoesLast(auditing, context, log, e);
    hide EntryLawful, Continuous, Stream, Motion, Readings, Ownership, Alternating, PairedReadings, Tracked, Track,
         Echoes, EchoesAt, EchoesIn;
    assert (log + [e])[|log|] == e;
  }

  lemma {:induction false} LawfulReplays<L(!new)>(auditing: Auditing<L>, context: Context, log: seq<Entry>)
    requires Lawful(auditing, context, log)
    ensures Replay(auditing, context, log).Some?
    decreases |log|
  {
    hide Enter, Lawful;
    if log != [] {
      var front, e := log[..|log| - 1], log[|log| - 1];
      assert front + [e] == log;
      LawfulPrefix(auditing, context, front, e);
      LawfulReplays(auditing, context, front);
      LawfulEnters(auditing, context, front, e);
    }
  }

  // Completion.

  ghost predicate FactsOfStreams<L(!new)>(s: Interval<L>, log: seq<Entry>) {
    forall kind: Kind ::
      && (kind in s.previous <==> Stream(log, kind) != [])
      && (kind in s.first <==> Stream(log, kind) != [])
      && (kind in s.counts <==> Stream(log, kind) != [])
      && (Stream(log, kind) != [] ==>
            && s.previous[kind].time.receivedNs == Stream(log, kind)[|Stream(log, kind)| - 1].ReceivedNs()
            && s.first[kind] == Stream(log, kind)[0].ReceivedNs()
            && s.counts[kind] == |Stream(log, kind)|)
  }

  /** The maps of the state, read off the streams. */
  lemma StreamFacts<L(!new)>(context: Context, s: Interval<L>, log: seq<Entry>)
    requires forall kind: Kind :: StreamKept(context, s, log, kind)
    ensures FactsOfStreams(s, log)
  {
    hide Stream, Continuous, Sourced;
    forall kind: Kind
      ensures kind in s.previous <==> Stream(log, kind) != []
      ensures kind in s.first <==> Stream(log, kind) != []
      ensures kind in s.counts <==> Stream(log, kind) != []
      ensures Stream(log, kind) != [] ==>
                && s.previous[kind].time.receivedNs == Stream(log, kind)[|Stream(log, kind)| - 1].ReceivedNs()
                && s.first[kind] == Stream(log, kind)[0].ReceivedNs()
                && s.counts[kind] == |Stream(log, kind)|
    {
      assert StreamKept(context, s, log, kind);
    }
  }

  /** The boundaries of the state, read off the authority records; and pending records are odd ones out. */
  lemma OwnerFacts<L(!new)>(s: Interval<L>, log: seq<Entry>)
    requires PairsKept(s, log) && Authorities(Stream(log, AuthorityKind), s.boundaries)
    ensures var owners := Stream(log, AuthorityKind);
            && (|owners| == 2 <==> Acquired in s.boundaries && Released in s.boundaries)
            && (|owners| == 2 ==>
                  && s.boundaries[Acquired] == owners[0].ReceivedNs()
                  && s.boundaries[Released] == owners[1].ReceivedNs())
    ensures s.pendingIntent.None? <==> |Motion(log)| % 2 == 0
    ensures s.pendingState.None? <==> |Readings(log)| % 2 == 0
  {
    hide Stream, Motion, Readings, Alternating, PairedReadings;
  }

  /** The state's completion check is the log's completeness. */
  lemma CompleteIsFinished<L(!new)>(context: Context, s: Interval<L>, log: seq<Entry>)
    requires Kept(context, s, log) && Extremes(s, log)
    ensures Complete(context, s) <==> Finished(context, log)
  {
    hide *;
    KeptParts(context, s, log);
    StreamFacts(context, s, log);
    OwnerFacts(s, log);
    var owners := Stream(log, AuthorityKind);
    if |owners| == 2 {
      InsideIsSpan(s, log, owners[0].ReceivedNs(), owners[1].ReceivedNs());
      CompleteWithBoth(context, s, log);
    } else {
      NotComplete(context, s);
      NotFinished(context, log);
    }
  }

  lemma NotComplete<L(!new)>(context: Context, s: Interval<L>)
    requires !(Acquired in s.boundaries && Released in s.boundaries)
    ensures !Complete(context, s)
  {
    hide Required, FastEnough;
  }

  lemma NotFinished(context: Context, log: seq<Entry>)
    requires |Stream(log, AuthorityKind)| != 2
    ensures !Finished(context, log)
  {
    hide Required, FastEnough, Stream, Motion, Readings, Inside, HasObservation;
  }

  /** With both boundaries known, the two completeness conditions agree clause by clause. */
  lemma CompleteWithBoth<L(!new)>(context: Context, s: Interval<L>, log: seq<Entry>)
    requires FactsOfStreams(s, log)
    requires var owners := Stream(log, AuthorityKind);
             && |owners| == 2 && Acquired in s.boundaries && Released in s.boundaries
             && s.boundaries[Acquired] == owners[0].ReceivedNs() && s.boundaries[Released] == owners[1].ReceivedNs()
             && ((s.receipts.Some?
                  && owners[0].ReceivedNs() <= s.receipts.value.0 <= s.receipts.value.1 < owners[1].ReceivedNs())
                 <==> HasObservation(log) && Inside(log, owners[0].ReceivedNs(), owners[1].ReceivedNs()))
    requires s.pendingIntent.None? <==> |Motion(log)| % 2 == 0
    requires s.pendingState.None? <==> |Readings(log)| % 2 == 0
    ensures Complete(context, s) <==> Finished(context, log)
  {
    hide Stream, Motion, Readings, FastEnough, Inside, HasObservation;
    assert Required(context, CommandKind);
  }

  lemma InsideIsSpan<L(!new)>(s: Interval<L>, log: seq<Entry>, from: int, until: int)
    requires ReceiptsKept(s, log) && Extremes(s, log)
    ensures (s.receipts.Some? && from <= s.receipts.value.0 <= s.receipts.value.1 < until)
       <==> (HasObservation(log) && Inside(log, from, until))
  {
    hide Observes;
    if s.receipts.Some? {
      var low, high := s.receipts.value.0, s.receipts.value.1;
      assert HasObservation(log);
      var k :| 0 <= k < |log| && Observes(log[k], low);
      var i :| 0 <= i < |log| && Observes(log[i], high);
      assert Spans(s.receipts, low) && low <= high;
      if from <= low && high < until {
        forall j, receipt | 0 <= j < |log| && Observes(log[j], receipt)
          ensures from <= receipt < until
        {
          assert Spans(s.receipts, receipt);
        }
      }
    }
  }

  /**
   * Acceptance through `finish` is exactly a property of the log read as streams: lawful entries, continuous streams,
   * one acquisition and one release, commands after their intents and equal to them unless a leader audit runs, equal
   * readbacks, full coverage, the minimum rate, every observation inside the ownership interval, and a leader audit
   * that, run over the log by itself, refuses nothing.
   */
  lemma AcceptedExactly<L(!new)>(auditing: Auditing<L>, context: Context, log: seq<Entry>)
    ensures AcceptedLog(auditing, context, log) <==> Lawful(auditing, context, log) && Finished(context, log)
  {
    hide Complete, Finished, Kept, Plain, Lawful, EntryLawful, Extremes;
    if Lawful(auditing, context, log) {
      LawfulReplays(auditing, context, log);
    }
    if Replay(auditing, context, log).Some? {
      var s := Replay(auditing, context, log).value;
      ReplayKeeps(auditing, context, log);
      AcceptedPlain(auditing, context, log);
      PlainParts(auditing, context, s, log);
      CompleteIsFinished(context, s, log);
      KeptLawful(auditing, context, s, log);
    }
  }

  lemma KeptLawful<L(!new)>(auditing: Auditing<L>, context: Context, s: Interval<L>, log: seq<Entry>)
    requires Kept(context, s, log) && Plain(auditing, context, s, log)
    requires forall k :: 0 <= k < |log| ==> EntryLawful(context, log[k])
    ensures Lawful(auditing, context, log)
  {
    KeptParts(context, s, log);
    PlainParts(auditing, context, s, log);
    hide Kept, Plain, EntryLawful, Continuous, Alternating, Echoes, PairedReadings, Ownership, Stream, Motion, Readings,
         Extremes, Tracked;
    forall kind: Kind
      ensures Continuous(context, kind, Stream(log, kind))
    {
      assert StreamKept(context, s, log, kind);
    }
  }

  /** Without a relative mapping no audit ever runs, so every command repeats its intent. */
  lemma {:induction false} DirectNeverTracks<L(!new)>(auditing: Auditing<L>, context: Context, log: seq<Entry>)
    requires context.mapping.Direct?
    ensures Tracked(auditing, context, log).Some? ==> Tracked(auditing, context, log).value.None?
    decreases |log|
  {
    if log != [] {
      DirectNeverTracks(auditing, context, log[..|log| - 1]);
    }
  }

  // With or without a control snapshot.

  function EnterAny<L>(auditing: Auditing<L>, control: Option<Context>, s: Interval<L>, e: Entry): Option<Interval<L>> {
    match e
    case Logged(record, timestampNs) => CheckAny(auditing, control, s, record, timestampNs)
    case Grouped(members) => Some(FramesAny(control, s, members))
  }

  function ReplayAny<L>(auditing: Auditing<L>, control: Option<Context>, log: seq<Entry>): Option<Interval<L>>
    decreases |log|
  {
    if log == [] then Some(Start())
    else match ReplayAny(auditing, control, log[..|log| - 1])
      case None => None
      case Some(s) => EnterAny(auditing, control, s, log[|log| - 1])
  }

  lemma {:induction false} ControlledReplay<L(!new)>(auditing: Auditing<L>, context: Context, log: seq<Entry>)
    ensures ReplayAny(auditing, Some(context), log) == Replay(auditing, context, log)
    decreases |log|
  {
    hide Check;
    if log != [] {
      ControlledReplay(auditing, context, log[..|log| - 1]);
    }
  }

  predicate IsAuthority(e: Entry) {
    e.Logged? && e.record.AuthorityEvent?
  }

  lemma {:induction false} UncontrolledReplay<L(!new)>(auditing: Auditing<L>, log: seq<Entry>)
    ensures ReplayAny(auditing, None, log)
            == if exists k :: 0 <= k < |log| && IsAuthority(log[k]) then None else Some(Start())
    decreases |log|
  {
    if log != [] {
      var front := log[..|log| - 1];
      UncontrolledReplay(auditing, front);
      assert forall k :: 0 <= k < |front| ==> front[k] == log[k];
      assert IsAuthority(log[|log| - 1]) || EnterAny(auditing, None, Start(), log[|log| - 1]) == Some(Start<L>());
    }
  }

  /**
   * Acceptance by any archive: with a control snapshot exactly the lawful and complete logs, without one exactly the
   * logs that claim no authority.
   */
  lemma AnyAcceptedExactly<L(!new)>(auditing: Auditing<L>, control: Option<Context>, log: seq<Entry>)
    ensures var replayed := ReplayAny(auditing, control, log);
            (replayed.Some? && CompleteAny(control, replayed.value)) <==>
              match control
              case None => forall k :: 0 <= k < |log| ==> !IsAuthority(log[k])
              case Some(context) => Lawful(auditing, context, log) && Finished(context, log)
  {
    hide Lawful, Finished, Complete, IsAuthority;
    match control
    case None => UncontrolledReplay(auditing, log);
    case Some(context) =>
      ControlledReplay(auditing, context, log);
      AcceptedExactly(auditing, context, log);
  }
}

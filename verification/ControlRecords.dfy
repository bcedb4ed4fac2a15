/** The control-log validator of control_records.py as transitions on values. */
module ControlSteps {
  import opened Prelude
  import opened Model
  import opened Contracts
  import opened MatchingSteps

  datatype Kind = AuthorityKind | IntentKind | CommandKind | StateKind | ReadbackKind | GripperKind

  datatype Action = Acquired | Released

  /** What an acquisition carries for the leader audit; the precision settings are compared as canonical text. */
  datatype LeaderContext = LeaderContext(precision: Option<string>, gripper: bool)

  /** The typed records of a controlled episode; joint values are absent where the type admits it. */
  datatype Record =
    | AuthorityEvent(provenance: Provenance, action: Action, context: Option<LeaderContext>)
    | LeaderIntent(provenance: Provenance, q: Option<Joints>, gripper: Option<int>, acquisition: bool)
    | SentCommand(provenance: Provenance, goal: Joints, gripper: Option<int>)
    | FollowerState(provenance: Provenance, measured: Option<Joints>, position: Option<int>)
    | URFeedback(provenance: Provenance, readback: Joints)
    | HandEFeedback(provenance: Provenance)
  {
    function Kind(): Kind {
      match this
      case AuthorityEvent(_, _, _) => AuthorityKind
      case LeaderIntent(_, _, _, _) => IntentKind
      case SentCommand(_, _, _) => CommandKind
      case FollowerState(_, _, _) => StateKind
      case URFeedback(_, _) => ReadbackKind
      case HandEFeedback(_) => GripperKind
    }

    function ReceivedNs(): int {
      provenance.time.receivedNs
    }

    /** The joint values of an arm record. */
    function Values(): Option<Joints> {
      match this
      case LeaderIntent(_, q, _, _) => q
      case SentCommand(_, goal, _) => Some(goal)
      case FollowerState(_, measured, _) => measured
      case URFeedback(_, readback) => Some(readback)
      case _ => None
    }

    predicate HasGripperValue() {
      match this
      case LeaderIntent(_, _, gripper, _) => gripper.Some?
      case SentCommand(_, _, gripper) => gripper.Some?
      case FollowerState(_, _, position) => position.Some?
      case _ => false
    }
  }

  datatype Gripper = Urcap | Bypassed

  datatype Mapping = Direct | EpisodeRelative | HeightRelative

  /** The control section of a snapshot. */
  datatype Context = Context(
    leaderId: string,
    commandId: string,
    armId: string,
    ownerId: string,
    handeId: string,
    hande: Gripper,
    mapping: Mapping,
    precision: Option<string>,
    monotonicToUnixNs: int,
    maximumGapNs: int,
    minimumCommandHz: real
  )

  /** The leader audit of a relative episode, which may refuse any step. */
  datatype Auditing<!L> = Auditing(
    start: (LeaderContext, int) -> Option<L>,
    intent: (L, Record) -> Option<L>,
    sent: (L, Record) -> Option<L>
  )

  datatype Interval<L> = Interval(
    previous: map<Kind, Provenance>,
    counts: map<Kind, int>,
    first: map<Kind, int>,
    boundaries: map<Action, int>,
    receipts: Option<(int, int)>,
    pendingIntent: Option<Record>,
    pendingState: Option<Record>,
    audit: Option<L>
  )

  function Start<L>(): Interval<L> {
    Interval(map[], map[], map[], map[], None, None, None, None)
  }

  function SourceOf(context: Context, kind: Kind): Option<string> {
    match kind
    case AuthorityKind => Some(context.ownerId)
    case IntentKind => Some(context.leaderId)
    case CommandKind => Some(context.commandId)
    case StateKind => Some(context.armId)
    case ReadbackKind => Some(context.armId)
    case GripperKind => if context.hande.Urcap? then Some(context.handeId) else None
  }

  function ClockOf(kind: Kind): string {
    match kind
    case StateKind => "ur_controller_uptime"
    case ReadbackKind => "ur_controller_uptime"
    case GripperKind => "unavailable"
    case _ => "host_monotonic"
  }

  predicate ClockPasses(record: Record) {
    var time := record.provenance.time;
    var clock := ClockOf(record.Kind());
    && time.sourceClock == clock
    && (time.sourceNs.None? <==> clock == "unavailable")
    && (clock == "host_monotonic" ==> time.sourceNs == Some(time.receivedNs))
  }

  /** The next provenance of a stream: consecutive number, later receipt, later source time when there is one. */
  predicate Advances(previous: Provenance, p: Provenance) {
    && p.sequence == previous.sequence + 1
    && p.time.receivedNs > previous.time.receivedNs
    && (p.time.sourceNs.Some? && previous.time.sourceNs.Some? ==> p.time.sourceNs.value > previous.time.sourceNs.value)
  }

  predicate Stamped(context: Context, s: Interval, record: Record, timestampNs: int) {
    var kind, p := record.Kind(), record.provenance;
    && SourceOf(context, kind) == Some(p.sourceId)
    && timestampNs == p.time.receivedNs + context.monotonicToUnixNs
    && ClockPasses(record)
    && (kind in s.previous ==>
          && Advances(s.previous[kind], p)
          && (kind != AuthorityKind ==> p.time.receivedNs - s.previous[kind].time.receivedNs <= context.maximumGapNs))
  }

  function Noted<L>(s: Interval<L>, record: Record): Interval<L> {
    var kind, p := record.Kind(), record.provenance;
    s.(first := if kind in s.first then s.first else s.first[kind := p.time.receivedNs],
       previous := s.previous[kind := p],
       counts := s.counts[kind := (if kind in s.counts then s.counts[kind] else 0) + 1])
  }

  function Received<L>(s: Interval<L>, receipt: int): Interval<L> {
    s.(receipts := Some(match s.receipts
                        case None => (receipt, receipt)
                        case Some(r) => (MinInt(r.0, receipt), MaxInt(r.1, receipt))))
  }

  /** A relative mapping is declared, has the settings the snapshot names, and a gripper baseline where there is one. */
  predicate Calibrated(context: Context, c: LeaderContext) {
    && !context.mapping.Direct?
    && (c.precision.Some? <==> context.mapping.HeightRelative?)
    && (context.mapping.HeightRelative? ==> context.precision == c.precision)
    && (context.hande.Urcap? ==> c.gripper)
  }

  /** Ownership is acquired once, then released once; a relative mapping starts its audit with its baseline. */
  function Authority<L>(auditing: Auditing<L>, context: Context, s: Interval<L>, record: Record): Option<Interval<L>>
    requires record.AuthorityEvent?
  {
    var expected := if s.boundaries == map[] then Acquired else Released;
    if record.action != expected || record.action in s.boundaries then None
    else
      var bounded := s.(boundaries := s.boundaries[record.action := record.ReceivedNs()]);
      if record.action == Released then Some(bounded)
      else match record.context
        case None => if context.mapping.Direct? then Some(bounded) else None
        case Some(c) =>
          if !Calibrated(context, c) then None
          else match auditing.start(c, record.ReceivedNs())
            case None => None
            case Some(audit) => Some(bounded.(audit := Some(audit)))
  }

  function Sample<L>(auditing: Auditing<L>, context: Context, s: Interval<L>, record: Record): Option<Interval<L>>
    requires !record.AuthorityEvent?
  {
    if record.HandEFeedback? then Some(Received(s, record.ReceivedNs()))
    else if (context.hande.Bypassed? && record.HasGripperValue()) || record.Values().None? then None
    else Paired(auditing, Received(s, record.ReceivedNs()), record)
  }

  /** Intent before command, state before readback; each pair agrees. */
  function Paired<L>(auditing: Auditing<L>, s: Interval<L>, record: Record): Option<Interval<L>>
    requires record.Values().Some?
  {
    match record
    case LeaderIntent(_, _, _, acquisition) =>
      if s.pendingIntent.Some? then None
      else if s.audit.None? then
        if acquisition then None else Some(s.(pendingIntent := Some(record)))
      else
        var next := auditing.intent(s.audit.value, record);
        if next.None? then None else Some(s.(audit := next, pendingIntent := Some(record)))
    case SentCommand(_, _, _) =>
      if s.pendingIntent.None? || !Commanded(s.audit.None?, s.pendingIntent.value, record) then None
      else if s.audit.None? then Some(s.(pendingIntent := None))
      else
        var next := auditing.sent(s.audit.value, record);
        if next.None? then None else Some(s.(audit := next, pendingIntent := None))
    case FollowerState(_, _, _) =>
      if s.pendingState.Some? then None else Some(s.(pendingState := Some(record)))
    case URFeedback(_, _) =>
      if s.pendingState.None? || !ReadBack(s.pendingState.value, record) then None else Some(s.(pendingState := None))
  }

  /** A command follows its intent, and equals it when nothing is conditioned in between. */
  predicate Commanded(direct: bool, intent: Record, sent: Record) {
    && (direct ==> intent.Values() == sent.Values())
    && intent.ReceivedNs() <= sent.ReceivedNs()
  }

  predicate ReadBack(state: Record, readback: Record) {
    state.provenance == readback.provenance && state.Values() == readback.Values()
  }

  function Check<L>(auditing: Auditing<L>, context: Context, s: Interval<L>, record: Record, timestampNs: int)
    : Option<Interval<L>>
  {
    if !Stamped(context, s, record, timestampNs) then None
    else if record.AuthorityEvent? then Authority(auditing, context, Noted(s, record), record)
    else Sample(auditing, context, Noted(s, record), record)
  }

  /** The receipts of a group's three color frames. */
  function Frames<L>(s: Interval<L>, members: seq<Frame>): Interval<L>
    decreases |members|
  {
    if members == [] then s else Frames(Received(s, members[0].ReceivedNs()), members[1..])
  }

  predicate Required(context: Context, kind: Kind) {
    kind != GripperKind || context.hande.Urcap?
  }

  /** More commands than the minimum rate issues in an interval. */
  predicate FastEnough(context: Context, commands: int, durationNs: int) {
    commands as real * 1000000000.0 > context.minimumCommandHz * durationNs as real
  }

  predicate Complete<L>(context: Context, s: Interval<L>) {
    && (forall kind: Kind :: kind in s.previous <==> Required(context, kind))
    && s.pendingIntent.None? && s.pendingState.None?
    && Acquired in s.boundaries && Released in s.boundaries
    && CommandKind in s.counts
    && FastEnough(context, s.counts[CommandKind], s.boundaries[Released] - s.boundaries[Acquired])
    && (forall kind: Kind :: kind in s.previous && kind != AuthorityKind ==>
          && kind in s.first
          && s.first[kind] - s.boundaries[Acquired] <= context.maximumGapNs
          && s.boundaries[Released] - s.previous[kind].time.receivedNs <= context.maximumGapNs)
    && s.receipts.Some?
    && s.boundaries[Acquired] <= s.receipts.value.0 <= s.receipts.value.1 < s.boundaries[Released]
  }

  // An archive without a control snapshot may hold feedback but no authority.

  function CheckAny<L>(
    auditing: Auditing<L>, control: Option<Context>, s: Interval<L>, record: Record, timestampNs: int
  )
    : Option<Interval<L>>
  {
    match control
    case None => if record.AuthorityEvent? then None else Some(s)
    case Some(context) => Check(auditing, context, s, record, timestampNs)
  }

  function FramesAny<L>(control: Option<Context>, s: Interval<L>, members: seq<Frame>): Interval<L> {
    if control.None? then s else Frames(s, members)
  }

  predicate CompleteAny<L>(control: Option<Context>, s: Interval<L>) {
    control.Some? ==> Complete(control.value, s)
  }
}

/** The validator as it runs beside a writer or a verifier. */
module ControlRecords {
  import opened Prelude
  import opened Contracts
  import opened MatchingSteps
  import opened Steps = ControlSteps

  class Validator<L> {
    const auditing: Auditing<L>
    const context: Option<Context>
    var previous: map<Kind, Provenance>
    var counts: map<Kind, int>
    var first: map<Kind, int>
    var boundaries: map<Action, int>
    var receipts: Option<(int, int)>
    var pendingIntent: Option<Record>
    var pendingState: Option<Record>
    var audit: Option<L>

    ghost function Value(): Interval<L>
      reads this
    {
      Interval(previous, counts, first, boundaries, receipts, pendingIntent, pendingState, audit)
    }

    constructor (auditing: Auditing<L>, context: Option<Context>)
      ensures this.auditing == auditing && this.context == context && Value() == Start()
    {
      this.auditing, this.context := auditing, context;
      previous, counts, first, boundaries := map[], map[], map[], map[];
      receipts, pendingIntent, pendingState, audit := None, None, None, None;
    }

    method Receive(receipt: int)
      modifies this`receipts
      ensures Value() == Received(old(Value()), receipt)
    {
      receipts := Some(if receipts.None? then (receipt, receipt)
                       else (MinInt(receipts.value.0, receipt), MaxInt(receipts.value.1, receipt)));
    }

    method Frames(members: seq<Frame>)
      modifies this`receipts
      ensures Value() == FramesAny(context, old(Value()), members)
    {
      if context.None? {
        return;
      }
      for i := 0 to |members|
        invariant Steps.Frames(old(Value()), members) == Steps.Frames(Value(), members[i..])
        invariant Value() == old(Value()).(receipts := receipts)
      {
        assert members[i..][0] == members[i] && members[i..][1..] == members[i + 1..];
        Receive(members[i].ReceivedNs());
      }
    }

    /** A refusal ends the episode; the state it leaves is never read again. */
    method Check(record: Record, timestampNs: int) returns (ok: bool)
      modifies this
      ensures match CheckAny(auditing, context, old(Value()), record, timestampNs)
              case None => !ok
              case Some(next) => ok && Value() == next
    {
      if context.None? {
        return !record.AuthorityEvent?;
      }
      ok := CheckControlled(context.value, record, timestampNs);
    }

    method Note(record: Record)
      modifies this`first, this`previous, this`counts
      ensures Value() == Noted(old(Value()), record)
    {
      var kind, p := record.Kind(), record.provenance;
      if kind !in first {
        first := first[kind := p.time.receivedNs];
      }
      previous := previous[kind := p];
      counts := counts[kind := (if kind in counts then counts[kind] else 0) + 1];
    }

    method CheckControlled(control: Context, record: Record, timestampNs: int) returns (ok: bool)
      modifies this
      ensures match Steps.Check(auditing, control, old(Value()), record, timestampNs)
              case None => !ok
              case Some(next) => ok && Value() == next
    {
      hide Noted, Authority, Sample;
      var now := Interval(previous, counts, first, boundaries, receipts, pendingIntent, pendingState, audit);
      if !Stamped(control, now, record, timestampNs) {
        return false;
      }
      Note(record);
      if record.AuthorityEvent? {
        ok := CheckAuthority(control, record);
      } else {
        ok := CheckSample(control, record);
      }
    }

    method CheckAuthority(control: Context, record: Record) returns (ok: bool)
      requires record.AuthorityEvent?
      modifies this
      ensures match Authority(auditing, control, old(Value()), record)
              case None => !ok
              case Some(next) => ok && Value() == next
    {
      var expected := if boundaries == map[] then Acquired else Released;
      if record.action != expected || record.action in boundaries {
        return false;
      }
      if record.action == Acquired {
        if record.context.Some? {
          var c := record.context.value;
          if control.mapping.Direct? {
            return false;
          }
          audit := auditing.start(c, record.ReceivedNs());
          var height := control.mapping.HeightRelative?;
          if audit.None? || height != c.precision.Some? || (height && control.precision != c.precision)
             || (control.hande.Urcap? && !c.gripper) {
            return false;
          }
        } else if !control.mapping.Direct? {
          return false;
        }
      }
      boundaries := boundaries[record.action := record.ReceivedNs()];
      ok := true;
    }

    method CheckSample(control: Context, record: Record) returns (ok: bool)
      requires !record.AuthorityEvent?
      modifies this
      ensures match Sample(auditing, control, old(Value()), record)
              case None => !ok
              case Some(next) => ok && Value() == next
    {
      if record.HandEFeedback? {
        Receive(record.ReceivedNs());
        return true;
      }
      if (control.hande.Bypassed? && record.HasGripperValue()) || record.Values().None? {
        return false;
      }
      Receive(record.ReceivedNs());
      match record {
      case LeaderIntent(_, _, _, acquisition) =>
        if pendingIntent.Some? || (audit.None? && acquisition) {
          return false;
        }
        if audit.Some? {
          audit := auditing.intent(audit.value, record);
          if audit.None? {
            return false;
          }
        }
        pendingIntent := Some(record);
      case SentCommand(_, _, _) =>
        if pendingIntent.None? || !Commanded(audit.None?, pendingIntent.value, record) {
          return false;
        }
        if audit.Some? {
          audit := auditing.sent(audit.value, record);
          if audit.None? {
            return false;
          }
        }
        pendingIntent := None;
      case FollowerState(_, _, _) =>
        if pendingState.Some? {
          return false;
        }
        pendingState := Some(record);
      case URFeedback(_, _) =>
        if pendingState.None? || !ReadBack(pendingState.value, record) {
          return false;
        }
        pendingState := None;
      }
      ok := true;
    }

    /** The end of the log: every required record, both boundaries, the rate, the coverage and the containment. */
    method Finish() returns (ok: bool)
      ensures ok <==> CompleteAny(context, Value())
    {
      var now := Interval(previous, counts, first, boundaries, receipts, pendingIntent, pendingState, audit);
      ok := context.None? || Complete(context.value, now);
    }
  }
}

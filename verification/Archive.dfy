/** The episode archive of archive.py: a message writer and an independent streaming verifier, on values. */
module ArchiveSteps {
  import opened Prelude
  import opened Contracts
  import opened MatchingSteps
  import opened GroupSteps
  import R = ControlSteps

  const STAMP_LIMIT_NS := 0x8000_0000 * 1_000_000_000

  datatype Topic =
    | Metadata
    | FrameSet
    | Color(role: Role)
    | Range(role: Role)
    | Rejections
    | AuthorityTopic
    | LeaderTopic
    | CommandTopic
    | FollowerTopic

  /** A ROS time: whole seconds and nanoseconds. */
  datatype Stamp = Stamp(sec: int, nanosec: int)

  datatype Body =
    | Preface(snapshot: Snapshot, config: Config)
    | GroupInfo(group: Match, skews: seq<int>, digests: seq<int>)
    | RejectionInfo(group: Match)
    | RecordInfo(record: R.Record)
    | Image(stamp: Stamp, optical: Role, data: seq<int>)

  datatype Message = Message(topic: Topic, body: Body, logNs: int, publishNs: int, sequence: int)

  /** Image codecs; `passes` is the independent decoder on the n-th color packet of a camera. */
  datatype Codec = Codec(
    rgb: (Role, int, seq<int>) -> seq<int>,
    passes: (Role, int, seq<int>) -> bool,
    png: seq<int> -> seq<int>,
    unpng: seq<int> -> seq<int>,
    digest: seq<int> -> int
  ) {
    /** Depth is lossless, and each encoded color packet decodes as one frame in its turn. */
    ghost predicate Correct() {
      && (forall role, n, pixels :: passes(role, n, rgb(role, n, pixels)))
      && (forall depth :: unpng(png(depth)) == depth)
    }
  }

  /** Any validator of typed records, as the writer and the verifier each run one. */
  datatype Records<!V> = Records(
    start: V,
    check: (V, R.Record, int) -> Option<V>,
    frames: (V, seq<Frame>) -> Option<V>,
    complete: V -> bool
  )

  predicate Stampable(t: int) {
    0 <= t < STAMP_LIMIT_NS
  }

  function StampOf(t: int): Stamp {
    Stamp(t / 1_000_000_000, t % 1_000_000_000)
  }

  function NsOf(stamp: Stamp): int {
    stamp.sec * 1_000_000_000 + stamp.nanosec
  }

  lemma StampRoundTrip(t: int)
    ensures NsOf(StampOf(t)) == t
  {
  }

  type Counts = map<Topic, int>

  function Count(counts: Counts, topic: Topic): int {
    if topic in counts then counts[topic] else 0
  }

  function TopicOf(kind: R.Kind): Topic {
    match kind
    case AuthorityKind => AuthorityTopic
    case IntentKind => LeaderTopic
    case CommandKind => CommandTopic
    case _ => FollowerTopic
  }

  function BareAll(frames: seq<Frame>): seq<Frame> {
    seq(|frames|, (i: int) requires 0 <= i < |frames| => Bare(frames[i]))
  }

  /** What a match's JSON keeps: everything but the pixels. */
  function Described(g: Match): Match {
    Match(Bare(g.anchor), BareAll(g.members), g.reason, g.decidedNs)
  }

  function Skews(g: Match): seq<int> {
    seq(|g.members|, (i: int) requires 0 <= i < |g.members| => g.members[i].timestampNs - g.anchor.timestampNs)
  }

  // The writer.

  datatype Writer<V> = Writer(previous: Previous, records: V, counts: Counts, logNs: int, out: seq<Message>)

  datatype Episode<!V> = Episode(codec: Codec, records: Records<V>, snapshot: Snapshot, config: Config)

  function Opening<V>(e: Episode<V>): Writer<V> {
    Writer(NOTHING, e.records.start, map[], -1, [])
  }

  function Later(t: int, logNs: int): int {
    MaxInt(t, logNs + 1)
  }

  function Append<V>(w: Writer<V>, topic: Topic, body: Body, t: int, sequence: int): Writer<V> {
    var logNs := Later(t, w.logNs);
    w.(logNs := logNs, out := w.out + [Message(topic, body, logNs, t, sequence)],
       counts := w.counts[topic := Count(w.counts, topic) + 1])
  }

  /** The snapshot precedes everything else, at the first message's own time. */
  function Prefaced<V>(e: Episode<V>, w: Writer<V>, t: int): Writer<V> {
    if Count(w.counts, Metadata) != 0 then w else Append(w, Metadata, Preface(e.snapshot, e.config), t, 0)
  }

  function Write<V>(e: Episode<V>, w: Writer<V>, topic: Topic, body: Body, t: int, sequence: int): Option<Writer<V>> {
    if !Stampable(t) then None else Some(Append(Prefaced(e, w, t), topic, body, t, sequence))
  }

  /** One member's color packet and depth map. */
  function WriteMember<V>(e: Episode<V>, w: Writer<V>, f: Frame, index: int): Writer<V>
    requires f.payload.Some?
  {
    var color := Append(w, Color(f.role),
                        Image(StampOf(f.timestampNs), f.role, e.codec.rgb(f.role, index, f.payload.value.rgb)),
                        f.timestampNs, index);
    Append(color, Range(f.role), Image(StampOf(f.depthTimestampNs), f.role, e.codec.png(f.payload.value.depth)),
           f.depthTimestampNs, index)
  }

  predicate Encodable(f: Frame) {
    Stampable(f.timestampNs) && Stampable(f.depthTimestampNs) && f.payload.Some?
  }

  function DigestOf<V>(e: Episode<V>, f: Frame): int
    requires Encodable(f)
  {
    e.codec.digest(f.payload.value.depth)
  }

  function Info<V>(e: Episode<V>, g: Match): Body
    requires |g.members| == 3 && forall i :: 0 <= i < 3 ==> Encodable(g.members[i])
  {
    GroupInfo(Described(g), Skews(g), [DigestOf(e, g.members[0]), DigestOf(e, g.members[1]), DigestOf(e, g.members[2])])
  }

  function WriteGroup<V>(e: Episode<V>, w: Writer<V>, g: Match): Option<Writer<V>> {
    var checked := Check(e.snapshot, e.config, w.previous, g);
    if checked.None? then None
    else
      var noted := e.records.frames(w.records, BareAll(g.members));
      if noted.None? || exists i :: 0 <= i < 3 && !Encodable(g.members[i]) then None
      else
        var index := Count(w.counts, FrameSet);
        var headed := Write(e, w.(previous := checked.value, records := noted.value), FrameSet, Info(e, g),
                         g.anchor.timestampNs, index);
        if headed.None? then None
        else
          Some(WriteMember(e, WriteMember(e, WriteMember(e, headed.value, g.members[0], index), g.members[1], index),
                           g.members[2], index))
  }

  function WriteRejection<V>(e: Episode<V>, w: Writer<V>, g: Match): Option<Writer<V>> {
    if g.reason == Accepted then None
    else Write(e, w, Rejections, RejectionInfo(Described(g)), g.anchor.timestampNs, Count(w.counts, Rejections))
  }

  function WriteRecord<V>(e: Episode<V>, w: Writer<V>, record: R.Record, t: int): Option<Writer<V>> {
    if record.provenance.simulated != e.snapshot.simulated then None
    else
      var checked := e.records.check(w.records, record, t);
      if checked.None? then None
      else
        var topic := TopicOf(record.Kind());
        Write(e, w.(records := checked.value), topic, RecordInfo(record), t, Count(w.counts, topic))
  }

  datatype Entry = Group(group: Match) | Rejection(group: Match) | Record(record: R.Record, timestampNs: int)

  function Apply<V>(e: Episode<V>, w: Writer<V>, op: Entry): Option<Writer<V>> {
    match op
    case Group(g) => WriteGroup(e, w, g)
    case Rejection(g) => WriteRejection(e, w, g)
    case Record(record, t) => WriteRecord(e, w, record, t)
  }

  /** The writer after a whole episode, or nothing when an operation was refused. */
  function WriteAll<V>(e: Episode<V>, ops: seq<Entry>): Option<Writer<V>>
    decreases |ops|
  {
    if ops == [] then Some(Opening(e))
    else match WriteAll(e, ops[..|ops| - 1])
      case None => None
      case Some(w) => Apply(e, w, ops[|ops| - 1])
  }

  // The verifier.

  /** An image the last group still owes: its frame, whether it is the color one, and the depth digest. */
  datatype Owed = Owed(frame: Frame, color: bool, digest: int)

  datatype Verifier<V> = Verifier(previous: Previous, records: V, counts: Counts, expected: seq<Owed>, logNs: int)

  function Beginning<V>(e: Episode<V>): Verifier<V> {
    Verifier(NOTHING, e.records.start, map[], [], -1)
  }

  function Owes(g: Match, digests: seq<int>): seq<Owed>
    requires |g.members| == 3 && |digests| == 3
  {
    [Owed(g.members[0], true, digests[0]), Owed(g.members[0], false, digests[0]),
     Owed(g.members[1], true, digests[1]), Owed(g.members[1], false, digests[1]),
     Owed(g.members[2], true, digests[2]), Owed(g.members[2], false, digests[2])]
  }

  function ReadGroup<V>(e: Episode<V>, v: Verifier<V>, m: Message): Option<Verifier<V>>
    requires m.body.GroupInfo?
  {
    var g := m.body.group;
    if v.expected != [] then None
    else
      var checked := Check(e.snapshot, e.config, v.previous, g);
      if checked.None? || |m.body.digests| != 3 then None
      else
        var noted := e.records.frames(v.records, g.members);
        if noted.None? || m.body.skews != Skews(g) || m.sequence != Count(v.counts, FrameSet)
           || m.publishNs != g.anchor.timestampNs then None
        else Some(v.(previous := checked.value, records := noted.value, expected := Owes(g, m.body.digests)))
  }

  function ReadImage<V>(e: Episode<V>, v: Verifier<V>, m: Message): Option<Verifier<V>>
    requires m.topic.Color? || m.topic.Range?
  {
    if v.expected == [] || !m.body.Image? then None
    else
      var owed := v.expected[0];
      var t := if owed.color then owed.frame.timestampNs else owed.frame.depthTimestampNs;
      if m.topic != (if owed.color then Color(owed.frame.role) else Range(owed.frame.role))
         || m.publishNs != t || m.sequence != Count(v.counts, FrameSet) - 1
         || NsOf(m.body.stamp) != t || m.body.optical != owed.frame.role then None
      else if owed.color && !e.codec.passes(owed.frame.role, Count(v.counts, m.topic), m.body.data) then None
      else if !owed.color && e.codec.digest(e.codec.unpng(m.body.data)) != owed.digest then None
      else Some(v.(expected := v.expected[1..]))
  }

  function ReadJson<V>(e: Episode<V>, v: Verifier<V>, m: Message): Option<Verifier<V>> {
    if m.topic == Metadata then
      if v.counts != map[] || m.body != Preface(e.snapshot, e.config) then None else Some(v)
    else if Count(v.counts, Metadata) == 0 then None
    else if m.topic == FrameSet then
      if m.body.GroupInfo? then ReadGroup(e, v, m) else None
    else if m.topic == Rejections then
      if !m.body.RejectionInfo? then None
      else
        var g := m.body.group;
        if g.reason == Accepted || g.members != [] || m.publishNs != g.anchor.timestampNs
           || g.anchor.color.simulated != e.snapshot.simulated then None
        else Some(v)
    else if !m.body.RecordInfo? || m.topic != TopicOf(m.body.record.Kind())
            || m.body.record.provenance.simulated != e.snapshot.simulated then None
    else
      var checked := e.records.check(v.records, m.body.record, m.publishNs);
      if checked.None? then None else Some(v.(records := checked.value))
  }

  function Consume<V>(e: Episode<V>, v: Verifier<V>, m: Message): Option<Verifier<V>> {
    if !Stampable(m.publishNs) || m.logNs != Later(m.publishNs, v.logNs) then None
    else
      var timed := v.(logNs := m.logNs);
      var read := if m.topic.Color? || m.topic.Range? then ReadImage(e, timed, m) else ReadJson(e, timed, m);
      if read.None? then None
      else Some(read.value.(counts := read.value.counts[m.topic := Count(read.value.counts, m.topic) + 1]))
  }

  function Verify<V>(e: Episode<V>, ms: seq<Message>): Option<Verifier<V>>
    decreases |ms|
  {
    if ms == [] then Some(Beginning(e))
    else match Verify(e, ms[..|ms| - 1])
      case None => None
      case Some(v) => Consume(e, v, ms[|ms| - 1])
  }

  predicate Accepts<V>(e: Episode<V>, v: Verifier<V>) {
    e.records.complete(v.records) && v.expected == [] && Count(v.counts, FrameSet) > 0
  }
}

/** The archive writer and verifier, which update their counts, clocks and queues in place. */
module Archive {
  import opened Prelude
  import opened Contracts
  import opened MatchingSteps
  import opened GroupSteps
  import opened Steps = ArchiveSteps
  import G = Groups
  import R = ControlSteps

  class ArchiveWriter<V(==)> {
    const e: Episode<V>
    const validator: G.GroupValidator
    var records: V
    var counts: Counts
    var logNs: int
    var out: seq<Message>

    ghost predicate Valid()
      reads this
    {
      validator.snapshot == e.snapshot && validator.config == e.config
    }

    ghost function Value(): Writer<V>
      reads this, validator
    {
      Writer(validator.previous, records, counts, logNs, out)
    }

    constructor (e: Episode<V>)
      ensures Valid() && this.e == e && Value() == Opening(e) && fresh(validator)
    {
      this.e := e;
      validator := new G.GroupValidator(e.snapshot, e.config);
      records, counts, logNs, out := e.records.start, map[], -1, [];
    }

    method Put(topic: Topic, body: Body, t: int, sequence: int)
      modifies this`counts, this`logNs, this`out
      ensures Value() == Append(old(Value()), topic, body, t, sequence)
    {
      logNs := MaxInt(t, logNs + 1);
      out := out + [Message(topic, body, logNs, t, sequence)];
      counts := counts[topic := Count(counts, topic) + 1];
    }

    method Write(topic: Topic, body: Body, t: int, sequence: int) returns (ok: bool)
      modifies this`counts, this`logNs, this`out
      ensures match Steps.Write(e, old(Value()), topic, body, t, sequence)
              case None => !ok
              case Some(w) => ok && Value() == w
    {
      if !Stampable(t) {
        return false;
      }
      if Count(counts, Metadata) == 0 {
        Put(Metadata, Preface(e.snapshot, e.config), t, 0);
      }
      Put(topic, body, t, sequence);
      ok := true;
    }

    method WriteMember(f: Frame, index: int)
      requires f.payload.Some?
      modifies this`counts, this`logNs, this`out
      ensures Value() == Steps.WriteMember(e, old(Value()), f, index)
    {
      Put(Color(f.role), Image(StampOf(f.timestampNs), f.role, e.codec.rgb(f.role, index, f.payload.value.rgb)),
          f.timestampNs, index);
      Put(Range(f.role), Image(StampOf(f.depthTimestampNs), f.role, e.codec.png(f.payload.value.depth)),
          f.depthTimestampNs, index);
    }

    /** A refused operation aborts the episode. */
    method Group(g: Match) returns (ok: bool)
      requires Valid()
      modifies this, validator
      ensures Valid()
      ensures match WriteGroup(e, old(Value()), g)
              case None => !ok
              case Some(w) => ok && Value() == w
    {
      ok := validator.Check(g);
      if !ok {
        return;
      }
      var noted := e.records.frames(records, BareAll(g.members));
      if noted.None? || exists i :: 0 <= i < 3 && !Encodable(g.members[i]) {
        return false;
      }
      records := noted.value;
      var index := Count(counts, FrameSet);
      ok := Write(FrameSet, Info(e, g), g.anchor.timestampNs, index);
      if ok {
        WriteMember(g.members[0], index);
        WriteMember(g.members[1], index);
        WriteMember(g.members[2], index);
      }
    }

    method Rejection(g: Match) returns (ok: bool)
      requires Valid()
      modifies this
      ensures Valid()
      ensures match WriteRejection(e, old(Value()), g)
              case None => !ok
              case Some(w) => ok && Value() == w
    {
      if g.reason == Accepted {
        return false;
      }
      ok := Write(Rejections, RejectionInfo(Described(g)), g.anchor.timestampNs, Count(counts, Rejections));
    }

    method Record(record: R.Record, t: int) returns (ok: bool)
      requires Valid()
      modifies this
      ensures Valid()
      ensures match WriteRecord(e, old(Value()), record, t)
              case None => !ok
              case Some(w) => ok && Value() == w
    {
      if record.provenance.simulated != e.snapshot.simulated {
        return false;
      }
      var checked := e.records.check(records, record, t);
      if checked.None? {
        return false;
      }
      records := checked.value;
      var topic := TopicOf(record.Kind());
      ok := Write(topic, RecordInfo(record), t, Count(counts, topic));
    }
  }

  class StreamVerifier<V(==)> {
    const e: Episode<V>
    const validator: G.GroupValidator
    var records: V
    var counts: Counts
    var expected: seq<Owed>
    var logNs: int

    ghost predicate Valid()
      reads this
    {
      validator.snapshot == e.snapshot && validator.config == e.config
    }

    ghost function Value(): Verifier<V>
      reads this, validator
    {
      Verifier(validator.previous, records, counts, expected, logNs)
    }

    constructor (e: Episode<V>)
      ensures Valid() && this.e == e && Value() == Beginning(e) && fresh(validator)
    {
      this.e := e;
      validator := new G.GroupValidator(e.snapshot, e.config);
      records, counts, expected, logNs := e.records.start, map[], [], -1;
    }

    method Consume(m: Message) returns (ok: bool)
      requires Valid()
      modifies this, validator
      ensures Valid()
      ensures match Steps.Consume(e, old(Value()), m)
              case None => !ok
              case Some(v) => ok && Value() == v
    {
      if !Stampable(m.publishNs) || m.logNs != MaxInt(m.publishNs, logNs + 1) {
        return false;
      }
      logNs := m.logNs;
      if m.topic.Color? || m.topic.Range? {
        ok := ReadImage(m);
      } else {
        ok := ReadJson(m);
      }
      if ok {
        counts := counts[m.topic := Count(counts, m.topic) + 1];
      }
    }

    method ReadImage(m: Message) returns (ok: bool)
      requires m.topic.Color? || m.topic.Range?
      modifies this`expected
      ensures match Steps.ReadImage(e, old(Value()), m)
              case None => !ok
              case Some(v) => ok && Value() == v
    {
      if expected == [] || !m.body.Image? {
        return false;
      }
      var owed := expected[0];
      expected := expected[1..];
      var t := if owed.color then owed.frame.timestampNs else owed.frame.depthTimestampNs;
      if m.topic != (if owed.color then Color(owed.frame.role) else Range(owed.frame.role)) || m.publishNs != t
         || m.sequence != Count(counts, FrameSet) - 1 || NsOf(m.body.stamp) != t || m.body.optical != owed.frame.role {
        return false;
      }
      if owed.color {
        ok := e.codec.passes(owed.frame.role, Count(counts, m.topic), m.body.data);
      } else {
        ok := e.codec.digest(e.codec.unpng(m.body.data)) == owed.digest;
      }
    }

    method ReadJson(m: Message) returns (ok: bool)
      requires Valid()
      modifies this`records, this`expected, validator
      ensures Valid()
      ensures match Steps.ReadJson(e, old(Value()), m)
              case None => !ok
              case Some(v) => ok && Value() == v
    {
      if m.topic == Metadata {
        return counts == map[] && m.body == Preface(e.snapshot, e.config);
      }
      if Count(counts, Metadata) == 0 {
        return false;
      }
      if m.topic == FrameSet {
        if !m.body.GroupInfo? {
          return false;
        }
        ok := ReadGroup(m);
        return;
      }
      if m.topic == Rejections {
        return m.body.RejectionInfo? && m.body.group.reason != Accepted && m.body.group.members == []
            && m.publishNs == m.body.group.anchor.timestampNs
            && m.body.group.anchor.color.simulated == e.snapshot.simulated;
      }
      if !m.body.RecordInfo? || m.topic != TopicOf(m.body.record.Kind())
         || m.body.record.provenance.simulated != e.snapshot.simulated {
        return false;
      }
      var checked := e.records.check(records, m.body.record, m.publishNs);
      if checked.None? {
        return false;
      }
      records := checked.value;
      ok := true;
    }

    method ReadGroup(m: Message) returns (ok: bool)
      requires Valid() && m.body.GroupInfo?
      modifies this`records, this`expected, validator
      ensures Valid()
      ensures match Steps.ReadGroup(e, old(Value()), m)
              case None => !ok
              case Some(v) => ok && Value() == v
    {
      var g := m.body.group;
      if expected != [] {
        return false;
      }
      ok := validator.Check(g);
      if !ok || |m.body.digests| != 3 {
        return false;
      }
      var noted := e.records.frames(records, g.members);
      if noted.None? || m.body.skews != Skews(g) || m.sequence != Count(counts, FrameSet)
         || m.publishNs != g.anchor.timestampNs {
        return false;
      }
      records, expected := noted.value, Owes(g, m.body.digests);
      ok := true;
    }
  }
}

/** Whatever the archive writer writes, the independent verifier accepts. */
module ArchiveProofs {
  import opened Prelude
  import opened Contracts
  import opened MatchingSteps
  import opened GroupSteps
  import opened ArchiveSteps
  import R = ControlSteps

  lemma VerifyAppend<V(!new)>(e: Episode<V>, ms: seq<Message>, m: Message)
    ensures Verify(e, ms + [m]) == match Verify(e, ms) case None => None case Some(v) => Consume(e, v, m)
  {
    assert (ms + [m])[..|ms|] == ms;
  }

  /** The verifier of everything written so far stands exactly where the writer does, owed images aside. */
  ghost predicate Tracks<V(!new)>(e: Episode<V>, w: Writer<V>, owed: seq<Owed>) {
    Verify(e, w.out) == Some(Verifier(w.previous, w.records, w.counts, owed, w.logNs))
  }

  /** The same, except that the writer has already taken in the group or record it is about to write. */
  ghost predicate Trails<V(!new)>(e: Episode<V>, w: Writer<V>, previous: Previous, records: V) {
    Tracks(e, w.(previous := previous, records := records), [])
  }

  predicate Opened<V(!new)>(w: Writer<V>) {
    Count(w.counts, Metadata) != 0 || w.counts == map[]
  }

  lemma PrefaceTracks<V(!new)>(e: Episode<V>, w: Writer<V>, t: int)
    requires Tracks(e, w, []) && Opened(w) && Stampable(t)
    ensures Tracks(e, Prefaced(e, w, t), []) && Count(Prefaced(e, w, t).counts, Metadata) != 0
    ensures var p := Prefaced(e, w, t); p.previous == w.previous && p.records == w.records
    ensures forall topic :: topic != Metadata ==> Count(Prefaced(e, w, t).counts, topic) == Count(w.counts, topic)
  {
    hide Verify;
    if Count(w.counts, Metadata) == 0 {
      VerifyAppend(e, w.out, Message(Metadata, Preface(e.snapshot, e.config), Later(t, w.logNs), t, 0));
    }
  }

  /** Appending a JSON message the verifier reads with a given effect keeps the two in step. */
  lemma AppendTracks<V(!new)>(
    e: Episode<V>, w: Writer<V>, previous: Previous, records: V, topic: Topic, body: Body, t: int, sequence: int,
    owed: seq<Owed>
  )
    requires Trails(e, w, previous, records) && Stampable(t) && !topic.Color? && !topic.Range?
    requires var m := Message(topic, body, Later(t, w.logNs), t, sequence);
             ReadJson(e, Verifier(previous, records, w.counts, [], m.logNs), m)
             == Some(Verifier(w.previous, w.records, w.counts, owed, m.logNs))
    ensures Tracks(e, Append(w, topic, body, t, sequence), owed)
  {
    hide Verify, ReadJson;
    VerifyAppend(e, w.out, Message(topic, body, Later(t, w.logNs), t, sequence));
  }

  /** Appending the next owed image pays it. */
  lemma ImageTracks<V(!new)>(e: Episode<V>, w: Writer<V>, owed: seq<Owed>, data: seq<int>, sequence: int)
    requires owed != [] && Tracks(e, w, owed)
    requires Stampable(owed[0].frame.timestampNs) && Stampable(owed[0].frame.depthTimestampNs)
    requires sequence == Count(w.counts, FrameSet) - 1
    requires owed[0].color ==> e.codec.passes(owed[0].frame.role, Count(w.counts, Color(owed[0].frame.role)), data)
    requires !owed[0].color ==> e.codec.digest(e.codec.unpng(data)) == owed[0].digest
    ensures var f := owed[0].frame;
            var topic := if owed[0].color then Color(f.role) else Range(f.role);
            var t := if owed[0].color then f.timestampNs else f.depthTimestampNs;
            Tracks(e, Append(w, topic, Image(StampOf(t), f.role, data), t, sequence), owed[1..])
  {
    hide Verify, StampOf, NsOf;
    var f := owed[0].frame;
    var topic := if owed[0].color then Color(f.role) else Range(f.role);
    var t := if owed[0].color then f.timestampNs else f.depthTimestampNs;
    StampRoundTrip(t);
    VerifyAppend(e, w.out, Message(topic, Image(StampOf(t), f.role, data), Later(t, w.logNs), t, sequence));
  }

  /** How many color packets each camera has written: one per group. */
  ghost predicate PacketsCounted<V(!new)>(w: Writer<V>) {
    forall role :: Count(w.counts, Color(role)) == Count(w.counts, FrameSet)
  }

  lemma MemberTracks<V(!new)>(e: Episode<V>, w: Writer<V>, f: Frame, index: int, rest: seq<Owed>)
    requires e.codec.Correct() && Encodable(f)
    requires Tracks(e, w, [Owed(Bare(f), true, DigestOf(e, f)), Owed(Bare(f), false, DigestOf(e, f))] + rest)
    requires index == Count(w.counts, FrameSet) - 1 && Count(w.counts, Color(f.role)) == index
    ensures var t := WriteMember(e, w, f, index);
            && Tracks(e, t, rest)
            && Count(t.counts, FrameSet) == Count(w.counts, FrameSet)
            && Count(t.counts, Metadata) == Count(w.counts, Metadata)
            && Count(t.counts, Color(f.role)) == index + 1
            && (forall role :: role != f.role ==> Count(t.counts, Color(role)) == Count(w.counts, Color(role)))
  {
    hide Tracks, StampOf, Later;
    var color := Owed(Bare(f), true, DigestOf(e, f));
    var range := Owed(Bare(f), false, DigestOf(e, f));
    var owed := [color, range] + rest;
    var pixels := e.codec.rgb(f.role, index, f.payload.value.rgb);
    ImageTracks(e, w, owed, pixels, index);
    assert owed[1..] == [range] + rest;
    var next := Append(w, Color(f.role), Image(StampOf(f.timestampNs), f.role, pixels), f.timestampNs, index);
    ImageTracks(e, next, [range] + rest, e.codec.png(f.payload.value.depth), index);
    assert ([range] + rest)[1..] == rest;
  }

  /** What a group's JSON says is what the verifier checks: only pixels are gone. */
  lemma DescribedChecks<V(!new)>(e: Episode<V>, previous: Previous, g: Match)
    requires Check(e.snapshot, e.config, previous, g).Some?
    ensures Check(e.snapshot, e.config, previous, Described(g)) == Check(e.snapshot, e.config, previous, g)
    ensures |g.members| == 3 && Described(g).members == [Bare(g.members[0]), Bare(g.members[1]), Bare(g.members[2])]
    ensures g.members[0].role == Wrist && g.members[1].role == ThirdLeft && g.members[2].role == ThirdRight
    ensures Skews(Described(g)) == Skews(g)
  {
    var d := Described(g);
    forall i | 0 <= i < 3
      ensures MemberPasses(e.snapshot, e.config, previous, d.anchor, d.members[i])
    {
      assert MemberPasses(e.snapshot, e.config, previous, g.anchor, g.members[i]);
    }
    assert Skews(d) == Skews(g);
  }

  /** The anchor is the wrist member, pixels aside, so its stamp is encodable with it. */
  lemma AnchorStamp<V(!new)>(e: Episode<V>, previous: Previous, g: Match)
    requires Check(e.snapshot, e.config, previous, g).Some? && Encodable(g.members[0])
    ensures Stampable(g.anchor.timestampNs) && Described(g).anchor.timestampNs == g.anchor.timestampNs
  {
    assert Bare(g.anchor).timestampNs == Bare(g.members[0]).timestampNs;
  }

  lemma GroupReads<V(!new)>(e: Episode<V>, w: Writer<V>, g: Match, p: Writer<V>)
    requires WriteGroup(e, w, g).Some? && Count(p.counts, Metadata) != 0
    requires Check(e.snapshot, e.config, w.previous, g).Some? && e.records.frames(w.records, BareAll(g.members)).Some?
    requires p.previous == Check(e.snapshot, e.config, w.previous, g).value
    requires p.records == e.records.frames(w.records, BareAll(g.members)).value
    requires forall i :: 0 <= i < 3 ==> Encodable(g.members[i])
    ensures var t := g.anchor.timestampNs;
            var m := Message(FrameSet, Info(e, g), Later(t, p.logNs), t, Count(p.counts, FrameSet));
            ReadJson(e, Verifier(w.previous, w.records, p.counts, [], m.logNs), m)
            == Some(Verifier(p.previous, p.records, p.counts, Owes(Described(g), m.body.digests), m.logNs))
  {
    hide Check, Later;
    DescribedChecks(e, w.previous, g);
    AnchorStamp(e, w.previous, g);
    assert Described(g).members == BareAll(g.members);
  }

  lemma GroupSet<V(!new)>(e: Episode<V>, w: Writer<V>, g: Match)
    requires Tracks(e, w, []) && Opened(w) && WriteGroup(e, w, g).Some?
    ensures var checked := Check(e.snapshot, e.config, w.previous, g);
            var noted := e.records.frames(w.records, BareAll(g.members));
            && checked.Some? && noted.Some? && |g.members| == 3
            && (forall i :: 0 <= i < 3 ==> Encodable(g.members[i]))
            && var headed := Write(e, w.(previous := checked.value, records := noted.value), FrameSet, Info(e, g),
                                   g.anchor.timestampNs, Count(w.counts, FrameSet));
               && headed.Some?
               && Tracks(e, headed.value, Owes(Described(g), Info(e, g).digests))
               && Count(headed.value.counts, FrameSet) == Count(w.counts, FrameSet) + 1
               && Count(headed.value.counts, Metadata) != 0
               && (forall role :: Count(headed.value.counts, Color(role)) == Count(w.counts, Color(role)))
  {
    hide Verify, Check, Later, ReadJson;
    var checked := Check(e.snapshot, e.config, w.previous, g);
    var noted := e.records.frames(w.records, BareAll(g.members));
    DescribedChecks(e, w.previous, g);
    AnchorStamp(e, w.previous, g);
    var t := g.anchor.timestampNs;
    PrefaceTracks(e, w, t);
    var taken := w.(previous := checked.value, records := noted.value);
    var p := Prefaced(e, taken, t);
    PrefaceCommutes(e, w, t, checked.value, noted.value);
    GroupReads(e, w, g, p);
    AppendTracks(e, p, w.previous, w.records, FrameSet, Info(e, g), t, Count(w.counts, FrameSet),
                 Owes(Described(g), Info(e, g).digests));
  }

  lemma PrefaceCommutes<V(!new)>(e: Episode<V>, w: Writer<V>, t: int, previous: Previous, records: V)
    ensures Prefaced(e, w.(previous := previous, records := records), t)
            == Prefaced(e, w, t).(previous := previous, records := records)
  {
  }

  lemma GroupTracks<V(!new)>(e: Episode<V>, w: Writer<V>, g: Match)
    requires e.codec.Correct() && Tracks(e, w, []) && Opened(w) && PacketsCounted(w) && WriteGroup(e, w, g).Some?
    ensures var t := WriteGroup(e, w, g).value;
            Tracks(e, t, []) && Opened(t) && PacketsCounted(t)
                && Count(t.counts, FrameSet) == Count(w.counts, FrameSet) + 1
  {
    GroupSet(e, w, g);
    DescribedChecks(e, w.previous, g);
    hide Tracks, Check, Write, WriteMember, Info;
    var checked := Check(e.snapshot, e.config, w.previous, g).value;
    var noted := e.records.frames(w.records, BareAll(g.members)).value;
    var index := Count(w.counts, FrameSet);
    var headed :=
        Write(e, w.(previous := checked, records := noted), FrameSet, Info(e, g), g.anchor.timestampNs, index).value;
    var a, b, c := g.members[0], g.members[1], g.members[2];
    GroupOwes(e, g);
    var second := [Owed(Bare(b), true, DigestOf(e, b)), Owed(Bare(b), false, DigestOf(e, b))];
    var third := [Owed(Bare(c), true, DigestOf(e, c)), Owed(Bare(c), false, DigestOf(e, c))];
    MemberTracks(e, headed, a, index, second + third);
    var one := WriteMember(e, headed, a, index);
    MemberTracks(e, one, b, index, third);
    var two := WriteMember(e, one, b, index);
    assert third + [] == third;
    MemberTracks(e, two, c, index, []);
  }

  lemma GroupOwes<V(!new)>(e: Episode<V>, g: Match)
    requires |g.members| == 3 && forall i :: 0 <= i < 3 ==> Encodable(g.members[i])
    ensures var a, b, c := g.members[0], g.members[1], g.members[2];
            Owes(Described(g), Info(e, g).digests)
            == [Owed(Bare(a), true, DigestOf(e, a)), Owed(Bare(a), false, DigestOf(e, a))]
               + ([Owed(Bare(b), true, DigestOf(e, b)), Owed(Bare(b), false, DigestOf(e, b))]
                  + [Owed(Bare(c), true, DigestOf(e, c)), Owed(Bare(c), false, DigestOf(e, c))])
  {
    hide DigestOf;
  }

  /** A rejection as the matcher makes them: no members, and the run's own provenance. */
  predicate Rejected<V(!new)>(e: Episode<V>, g: Match) {
    g.members == [] && g.anchor.color.simulated == e.snapshot.simulated
  }

  lemma RejectionTracks<V(!new)>(e: Episode<V>, w: Writer<V>, g: Match)
    requires Tracks(e, w, []) && Opened(w) && PacketsCounted(w) && Rejected(e, g) && WriteRejection(e, w, g).Some?
    ensures var t := WriteRejection(e, w, g).value;
            Tracks(e, t, []) && Opened(t) && PacketsCounted(t) && Count(t.counts, FrameSet) == Count(w.counts, FrameSet)
  {
    hide Verify;
    var t := g.anchor.timestampNs;
    PrefaceTracks(e, w, t);
    var p := Prefaced(e, w, t);
    AppendTracks(e, p, w.previous, w.records, Rejections, RejectionInfo(Described(g)), t, Count(w.counts, Rejections),
        []);
  }

  lemma RecordTracks<V(!new)>(e: Episode<V>, w: Writer<V>, record: R.Record, t: int)
    requires Tracks(e, w, []) && Opened(w) && PacketsCounted(w) && WriteRecord(e, w, record, t).Some?
    ensures var after := WriteRecord(e, w, record, t).value;
            && Tracks(e, after, []) && Opened(after) && PacketsCounted(after)
            && Count(after.counts, FrameSet) == Count(w.counts, FrameSet)
  {
    hide Verify;
    PrefaceTracks(e, w, t);
    var records := e.records.check(w.records, record, t).value;
    PrefaceCommutes(e, w, t, w.previous, records);
    var p := Prefaced(e, w.(records := records), t);
    var topic := TopicOf(record.Kind());
    AppendTracks(e, p, w.previous, w.records, topic, RecordInfo(record), t, Count(w.counts, topic), []);
  }

  /** How many groups an episode wrote. */
  function Groups(ops: seq<Entry>): nat
    decreases |ops|
  {
    if ops == [] then 0 else Groups(ops[..|ops| - 1]) + if ops[|ops| - 1].Group? then 1 else 0
  }

  ghost predicate Matched<V(!new)>(e: Episode<V>, ops: seq<Entry>) {
    forall i :: 0 <= i < |ops| && ops[i].Rejection? ==> Rejected(e, ops[i].group)
  }

  lemma {:induction false} RunTracks<V(!new)>(e: Episode<V>, ops: seq<Entry>)
    requires e.codec.Correct() && Matched(e, ops) && WriteAll(e, ops).Some?
    ensures var w := WriteAll(e, ops).value;
            Tracks(e, w, []) && Opened(w) && PacketsCounted(w) && Count(w.counts, FrameSet) == Groups(ops)
    decreases |ops|
  {
    hide WriteGroup, WriteRejection, WriteRecord, Tracks, Opened, PacketsCounted, Rejected;
    if ops == [] {
      OpeningTracks(e);
    } else {
      var front := ops[..|ops| - 1];
      RunTracks(e, front);
      var w := WriteAll(e, front).value;
      match ops[|ops| - 1]
      case Group(g) => GroupTracks(e, w, g);
      case Rejection(g) => RejectionTracks(e, w, g);
      case Record(record, t) => RecordTracks(e, w, record, t);
    }
  }

  lemma OpeningTracks<V(!new)>(e: Episode<V>)
    ensures Tracks(e, Opening(e), []) && Opened(Opening(e)) && PacketsCounted(Opening(e))
    ensures Count(Opening(e).counts, FrameSet) == 0
  {
  }

  /**
   * Write, then verify: with correct codecs, every episode the writer finishes with at least one group and the
   * matcher's own rejections is accepted by the streaming verifier, which ends with the writer's counts, log clock
   * and validator states.
   */
  lemma WrittenIsVerified<V(!new)>(e: Episode<V>, ops: seq<Entry>)
    requires e.codec.Correct() && Matched(e, ops)
    requires WriteAll(e, ops).Some? && e.records.complete(WriteAll(e, ops).value.records) && Groups(ops) >= 1
    ensures var w := WriteAll(e, ops).value;
            var v := Verify(e, w.out);
            && v.Some? && Accepts(e, v.value)
            && v.value.previous == w.previous && v.value.records == w.records
            && v.value.counts == w.counts && v.value.logNs == w.logNs
  {
    hide Verify, WriteAll, Matched;
    RunTracks(e, ops);
  }

  // What acceptance says about any message sequence.

  predicate IsImage(m: Message) {
    m.topic.Color? || m.topic.Range?
  }

  ghost predicate Clocked(ms: seq<Message>, logNs: int) {
    && (forall i :: 0 <= i < |ms| ==> Stampable(ms[i].publishNs) && ms[i].publishNs <= ms[i].logNs)
    && (forall i, j :: 0 <= i < j < |ms| ==> ms[i].logNs < ms[j].logNs)
    && (ms != [] ==> logNs == ms[|ms| - 1].logNs) && (ms == [] ==> logNs == -1)
  }

  lemma ClockedAppend(ms: seq<Message>, logNs: int, m: Message)
    requires Clocked(ms, logNs) && Stampable(m.publishNs) && m.logNs == Later(m.publishNs, logNs)
    ensures Clocked(ms + [m], m.logNs)
  {
    var all := ms + [m];
    forall i, j | 0 <= i < j < |all|
      ensures all[i].logNs < all[j].logNs
    {
      if j == |ms| && i < |ms| - 1 {
        assert ms[i].logNs < ms[|ms| - 1].logNs;
      }
    }
  }

  /** The groups and images among the messages, in order; records and rejections may come in between. */
  function Camera(ms: seq<Message>): seq<Message>
    decreases |ms|
  {
    if ms == [] then []
    else
      var m := ms[|ms| - 1];
      Camera(ms[..|ms| - 1]) + if m.topic == FrameSet || IsImage(m) then [m] else []
  }

  /** The topic of the i-th image of a group, from 1 to 6. */
  function ImageTopic(i: int): Topic {
    if i == 1 then Color(Wrist)
    else if i == 2 then Range(Wrist)
    else if i == 3 then Color(ThirdLeft)
    else if i == 4 then Range(ThirdLeft)
    else if i == 5 then Color(ThirdRight)
    else Range(ThirdRight)
  }

  /** The acquisition time the i-th image of a group must carry. */
  function ImageTime(g: Match, i: int): int
    requires |g.members| == 3 && 1 <= i <= 6
  {
    var f := g.members[(i - 1) / 2];
    if i % 2 == 1 then f.timestampNs else f.depthTimestampNs
  }

  predicate IsHead(m: Message, index: int) {
    && m.topic == FrameSet && m.sequence == index
    && m.body.GroupInfo? && |m.body.digests| == 3 && Ordered(m.body.group)
  }

  predicate IsPart(head: Message, m: Message, i: int)
    requires 1 <= i <= 6
  {
    && head.body.GroupInfo? && |head.body.group.members| == 3
    && m.topic == ImageTopic(i) && m.sequence == head.sequence && m.publishNs == ImageTime(head.body.group, i)
  }

  /** Blocks of seven: a numbered group, then its own six images in order. */
  ghost predicate Blocks(c: seq<Message>) {
    forall i :: 0 <= i < |c| ==> BlockAt(c, i)
  }

  predicate BlockAt(c: seq<Message>, i: int)
    requires 0 <= i < |c|
  {
    if i % 7 == 0 then IsHead(c[i], i / 7) else IsPart(c[i - i % 7], c[i], i % 7)
  }

  /** What the verifier still expects after a camera sequence: the rest of the last block. */
  ghost predicate Expects(c: seq<Message>, expected: seq<Owed>, groups: int) {
    var n := |c|;
    && Blocks(c)
    && groups == (n + 6) / 7
    && expected == if n % 7 == 0 then [] else Rest(c[n - n % 7], n % 7)
  }

  function Rest(head: Message, i: int): seq<Owed>
    requires 1 <= i <= 6
  {
    if head.body.GroupInfo? && |head.body.digests| == 3 && |head.body.group.members| == 3 then
      Owes(head.body.group, head.body.digests)[i - 1..]
    else []
  }

  lemma BlocksAppend(c: seq<Message>, m: Message)
    requires Blocks(c)
    requires var n := |c|; if n % 7 == 0 then IsHead(m, n / 7) else IsPart(c[n - n % 7], m, n % 7)
    ensures Blocks(c + [m])
  {
    hide IsHead, IsPart;
    var all := c + [m];
    forall i | 0 <= i < |all|
      ensures BlockAt(all, i)
    {
      if i < |c| {
        assert BlockAt(c, i);
      }
    }
  }

  /** A group starts a block. */
  lemma HeadAppend(c: seq<Message>, groups: int, m: Message)
    requires Expects(c, [], groups) && |c| % 7 == 0 && IsHead(m, groups)
    ensures Expects(c + [m], Owes(m.body.group, m.body.digests), groups + 1)
  {
    hide Blocks, IsHead, IsPart, Rest;
    Sevens(|c|);
    assert Blocks(c) && groups == (|c| + 6) / 7;
    BlocksAppend(c, m);
    assert (c + [m])[|c|] == m;
    HeadOwes(m, groups);
  }

  /** Counting in sevens from a full block. */
  lemma Sevens(n: nat)
    requires n % 7 == 0
    ensures (n + 6) / 7 == n / 7 && (n + 1) % 7 == 1 && (n + 1 + 6) / 7 == n / 7 + 1
  {
  }

  /** A new block owes all six images. */
  lemma HeadOwes(m: Message, index: int)
    requires IsHead(m, index)
    ensures m.body.GroupInfo? && |m.body.digests| == 3 && |m.body.group.members| == 3
    ensures Rest(m, 1) == Owes(m.body.group, m.body.digests)
  {
    assert Owes(m.body.group, m.body.digests)[0..] == Owes(m.body.group, m.body.digests);
  }

  /** The first expected image continues the block. */
  lemma PartAppend(c: seq<Message>, expected: seq<Owed>, groups: int, m: Message)
    requires Expects(c, expected, groups) && expected != []
    requires m.topic == (if expected[0].color then Color(expected[0].frame.role) else Range(expected[0].frame.role))
    requires m.publishNs == if expected[0].color then expected[0].frame.timestampNs
        else expected[0].frame.depthTimestampNs
    requires m.sequence == groups - 1
    ensures Expects(c + [m], expected[1..], groups)
  {
    OpenBlock(c, expected, groups);
    var k := |c| % 7;
    var head := c[|c| - k];
    PartIsNext(head, m, k, |c| / 7);
    hide Expects;
    CloseBlock(c, m, head, k);
  }

  /** While images are expected, the last block is open at its numbered head. */
  lemma OpenBlock(c: seq<Message>, expected: seq<Owed>, groups: int)
    requires Expects(c, expected, groups) && expected != []
    ensures var k := |c| % 7;
            && 1 <= k <= |c| && Blocks(c) && IsHead(c[|c| - k], |c| / 7)
            && expected == Rest(c[|c| - k], k) && groups - 1 == |c| / 7
  {
    hide IsHead, IsPart, Rest;
    var k := |c| % 7;
    assert (|c| - k) % 7 == 0 && |c| / 7 == (|c| - k) / 7;
    HeadOf(c, |c| - k);
  }

  lemma CloseBlock(c: seq<Message>, m: Message, head: Message, k: int)
    requires Blocks(c) && 1 <= k <= |c| && k == |c| % 7 && head == c[|c| - k] && IsPart(head, m, k)
    ensures Expects(c + [m], if k == 6 then [] else Rest(head, k + 1), |c| / 7 + 1)
  {
    hide Blocks, IsHead, IsPart, Rest;
    BlocksAppend(c, m);
    assert (c + [m])[|c| - k] == head;
  }

  lemma PartIsNext(head: Message, m: Message, i: int, index: int)
    requires 1 <= i <= 6 && IsHead(head, index) && Rest(head, i) != []
    requires var owed := Rest(head, i)[0];
             && m.topic == (if owed.color then Color(owed.frame.role) else Range(owed.frame.role))
             && m.publishNs == if owed.color then owed.frame.timestampNs else owed.frame.depthTimestampNs
    requires m.sequence == index
    ensures IsPart(head, m, i)
    ensures Rest(head, i)[1..] == if i == 6 then [] else Rest(head, i + 1)
  {
  }

  /**
   * Whatever the verifier reads through, not only what the writer wrote: log times increase strictly and never fall
   * below publish times, one preface comes first, and the camera messages are blocks of a numbered group and its six
   * images in order with their acquisition times, the last block short of exactly the images still expected.
   */
  lemma {:induction false} VerifiedShape<V(!new)>(e: Episode<V>, ms: seq<Message>)
    requires Verify(e, ms).Some?
    ensures Shaped(ms, Verify(e, ms).value)
    decreases |ms|
  {
    hide *;
    if ms == [] {
      BeginningShape(e);
    } else {
      var front, m := ms[..|ms| - 1], ms[|ms| - 1];
      VerifiedFront(e, ms);
      VerifiedShape(e, front);
      assert front + [m] == ms;
      ShapedNext(e, Verify(e, front).value, Verify(e, ms).value, front, m);
    }
  }

  /** The messages a verifier has read, against what it remembers of them. */
  ghost predicate Shaped<V(!new)>(ms: seq<Message>, v: Verifier<V>) {
    && Clocked(ms, v.logNs)
    && (forall i :: 0 <= i < |ms| ==> (ms[i].topic == Metadata <==> i == 0))
    && Expects(Camera(ms), v.expected, Count(v.counts, FrameSet))
    && (v.counts == map[] <==> ms == []) && (Count(v.counts, Metadata) != 0 <==> ms != [])
    && (ms == [] ==> v.expected == [])
  }

  lemma BeginningShape<V(!new)>(e: Episode<V>)
    ensures Verify(e, []) == Some(Beginning(e)) && Shaped([], Beginning(e))
  {
    EmptyShape();
    hide Expects, Clocked;
  }

  lemma EmptyShape()
    ensures Camera([]) == [] && Expects([], [], 0) && Clocked([], -1)
  {
    hide BlockAt, Rest, Stampable;
  }

  lemma VerifiedFront<V(!new)>(e: Episode<V>, ms: seq<Message>)
    requires Verify(e, ms).Some? && ms != []
    ensures Verify(e, ms[..|ms| - 1]).Some?
    ensures Consume(e, Verify(e, ms[..|ms| - 1]).value, ms[|ms| - 1]) == Verify(e, ms)
  {
    hide Consume;
  }

  lemma ShapedNext<V(!new)>(e: Episode<V>, before: Verifier<V>, after: Verifier<V>, front: seq<Message>, m: Message)
    requires Shaped(front, before) && Consume(e, before, m) == Some(after)
    ensures Shaped(front + [m], after)
  {
    hide Consume, Clocked, Expects, Camera, IsHead, IsImage, Owes, Count;
    ConsumeShape(e, before, m);
    ClockedAppend(front, before.logNs, m);
    ShapeStep(e, before, after, front, m);
  }

  predicate FromCamera(m: Message) {
    m.topic == FrameSet || IsImage(m)
  }

  lemma CameraAppend(front: seq<Message>, m: Message)
    ensures Camera(front + [m]) == if FromCamera(m) then Camera(front) + [m] else Camera(front)
  {
    assert (front + [m])[..|front + [m]| - 1] == front;
    assert Camera(front) + [] == Camera(front);
  }

  /** A group extends the camera sequence with a new block. */
  lemma GroupShape<V(!new)>(e: Episode<V>, before: Verifier<V>, after: Verifier<V>, c: seq<Message>, m: Message)
    requires Consume(e, before, m) == Some(after) && Expects(c, before.expected, Count(before.counts, FrameSet))
    requires if before.counts == map[] then before.expected == [] else Count(before.counts, Metadata) != 0
    requires m.topic == FrameSet
    ensures Expects(c + [m], after.expected, Count(after.counts, FrameSet))
  {
    hide *;
    ConsumeShape(e, before, m);
    GroupIsNoImage(m);
    EmptyExpects(c, Count(before.counts, FrameSet));
    HeadAppend(c, Count(before.counts, FrameSet), m);
  }

  lemma GroupIsNoImage(m: Message)
    requires m.topic == FrameSet
    ensures !IsImage(m)
  {
  }

  /** An image extends the open block. */
  lemma ImageShape<V(!new)>(e: Episode<V>, before: Verifier<V>, after: Verifier<V>, c: seq<Message>, m: Message)
    requires Consume(e, before, m) == Some(after) && Expects(c, before.expected, Count(before.counts, FrameSet))
    requires if before.counts == map[] then before.expected == [] else Count(before.counts, Metadata) != 0
    requires IsImage(m)
    ensures Expects(c + [m], after.expected, Count(after.counts, FrameSet))
  {
    hide *;
    ConsumeShape(e, before, m);
    ImageIsNoGroup(m);
    PartAppend(c, before.expected, Count(before.counts, FrameSet), m);
  }

  lemma ImageIsNoGroup(m: Message)
    requires IsImage(m)
    ensures m.topic != FrameSet
  {
  }

  /** One message extends the camera sequence as the verifier expects. */
  lemma ShapeStep<V(!new)>(e: Episode<V>, before: Verifier<V>, after: Verifier<V>, front: seq<Message>, m: Message)
    requires Consume(e, before, m) == Some(after)
        && Expects(Camera(front), before.expected, Count(before.counts, FrameSet))
    requires if before.counts == map[] then before.expected == [] else Count(before.counts, Metadata) != 0
    ensures Expects(Camera(front + [m]), after.expected, Count(after.counts, FrameSet))
  {
    hide Consume, Expects, Camera, IsImage;
    CameraAppend(front, m);
    if m.topic == FrameSet {
      GroupShape(e, before, after, Camera(front), m);
    } else if IsImage(m) {
      ImageShape(e, before, after, Camera(front), m);
    } else {
      OtherShape(e, before, after, m);
    }
  }

  lemma OtherShape<V(!new)>(e: Episode<V>, before: Verifier<V>, after: Verifier<V>, m: Message)
    requires Consume(e, before, m) == Some(after) && !FromCamera(m)
    requires if before.counts == map[] then before.expected == [] else Count(before.counts, Metadata) != 0
    ensures after.expected == before.expected && Count(after.counts, FrameSet) == Count(before.counts, FrameSet)
  {
    hide Consume, IsImage;
    ConsumeShape(e, before, m);
  }

  lemma HeadOf(c: seq<Message>, i: nat)
    requires Blocks(c) && i < |c| && i % 7 == 0
    ensures IsHead(c[i], i / 7)
  {
    assert BlockAt(c, i);
  }

  lemma EmptyExpects(c: seq<Message>, groups: int)
    requires Expects(c, [], groups)
    ensures |c| % 7 == 0
  {
    var n := |c|;
    if n % 7 != 0 {
      HeadOf(c, n - n % 7);
    }
  }

  /** Reading without the counting. */
  function Reading<V>(e: Episode<V>, v: Verifier<V>, m: Message): Option<Verifier<V>> {
    if m.topic.Color? || m.topic.Range? then ReadImage(e, v, m) else ReadJson(e, v, m)
  }

  lemma CountOne(counts: Counts, topic: Topic, other: Topic)
    ensures Count(counts[topic := Count(counts, topic) + 1], other)
            == Count(counts, other) + (if other == topic then 1 else 0)
  {
  }

  /** Consuming is timing, reading and counting. */
  lemma ConsumeParts<V(!new)>(e: Episode<V>, v: Verifier<V>, m: Message)
    requires Consume(e, v, m).Some?
    ensures Stampable(m.publishNs) && m.logNs == Later(m.publishNs, v.logNs)
    ensures var r := Reading(e, v.(logNs := m.logNs), m);
            && r.Some?
            && Consume(e, v, m).value
               == r.value.(counts := r.value.counts[m.topic := Count(r.value.counts, m.topic) + 1])
  {
    hide ReadImage, ReadJson, Later, Stampable, Count;
  }

  /** What reading leaves alone. */
  lemma ReadFrame<V(!new)>(e: Episode<V>, v: Verifier<V>, m: Message)
    requires Reading(e, v, m).Some?
    ensures var t := Reading(e, v, m).value;
            && t.counts == v.counts && t.logNs == v.logNs
            && (m.topic == Metadata ==> v.counts == map[])
            && (m.topic != Metadata && !IsImage(m) ==> Count(v.counts, Metadata) != 0)
            && (m.topic != FrameSet && !IsImage(m) ==> t.expected == v.expected)
  {
    hide Check, Skews, Owes, NsOf;
  }

  lemma ReadOwed<V(!new)>(e: Episode<V>, v: Verifier<V>, m: Message)
    requires Reading(e, v, m).Some? && IsImage(m)
    ensures var t := Reading(e, v, m).value;
            && v.expected != [] && t.expected == v.expected[1..]
            && m.topic == (if v.expected[0].color then Color(v.expected[0].frame.role)
                           else Range(v.expected[0].frame.role))
            && m.publishNs == (if v.expected[0].color then v.expected[0].frame.timestampNs
                               else v.expected[0].frame.depthTimestampNs)
            && m.sequence == Count(v.counts, FrameSet) - 1
  {
    hide Count, NsOf;
  }

  lemma ReadHead<V(!new)>(e: Episode<V>, v: Verifier<V>, m: Message)
    requires Reading(e, v, m).Some? && m.topic == FrameSet
    ensures v.expected == [] && IsHead(m, Count(v.counts, FrameSet))
    ensures Reading(e, v, m).value.expected == Owes(m.body.group, m.body.digests)
  {
    hide Skews, NsOf, MemberPasses, Count, Owes;
  }

  /** The effect of one accepted message. */
  lemma ConsumeShape<V(!new)>(e: Episode<V>, v: Verifier<V>, m: Message)
    requires Consume(e, v, m).Some?
    requires if v.counts == map[] then v.expected == [] else Count(v.counts, Metadata) != 0
    ensures var t := Consume(e, v, m).value;
            && Stampable(m.publishNs) && m.logNs == Later(m.publishNs, v.logNs) && t.logNs == m.logNs
            && t.counts != map[] && Count(t.counts, Metadata) != 0
            && Count(t.counts, FrameSet) == Count(v.counts, FrameSet) + (if m.topic == FrameSet then 1 else 0)
            && (m.topic == Metadata <==> v.counts == map[])
            && (if IsImage(m) then
                  && v.expected != [] && t.expected == v.expected[1..]
                  && m.topic == (if v.expected[0].color then Color(v.expected[0].frame.role)
                                 else Range(v.expected[0].frame.role))
                  && m.publishNs == (if v.expected[0].color then v.expected[0].frame.timestampNs
                                     else v.expected[0].frame.depthTimestampNs)
                  && m.sequence == Count(v.counts, FrameSet) - 1
                else if m.topic == FrameSet then
                  && v.expected == [] && IsHead(m, Count(v.counts, FrameSet))
                  && t.expected == Owes(m.body.group, m.body.digests)
                else t.expected == v.expected)
  {
    var timed := v.(logNs := m.logNs);
    ConsumeParts(e, v, m);
    ReadFrame(e, timed, m);
    CountOne(v.counts, m.topic, FrameSet);
    CountOne(v.counts, m.topic, Metadata);
    var t := Consume(e, v, m).value;
    CountsSomething(v.counts, m.topic);
    MetadataFirst(v.counts);
    if IsImage(m) {
      ReadOwed(e, timed, m);
    } else if m.topic == FrameSet {
      ReadHead(e, timed, m);
    }
    hide Consume, Reading, Later, Stampable, Count, Owes, IsHead;
  }

  lemma CountsSomething(counts: Counts, topic: Topic)
    ensures counts[topic := Count(counts, topic) + 1] != map[]
  {
    assert topic in counts[topic := Count(counts, topic) + 1];
  }

  lemma MetadataFirst(counts: Counts)
    ensures counts == map[] ==> Count(counts, Metadata) == 0
  {
  }

  // Diagnostics may stand anywhere, also between a group and its images.

  /** A rejection that the verifier reads. */
  predicate Diagnostic<V>(e: Episode<V>, g: Match) {
    && g.reason != Accepted && g.members == [] && Stampable(g.anchor.timestampNs)
    && g.anchor.color.simulated == e.snapshot.simulated
  }

  /** The message that carries a rejection, after everything logged before it. */
  function Aside(g: Match, logNs: int, sequence: int): Message {
    Message(Rejections, RejectionInfo(g), Later(g.anchor.timestampNs, logNs), g.anchor.timestampNs, sequence)
  }

  /** The same messages on a log clock that has already advanced. */
  function Relogged(logNs: int, ms: seq<Message>): seq<Message>
    decreases |ms|
  {
    if ms == [] then []
    else
      var front := Relogged(logNs, ms[..|ms| - 1]);
      var m := ms[|ms| - 1];
      front + [m.(logNs := Later(m.publishNs, ClockAfter(logNs, front)))]
  }

  function ClockAfter(logNs: int, ms: seq<Message>): int {
    if ms == [] then logNs else ms[|ms| - 1].logNs
  }

  /** Two verifiers that differ in their clocks and in how many rejections they have read. */
  ghost predicate Beside<V(!new)>(v: Verifier<V>, u: Verifier<V>) {
    && u.previous == v.previous && u.records == v.records && u.expected == v.expected
    && SameCounts(v.counts, u.counts)
  }

  ghost predicate SameCounts(a: Counts, b: Counts) {
    && a != map[] && b != map[]
    && forall topic: Topic :: topic != Rejections ==> Count(b, topic) == Count(a, topic)
  }

  lemma CountBoth(a: Counts, b: Counts, topic: Topic)
    requires SameCounts(a, b)
    ensures SameCounts(a[topic := Count(a, topic) + 1], b[topic := Count(b, topic) + 1])
  {
    var c, d := a[topic := Count(a, topic) + 1], b[topic := Count(b, topic) + 1];
    assert topic in c && topic in d;
    forall other: Topic | other != Rejections
      ensures Count(d, other) == Count(c, other)
    {
      CountOne(a, topic, other);
      CountOne(b, topic, other);
    }
  }

  /** What reading makes of a message depends on neither the clock nor the number of rejections. */
  lemma ReadsBeside<V(!new)>(e: Episode<V>, v: Verifier<V>, u: Verifier<V>, m: Message, k: Message)
    requires Beside(v, u) && k == m.(logNs := k.logNs)
    requires Consume(e, v, m).Some? && k.logNs == Later(m.publishNs, u.logNs)
    ensures Consume(e, u, k).Some?
    ensures var w := Consume(e, u, k).value; Beside(Consume(e, v, m).value, w) && w.logNs == k.logNs
  {
    ReadSame(e, v.(logNs := m.logNs), u.(logNs := k.logNs), m, k);
    CountBoth(v.counts, u.counts, m.topic);
    hide ReadImage, ReadJson, Count, Later, Stampable, SameCounts;
  }

  lemma ReadSame<V(!new)>(e: Episode<V>, v: Verifier<V>, u: Verifier<V>, m: Message, k: Message)
    requires Beside(v, u) && k == m.(logNs := k.logNs) && Reading(e, v, m).Some?
    ensures Reading(e, u, k).Some?
    ensures var a, b := Reading(e, v, m).value, Reading(e, u, k).value;
            && a.counts == v.counts && b.counts == u.counts && a.logNs == v.logNs && b.logNs == u.logNs
            && a.previous == b.previous && a.records == b.records && a.expected == b.expected
  {
    hide Check, Skews, Owes, Count, NsOf;
  }

  lemma {:induction false} ReloggedReads<V(!new)>(
    e: Episode<V>, a: seq<Message>, c: seq<Message>, b: seq<Message>, logNs: int
  )
    requires Verify(e, a + b).Some? && Verify(e, a).Some? && Verify(e, c).Some?
    requires Beside(Verify(e, a).value, Verify(e, c).value) && Verify(e, c).value.logNs == logNs
    ensures Verify(e, c + Relogged(logNs, b)).Some?
    ensures Beside(Verify(e, a + b).value, Verify(e, c + Relogged(logNs, b)).value)
    ensures Verify(e, c + Relogged(logNs, b)).value.logNs == ClockAfter(logNs, Relogged(logNs, b))
    decreases |b|
  {
    hide *;
    if b == [] {
      ReloggedNothing(a, c, logNs);
    } else {
      var front, m := b[..|b| - 1], b[|b| - 1];
      assert front + [m] == b;
      VerifiedPrefix(e, a, front, m);
      ReloggedReads(e, a, c, front, logNs);
      var done := Relogged(logNs, front);
      var k := ReloggedLast(logNs, front, m);
      Associates(c, done, k);
      VerifyLast(e, a + front, m);
      VerifyLast(e, c + done, k);
      ReadsBeside(e, Verify(e, a + front).value, Verify(e, c + done).value, m, k);
      ClockLast(logNs, done, k);
    }
  }

  lemma ReloggedNothing(a: seq<Message>, c: seq<Message>, logNs: int)
    ensures a + [] == a && c + Relogged(logNs, []) == c && ClockAfter(logNs, Relogged(logNs, [])) == logNs
  {
  }

  /** The last message, relogged after everything before it. */
  lemma ReloggedLast(logNs: int, front: seq<Message>, m: Message) returns (k: Message)
    ensures k == m.(logNs := k.logNs) && k.logNs == Later(m.publishNs, ClockAfter(logNs, Relogged(logNs, front)))
    ensures Relogged(logNs, front + [m]) == Relogged(logNs, front) + [k]
  {
    hide Later, ClockAfter;
    k := m.(logNs := Later(m.publishNs, ClockAfter(logNs, Relogged(logNs, front))));
    assert (front + [m])[..|front + [m]| - 1] == front;
  }

  lemma Associates(c: seq<Message>, done: seq<Message>, k: Message)
    ensures c + (done + [k]) == c + done + [k]
  {
  }

  lemma ClockLast(logNs: int, done: seq<Message>, k: Message)
    ensures ClockAfter(logNs, done + [k]) == k.logNs
  {
  }

  lemma VerifyLast<V(!new)>(e: Episode<V>, ms: seq<Message>, m: Message)
    ensures Verify(e, ms + [m]) == match Verify(e, ms)
                                   case None => None
                                   case Some(v) => Consume(e, v, m)
  {
    hide Consume;
    assert (ms + [m])[..|ms + [m]| - 1] == ms;
  }

  lemma VerifiedPrefix<V(!new)>(e: Episode<V>, a: seq<Message>, front: seq<Message>, m: Message)
    requires Verify(e, a + (front + [m])).Some?
    ensures Verify(e, a + front).Some? && a + (front + [m]) == a + front + [m]
  {
    assert a + (front + [m]) == a + front + [m];
    VerifyLast(e, a + front, m);
  }

  lemma AsideReads<V(!new)>(e: Episode<V>, a: seq<Message>, g: Match, sequence: int)
    requires Verify(e, a).Some? && Shaped(a, Verify(e, a).value) && a != [] && Diagnostic(e, g)
    ensures var v := Verify(e, a).value;
            var m := Aside(g, v.logNs, sequence);
            && Verify(e, a + [m]).Some? && Beside(v, Verify(e, a + [m]).value)
            && Verify(e, a + [m]).value.logNs == m.logNs
  {
    var v := Verify(e, a).value;
    var m := Aside(g, v.logNs, sequence);
    VerifyLast(e, a, m);
    hide Verify, Later, Clocked, Expects, Camera;
    forall topic: Topic | topic != Rejections
      ensures Count(v.counts[Rejections := Count(v.counts, Rejections) + 1], topic) == Count(v.counts, topic)
    {
      CountOne(v.counts, Rejections, topic);
    }
    assert Rejections in Consume(e, v, m).value.counts;
  }

  /** Any beginning of a verified sequence is verified. */
  lemma {:induction false} VerifiedBeginning<V(!new)>(e: Episode<V>, a: seq<Message>, b: seq<Message>)
    requires Verify(e, a + b).Some?
    ensures Verify(e, a).Some?
    decreases |b|
  {
    hide Consume;
    if b == [] {
      assert a + b == a;
    } else {
      assert b[..|b| - 1] + [b[|b| - 1]] == b;
      VerifiedPrefix(e, a, b[..|b| - 1], b[|b| - 1]);
      VerifiedBeginning(e, a, b[..|b| - 1]);
    }
  }

  /**
   * Any accepted sequence stays accepted when a diagnostic is put in anywhere after the preface, also between a group
   * and its images or between two of them, and the log clock of what follows moves on.
   */
  lemma DiagnosticAnywhere<V(!new)>(e: Episode<V>, a: seq<Message>, b: seq<Message>, g: Match, sequence: int)
    requires Verify(e, a + b).Some? && Accepts(e, Verify(e, a + b).value) && a != [] && Diagnostic(e, g)
    ensures Verify(e, a).Some?
    ensures var m := Aside(g, Verify(e, a).value.logNs, sequence);
            var all := a + [m] + Relogged(m.logNs, b);
            Verify(e, all).Some? && Accepts(e, Verify(e, all).value)
  {
    hide *;
    VerifiedBeginning(e, a, b);
    VerifiedShape(e, a);
    AsideReads(e, a, g, sequence);
    var m := Aside(g, Verify(e, a).value.logNs, sequence);
    ReloggedReads(e, a, a + [m], b, m.logNs);
    BesideAccepts(e, Verify(e, a + b).value, Verify(e, a + [m] + Relogged(m.logNs, b)).value);
  }

  lemma BesideAccepts<V(!new)>(e: Episode<V>, v: Verifier<V>, u: Verifier<V>)
    requires Beside(v, u) && Accepts(e, v)
    ensures Accepts(e, u)
  {
    hide Count;
  }
}

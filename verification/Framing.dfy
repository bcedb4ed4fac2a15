/** Line framing over a byte stream with partial sends and chunks, followers/local.py. */
module FramingSteps {
  import opened Prelude

  newtype Byte = x: int | 0 <= x < 256

  type Bytes = seq<Byte>

  const NEWLINE: Byte := 10
  const MAX_PACKET := 4096
  const READS := 16

  datatype Fault = OversizedFrame | OversizedPartial | Disconnected

  predicate Plain(b: Bytes) {
    NEWLINE !in b
  }

  /** Position of the first newline, or the length when there is none. */
  function Find(b: Bytes): (i: nat)
    ensures i <= |b| && Plain(b[..i]) && (i < |b| ==> b[i] == NEWLINE)
    ensures i == |b| <==> Plain(b)
    decreases |b|
  {
    if b == [] then 0
    else if b[0] == NEWLINE then 0
    else
      var i := Find(b[1..]) + 1;
      assert b[..i] == [b[0]] + b[1..][..i - 1];
      i
  }

  /** The complete lines of a buffer, without their newlines. */
  function Lines(b: Bytes): seq<Bytes>
    decreases |b|
  {
    if Plain(b) then [] else [b[..Find(b)]] + Lines(b[Find(b) + 1..])
  }

  /** What follows the last newline. */
  function Tail(b: Bytes): Bytes
    decreases |b|
  {
    if Plain(b) then b else Tail(b[Find(b) + 1..])
  }

  predicate AllWithin(lines: seq<Bytes>) {
    forall i :: 0 <= i < |lines| ==> |lines[i]| <= MAX_PACKET
  }

  /** One read appended to the retained tail: its complete lines, and the new tail. */
  function Feed(pending: Bytes, data: Bytes): Result<(seq<Bytes>, Bytes), Fault> {
    if data == [] then Err(Disconnected)
    else
      var all := pending + data;
      if !AllWithin(Lines(all)) then Err(OversizedFrame)
      else if |Tail(all)| > MAX_PACKET then Err(OversizedPartial)
      else Ok((Lines(all), Tail(all)))
  }

  /** Reads until the stream blocks or the budget is spent. */
  function FeedAll(pending: Bytes, chunks: seq<Bytes>): Result<(seq<Bytes>, Bytes), Fault>
    decreases |chunks|
  {
    if chunks == [] then Ok(([], pending))
    else
      var fed := Feed(pending, chunks[0]);
      if fed.Err? then Err(fed.error)
      else
        var rest := FeedAll(fed.value.1, chunks[1..]);
        if rest.Err? then rest else Ok((fed.value.0 + rest.value.0, rest.value.1))
  }

  function Budget(chunks: seq<Bytes>): seq<Bytes> {
    if |chunks| > READS then chunks[..READS] else chunks
  }

  /** Packets on the wire: each followed by a newline. */
  function Encode(packets: seq<Bytes>): Bytes
    decreases |packets|
  {
    if packets == [] then [] else packets[0] + [NEWLINE] + Encode(packets[1..])
  }

  predicate Publishable(packet: Bytes) {
    Plain(packet) && |packet| <= MAX_PACKET
  }

  /** A publisher, the bytes in flight, and a receiver, with the packets each has handled. */
  datatype Link = Link(outgoing: Bytes, wire: Bytes, pending: Bytes, published: seq<Bytes>, delivered: seq<Bytes>)

  const CONNECTED := Link([], [], [], [], [])

  /** A publication that the socket takes in part or not at all, or a reception in chunks. */
  datatype Step = Publish(packet: Bytes, sent: nat) | Receive(sizes: seq<nat>)

  /** Only when nothing is left over is another packet encoded. */
  function Published(l: Link, packet: Bytes, sent: nat): Link {
    var queued :=
      if l.outgoing == [] then l.(outgoing := packet + [NEWLINE], published := l.published + [packet]) else l;
    var n := if sent > |queued.outgoing| then |queued.outgoing| else sent;
    queued.(outgoing := queued.outgoing[n..], wire := queued.wire + queued.outgoing[..n])
  }

  /** The chunks a receiver reads: nonempty, within the read size, while bytes are available. */
  function Chunks(wire: Bytes, sizes: seq<nat>): seq<Bytes>
    decreases |sizes|
  {
    if sizes == [] || wire == [] then []
    else
      var n := MaxInt(1, MinInt(sizes[0], MinInt(|wire|, MAX_PACKET)));
      [wire[..n]] + Chunks(wire[n..], sizes[1..])
  }

  function Joined(chunks: seq<Bytes>): Bytes
    decreases |chunks|
  {
    if chunks == [] then [] else chunks[0] + Joined(chunks[1..])
  }

  lemma {:induction false} ChunksOfWire(wire: Bytes, sizes: seq<nat>)
    ensures |Joined(Chunks(wire, sizes))| <= |wire|
    ensures wire[..|Joined(Chunks(wire, sizes))|] == Joined(Chunks(wire, sizes))
    ensures |Chunks(wire, sizes)| <= |sizes|
    decreases |sizes|
  {
    if sizes != [] && wire != [] {
      var n := MaxInt(1, MinInt(sizes[0], MinInt(|wire|, MAX_PACKET)));
      ChunksOfWire(wire[n..], sizes[1..]);
      var rest := Joined(Chunks(wire[n..], sizes[1..]));
      var chunks := Chunks(wire, sizes);
      assert chunks[0] == wire[..n] && chunks[1..] == Chunks(wire[n..], sizes[1..]);
      assert wire[..n + |rest|] == wire[..n] + wire[n..][..|rest|];
    }
  }

  /** One reception, or the fault that ends the link. */
  function Received(l: Link, sizes: seq<nat>): Result<Link, Fault> {
    var chunks := Chunks(l.wire, if |sizes| > READS then sizes[..READS] else sizes);
    var fed := FeedAll(l.pending, chunks);
    ChunksOfWire(l.wire, if |sizes| > READS then sizes[..READS] else sizes);
    if fed.Err? then Err(fed.error)
    else Ok(l.(wire := l.wire[|Joined(chunks)|..], pending := fed.value.1, delivered := l.delivered + fed.value.0))
  }

  predicate Enabled(step: Step) {
    step.Publish? ==> Publishable(step.packet)
  }

  function Run(l: Link, steps: seq<Step>): Result<Link, Fault>
    decreases |steps|
  {
    if steps == [] then Ok(l)
    else match steps[0]
      case Publish(packet, sent) => Run(Published(l, packet, sent), steps[1..])
      case Receive(sizes) =>
        var received := Received(l, sizes);
        if received.Err? then Err(received.error) else Run(received.value, steps[1..])
  }

  // Splitting inverts encoding.

  ghost predicate AllPlain(packets: seq<Bytes>) {
    forall i :: 0 <= i < |packets| ==> Plain(packets[i])
  }

  lemma {:induction false} EncodeAppend(a: seq<Bytes>, b: seq<Bytes>)
    ensures Encode(a + b) == Encode(a) + Encode(b)
    decreases |a|
  {
    if a == [] {
      assert a + b == b;
    } else {
      assert (a + b)[1..] == a[1..] + b;
      EncodeAppend(a[1..], b);
    }
  }

  /** A buffer is its lines, encoded, and its tail. */
  lemma {:induction false} SplitEncodes(b: Bytes)
    ensures Encode(Lines(b)) + Tail(b) == b
    ensures AllPlain(Lines(b)) && Plain(Tail(b))
    decreases |b|
  {
    hide *;
    if Plain(b) {
      PlainSplits(b);
    } else {
      var line, rest := FirstLine(b);
      SplitEncodes(rest);
      EncodeFirst(line, Lines(rest), Tail(rest), rest);
      PlainFirst(line, Lines(rest));
    }
  }

  lemma PlainSplits(b: Bytes)
    requires Plain(b)
    ensures Lines(b) == [] && Tail(b) == b && Encode([]) + b == b && AllPlain([])
  {
  }

  /** A buffer with a newline splits into its first line and the rest. */
  lemma FirstLine(b: Bytes) returns (line: Bytes, rest: Bytes)
    requires !Plain(b)
    ensures b == line + [NEWLINE] + rest && Plain(line) && |rest| < |b|
    ensures Lines(b) == [line] + Lines(rest) && Tail(b) == Tail(rest)
  {
    var i := Find(b);
    line, rest := b[..i], b[i + 1..];
    hide Find;
    assert b[i] == NEWLINE;
  }

  lemma PlainFirst(line: Bytes, lines: seq<Bytes>)
    requires Plain(line) && AllPlain(lines)
    ensures AllPlain([line] + lines)
  {
    hide Plain;
  }

  lemma EncodeFirst(line: Bytes, lines: seq<Bytes>, tail: Bytes, rest: Bytes)
    requires Encode(lines) + tail == rest
    ensures Encode([line] + lines) + tail == line + [NEWLINE] + rest
  {
    assert ([line] + lines)[0] == line && ([line] + lines)[1..] == lines;
    var a, b := line + [NEWLINE], Encode(lines);
    assert a + b + tail == a + (b + tail);
  }

  /** The first newline after a plain prefix. */
  lemma FindPlain(p: Bytes, rest: Bytes)
    requires Plain(p)
    ensures Find(p + [NEWLINE] + rest) == |p|
  {
    var b := p + [NEWLINE] + rest;
    assert b[|p|] == NEWLINE && b[..|p|] == p;
    var before := b[..Find(b)];
    assert forall k :: 0 <= k < |before| ==> before[k] == b[k];
  }

  /** An encoding that begins with some lines begins with those packets. */
  lemma {:induction false} PrefixDecodes(lines: seq<Bytes>, rest: Bytes, packets: seq<Bytes>)
    requires AllPlain(lines) && AllPlain(packets) && Encode(lines) + rest == Encode(packets)
    ensures |lines| <= |packets| && lines == packets[..|lines|] && rest == Encode(packets[|lines|..])
    decreases |lines|
  {
    if lines == [] {
      assert Encode(lines) + rest == rest && packets[0..] == packets;
    } else if packets != [] {
      var d, p := lines[0], packets[0];
      var more := Encode(lines[1..]) + rest;
      assert Encode(packets) == d + [NEWLINE] + more;
      FindPlain(d, more);
      FindPlain(p, Encode(packets[1..]));
      assert |d| == |p|;
      assert d == Encode(packets)[..|d|] && p == Encode(packets)[..|p|];
      assert more == Encode(packets)[|d| + 1..] && Encode(packets[1..]) == Encode(packets)[|p| + 1..];
      PrefixDecodes(lines[1..], rest, packets[1..]);
      assert packets[..|lines|] == [p] + packets[1..][..|lines| - 1];
      assert packets[|lines|..] == packets[1..][|lines| - 1..];
    }
  }

  // The link's invariant.

  ghost predicate AllPublishable(packets: seq<Bytes>) {
    forall i :: 0 <= i < |packets| ==> Publishable(packets[i])
  }

  /** Delivered packets, then bytes not yet delivered, are the published packets. */
  ghost predicate Continues(delivered: seq<Bytes>, rest: Bytes, published: seq<Bytes>) {
    AllPublishable(published) && AllPlain(delivered) && Encode(delivered) + rest == Encode(published)
  }

  /** Every published byte is delivered, retained, in flight or still to be sent, in this order. */
  ghost predicate Conserved(l: Link) {
    Plain(l.pending) && Continues(l.delivered, l.pending + (l.wire + l.outgoing), l.published)
  }

  /** Encoding a packet extends both sides by its line. */
  lemma QueueKeeps(l: Link, packet: Bytes)
    requires Conserved(l) && Publishable(packet) && l.outgoing == []
    ensures Conserved(l.(outgoing := packet + [NEWLINE], published := l.published + [packet]))
  {
    EncodeAppend(l.published, [packet]);
    assert Encode([packet]) == packet + [NEWLINE] by {
      assert [packet][1..] == [];
      assert packet + [NEWLINE] + [] == packet + [NEWLINE];
    }
    hide Encode;
    assert l.wire + [] == l.wire;
    Extended(Encode(l.delivered), l.pending, l.wire, packet + [NEWLINE]);
  }

  lemma Extended(a: Bytes, b: Bytes, c: Bytes, d: Bytes)
    ensures a + (b + (c + d)) == a + (b + c) + d
  {
  }

  /** Sending moves a prefix of the outgoing bytes onto the wire. */
  lemma SendKeeps(l: Link, n: nat)
    requires Conserved(l) && n <= |l.outgoing|
    ensures Conserved(l.(outgoing := l.outgoing[n..], wire := l.wire + l.outgoing[..n]))
  {
    hide Continues;
    assert l.wire + l.outgoing == (l.wire + l.outgoing[..n]) + l.outgoing[n..];
  }

  lemma PublishKeeps(l: Link, packet: Bytes, sent: nat)
    requires Conserved(l) && Publishable(packet)
    ensures Conserved(Published(l, packet, sent))
  {
    hide Conserved;
    var queued := l;
    if l.outgoing == [] {
      QueueKeeps(l, packet);
      queued := l.(outgoing := packet + [NEWLINE], published := l.published + [packet]);
    }
    SendKeeps(queued, if sent > |queued.outgoing| then |queued.outgoing| else sent);
  }

  /** Splitting what was read moves its complete lines to the delivered packets. */
  lemma SplitContinues(delivered: seq<Bytes>, all: Bytes, rest: Bytes, published: seq<Bytes>)
    requires Continues(delivered, all + rest, published)
    ensures Continues(delivered + Lines(all), Tail(all) + rest, published) && Plain(Tail(all))
  {
    SplitEncodes(all);
    EncodeAppend(delivered, Lines(all));
    Regroup(Encode(delivered), Encode(Lines(all)), Tail(all), rest);
    hide Encode, Lines, Tail;
  }

  lemma Regroup(a: Bytes, b: Bytes, c: Bytes, d: Bytes)
    ensures a + ((b + c) + d) == (a + b) + (c + d)
  {
  }

  /** Delivered lines are whole packets, and a plain remainder is shorter than the next one. */
  lemma ContinuesWithin(delivered: seq<Bytes>, tail: Bytes, rest: Bytes, published: seq<Bytes>)
    requires Continues(delivered, tail + rest, published) && Plain(tail)
    ensures delivered <= published && |tail| <= MAX_PACKET && AllWithin(delivered)
    ensures tail + rest == Encode(published[|delivered|..])
  {
    assert AllPlain(published);
    PrefixDecodes(delivered, tail + rest, published);
    var left := published[|delivered|..];
    if left != [] {
      assert left[0] == published[|delivered|] && Publishable(published[|delivered|]);
      TailShorter(tail, rest, left);
    }
    forall i | 0 <= i < |delivered|
      ensures |delivered[i]| <= MAX_PACKET
    {
      assert delivered[i] == published[i] && Publishable(published[i]);
    }
  }

  lemma TailShorter(tail: Bytes, rest: Bytes, left: seq<Bytes>)
    requires Plain(tail) && left != [] && tail + rest == Encode(left)
    ensures |tail| <= |left[0]|
  {
    var k := |left[0]|;
    assert Encode(left)[k] == NEWLINE;
    assert forall i :: 0 <= i < |tail| ==> (tail + rest)[i] == tail[i];
  }

  lemma LinesWithin(delivered: seq<Bytes>, lines: seq<Bytes>)
    requires AllWithin(delivered + lines)
    ensures AllWithin(lines)
  {
    forall i | 0 <= i < |lines|
      ensures |lines[i]| <= MAX_PACKET
    {
      assert (delivered + lines)[|delivered| + i] == lines[i];
    }
  }

  /** Feeding chunks of a conserved stream never faults and stays conserved. */
  lemma {:induction false} FeedKeeps(
    delivered: seq<Bytes>, pending: Bytes, chunks: seq<Bytes>, rest: Bytes, published: seq<Bytes>
  )
    requires Plain(pending) && Continues(delivered, pending + (Joined(chunks) + rest), published)
    requires forall i :: 0 <= i < |chunks| ==> chunks[i] != []
    ensures FeedAll(pending, chunks).Ok?
    ensures var (lines, tail) := FeedAll(pending, chunks).value;
            Plain(tail) && Continues(delivered + lines, tail + rest, published)
    decreases |chunks|
  {
    hide Encode, Lines, Tail, Continues, AllWithin;
    if chunks == [] {
      assert delivered + [] == delivered && [] + rest == rest;
    } else {
      var later := Joined(chunks[1..]) + rest;
      var all := pending + chunks[0];
      Reread(pending, chunks[0], Joined(chunks[1..]), rest);
      SplitContinues(delivered, all, later, published);
      ContinuesWithin(delivered + Lines(all), Tail(all), later, published);
      LinesWithin(delivered, Lines(all));
      FeedKeeps(delivered + Lines(all), Tail(all), chunks[1..], rest, published);
      var (lines, tail) := FeedAll(Tail(all), chunks[1..]).value;
      assert delivered + (Lines(all) + lines) == delivered + Lines(all) + lines;
    }
  }

  lemma Reread(a: Bytes, b: Bytes, c: Bytes, d: Bytes)
    ensures a + ((b + c) + d) == (a + b) + (c + d)
  {
  }

  lemma {:induction false} ChunksNonempty(wire: Bytes, sizes: seq<nat>)
    ensures forall i :: 0 <= i < |Chunks(wire, sizes)| ==> Chunks(wire, sizes)[i] != []
    decreases |sizes|
  {
    if sizes != [] && wire != [] {
      var n := MaxInt(1, MinInt(sizes[0], MinInt(|wire|, MAX_PACKET)));
      ChunksNonempty(wire[n..], sizes[1..]);
    }
  }

  lemma ReceiveKeeps(l: Link, sizes: seq<nat>)
    requires Conserved(l)
    ensures Received(l, sizes).Ok? && Conserved(Received(l, sizes).value)
  {
    var budget := if |sizes| > READS then sizes[..READS] else sizes;
    var chunks := Chunks(l.wire, budget);
    ChunksOfWire(l.wire, budget);
    ChunksNonempty(l.wire, budget);
    hide Continues, FeedAll, Chunks;
    var n := |Joined(chunks)|;
    assert l.wire + l.outgoing == Joined(chunks) + (l.wire[n..] + l.outgoing);
    FeedKeeps(l.delivered, l.pending, chunks, l.wire[n..] + l.outgoing, l.published);
  }

  lemma {:induction false} RunKeeps(l: Link, steps: seq<Step>)
    requires Conserved(l) && forall i :: 0 <= i < |steps| ==> Enabled(steps[i])
    ensures Run(l, steps).Ok? && Conserved(Run(l, steps).value)
    decreases |steps|
  {
    hide Conserved, Received, Published;
    if steps != [] {
      assert Enabled(steps[0]);
      match steps[0]
      case Publish(packet, sent) =>
        PublishKeeps(l, packet, sent);
        RunKeeps(Published(l, packet, sent), steps[1..]);
      case Receive(sizes) =>
        ReceiveKeeps(l, sizes);
        RunKeeps(Received(l, sizes).value, steps[1..]);
    }
  }

  /** No encoding of packets is free of newlines. */
  lemma EncodingNotPlain(tail: Bytes, left: seq<Bytes>)
    requires Plain(tail) && tail == Encode(left)
    ensures left == [] && tail == []
  {
    if left != [] {
      TailShorter(tail, [], left);
    }
  }

  /**
   * For any pattern of partial sends and chunk sizes: no reception faults, the lines delivered are, in order and
   * unsplit, a prefix of the packets published, the retained tail stays within the packet bound, and nothing is
   * missing once nothing is in flight.
   */
  lemma DeliversPublished(steps: seq<Step>)
    requires forall i :: 0 <= i < |steps| ==> Enabled(steps[i])
    ensures Run(CONNECTED, steps).Ok?
    ensures var l := Run(CONNECTED, steps).value;
            && l.delivered <= l.published && |l.pending| <= MAX_PACKET
            && (l.wire == [] && l.outgoing == [] ==> l.delivered == l.published && l.pending == [])
  {
    RunKeeps(CONNECTED, steps);
    var l := Run(CONNECTED, steps).value;
    hide Run, Continues;
    ContinuesWithin(l.delivered, l.pending, l.wire + l.outgoing, l.published);
    if l.wire == [] && l.outgoing == [] {
      assert l.pending + ([] + []) == l.pending;
      EncodingNotPlain(l.pending, l.published[|l.delivered|..]);
    }
  }
}

/** The receiver and the publisher as they run, each over its own buffer. */
module Framing {
  import opened Prelude
  import opened Steps = FramingSteps

  class Frames {
    var pending: Bytes

    constructor ()
      ensures pending == []
    {
      pending := [];
    }

    /** Split off complete lines until none is left or one exceeds the bound. */
    method Split() returns (lines: seq<Bytes>, oversized: bool)
      modifies this
      ensures oversized <==> !AllWithin(Lines(old(pending)))
      ensures !oversized ==> lines == Lines(old(pending)) && pending == Tail(old(pending))
    {
      lines := [];
      while !Plain(pending)
        invariant lines + Lines(pending) == Lines(old(pending)) && Tail(pending) == Tail(old(pending))
        invariant AllWithin(lines)
        decreases |pending|
      {
        var i := Find(pending);
        var line := pending[..i];
        ghost var rest := Lines(pending[i + 1..]);
        assert lines + ([line] + rest) == lines + [line] + rest;
        if |line| > MAX_PACKET {
          assert Lines(old(pending))[|lines|] == line;
          return [], true;
        }
        pending := pending[i + 1..];
        lines := lines + [line];
      }
      assert lines + [] == lines;
      oversized := false;
    }

    /** Drain up to the read budget and return the complete lines; a fault abandons the lines of this call. */
    method Receive(chunks: seq<Bytes>) returns (r: Result<seq<Bytes>, Fault>)
      modifies this
      ensures match FeedAll(old(pending), Budget(chunks))
              case Err(e) => r == Err(e)
              case Ok(fed) => r == Ok(fed.0) && pending == fed.1
    {
      hide Lines, Tail, AllWithin;
      var budget := Budget(chunks);
      ghost var expected := FeedAll(pending, budget);
      var result: seq<Bytes> := [];
      for k := 0 to |budget|
        invariant expected.Err? ==> FeedAll(pending, budget[k..]) == expected
        invariant expected.Ok? ==> FeedAll(pending, budget[k..]).Ok?
                                   && result + FeedAll(pending, budget[k..]).value.0 == expected.value.0
                                   && FeedAll(pending, budget[k..]).value.1 == expected.value.1
      {
        assert budget[k..][0] == budget[k] && budget[k..][1..] == budget[k + 1..];
        if budget[k] == [] {
          return Err(Disconnected);
        }
        pending := pending + budget[k];
        var lines, oversized := Split();
        if oversized {
          return Err(OversizedFrame);
        }
        if |pending| > MAX_PACKET {
          return Err(OversizedPartial);
        }
        ghost var rest := FeedAll(pending, budget[k + 1..]);
        if rest.Ok? {
          assert result + (lines + rest.value.0) == result + lines + rest.value.0;
        }
        result := result + lines;
      }
      assert budget[|budget|..] == [] && result + [] == result;
      r := Ok(result);
    }
  }

  class Publisher {
    var outgoing: Bytes
    ghost var published: seq<Bytes>

    constructor ()
      ensures outgoing == [] && published == []
    {
      outgoing, published := [], [];
    }

    /** Encode one packet when the last one is gone, then hand over what the socket takes. */
    method Publish(packet: Bytes, sent: nat) returns (taken: Bytes)
      modifies this
      ensures forall wire, pending, delivered ::
                Published(Link(old(outgoing), wire, pending, old(published), delivered), packet, sent)
                == Link(outgoing, wire + taken, pending, published, delivered)
    {
      if outgoing == [] {
        outgoing, published := packet + [NEWLINE], published + [packet];
      }
      var n := if sent > |outgoing| then |outgoing| else sent;
      taken := outgoing[..n];
      outgoing := outgoing[n..];
    }
  }
}

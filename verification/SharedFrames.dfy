/** One camera's shared-memory ring, shared_frames.py, and the bounded queue of tickets beside it, rig.py. */
module SharedSteps {
  import opened Prelude

  /** A frame as the ring sees it: a header, and the words of both images. */
  datatype Frame = Frame(header: int, pixels: seq<int>)

  datatype Ticketed = Ticketed(header: int, ticket: nat)

  /** Slots, and words per slot; the ticket queue has the same capacity as the ring. */
  datatype Config = Config(capacity: nat, width: nat) {
    predicate Valid() {
      0 < capacity
    }
  }

  datatype Producer =
    | Ready
    | Copying(frame: Frame, ticket: nat, done: nat)
    | Putting(item: Ticketed)
    | Exhausted
    | QueueOverflow

  datatype Consumer =
    | Waiting
    | Reading(item: Ticketed, copied: seq<int>)
    | Releasing
    | OutOfOrder
    | OverReleased

  /** Everything two processes share or own, with the frames packed and unpacked so far. */
  datatype State = State(
    memory: seq<seq<int>>,
    permits: int,
    queue: seq<Ticketed>,
    writeIndex: nat,
    readIndex: nat,
    producer: Producer,
    consumer: Consumer,
    packed: seq<Frame>,
    unpacked: seq<Frame>
  )

  /** One atomic action of either process. */
  datatype Step =
    | Acquire(frame: Frame)
    | CopyIn
    | Publish
    | Put
    | Get
    | CopyOut
    | Deliver
    | Release

  function Initial(config: Config, memory: seq<seq<int>>): State {
    State(memory, config.capacity, [], 0, 0, Ready, Waiting, [], [])
  }

  function Slot(config: Config, ticket: nat): nat
    requires config.Valid()
  {
    ticket % config.capacity
  }

  ghost predicate Shaped(config: Config, memory: seq<seq<int>>) {
    |memory| == config.capacity && forall i :: 0 <= i < |memory| ==> |memory[i]| == config.width
  }

  /** A step that is not enabled, or whose process has failed, changes nothing. */
  function Next(config: Config, s: State, step: Step): State
    requires config.Valid() && Shaped(config, s.memory)
  {
    match step
    case Acquire(frame) =>
      if !s.producer.Ready? || |frame.pixels| != config.width then s
      else if s.permits == 0 then s.(producer := Exhausted)
      else s.(permits := s.permits - 1, writeIndex := s.writeIndex + 1, producer := Copying(frame, s.writeIndex, 0),
              packed := s.packed + [frame])
    case CopyIn =>
      if !s.producer.Copying? || s.producer.done >= config.width || |s.producer.frame.pixels| != config.width then s
      else
        var p, i := s.producer, Slot(config, s.producer.ticket);
        s.(memory := s.memory[i := s.memory[i][p.done := p.frame.pixels[p.done]]], producer := p.(done := p.done + 1))
    case Publish =>
      if !s.producer.Copying? || s.producer.done < config.width then s
      else s.(producer := Putting(Ticketed(s.producer.frame.header, s.producer.ticket)))
    case Put =>
      if !s.producer.Putting? then s
      else if |s.queue| >= config.capacity then s.(producer := QueueOverflow)
      else s.(queue := s.queue + [s.producer.item], producer := Ready)
    case Get =>
      if !s.consumer.Waiting? || s.queue == [] then s
      else if s.queue[0].ticket != s.readIndex then s.(queue := s.queue[1..], consumer := OutOfOrder)
      else s.(queue := s.queue[1..], consumer := Reading(s.queue[0], []))
    case CopyOut =>
      if !s.consumer.Reading? || |s.consumer.copied| >= config.width then s
      else
        var c := s.consumer;
        s.(consumer := c.(copied := c.copied + [s.memory[Slot(config, c.item.ticket)][|c.copied|]]))
    case Deliver =>
      if !s.consumer.Reading? || |s.consumer.copied| < config.width then s
      else
        s.(readIndex := s.readIndex + 1, consumer := Releasing,
           unpacked := s.unpacked + [Frame(s.consumer.item.header, s.consumer.copied)])
    case Release =>
      if !s.consumer.Releasing? then s
      else if s.permits >= config.capacity then s.(consumer := OverReleased)
      else s.(permits := s.permits + 1, consumer := Waiting)
  }

  lemma NextShaped(config: Config, s: State, step: Step)
    requires config.Valid() && Shaped(config, s.memory)
    ensures Shaped(config, Next(config, s, step).memory)
  {
  }

  /** Any interleaving of the two processes. */
  function Run(config: Config, s: State, steps: seq<Step>): State
    requires config.Valid() && Shaped(config, s.memory)
    decreases |steps|
  {
    if steps == [] then s
    else
      NextShaped(config, s, steps[0]);
      Run(config, Next(config, s, steps[0]), steps[1..])
  }

  // The invariant.

  /** Tickets whose slot is held by the producer, and whether a permit is still owed for the last read one. */
  function Held(s: State): nat {
    if s.producer.Copying? || s.producer.Putting? then 1 else 0
  }

  function Taken(s: State): nat {
    if s.consumer.Reading? then 1 else 0
  }

  function Owed(s: State): nat {
    if s.consumer.Releasing? then 1 else 0
  }

  /** Counting: tickets, permits and the queue. */
  ghost predicate Counted(config: Config, s: State) {
    && |s.packed| == s.writeIndex && s.readIndex + Taken(s) + |s.queue| + Held(s) == s.writeIndex
    && s.permits + (s.writeIndex - s.readIndex) + Owed(s) == config.capacity && s.permits >= 0
    && !s.producer.QueueOverflow? && !s.consumer.OutOfOrder? && !s.consumer.OverReleased?
    && (forall t :: 0 <= t < |s.packed| ==> |s.packed[t].pixels| == config.width)
    && s.unpacked == s.packed[..s.readIndex]
  }

  /** The queue holds the headers and tickets of consecutive packed frames. */
  ghost predicate Queued(s: State) {
    && s.readIndex + Taken(s) + |s.queue| <= |s.packed|
    && forall i :: 0 <= i < |s.queue| ==>
         var t := s.readIndex + Taken(s) + i;
         s.queue[i] == Ticketed(s.packed[t].header, t)
  }

  /** Where each process is in its frame. */
  ghost predicate Placed(config: Config, s: State) {
    && (s.producer.Copying? ==>
          && s.writeIndex == s.producer.ticket + 1 && s.writeIndex <= |s.packed|
          && s.producer.frame == s.packed[s.producer.ticket] && s.producer.done <= config.width)
    && (s.producer.Putting? ==>
          && s.writeIndex == s.producer.item.ticket + 1 && s.writeIndex <= |s.packed|
          && s.producer.item.header == s.packed[s.producer.item.ticket].header)
    && (s.consumer.Reading? ==>
          && s.readIndex < |s.packed| && |s.packed[s.readIndex].pixels| == config.width
          && s.consumer.item == Ticketed(s.packed[s.readIndex].header, s.readIndex)
          && |s.consumer.copied| <= config.width
          && s.consumer.copied == s.packed[s.readIndex].pixels[..|s.consumer.copied|])
  }

  /** A ticket's slot holds the first `done` words of its frame. */
  ghost predicate Holds(config: Config, s: State, t: nat, done: nat)
    requires config.Valid()
  {
    && Slot(config, t) < |s.memory| && t < |s.packed|
    && done <= |s.memory[Slot(config, t)]| && done <= |s.packed[t].pixels|
    && s.memory[Slot(config, t)][..done] == s.packed[t].pixels[..done]
  }

  /** Every unread ticket's slot holds its whole frame; the one being written, what has been copied. */
  ghost predicate Stored(config: Config, s: State)
    requires config.Valid()
  {
    && (forall t :: s.readIndex <= t < s.writeIndex && !(s.producer.Copying? && t == s.producer.ticket) ==>
          Holds(config, s, t, config.width))
    && (s.producer.Copying? ==> Holds(config, s, s.producer.ticket, s.producer.done))
  }

  ghost predicate Invariant(config: Config, s: State)
    requires config.Valid()
  {
    Shaped(config, s.memory) && Counted(config, s) && Queued(s) && Placed(config, s) && Stored(config, s)
  }

  /** Different outstanding tickets use different slots. */
  lemma DistinctSlots(config: Config, t: nat, u: nat)
    requires config.Valid() && t < u < t + config.capacity
    ensures Slot(config, t) != Slot(config, u)
  {
    if t % config.capacity == u % config.capacity {
      var n := config.capacity;
      assert t == n * (t / n) + t % n && u == n * (u / n) + u % n;
      assert u - t == n * (u / n - t / n);
      if u / n - t / n >= 1 {
        MultipleAtLeast(n, u / n - t / n);
      } else {
        MultipleAtMost(n, u / n - t / n);
      }
    }
  }

  lemma MultipleAtLeast(n: int, k: int)
    requires n > 0 && k >= 1
    ensures n * k >= n
  {
  }

  lemma MultipleAtMost(n: int, k: int)
    requires n > 0 && k <= 0
    ensures n * k <= 0
  {
  }

  lemma AcquireKeeps(config: Config, s: State, frame: Frame)
    requires config.Valid() && Invariant(config, s)
    ensures Invariant(config, Next(config, s, Acquire(frame)))
  {
    hide Slot;
    var n := Next(config, s, Acquire(frame));
    if s.producer.Ready? && |frame.pixels| == config.width && s.permits > 0 {
      forall t | s.readIndex <= t < s.writeIndex
        ensures Holds(config, n, t, config.width)
      {
        assert Holds(config, s, t, config.width);
        assert t < |s.packed| && n.packed[t] == s.packed[t];
      }
      assert n.unpacked == n.packed[..n.readIndex];
      SlotBound(config, s.writeIndex);
      assert Holds(config, n, s.writeIndex, 0);
    } else {
      HoldsFrame(config, s, n);
    }
  }

  lemma SlotBound(config: Config, t: nat)
    requires config.Valid()
    ensures Slot(config, t) < config.capacity
  {
  }

  lemma CopyInKeeps(config: Config, s: State)
    requires config.Valid() && Invariant(config, s)
    ensures Invariant(config, Next(config, s, CopyIn))
  {
    if s.producer.Copying? && s.producer.done < config.width {
      var p, n := s.producer, Next(config, s, CopyIn);
      hide Slot;
      SlotBound(config, p.ticket);
      forall t | s.readIndex <= t < s.writeIndex && t != p.ticket
        ensures Holds(config, n, t, config.width)
      {
        assert Holds(config, s, t, config.width);
        DistinctSlots(config, t, p.ticket);
      }
      CopiedOne(config, s);
    }
  }

  lemma CopiedOne(config: Config, s: State)
    requires config.Valid() && Invariant(config, s) && s.producer.Copying? && s.producer.done < config.width
    ensures Holds(config, Next(config, s, CopyIn), s.producer.ticket, s.producer.done + 1)
  {
    hide Slot;
    SlotBound(config, s.producer.ticket);
    var p, n := s.producer, Next(config, s, CopyIn);
    var i := Slot(config, p.ticket);
    assert n.memory[i][..p.done] == s.memory[i][..p.done];
    assert n.memory[i][..p.done + 1] == n.memory[i][..p.done] + [p.frame.pixels[p.done]];
    assert p.frame.pixels[..p.done + 1] == p.frame.pixels[..p.done] + [p.frame.pixels[p.done]];
  }

  /** Steps that leave the memory and the frames alone keep what the slots hold. */
  lemma HoldsFrame(config: Config, s: State, n: State)
    requires config.Valid() && n.memory == s.memory && n.packed == s.packed
    ensures forall t, done :: Holds(config, s, t, done) ==> Holds(config, n, t, done)
  {
  }

  lemma PublishKeeps(config: Config, s: State)
    requires config.Valid() && Invariant(config, s)
    ensures Invariant(config, Next(config, s, Publish))
  {
    HoldsFrame(config, s, Next(config, s, Publish));
    hide Slot, Holds;
  }

  lemma PutKeeps(config: Config, s: State)
    requires config.Valid() && Invariant(config, s)
    ensures Invariant(config, Next(config, s, Put))
  {
    HoldsFrame(config, s, Next(config, s, Put));
    hide Slot, Holds;
  }

  lemma GetKeeps(config: Config, s: State)
    requires config.Valid() && Invariant(config, s)
    ensures Invariant(config, Next(config, s, Get))
  {
    HoldsFrame(config, s, Next(config, s, Get));
    hide Slot, Holds;
    if s.consumer.Waiting? && s.queue != [] {
      assert s.queue[0] == Ticketed(s.packed[s.readIndex].header, s.readIndex);
      assert s.queue[1..] == Next(config, s, Get).queue;
    }
  }

  lemma CopyOutKeeps(config: Config, s: State)
    requires config.Valid() && Invariant(config, s)
    ensures Invariant(config, Next(config, s, CopyOut))
  {
    HoldsFrame(config, s, Next(config, s, CopyOut));
    if s.consumer.Reading? && |s.consumer.copied| < config.width {
      ReadsFrame(config, s);
    }
    hide Slot, Holds;
  }

  /** The word the consumer copies next is the packed frame's. */
  lemma ReadsFrame(config: Config, s: State)
    requires config.Valid() && Invariant(config, s) && s.consumer.Reading? && |s.consumer.copied| < config.width
    ensures var c := s.consumer;
            var i, k := Slot(config, c.item.ticket), |c.copied|;
            && i < |s.memory| && k < |s.memory[i]|
            && c.copied + [s.memory[i][k]] == s.packed[s.readIndex].pixels[..k + 1]
  {
    hide Slot;
    var i, k := Slot(config, s.readIndex), |s.consumer.copied|;
    assert Holds(config, s, s.readIndex, config.width);
    assert s.memory[i][..config.width][k] == s.packed[s.readIndex].pixels[..config.width][k];
  }

  lemma DeliverKeeps(config: Config, s: State)
    requires config.Valid() && Invariant(config, s)
    ensures Invariant(config, Next(config, s, Deliver))
  {
    HoldsFrame(config, s, Next(config, s, Deliver));
    hide Slot, Holds;
    if s.consumer.Reading? && |s.consumer.copied| >= config.width {
      var f := s.packed[s.readIndex];
      assert f.pixels[..config.width] == f.pixels;
      assert s.packed[..s.readIndex + 1] == s.packed[..s.readIndex] + [f];
    }
  }

  lemma ReleaseKeeps(config: Config, s: State)
    requires config.Valid() && Invariant(config, s)
    ensures Invariant(config, Next(config, s, Release))
  {
    HoldsFrame(config, s, Next(config, s, Release));
    hide Slot, Holds;
  }

  lemma NextKeeps(config: Config, s: State, step: Step)
    requires config.Valid() && Invariant(config, s)
    ensures Invariant(config, Next(config, s, step))
  {
    hide Invariant, Next;
    match step
    case Acquire(frame) => AcquireKeeps(config, s, frame);
    case CopyIn => CopyInKeeps(config, s);
    case Publish => PublishKeeps(config, s);
    case Put => PutKeeps(config, s);
    case Get => GetKeeps(config, s);
    case CopyOut => CopyOutKeeps(config, s);
    case Deliver => DeliverKeeps(config, s);
    case Release => ReleaseKeeps(config, s);
  }

  lemma {:induction false} RunKeeps(config: Config, s: State, steps: seq<Step>)
    requires config.Valid() && Invariant(config, s)
    ensures Invariant(config, Run(config, s, steps))
    decreases |steps|
  {
    if steps != [] {
      NextKeeps(config, s, steps[0]);
      hide Next;
      RunKeeps(config, Next(config, s, steps[0]), steps[1..]);
    }
  }

  lemma InitialHolds(config: Config, memory: seq<seq<int>>)
    requires config.Valid() && Shaped(config, memory)
    ensures Invariant(config, Initial(config, memory))
  {
  }

  // What every interleaving guarantees.

  /**
   * Whatever the interleaving of word copies, queue operations and releases: what has been unpacked is a prefix of
   * what was packed, pixel for pixel and in order; at most `capacity` tickets are outstanding; and neither a full
   * queue, nor an out-of-order ticket, nor a surplus release is ever met.
   */
  lemma UnpackedAsPacked(config: Config, memory: seq<seq<int>>, steps: seq<Step>)
    requires config.Valid() && Shaped(config, memory)
    ensures var s := Run(config, Initial(config, memory), steps);
            && s.unpacked <= s.packed && |s.packed| - |s.unpacked| <= config.capacity
            && |s.unpacked| == s.readIndex && |s.packed| == s.writeIndex
            && !s.producer.QueueOverflow? && !s.consumer.OutOfOrder? && !s.consumer.OverReleased?
  {
    InitialHolds(config, memory);
    RunKeeps(config, Initial(config, memory), steps);
    hide Run, Queued, Placed, Stored;
  }

  /** No word is ever written into a slot whose earlier ticket has not been read completely. */
  lemma NeverOverwritesUnread(config: Config, memory: seq<seq<int>>, steps: seq<Step>, t: nat)
    requires config.Valid() && Shaped(config, memory)
    requires var s := Run(config, Initial(config, memory), steps);
             s.producer.Copying? && s.readIndex <= t < s.producer.ticket
    ensures var s := Run(config, Initial(config, memory), steps);
            && Slot(config, t) != Slot(config, s.producer.ticket)
            && Holds(config, s, t, config.width)
  {
    InitialHolds(config, memory);
    RunKeeps(config, Initial(config, memory), steps);
    var s := Run(config, Initial(config, memory), steps);
    DistinctSlots(config, t, s.producer.ticket);
    hide Run, Slot, Queued, Holds;
  }

  /** Slot exhaustion is what a producer meets first: it runs out exactly when every slot is unread or unreleased. */
  lemma ExhaustedOnlyWhenFull(config: Config, memory: seq<seq<int>>, steps: seq<Step>, frame: Frame)
    requires config.Valid() && Shaped(config, memory) && |frame.pixels| == config.width
    requires Run(config, Initial(config, memory), steps).producer.Ready?
    ensures var s := Run(config, Initial(config, memory), steps);
            Shaped(config, s.memory)
            && (Next(config, s, Acquire(frame)).producer.Exhausted?
                <==> s.writeIndex - s.readIndex + Owed(s) == config.capacity)
  {
    InitialHolds(config, memory);
    RunKeeps(config, Initial(config, memory), steps);
    hide Run, Queued, Placed, Stored;
  }
}

/** The ring object each process holds over one memory and one semaphore. */
module SharedFrames {
  import opened Prelude
  import opened SharedSteps

  class Semaphore {
    const bound: nat
    var permits: nat

    constructor (bound: nat)
      ensures this.bound == bound && permits == bound
    {
      this.bound, permits := bound, bound;
    }
  }

  datatype PackFault = SlotsExhausted

  datatype UnpackFault = RepeatedOrOutOfOrder | SurplusRelease

  class Slots {
    const config: Config
    const memory: array2<int>
    const available: Semaphore
    var writeIndex: nat
    var readIndex: nat

    ghost predicate Valid()
      reads this, available
    {
      config.Valid() && memory.Length0 == config.capacity && memory.Length1 == config.width
    }

    /** The words of one slot. */
    ghost function Words(slot: nat): (words: seq<int>)
      requires slot < memory.Length0
      reads this, memory
      ensures |words| == memory.Length1 && forall k :: 0 <= k < |words| ==> words[k] == memory[slot, k]
    {
      seq(memory.Length1, (k: int) requires 0 <= k < memory.Length1 reads this, memory => memory[slot, k])
    }

    constructor (config: Config, memory: array2<int>, available: Semaphore)
      requires config.Valid() && memory.Length0 == config.capacity && memory.Length1 == config.width
      ensures Valid() && this.config == config && this.memory == memory && this.available == available
      ensures writeIndex == 0 && readIndex == 0
    {
      this.config, this.memory, this.available := config, memory, available;
      writeIndex, readIndex := 0, 0;
    }

    /** Copy a frame into the next reserved slot; every other slot keeps its words. */
    method Pack(frame: Frame) returns (r: Result<Ticketed, PackFault>)
      requires Valid() && |frame.pixels| == config.width
      modifies this`writeIndex, available`permits, memory
      ensures Valid()
      ensures old(available.permits) == 0 ==>
                && r == Err(SlotsExhausted) && available.permits == 0 && writeIndex == old(writeIndex)
                && forall i :: 0 <= i < config.capacity ==> Words(i) == old(Words(i))
      ensures old(available.permits) > 0 ==>
                && r == Ok(Ticketed(frame.header, old(writeIndex)))
                && available.permits == old(available.permits) - 1 && writeIndex == old(writeIndex) + 1
                && Words(Slot(config, old(writeIndex))) == frame.pixels
                && forall i :: 0 <= i < config.capacity && i != Slot(config, old(writeIndex)) ==>
                     Words(i) == old(Words(i))
    {
      if available.permits == 0 {
        return Err(SlotsExhausted);
      }
      available.permits := available.permits - 1;
      var ticket := writeIndex;
      var index := ticket % config.capacity;
      writeIndex := writeIndex + 1;
      for k := 0 to config.width
        invariant available.permits == old(available.permits) - 1 && writeIndex == ticket + 1
        invariant forall j :: 0 <= j < k ==> memory[index, j] == frame.pixels[j]
        invariant forall i, j :: 0 <= i < config.capacity && i != index && 0 <= j < config.width ==>
                    memory[i, j] == old(memory[i, j])
      {
        memory[index, k] := frame.pixels[k];
      }
      assert Words(index) == frame.pixels;
      r := Ok(Ticketed(frame.header, ticket));
    }

    /** Return an owned copy of the next slot in order, then give the slot back. */
    method Unpack(item: Ticketed) returns (r: Result<Frame, UnpackFault>)
      requires Valid()
      modifies this`readIndex, available`permits
      ensures Valid()
      ensures item.ticket != old(readIndex) ==>
                r == Err(RepeatedOrOutOfOrder) && readIndex == old(readIndex)
                    && available.permits == old(available.permits)
      ensures item.ticket == old(readIndex) ==>
                && readIndex == old(readIndex) + 1
                && (old(available.permits) < available.bound ==>
                      && available.permits == old(available.permits) + 1
                      && r == Ok(Frame(item.header, old(Words(Slot(config, item.ticket))))))
                && (old(available.permits) >= available.bound ==>
                      r == Err(SurplusRelease) && available.permits == old(available.permits))
    {
      if item.ticket != readIndex {
        return Err(RepeatedOrOutOfOrder);
      }
      var index := item.ticket % config.capacity;
      var pixels: seq<int> := [];
      for k := 0 to config.width
        invariant |pixels| == k && forall j :: 0 <= j < k ==> pixels[j] == memory[index, j]
      {
        pixels := pixels + [memory[index, k]];
      }
      assert pixels == Words(index);
      readIndex := readIndex + 1;
      if available.permits >= available.bound {
        return Err(SurplusRelease);
      }
      available.permits := available.permits + 1;
      r := Ok(Frame(item.header, pixels));
    }
  }
}

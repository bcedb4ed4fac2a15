/** Watermark admission of recording.py over the episode session of session.py, as transitions on values. */
module CaptureSteps {
  import opened Prelude
  import opened Contracts
  import M = MatchingSteps
  import R = ControlSteps

  type Frame = M.Frame

  /** A failed session raises, which ends the recording; it has no phase here. */
  datatype Phase = Idle | Prepared | Recording | Finalizing | Cancelling

  const CAPACITY := 32

  /** The camera session: its phase, its receipt window, and what it handed to the matcher and the writer. */
  datatype Owner = Owner(
    phase: Phase,
    start: int,
    stop: int,
    pushed: seq<Frame>,
    recorded: seq<R.Record>
  )

  /** The admission state, with every frame read, every frame dropped and every sample submitted since `begin`. */
  datatype State = State(
    owner: Owner,
    pending: seq<Frame>,
    watermark: int,
    cutoff: Option<int>,
    boundary: Option<int>,
    release: Option<R.Record>,
    settled: bool,
    acquired: Option<R.Record>,
    read: seq<Frame>,
    dropped: seq<Frame>,
    samples: seq<R.Record>
  )

  const INITIAL := State(Owner(Idle, 0, 0, [], []), [], 0, None, None, None, false, None, [], [], [])

  /** Ordered control messages, and one pass over the cameras with the outcomes of the calls it makes. */
  datatype Operation =
    | Prepare
    | Begin(boundary: int, event: R.Record)
    | Freeze(boundary: int)
    | Samples(watermark: int, records: seq<R.Record>)
    | Stop(cutoff: int, event: R.Record)
    | Cancel
    | Settled
    | Pass(frames: seq<Frame>, now: int, accepted: bool, completed: bool)

  // Half-open receipt windows.

  predicate Inside(low: Option<int>, high: Option<int>, receipt: int) {
    (low.Some? ==> low.value <= receipt) && (high.Some? ==> receipt < high.value)
  }

  /** The frames received in a window, in order. */
  function Between(frames: seq<Frame>, low: Option<int>, high: Option<int>): seq<Frame>
    decreases |frames|
  {
    if frames == [] then []
    else (if Inside(low, high, frames[0].ReceivedNs()) then [frames[0]] else []) + Between(frames[1..], low, high)
  }

  /** The records received at or after a time, in order. */
  function Since(records: seq<R.Record>, low: int): seq<R.Record>
    decreases |records|
  {
    if records == [] then []
    else (if low <= records[0].ReceivedNs() then [records[0]] else []) + Since(records[1..], low)
  }

  // The session.

  /** A frame of the current window after the capture was drained is an error. */
  predicate Late(o: Owner, receipt: int) {
    o.phase.Finalizing? && o.start <= receipt < o.stop
  }

  function Submit(o: Owner, f: Frame): Option<Owner> {
    if Late(o, f.ReceivedNs()) then None
    else if o.phase.Recording? && f.ReceivedNs() >= o.start then Some(o.(pushed := o.pushed + [f]))
    else Some(o)
  }

  function SubmitAll(o: Owner, frames: seq<Frame>): Option<Owner>
    decreases |frames|
  {
    if frames == [] then Some(o)
    else match Submit(o, frames[0])
      case None => None
      case Some(next) => SubmitAll(next, frames[1..])
  }

  function Feedback(o: Owner, records: seq<R.Record>): Owner {
    if o.phase.Recording? then o.(recorded := o.recorded + Since(records, o.start)) else o
  }

  // The capture.

  /** The frames of one pass that a recording session holds back. */
  function Admitted(s: State, frames: seq<Frame>): seq<Frame> {
    Between(frames, None, s.boundary)
  }

  function Message(s: State, op: Operation): Option<State>
    requires !op.Pass?
  {
    match op
    case Prepare => if !s.owner.phase.Idle? then None else Some(s.(owner := Owner(Prepared, 0, 0, [], [])))
    case Begin(boundary, event) =>
      if !s.owner.phase.Prepared? then None
      else
        var begun := s.owner.(phase := Recording, start := boundary);
        Some(State(Feedback(begun, [event]), [], boundary, None, None, None, false, Some(event), [], [], []))
    case Freeze(boundary) =>
      if !s.owner.phase.Recording? || boundary < s.watermark then None else Some(s.(boundary := Some(boundary)))
    case Samples(watermark, records) =>
      if !s.owner.phase.Recording? || s.cutoff.Some? || (s.boundary.Some? && watermark > s.boundary.value)
         || watermark <= s.watermark || (exists i :: 0 <= i < |records| && records[i].ReceivedNs() >= watermark)
      then None
      else Some(s.(owner := Feedback(s.owner, records), watermark := watermark, samples := s.samples + records))
    case Stop(cutoff, event) =>
      if !s.owner.phase.Recording? || cutoff < s.watermark || (s.boundary.Some? && cutoff != s.boundary.value) then None
      else Some(s.(watermark := cutoff, cutoff := Some(cutoff), boundary := Some(cutoff), release := Some(event)))
    case Cancel =>
      if !s.owner.phase.Prepared? && !s.owner.phase.Recording? then None
      else
        Some(s.(owner := s.owner.(phase := Cancelling), pending := [], boundary := None, cutoff := None,
            release := None,
                settled := false))
    case Settled => if s.cutoff.None? then None else Some(s.(settled := true))
  }

  /** The frames at or past the boundary, which a recording session drops. */
  function Beyond(s: State, frames: seq<Frame>): seq<Frame> {
    if s.boundary.None? then [] else Between(frames, s.boundary, None)
  }

  /** Frames read while recording are held back; while finalizing they must lie outside the window. */
  function Collect(s: State, frames: seq<Frame>): Option<State> {
    var noted := s.(read := s.read + frames);
    if s.owner.phase.Recording? then 
      Some(noted.(pending := s.pending + Admitted(s, frames), dropped := s.dropped + Beyond(s, frames)))
    else if s.owner.phase.Finalizing? then
      match SubmitAll(s.owner, frames)
      case None => None
      case Some(owner) => Some(noted.(owner := owner, dropped := s.dropped + frames))
    else Some(noted)
  }

  /** Submit what the watermark releases, keep what may still be released, drop the rest. */
  function Release(s: State): Option<State> {
    match SubmitAll(s.owner, Between(s.pending, None, Some(s.watermark)))
    case None => None
    case Some(owner) =>
      Some(s.(owner := owner, pending := Between(s.pending, Some(s.watermark), s.boundary),
              dropped := s.dropped + Beyond(s, s.pending)))
  }

  /** Once the stop is confirmed and the matcher's wait has passed, record the release and finalize. */
  function Conclude(s: State, now: int, waitNs: int): Option<State> {
    if s.cutoff.None? || !s.owner.phase.Recording? || !s.settled || now < s.cutoff.value + waitNs
        || s.release.None? then
      Some(s)
    else if !(s.owner.start <= s.cutoff.value <= now) then None
    else Some(s.(owner := Feedback(s.owner, [s.release.value]).(phase := Finalizing, stop := s.cutoff.value)))
  }

  function Poll(s: State, completed: bool): State {
    if completed && (s.owner.phase.Finalizing? || s.owner.phase.Cancelling?) then s.(owner := s.owner.(phase := Idle))
    else s
  }

  /** One pass; `accepted` is whether the matcher, the writer and the cameras raised nothing. */
  function PassOver(
    s: State, frames: seq<Frame>, now: int, waitNs: int, accepted: bool, completed: bool
  ): Option<State> {
    var collected := Collect(s, frames);
    if collected.None? then None
    else
      var released := Release(collected.value);
      if released.None? || |released.value.pending| > CAPACITY || !accepted then None
      else
        var concluded := Conclude(released.value, now, waitNs);
        if concluded.None? then None else Some(Poll(concluded.value, completed))
  }

  function Next(s: State, waitNs: int, op: Operation): Option<State> {
    match op
    case Pass(frames, now, accepted, completed) => PassOver(s, frames, now, waitNs, accepted, completed)
    case _ => Message(s, op)
  }

  /** A run that raises nowhere. */
  function Run(s: State, waitNs: int, ops: seq<Operation>): Option<State>
    decreases |ops|
  {
    if ops == [] then Some(s)
    else match Next(s, waitNs, ops[0])
      case None => None
      case Some(next) => Run(next, waitNs, ops[1..])
  }
}

/** The session and the capture over it, updated in place. */
module Recording {
  import opened Prelude
  import opened Contracts
  import opened Steps = CaptureSteps
  import R = ControlSteps

  class Session {
    var phase: Phase
    var start: int
    var stop: int
    ghost var pushed: seq<Frame>
    ghost var recorded: seq<R.Record>

    ghost function Value(): Owner
      reads this
    {
      Owner(phase, start, stop, pushed, recorded)
    }

    constructor ()
      ensures Value() == INITIAL.owner
    {
      phase, start, stop, pushed, recorded := Phase.Idle, 0, 0, [], [];
    }

    method Submit(f: Frame) returns (ok: bool)
      modifies this`pushed
      ensures match Steps.Submit(old(Value()), f)
              case None => !ok
              case Some(o) => ok && Value() == o
    {
      var receipt := f.ReceivedNs();
      if phase.Finalizing? && start <= receipt < stop {
        return false;
      }
      if phase.Recording? && receipt >= start {
        pushed := pushed + [f];
      }
      ok := true;
    }

    method Begin(boundary: int, event: R.Record)
      requires phase.Prepared?
      modifies this
      ensures Value() == Feedback(old(Value()).(phase := Phase.Recording, start := boundary), [event])
    {
      phase, start := Phase.Recording, boundary;
      SubmitFeedback([event]);
    }

    method SubmitFeedback(records: seq<R.Record>)
      requires phase.Recording?
      modifies this`recorded
      ensures Value() == Feedback(old(Value()), records)
    {
      for i := 0 to |records|
        invariant Feedback(old(Value()), records) == Feedback(Value(), records[i..])
        invariant Value() == old(Value()).(recorded := recorded)
      {
        assert records[i..][0] == records[i] && records[i..][1..] == records[i + 1..];
        if records[i].ReceivedNs() >= start {
          assert recorded + Since(records[i..], start) == recorded + [records[i]] + Since(records[i + 1..], start);
          recorded := recorded + [records[i]];
        }
      }
      assert Since(records[|records|..], start) == [];
    }
  }

  class Capture {
    const owner: Session
    const waitNs: int
    var pending: seq<Frame>
    var watermark: int
    var cutoff: Option<int>
    var boundary: Option<int>
    var release: Option<R.Record>
    var settled: bool
    ghost var acquired: Option<R.Record>
    ghost var read: seq<Frame>
    ghost var dropped: seq<Frame>
    ghost var samples: seq<R.Record>

    ghost function Value(): State
      reads this, owner
    {
      State(owner.Value(), pending, watermark, cutoff, boundary, release, settled, acquired, read, dropped, samples)
    }

    constructor (waitNs: int)
      ensures this.waitNs == waitNs && Value() == INITIAL && fresh(owner)
    {
      this.waitNs := waitNs;
      owner := new Session();
      pending, watermark, cutoff, boundary, release, settled := [], 0, None, None, None, false;
      acquired, read, dropped, samples := None, [], [], [];
    }

    method Begin(start: int, event: R.Record) returns (ok: bool)
      modifies this, owner
      ensures match Message(old(Value()), Operation.Begin(start, event))
              case None => !ok
              case Some(s) => ok && Value() == s
    {
      if !owner.phase.Prepared? {
        return false;
      }
      hide Feedback;
      owner.Begin(start, event);
      watermark, cutoff, release := start, None, None;
      pending, boundary, settled, acquired, read, dropped, samples := [], None, false, Some(event), [], [], [];
      ok := true;
    }

    method Freeze(value: int) returns (ok: bool)
      modifies this
      ensures match Message(old(Value()), Operation.Freeze(value))
              case None => !ok
              case Some(s) => ok && Value() == s
    {
      if !owner.phase.Recording? || value < watermark {
        return false;
      }
      boundary := Some(value);
      ok := true;
    }

    method Samples(next: int, records: seq<R.Record>) returns (ok: bool)
      modifies this, owner
      ensures match Message(old(Value()), Operation.Samples(next, records))
              case None => !ok
              case Some(s) => ok && Value() == s
    {
      if !owner.phase.Recording? || cutoff.Some? || (boundary.Some? && next > boundary.value) || next <= watermark {
        return false;
      }
      for i := 0 to |records|
        invariant forall k :: 0 <= k < i ==> records[k].ReceivedNs() < next
      {
        if records[i].ReceivedNs() >= next {
          return false;
        }
      }
      owner.SubmitFeedback(records);
      watermark, samples := next, samples + records;
      ok := true;
    }

    method Stop(value: int, event: R.Record) returns (ok: bool)
      modifies this
      ensures match Message(old(Value()), Operation.Stop(value, event))
              case None => !ok
              case Some(s) => ok && Value() == s
    {
      if !owner.phase.Recording? || value < watermark || (boundary.Some? && value != boundary.value) {
        return false;
      }
      watermark, cutoff, release, boundary := value, Some(value), Some(event), Some(value);
      ok := true;
    }

    /** Sort one batch of frames into the pending queue, or check it against a finalizing window. */
    method Collect(frames: seq<Frame>) returns (ok: bool)
      modifies this`pending, this`read, this`dropped, owner`pushed
      ensures match Steps.Collect(old(Value()), frames)
              case None => !ok
              case Some(s) => ok && Value() == s
    {
      ghost var before := Value();
      read := read + frames;
      if owner.phase.Recording? {
        var held: seq<Frame> := [];
        for i := 0 to |frames|
          invariant held + Between(frames[i..], None, boundary) == Between(frames, None, boundary)
        {
          assert frames[i..][0] == frames[i] && frames[i..][1..] == frames[i + 1..];
          if boundary.None? || frames[i].ReceivedNs() < boundary.value {
            assert held + Between(frames[i..], None, boundary)
                == held + [frames[i]] + Between(frames[i + 1..], None, boundary);
            held := held + [frames[i]];
          }
        }
        assert Between(frames[|frames|..], None, boundary) == [] && held + [] == held;
        dropped := dropped + Beyond(before, frames);
        pending := pending + held;
        ok := true;
      } else if owner.phase.Finalizing? {
        dropped := dropped + frames;
        ok := SubmitEach(frames);
      } else {
        ok := true;
      }
    }

    method SubmitEach(frames: seq<Frame>) returns (ok: bool)
      modifies owner`pushed
      ensures match SubmitAll(old(owner.Value()), frames)
              case None => !ok
              case Some(o) => ok && owner.Value() == o
    {
      for i := 0 to |frames|
        invariant SubmitAll(old(owner.Value()), frames) == SubmitAll(owner.Value(), frames[i..])
      {
        assert frames[i..][0] == frames[i] && frames[i..][1..] == frames[i + 1..];
        ok := owner.Submit(frames[i]);
        if !ok {
          return;
        }
      }
      ok := true;
    }

    /** Drain the pending queue against the watermark and the boundary. */
    method ReleaseDue() returns (ok: bool)
      modifies this`pending, this`dropped, owner`pushed
      ensures match Steps.Release(old(Value()))
              case None => !ok
              case Some(s) => ok && Value() == s
    {
      var due, waiting := Sorted();
      hide Between;
      dropped := dropped + Beyond(Value(), pending);
      ok := SubmitEach(due);
      pending := waiting;
    }

    /** What the watermark releases, and what may still be released. */
    method Sorted() returns (due: seq<Frame>, waiting: seq<Frame>)
      ensures due == Between(pending, None, Some(watermark)) && waiting == Between(pending, Some(watermark), boundary)
    {
      due, waiting := [], [];
      for i := 0 to |pending|
        invariant due + Between(pending[i..], None, Some(watermark)) == Between(pending, None, Some(watermark))
        invariant waiting + Between(pending[i..], Some(watermark), boundary)
            == Between(pending, Some(watermark), boundary)
      {
        var f := pending[i];
        assert pending[i..][0] == f && pending[i..][1..] == pending[i + 1..];
        if f.ReceivedNs() < watermark {
          assert due + Between(pending[i..], None, Some(watermark))
              == due + [f] + Between(pending[i + 1..], None, Some(watermark));
          due := due + [f];
        } else if boundary.None? || f.ReceivedNs() < boundary.value {
          assert waiting + Between(pending[i..], Some(watermark), boundary)
              == waiting + [f] + Between(pending[i + 1..], Some(watermark), boundary);
          waiting := waiting + [f];
        }
      }
      assert due + [] == due && waiting + [] == waiting;
    }

    method Conclude(now: int) returns (ok: bool)
      modifies owner
      ensures match Steps.Conclude(old(Value()), now, waitNs)
              case None => !ok
              case Some(s) => ok && Value() == s
    {
      if cutoff.None? || !owner.phase.Recording? || !settled || now < cutoff.value + waitNs || release.None? {
        return true;
      }
      if !(owner.start <= cutoff.value <= now) {
        return false;
      }
      owner.SubmitFeedback([release.value]);
      owner.phase, owner.stop := Phase.Finalizing, cutoff.value;
      ok := true;
    }

    method Pass(frames: seq<Frame>, now: int, accepted: bool, completed: bool) returns (ok: bool)
      modifies this, owner
      ensures match Next(old(Value()), waitNs, Operation.Pass(frames, now, accepted, completed))
              case None => !ok
              case Some(s) => ok && Value() == s
    {
      ok := Collect(frames);
      if !ok {
        return;
      }
      ok := ReleaseDue();
      if !ok || |pending| > CAPACITY || !accepted {
        return false;
      }
      ok := Conclude(now);
      if ok && completed && (owner.phase.Finalizing? || owner.phase.Cancelling?) {
        owner.phase := Phase.Idle;
      }
    }
  }
}

/** The collection session of control/collection.py: every component call is an outcome the environment supplies. */
module CollectionSteps {
  import opened Prelude

  datatype Phase =
    | Idle | Preparing | Engaging | Recording | Stopping | Finalizing
    | Review | Resolving | Cancelling | Blocked | Closing

  datatype Motion = NeedsHome | Homing | Ready | WaitingLeader | Aligning | Following | Halting | Held | Unusable

  datatype Component = Arm | Recorder | Readers | Session

  datatype Reason = Unstarted | Started | Space | FailKey | AbortKey | SessionEnd

  datatype Disposition = Success | Failure | Aborted

  datatype Choice = Save | Discard

  /** One prepared or recorded episode; `held` is whether the arm was seen held after its stop. */
  datatype Episode = Episode(
    number: nat,
    start: int,
    cutoff: int,
    settledNs: int,
    stopSent: bool,
    reason: Reason,
    interruption: Option<string>,
    held: bool
  ) {
    /** How the episode ends on record: a latched interruption outranks whatever reason the operator gave. */
    function Disposition(): Disposition {
      if interruption.Some? then Aborted
      else if reason.Space? then Success
      else if reason.FailKey? then Failure
      else Aborted
    }
  }

  /** One line of the session report; the recorder's own report of an episode names the number the session gave it. */
  datatype Entry = Entry(
    number: nat,
    disposition: Disposition,
    verified: bool,
    reason: Reason,
    interruption: Option<string>,
    settledNs: int,
    held: bool
  )

  datatype Rejection = Rejection(unavailable: set<Component>, choice: Option<Choice>, stoppedNs: int)

  /** The ordered messages to the recorder. */
  datatype Message =
    | PrepareSent
    | BeginSent(start: int)
    | SamplesSent
    | FreezeSent(boundary: int)
    | StopSent(cutoff: int)
    | SettledSent
    | CancelSent

  /** The session, with the number of episodes it has prepared and the messages the recorder's queue took. */
  datatype State = State(
    phase: Phase,
    active: Option<Episode>,
    completed: seq<Entry>,
    quit: bool,
    lastKey: int,
    rejection: Option<Rejection>,
    closed: bool,
    prepared: nat,
    sent: seq<Message>
  )

  const INITIAL := State(Idle, None, [], false, 0, None, false, 0, [])

  function Sent(s: State, m: Message): State {
    s.(sent := s.sent + [m])
  }

  /** A state, and whether control returned normally to it. */
  datatype Ran = Ran(s: State, ok: bool)

  datatype Reply = PrepareReply | CancelledReply | CompleteReply

  /**
   * What every component does during one key or step; a false flag is a call that raises. `sampled` is whether there
   * was a sample to send; `outcome` and `saved` are the sidecar and the report of a completed episode, `disk` every
   * other report.
   */
  datatype World = World(
    now: int,
    motion: Motion,
    motionAfter: Motion,
    motionKey: bool,
    motionStop: bool,
    motionStep: bool,
    motionReject: bool,
    motionClose: bool,
    poll: bool,
    replies: seq<Reply>,
    readers: bool,
    prepare: bool,
    begin: bool,
    start: int,
    samples: bool,
    sampled: bool,
    covered: bool,
    stop: bool,
    settle: bool,
    freeze: bool,
    cancel: bool,
    outcome: bool,
    saved: bool,
    disk: bool,
    stoppedNs: int,
    overdue: bool,
    error: string
  )

  const KEY_INTERVAL_NS := 750_000_000

  datatype Key = SpaceBar | F | A | Q | Other

  predicate Unavailable(s: State, c: Component) {
    s.rejection.Some? && c in s.rejection.value.unavailable
  }

  /** The phases that work on an episode. */
  predicate Occupied(phase: Phase) {
    || phase.Preparing? || phase.Engaging? || phase.Recording? || phase.Stopping? || phase.Finalizing?
    || phase.Cancelling? || phase.Closing?
  }

  /** Which phases have an episode and a rejection to work on. */
  predicate Workable(s: State) {
    && (Occupied(s.phase) ==> s.active.Some?)
    && (s.phase.Review? || s.phase.Resolving? || s.phase.Cancelling? ==> s.rejection.Some?)
  }

  // Rejection.

  /** Latch the first interruption of the unfinished episode. */
  function Interrupted(s: State, error: string): State {
    if s.active.Some? && s.active.value.interruption.None? then
      s.(active := Some(s.active.value.(interruption := Some(error))))
    else s
  }

  function Marked(s: State, c: Component): State
    requires s.rejection.Some?
  {
    s.(rejection := Some(s.rejection.value.(unavailable := s.rejection.value.unavailable + {c})))
  }

  /** A further failure while a rejection is pending. */
  function RejectMore(w: World, s: State, c: Component): (r: Ran)
    requires Workable(s)
    requires s.rejection.Some?
    ensures Workable(r.s)
  {
    var marked := if c == Session then s else Marked(s, c);
    Ran(if c == Recorder then marked.(phase := Review) else marked, w.disk)
  }

  /** End a started episode's capture window, unless it already has an end. */
  function Cut(s: State, now: int): State {
    if s.active.Some? && s.active.value.start != 0 && s.active.value.cutoff == 0 then
      s.(active := Some(s.active.value.(cutoff := now)))
    else s
  }

  /** Open the rejection, cut a started episode off, and latch its interruption. */
  function Latched(w: World, s: State, c: Component): State {
    var choice :=
      if s.active.Some? && s.active.value.reason.AbortKey? then Some(Discard) else if s.quit then Some(Save) else None;
    var unavailable := if c == Arm || c == Session then {} else {c};
    Interrupted(Cut(s, w.now), w.error).(rejection := Some(Rejection(unavailable, choice, 0)))
  }

  /** Revoke motion before touching storage, and wait for the operator unless already finalizing. */
  function Revoked(w: World, s: State): State
    requires s.rejection.Some?
  {
    var revoked := if w.motionReject then s else Marked(s, Arm);
    var judged := if w.motionAfter.Unusable? then Marked(revoked, Arm) else revoked;
    if judged.phase.Finalizing? then judged else judged.(phase := Review)
  }

  /** Latch, revoke, and freeze the recorder at the cutoff. */
  function BeginRejection(w: World, s: State, c: Component): (r: Ran)
    requires Workable(s) && s.rejection.None?
    ensures Workable(r.s)
  {
    var paused := Revoked(w, Latched(w, s, c));
    if !Freezable(paused) then Ran(paused, true)
    else if !w.freeze then RejectMore(w, paused, Recorder)
    else Ran(Sent(paused, FreezeSent(paused.active.value.cutoff)), true)
  }

  /** A started episode whose stop the recorder has not been sent, on a recorder still in use. */
  predicate Freezable(s: State) {
    && s.active.Some? && s.active.value.start != 0 && !s.active.value.stopSent && !s.phase.Finalizing?
    && !Unavailable(s, Recorder)
  }

  function Reject(w: World, s: State, c: Component): (r: Ran)
    requires Workable(s)
    ensures Workable(r.s)
  {
    if s.rejection.Some? then RejectMore(w, s, c)
    else
      var begun := BeginRejection(w, s, c);
      if !begun.ok then begun
      else Ran(if c == Recorder then begun.s.(phase := Review) else begun.s, w.disk)
  }

  /** Contain a failed component: skip it once unavailable, otherwise reject on what it left behind. */
  function Guarded(w: World, before: State, c: Component, r: Ran): (t: Ran)
    requires Workable(before) && Workable(r.s)
    ensures Workable(t.s)
  {
    if Unavailable(before, c) then Ran(before, true) else if r.ok then r else Reject(w, r.s, c)
  }

  // Keys.

  function StopRecording(w: World, s: State, reason: Reason): (t: Ran)
    requires Workable(s) && s.phase.Recording?
    ensures Workable(t.s)
  {
    var tagged := s.(active := Some(s.active.value.(reason := reason)));
    if !w.motionStop || !w.motionAfter.Halting? then Ran(tagged, false)
    else Ran(tagged.(active := Some(tagged.active.value.(cutoff := w.now)), phase := Stopping), true)
  }

  function Quit(w: World, s: State): (t: Ran)
    requires Workable(s)
    ensures Workable(t.s)
  {
    var quitting := s.(quit := true);
    if s.rejection.Some? then
      if s.phase.Review? then Ran(quitting.(rejection := Some(s.rejection.value.(choice := Some(Save)))), true)
      else Ran(quitting, true)
    else if s.phase.Recording? then StopRecording(w, quitting, SessionEnd)
    else if w.motion.Homing? then Ran(quitting, w.motionStop)
    else if s.phase.Preparing? || s.phase.Engaging? then
      Ran(quitting.(active := Some(s.active.value.(reason := SessionEnd)), phase := Closing), true)
    else Ran(quitting, true)
  }

  function NewEpisode(s: State): State {
    s.(active := Some(Episode(|s.completed|, 0, 0, 0, false, Unstarted, None, false)), prepared := s.prepared + 1)
  }

  function Pressed(w: World, s: State, key: Key): (t: Ran)
    requires Workable(s)
    ensures Workable(t.s)
  {
    if key == Other then Ran(s, true)
    else if key == Q then Quit(w, s)
    else
      var noted := s.(lastKey := w.now);
      if w.now - s.lastKey < KEY_INTERVAL_NS then Ran(noted, true)
      else if s.phase.Review? then
        Ran(noted.(rejection := Some(s.rejection.value.(choice := Some(if key == A then Discard else Save)))), true)
      else if s.phase.Blocked? then Ran(noted, true)
      else if s.phase.Recording? then
        StopRecording(w, noted, if key == SpaceBar then Space else if key == F then FailKey else AbortKey)
      else if key != SpaceBar then Ran(noted, true)
      else if s.phase.Engaging? && w.motion.Ready? then Ran(noted, w.motionKey)
      else if s.phase.Idle? && !s.quit then
        if !w.motion.Ready? then Ran(noted, w.motionKey)
        else
          var added := NewEpisode(noted);
          if !w.prepare then Ran(added, false) else Ran(Sent(added, PrepareSent).(phase := Preparing), w.disk)
      else Ran(noted, true)
  }

  function KeyStroke(w: World, s: State, key: Key): (t: Ran)
    requires Workable(s)
    ensures Workable(t.s)
  {
    var r := Pressed(w, s, key);
    if r.ok then r else Reject(w, r.s, Session)
  }

  // Steps.

  /** List the unfinished episode as a partial one. */
  function Partial(w: World, s: State): (t: Ran)
    requires s.active.Some?
    ensures s.rejection.Some? ==> Workable(t.s)
  {
    var a := s.active.value;
    Ran(s.(completed := s.completed + [Entry(a.number, Aborted, false, a.reason, a.interruption, a.settledNs, a.held)],
           active := None, phase := Resolving), w.disk)
  }

  function Completed(s: State): (t: State)
    requires s.active.Some?
    ensures Workable(t)
  {
    var a := s.active.value;
    s.(completed :=
        s.completed + [Entry(a.number, a.Disposition(), true, a.reason, a.interruption, a.settledNs, a.held)],
       active := None, phase := if s.rejection.Some? then Resolving else Idle)
  }

  function Answer(w: World, s: State, reply: Reply): (t: Ran)
    requires Workable(s)
    ensures Workable(t.s)
  {
    match reply
    case PrepareReply =>
      if !s.phase.Preparing? then Ran(s, s.quit || s.rejection.Some?)
      else if !w.motionKey then Ran(s, false)
      else Ran(s.(phase := Engaging), true)
    case CancelledReply => if !s.phase.Cancelling? then Ran(s, false) else Partial(w, s)
    case CompleteReply =>
      if !s.phase.Finalizing? || s.active.value.settledNs == 0 || !w.outcome then Ran(s, false)
      else Ran(Completed(s), w.saved)
  }

  function Answers(w: World, s: State, replies: seq<Reply>): (t: Ran)
    requires Workable(s)
    ensures Workable(t.s)
    decreases |replies|
  {
    if replies == [] then Ran(s, true)
    else
      var r := Answer(w, s, replies[0]);
      if !r.ok then r else Answers(w, r.s, replies[1..])
  }

  function Polled(w: World, s: State): (t: Ran)
    requires Workable(s)
    ensures Workable(t.s)
  {
    if !w.poll then Ran(s, false) else Answers(w, s, w.replies)
  }

  /** Take an independently observed standstill while the arm is unavailable. */
  function Observed(w: World, s: State): (t: State)
    requires Workable(s)
    ensures Workable(t)
  {
    if Unavailable(s, Arm) then s.(rejection := Some(s.rejection.value.(stoppedNs := w.stoppedNs))) else s
  }

  function Began(w: World, s: State): (t: Ran)
    requires Workable(s) && s.phase.Engaging?
    ensures Workable(t.s)
  {
    var started := s.(active := Some(s.active.value.(reason := Started, start := w.start)));
    if !w.begin then Ran(started, false) else Ran(Sent(started, BeginSent(w.start)).(phase := Recording), true)
  }

  /** Note a held arm, or the rejection's own standstill, as the episode's confirmed stop. */
  function Confirmed(w: World, s: State): (t: State)
    requires Workable(s) && s.active.Some?
    ensures Workable(t) && t.active.Some? && t.phase == s.phase && t.rejection == s.rejection
  {
    var a := s.active.value;
    var seen :=
      if w.motion.Held? && a.settledNs == 0 && !Unavailable(s, Arm) then a.(settledNs := w.now, held := true) else a;
    s.(active := Some(if s.rejection.Some? && s.rejection.value.stoppedNs != 0 then
                        seen.(settledNs := s.rejection.value.stoppedNs)
                      else seen))
  }

  /** Send the samples of a step, if there are any. */
  function Sampled(w: World, s: State): (t: Ran)
    requires Workable(s)
    ensures Workable(t.s) && t.s.active == s.active && t.s.rejection == s.rejection && t.s.phase == s.phase
  {
    if !w.samples then Ran(s, false) else Ran(if w.sampled then Sent(s, SamplesSent) else s, true)
  }

  function Tailed(w: World, s: State): (t: Ran)
    requires Workable(s) && s.active.Some?
    ensures Workable(t.s)
  {
    if s.active.value.stopSent || !w.covered then Ran(s, true)
    else
      var sampled := Sampled(w, s);
      if !sampled.ok || !w.stop then Ran(sampled.s, false)
      else
        Ran(Sent(sampled.s, StopSent(s.active.value.cutoff)).(active := Some(s.active.value.(stopSent := true))), true)
  }

  function Finalized(w: World, s: State): (t: Ran)
    requires Workable(s) && s.active.Some?
    ensures Workable(t.s)
  {
    if !w.settle then Ran(s, false) else Ran(Sent(s, SettledSent).(phase := Finalizing), true)
  }

  function Cancelled(w: World, s: State): (t: Ran)
    requires Workable(s) && s.active.Some? && s.rejection.Some?
    ensures Workable(t.s)
  {
    if Unavailable(s, Recorder) then Partial(w, s)
    else Guarded(w, s.(phase := Cancelling), Recorder, CancelAsked(w, s))
  }

  function CancelAsked(w: World, s: State): (t: Ran)
    requires Workable(s) && s.active.Some? && s.rejection.Some?
    ensures Workable(t.s)
  {
    var cancelling := s.(phase := Cancelling);
    if w.cancel then Ran(Sent(cancelling, CancelSent), true) else Ran(cancelling, false)
  }

  function Resolved(w: World, s: State): (t: Ran)
    requires Workable(s) && s.phase.Resolving?
    ensures Workable(t.s)
  {
    if s.rejection.value.unavailable != {} then Ran(s.(phase := Blocked), w.disk)
    else if w.motion.Held? then Ran(s.(rejection := None, phase := Idle), w.disk)
    else Ran(s, true)
  }

  function Unchosen(s: State): State
    requires s.rejection.Some?
  {
    s.(rejection := Some(s.rejection.value.(choice := None)))
  }

  function Reviewed(w: World, s: State): (t: Ran)
    requires Workable(s) && s.phase.Review?
    ensures Workable(t.s)
  {
    var r := s.rejection.value;
    if r.choice.None? then Ran(s, true)
    else if s.active.None? then Resolved(w, s.(phase := Resolving))
    else if r.choice == Some(Discard) || s.active.value.start == 0 then Cancelled(w, s)
    else if r.unavailable - {Arm} != {} then if s.quit then Cancelled(w, Unchosen(s)) else Ran(Unchosen(s), true)
    else if s.active.value.stopSent && ((w.motion.Held? && Arm !in r.unavailable) || r.stoppedNs != 0) then
      Guarded(w, s, Recorder, Finalized(w, s))
    else if Arm in r.unavailable && w.overdue then if s.quit then Cancelled(w, Unchosen(s)) else Ran(Unchosen(s), true)
    else Ran(s, true)
  }

  /** The part of a step that waits for the stop to be confirmed and disposes of the episode. */
  function Settling(w: World, s: State): (t: Ran)
    requires Workable(s)
    ensures Workable(t.s)
  {
    var tailed :=
      if s.active.Some? && s.active.value.start != 0 then
        var confirmed := Confirmed(w, s);
        if Unavailable(s, Readers) then Ran(confirmed, true) else Guarded(w, confirmed, Recorder, Tailed(w, confirmed))
      else Ran(s, true);
    if !tailed.ok then tailed
    else
      var t := tailed.s;
      if t.phase.Stopping? && w.motion.Held? then
        if t.active.value.stopSent then Guarded(w, t, Recorder, Finalized(w, t)) else tailed
      else if t.phase.Review? then Guarded(w, t, Session, Reviewed(w, t))
      else tailed
  }

  function Step(w: World, s: State): (t: Ran)
    requires Workable(s)
    ensures Workable(t.s)
  {
    var polled := Guarded(w, s, Recorder, Polled(w, s));
    if !polled.ok then polled
    else
      var read := Guarded(w, polled.s, Readers, Ran(polled.s, w.readers));
      if !read.ok then read
      else
        var moved := Guarded(w, read.s, Arm, Ran(read.s, w.motionStep));
        if !moved.ok then moved else Recorded(w, Observed(w, moved.s))
  }

  /** The recording half of a step. */
  function Recorded(w: World, s: State): (t: Ran)
    requires Workable(s)
    ensures Workable(t.s)
  {
    var begun :=
      if s.phase.Engaging? && w.motion.Following? then Guarded(w, s, Recorder, Began(w, s))
      else Ran(s, true);
    if !begun.ok then begun
    else if begun.s.phase.Recording? then Guarded(w, begun.s, Recorder, Sampled(w, begun.s))
    else if begun.s.phase.Stopping? || begun.s.phase.Review? then Settling(w, begun.s)
    else if begun.s.phase.Resolving? then Resolved(w, begun.s)
    else begun
  }

  /** The session may exit: quit was asked for, no recording is under way, and the arm is at rest or lost. */
  predicate Finished(w: World, s: State) {
    && s.quit && (s.active.None? || s.phase.Closing?)
    && (s.phase.Idle? || s.phase.Blocked? || s.phase.Closing?)
    && (w.motion.NeedsHome? || w.motion.Ready? || w.motion.Held? || w.motion.WaitingLeader? || w.motion.Aligning?
        || Unavailable(s, Arm))
  }

  /** Stop before storage cleanup, then list whatever episode is left. */
  function Close(w: World, s: State): State {
    if s.closed then s
    else
      var closing := s.(closed := true);
      var stopped := if w.motionClose then closing else Interrupted(closing, w.error);
      if stopped.active.None? then stopped
      else
        var marked :=
          if Finished(w, s) && w.motionClose then stopped else Interrupted(stopped, "session interrupted");
        Partial(w, marked).s
  }
}

/** The session object: keys and steps change its phase, its active episode and its report in place. */
module Collection {
  import opened Prelude
  import opened Steps = CollectionSteps

  class Session {
    var phase: Phase
    var active: Option<Episode>
    var completed: seq<Entry>
    var quit: bool
    var lastKey: int
    var rejection: Option<Rejection>
    var closed: bool
    ghost var prepared: nat
    ghost var sent: seq<Message>

    ghost function Value(): State
      reads this
    {
      State(phase, active, completed, quit, lastKey, rejection, closed, prepared, sent)
    }

    predicate Lost(c: Component)
      reads this
    {
      rejection.Some? && c in rejection.value.unavailable
    }

    constructor ()
      ensures Value() == INITIAL
    {
      phase, active, completed, quit, lastKey, rejection, closed := Idle, None, [], false, 0, None, false;
      prepared, sent := 0, [];
    }

    /** The recorder's queue took a message. */
    method Note(m: Message)
      modifies this`sent
      ensures Value() == Sent(old(Value()), m)
    {
      sent := sent + [m];
    }

    method Interrupt(error: string)
      modifies this`active
      ensures Value() == Interrupted(old(Value()), error)
    {
      if active.Some? && active.value.interruption.None? {
        active := Some(active.value.(interruption := Some(error)));
      }
    }

    method MarkLost(c: Component)
      requires rejection.Some?
      modifies this`rejection
      ensures Value() == Marked(old(Value()), c)
    {
      rejection := Some(rejection.value.(unavailable := rejection.value.unavailable + {c}));
    }

    method Reject(w: World, c: Component) returns (ok: bool)
      requires Workable(Value())
      modifies this
      ensures Ran(Value(), ok) == Steps.Reject(w, old(Value()), c)
    {
      ghost var before := Value();
      if rejection.Some? {
        if c != Steps.Component.Session {
          MarkLost(c);
        }
      } else {
        ok := BeginReject(w, c);
        if !ok {
          return;
        }
      }
      if c == Recorder {
        phase := Review;
      }
      ok := w.disk;
    }

    method CutOff(now: int)
      modifies this`active
      ensures Value() == Cut(old(Value()), now)
    {
      if active.Some? && active.value.start != 0 && active.value.cutoff == 0 {
        active := Some(active.value.(cutoff := now));
      }
    }

    method Latch(w: World, c: Component)
      requires rejection.None?
      modifies this
      ensures Value() == Latched(w, old(Value()), c)
    {
      hide Cut, Interrupted;
      var choice :=
        if active.Some? && active.value.reason.AbortKey? then Some(Discard) else if quit then Some(Save) else None;
      CutOff(w.now);
      Interrupt(w.error);
      rejection := Some(Rejection(if c == Arm || c == Steps.Component.Session then {} else {c}, choice, 0));
    }

    method Revoke(w: World)
      requires rejection.Some?
      modifies this
      ensures Value() == Revoked(w, old(Value()))
    {
      if !w.motionReject {
        MarkLost(Arm);
      }
      if w.motionAfter.Unusable? {
        MarkLost(Arm);
      }
      if !phase.Finalizing? {
        phase := Review;
      }
    }

    method BeginReject(w: World, c: Component) returns (ok: bool)
      requires Workable(Value()) && rejection.None?
      modifies this
      ensures Ran(Value(), ok) == BeginRejection(w, old(Value()), c)
    {
      Latch(w, c);
      Revoke(w);
      ok := true;
      if active.Some? && active.value.start != 0 && !active.value.stopSent && !phase.Finalizing? && !Lost(Recorder) {
        if w.freeze {
          Note(FreezeSent(active.value.cutoff));
        } else {
          MarkLost(Recorder);
          phase, ok := Review, w.disk;
        }
      }
    }

    method StopEpisode(w: World, reason: Reason) returns (ok: bool)
      requires Workable(Value()) && phase.Recording?
      modifies this
      ensures Ran(Value(), ok) == StopRecording(w, old(Value()), reason)
    {
      active := Some(active.value.(reason := reason));
      if !w.motionStop || !w.motionAfter.Halting? {
        return false;
      }
      active, phase := Some(active.value.(cutoff := w.now)), Phase.Stopping;
      ok := true;
    }

    method QuitNow(w: World) returns (ok: bool)
      requires Workable(Value())
      modifies this
      ensures Ran(Value(), ok) == Quit(w, old(Value()))
    {
      quit, ok := true, true;
      if rejection.Some? {
        if phase.Review? {
          rejection := Some(rejection.value.(choice := Some(Save)));
        }
      } else if phase.Recording? {
        ok := StopEpisode(w, SessionEnd);
      } else if w.motion.Homing? {
        ok := w.motionStop;
      } else if phase.Preparing? || phase.Engaging? {
        active, phase := Some(active.value.(reason := SessionEnd)), Closing;
      }
    }

    method OpenEpisode()
      modifies this
      ensures Value() == NewEpisode(old(Value()))
    {
      active := Some(Episode(|completed|, 0, 0, 0, false, Unstarted, None, false));
      prepared := prepared + 1;
    }

    method Press(w: World, key: Key) returns (ok: bool)
      requires Workable(Value())
      modifies this
      ensures Ran(Value(), ok) == Pressed(w, old(Value()), key)
    {
      if key == Other {
        return true;
      }
      hide Quit, StopRecording, NewEpisode;
      if key == Q {
        ok := QuitNow(w);
        return;
      }
      var previous := lastKey;
      lastKey, ok := w.now, true;
      if w.now - previous < KEY_INTERVAL_NS {
        return;
      }
      if phase.Review? {
        rejection := Some(rejection.value.(choice := Some(if key == A then Discard else Save)));
      } else if phase.Blocked? {
      } else if phase.Recording? {
        ok := StopEpisode(w, if key == SpaceBar then Space else if key == F then FailKey else AbortKey);
      } else if key != SpaceBar {
      } else if phase.Engaging? && w.motion.Ready? {
        ok := w.motionKey;
      } else if phase.Idle? && !quit {
        if w.motion.Ready? {
          OpenEpisode();
          if !w.prepare {
            return false;
          }
          Note(PrepareSent);
          phase, ok := Preparing, w.disk;
        } else {
          ok := w.motionKey;
        }
      }
    }

    method KeyPressed(w: World, key: Key) returns (ok: bool)
      requires Workable(Value())
      modifies this
      ensures Ran(Value(), ok) == KeyStroke(w, old(Value()), key)
    {
      ok := Press(w, key);
      if !ok {
        ok := Reject(w, Steps.Component.Session);
      }
    }

    method ListPartial(w: World) returns (ok: bool)
      requires active.Some?
      modifies this
      ensures Ran(Value(), ok) == Partial(w, old(Value()))
    {
      var a := active.value;
      completed := completed + [Entry(a.number, Aborted, false, a.reason, a.interruption, a.settledNs, a.held)];
      active, phase, ok := None, Resolving, w.disk;
    }

    method Reply(w: World, reply: Steps.Reply) returns (ok: bool)
      requires Workable(Value())
      modifies this
      ensures Ran(Value(), ok) == Answer(w, old(Value()), reply)
    {
      match reply
      case PrepareReply =>
        if !phase.Preparing? {
          return quit || rejection.Some?;
        }
        if w.motionKey {
          phase := Engaging;
        }
        ok := w.motionKey;
      case CancelledReply =>
        if !phase.Cancelling? {
          return false;
        }
        ok := ListPartial(w);
      case CompleteReply =>
        if !phase.Finalizing? || active.value.settledNs == 0 || !w.outcome {
          return false;
        }
        var a := active.value;
        completed := completed
          + [Entry(a.number, a.Disposition(), true, a.reason, a.interruption, a.settledNs, a.held)];
        active, phase, ok := None, if rejection.Some? then Resolving else Idle, w.saved;
    }

    method Poll(w: World) returns (ok: bool)
      requires Workable(Value())
      modifies this
      ensures Ran(Value(), ok) == Polled(w, old(Value()))
    {
      if !w.poll {
        return false;
      }
      ghost var expected := Answers(w, Value(), w.replies);
      for i := 0 to |w.replies|
        invariant Workable(Value()) && Answers(w, Value(), w.replies[i..]) == expected
      {
        assert w.replies[i..][0] == w.replies[i] && w.replies[i..][1..] == w.replies[i + 1..];
        ok := Reply(w, w.replies[i]);
        if !ok {
          return;
        }
      }
      ok := true;
    }

    /** Contain a failed part of a step. */
    method Contain(w: World, c: Component, done: bool) returns (ok: bool)
      requires Workable(Value())
      modifies this
      ensures Ran(Value(), ok) == if done then Ran(old(Value()), true) else Steps.Reject(w, old(Value()), c)
    {
      ok := true;
      if !done {
        ok := Reject(w, c);
      }
    }

    method Finalize(w: World) returns (ok: bool)
      requires Workable(Value()) && active.Some?
      modifies this
      ensures Ran(Value(), ok) == Guarded(w, old(Value()), Recorder, Finalized(w, old(Value())))
    {
      if Lost(Recorder) {
        return true;
      }
      if w.settle {
        Note(SettledSent);
        phase := Finalizing;
      }
      ok := Contain(w, Recorder, w.settle);
    }

    method Cancel(w: World) returns (ok: bool)
      requires Workable(Value()) && active.Some? && rejection.Some?
      modifies this
      ensures Ran(Value(), ok) == Cancelled(w, old(Value()))
    {
      if Lost(Recorder) {
        ok := ListPartial(w);
      } else {
        phase := Cancelling;
        if w.cancel {
          Note(CancelSent);
        }
        ok := Contain(w, Recorder, w.cancel);
      }
    }

    method Resolve(w: World) returns (ok: bool)
      requires Workable(Value()) && phase.Resolving?
      modifies this
      ensures Ran(Value(), ok) == Resolved(w, old(Value()))
    {
      if rejection.value.unavailable != {} {
        phase, ok := Phase.Blocked, w.disk;
      } else if w.motion.Held? {
        rejection, phase, ok := None, Idle, w.disk;
      } else {
        ok := true;
      }
    }

    method ReviewNow(w: World) returns (ok: bool)
      requires Workable(Value()) && phase.Review?
      modifies this
      ensures Ran(Value(), ok) == Reviewed(w, old(Value()))
    {
      hide Guarded, Resolved, Cancelled, Finalized;
      var r := rejection.value;
      ok := true;
      if r.choice.None? {
      } else if active.None? {
        phase := Resolving;
        ok := Resolve(w);
      } else if r.choice == Some(Discard) || active.value.start == 0 {
        ok := Cancel(w);
      } else if r.unavailable - {Arm} != {} {
        rejection := Some(r.(choice := None));
        if quit {
          ok := Cancel(w);
        }
      } else if active.value.stopSent && ((w.motion.Held? && Arm !in r.unavailable) || r.stoppedNs != 0) {
        ok := Finalize(w);
      } else if Arm in r.unavailable && w.overdue {
        rejection := Some(r.(choice := None));
        if quit {
          ok := Cancel(w);
        }
      }
    }

    method Confirm(w: World)
      requires Workable(Value()) && active.Some?
      modifies this`active
      ensures Value() == Confirmed(w, old(Value()))
    {
      if w.motion.Held? && active.value.settledNs == 0 && !Lost(Arm) {
        active := Some(active.value.(settledNs := w.now, held := true));
      }
      if rejection.Some? && rejection.value.stoppedNs != 0 {
        active := Some(active.value.(settledNs := rejection.value.stoppedNs));
      }
    }

    method SendSamples(w: World) returns (ok: bool)
      requires Workable(Value())
      modifies this`sent
      ensures Ran(Value(), ok) == Sampled(w, old(Value()))
    {
      if w.samples && w.sampled {
        Note(SamplesSent);
      }
      ok := w.samples;
    }

    method SendTail(w: World) returns (ok: bool)
      requires Workable(Value()) && active.Some?
      modifies this
      ensures Ran(Value(), ok) == Guarded(w, old(Value()), Recorder, Tailed(w, old(Value())))
    {
      if Lost(Recorder) || active.value.stopSent || !w.covered {
        return true;
      }
      ok := SendSamples(w);
      if ok && w.stop {
        Note(StopSent(active.value.cutoff));
        active := Some(active.value.(stopSent := true));
      }
      ok := Contain(w, Recorder, ok && w.stop);
    }

    method Settle(w: World) returns (ok: bool)
      requires Workable(Value())
      modifies this
      ensures Ran(Value(), ok) == Settling(w, old(Value()))
    {
      hide Confirmed, Tailed, Finalized, Reviewed, Steps.Reject;
      var listening := !Lost(Readers);
      ok := true;
      if active.Some? && active.value.start != 0 {
        Confirm(w);
        if listening {
          ok := SendTail(w);
        }
      }
      if !ok {
        return;
      }
      if phase.Stopping? && w.motion.Held? {
        if active.value.stopSent {
          ok := Finalize(w);
        }
      } else if phase.Review? {
        if !Lost(Steps.Component.Session) {
          ok := ReviewNow(w);
          ok := Contain(w, Steps.Component.Session, ok);
        }
      }
    }

    method PollNow(w: World) returns (ok: bool)
      requires Workable(Value())
      modifies this
      ensures Ran(Value(), ok) == Guarded(w, old(Value()), Recorder, Polled(w, old(Value())))
    {
      hide Steps.Reject, Polled;
      ok := true;
      if !Lost(Recorder) {
        ok := Poll(w);
        ok := Contain(w, Recorder, ok);
      }
    }

    /** Replies, readers and motion first, then the recording itself. */
    method Advance(w: World) returns (ok: bool)
      requires Workable(Value())
      modifies this
      ensures Ran(Value(), ok) == Step(w, old(Value()))
    {
      hide Steps.Reject, Polled, Recorded;
      ok := PollNow(w);
      if !ok {
        return;
      }
      ok := Contain(w, Readers, w.readers || Lost(Readers));
      if !ok {
        return;
      }
      ok := Contain(w, Arm, w.motionStep || Lost(Arm));
      if !ok {
        return;
      }
      if Lost(Arm) {
        rejection := Some(rejection.value.(stoppedNs := w.stoppedNs));
      }
      ok := Record(w);
    }

    method Record(w: World) returns (ok: bool)
      requires Workable(Value())
      modifies this
      ensures Ran(Value(), ok) == Recorded(w, old(Value()))
    {
      hide Steps.Reject, Settling, Resolved;
      ok := true;
      if phase.Engaging? && w.motion.Following? && !Lost(Recorder) {
        active := Some(active.value.(reason := Started, start := w.start));
        if w.begin {
          Note(BeginSent(w.start));
          phase := Recording;
        }
        ok := Contain(w, Recorder, w.begin);
      }
      if !ok {
        return;
      }
      if phase.Recording? {
        if !Lost(Recorder) {
          ok := SendSamples(w);
          ok := Contain(w, Recorder, ok);
        }
      } else if phase.Stopping? || phase.Review? {
        ok := Settle(w);
      } else if phase.Resolving? {
        ok := Resolve(w);
      }
    }

    method Close(w: World)
      modifies this
      ensures Value() == Steps.Close(w, old(Value()))
    {
      if closed {
        return;
      }
      var complete := Finished(w, State(phase, active, completed, quit, lastKey, rejection, closed, 0, []));
      closed := true;
      if !w.motionClose {
        Interrupt(w.error);
      }
      if active.Some? {
        if !(complete && w.motionClose) {
          Interrupt("session interrupted");
        }
        var _ := ListPartial(w);
      }
    }
  }
}

/** Episode accounting of the collection session under arbitrary component failures. */
module CollectionProofs {
  import opened Prelude
  import opened CollectionSteps

  // The invariant.

  /** What a success on record requires. */
  predicate Earned(entry: Entry) {
    && (entry.disposition.Success? ==>
          entry.reason.Space? && entry.held && entry.settledNs != 0 && entry.verified && entry.interruption.None?)
    && (entry.interruption.Some? || !entry.verified ==> entry.disposition.Aborted?)
  }

  /** Each prepared episode is either on record under its number or the active one. */
  ghost predicate Accounted(s: State) {
    && (forall i :: 0 <= i < |s.completed| ==> s.completed[i].number == i && Earned(s.completed[i]))
    && (s.active.Some? ==> s.active.value.number == |s.completed|)
    && s.prepared == |s.completed| + (if s.active.Some? then 1 else 0)
  }

  predicate Stuck(s: State) {
    s.rejection.Some? && s.rejection.value.unavailable != {}
  }

  /** A rejection interrupts its episode, and an uninterrupted confirmed stop was seen held. */
  predicate Guarding(s: State) {
    && (s.rejection.Some? ==>
          s.phase.Review? || s.phase.Resolving? || s.phase.Cancelling? || s.phase.Finalizing? || s.phase.Blocked?)
    && (s.rejection.Some? && s.active.Some? ==> s.active.value.interruption.Some?)
    && (s.active.Some? && s.active.value.interruption.None? && s.active.value.settledNs != 0 ==> s.active.value.held)
    && (s.phase.Blocked? ==> Stuck(s))
  }

  predicate Quiet(s: State) {
    s.phase.Idle? || s.phase.Resolving? || s.phase.Blocked? ==> s.active.None?
  }

  ghost predicate Core(s: State) {
    Workable(s) && Accounted(s) && Guarding(s)
  }

  ghost predicate Sound(s: State) {
    Core(s) && Quiet(s)
  }

  /** A state a failed operation may leave for a rejection to repair. */
  ghost predicate Rejectable(s: State) {
    Core(s) && (s.rejection.Some? ==> Quiet(s))
  }

  /** What every part of every operation preserves over time. */
  ghost predicate Evolves(s: State, t: State) {
    && s.completed <= t.completed && s.prepared <= t.prepared && t.closed == s.closed
    && (Stuck(s) ==> Stuck(t) && t.prepared == s.prepared)
    && (s.active.Some? && s.active.value.interruption.Some? ==> Doomed(t, s.active.value.number))
  }

  /** An episode that can no longer be anything but aborted. */
  predicate Doomed(s: State, number: nat) {
    || (s.active.Some? && s.active.value.number == number && s.active.value.interruption.Some?)
    || (number < |s.completed| && s.completed[number].disposition.Aborted?)
  }

  lemma EvolvesChain(s: State, t: State, u: State)
    requires Evolves(s, t) && Evolves(t, u)
    ensures Evolves(s, u)
  {
  }

  // Rejections.

  lemma RejectMoreSound(w: World, s: State, c: Component)
    requires Sound(s) && s.rejection.Some?
    ensures Sound(RejectMore(w, s, c).s) && Evolves(s, RejectMore(w, s, c).s)
    ensures RejectMore(w, s, c).s.rejection.Some?
  {
  }

  lemma LatchedSound(w: World, s: State, c: Component)
    requires Core(s) && s.rejection.None?
    ensures var t := Latched(w, s, c);
            && Accounted(t) && Evolves(s, t) && t.rejection.Some? && t.phase == s.phase
            && (t.active.Some? <==> s.active.Some?) && (t.active.Some? ==> t.active.value.interruption.Some?)
  {
    hide Earned;
  }

  lemma RevokedSound(w: World, s: State)
    requires Accounted(s) && s.rejection.Some? && (s.active.Some? ==> s.active.value.interruption.Some?)
    requires s.phase.Finalizing? ==> s.active.Some?
    ensures Sound(Revoked(w, s)) && Evolves(s, Revoked(w, s)) && Revoked(w, s).rejection.Some?
  {
    hide Earned;
  }

  lemma BeginSound(w: World, s: State, c: Component)
    requires Core(s) && s.rejection.None?
    ensures Sound(BeginRejection(w, s, c).s) && Evolves(s, BeginRejection(w, s, c).s)
    ensures BeginRejection(w, s, c).s.rejection.Some?
  {
    hide Latched, Revoked, Evolves, Accounted, Guarding, RejectMore;
    LatchedSound(w, s, c);
    var latched := Latched(w, s, c);
    RevokedSound(w, latched);
    var paused := Revoked(w, latched);
    EvolvesChain(s, latched, paused);
    RejectMoreSound(w, paused, Recorder);
    EvolvesChain(s, paused, RejectMore(w, paused, Recorder).s);
    if Freezable(paused) {
      var sent := Sent(paused, FreezeSent(paused.active.value.cutoff));
      SentSound(paused, FreezeSent(paused.active.value.cutoff));
      EvolvesChain(s, paused, sent);
    }
  }

  lemma RejectSound(w: World, s: State, c: Component)
    requires Rejectable(s)
    ensures Sound(Reject(w, s, c).s) && Evolves(s, Reject(w, s, c).s)
  {
    hide BeginRejection, RejectMore, Accounted;
    if s.rejection.Some? {
      RejectMoreSound(w, s, c);
    } else {
      BeginSound(w, s, c);
      var begun := BeginRejection(w, s, c).s;
      EvolvesChain(s, begun, Reject(w, s, c).s) by {
        ReviewEvolves(begun);
      }
      ReviewEvolves(begun);
    }
  }

  lemma ReviewEvolves(s: State)
    requires Sound(s) && s.rejection.Some?
    ensures Sound(s.(phase := Review)) && Evolves(s, s.(phase := Review)) && Evolves(s, s)
  {
  }

  /** A contained operation is sound when its success is, and its failure can be rejected. */
  lemma GuardedSound(w: World, s: State, c: Component, r: Ran)
    requires Sound(s) && (if r.ok then Sound(r.s) else Rejectable(r.s)) && Evolves(s, r.s)
    ensures Workable(s) && Workable(r.s)
    ensures Sound(Guarded(w, s, c, r).s) && Evolves(s, Guarded(w, s, c, r).s)
  {
    SoundIsReady(s);
    RejectableIsReady(r.s);
    hide Reject, Core, Quiet;
    Unchanged(s);
    if !r.ok {
      RejectSound(w, r.s, c);
      EvolvesChain(s, r.s, Reject(w, r.s, c).s);
    }
  }

  lemma SoundIsReady(s: State)
    requires Sound(s)
    ensures Workable(s)
  {
  }

  lemma RejectableIsReady(s: State)
    requires Rejectable(s) || Sound(s)
    ensures Workable(s)
  {
  }

  lemma Unchanged(s: State)
    requires Sound(s)
    ensures Evolves(s, s)
  {
  }

  // Keys.

  lemma StopSound(w: World, s: State, reason: Reason)
    requires Sound(s) && s.phase.Recording?
    ensures Sound(StopRecording(w, s, reason).s) && Evolves(s, StopRecording(w, s, reason).s)
  {
    hide Earned;
  }

  lemma QuitSound(w: World, s: State)
    requires Sound(s)
    ensures Sound(Quit(w, s).s) && Evolves(s, Quit(w, s).s)
  {
    var quitting := s.(quit := true);
    assert Sound(quitting) && Evolves(s, quitting);
    if s.rejection.None? && s.phase.Recording? {
      StopSound(w, quitting, SessionEnd);
      EvolvesChain(s, quitting, StopRecording(w, quitting, SessionEnd).s);
    }
    hide Earned, StopRecording;
  }

  lemma NewSound(s: State)
    requires Sound(s) && s.phase.Idle?
    ensures var t := NewEpisode(s);
            && Rejectable(t) && Evolves(s, t)
            && Sound(t.(phase := Preparing)) && Evolves(s, t.(phase := Preparing))
  {
  }

  lemma PreparedSound(s: State)
    requires Sound(s) && s.phase.Idle?
    ensures var t := Sent(NewEpisode(s), PrepareSent).(phase := Preparing); Sound(t) && Rejectable(t) && Evolves(s, t)
  {
    NewSound(s);
    var t := NewEpisode(s).(phase := Preparing);
    SentSound(t, PrepareSent);
    EvolvesChain(s, t, Sent(t, PrepareSent));
    SoundIsRejectable(Sent(t, PrepareSent));
    hide Sound, Evolves, Rejectable, NewEpisode;
  }

  lemma NotedSound(s: State, now: int)
    requires Sound(s)
    ensures Sound(s.(lastKey := now)) && Evolves(s, s.(lastKey := now))
  {
  }

  lemma ChosenSound(s: State, choice: Option<Choice>)
    requires Sound(s) && s.rejection.Some?
    ensures var t := s.(rejection := Some(s.rejection.value.(choice := choice))); Sound(t) && Evolves(s, t)
  {
  }

  lemma SoundIsRejectable(s: State)
    requires Sound(s)
    ensures Rejectable(s)
  {
  }

  lemma PressedSound(w: World, s: State, key: Key)
    requires Sound(s)
    ensures Workable(s)
    ensures var r := Pressed(w, s, key);
            (if r.ok then Sound(r.s) else Rejectable(r.s)) && Evolves(s, r.s)
  {
    SoundIsReady(s);
    Unchanged(s);
    SoundIsRejectable(s);
    QuitSound(w, s);
    SoundIsRejectable(Quit(w, s).s);
    var noted := s.(lastKey := w.now);
    NotedSound(s, w.now);
    SoundIsReady(noted);
    SoundIsRejectable(noted);
    hide Sound, Rejectable, Evolves, Quit, StopRecording, NewEpisode, Sent;
    if noted.phase.Recording? {
      var reason := if key == SpaceBar then Space else if key == F then FailKey else AbortKey;
      StopSound(w, noted, reason);
      SoundIsRejectable(StopRecording(w, noted, reason).s);
      EvolvesChain(s, noted, StopRecording(w, noted, reason).s);
    } else if noted.phase.Review? {
      var choice := Some(if key == A then Discard else Save);
      ChosenSound(noted, choice);
      EvolvesChain(s, noted, noted.(rejection := Some(noted.rejection.value.(choice := choice))));
    } else if noted.phase.Idle? {
      NewSound(noted);
      var added := NewEpisode(noted);
      PreparedSound(noted);
      EvolvesChain(s, noted, added);
      EvolvesChain(s, noted, Sent(added, PrepareSent).(phase := Preparing));
    }
  }

  lemma KeySound(w: World, s: State, key: Key)
    requires Sound(s)
    ensures Sound(KeyStroke(w, s, key).s) && Evolves(s, KeyStroke(w, s, key).s)
  {
    PressedSound(w, s, key);
    var r := Pressed(w, s, key);
    RejectableIsReady(r.s);
    hide Pressed, Reject, Sound, Rejectable, Evolves;
    if !r.ok {
      RejectSound(w, r.s, Session);
      EvolvesChain(s, r.s, Reject(w, r.s, Session).s);
    }
  }

  // Steps.

  lemma PartialSound(w: World, s: State)
    requires Core(s) && s.active.Some? && s.rejection.Some?
    ensures Sound(Partial(w, s).s) && Evolves(s, Partial(w, s).s)
  {
  }

  lemma CompletedSound(s: State)
    requires Sound(s) && s.phase.Finalizing? && s.active.value.settledNs != 0
    ensures Sound(Completed(s)) && Evolves(s, Completed(s))
  {
  }

  lemma AnswerSound(w: World, s: State, reply: Reply)
    requires Sound(s)
    ensures Sound(Answer(w, s, reply).s) && Evolves(s, Answer(w, s, reply).s)
  {
    hide Earned;
    Unchanged(s);
    match reply
    case PrepareReply =>
    case CancelledReply => if s.phase.Cancelling? { PartialSound(w, s); hide Partial; }
    case CompleteReply =>
      if s.phase.Finalizing? && s.active.value.settledNs != 0 {
        CompletedSound(s);
        hide Completed;
      }
  }

  lemma {:induction false} AnswersSound(w: World, s: State, replies: seq<Reply>)
    requires Sound(s)
    ensures Sound(Answers(w, s, replies).s) && Evolves(s, Answers(w, s, replies).s)
    decreases |replies|
  {
    SoundIsReady(s);
    hide Answer, Sound, Evolves;
    Unchanged(s);
    if replies != [] {
      var r := Answer(w, s, replies[0]);
      AnswerSound(w, s, replies[0]);
      if r.ok {
        AnswersSound(w, r.s, replies[1..]);
        EvolvesChain(s, r.s, Answers(w, r.s, replies[1..]).s);
      }
    }
  }

  lemma BeganSound(w: World, s: State)
    requires Sound(s) && s.phase.Engaging?
    ensures Sound(Began(w, s).s) && Evolves(s, Began(w, s).s)
  {
  }

  lemma ObservedSound(w: World, s: State)
    requires Sound(s)
    ensures Sound(Observed(w, s)) && Evolves(s, Observed(w, s))
  {
  }

  lemma ConfirmedSound(w: World, s: State)
    requires Sound(s) && s.active.Some?
    ensures Sound(Confirmed(w, s)) && Evolves(s, Confirmed(w, s))
  {
  }

  /** A message to the recorder changes nothing the accounting rests on. */
  lemma SentSound(s: State, m: Message)
    requires Sound(s)
    ensures Sound(Sent(s, m)) && Evolves(s, Sent(s, m))
  {
  }

  lemma SampledSound(w: World, s: State)
    requires Sound(s)
    ensures Sound(Sampled(w, s).s) && Evolves(s, Sampled(w, s).s)
  {
    SentSound(s, SamplesSent);
    Unchanged(s);
    hide Sound, Evolves, Sent;
  }

  lemma TailedSound(w: World, s: State)
    requires Sound(s) && s.active.Some?
    ensures Sound(Tailed(w, s).s) && Evolves(s, Tailed(w, s).s)
  {
    hide Earned;
  }

  lemma FinalizedSound(w: World, s: State)
    requires Sound(s) && s.active.Some? && (s.phase.Stopping? || s.phase.Review?)
    ensures Sound(Finalized(w, s).s) && Evolves(s, Finalized(w, s).s)
  {
  }

  lemma CancelledSound(w: World, s: State)
    requires Sound(s) && s.active.Some? && s.phase.Review?
    ensures Sound(Cancelled(w, s).s) && Evolves(s, Cancelled(w, s).s)
  {
    if Unavailable(s, Recorder) {
      PartialSound(w, s);
    } else {
      var t := s.(phase := Cancelling);
      assert Sound(t) && Evolves(s, t) && Evolves(t, t);
      GuardedSound(w, t, Recorder, Ran(t, w.cancel));
      EvolvesChain(s, t, Guarded(w, t, Recorder, Ran(t, w.cancel)).s);
    }
  }

  lemma ResolvedSound(w: World, s: State)
    requires Sound(s) && s.phase.Resolving?
    ensures Sound(Resolved(w, s).s) && Evolves(s, Resolved(w, s).s)
  {
  }

  lemma UnchosenSound(s: State)
    requires Sound(s) && s.rejection.Some?
    ensures Sound(Unchosen(s)) && Evolves(s, Unchosen(s))
  {
  }

  lemma ReviewedSound(w: World, s: State)
    requires Sound(s) && s.phase.Review?
    ensures Sound(Reviewed(w, s).s) && Evolves(s, Reviewed(w, s).s)
  {
    Unchanged(s);
    UnchosenSound(s);
    if s.active.None? {
      var t := s.(phase := Resolving);
      assert Sound(t) && Evolves(s, t);
      ResolvedSound(w, t);
      EvolvesChain(s, t, Resolved(w, t).s);
    } else {
      CancelledSound(w, s);
      CancelledSound(w, Unchosen(s));
      EvolvesChain(s, Unchosen(s), Cancelled(w, Unchosen(s)).s);
      FinalizedSound(w, s);
      GuardedSound(w, s, Recorder, Finalized(w, s));
    }
    hide Resolved, Cancelled, Guarded, Finalized, Sound, Evolves;
  }

  lemma SettlingSound(w: World, s: State)
    requires Sound(s)
    ensures Sound(Settling(w, s).s) && Evolves(s, Settling(w, s).s)
  {
    hide Sound, Evolves, Guarded, Tailed, Finalized, Reviewed, Confirmed;
    Unchanged(s);
    SoundIsReady(s);
    var tailed := Ran(s, true);
    if s.active.Some? && s.active.value.start != 0 {
      var confirmed := Confirmed(w, s);
      ConfirmedSound(w, s);
      Unchanged(confirmed);
      SoundIsReady(confirmed);
      tailed := Ran(confirmed, true);
      if !Unavailable(s, Readers) {
        TailedSound(w, confirmed);
        tailed := Guarded(w, confirmed, Recorder, Tailed(w, confirmed));
        ContainSound(w, confirmed, Recorder, Tailed(w, confirmed));
        EvolvesChain(s, confirmed, tailed.s);
      }
    }
    var t := tailed.s;
    if tailed.ok {
      SoundIsReady(t);
      if t.phase.Stopping? && w.motion.Held? {
        if t.active.value.stopSent {
          FinalizedSound(w, t);
          ContainSound(w, t, Recorder, Finalized(w, t));
          EvolvesChain(s, t, Guarded(w, t, Recorder, Finalized(w, t)).s);
        }
      } else if t.phase.Review? {
        ReviewedSound(w, t);
        ContainSound(w, t, Session, Reviewed(w, t));
        EvolvesChain(s, t, Guarded(w, t, Session, Reviewed(w, t)).s);
      }
    }
  }

  /** Containing an operation that is sound whether or not it raises. */
  lemma ContainSound(w: World, s: State, c: Component, r: Ran)
    requires Sound(s) && Sound(r.s) && Evolves(s, r.s)
    ensures Workable(s) && Workable(r.s)
    ensures Sound(Guarded(w, s, c, r).s) && Evolves(s, Guarded(w, s, c, r).s)
  {
    GuardedSound(w, s, c, r);
  }

  lemma RecordedSound(w: World, s: State)
    requires Sound(s)
    ensures Sound(Recorded(w, s).s) && Evolves(s, Recorded(w, s).s)
  {
    hide Sound, Evolves, Guarded, Began, Settling, Resolved, Sampled;
    Unchanged(s);
    SoundIsReady(s);
    var begun := Ran(s, true);
    if s.phase.Engaging? && w.motion.Following? {
      BeganSound(w, s);
      ContainSound(w, s, Recorder, Began(w, s));
      begun := Guarded(w, s, Recorder, Began(w, s));
    }
    var t := begun.s;
    SoundIsReady(t);
    Unchanged(t);
    if begun.ok {
      if t.phase.Recording? {
        SampledSound(w, t);
        ContainSound(w, t, Recorder, Sampled(w, t));
        EvolvesChain(s, t, Guarded(w, t, Recorder, Sampled(w, t)).s);
      } else if t.phase.Stopping? || t.phase.Review? {
        SettlingSound(w, t);
        EvolvesChain(s, t, Settling(w, t).s);
      } else if t.phase.Resolving? {
        ResolvedSound(w, t);
        EvolvesChain(s, t, Resolved(w, t).s);
      }
    }
  }

  lemma StepSound(w: World, s: State)
    requires Sound(s)
    ensures Sound(Step(w, s).s) && Evolves(s, Step(w, s).s)
  {
    hide Sound, Evolves, Guarded, Polled, Recorded, Observed;
    SoundIsReady(s);
    PolledSound(w, s);
    ContainSound(w, s, Recorder, Polled(w, s));
    var a := Guarded(w, s, Recorder, Polled(w, s));
    Unchanged(a.s);
    if a.ok {
      ContainSound(w, a.s, Readers, Ran(a.s, w.readers));
      var b := Guarded(w, a.s, Readers, Ran(a.s, w.readers));
      EvolvesChain(s, a.s, b.s);
      Unchanged(b.s);
      if b.ok {
        ContainSound(w, b.s, Arm, Ran(b.s, w.motionStep));
        var c := Guarded(w, b.s, Arm, Ran(b.s, w.motionStep));
        EvolvesChain(s, b.s, c.s);
        if c.ok {
          ObservedSound(w, c.s);
          var d := Observed(w, c.s);
          EvolvesChain(s, c.s, d);
          RecordedSound(w, d);
          EvolvesChain(s, d, Recorded(w, d).s);
        }
      }
    }
  }

  lemma PolledSound(w: World, s: State)
    requires Sound(s)
    ensures Sound(Polled(w, s).s) && Evolves(s, Polled(w, s).s)
  {
    hide Answers, Sound, Evolves;
    Unchanged(s);
    AnswersSound(w, s, w.replies);
  }

  // Runs.

  /** A key, a step, or an interruption from outside, with everything the components do meanwhile. */
  datatype Operation = Pressing(w: World, key: Key) | Stepping(w: World) | Interrupting(error: string)

  function Apply(s: State, op: Operation): (t: State)
    requires Workable(s)
    ensures Workable(t)
  {
    match op
    case Pressing(w, key) => KeyStroke(w, s, key).s
    case Stepping(w) => Step(w, s).s
    case Interrupting(error) => Interrupted(s, error)
  }

  function Run(s: State, ops: seq<Operation>): (t: State)
    requires Workable(s)
    ensures Workable(t)
    decreases |ops|
  {
    if ops == [] then s else Run(Apply(s, ops[0]), ops[1..])
  }

  lemma InterruptedSound(s: State, error: string)
    requires Sound(s)
    ensures Sound(Interrupted(s, error)) && Evolves(s, Interrupted(s, error))
  {
  }

  lemma ApplySound(s: State, op: Operation)
    requires Sound(s)
    ensures Sound(Apply(s, op)) && Evolves(s, Apply(s, op))
  {
    hide Sound, Evolves, KeyStroke, Step, Interrupted;
    match op
    case Pressing(w, key) => KeySound(w, s, key);
    case Stepping(w) => StepSound(w, s);
    case Interrupting(error) => InterruptedSound(s, error);
  }

  lemma {:induction false} RunSound(s: State, ops: seq<Operation>)
    requires Sound(s)
    ensures Sound(Run(s, ops)) && Evolves(s, Run(s, ops))
    decreases |ops|
  {
    hide Sound, Evolves, Apply;
    Unchanged(s);
    if ops != [] {
      ApplySound(s, ops[0]);
      SoundIsReady(s);
      RunSound(Apply(s, ops[0]), ops[1..]);
      EvolvesChain(s, Apply(s, ops[0]), Run(Apply(s, ops[0]), ops[1..]));
    }
  }

  lemma InitialSound()
    ensures Sound(INITIAL)
  {
  }

  lemma CloseAccounts(w: World, s: State)
    requires Sound(s) && !s.closed
    ensures var t := Close(w, s);
            && t.active.None? && |t.completed| == t.prepared == s.prepared && s.completed <= t.completed
            && forall i :: 0 <= i < |t.completed| ==> t.completed[i].number == i && Earned(t.completed[i])
  {
    hide Finished;
  }

  /**
   * Whatever the components do, over every sequence of keys, steps and interruptions: once closed, the report lists
   * each prepared episode exactly once, the i-th under number i, and every success was stopped by Space, seen held,
   * verified, and never interrupted. Closing is taken from the point where the readers and the recorder have been asked
   * to stop; if one of those two requests raises, the program leaves the active episode unlisted.
   */
  lemma EachEpisodeOnce(ops: seq<Operation>, w: World)
    ensures var before, after := Run(INITIAL, ops), Close(w, Run(INITIAL, ops));
            && after.active.None? && |after.completed| == before.prepared
            && before.completed <= after.completed
            && forall i :: 0 <= i < |after.completed| ==> after.completed[i].number == i && Earned(after.completed[i])
  {
    InitialSound();
    RunSound(INITIAL, ops);
    hide Run, Close, Sound, Evolves;
    CloseAccounts(w, Run(INITIAL, ops));
  }

  /** A blocked session never starts another episode and never becomes usable again. */
  lemma BlockedStaysBlocked(ops: seq<Operation>, more: seq<Operation>)
    requires Run(INITIAL, ops).phase.Blocked?
    ensures var s := Run(INITIAL, ops);
            var t := Run(s, more);
            t.prepared == s.prepared && Stuck(t) && !t.phase.Idle?
  {
    InitialSound();
    RunSound(INITIAL, ops);
    var s := Run(INITIAL, ops);
    RunSound(s, more);
    hide Run;
  }

  /** Once interrupted, an episode is aborted on record, whatever the operator or the recorder do later. */
  lemma InterruptionIsFinal(ops: seq<Operation>, more: seq<Operation>)
    requires var s := Run(INITIAL, ops); s.active.Some? && s.active.value.interruption.Some?
    ensures var s := Run(INITIAL, ops);
            Doomed(Run(s, more), s.active.value.number)
  {
    InitialSound();
    RunSound(INITIAL, ops);
    RunSound(Run(INITIAL, ops), more);
    hide Run, Sound;
  }
}

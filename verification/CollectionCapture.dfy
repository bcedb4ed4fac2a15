/** What the collection session tells the recorder, and why its captures are complete. */
module CollectionCapture {
  import opened Prelude
  import opened CollectionSteps
  import P = CollectionProofs
  import S = CaptureSteps
  import W = CaptureWindow
  import X = RecordingProofs

  // The messages of the session.

  /** The boundary a sequence of messages leaves in force. */
  function Frozen(ms: seq<Message>): Option<int>
    decreases |ms|
  {
    if ms == [] then None
    else match ms[|ms| - 1]
      case BeginSent(_) => None
      case FreezeSent(boundary) => Some(boundary)
      case StopSent(cutoff) => Some(cutoff)
      case CancelSent => None
      case _ => Frozen(ms[..|ms| - 1])
  }

  /** A freeze is only ever sent while no boundary is in force. */
  ghost predicate Tidy(ms: seq<Message>) {
    forall j :: 0 <= j < |ms| && ms[j].FreezeSent? ==> Frozen(ms[..j]).None?
  }

  /** A rejection begun now could freeze the recorder. */
  predicate Exposed(s: State) {
    s.active.Some? && s.active.value.start != 0 && !s.active.value.stopSent && s.rejection.None?
  }

  ghost predicate Careful(s: State) {
    Tidy(s.sent) && (Exposed(s) ==> Frozen(s.sent).None?)
  }

  lemma FrozenAppend(ms: seq<Message>, m: Message)
    ensures Frozen(ms + [m]) == match m
                                case BeginSent(_) => None
                                case FreezeSent(boundary) => Some(boundary)
                                case StopSent(cutoff) => Some(cutoff)
                                case CancelSent => None
                                case _ => Frozen(ms)
  {
    assert (ms + [m])[..|ms + [m]| - 1] == ms;
  }

  lemma TidyAppend(ms: seq<Message>, m: Message)
    requires Tidy(ms) && (m.FreezeSent? ==> Frozen(ms).None?)
    ensures Tidy(ms + [m])
  {
    hide Frozen;
    var all := ms + [m];
    forall j | 0 <= j < |all| && all[j].FreezeSent?
      ensures Frozen(all[..j]).None?
    {
      assert all[..j] == ms[..j];
      assert j == |ms| ==> ms[..j] == ms;
    }
  }

  /** A message other than a freeze, from a careful session. */
  lemma SentCareful(s: State, m: Message)
    requires Tidy(s.sent) && !m.FreezeSent?
    requires m.BeginSent? || m.CancelSent? || (Exposed(s) ==> !m.StopSent? && Frozen(s.sent).None?)
    ensures Careful(Sent(s, m))
  {
    FrozenAppend(s.sent, m);
    TidyAppend(s.sent, m);
    hide Frozen, Tidy;
  }

  // Rejections. A failed recorder is not frozen, so its episode may be past the point where it could have been.

  /** What pausing a session says about freezing it. */
  lemma PausedFacts(w: World, s: State, c: Component)
    requires Workable(s) && s.rejection.None?
    ensures var paused := Revoked(w, Latched(w, s, c));
            && paused.sent == s.sent && paused.rejection.Some?
            && (Freezable(paused) ==> Exposed(s) && c != Recorder)
  {
  }

  lemma BeginCareful(w: World, s: State, c: Component)
    requires Workable(s) && s.rejection.None? && Tidy(s.sent) && (c == Recorder || Careful(s))
    ensures Tidy(BeginRejection(w, s, c).s.sent) && BeginRejection(w, s, c).s.rejection.Some?
  {
    PausedFacts(w, s, c);
    var paused := Revoked(w, Latched(w, s, c));
    if Freezable(paused) {
      TidyAppend(s.sent, FreezeSent(paused.active.value.cutoff));
    }
    hide Frozen, Tidy, Revoked, Latched, Freezable, Exposed;
  }

  lemma RejectCareful(w: World, s: State, c: Component)
    requires Workable(s) && Tidy(s.sent) && (c == Recorder || Careful(s))
    ensures Careful(Reject(w, s, c).s)
  {
    if s.rejection.None? {
      BeginCareful(w, s, c);
    }
    hide Frozen, Tidy, BeginRejection;
  }

  lemma GuardedCareful(w: World, s: State, c: Component, r: Ran)
    requires Workable(s) && Workable(r.s) && Careful(s) && Tidy(r.s.sent)
    requires (!r.ok && c == Recorder) || Careful(r.s)
    ensures Careful(Guarded(w, s, c, r).s)
  {
    hide Reject, Careful;
    if !Unavailable(s, c) && !r.ok {
      RejectCareful(w, r.s, c);
    }
  }

  lemma TidyWhenCareful(s: State)
    requires Careful(s)
    ensures Tidy(s.sent)
  {
  }

  // Keys.

  lemma StopCareful(w: World, s: State, reason: Reason)
    requires Workable(s) && s.phase.Recording? && Careful(s)
    ensures Careful(StopRecording(w, s, reason).s)
  {
    hide Frozen, Tidy;
  }

  lemma QuitCareful(w: World, s: State)
    requires Workable(s) && Careful(s)
    ensures Careful(Quit(w, s).s)
  {
    if s.phase.Recording? {
      StopCareful(w, s.(quit := true), SessionEnd);
    }
    hide Frozen, Tidy, StopRecording;
  }

  lemma NewCareful(s: State)
    requires Careful(s)
    ensures Careful(NewEpisode(s)) && Careful(Sent(NewEpisode(s), PrepareSent))
  {
    SentCareful(NewEpisode(s), PrepareSent);
    hide Frozen, Tidy;
  }

  lemma PressedCareful(w: World, s: State, key: Key)
    requires Workable(s) && Careful(s)
    ensures Careful(Pressed(w, s, key).s)
  {
    var noted := s.(lastKey := w.now);
    QuitCareful(w, s);
    NewCareful(noted);
    if s.phase.Recording? {
      StopCareful(w, noted, if key == SpaceBar then Space else if key == F then FailKey else AbortKey);
    }
    hide Frozen, Tidy, StopRecording, Quit, NewEpisode, Sent;
  }

  lemma KeyCareful(w: World, s: State, key: Key)
    requires Workable(s) && Careful(s)
    ensures Careful(KeyStroke(w, s, key).s)
  {
    PressedCareful(w, s, key);
    var r := Pressed(w, s, key);
    TidyWhenCareful(r.s);
    hide Pressed, Reject, Careful;
    if !r.ok {
      RejectCareful(w, r.s, Session);
    }
  }

  // Steps.

  lemma AnswerCareful(w: World, s: State, reply: Reply)
    requires Workable(s) && Careful(s)
    ensures Careful(Answer(w, s, reply).s)
  {
    hide Frozen, Tidy;
  }

  lemma {:induction false} AnswersCareful(w: World, s: State, replies: seq<Reply>)
    requires Workable(s) && Careful(s)
    ensures Careful(Answers(w, s, replies).s)
    decreases |replies|
  {
    hide Answer, Careful;
    if replies != [] {
      AnswerCareful(w, s, replies[0]);
      var r := Answer(w, s, replies[0]);
      if r.ok {
        AnswersCareful(w, r.s, replies[1..]);
      }
    }
  }

  lemma PolledCareful(w: World, s: State)
    requires Workable(s) && Careful(s)
    ensures Careful(Guarded(w, s, Recorder, Polled(w, s)).s)
  {
    AnswersCareful(w, s, w.replies);
    TidyWhenCareful(Polled(w, s).s);
    hide Answers, Careful, Guarded;
    GuardedCareful(w, s, Recorder, Polled(w, s));
  }

  /** An episode whose beginning was not sent is started, but its recorder is lost. */
  lemma BeganCareful(w: World, s: State)
    requires Workable(s) && s.phase.Engaging? && Careful(s)
    ensures Careful(Guarded(w, s, Recorder, Began(w, s)).s)
  {
    var r := Began(w, s);
    var started := s.(active := Some(s.active.value.(reason := Started, start := w.start)));
    SentCareful(started, BeginSent(w.start));
    TidyWhenCareful(s);
    hide Frozen, Tidy, Guarded;
    if r.ok {
      TidyWhenCareful(r.s);
    }
    GuardedCareful(w, s, Recorder, r);
  }

  lemma SampledCareful(w: World, s: State)
    requires Workable(s) && Careful(s)
    ensures Careful(Sampled(w, s).s)
  {
    TidyWhenCareful(s);
    SentCareful(s, SamplesSent);
    hide Frozen, Tidy;
  }

  lemma TailedCareful(w: World, s: State)
    requires Workable(s) && s.active.Some? && Careful(s)
    ensures Careful(Tailed(w, s).s)
  {
    SampledCareful(w, s);
    var sampled := Sampled(w, s).s;
    TidyWhenCareful(sampled);
    var stopped := sampled.(active := Some(s.active.value.(stopSent := true)));
    SentCareful(stopped, StopSent(s.active.value.cutoff));
    hide Frozen, Tidy, Sampled;
  }

  lemma FinalizedCareful(w: World, s: State)
    requires Workable(s) && s.active.Some? && Careful(s)
    ensures Careful(Finalized(w, s).s)
  {
    TidyWhenCareful(s);
    SentCareful(s, SettledSent);
    hide Frozen, Tidy;
  }

  lemma CancelledCareful(w: World, s: State)
    requires Workable(s) && s.active.Some? && s.rejection.Some? && Careful(s)
    ensures Careful(Cancelled(w, s).s)
  {
    TidyWhenCareful(s);
    SentCareful(s.(phase := Cancelling), CancelSent);
    hide Frozen, Tidy, Guarded;
    TidyWhenCareful(CancelAsked(w, s).s);
    GuardedCareful(w, s.(phase := Cancelling), Recorder, CancelAsked(w, s));
  }

  lemma ResolvedCareful(w: World, s: State)
    requires Workable(s) && s.phase.Resolving? && s.active.None? && Careful(s)
    ensures Careful(Resolved(w, s).s)
  {
    hide Frozen, Tidy;
  }

  lemma UnchosenCareful(s: State)
    requires s.rejection.Some? && Careful(s)
    ensures Careful(Unchosen(s))
  {
    hide Frozen, Tidy;
  }

  lemma ReviewedCareful(w: World, s: State)
    requires Workable(s) && s.phase.Review? && Careful(s)
    ensures Careful(Reviewed(w, s).s)
  {
    if s.active.None? {
      assert Careful(s.(phase := Resolving)) by {
        hide Frozen, Tidy;
      }
      ResolvedCareful(w, s.(phase := Resolving));
    } else {
      CancelledCareful(w, s);
      UnchosenCareful(s);
      CancelledCareful(w, Unchosen(s));
      FinalizedCareful(w, s);
      TidyWhenCareful(Finalized(w, s).s);
      GuardedCareful(w, s, Recorder, Finalized(w, s));
    }
    hide Resolved, Cancelled, Guarded, Finalized, Careful;
  }

  lemma ConfirmedCareful(w: World, s: State)
    requires Workable(s) && s.active.Some? && Careful(s)
    ensures Careful(Confirmed(w, s))
  {
    hide Frozen, Tidy;
  }

  lemma SettlingCareful(w: World, s: State)
    requires Workable(s) && Careful(s)
    ensures Careful(Settling(w, s).s)
  {
    hide Careful, Guarded, Tailed, Finalized, Reviewed, Confirmed;
    var tailed := Ran(s, true);
    if s.active.Some? && s.active.value.start != 0 {
      var confirmed := Confirmed(w, s);
      ConfirmedCareful(w, s);
      tailed := Ran(confirmed, true);
      if !Unavailable(s, Readers) {
        TailedCareful(w, confirmed);
        TidyWhenCareful(Tailed(w, confirmed).s);
        GuardedCareful(w, confirmed, Recorder, Tailed(w, confirmed));
        tailed := Guarded(w, confirmed, Recorder, Tailed(w, confirmed));
      }
    }
    var t := tailed.s;
    if tailed.ok {
      if t.phase.Stopping? && w.motion.Held? {
        if t.active.value.stopSent {
          FinalizedCareful(w, t);
          TidyWhenCareful(Finalized(w, t).s);
          GuardedCareful(w, t, Recorder, Finalized(w, t));
        }
      } else if t.phase.Review? {
        ReviewedCareful(w, t);
        TidyWhenCareful(Reviewed(w, t).s);
        GuardedCareful(w, t, Session, Reviewed(w, t));
      }
    }
  }

  lemma RecordedCareful(w: World, s: State)
    requires P.Sound(s) && Careful(s)
    ensures Workable(s) && Careful(Recorded(w, s).s)
  {
    P.SoundIsReady(s);
    var begun := Ran(s, true);
    if s.phase.Engaging? && w.motion.Following? {
      P.BeganSound(w, s);
      P.ContainSound(w, s, Recorder, Began(w, s));
      BeganCareful(w, s);
      begun := Guarded(w, s, Recorder, Began(w, s));
    }
    var t := begun.s;
    ResolvingIsQuiet(t);
    hide P.Sound, P.Evolves, Careful, Guarded, Began, Settling, Resolved, Sampled;
    if begun.ok {
      if t.phase.Recording? {
        SampledCareful(w, t);
        TidyWhenCareful(Sampled(w, t).s);
        GuardedCareful(w, t, Recorder, Sampled(w, t));
      } else if t.phase.Stopping? || t.phase.Review? {
        SettlingCareful(w, t);
      } else if t.phase.Resolving? {
        ResolvedCareful(w, t);
      }
    }
  }

  lemma ResolvingIsQuiet(s: State)
    requires P.Sound(s)
    ensures s.phase.Resolving? ==> s.active.None?
  {
  }

  lemma ObservedCareful(w: World, s: State)
    requires Workable(s) && Careful(s)
    ensures Careful(Observed(w, s))
  {
    hide Frozen, Tidy;
  }

  lemma StepCareful(w: World, s: State)
    requires P.Sound(s) && Careful(s)
    ensures Workable(s) && Careful(Step(w, s).s)
  {
    hide P.Sound, P.Evolves, Careful, Guarded, Polled, Recorded, Observed;
    P.SoundIsReady(s);
    P.PolledSound(w, s);
    P.ContainSound(w, s, Recorder, Polled(w, s));
    PolledCareful(w, s);
    var a := Guarded(w, s, Recorder, Polled(w, s));
    if a.ok {
      TidyWhenCareful(a.s);
      P.Unchanged(a.s);
      P.ContainSound(w, a.s, Readers, Ran(a.s, w.readers));
      GuardedCareful(w, a.s, Readers, Ran(a.s, w.readers));
      var b := Guarded(w, a.s, Readers, Ran(a.s, w.readers));
      if b.ok {
        TidyWhenCareful(b.s);
        P.Unchanged(b.s);
        P.ContainSound(w, b.s, Arm, Ran(b.s, w.motionStep));
        GuardedCareful(w, b.s, Arm, Ran(b.s, w.motionStep));
        var c := Guarded(w, b.s, Arm, Ran(b.s, w.motionStep));
        if c.ok {
          P.ObservedSound(w, c.s);
          ObservedCareful(w, c.s);
          RecordedCareful(w, Observed(w, c.s));
        }
      }
    }
  }

  lemma ApplyCareful(s: State, op: P.Operation)
    requires P.Sound(s) && Careful(s)
    ensures Workable(s) && Careful(P.Apply(s, op))
  {
    P.SoundIsReady(s);
    match op
    case Pressing(w, key) =>
      KeyCareful(w, s, key);
      hide KeyStroke, Careful;
    case Stepping(w) =>
      StepCareful(w, s);
      hide Step, Careful;
    case Interrupting(_) =>
      hide Frozen, Tidy;
  }

  lemma {:induction false} RunCareful(s: State, ops: seq<P.Operation>)
    requires P.Sound(s) && Careful(s)
    ensures Workable(s) && Careful(P.Run(s, ops))
    decreases |ops|
  {
    hide P.Sound, P.Evolves, P.Apply, Careful;
    P.SoundIsReady(s);
    if ops != [] {
      P.ApplySound(s, ops[0]);
      ApplyCareful(s, ops[0]);
      RunCareful(P.Apply(s, ops[0]), ops[1..]);
    }
  }

  /** Whatever the components do, the session sends a freeze only while no boundary is in force. */
  lemma SessionIsTidy(ops: seq<P.Operation>)
    ensures Tidy(P.Run(INITIAL, ops).sent)
  {
    P.InitialSound();
    RunCareful(INITIAL, ops);
  }

  // The recorder that receives them.

  /** The messages among a recorder's operations. */
  function Commands(ops: seq<S.Operation>): seq<S.Operation>
    decreases |ops|
  {
    if ops == [] then []
    else
      var op := ops[|ops| - 1];
      Commands(ops[..|ops| - 1]) + if op.Pass? then [] else [op]
  }

  /** A message and the operation it asks for. */
  predicate Asks(m: Message, op: S.Operation) {
    match m
    case PrepareSent => op.Prepare?
    case BeginSent(start) => op.Begin? && op.boundary == start
    case SamplesSent => op.Samples?
    case FreezeSent(boundary) => op == S.Freeze(boundary)
    case StopSent(cutoff) => op.Stop? && op.cutoff == cutoff
    case SettledSent => op.Settled?
    case CancelSent => op.Cancel?
  }

  /** The recorder has taken its messages, in order, from those sent; its passes come in between as they may. */
  ghost predicate Delivered(sent: seq<Message>, ops: seq<S.Operation>) {
    && |Commands(ops)| <= |sent|
    && forall i :: 0 <= i < |Commands(ops)| ==> Asks(sent[i], Commands(ops)[i])
  }

  lemma CommandsAppend(ops: seq<S.Operation>, op: S.Operation)
    ensures Commands(ops + [op]) == Commands(ops) + if op.Pass? then [] else [op]
  {
    assert (ops + [op])[..|ops + [op]| - 1] == ops;
  }

  lemma {:induction false} DeliveredPrefix(sent: seq<Message>, ops: seq<S.Operation>, j: nat)
    requires Delivered(sent, ops) && j <= |ops|
    ensures Delivered(sent, ops[..j])
    ensures j < |ops| && !ops[j].Pass? ==> |Commands(ops[..j])| < |sent| && Asks(sent[|Commands(ops[..j])|], ops[j])
    decreases |ops|
  {
    hide Asks, Commands;
    if j == |ops| {
      assert ops[..j] == ops;
    } else {
      var front, op := ops[..|ops| - 1], ops[|ops| - 1];
      assert front + [op] == ops;
      CommandsAppend(front, op);
      assert Delivered(sent, front) by {
        forall i | 0 <= i < |Commands(front)|
          ensures Asks(sent[i], Commands(front)[i])
        {
          assert Commands(ops)[i] == Commands(front)[i];
        }
      }
      DeliveredPrefix(sent, front, j);
      assert front[..j] == ops[..j];
      if j == |front| {
        assert front[..j] == front;
        assert !op.Pass? ==> Commands(ops)[|Commands(front)|] == op;
      }
    }
  }

  /** The boundary in force at the recorder is the one its messages left. */
  lemma {:induction false} BoundaryIsFrozen(sent: seq<Message>, ops: seq<S.Operation>)
    requires Delivered(sent, ops)
    ensures W.Boundary(ops) == Frozen(sent[..|Commands(ops)|])
    decreases |ops|
  {
    if ops != [] {
      var front, op := ops[..|ops| - 1], ops[|ops| - 1];
      assert front + [op] == ops;
      DeliveredPrefix(sent, ops, |front|);
      assert ops[..|front|] == front;
      BoundaryIsFrozen(sent, front);
      CommandsAppend(front, op);
      W.ViewsAppend(front, op);
      var n := |Commands(front)|;
      if !op.Pass? {
        assert sent[..n + 1] == sent[..n] + [sent[n]];
        FrozenAppend(sent[..n], sent[n]);
      }
    }
  }

  lemma TidyFreezesFirst(sent: seq<Message>, ops: seq<S.Operation>)
    requires Tidy(sent) && Delivered(sent, ops)
    ensures W.FreezesFirst(ops)
  {
    forall j | 0 <= j < |ops| && ops[j].Freeze?
      ensures W.Boundary(ops[..j]).None?
    {
      DeliveredPrefix(sent, ops, j);
      BoundaryIsFrozen(sent, ops[..j]);
    }
  }

  /**
   * For every run of the collection session, whatever its components do, and every recorder that takes the session's
   * messages in order between its own passes: an episode that reaches finalization has handed the matcher every frame
   * of its window as often as it was read, and no other.
   */
  lemma SessionCapturesAll(session: seq<P.Operation>, waitNs: int, ops: seq<S.Operation>)
    requires Delivered(P.Run(INITIAL, session).sent, ops)
    requires S.Run(S.INITIAL, waitNs, ops).Some? && S.Run(S.INITIAL, waitNs, ops).value.owner.phase.Finalizing?
    ensures X.WindowCaptured(S.Run(S.INITIAL, waitNs, ops).value) && W.NothingCut(ops)
  {
    SessionIsTidy(session);
    TidyFreezesFirst(P.Run(INITIAL, session).sent, ops);
    W.FirstCapturesAll(waitNs, ops);
  }
}

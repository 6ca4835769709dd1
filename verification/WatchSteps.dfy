/**
 What waits in the failed log is watched while the circuit is closed: a timer is set or a pass is coming, or the message's own
 write-off is about to ask for one. One step ends that, the failure of an earlier recovery's resuming that closes the circuit in
 the middle of a later one, and exactly for the entries that step neglects. This has an induction of its own, for one entry,
 on top of the other invariants.
 */
module WatchSteps {
  import opened MessageStore
  import opened MessageLedger
  import opened StoreGuard
  import opened InboundProtocol
  import opened ProtocolInvariants
  import opened PassLemmas
  import opened WorldSteps

  /** Its write-off is not over: what comes next for it depends on the circuit by then. */
  predicate JustAppended(s: State, x: Msg) {
    x < |s.stage| && s.stage[x] == Appended
  }

  /** It came after the pass in progress read the file. */
  predicate CameSince(s: State, x: Msg) {
    Processing(s.passes) && |s.passes[0].work.lines| <= |s.file| && x in s.file[|s.passes[0].work.lines|..]
  }

  /** There is a pass that has read it or will. */
  predicate APassLooks(s: State, x: Msg) {
    s.passes != [] && (|s.passes| > 1 || !CameSince(s, x))
  }

  /** The circuit is closed, and it waits with no timer set, no pass that looks at it, and its write-off over. */
  predicate Unwatched(s: State, x: Msg) {
    !s.guard.stopped && s.guard.phase == Closed && x in s.file && !s.heldTimer && !APassLooks(s, x) && !JustAppended(s, x)
  }

  /** An earlier recovery's resuming of media fails, and the circuit closes over it with nothing to look at it. */
  predicate Neglects(s: State, e: Event, x: Msg) {
    e == ResumeIsOver(true) && IsRecovering(s.guard) && x in s.file && !s.heldTimer && !APassLooks(s, x) && !JustAppended(s, x)
  }

  /** A recovery about to close the circuit leaves a timer behind, or nothing. */
  ghost predicate RecoveriesLeaveATimer(s: State) {
    !s.guard.stopped ==>
      forall i :: 0 <= i < |s.ended| && s.ended[i].caller.Recover? && (s.ended[i].failed || s.ended[i].caller == Recover(s.writeOffs)) ==>
        s.heldTimer || (!s.ended[i].failed && s.file == [])
  }

  ghost predicate Watched(s: State, x: Msg) {
    !Unwatched(s, x) && RecoveriesLeaveATimer(s)
  }

  lemma WatchFrame(s: State, t: State, x: Msg)
    requires Watched(s, x) && (JustAppended(s, x) ==> JustAppended(t, x)) && t.guard.stopped == s.guard.stopped
    requires t.heldTimer == s.heldTimer && t.file == s.file && t.ended == s.ended && t.writeOffs == s.writeOffs
    requires t.guard.phase == Closed ==> s.guard.phase == Closed
    requires |t.passes| == |s.passes|
    requires Processing(t.passes) ==>
               (Processing(s.passes) && t.passes[0].work.lines == s.passes[0].work.lines) || t.passes[0].work.lines == t.file
    ensures Watched(t, x)
  {
  }

  // ── Live messages ────────────────────────────────────────────────

  lemma HandleWatched(s: State, envelope: Envelope, x: Msg)
    requires Watched(s, x)
    ensures Watched(Handle(s, envelope), x)
  {
    hide Watched;
    WatchFrame(s, Handle(s, envelope), x);
  }

  lemma StartWatched(s: State, m: Msg, x: Msg)
    requires Watched(s, x) && m < |s.stage| && s.stage[m] == Queued
    ensures Watched(Start(s, m), x)
  {
    hide Watched;
    WatchFrame(s, Start(s, m), x);
  }

  lemma EnrichedWatched(s: State, m: Msg, accepted: bool, x: Msg)
    requires Watched(s, x) && m < |s.stage| && s.stage[m] == Enriching
    ensures Watched(Enriched(s, m, accepted), x)
  {
    hide Watched;
    WatchFrame(s, Enriched(s, m, accepted), x);
  }

  lemma AttemptWatched(s: State, m: Msg, attempt: nat, x: Msg)
    requires Watched(s, x) && m < |s.stage| && s.stage[m] != Appended
    ensures Watched(Attempt(s, m, attempt), x)
  {
    hide Watched;
    WatchFrame(s, Attempt(s, m, attempt), x);
  }

  lemma AnswerWatched(s: State, m: Msg, outcome: StoreOutcome, x: Msg)
    requires Watched(s, x) && m < |s.stage| && m < |s.arrivals| && s.stage[m].Attempting?
    ensures Watched(Answer(s, m, outcome), x)
  {
    hide Watched, AfterAttempt, Commit, SettleRetried;
    WatchFrame(s, Answer(s, m, outcome), x);
  }

  lemma FailedWatched(s: State, m: Msg, x: Msg)
    requires Watched(s, x) && m < |s.stage| && s.stage[m].Failed?
    ensures Watched(AttemptFailed(s, m), x)
  {
    hide Watched;
    WatchFrame(s, AttemptFailed(s, m), x);
  }

  lemma ConcludeWatched(s: State, m: Msg, x: Msg)
    requires Watched(s, x) && m < |s.stage| && s.stage[m] != Appended
    ensures Watched(Conclude(s, m), x)
  {
    hide Watched;
    WatchFrame(s, Conclude(s, m), x);
  }

  /** With the log taking messages directly a pass is asked for; otherwise the circuit is not closed. */
  lemma AfterWriteOffWatched(s: State, m: Msg, x: Msg)
    requires Watched(s, x) && m < |s.stage|
    ensures Watched(AfterWriteOff(s, m), x)
  {
    var t := AfterWriteOff(s, m);
    if TakingDirectly(s.guard) {
      assert t.passes != [] && (Processing(t.passes) ==> |t.passes| > 1);
    }
  }

  lemma WriteOffWatched(s: State, m: Msg, x: Msg)
    requires Watched(s, x) && m < |s.stage| && s.stage[m] == Refusing
    requires CallersHold(s.stage, s.starting, s.writeOffs, s.passes, s.ended)
    ensures Watched(WriteOff(s, m), x)
  {
    if m in s.unsaved {
      var t := WriteOff(s, m);
      assert forall i :: 0 <= i < |s.ended| ==> CallerHolds(s.stage, s.starting, s.writeOffs, s.ended[i].caller);
      assert forall i :: 0 <= i < |t.ended| && t.ended[i].caller == Recover(t.writeOffs) ==> false;
    } else {
      AfterWriteOffWatched(s, m, x);
    }
  }

  lemma AppendEndsWatched(s: State, m: Msg, x: Msg)
    requires Watched(s, x) && m < |s.stage|
    ensures Watched(AppendEnds(s, m), x)
  {
    hide Watched;
    var t := s.(unsaved := s.unsaved - {m});
    WatchFrame(s, t, x);
    AfterWriteOffWatched(t, m, x);
  }

  // ── The file ─────────────────────────────────────────────────────

  lemma JoinsTheFile(s: State, m: Msg, x: Msg)
    requires Watched(s, x) && !s.guard.stopped && m < |s.stage| && s.stage[m] != Appended
    requires forall i :: 0 <= i < |s.ended| && s.ended[i].caller == Recover(s.writeOffs) ==> s.ended[i].failed
    ensures Watched(WithStage(s.(file := s.file + [m]), m, Appended), x)
  {
    var t := WithStage(s.(file := s.file + [m]), m, Appended);
    assert x in t.file <==> x in s.file || x == m;
    if Processing(s.passes) && |s.passes[0].work.lines| <= |s.file| {
      var n := |s.passes[0].work.lines|;
      assert t.file[n..] == s.file[n..] + [m];
    }
  }

  /** An entry joins the file while its write-off is under way; no recovery that saw all is waiting then. */
  lemma AppendWatched(s: State, m: Msg, ok: bool, x: Msg)
    requires Watched(s, x) && s.fileTurn != [] && s.fileTurn[0] == Append(m) && m < |s.stage| && s.stage[m] != Appended
    requires !s.guard.stopped ==> RecoverySawAll(s.writeOffs, s.file, s.fileTurn, s.passes, s.ended)
    ensures Watched(FileStep(s, ok), x)
  {
    hide Watched;
    var t := FileStep(s, ok);
    if s.guard.stopped {
      NobodyWatches(t, x);
    } else if ok {
      assert s.fileTurn[0] in s.fileTurn && IsAppend(s.fileTurn[0]);
      JoinsTheFile(s, m, x);
      WatchFrame(WithStage(s.(file := s.file + [m]), m, Appended), t, x);
    } else {
      WatchFrame(s, t, x);
    }
  }

  lemma NobodyWatches(s: State, x: Msg)
    requires s.guard.stopped
    ensures Watched(s, x)
  {
  }

  /** A pass ends: what it keeps is looked at again later, and what came meanwhile is watched already. */
  lemma EndWatched(s: State, file: seq<Msg>, kept: seq<Msg>, failed: bool, x: Msg)
    requires Watched(s, x) && s.passes != [] && OnePassAtATime(s.passes) && (s.guard.stopped || s.drain == NotDraining)
    requires !failed && kept == [] && !s.guard.stopped ==>
               Processing(s.passes) && |s.passes[0].work.lines| <= |s.file| && file == s.file[|s.passes[0].work.lines|..]
    requires !failed && kept == [] && !s.guard.stopped && s.passes[0].caller == Recover(s.writeOffs) ==> file == []
    requires failed ==> file == s.file
    requires s.file == [] ==> file == []
    ensures Watched(EndPass(s.(file := file), kept, failed), x)
  {
    var t := EndPass(s.(file := file), kept, failed);
    assert t.passes != [] ==> t.passes[0] == s.passes[1] && t.passes[0].work.Turn?;
    if !s.guard.stopped {
      forall i | 0 <= i < |t.ended| && t.ended[i].caller.Recover? && (t.ended[i].failed || t.ended[i].caller == Recover(t.writeOffs))
        ensures t.heldTimer || (!t.ended[i].failed && t.file == [])
      {
        if i < |s.ended| { assert t.ended[i] == s.ended[i]; }
      }
    }
  }

  lemma FailWatched(s: State, x: Msg)
    requires Watched(s, x) && s.passes != [] && OnePassAtATime(s.passes) && (s.guard.stopped || s.drain == NotDraining)
    ensures Watched(EndPass(s, [], true), x)
  {
    hide Watched;
    EndWatched(s, s.file, [], true, x);
    assert s.(file := s.file) == s;
  }

  /** The kept lines and what came since are all that is left; with nothing kept, what came since. */
  lemma KeepWatched(s: State, x: Msg)
    requires Watched(s, x) && ReadyToKeep(s.passes, s.file) && OnePassAtATime(s.passes) && (s.guard.stopped || s.drain == NotDraining)
    requires !s.guard.stopped ==> RecoverySawAll(s.writeOffs, s.file, s.fileTurn, s.passes, s.ended)
    ensures Watched(KeepOnly(s), x)
  {
    hide Watched;
    var w := s.passes[0].work;
    var kept := LinesThat(w.lines, w.outcomes, Kept);
    if kept == [] { assert kept + s.file[|w.lines|..] == s.file[|w.lines|..]; }
    NothingFromNothing(w.lines, w.outcomes);
    EndWatched(s, kept + s.file[|w.lines|..], kept, false, x);
  }

  lemma NothingFromNothing(lines: seq<Msg>, outcomes: seq<Outcome>)
    requires |outcomes| <= |lines|
    ensures lines == [] ==> LinesThat(lines, outcomes, Kept) == []
  {
  }

  lemma EndLinesWatched(s: State, x: Msg)
    requires Watched(s, x) && s.passes != [] && s.passes[0].work.Running? && |s.passes[0].work.outcomes| == |s.passes[0].work.lines|
    requires OnePassAtATime(s.passes) && (s.guard.stopped || s.drain == NotDraining) && PassShape(s.arrivals, s.file, s.passes)
    requires !s.guard.stopped ==> RecoverySawAll(s.writeOffs, s.file, s.fileTurn, s.passes, s.ended)
    ensures Watched(EndLines(s), x)
  {
    hide Watched, PassShape;
    var w := s.passes[0].work;
    if Rejected in w.outcomes || Left in w.outcomes {
      WatchFrame(s, EndLines(s), x);
    } else {
      forall j | 0 <= j < |w.outcomes| ensures w.outcomes[j] == Kept {
        assert w.outcomes[j] in w.outcomes;
      }
      AllKept(w.lines, w.outcomes);
      assert w.lines[..|w.outcomes|] == w.lines;
      LinesFit(s);
      assert w.lines == [] ==> s.file == s.file[|w.lines|..];
      EndWatched(s, s.file, w.lines, false, x);
      assert s.(file := s.file) == s;
    }
  }

  lemma LinesFit(s: State)
    requires Processing(s.passes) && PassShape(s.arrivals, s.file, s.passes)
    ensures |s.passes[0].work.lines| <= |s.file|
  {
  }

  lemma FileWatched(s: State, ok: bool, x: Msg)
    requires Watched(s, x) && Inv(s) && FileOpReady(s)
    ensures Watched(FileStep(s, ok), x)
  {
    hide Watched, RecoverySawAll, PassInv, LogInv, SafetyInv, EmissionInv, OrderInv, QueueInv;
    FileParts(s);
    var t := s.(fileTurn := s.fileTurn[1..]);
    WatchFrame(s, t, x);
    match s.fileTurn[0] {
      case Append(m) => AppendWatched(s, m, ok, x);
      case AppendLeft(m) => NobodyWatches(FileStep(s, ok), x);
      case Read => if ok { WatchFrame(t, FileStep(s, ok), x); } else { FailWatched(t, x); }
      case Reject => if ok { WatchFrame(t, FileStep(s, ok), x); } else { FailWatched(t, x); }
      case Keep => if ok { KeepWatched(t, x); } else { FailWatched(t, x); }
    }
  }

  lemma FileParts(s: State)
    requires Inv(s) && s.fileTurn != []
    ensures OnePassAtATime(s.passes) && (s.guard.stopped || s.drain == NotDraining)
    ensures s.fileTurn[0].AppendLeft? ==> s.guard.stopped
    ensures s.fileTurn[0].Append? ==> s.fileTurn[0].m < |s.stage| && s.stage[s.fileTurn[0].m] != Appended
    ensures !s.guard.stopped ==>
              RecoverySawAll(s.writeOffs, s.file, s.fileTurn, s.passes, s.ended) &&
              RecoverySawAll(s.writeOffs, s.file, s.fileTurn[1..], s.passes, s.ended)
  {
    assert s.fileTurn[0] in s.fileTurn && OpMatches(s.stage, s.passes, s.busy, s.fileTurn[0]);
    var rest := s.fileTurn[1..];
    assert forall op :: op in rest ==> op in s.fileTurn;
    assert forall i :: 0 <= i < |rest| ==> rest[i] == s.fileTurn[i + 1];
  }

  // ── A pass ───────────────────────────────────────────────────────

  lemma BeginWatched(s: State, x: Msg)
    requires Watched(s, x) && s.passes != [] && s.passes[0].work.Turn?
    ensures Watched(BeginPass(s), x)
  {
    hide Watched;
    WatchFrame(s, BeginPass(s), x);
  }

  lemma JudgeWatched(s: State, verdict: Verdict, x: Msg)
    requires Watched(s, x) && RunningLine(s)
    ensures Watched(Judge(s, verdict), x)
  {
    hide Watched, HeldBack;
    var w := s.passes[0].work;
    var m := w.lines[|w.outcomes|];
    OutcomeWatched(s, s.fates, Kept, x);
    OutcomeWatched(s, s.fates, Rejected, x);
    OutcomeWatched(s, s.fates.(discarded := s.fates.discarded + {m}), Left, x);
    WatchFrame(s, WithWork(s, Running(w.lines, w.outcomes, Inserting)), x);
    assert s.(fates := s.fates) == s;
  }

  lemma OutcomeWatched(s: State, fates: Fates, outcome: Outcome, x: Msg)
    requires Watched(s, x) && RunningLine(s)
    ensures Watched(WithOutcome(s.(fates := fates), outcome), x)
  {
    hide Watched;
    WatchFrame(s, WithOutcome(s.(fates := fates), outcome), x);
  }

  lemma LineAnswerWatched(s: State, outcome: StoreOutcome, x: Msg)
    requires Watched(s, x) && RunningLine(s)
    ensures Watched(LineAnswer(s, outcome), x)
  {
    hide Watched, AfterAttempt, Commit, Gives;
    var w := s.passes[0].work;
    var m := w.lines[|w.outcomes|];
    var t := Gives(s, |w.outcomes|, outcome).(ledger := AfterAttempt(s.ledger, s.arrivals[m], outcome));
    WatchFrame(s, t, x);
    OutcomeWatched(t, t.fates.(repeated := t.fates.repeated + {m}), Left, x);
    OutcomeWatched(t, t.fates, Left, x);
    OutcomeWatched(t, t.fates, Rejected, x);
    WatchFrame(t, WithWork(t, Running(w.lines, w.outcomes, ProbingLine)), x);
    assert t.(fates := t.fates) == t;
  }

  lemma LineProbedWatched(s: State, written: bool, x: Msg)
    requires Watched(s, x) && RunningLine(s)
    ensures Watched(LineProbed(s, written), x)
  {
    hide Watched;
    WatchFrame(s, LineProbed(s, written), x);
  }

  // ── Whoever waited goes on ───────────────────────────────────────

  lemma WithoutWatched(s: State, i: nat, x: Msg)
    requires Watched(s, x) && i < |s.ended|
    ensures Watched(WithoutEnded(s, i), x)
  {
    var t := WithoutEnded(s, i);
    assert forall j :: 0 <= j < |t.ended| ==> t.ended[j] == s.ended[if j < i then j else j + 1];
  }

  /** One more pass at the end of the line. */
  lemma StartPassWatched(s: State, caller: Caller, x: Msg)
    requires Watched(s, x)
    ensures Watched(StartPass(s, caller), x)
  {
    var t := StartPass(s, caller);
    assert s.passes != [] ==> t.passes[0] == s.passes[0];
  }

  /** Closing leaves a timer, or nothing to look at. */
  lemma ClosingWatched(s: State, i: nat, g: Guard, accounts: set<Account>, x: Msg)
    requires Watched(s, x) && i < |s.ended| && s.ended[i].caller.Recover?
    requires (s.ended[i].failed || s.ended[i].caller == Recover(s.writeOffs)) && g.stopped == s.guard.stopped
    ensures Watched(WithDirty(s, accounts).(guard := g), x)
  {
  }

  lemma LoopWatched(s: State, i: nat, x: Msg)
    requires Watched(s, x) && i < |s.ended| && s.ended[i].caller.Recover?
    ensures Watched(LoopGoesOn(s, i), x)
  {
    hide Watched;
    var e := s.ended[i];
    if PassesAgain(s, i) {
      WithoutWatched(s, i, x);
      StartPassWatched(WithoutEnded(s, i), Recover(s.writeOffs), x);
    } else if IsRecovering(s.guard) {
      var accounts := AccountsOf(s.arrivals, if e.failed then s.file else e.kept);
      var u := WithDirty(s, accounts).(guard := FinishRecovery(s.guard));
      ClosingWatched(s, i, FinishRecovery(s.guard), accounts, x);
      WithoutWatched(u, i, x);
      assert LoopGoesOn(s, i) == WithoutEnded(u, i);
    } else {
      WithoutWatched(s, i, x);
    }
  }

  lemma RecoverGoesOnWatched(s: State, i: nat, stored: bool, x: Msg)
    requires Watched(s, x) && i < |s.ended| && s.ended[i].caller.Recover?
    ensures Watched(RecoverGoesOn(s, i, stored), x)
  {
    hide Watched, LoopGoesOn, PassesAgain;
    LoopWatched(s, i, x);
    WatchFrame(LoopGoesOn(s, i), RecoverGoesOn(s, i, stored), x);
  }

  /** Closing in the middle of a later recovery leaves unwatched what that one does not look at. */
  lemma ResumeEndsWatched(s: State, failed: bool, x: Msg)
    requires Watched(s, x) && s.resuming > 0
    ensures RecoveriesLeaveATimer(ResumeEnds(s, failed))
    ensures Unwatched(ResumeEnds(s, failed), x) <==> Neglects(s, ResumeIsOver(failed), x)
  {
    hide AccountsOf;
  }

  lemma PersistWatched(s: State, i: nat, x: Msg)
    requires Watched(s, x) && i < |s.ended| && s.ended[i].caller.Persist? && s.ended[i].caller.m < |s.stage|
    requires s.stage[s.ended[i].caller.m] != Appended
    ensures Watched(PersistGoesOn(s, i), x)
  {
    hide Watched;
    WithoutWatched(s, i, x);
    WatchFrame(WithoutEnded(s, i), PersistGoesOn(s, i), x);
  }

  lemma StartedWatched(s: State, i: nat, x: Msg)
    requires Watched(s, x) && i < |s.ended|
    ensures Watched(StartGoesOn(s, i), x)
  {
    hide Watched;
    WithoutWatched(s, i, x);
    WatchFrame(WithoutEnded(s, i), StartGoesOn(s, i), x);
  }

  lemma HeldTimerWatched(s: State, x: Msg)
    requires Watched(s, x) && forall i :: 0 <= i < |s.ended| ==> !s.ended[i].caller.Recover?
    ensures Watched(HeldTimerFires(s), x)
  {
    var t := HeldTimerFires(s);
    assert Processing(t.passes) ==> t.passes[0] == s.passes[0] && |t.passes| > 1;
  }

  lemma ProbesWatched(s: State, written: bool, x: Msg)
    requires Watched(s, x)
    requires s.guard.probe != Idle && !s.guard.stopped ==> s.guard.phase == Down
    ensures Watched(ProbeFires(s), x)
    ensures Watched(ProbeAnswers(s, written), x)
  {
    hide Watched;
    WatchFrame(s, ProbeFires(s), x);
    var t := s.(guard := ProbeEnds(s.guard, written));
    WatchFrame(s, t, x);
    StartPassWatched(t, Recover(t.writeOffs), x);
  }

  lemma CrashWatched(s: State, x: Msg)
    ensures Watched(Crash(s), x)
  {
  }

  // ── Every step ───────────────────────────────────────────────────

  lemma EarlyStepWatched(s: State, e: Event, x: Msg)
    requires Watched(s, x) && Enabled(s, e) && (e.Handles? || e.Starts? || e.EnrichEnds? || e.ResolveEnds?)
    ensures Watched(Step(s, e), x)
  {
    hide Watched;
    match e
    case Handles(envelope) => HandleWatched(s, envelope, x);
    case Starts(m) => StartWatched(s, m, x);
    case EnrichEnds(m, accepted) => EnrichedWatched(s, m, accepted, x);
    case ResolveEnds(m) => AttemptWatched(s, m, 0, x);
  }

  lemma LateStepWatched(s: State, e: Event, x: Msg)
    requires Watched(s, x) && Enabled(s, e) && IsLive(e) && !(e.Handles? || e.Starts? || e.EnrichEnds? || e.ResolveEnds?)
    requires CallersHold(s.stage, s.starting, s.writeOffs, s.passes, s.ended)
    ensures Watched(Step(s, e), x)
  {
    hide Watched, CallersHold;
    match e
    case StoreAnswers(m, outcome) => AnswerWatched(s, m, outcome, x);
    case Fails(m) => FailedWatched(s, m, x);
    case Wakes(m) => AttemptWatched(s, m, s.stage[m].attempt, x);
    case WritesOff(m) => WriteOffWatched(s, m, x);
    case AppendIsOver(m) => AppendEndsWatched(s, m, x);
    case Concludes(m) => ConcludeWatched(s, m, x);
  }

  lemma LineStepWatched(s: State, e: Event, x: Msg)
    requires Watched(s, x) && Enabled(s, e) && (e.PassBegins? || e.Judges? || e.LineAnswered? || e.LineProbes?)
    ensures Watched(Step(s, e), x)
  {
    hide Watched;
    match e
    case PassBegins => BeginWatched(s, x);
    case Judges(verdict) => JudgeWatched(s, verdict, x);
    case LineAnswered(outcome) => LineAnswerWatched(s, outcome, x);
    case LineProbes(written) => LineProbedWatched(s, written, x);
  }

  lemma PassStepWatched(s: State, e: Event, x: Msg)
    requires Watched(s, x) && Inv(s) && Enabled(s, e) && IsOfAPass(e)
    requires !(e.PassBegins? || e.Judges? || e.LineAnswered? || e.LineProbes?)
    ensures Watched(Step(s, e), x)
  {
    hide Watched, Inv;
    match e
    case FileWorks(ok) => FileWatched(s, ok, x);
    case LinesEnd =>
      LinesParts(s);
      EndLinesWatched(s, x);
    case RecoverContinues(i, stored) => RecoverGoesOnWatched(s, i, stored, x);
    case PersistContinues(i) =>
      PersistParts(s, i);
      PersistWatched(s, i, x);
    case StartContinues(i) => StartedWatched(s, i, x);
  }

  lemma LinesParts(s: State)
    requires Inv(s)
    ensures OnePassAtATime(s.passes) && (s.guard.stopped || s.drain == NotDraining) && PassShape(s.arrivals, s.file, s.passes)
    ensures !s.guard.stopped ==> RecoverySawAll(s.writeOffs, s.file, s.fileTurn, s.passes, s.ended)
    ensures CallersHold(s.stage, s.starting, s.writeOffs, s.passes, s.ended) && Probing(s.guard)
  {
  }

  lemma PersistParts(s: State, i: nat)
    requires Inv(s) && i < |s.ended| && s.ended[i].caller.Persist? && s.ended[i].caller.m < |s.stage|
    ensures s.stage[s.ended[i].caller.m] == Replaying
  {
    assert CallerHolds(s.stage, s.starting, s.writeOffs, s.ended[i].caller);
  }

  lemma DrainWatched(s: State, e: Event, x: Msg)
    requires Watched(s, x) && Enabled(s, e) && (e.DrainBegins? || e.DrainSnapshots? || e.DrainWrites? || e.DrainReturns?)
    requires s.drain != NotDraining ==> s.guard.stopped
    ensures Watched(Step(s, e), x)
  {
    hide Watched;
    NobodyWatches(Step(s, e), x);
  }

  lemma OtherStepWatched(s: State, e: Event, x: Msg)
    requires Watched(s, x) && Enabled(s, e) && !IsLive(e) && !IsOfAPass(e) && !e.ResumeIsOver?
    requires (s.drain != NotDraining ==> s.guard.stopped) && Probing(s.guard)
    ensures Watched(Step(s, e), x)
  {
    hide Watched;
    match e
    case HeldTimerGoesOff => HeldTimerWatched(s, x);
    case ProbeGoesOut => ProbesWatched(s, false, x);
    case ProbeIsAnswered(written) => ProbesWatched(s, written, x);
    case Retains(keys) => WatchFrame(s, Retention(s, keys), x);
    case Crashes => CrashWatched(s, x);
    case _ => DrainWatched(s, e, x);
  }

  lemma StepKeepsWatch(s: State, e: Event, x: Msg)
    requires Watched(s, x) && Inv(s) && Enabled(s, e) && !e.ResumeIsOver?
    ensures Watched(Step(s, e), x)
  {
    hide Watched, Inv, Step, Enabled, OnePassAtATime, PassShape, RecoverySawAll, CallersHold, Probing;
    LinesParts(s);
    if e.Handles? || e.Starts? || e.EnrichEnds? || e.ResolveEnds? {
      EarlyStepWatched(s, e, x);
    } else if IsLive(e) {
      LateStepWatched(s, e, x);
    } else if e.PassBegins? || e.Judges? || e.LineAnswered? || e.LineProbes? {
      LineStepWatched(s, e, x);
    } else if IsOfAPass(e) {
      PassStepWatched(s, e, x);
    } else {
      OtherStepWatched(s, e, x);
    }
  }

  lemma EntryWatched(s: State, e: Event, x: Msg)
    requires Watched(s, x) && Inv(s) && Enabled(s, e)
    ensures RecoveriesLeaveATimer(Step(s, e))
    ensures Unwatched(Step(s, e), x) <==> Neglects(s, e, x)
  {
    hide Inv, Enabled, Unwatched, RecoveriesLeaveATimer;
    if e.ResumeIsOver? {
      assert s.resuming > 0 by { OnlyWhileResuming(s, e); }
      ResumeEndsWatched(s, e.failed, x);
    } else {
      hide Step;
      StepKeepsWatch(s, e, x);
    }
  }

  lemma OnlyWhileResuming(s: State, e: Event)
    requires Enabled(s, e) && e.ResumeIsOver?
    ensures s.resuming > 0
  {
  }

  /** An entry that is not left unwatched becomes so exactly by a step that neglects it, whatever else is left unwatched. */
  lemma StepWatched(s: State, e: Event, x: Msg)
    requires RecoveriesLeaveATimer(s) && Inv(s) && Enabled(s, e)
    ensures RecoveriesLeaveATimer(Step(s, e))
    ensures !Unwatched(s, x) ==> (Unwatched(Step(s, e), x) <==> Neglects(s, e, x))
  {
    hide Inv, Enabled, Step, Unwatched, RecoveriesLeaveATimer, Neglects;
    NothingToWatch(s);
    EntryWatched(s, e, |s.arrivals|);
    if !Unwatched(s, x) { EntryWatched(s, e, x); }
  }

  lemma NothingToWatch(s: State)
    requires Inv(s)
    ensures !Unwatched(s, |s.arrivals|)
  {
  }

  lemma InitWatched(retries: nat)
    ensures RecoveriesLeaveATimer(Init(retries))
  {
  }
}

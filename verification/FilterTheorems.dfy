/**
 What decides the end of a message: the verdict of the filter, the answers of the log, the failures of the file. Over every
 run, each way for a message to end other than in the log is traced to the steps that lead there.
 */
module FilterTheorems {
  import opened MessageStore
  import opened MessageLedger
  import opened StoreGuard
  import opened InboundProtocol
  import opened ProtocolInvariants
  import opened WorkSteps
  import opened WorldSteps
  import opened ProtocolTheorems
  import opened DuplicateSteps
  import opened DuplicateTheorems

  // ── From its arrival to its emission ─────────────────────────────

  /** Its turn comes and `drain` has it, before or after enriching it; or the filter excludes its conversation. */
  predicate TurnsAway(s: State, e: Event, m: Msg) {
    (e == Starts(m) && m !in s.unsaved) || (e.EnrichEnds? && e.m == m && (m !in s.unsaved || !e.accepted))
  }

  ghost predicate IsTurnedAway(s: State, events: seq<Event>, m: Msg)
    requires IsRun(s, events)
    decreases |events|
  {
    events != [] && (TurnsAway(s, events[0], m) || IsTurnedAway(Step(s, events[0]), events[1..], m))
  }

  predicate IsWaiting(stage: Stage) {
    stage == Queued || stage == Enriching
  }

  /** From its arrival on: waiting for its verdict, turned away, or on its way to the log. */
  ghost predicate FaresSince(stage: seq<Stage>, emitted: seq<Emission>, m: Msg, away: bool, silenced: bool) {
    m < |stage| &&
    if away then stage[m] == Done && !IsEmitted(emitted, m)
    else if IsWaiting(stage[m]) then !IsEmitted(emitted, m) && !silenced
    else Fares(stage, emitted, m, silenced)
  }

  lemma SameForFaresSince(s: State, t: State, m: Msg, away: bool, silenced: bool)
    requires FaresSince(s.stage, s.emitted, m, away, silenced) && SameFor(s, t, m)
    ensures FaresSince(t.stage, t.emitted, m, away, silenced)
  {
    hide Fares;
    assert forall i :: 0 <= i < |s.emitted| ==> t.emitted[i] == s.emitted[i];
    assert IsEmitted(t.emitted, m) == IsEmitted(s.emitted, m);
    if !away && !IsWaiting(s.stage[m]) { SameForFares(s, t, m, silenced); }
  }

  lemma WaitingFares(s: State, e: Event, m: Msg)
    requires Enabled(s, e) && m < |s.stage| && IsWaiting(s.stage[m]) && !IsEmitted(s.emitted, m)
    requires (e.Starts? || e.EnrichEnds?) && e.m == m
    ensures FaresSince(Step(s, e).stage, Step(s, e).emitted, m, TurnsAway(s, e, m), false)
  {
    hide IsEmitted, ItsTurn;
  }

  /** Before its attempts, nothing but its turn and its verdict is about it. */
  lemma NotYetTried(s: State, e: Event, m: Msg)
    requires Inv(s) && Enabled(s, e) && m < |s.stage| && (IsWaiting(s.stage[m]) || s.stage[m] == Done) && !e.Crashes?
    ensures !IsSilencedBy(s, e, m)
    ensures s.stage[m] == Done ==> IsAboutOthers(s, e, m) && !TurnsAway(s, e, m)
    ensures !IsAboutOthers(s, e, m) ==> (e.Starts? || e.EnrichEnds?) && e.m == m
    ensures IsAboutOthers(s, e, m) ==> !TurnsAway(s, e, m)
  {
    hide Inv, IsEmitted, Stored, HasRow;
    if e.FileWorks? {
      if s.fileTurn != [] && s.fileTurn[0] == Append(m) { IsWritingOff(s, m); }
    } else if e.PersistContinues? {
      if s.ended[e.i].caller == Persist(m) { IsReplaying(s, e.i, m); }
    }
  }

  lemma StepFaresSince(s: State, e: Event, m: Msg, away: bool, silenced: bool)
    requires Inv(s) && Enabled(s, e) && !e.Crashes? && FaresSince(s.stage, s.emitted, m, away, silenced)
    ensures FaresSince(Step(s, e).stage, Step(s, e).emitted, m, away || TurnsAway(s, e, m), silenced || IsSilencedBy(s, e, m))
  {
    hide Inv, Enabled, Step, Fares, SameFor, IsSilencedBy, IsAboutOthers, IsEmitted;
    if away || IsWaiting(s.stage[m]) {
      NotYetTried(s, e, m);
      if IsAboutOthers(s, e, m) {
        OthersLeaveIt(s, e, m);
        SameForFaresSince(s, Step(s, e), m, away, silenced);
      } else {
        WaitingFares(s, e, m);
      }
    } else {
      StepFares(s, e, m, silenced);
      NeverBack(s, e, m);
      TriedIsNotTurnedAway(s, e, m);
    }
  }

  lemma TriedIsNotTurnedAway(s: State, e: Event, m: Msg)
    requires Enabled(s, e) && m < |s.stage| && !IsWaiting(s.stage[m])
    ensures !TurnsAway(s, e, m)
  {
  }

  /** A message that had its verdict never waits for it again. */
  lemma NeverBack(s: State, e: Event, m: Msg)
    requires Inv(s) && Enabled(s, e) && m < |s.stage| && !IsWaiting(s.stage[m])
    ensures m < |Step(s, e).stage| && !IsWaiting(Step(s, e).stage[m])
  {
    hide Inv, SameFor;
    if e.Crashes? {
      hide IsAboutOthers;
      DyingEnds(s, m);
    } else if IsAboutOthers(s, e, m) {
      hide Step, Enabled, IsAboutOthers;
      OthersLeaveIt(s, e, m);
      StageStays(s, Step(s, e), m);
    } else if e.FileWorks? {
      hide FileStep;
      FileMoves(s, e.ok, m);
    } else if e.PersistContinues? {
    } else {
      hide Step;
      OwnStepsGoOn(s, e, m);
    }
  }

  lemma DyingEnds(s: State, m: Msg)
    requires m < |s.stage|
    ensures m < |Step(s, Crashes).stage| && Step(s, Crashes).stage[m] == Done
  {
    hide Restarted;
  }

  lemma OwnStepsGoOn(s: State, e: Event, m: Msg)
    requires Enabled(s, e) && m < |s.stage| && !IsWaiting(s.stage[m]) && IsLive(e) && !e.Handles? && e.m == m
    ensures m < |Step(s, e).stage| && !IsWaiting(Step(s, e).stage[m])
  {
    hide ItsTurn, AfterAttempt, SettleRetried, Commit, AfterWriteOff, Conclude;
    if e.Concludes? {
      ConcludingGoesOn(s, m);
    } else if e.WritesOff? || e.AppendIsOver? {
      WritingOffGoesOn(s, m);
      WritingOffGoesOn(s.(unsaved := s.unsaved - {m}), m);
    }
  }

  lemma ConcludingGoesOn(s: State, m: Msg)
    requires m < |s.stage|
    ensures m < |Conclude(s, m).stage| && Conclude(s, m).stage[m] == Done
  {
  }

  lemma WritingOffGoesOn(s: State, m: Msg)
    requires m < |s.stage|
    ensures m < |AfterWriteOff(s, m).stage| && (AfterWriteOff(s, m).stage[m] == Replaying || AfterWriteOff(s, m).stage[m] == WrittenOff)
  {
  }

  lemma StageStays(s: State, t: State, m: Msg)
    requires SameFor(s, t, m)
    ensures m < |t.stage| && t.stage[m] == s.stage[m]
  {
  }

  lemma FileMoves(s: State, ok: bool, m: Msg)
    requires FileOpReady(s) && s.fileTurn[0] == Append(m)
    ensures m < |FileStep(s, ok).stage| && FileStep(s, ok).stage[m] == Appended
  {
  }

  lemma {:induction false} RunFaresSince(s: State, events: seq<Event>, m: Msg, away: bool, silenced: bool)
    requires Inv(s) && IsRun(s, events) && FaresSince(s.stage, s.emitted, m, away, silenced)
    requires forall i :: 0 <= i < |events| ==> !events[i].Crashes?
    ensures var t := After(s, events);
      FaresSince(t.stage, t.emitted, m, away || IsTurnedAway(s, events, m), silenced || IsSilenced(s, events, m))
    decreases |events|
  {
    hide Inv, Step, Enabled, FaresSince, IsSilencedBy, TurnsAway;
    if events != [] {
      StepKeeps(s, events[0]);
      StepFaresSince(s, events[0], m, away, silenced);
      RunFaresSince(Step(s, events[0]), events[1..], m, away || TurnsAway(s, events[0], m), silenced || IsSilencedBy(s, events[0], m));
    }
  }

  /**
   * Whatever a message meets from its arrival on, short of a death: it is emitted exactly if the filter accepted it, `drain`
   * had not taken it by then, and no answer silenced it.
   */
  lemma EmittedIfAccepted(s: State, envelope: Envelope, events: seq<Event>)
    requires Reachable(s) && Enabled(s, Handles(envelope)) && IsRun(Step(s, Handles(envelope)), events)
    requires forall i :: 0 <= i < |events| ==> !events[i].Crashes?
    requires var t := After(Step(s, Handles(envelope)), events); |s.arrivals| < |t.stage| && t.stage[|s.arrivals|] == Done
    ensures var m, t := |s.arrivals|, Step(s, Handles(envelope));
      IsEmitted(After(t, events).emitted, m) <==> !IsTurnedAway(t, events, m) && !IsSilenced(t, events, m)
  {
    hide Inv, Reachable, Step, Enabled, IsSilenced, IsTurnedAway, IsEmitted;
    var t := Step(s, Handles(envelope));
    ReachableHolds(s);
    StepKeeps(s, Handles(envelope));
    JustArrived(s, envelope);
    RunFaresSince(t, events, |s.arrivals|, false, false);
  }

  lemma JustArrived(s: State, envelope: Envelope)
    requires Inv(s) && Enabled(s, Handles(envelope))
    ensures var m, t := |s.arrivals|, Step(s, Handles(envelope));
      && m < |t.stage| && t.stage[m] == Queued && m in t.unsaved && m !in t.left && m !in t.file
      && !IsEmitted(t.emitted, m) && !InLog(t.arrivals, t.ledger.handed, m)
  {
    var m := |s.arrivals|;
    assert m in HandedTo(s.ledger.handed, envelope.account) ==> m < |s.arrivals|;
    assert forall i :: 0 <= i < |s.emitted| ==> s.emitted[i].m < m;
  }

  // ── What the filter refuses ──────────────────────────────────────

  /** The log is asked to store it, live or from the failed log. */
  predicate Offers(s: State, e: Event, m: Msg)
    requires Enabled(s, e)
  {
    (e.StoreAnswers? && e.m == m) || (e.LineAnswered? && CurrentLine(s) == m)
  }

  ghost predicate IsOffered(s: State, events: seq<Event>, m: Msg)
    requires IsRun(s, events)
    decreases |events|
  {
    events != [] && (Offers(s, events[0], m) || IsOffered(Step(s, events[0]), events[1..], m))
  }

  predicate Refuses(s: State, e: Event, m: Msg) {
    e == EnrichEnds(m, false) && m in s.unsaved
  }

  ghost predicate IsRefused(s: State, events: seq<Event>, m: Msg)
    requires IsRun(s, events)
    decreases |events|
  {
    events != [] && (Refuses(s, events[0], m) || IsRefused(Step(s, events[0]), events[1..], m))
  }

  /** In no file, not in the log, not emitted, and not on its way to any of them. */
  ghost predicate IsNowhere(s: State, m: Msg) {
    m < |s.stage| && m !in s.left && m !in s.file && !InLog(s.arrivals, s.ledger.handed, m) && !IsEmitted(s.emitted, m)
  }

  ghost predicate Awaits(s: State, m: Msg) {
    IsNowhere(s, m) && IsWaiting(s.stage[m]) && m in s.unsaved
  }

  ghost predicate IsExcluded(s: State, m: Msg) {
    IsNowhere(s, m) && s.stage[m] == Done && m !in s.unsaved
  }

  predicate HadItsTurn(s: State, m: Msg) {
    m < |s.stage| && (m !in s.unsaved || !IsWaiting(s.stage[m]))
  }

  // Where a message may turn up.

  predicate GainsNothing(s: State, t: State) {
    t.file == s.file && t.left == s.left && t.unsaved <= s.unsaved
  }

  lemma EarlyGain(s: State, e: Event)
    requires Enabled(s, e) && (e.Starts? || e.EnrichEnds? || e.ResolveEnds? || e.Wakes?)
    ensures GainsNothing(s, Step(s, e))
  {
    hide ItsTurn;
  }

  lemma LateGain(s: State, e: Event)
    requires Enabled(s, e) && (e.StoreAnswers? || e.Fails? || e.WritesOff? || e.AppendIsOver? || e.Concludes?)
    ensures GainsNothing(s, Step(s, e))
  {
    hide AfterAttempt, SettleRetried, Commit, AfterWriteOff, Conclude;
    if e.Concludes? {
      ConcludingGains(s, e.m);
    } else if e.AppendIsOver? || e.WritesOff? {
      AfterWriteOffGains(s, e.m);
      AfterWriteOffGains(s.(unsaved := s.unsaved - {e.m}), e.m);
    }
  }

  lemma ConcludingGains(s: State, m: Msg)
    requires m < |s.stage|
    ensures GainsNothing(s, Conclude(s, m))
  {
  }

  lemma AfterWriteOffGains(s: State, m: Msg)
    requires m < |s.stage|
    ensures GainsNothing(s, AfterWriteOff(s, m))
  {
  }

  lemma LiveGains(s: State, e: Event, m: Msg)
    requires Enabled(s, e) && IsLive(e)
    ensures var t := Step(s, e);
      t.file == s.file && t.left == s.left && (m in t.unsaved ==> m in s.unsaved || (e.Handles? && m == |s.arrivals|))
  {
    if !e.Handles? {
      hide Step, Enabled;
      if e.Starts? || e.EnrichEnds? || e.ResolveEnds? || e.Wakes? { EarlyGain(s, e); } else { LateGain(s, e); }
    }
  }

  lemma LinesGain(s: State, e: Event)
    requires Enabled(s, e) && IsOfAPass(e) && !e.FileWorks?
    ensures GainsNothing(s, Step(s, e))
  {
    hide Judge, LineAnswer, EndLines, RecoverGoesOn, GainsNothing;
    match e
    case PassBegins => WorkGains(s, e);
    case Judges(verdict) => JudgingGains(s, verdict);
    case LineAnswered(outcome) => AnsweringGains(s, outcome);
    case LineProbes(written) => WorkGains(s, e);
    case LinesEnd => EndingGains(s);
    case RecoverContinues(i, stored) => RecoveringGains(s, i, stored);
    case PersistContinues(i) => WorkGains(s, e);
    case StartContinues(i) => WorkGains(s, e);
  }

  lemma WorkGains(s: State, e: Event)
    requires Enabled(s, e) && (e.PassBegins? || e.LineProbes? || e.PersistContinues? || e.StartContinues?)
    ensures GainsNothing(s, Step(s, e))
  {
  }

  lemma JudgingGains(s: State, verdict: Verdict)
    requires RunningLine(s)
    ensures GainsNothing(s, Judge(s, verdict))
  {
    hide HeldBack;
  }

  lemma AnsweringGains(s: State, outcome: StoreOutcome)
    requires RunningLine(s)
    ensures GainsNothing(s, LineAnswer(s, outcome))
  {
    hide Gives, AfterAttempt, Commit;
  }

  lemma EndingGains(s: State)
    requires s.passes != [] && s.passes[0].work.Running? && |s.passes[0].work.outcomes| == |s.passes[0].work.lines|
    ensures GainsNothing(s, EndLines(s))
  {
    hide LinesThat, AccountsOf, LetGoOf;
  }

  lemma RecoveringGains(s: State, i: nat, stored: bool)
    requires i < |s.ended| && s.ended[i].caller.Recover?
    ensures GainsNothing(s, RecoverGoesOn(s, i, stored))
  {
    hide AccountsOf;
  }

  lemma FileGains(s: State, ok: bool, m: Msg)
    requires FileOpReady(s)
    ensures var t := FileStep(s, ok);
      && t.left <= s.left && t.unsaved == s.unsaved
      && (m in t.file ==> m in s.file || m in KeptBy(s) || (ok && (s.fileTurn[0] == Append(m) || s.fileTurn[0] == AppendLeft(m))))
  {
    hide LinesThat, AccountsOf, LetGo, LetGoOf, Elements;
  }

  function KeptBy(s: State): seq<Msg> {
    if ReadyToKeep(s.passes, s.file) then LinesThat(s.passes[0].work.lines, s.passes[0].work.outcomes, Kept) else []
  }

  lemma {:induction false} LinesAreLines(lines: seq<Msg>, outcomes: seq<Outcome>, outcome: Outcome, m: Msg)
    requires |outcomes| <= |lines|
    ensures m in LinesThat(lines, outcomes, outcome) <==> exists i :: 0 <= i < |outcomes| && lines[i] == m && outcomes[i] == outcome
    decreases |outcomes|
  {
    if outcomes != [] {
      var last := |outcomes| - 1;
      LinesAreLines(lines, outcomes[..last], outcome, m);
      assert forall i :: 0 <= i < last ==> outcomes[..last][i] == outcomes[i];
    }
  }

  lemma KeptIsInTheFile(s: State, m: Msg)
    requires PassShape(s.arrivals, s.file, s.passes) && m in KeptBy(s)
    ensures m in s.file
  {
    var w := s.passes[0].work;
    LinesAreLines(w.lines, w.outcomes, Kept, m);
    var i :| 0 <= i < |w.outcomes| && w.lines[i] == m;
    assert s.file[i] == s.file[..|w.lines|][i];
  }

  lemma OthersGain(s: State, e: Event, m: Msg)
    requires Enabled(s, e) && !IsLive(e) && !IsOfAPass(e)
    ensures var t := Step(s, e);
      && t.file == s.file && t.unsaved <= s.unsaved && (m in t.left ==> m in s.left || (m in s.unsaved && m !in t.unsaved))
  {
    hide AccountsOf, ForgottenBy, Restarted;
  }

  /** A message not in the failed log gets there by its own append. */
  lemma Gains(s: State, e: Event, m: Msg)
    requires Inv(s) && Enabled(s, e) && m !in s.file
    ensures var t := Step(s, e);
      && (m in t.file ==> e == FileWorks(true) && (s.fileTurn[0] == Append(m) || s.fileTurn[0] == AppendLeft(m)))
      && (m in t.left ==> m in s.left || (m in s.unsaved && m !in t.unsaved))
      && (m in t.unsaved ==> m in s.unsaved || (e.Handles? && m == |s.arrivals|))
  {
    hide Inv, Step, FileStep;
    if IsLive(e) {
      LiveGains(s, e, m);
    } else if e.FileWorks? {
      ShapeOf(s);
      FileGains(s, e.ok, m);
      if m in KeptBy(s) { KeptIsInTheFile(s, m); }
      FileStepIs(s, e.ok);
    } else if IsOfAPass(e) {
      LinesGain(s, e);
    } else {
      OthersGain(s, e, m);
    }
  }

  lemma FileStepIs(s: State, ok: bool)
    requires Enabled(s, FileWorks(ok))
    ensures Step(s, FileWorks(ok)) == FileStep(s, ok) && FileOpReady(s)
  {
    hide FileStep;
  }

  lemma ShapeOf(s: State)
    requires Inv(s)
    ensures PassShape(s.arrivals, s.file, s.passes)
  {
  }

  /** The log only gains what is offered. */
  lemma OnlyTheOfferedIsLogged(s: State, e: Event, m: Msg)
    requires Inv(s) && Enabled(s, e) && m < |s.arrivals| && !InLog(s.arrivals, s.ledger.handed, m) && !Offers(s, e, m)
    ensures !InLog(Step(s, e).arrivals, Step(s, e).ledger.handed, m)
  {
    hide Inv, Valid, HandedKnown, AfterAttempt, Step;
    LogParts(s);
    StepLeavesLog(s, e);
    match e
    case StoreAnswers(other, outcome) => AttemptLogsItsOwn(s.ledger, s.arrivals[other], outcome, s.arrivals[m].account, m);
    case LineAnswered(outcome) => AttemptLogsItsOwn(s.ledger, s.arrivals[CurrentLine(s)], outcome, s.arrivals[m].account, m);
    case _ =>
  }

  lemma AttemptLogsItsOwn(l: Ledger, envelope: Envelope, outcome: StoreOutcome, a: Account, m: Msg)
    requires Valid(l) && envelope.id != m && m !in HandedTo(l.handed, a)
    ensures m !in HandedTo(AfterAttempt(l, envelope, outcome).handed, a)
  {
    hide Valid, Commit;
    if !outcome.NoCommit? { CommitEffect(l, envelope, outcome.now); }
  }

  /** What is nowhere is not offered, and nothing is appended for it, while it waits for its verdict or after it was excluded. */
  lemma NowhereIsNotOffered(s: State, e: Event, m: Msg)
    requires Inv(s) && Enabled(s, e) && IsNowhere(s, m) && (IsWaiting(s.stage[m]) || s.stage[m] == Done)
    ensures !Offers(s, e, m)
    ensures e.FileWorks? ==> s.fileTurn[0] != Append(m) && s.fileTurn[0] != AppendLeft(m)
  {
    if e.FileWorks? { assert s.fileTurn[0] in s.fileTurn && OpMatches(s.stage, s.passes, s.busy, s.fileTurn[0]); }
    if e.LineAnswered? { assert s.file[..|s.passes[0].work.lines|][|s.passes[0].work.outcomes|] == CurrentLine(s); }
  }

  lemma StaysNowhere(s: State, e: Event, m: Msg)
    requires Inv(s) && Enabled(s, e) && IsNowhere(s, m) && (IsWaiting(s.stage[m]) || s.stage[m] == Done)
    ensures var t := Step(s, e);
      && m < |t.stage| && m !in t.file && !InLog(t.arrivals, t.ledger.handed, m)
      && (m in t.left ==> m in s.unsaved && m !in t.unsaved) && (m in t.unsaved ==> m in s.unsaved)
      && !IsEmitted(t.emitted, m)
  {
    hide Inv, Step, Enabled, Offers, IsEmitted, InLog;
    Sizes(s);
    NowhereIsNotOffered(s, e, m);
    Gains(s, e, m);
    OnlyTheOfferedIsLogged(s, e, m);
    StaysUnemitted(s, e, m);
  }

  lemma Sizes(s: State)
    requires Inv(s)
    ensures |s.stage| == |s.arrivals|
  {
  }

  lemma StaysUnemitted(s: State, e: Event, m: Msg)
    requires Inv(s) && Enabled(s, e) && m < |s.stage| && !IsEmitted(s.emitted, m) && (IsWaiting(s.stage[m]) || s.stage[m] == Done)
    ensures m < |Step(s, e).stage| && !IsEmitted(Step(s, e).emitted, m)
  {
    hide Inv, IsAboutOthers, Step, Enabled, SameFor, TurnsAway, IsSilencedBy, IsEmitted;
    if e.Crashes? {
      DyingEmitsNothing(s, m);
    } else {
      NotYetTried(s, e, m);
      if IsAboutOthers(s, e, m) {
        OthersLeaveIt(s, e, m);
        EmitsOthers(s, Step(s, e), m);
      } else {
        WaitsQuietly(s, e, m);
      }
    }
  }

  lemma DyingEmitsNothing(s: State, m: Msg)
    requires m < |s.stage|
    ensures m < |Step(s, Crashes).stage| && Step(s, Crashes).emitted == s.emitted
  {
    hide Restarted;
  }

  lemma EmitsOthers(s: State, t: State, m: Msg)
    requires SameFor(s, t, m)
    ensures m < |t.stage| && (IsEmitted(t.emitted, m) <==> IsEmitted(s.emitted, m))
  {
    assert forall i :: 0 <= i < |s.emitted| ==> t.emitted[i] == s.emitted[i];
  }

  lemma WaitsQuietly(s: State, e: Event, m: Msg)
    requires Enabled(s, e) && (e.Starts? || e.EnrichEnds?) && e.m == m && m < |s.stage|
    ensures m < |Step(s, e).stage| && Step(s, e).emitted == s.emitted
  {
    hide ItsTurn;
  }

  // The three states, step by step.

  lemma StepExcluded(s: State, e: Event, m: Msg)
    requires Inv(s) && Enabled(s, e) && IsExcluded(s, m)
    ensures IsExcluded(Step(s, e), m) && !Offers(s, e, m)
  {
    hide Inv, Step, Enabled, Offers, IsEmitted, InLog, IsAboutOthers, SameFor;
    NowhereIsNotOffered(s, e, m);
    StaysNowhere(s, e, m);
    DoneStays(s, e, m);
  }

  lemma DoneStays(s: State, e: Event, m: Msg)
    requires Inv(s) && Enabled(s, e) && m < |s.stage| && s.stage[m] == Done
    ensures m < |Step(s, e).stage| && Step(s, e).stage[m] == Done
  {
    hide Inv;
    if !e.Crashes? {
      NotYetTried(s, e, m);
      hide IsAboutOthers, Step, Enabled;
      OthersLeaveIt(s, e, m);
    }
  }

  lemma StepHadItsTurn(s: State, e: Event, m: Msg)
    requires Inv(s) && Enabled(s, e) && HadItsTurn(s, m)
    ensures HadItsTurn(Step(s, e), m) && !Refuses(s, e, m)
  {
    Sizes(s);
    TurnIsOver(s, e, m);
    hide Inv, Step, Enabled, IsWaiting;
    if m in s.unsaved { NeverBack(s, e, m); } else { UnsavedStays(s, e, m); }
  }

  lemma TurnIsOver(s: State, e: Event, m: Msg)
    requires Enabled(s, e) && HadItsTurn(s, m)
    ensures !Refuses(s, e, m)
  {
  }

  lemma UnsavedStays(s: State, e: Event, m: Msg)
    requires Inv(s) && Enabled(s, e) && m < |s.arrivals| && m !in s.unsaved
    ensures m !in Step(s, e).unsaved && m < |Step(s, e).stage|
  {
    hide Inv, Step;
    StagesStay(s, e);
    if IsLive(e) {
      LiveGains(s, e, m);
    } else if e.FileWorks? {
      FileStepIs(s, e.ok);
      hide FileStep;
      FileGains(s, e.ok, m);
    } else if IsOfAPass(e) {
      LinesGain(s, e);
    } else {
      OthersGain(s, e, m);
    }
  }

  lemma StagesStay(s: State, e: Event)
    requires Inv(s) && Enabled(s, e)
    ensures |Step(s, e).stage| >= |s.arrivals|
  {
    hide Inv, Step, Enabled;
    StepKeeps(s, e);
    Sizes(s);
    Sizes(Step(s, e));
    StepLeavesLog(s, e);
  }

  lemma StepAwaits(s: State, e: Event, m: Msg)
    requires Inv(s) && Enabled(s, e) && Awaits(s, m)
    ensures !Offers(s, e, m)
    ensures if Refuses(s, e, m) then IsExcluded(Step(s, e), m) else Awaits(Step(s, e), m) || HadItsTurn(Step(s, e), m)
  {
    hide Inv, Step, Enabled, Offers, IsEmitted, InLog;
    NowhereIsNotOffered(s, e, m);
    StaysNowhere(s, e, m);
    if Refuses(s, e, m) { RefusingEnds(s, m); }
  }

  lemma RefusingEnds(s: State, m: Msg)
    requires Enabled(s, EnrichEnds(m, false))
    ensures var t := Step(s, EnrichEnds(m, false)); m < |t.stage| && t.stage[m] == Done && m !in t.unsaved && t.left == s.left
  {
  }

  lemma {:induction false} RunRefuses(s: State, events: seq<Event>, m: Msg)
    requires Inv(s) && IsRun(s, events)
    ensures Awaits(s, m) && IsRefused(s, events, m) ==> !IsOffered(s, events, m) && IsExcluded(After(s, events), m)
    ensures IsExcluded(s, m) ==> !IsOffered(s, events, m) && IsExcluded(After(s, events), m)
    ensures HadItsTurn(s, m) ==> !IsRefused(s, events, m)
    decreases |events|
  {
    hide Inv, Step, Enabled, Offers, Refuses, Awaits, IsExcluded, HadItsTurn;
    if events != [] {
      StepKeeps(s, events[0]);
      if Awaits(s, m) { StepAwaits(s, events[0], m); }
      if IsExcluded(s, m) { StepExcluded(s, events[0], m); }
      if HadItsTurn(s, m) { StepHadItsTurn(s, events[0], m); }
      RunRefuses(Step(s, events[0]), events[1..], m);
    }
  }

  /**
   * What the filter refuses when its turn comes, with `drain` not having it, is never offered to the log, written to the
   * failed log or emitted: not before, and not after, whatever happens.
   */
  lemma RefusedIsNowhere(s: State, envelope: Envelope, events: seq<Event>)
    requires Reachable(s) && Enabled(s, Handles(envelope)) && IsRun(Step(s, Handles(envelope)), events)
    requires IsRefused(Step(s, Handles(envelope)), events, |s.arrivals|)
    ensures var m, t := |s.arrivals|, Step(s, Handles(envelope));
      !IsOffered(t, events, m) && IsNowhere(After(t, events), m)
  {
    hide Inv, Reachable, Step, Enabled, IsOffered, IsRefused, IsEmitted, InLog;
    var t := Step(s, Handles(envelope));
    ReachableHolds(s);
    StepKeeps(s, Handles(envelope));
    JustArrived(s, envelope);
    RunRefuses(t, events, |s.arrivals|);
  }
}

/**
 How hard the log is tried: over every run, which failures a message is tried again after, when it is given up on, and which
 steps touch the circuit.
 */
module AttemptTheorems {
  import opened MessageStore
  import opened MessageLedger
  import opened StoreGuard
  import opened InboundProtocol
  import opened ProtocolInvariants
  import opened WorldSteps
  import opened PastSteps
  import opened ProtocolTheorems
  import opened DuplicateTheorems
  import opened FilterTheorems

  // ── The attempts of a message ────────────────────────────────────

  /** How often a run tried to store the message live, and whether the last try was refused for good. */
  datatype Tries = Tries(count: nat, forGood: bool)

  const NONE := Tries(0, false)

  function OneMore(tries: Tries, e: Event, m: Msg): Tries {
    if e.StoreAnswers? && e.m == m then Tries(tries.count + 1, e.outcome == NoCommit(true)) else tries
  }

  function TriesIn(tries: Tries, events: seq<Event>, m: Msg): Tries
    decreases |events|
  {
    if events == [] then tries else TriesIn(OneMore(tries, events[0], m), events[1..], m)
  }

  /** Its stage says how often it was tried. */
  predicate IsTriedSo(stage: Stage, tries: Tries, retries: nat) {
    match stage
    case Queued => tries == NONE
    case Enriching => tries == NONE
    case Resolving => tries == NONE
    case Attempting(k) => tries.count == k <= retries
    case Failed(k, permanent) => tries.count == k + 1 && k <= retries && permanent == tries.forGood
    case Waiting(k) => tries.count == k <= retries
    case _ => true
  }

  lemma StageStaysTried(s: State, e: Event, m: Msg, tries: Tries)
    requires Enabled(s, e) && m < |s.stage| && m < |Step(s, e).stage| && Step(s, e).stage[m] == s.stage[m]
    requires IsTriedSo(s.stage[m], tries, s.retries) && OneMore(tries, e, m) == tries
    ensures IsTriedSo(Step(s, e).stage[m], OneMore(tries, e, m), s.retries)
  {
    hide Step, Enabled;
  }

  lemma OwnStepsTry(s: State, e: Event, m: Msg, tries: Tries)
    requires Enabled(s, e) && m < |s.stage| && IsTriedSo(s.stage[m], tries, s.retries)
    requires (e.ResolveEnds? || e.Fails? || e.Wakes?) && e.m == m
    ensures m < |Step(s, e).stage| && IsTriedSo(Step(s, e).stage[m], tries, s.retries)
  {
  }

  lemma FirstStepsTry(s: State, e: Event, m: Msg, tries: Tries)
    requires Enabled(s, e) && m < |s.stage| && IsTriedSo(s.stage[m], tries, s.retries)
    requires (e.Starts? || e.EnrichEnds?) && e.m == m
    ensures m < |Step(s, e).stage| && IsTriedSo(Step(s, e).stage[m], tries, s.retries)
  {
    hide ItsTurn;
  }

  lemma AnsweringTries(s: State, e: Event, m: Msg, tries: Tries)
    requires Enabled(s, e) && m < |s.stage| && IsTriedSo(s.stage[m], tries, s.retries) && e.StoreAnswers? && e.m == m
    ensures m < |Step(s, e).stage| && IsTriedSo(Step(s, e).stage[m], OneMore(tries, e, m), s.retries)
  {
    hide AfterAttempt, SettleRetried, Commit;
  }

  /** Refused, and on from there, or over. */
  predicate IsThroughWithIt(stage: Stage) {
    stage == WritingOff || stage == Appended || stage == Replaying || stage == WrittenOff || stage == Done
  }

  lemma WrittenOffStays(s: State, e: Event, m: Msg)
    requires Enabled(s, e) && m < |s.stage|
    requires (e.WritesOff? || e.AppendIsOver? || e.Concludes?) && e.m == m
    ensures m < |Step(s, e).stage| && IsThroughWithIt(Step(s, e).stage[m])
  {
    hide FinishEmitting, AfterWriteOff, Conclude;
    if e.Concludes? {
      ConcludingGoesOn(s, m);
    } else {
      WritingOffGoesOn(s, m);
      WritingOffGoesOn(s.(unsaved := s.unsaved - {m}), m);
    }
  }

  lemma RestIsOver(s: State, e: Event, m: Msg)
    requires Enabled(s, e) && m < |s.stage| && !IsAboutOthers(s, e, m) && !IsLive(e)
    ensures m < |Step(s, e).stage| && IsThroughWithIt(Step(s, e).stage[m])
  {
    hide FileStep, PersistGoesOn, Crash;
    if e.FileWorks? {
      FileMoves(s, e.ok, m);
    } else if e.PersistContinues? {
      PersistedIsOver(s, e.i);
    } else {
      DeathIsOver(s);
    }
  }

  lemma PersistedIsOver(s: State, i: nat)
    requires i < |s.ended| && s.ended[i].caller.Persist? && s.ended[i].caller.m < |s.stage|
    ensures var t, m := PersistGoesOn(s, i), s.ended[i].caller.m; m < |t.stage| && t.stage[m] == WrittenOff
  {
  }

  lemma DeathIsOver(s: State)
    ensures |Crash(s).stage| == |s.stage| && forall m :: 0 <= m < |s.stage| ==> Crash(s).stage[m] == Done
  {
    hide Restarted;
  }

  lemma StepTries(s: State, e: Event, m: Msg, tries: Tries)
    requires Enabled(s, e) && m < |s.stage| && IsTriedSo(s.stage[m], tries, s.retries)
    ensures m < |Step(s, e).stage| && IsTriedSo(Step(s, e).stage[m], OneMore(tries, e, m), s.retries)
  {
    hide Enabled, Step, SameFor, IsTriedSo;
    if IsAboutOthers(s, e, m) {
      OthersLeaveIt(s, e, m);
      StageStays(s, Step(s, e), m);
      StageStaysTried(s, e, m, tries);
    } else if e.StoreAnswers? {
      AnsweringTries(s, e, m, tries);
    } else if e.Starts? || e.EnrichEnds? {
      FirstStepsTry(s, e, m, tries);
    } else if e.ResolveEnds? || e.Fails? || e.Wakes? {
      OwnStepsTry(s, e, m, tries);
    } else {
      if IsLive(e) { WrittenOffStays(s, e, m); } else { RestIsOver(s, e, m); }
      OverIsTried(Step(s, e).stage[m], tries, s.retries);
    }
  }

  lemma OverIsTried(stage: Stage, tries: Tries, retries: nat)
    requires IsThroughWithIt(stage)
    ensures IsTriedSo(stage, tries, retries)
  {
  }

  lemma {:induction false} RunTries(s: State, events: seq<Event>, m: Msg, tries: Tries)
    requires IsRun(s, events) && m < |s.stage| && IsTriedSo(s.stage[m], tries, s.retries)
    ensures var t := After(s, events);
      m < |t.stage| && t.retries == s.retries && IsTriedSo(t.stage[m], TriesIn(tries, events, m), s.retries)
    decreases |events|
  {
    hide Step, Enabled, IsTriedSo;
    if events != [] {
      StepTries(s, events[0], m, tries);
      RetriesAreFixed(s, events[0]);
      RunTries(Step(s, events[0]), events[1..], m, OneMore(tries, events[0], m));
    }
  }

  /** The delays are fixed, and accounts connect from the end of the start on. */
  predicate SettingsFollow(s: State, e: Event, t: State) {
    t.retries == s.retries && t.starting == (e.Crashes? || (s.starting && !e.StartContinues?))
  }

  lemma RetriesAreFixed(s: State, e: Event)
    requires Enabled(s, e)
    ensures SettingsFollow(s, e, Step(s, e))
  {
    hide Judge, LineAnswer, EndLines, RecoverGoesOn, ResumeEnds, FileStep, Answer, AttemptFailed, WriteOff, AppendEnds, Conclude, Retention,
      Crash, SettingsFollow;
    match e
    case StoreAnswers(_, _) => LiveRetries(s, e);
    case Fails(_) => LiveRetries(s, e);
    case WritesOff(_) => WriteOffRetries(s, e);
    case AppendIsOver(_) => WriteOffRetries(s, e);
    case Concludes(_) => LiveRetries(s, e);
    case FileWorks(ok) => FileRetries(s, ok);
    case Judges(_) => LineRetries(s, e);
    case LineAnswered(_) => LineRetries(s, e);
    case LinesEnd => LineRetries(s, e);
    case RecoverContinues(_, _) => OtherRetries(s, e);
    case ResumeIsOver(_) => OtherRetries(s, e);
    case Retains(_) => OtherRetries(s, e);
    case Crashes => OtherRetries(s, e);
    case _ => RestRetries(s, e);
  }

  lemma LiveRetries(s: State, e: Event)
    requires Enabled(s, e) && (e.StoreAnswers? || e.Fails? || e.Concludes?)
    ensures SettingsFollow(s, e, Step(s, e))
  {
    hide AfterAttempt, SettleRetried, Commit;
  }

  lemma WriteOffRetries(s: State, e: Event)
    requires Enabled(s, e) && (e.WritesOff? || e.AppendIsOver?)
    ensures SettingsFollow(s, e, Step(s, e))
  {
  }

  lemma FileRetries(s: State, ok: bool)
    requires FileOpReady(s)
    ensures SettingsFollow(s, FileWorks(ok), FileStep(s, ok))
  {
    hide LinesThat, AccountsOf, LetGoOf, Elements;
  }

  lemma LineRetries(s: State, e: Event)
    requires Enabled(s, e) && (e.Judges? || e.LineAnswered? || e.LinesEnd?)
    ensures SettingsFollow(s, e, Step(s, e))
  {
    hide LinesThat, AccountsOf, LetGoOf, HeldBack, Gives, AfterAttempt, Commit;
  }

  lemma OtherRetries(s: State, e: Event)
    requires Enabled(s, e) && (e.RecoverContinues? || e.ResumeIsOver? || e.Retains? || e.Crashes?)
    ensures SettingsFollow(s, e, Step(s, e))
  {
    hide AccountsOf, ForgottenBy, Restarted;
  }

  lemma RestRetries(s: State, e: Event)
    requires Enabled(s, e)
    requires !(e.StoreAnswers? || e.Fails? || e.WritesOff? || e.AppendIsOver? || e.Concludes? || e.FileWorks? || e.Judges? ||
               e.LineAnswered? || e.LinesEnd? || e.RecoverContinues? || e.ResumeIsOver? || e.Retains? || e.Crashes?)
    ensures SettingsFollow(s, e, Step(s, e))
  {
    hide ItsTurn;
  }

  // ── When it is given up on ───────────────────────────────────────

  /** An attempt finds the circuit not closed; or one has failed, for good, as the last there is, or while stopping. */
  predicate IsGivenUp(s: State, e: Event, m: Msg, tries: Tries) {
    ((e == ResolveEnds(m) || e == Wakes(m)) && s.guard.phase != Closed) ||
    (e == Fails(m) && (tries.forGood || tries.count > s.retries || s.guard.stopped))
  }

  lemma OwnStepRefuses(s: State, e: Event, m: Msg, tries: Tries)
    requires Enabled(s, e) && m < |s.stage| && IsTriedSo(s.stage[m], tries, s.retries)
    requires (e.ResolveEnds? || e.Fails? || e.Wakes?) && e.m == m
    ensures m < |Step(s, e).stage|
    ensures if IsGivenUp(s, e, m, tries) then Step(s, e).stage[m] == Refusing
            else if e.Fails? then Step(s, e).stage[m] == Waiting(tries.count) else Step(s, e).stage[m] == Attempting(tries.count)
  {
    hide ItsTurn;
  }

  lemma NoOtherRefuses(s: State, e: Event, m: Msg, tries: Tries)
    requires Enabled(s, e) && m < |s.stage| && s.stage[m] != Refusing && IsTriedSo(s.stage[m], tries, s.retries)
    requires !((e.ResolveEnds? || e.Fails? || e.Wakes?) && e.m == m)
    ensures m < |Step(s, e).stage| && Step(s, e).stage[m] != Refusing
  {
    hide Enabled, Step, SameFor;
    if IsAboutOthers(s, e, m) {
      OthersLeaveIt(s, e, m);
      StageStays(s, Step(s, e), m);
    } else if e.Starts? || e.EnrichEnds? || e.StoreAnswers? {
      TryingDoesNotRefuse(s, e, m);
    } else if IsLive(e) {
      WrittenOffStays(s, e, m);
    } else {
      RestIsOver(s, e, m);
    }
  }

  lemma TryingDoesNotRefuse(s: State, e: Event, m: Msg)
    requires Enabled(s, e) && m < |s.stage| && (e.Starts? || e.EnrichEnds? || e.StoreAnswers?) && e.m == m
    ensures m < |Step(s, e).stage| && Step(s, e).stage[m] != Refusing
  {
    hide ItsTurn, AfterAttempt, SettleRetried, Commit;
  }

  /**
   * Of any message, in any run: the log is tried at most once more than there are delays, and the message is refused exactly
   * when an attempt finds the circuit not closed, was refused for good, was the last there is, or failed while stopping. After
   * any other failure it waits, and it is tried again once it wakes.
   */
  lemma GivenUpExactly(s: State, envelope: Envelope, events: seq<Event>, e: Event)
    requires Reachable(s) && Enabled(s, Handles(envelope)) && IsRun(Step(s, Handles(envelope)), events)
    requires Enabled(After(Step(s, Handles(envelope)), events), e)
    ensures var m, t, tries := |s.arrivals|, After(Step(s, Handles(envelope)), events), TriesIn(NONE, events, |s.arrivals|);
      var u := Step(t, e);
      && m < |t.stage| && m < |u.stage|
      && (t.stage[m] != Refusing ==> (u.stage[m] == Refusing <==> IsGivenUp(t, e, m, tries)))
      && ((e == ResolveEnds(m) || e == Wakes(m)) && t.guard.phase == Closed ==> u.stage[m] == Attempting(tries.count))
      && (e == Fails(m) && !IsGivenUp(t, e, m, tries) ==> u.stage[m] == Waiting(tries.count))
      && (t.stage[m].Attempting? || t.stage[m].Failed? || t.stage[m].Waiting? ==> tries.count <= t.retries + 1)
  {
    hide Inv, Reachable, Step, Enabled;
    var m, t0 := |s.arrivals|, Step(s, Handles(envelope));
    ReachableHolds(s);
    JustArrived(s, envelope);
    RunTries(t0, events, m, NONE);
    var t, tries := After(t0, events), TriesIn(NONE, events, m);
    if (e.ResolveEnds? || e.Fails? || e.Wakes?) && e.m == m {
      OwnStepRefuses(t, e, m, tries);
    } else {
      OthersDoNotGiveUp(t, e, m, tries);
      StepTries(t, e, m, tries);
      if t.stage[m] != Refusing { NoOtherRefuses(t, e, m, tries); }
    }
  }

  lemma OthersDoNotGiveUp(s: State, e: Event, m: Msg, tries: Tries)
    requires !((e.ResolveEnds? || e.Fails? || e.Wakes?) && e.m == m)
    ensures !IsGivenUp(s, e, m, tries)
  {
  }

  // ── Who touches the circuit ──────────────────────────────────────

  /** What a step does to the circuit. */
  function GuardEventsOf(s: State, e: Event): seq<GuardEvent>
    requires Enabled(s, e) && !e.Crashes?
  {
    match e
    case Fails(m) => if !s.stage[m].permanent && s.stage[m].attempt >= s.retries then [Opens] else []
    case LineProbes(written) => if written then [] else [Opens]
    case RecoverContinues(i, _) => if PassesAgain(s, i) then [] else [Finishes]
    case ResumeIsOver(failed) => if failed then [Finishes] else []
    case ProbeGoesOut => [TimerFires]
    case ProbeIsAnswered(written) => [Probed(written)]
    case DrainBegins => [Stops]
    case _ => []
  }

  predicate SameGuard(s: State, t: State) {
    t.guard == s.guard
  }

  lemma EarlyLeavesGuard(s: State, e: Event)
    requires Enabled(s, e) && IsEarly(e)
    ensures SameGuard(s, Step(s, e))
  {
    hide ItsTurn;
  }

  lemma LateLeavesGuard(s: State, e: Event)
    requires Enabled(s, e) && IsLive(e) && !IsEarly(e) && !e.Fails?
    ensures SameGuard(s, Step(s, e))
  {
    hide AfterAttempt, SettleRetried, Commit;
  }

  lemma PassLeavesGuard(s: State, e: Event)
    requires Enabled(s, e) && IsOfAPass(e) && !e.LineProbes? && !e.RecoverContinues?
    ensures SameGuard(s, Step(s, e))
  {
    hide Judge, LineAnswer, EndLines, FileStep, SameGuard;
    match e
    case FileWorks(ok) => FileLeavesGuard(s, ok);
    case Judges(verdict) => JudgingLeavesGuard(s, verdict);
    case LineAnswered(outcome) => AnsweringLeavesGuard(s, outcome);
    case LinesEnd => EndingLeavesGuard(s);
    case _ => CallersLeaveGuard(s, e);
  }

  lemma FileLeavesGuard(s: State, ok: bool)
    requires FileOpReady(s)
    ensures SameGuard(s, FileStep(s, ok))
  {
    hide LinesThat, AccountsOf, LetGoOf, Elements;
  }

  lemma JudgingLeavesGuard(s: State, verdict: Verdict)
    requires RunningLine(s)
    ensures SameGuard(s, Judge(s, verdict))
  {
    hide HeldBack;
  }

  lemma AnsweringLeavesGuard(s: State, outcome: StoreOutcome)
    requires RunningLine(s)
    ensures SameGuard(s, LineAnswer(s, outcome))
  {
    hide Gives, AfterAttempt, Commit;
  }

  lemma EndingLeavesGuard(s: State)
    requires s.passes != [] && s.passes[0].work.Running? && |s.passes[0].work.outcomes| == |s.passes[0].work.lines|
    ensures SameGuard(s, EndLines(s))
  {
    hide LinesThat, AccountsOf, LetGoOf;
  }

  lemma CallersLeaveGuard(s: State, e: Event)
    requires Enabled(s, e) && (e.PassBegins? || e.PersistContinues? || e.StartContinues?)
    ensures SameGuard(s, Step(s, e))
  {
  }

  lemma OthersLeaveGuard(s: State, e: Event)
    requires Enabled(s, e)
    requires e.HeldTimerGoesOff? || e.DrainSnapshots? || e.DrainWrites? || e.DrainReturns? || e.Retains?
    ensures SameGuard(s, Step(s, e))
  {
    hide ForgottenBy;
  }

  predicate TouchesTheGuard(e: Event) {
    e.Fails? || e.LineProbes? || e.RecoverContinues? || e.ResumeIsOver? || e.ProbeGoesOut? || e.ProbeIsAnswered? || e.DrainBegins?
  }

  lemma TouchingTheGuard(s: State, e: Event)
    requires Enabled(s, e) && TouchesTheGuard(e)
    ensures Step(s, e).guard == GuardAfter(s.guard, GuardEventsOf(s, e)) && IsGuardRun(s.guard, GuardEventsOf(s, e))
  {
    hide RecoverGoesOn, ResumeEnds, AttemptFailed, LineProbed, GuardAfter, IsGuardRun, PassesAgain;
    NoGuardEvent(s.guard);
    match e
    case Fails(m) =>
      OneGuardEvent(s.guard, Opens);
      FailingTouches(s, m);
    case LineProbes(written) =>
      OneGuardEvent(s.guard, Opens);
      ProbingTouches(s, written);
    case RecoverContinues(i, stored) =>
      OneGuardEvent(s.guard, Finishes);
      RecoveringTouches(s, i, stored);
    case ResumeIsOver(failed) =>
      OneGuardEvent(s.guard, Finishes);
      ResumingTouches(s, failed);
    case ProbeGoesOut => OneGuardEvent(s.guard, TimerFires);
    case ProbeIsAnswered(written) => OneGuardEvent(s.guard, Probed(written));
    case DrainBegins => OneGuardEvent(s.guard, Stops);
  }

  lemma NoGuardEvent(g: Guard)
    ensures GuardAfter(g, []) == g && IsGuardRun(g, [])
  {
  }

  lemma OneGuardEvent(g: Guard, e: GuardEvent)
    ensures GuardAfter(g, [e]) == NextGuard(g, e) && (CanHappen(g, e) ==> IsGuardRun(g, [e]))
  {
    assert [e][1..] == [];
  }

  lemma FailingTouches(s: State, m: Msg)
    requires m < |s.stage| && s.stage[m].Failed?
    ensures AttemptFailed(s, m).guard == if !s.stage[m].permanent && s.stage[m].attempt >= s.retries then Open(s.guard) else s.guard
  {
  }

  lemma ProbingTouches(s: State, written: bool)
    requires s.passes != [] && s.passes[0].work.Running?
    ensures LineProbed(s, written).guard == if written then s.guard else Open(s.guard)
  {
  }

  lemma RecoveringTouches(s: State, i: nat, stored: bool)
    requires i < |s.ended| && s.ended[i].caller.Recover?
    ensures RecoverGoesOn(s, i, stored).guard == if PassesAgain(s, i) then s.guard else FinishRecovery(s.guard)
  {
    hide AccountsOf;
  }

  lemma ResumingTouches(s: State, failed: bool)
    requires s.resuming > 0
    ensures ResumeEnds(s, failed).guard == if failed then FinishRecovery(s.guard) else s.guard
  {
    hide AccountsOf;
  }

  /** The circuit moves as the guard does: by these steps, and by no other. */
  lemma CircuitFollowsTheGuard(s: State, e: Event)
    requires Enabled(s, e) && !e.Crashes?
    ensures Step(s, e).guard == GuardAfter(s.guard, GuardEventsOf(s, e)) && IsGuardRun(s.guard, GuardEventsOf(s, e))
  {
    if TouchesTheGuard(e) {
      TouchingTheGuard(s, e);
    } else {
      NoGuardEvent(s.guard);
      hide Step, Enabled;
      if IsEarly(e) {
        EarlyLeavesGuard(s, e);
      } else if IsLive(e) {
        LateLeavesGuard(s, e);
      } else if IsOfAPass(e) {
        PassLeavesGuard(s, e);
      } else {
        OthersLeaveGuard(s, e);
      }
    }
  }

  predicate BeginsOutage(s: State, t: State) {
    s.guard.phase != Down && t.guard.phase == Down
  }

  ghost function OutagesIn(s: State, events: seq<Event>): nat
    requires IsRun(s, events)
    decreases |events|
  {
    if events == [] then 0
    else (if BeginsOutage(s, Step(s, events[0])) then 1 else 0) + OutagesIn(Step(s, events[0]), events[1..])
  }

  /** A probe has written, and nothing is stopping: the failed log is called for. */
  predicate BeginsRecovery(s: State, e: Event) {
    e == ProbeIsAnswered(true) && !s.guard.stopped
  }

  ghost function RecoveriesIn(s: State, events: seq<Event>): nat
    requires IsRun(s, events)
    decreases |events|
  {
    if events == [] then 0
    else (if BeginsRecovery(s, events[0]) then 1 else 0) + RecoveriesIn(Step(s, events[0]), events[1..])
  }

  lemma OutageStep(s: State, e: Event)
    requires Enabled(s, e) && !e.Crashes? && Probing(s.guard)
    ensures (if BeginsOutage(s, Step(s, e)) then 1 else 0) + (if s.guard.phase == Down then 1 else 0) ==
            (if BeginsRecovery(s, e) then 1 else 0) + (if Step(s, e).guard.phase == Down then 1 else 0)
    ensures BeginsRecovery(s, e) ==> Step(s, e).passes == s.passes + [Pass(Recover(s.writeOffs), Turn)]
  {
    CircuitFollowsTheGuard(s, e);
    if !BeginsRecovery(s, e) {
      CalmStep(s, e);
    }
  }

  lemma CalmStep(s: State, e: Event)
    requires Enabled(s, e) && !e.Crashes? && Probing(s.guard) && !BeginsRecovery(s, e)
    ensures s.guard.phase == Down ==> GuardAfter(s.guard, GuardEventsOf(s, e)).phase == Down
  {
  }

  lemma ProbingHolds(s: State)
    requires Inv(s)
    ensures Probing(s.guard)
  {
  }

  /** Short of a death, every outage that is over was ended by one probe that wrote, and each of those started one recovery. */
  lemma {:induction false} EveryOutageIsRecovered(s: State, events: seq<Event>)
    requires Inv(s) && IsRun(s, events) && forall i :: 0 <= i < |events| ==> !events[i].Crashes?
    ensures OutagesIn(s, events) + (if s.guard.phase == Down then 1 else 0) ==
            RecoveriesIn(s, events) + (if After(s, events).guard.phase == Down then 1 else 0)
    decreases |events|
  {
    hide Inv, Step, Enabled, BeginsOutage, BeginsRecovery;
    if events != [] {
      ProbingHolds(s);
      StepKeeps(s, events[0]);
      OutageStep(s, events[0]);
      EveryOutageIsRecovered(Step(s, events[0]), events[1..]);
    }
  }

  // ── Nothing starts on its own while draining ─────────────────────

  predicate IsQuiet(s: State) {
    s.drain != NotDraining ==> !s.heldTimer
  }

  predicate SameTimer(s: State, t: State) {
    t.heldTimer == s.heldTimer && t.drain == s.drain
  }

  lemma EarlyLeavesTimer(s: State, e: Event)
    requires Enabled(s, e) && IsEarly(e)
    ensures SameTimer(s, Step(s, e))
  {
    hide ItsTurn;
  }

  lemma LateLeavesTimer(s: State, e: Event)
    requires Enabled(s, e) && IsLive(e) && !IsEarly(e)
    ensures SameTimer(s, Step(s, e))
  {
    hide AfterAttempt, SettleRetried, Commit, AfterWriteOff, Conclude;
    if e.Concludes? {
      ConcludingLeavesTimer(s, e.m);
    } else if e.WritesOff? || e.AppendIsOver? {
      AfterWriteOffLeavesTimer(s, e.m);
      AfterWriteOffLeavesTimer(s.(unsaved := s.unsaved - {e.m}), e.m);
    }
  }

  lemma ConcludingLeavesTimer(s: State, m: Msg)
    requires m < |s.stage|
    ensures SameTimer(s, Conclude(s, m))
  {
  }

  lemma AfterWriteOffLeavesTimer(s: State, m: Msg)
    requires m < |s.stage|
    ensures SameTimer(s, AfterWriteOff(s, m))
  {
  }

  /** Another look is asked for while nothing is draining, and only then. */
  predicate TimerSoSet(s: State, t: State) {
    t.drain == s.drain && (s.drain != NotDraining ==> t.heldTimer == s.heldTimer)
  }

  lemma FileSetsTimer(s: State, ok: bool)
    requires FileOpReady(s)
    ensures TimerSoSet(s, FileStep(s, ok))
  {
    hide LinesThat, AccountsOf, LetGoOf, Elements;
  }

  lemma LinesSetTimer(s: State, e: Event)
    requires Enabled(s, e) && (e.Judges? || e.LineAnswered? || e.LineProbes? || e.LinesEnd?)
    ensures TimerSoSet(s, Step(s, e))
  {
    hide LinesThat, AccountsOf, LetGoOf, HeldBack, Gives, AfterAttempt, Commit;
  }

  lemma RestSetsTimer(s: State, e: Event)
    requires Enabled(s, e) && !IsLive(e) && !e.FileWorks? && !(e.Judges? || e.LineAnswered? || e.LineProbes? || e.LinesEnd?)
    requires IsQuiet(s)
    ensures IsQuiet(Step(s, e)) && (!e.Crashes? && s.drain != NotDraining ==> Step(s, e).drain != NotDraining)
  {
    hide AccountsOf, ForgottenBy, Restarted;
  }

  lemma StepIsQuiet(s: State, e: Event)
    requires Enabled(s, e) && IsQuiet(s)
    ensures IsQuiet(Step(s, e)) && (!e.Crashes? && s.drain != NotDraining ==> Step(s, e).drain != NotDraining)
  {
    if e.FileWorks? {
      hide FileStep;
      FileSetsTimer(s, e.ok);
    } else {
      hide Step, Enabled;
      if IsEarly(e) {
        EarlyLeavesTimer(s, e);
      } else if IsLive(e) {
        LateLeavesTimer(s, e);
      } else if e.Judges? || e.LineAnswered? || e.LineProbes? || e.LinesEnd? {
        LinesSetTimer(s, e);
      } else {
        RestSetsTimer(s, e);
      }
    }
  }

  /** Once `drain` has begun no timer goes off, over any run short of a death: every pass from then on was asked for before, or by a recovery. */
  lemma {:induction false} DrainingStartsNothing(s: State, events: seq<Event>)
    requires IsQuiet(s) && s.drain != NotDraining && IsRun(s, events) && forall i :: 0 <= i < |events| ==> !events[i].Crashes?
    ensures forall i :: 0 <= i < |events| ==> !events[i].HeldTimerGoesOff?
    decreases |events|
  {
    if events != [] {
      assert !events[0].HeldTimerGoesOff?;
      hide Step, Enabled;
      StepIsQuiet(s, events[0]);
      DrainingStartsNothing(Step(s, events[0]), events[1..]);
      assert forall i :: 0 < i < |events| ==> events[i] == events[1..][i - 1];
    }
  }

  lemma {:induction false} RunIsQuiet(s: State, events: seq<Event>)
    requires IsQuiet(s) && IsRun(s, events)
    ensures IsQuiet(After(s, events))
    decreases |events|
  {
    hide Step, Enabled, IsQuiet;
    if events != [] {
      StepIsQuiet(s, events[0]);
      RunIsQuiet(Step(s, events[0]), events[1..]);
    }
  }

  /** From `drain` on, in every run, whatever timer was set. */
  lemma DrainCancelsTheTimer(retries: nat, before: seq<Event>, events: seq<Event>)
    requires IsRun(Init(retries), before) && Enabled(After(Init(retries), before), DrainBegins)
    requires IsRun(Step(After(Init(retries), before), DrainBegins), events)
    requires forall i :: 0 <= i < |events| ==> !events[i].Crashes?
    ensures forall i :: 0 <= i < |events| ==> !events[i].HeldTimerGoesOff?
  {
    var s := After(Init(retries), before);
    RunIsQuiet(Init(retries), before);
    StepIsQuiet(s, DrainBegins);
    DrainingStartsNothing(Step(s, DrainBegins), events);
  }

  // ── When messages are accepted ───────────────────────────────────

  /** The start of the latest process is over. */
  function HasStarted(started: bool, events: seq<Event>): bool
    decreases |events|
  {
    if events == [] then started
    else HasStarted(!events[0].Crashes? && (started || events[0].StartContinues?), events[1..])
  }

  lemma {:induction false} RunStarts(s: State, events: seq<Event>)
    requires IsRun(s, events)
    ensures After(s, events).starting <==> !HasStarted(!s.starting, events)
    decreases |events|
  {
    hide Step, Enabled;
    if events != [] {
      RetriesAreFixed(s, events[0]);
      RunStarts(Step(s, events[0]), events[1..]);
    }
  }

  /** Over every run, a message may arrive if and only if the first pass of the latest process is over and its start went on. */
  lemma AcceptedOnceStarted(retries: nat, events: seq<Event>, envelope: Envelope)
    requires IsRun(Init(retries), events) && envelope.id == |After(Init(retries), events).arrivals|
    ensures Enabled(After(Init(retries), events), Handles(envelope)) <==> HasStarted(false, events)
  {
    RunStarts(Init(retries), events);
  }
}

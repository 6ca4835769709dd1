/** What each step does to the history of the order: which accounts it puts in disorder, and from where on order counts. */
module PastSteps {
  import opened MessageStore
  import opened MessageLedger
  import opened StoreGuard
  import opened InboundProtocol
  import opened ProtocolInvariants
  import opened WorldSteps

  predicate MayCostTheOrder(e: Event) {
    e.FileWorks? || e.LinesEnd? || e.RecoverContinues? || e.ResumeIsOver? || e.Retains? || e.Crashes?
  }

  predicate IsEarly(e: Event) {
    e.Handles? || e.Starts? || e.EnrichEnds? || e.ResolveEnds? || e.Wakes?
  }

  predicate IsOfTheLines(e: Event) {
    e.PassBegins? || e.Judges? || e.LineAnswered? || e.LineProbes? || e.PersistContinues? || e.StartContinues?
  }

  /** All it may change is which numbers the pass gave. */
  predicate SameOrder(s: State, t: State) {
    t.past == s.past.(given := t.past.given) && t.runStart == s.runStart
  }

  lemma EarlyStepsKeepTheOrder(s: State, e: Event)
    requires Enabled(s, e) && IsEarly(e)
    ensures SameOrder(s, Step(s, e))
  {
  }

  lemma LateStepsKeepTheOrder(s: State, e: Event)
    requires Enabled(s, e) && IsLive(e) && !IsEarly(e)
    ensures SameOrder(s, Step(s, e))
  {
    hide SettleRetried, Commit, AfterAttempt;
  }

  lemma LineStepsKeepTheOrder(s: State, e: Event)
    requires Enabled(s, e) && IsOfTheLines(e)
    ensures SameOrder(s, Step(s, e))
  {
    hide Judge, LineAnswer, LineProbed, BeginPass, PersistGoesOn, StartGoesOn, SameOrder;
    match e
    case PassBegins => BeginningKeepsTheOrder(s);
    case Judges(verdict) => JudgingKeepsTheOrder(s, verdict);
    case LineAnswered(outcome) => AnsweringKeepsTheOrder(s, outcome);
    case LineProbes(written) => ProbingKeepsTheOrder(s, written);
    case PersistContinues(i) => GoingOnKeepsTheOrder(s, i);
    case StartContinues(i) => GoingOnKeepsTheOrder(s, i);
  }

  lemma BeginningKeepsTheOrder(s: State)
    requires s.passes != []
    ensures SameOrder(s, BeginPass(s))
  {
  }

  lemma GoingOnKeepsTheOrder(s: State, i: nat)
    requires i < |s.ended|
    ensures SameOrder(s, StartGoesOn(s, i))
    ensures s.ended[i].caller.Persist? && s.ended[i].caller.m < |s.stage| ==> SameOrder(s, PersistGoesOn(s, i))
  {
  }

  lemma ProbingKeepsTheOrder(s: State, written: bool)
    requires RunningLine(s)
    ensures SameOrder(s, LineProbed(s, written))
  {
  }

  lemma JudgingKeepsTheOrder(s: State, verdict: Verdict)
    requires RunningLine(s)
    ensures SameOrder(s, Judge(s, verdict))
  {
    hide HeldBack;
  }

  lemma AnsweringKeepsTheOrder(s: State, outcome: StoreOutcome)
    requires RunningLine(s)
    ensures SameOrder(s, LineAnswer(s, outcome))
  {
    hide Gives, Commit, AfterAttempt;
  }

  lemma OtherStepsKeepTheOrder(s: State, e: Event)
    requires Enabled(s, e) && !IsLive(e) && !IsOfTheLines(e) && !MayCostTheOrder(e)
    ensures SameOrder(s, Step(s, e))
  {
  }

  lemma TheRestKeepTheOrder(s: State, e: Event)
    requires Enabled(s, e)
    ensures MayCostTheOrder(e) || SameOrder(s, Step(s, e))
  {
    hide Enabled, Step, SameOrder;
    if IsEarly(e) {
      EarlyStepsKeepTheOrder(s, e);
    } else if IsLive(e) {
      LateStepsKeepTheOrder(s, e);
    } else if IsOfTheLines(e) {
      LineStepsKeepTheOrder(s, e);
    } else if !MayCostTheOrder(e) {
      OtherStepsKeepTheOrder(s, e);
    }
  }

  // ── What costs an account its order ──────────────────────────────

  /** The file fails a pass. */
  predicate CutsShort(s: State, e: Event) {
    e == FileWorks(false) && s.fileTurn != [] && !IsAppend(s.fileTurn[0])
  }

  /** A pass has written down what it kept, or kept everything. */
  predicate IsThrough(s: State, e: Event) {
    Processing(s.passes) &&
    ((e == FileWorks(true) && s.fileTurn != [] && s.fileTurn[0].Keep?) ||
     (e == LinesEnd && Rejected !in s.passes[0].work.outcomes && Left !in s.passes[0].work.outcomes))
  }

  /** A pass ends with the circuit closed, and kept an entry of the account, or could tell nothing of the file. */
  predicate LeavesBehind(s: State, e: Event, account: Account) {
    s.guard.phase == Closed &&
    ((CutsShort(s, e) && account in AccountsOf(s.arrivals, s.file)) ||
     (IsThrough(s, e) && |s.passes[0].work.outcomes| <= |s.passes[0].work.lines| &&
      account in AccountsOf(s.arrivals, LinesThat(s.passes[0].work.lines, s.passes[0].work.outcomes, Kept))))
  }

  /** A recovery closes the circuit, and its last pass kept an entry of the account, or could tell nothing of the file. */
  predicate ClosedOver(s: State, e: Event, account: Account) {
    e.RecoverContinues? && e.i < |s.ended| && s.ended[e.i].caller.Recover? && IsRecovering(s.guard) &&
    (s.ended[e.i].failed || s.writeOffs == s.ended[e.i].caller.startedAt) &&
    account in AccountsOf(s.arrivals, if s.ended[e.i].failed then s.file else s.ended[e.i].kept)
  }

  /** A resuming of media fails and closes the circuit, with a later recovery in progress and an entry of the account in the file. */
  predicate ClosedMidway(s: State, e: Event, account: Account) {
    e == ResumeIsOver(true) && IsRecovering(s.guard) && account in AccountsOf(s.arrivals, s.file)
  }

  /** The file fails a pass after it let go of an entry without a row, with something later numbered. */
  ghost predicate ComesBack(s: State, e: Event, account: Account) {
    CutsShort(s, e) && account in LetGoOf(s)
  }

  /** Retention removes the row of a message of the account that may still be stored. */
  predicate LosesItsRow(s: State, e: Event, account: Account) {
    e.Retains? && exists m :: m in ForgottenBy(s, e.keys) && m < |s.arrivals| && s.arrivals[m].account == account
  }

  ghost predicate Disorders(s: State, e: Event, account: Account) {
    LeavesBehind(s, e, account) || ClosedOver(s, e, account) || ClosedMidway(s, e, account) ||
    ComesBack(s, e, account) || LosesItsRow(s, e, account)
  }

  lemma FileCostsTheOrder(s: State, e: Event, account: Account)
    requires Enabled(s, e) && e.FileWorks? && account !in s.past.dirty
    ensures account in Step(s, e).past.dirty <==> Disorders(s, e, account)
  {
    hide LinesThat, AccountsOf, LetGo, Elements, ClosedOver, ClosedMidway, LosesItsRow;
    NotOfTheFile(s, e, account);
  }

  lemma NotOfTheFile(s: State, e: Event, account: Account)
    requires e.FileWorks? || e.LinesEnd?
    ensures !ClosedOver(s, e, account) && !ClosedMidway(s, e, account) && !LosesItsRow(s, e, account)
  {
  }

  lemma LinesCostTheOrder(s: State, e: Event, account: Account)
    requires Enabled(s, e) && e.LinesEnd? && account !in s.past.dirty
    ensures account in Step(s, e).past.dirty <==> Disorders(s, e, account)
  {
    hide LinesThat, AccountsOf, LetGo, LetGoOf, ClosedOver, ClosedMidway, LosesItsRow;
    NotOfTheFile(s, e, account);
  }

  lemma ClosingCostsTheOrder(s: State, e: Event, account: Account)
    requires Enabled(s, e) && e.RecoverContinues? && account !in s.past.dirty
    ensures account in Step(s, e).past.dirty <==> Disorders(s, e, account)
  {
    hide AccountsOf, LetGoOf, IsThrough, CutsShort, RecoverGoesOn;
    LoopCostsTheOrder(s, e.i, e.stored);
    NotOfTheLoop(s, e, account);
  }

  lemma LoopCostsTheOrder(s: State, i: nat, stored: bool)
    requires i < |s.ended| && s.ended[i].caller.Recover?
    ensures RecoverGoesOn(s, i, stored).past.dirty ==
            s.past.dirty + (if IsRecovering(s.guard) && !PassesAgain(s, i)
                            then AccountsOf(s.arrivals, if s.ended[i].failed then s.file else s.ended[i].kept) else {})
  {
    hide AccountsOf;
  }

  lemma NotOfTheLoop(s: State, e: Event, account: Account)
    requires e.RecoverContinues? || e.ResumeIsOver?
    ensures !LeavesBehind(s, e, account) && !ComesBack(s, e, account) && !LosesItsRow(s, e, account)
  {
  }

  lemma MidwayCostsTheOrder(s: State, e: Event, account: Account)
    requires Enabled(s, e) && e.ResumeIsOver? && account !in s.past.dirty
    ensures account in Step(s, e).past.dirty <==> Disorders(s, e, account)
  {
    hide AccountsOf, LetGoOf, LeavesBehind, ComesBack, LosesItsRow;
    NotOfTheLoop(s, e, account);
  }

  lemma RetentionCostsTheOrder(s: State, e: Event, account: Account)
    requires Enabled(s, e) && e.Retains? && account !in s.past.dirty
    ensures account in Step(s, e).past.dirty <==> Disorders(s, e, account)
  {
    hide ForgottenBy, AccountsOf, LetGoOf;
  }

  lemma NothingElseCostsTheOrder(s: State, e: Event, account: Account)
    requires !MayCostTheOrder(e)
    ensures !Disorders(s, e, account)
  {
  }

  /** Exactly these put an account in disorder. */
  lemma DisorderStarts(s: State, e: Event, account: Account)
    requires Enabled(s, e) && !e.Crashes? && account !in s.past.dirty
    ensures account in Step(s, e).past.dirty <==> Disorders(s, e, account)
  {
    hide Disorders, Step;
    if !MayCostTheOrder(e) {
      TheRestKeepTheOrder(s, e);
      NothingElseCostsTheOrder(s, e, account);
    } else {
      match e
      case FileWorks(_) => FileCostsTheOrder(s, e, account);
      case LinesEnd => LinesCostTheOrder(s, e, account);
      case RecoverContinues(_, _) => ClosingCostsTheOrder(s, e, account);
      case ResumeIsOver(_) => MidwayCostsTheOrder(s, e, account);
      case Retains(_) => RetentionCostsTheOrder(s, e, account);
    }
  }

  predicate SameSince(s: State, t: State) {
    t.past.since == s.past.since && t.runStart == s.runStart
  }

  lemma FileKeepsSince(s: State, e: Event)
    requires Enabled(s, e) && e.FileWorks?
    ensures SameSince(s, Step(s, e))
  {
    hide LinesThat, AccountsOf, LetGo, LetGoOf, Elements;
  }

  lemma EndsKeepSince(s: State, e: Event)
    requires Enabled(s, e) && (e.LinesEnd? || e.RecoverContinues? || e.ResumeIsOver?)
    ensures SameSince(s, Step(s, e))
  {
    hide LinesThat, AccountsOf, LetGo, LetGoOf;
  }

  /** Only a death changes from where on order counts. */
  lemma StepsKeepSince(s: State, e: Event)
    requires Enabled(s, e) && !e.Crashes?
    ensures SameSince(s, Step(s, e))
  {
    hide Step, SameSince, SameOrder;
    if e.FileWorks? {
      FileKeepsSince(s, e);
    } else if e.LinesEnd? || e.RecoverContinues? || e.ResumeIsOver? {
      EndsKeepSince(s, e);
    } else {
      TheRestKeepTheOrder(s, e);
      RetainsKeepsSince(s, e);
    }
  }

  lemma RetainsKeepsSince(s: State, e: Event)
    requires Enabled(s, e) && (e.Retains? || SameOrder(s, Step(s, e)))
    ensures SameSince(s, Step(s, e))
  {
    hide ForgottenBy;
    if !e.Retains? { hide Step; }
  }

  /** A process starts with no account in disorder, and order counts from its start where the one before spoilt it. */
  lemma CrashStartsOver(s: State, account: Account)
    ensures Crash(s).past.dirty == {}
    ensures account in Spoilt(s) ==> SinceOf(Crash(s).past.since, account) == |s.arrivals|
    ensures account !in Spoilt(s) ==> SinceOf(Crash(s).past.since, account) == SinceOf(s.past.since, account)
  {
  }
}

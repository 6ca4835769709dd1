/** The order of numbers: what every run guarantees of it, and exactly what it costs. */
module OrderTheorems {
  import opened MessageStore
  import opened MessageLedger
  import opened StoreGuard
  import opened InboundProtocol
  import opened ProtocolInvariants
  import opened EndSteps
  import opened WorldSteps
  import opened PastSteps
  import opened ProtocolTheorems
  import opened AttemptTheorems

  // ── From where on order counts ───────────────────────────────────

  /** What an earlier process left in disorder came before this one started. */
  ghost predicate SinceIsPast(s: State) {
    forall a: Account :: SinceOf(s.past.since, a) <= s.runStart
  }

  lemma StepsKeepPast(s: State, e: Event)
    requires Inv(s) && Enabled(s, e) && SinceIsPast(s)
    ensures SinceIsPast(Step(s, e))
  {
    if e.Crashes? {
      StartsInThePast(s);
    } else {
      hide Step, Inv;
      StepsKeepSince(s, e);
    }
  }

  lemma StartsInThePast(s: State)
    requires s.runStart <= |s.arrivals| && SinceIsPast(s)
    ensures SinceIsPast(Crash(s))
  {
    hide Spoilt;
    forall a ensures SinceOf(Crash(s).past.since, a) <= |s.arrivals| {
      CrashStartsOver(s, a);
    }
  }

  lemma {:induction false} RunsKeepPast(s: State, events: seq<Event>)
    requires Inv(s) && SinceIsPast(s) && IsRun(s, events)
    ensures SinceIsPast(After(s, events))
    decreases |events|
  {
    hide Inv, SinceIsPast, Step, Enabled;
    if events != [] {
      StepKeeps(s, events[0]);
      StepsKeepPast(s, events[0]);
      RunsKeepPast(Step(s, events[0]), events[1..]);
    }
  }

  lemma ReachableIsPast(s: State)
    requires Reachable(s)
    ensures SinceIsPast(s)
  {
    hide Inv;
    var retries, events :| IsRun(Init(retries), events) && After(Init(retries), events) == s;
    InitHolds(retries);
    RunsKeepPast(Init(retries), events);
  }

  // ── Numbers follow arrival ───────────────────────────────────────

  /**
   * Whatever earlier processes did, and however they ended, an earlier message has the smaller number: over any
   * outages, lost answers, crashes and recoveries, for all that comes after this process started, and for all that came
   * before it but since the order was last spoilt. The present process must not have begun to stop, and must not have
   * put the account in disorder.
   */
  lemma NumbersFollowArrival(s: State, m: Msg, later: Msg, number: nat, laterNumber: nat)
    requires Reachable(s) && !s.guard.stopped
    requires SameAccount(s.arrivals, m, later) && s.arrivals[m].account !in s.past.dirty && m < later
    requires s.runStart <= later || SinceOf(s.past.since, s.arrivals[m].account) <= later
    requires Numbered(s.arrivals, s.ledger.handed, m, number) && Numbered(s.arrivals, s.ledger.handed, later, laterNumber)
    ensures number < laterNumber
  {
    hide Inv, SinceOf;
    ReachableHolds(s);
    ReachableIsPast(s);
    LogIsInOrder(s);
    assert SinceOf(s.past.since, s.arrivals[m].account) <= s.runStart;
    NumbersInOrder(s, m, later, number, laterNumber);
  }

  lemma LogIsInOrder(s: State)
    requires Inv(s) && !s.guard.stopped
    ensures LogInOrder(s.ledger.handed, s.past)
  {
  }

  lemma NumbersInOrder(s: State, m: Msg, later: Msg, number: nat, laterNumber: nat)
    requires LogInOrder(s.ledger.handed, s.past)
    requires SameAccount(s.arrivals, m, later) && s.arrivals[m].account !in s.past.dirty && m < later
    requires SinceOf(s.past.since, s.arrivals[m].account) <= later
    requires Numbered(s.arrivals, s.ledger.handed, m, number) && Numbered(s.arrivals, s.ledger.handed, later, laterNumber)
    ensures number < laterNumber
  {
    assert InOrder(HandedTo(s.ledger.handed, s.arrivals[m].account), SinceOf(s.past.since, s.arrivals[m].account));
  }

  /** And nothing that is still to be stored came before what has been stored, as far as order counts. */
  lemma NothingOvertakes(s: State, m: Msg, stored: Msg)
    requires Reachable(s) && !s.guard.stopped
    requires SameAccount(s.arrivals, m, stored) && s.arrivals[m].account !in s.past.dirty
    requires s.runStart <= stored || SinceOf(s.past.since, s.arrivals[m].account) <= stored
    requires InLog(s.arrivals, s.ledger.handed, stored) && !HasRow(s.ledger.store.rows, m)
    requires m in s.unsaved || (m in s.file && !Processing(s.passes))
    ensures stored < m
  {
    ReachableHolds(s);
    ReachableIsPast(s);
    StillToBeStored(s, m);
    NotOvertaken(s, m, stored);
  }

  lemma StillToBeStored(s: State, m: Msg)
    requires Inv(s) && (m in s.unsaved || (m in s.file && !Processing(s.passes)))
    ensures Candidate(s.stage, s.file, OutcomesOf(s.passes), m)
  {
    if m in s.unsaved {
      assert s.stage[m] != Done;
    } else {
      var i :| 0 <= i < |s.file| && s.file[i] == m;
      assert !Leaving(OutcomesOf(s.passes), i);
    }
  }

  lemma NotOvertaken(s: State, m: Msg, stored: Msg)
    requires Inv(s) && !s.guard.stopped && SinceIsPast(s)
    requires SameAccount(s.arrivals, m, stored) && s.arrivals[m].account !in s.past.dirty
    requires s.runStart <= stored || SinceOf(s.past.since, s.arrivals[m].account) <= stored
    requires InLog(s.arrivals, s.ledger.handed, stored) && !HasRow(s.ledger.store.rows, m)
    requires Candidate(s.stage, s.file, OutcomesOf(s.passes), m)
    ensures stored < m
  {
    hide QueueInv, PassInv, LogInv, SafetyInv, EmissionInv, SinceOf, Candidate, HasRow;
    assert SinceOf(s.past.since, s.arrivals[m].account) <= s.runStart;
  }

  // ── What costs an account its order ──────────────────────────────

  /**
   * Exactly these put an account in disorder; the next process starts with none. Of what this process spoilt, the order
   * counts from that start on, and of nothing else does it change where order counts from.
   */
  lemma TheseCostTheOrder(s: State, e: Event, account: Account)
    requires Enabled(s, e)
    ensures !e.Crashes? && account !in s.past.dirty ==>
              (account in Step(s, e).past.dirty <==>
               LeavesBehind(s, e, account) || ClosedOver(s, e, account) || ClosedMidway(s, e, account) ||
               ComesBack(s, e, account) || LosesItsRow(s, e, account))
    ensures !e.Crashes? ==> Step(s, e).past.since == s.past.since
    ensures e.Crashes? ==>
              && Step(s, e).past.dirty == {}
              && SinceOf(Step(s, e).past.since, account) ==
                 if account in Spoilt(s) then |s.arrivals| else SinceOf(s.past.since, account)
  {
    hide LeavesBehind, ClosedOver, ClosedMidway, ComesBack, LosesItsRow, Spoilt;
    if e.Crashes? {
      CrashStartsOver(s, account);
    } else {
      hide Step;
      StepsKeepSince(s, e);
      if account !in s.past.dirty { DisorderStarts(s, e, account); }
    }
  }

  /** Nothing of the account that may still get a number came before anything of it that has one, as far as order counts. */
  ghost predicate NothingOfItIsPassed(s: State, since: nat, account: Account) {
    forall m, k | 0 <= m < |s.arrivals| && s.arrivals[m].account == account &&
                  Candidate(s.stage, s.file, OutcomesOf(s.passes), m) && !HasRow(s.ledger.store.rows, m) &&
                  k in HandedTo(s.ledger.handed, account) && since <= k ::
      k < m
  }

  /** A death makes what is yet to be numbered fall behind what has a number exactly for the accounts let go of. */
  lemma DyingCostsExactly(s: State, account: Account)
    requires Reachable(s) && !s.guard.stopped && account !in s.past.dirty
    ensures NothingOfItIsPassed(s, SinceOf(s.past.since, account), account)
    ensures NothingOfItIsPassed(Crash(s), SinceOf(s.past.since, account), account) <==> account !in LetGoOf(s)
  {
    hide Inv, Reachable, NothingOfItIsPassed, LetGoOf, Candidate;
    ReachableHolds(s);
    NotPassedYet(s, account);
    OrderParts(s);
    if account in LetGoOf(s) {
      IsPassedThen(s, Crash(s), account);
    } else {
      IsNotPassedThen(s, Crash(s), account);
    }
  }

  /** And so does a failure of the file that ends a pass. */
  lemma FailingCostsExactly(s: State, account: Account)
    requires Reachable(s) && !s.guard.stopped && account !in s.past.dirty
    requires FileOpReady(s) && !IsAppend(s.fileTurn[0]) && s.passes != []
    ensures NothingOfItIsPassed(s, SinceOf(s.past.since, account), account)
    ensures NothingOfItIsPassed(FileStep(s, false), SinceOf(s.past.since, account), account) <==> account !in LetGoOf(s)
  {
    hide Inv, Reachable, NothingOfItIsPassed, LetGoOf, Candidate;
    ReachableHolds(s);
    NotPassedYet(s, account);
    OrderParts(s);
    Failing(s);
    if account in LetGoOf(s) {
      IsPassedThen(s, FileStep(s, false), account);
    } else {
      IsNotPassedThen(s, FileStep(s, false), account);
    }
  }

  /** The pass in progress is over, and nothing else is. */
  ghost predicate PassIsGone(s: State, t: State) {
    && t.arrivals == s.arrivals && t.file == s.file && t.ledger == s.ledger && OutcomesOf(t.passes) == []
    && |t.stage| == |s.stage| && forall m :: 0 <= m < |s.stage| && t.stage[m] != Done ==> s.stage[m] != Done
  }

  lemma Failing(s: State)
    requires Inv(s) && FileOpReady(s) && !IsAppend(s.fileTurn[0]) && s.passes != []
    ensures PassIsGone(s, FileStep(s, false))
  {
    hide LinesThat, AccountsOf, LetGo, LogInv, SafetyInv, EmissionInv, OrderInv, QueueInv;
    assert s.passes[1..] != [] ==> s.passes[1..][0] == s.passes[1];
  }

  lemma OrderParts(s: State)
    requires Inv(s)
    ensures PassShape(s.arrivals, s.file, s.passes) && |s.stage| == |s.arrivals|
    ensures forall m :: m in s.file ==> m < |s.arrivals|
  {
  }

  lemma NotPassedYet(s: State, account: Account)
    requires Inv(s) && !s.guard.stopped && account !in s.past.dirty
    ensures NothingOfItIsPassed(s, SinceOf(s.past.since, account), account)
  {
    hide QueueInv, PassInv, LogInv, SafetyInv, EmissionInv, Candidate, HasRow, SinceOf;
  }

  /** What was let go of is read again: it stands in the file, has no row, and has been passed. */
  lemma IsPassedThen(s: State, t: State, account: Account)
    requires PassShape(s.arrivals, s.file, s.passes) && PassIsGone(s, t) && account in LetGoOf(s)
    ensures !NothingOfItIsPassed(t, SinceOf(s.past.since, account), account)
  {
    var w := s.passes[0].work;
    var i :| 0 <= i < |w.outcomes| && i < |w.lines| && w.outcomes[i] != Kept && w.lines[i] < |s.arrivals| &&
             !HasRow(s.ledger.store.rows, w.lines[i]) && s.arrivals[w.lines[i]].account == account &&
             IsPassed(HandedTo(s.ledger.handed, account), SinceOf(s.past.since, account), w.lines[i]);
    var m := w.lines[i];
    assert s.file[..|w.lines|][i] == s.file[i];
    assert !Leaving(OutcomesOf(t.passes), i);
    assert Candidate(t.stage, t.file, OutcomesOf(t.passes), m);
    var k :| k in HandedTo(s.ledger.handed, account) && SinceOf(s.past.since, account) <= k && m <= k;
  }

  lemma IsNotPassedThen(s: State, t: State, account: Account)
    requires PassShape(s.arrivals, s.file, s.passes) && PassIsGone(s, t) && account !in LetGoOf(s)
    requires |s.stage| == |s.arrivals|
    requires NothingOfItIsPassed(s, SinceOf(s.past.since, account), account)
    ensures NothingOfItIsPassed(t, SinceOf(s.past.since, account), account)
  {
    hide PassShape, LetGoOf, SinceOf, HasRow, HandedTo;
    forall m, k | 0 <= m < |s.arrivals| && s.arrivals[m].account == account && Candidate(t.stage, t.file, [], m) &&
                  !HasRow(s.ledger.store.rows, m) && k in HandedTo(s.ledger.handed, account) &&
                  SinceOf(s.past.since, account) <= k
      ensures k < m
    {
      assert Candidate(s.stage, s.file, [], m);
      ReadAgain(s, m);
    }
  }

  // ── A recovery that closes the circuit ───────────────────────────

  /**
   * The loop of a recovery closes the circuit when its last pass read every write-off counted so far: only what it kept is
   * left. Any other way of closing it, and there are two, puts every account the failed log has an entry of in disorder.
   */
  lemma ClosingSawEverything(s: State, e: Event)
    requires Reachable(s) && Enabled(s, e) && !e.Crashes?
    requires IsRecovering(s.guard) && TakingDirectly(Step(s, e).guard)
    ensures e.RecoverContinues? || e == ResumeIsOver(true)
    ensures e.RecoverContinues? && !s.ended[e.i].failed ==>
              NoAppends(s.fileTurn) && forall x :: x in s.file ==> x in s.ended[e.i].kept
    ensures !(e.RecoverContinues? && !s.ended[e.i].failed) ==>
              forall x :: x in s.file && x < |s.arrivals| ==> s.arrivals[x].account in Step(s, e).past.dirty
  {
    hide Step, Inv;
    ReachableHolds(s);
    TwoStepsClose(s, e);
    if e.RecoverContinues? {
      LoopCloses(s, e.i, e.stored);
    } else {
      ClosesMidway(s);
    }
  }

  lemma LoopCloses(s: State, i: nat, stored: bool)
    requires Inv(s) && i < |s.ended| && s.ended[i].caller.Recover?
    requires IsRecovering(s.guard) && TakingDirectly(Step(s, RecoverContinues(i, stored)).guard)
    ensures !s.ended[i].failed ==> NoAppends(s.fileTurn) && forall x :: x in s.file ==> x in s.ended[i].kept
    ensures s.ended[i].failed ==> FileIsDirty(s, Step(s, RecoverContinues(i, stored)))
  {
    hide QueueInv, PassInv, LogInv, SafetyInv, EmissionInv;
    if s.ended[i].failed { DirtyCovers(s.arrivals, s.file); }
  }

  lemma ClosesMidway(s: State)
    requires s.resuming > 0 && IsRecovering(s.guard)
    ensures FileIsDirty(s, Step(s, ResumeIsOver(true)))
  {
    DirtyCovers(s.arrivals, s.file);
  }

  ghost predicate FileIsDirty(s: State, t: State) {
    forall x :: x in s.file && x < |s.arrivals| ==> s.arrivals[x].account in t.past.dirty
  }

  /** Nothing else closes a circuit that is recovering. */
  lemma TwoStepsClose(s: State, e: Event)
    requires Inv(s) && Enabled(s, e) && !e.Crashes? && IsRecovering(s.guard) && TakingDirectly(Step(s, e).guard)
    ensures e.RecoverContinues? || e == ResumeIsOver(true)
  {
    assert Probing(s.guard) by { ProbingHolds(s); }
    hide Step, Enabled, Inv;
    CircuitFollowsTheGuard(s, e);
    OnlyFinishingCloses(s, e);
  }

  lemma OnlyFinishingCloses(s: State, e: Event)
    requires Enabled(s, e) && !e.Crashes? && IsRecovering(s.guard) && Probing(s.guard)
    requires TakingDirectly(GuardAfter(s.guard, GuardEventsOf(s, e)))
    ensures e.RecoverContinues? || e == ResumeIsOver(true)
  {
    hide PassesAgain;
    var events := GuardEventsOf(s, e);
    if events != [] {
      OneGuardEvent(s.guard, events[0]);
      assert events == [events[0]];
    }
  }

  /**
   * With the circuit closed, an entry of an account in order is the message its queue is waiting for: what was
   * refused before the circuit closed and written after is dealt with before the next of its account.
   */
  lemma ClosedMeansCaughtUp(s: State, e: Msg)
    requires Reachable(s) && !s.guard.stopped && TakingDirectly(s.guard) && !s.starting
    requires e in s.file && e < |s.arrivals| && s.arrivals[e].account !in s.past.dirty
    ensures |s.stage| == |s.arrivals| && (s.stage[e] == Appended || s.stage[e] == Replaying)
    ensures forall other: Msg :: SameAccount(s.arrivals, e, other) && other > e ==> s.stage[other] == Queued
  {
    ReachableHolds(s);
  }
}

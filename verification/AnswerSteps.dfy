/** An attempt is answered, fails, or is refused and written off. */
module AnswerSteps {
  import opened MessageStore
  import opened MessageLedger
  import opened StoreGuard
  import opened InboundProtocol
  import opened ProtocolInvariants
  import opened StageLemmas
  import opened Frames
  import opened CommitLemmas
  import opened LiveSteps

  /** What `insertInbound` and the settling of a retry make of a message. */
  ghost function StageAfter(s: State, m: Msg, outcome: StoreOutcome): Stage
    requires m < |s.stage| && m < |s.arrivals| && s.stage[m].Attempting?
  {
    var attempt := s.stage[m].attempt;
    match outcome
    case CommitAnswered(now) => Answered(SettleRetried(m, attempt, Commit(s.ledger, s.arrivals[m], now).1))
    case CommitUnanswered(_) => Failed(attempt, false)
    case NoCommit(permanent) => Failed(attempt, permanent)
  }

  lemma AnswerIsSo(s: State, m: Msg, outcome: StoreOutcome)
    requires QueueInv(s) && LogInv(s) && m < |s.stage| && s.stage[m].Attempting?
    ensures var l' := AfterAttempt(s.ledger, s.arrivals[m], outcome);
      && Valid(l')
      && (l' == s.ledger ||
          (Grows(s.arrivals, s.ledger.handed, l'.handed, m) && RowsGrow(s.ledger.store.rows, l'.store.rows, m)))
      && AnswerIsTrue(s.arrivals, l'.handed, m, StageAfter(s, m, outcome))
  {
    if !outcome.NoCommit? {
      CommitGrows(s.arrivals, s.ledger, m, outcome.now);
      if s.stage[m].attempt == 0 {
        assert !InLog(s.arrivals, s.ledger.handed, m);
        assert forall n :: !Numbered(s.arrivals, s.ledger.handed, m, n);
      }
    }
  }

  lemma GrowLog(s: State, m: Msg, l': Ledger, to: Stage)
    requires LogInv(s) && Valid(l') && m < |s.stage| && s.stage[m] != Done && !Untried(to) && !Late(s.stage[m])
    requires Grows(s.arrivals, s.ledger.handed, l'.handed, m) && RowsGrow(s.ledger.store.rows, l'.store.rows, m)
    ensures LogInv(WithStage(s.(ledger := l'), m, to))
  {
    MoveLog(s, m, to);
    var t := WithStage(s, m, to);
    HistoriesGrow(s.arrivals, s.ledger.handed, l'.handed, m, s.past.forgotten);
    LoggedGrow(s.arrivals, t.stage, s.ledger.handed, l'.handed, m);
    RowsStayGrown(s.arrivals, t.stage, s.file, s.left, s.ledger, l', m, s.past.forgotten);
  }

  lemma GrowSafety(s: State, m: Msg, l': Ledger)
    requires SafetyInv(s) && Grows(s.arrivals, s.ledger.handed, l'.handed, m)
    ensures SafetyInv(s.(ledger := l'))
  {
    SafetyGrows(s.arrivals, s.stage, s.unsaved, s.left, s.ledger.handed, l'.handed, s.file, s.fates, s.passes, m);
  }

  lemma GrowEmission(s: State, m: Msg, l': Ledger)
    requires EmissionInv(s) && Grows(s.arrivals, s.ledger.handed, l'.handed, m)
    ensures EmissionInv(s.(ledger := l'))
  {
    EmissionGrows(s.arrivals, s.stage, s.ledger.handed, l'.handed, s.emitted, m);
  }

  lemma GrowOrder(s: State, m: Msg, l': Ledger)
    requires OrderInv(s) && Grows(s.arrivals, s.ledger.handed, l'.handed, m) && RowsGrow(s.ledger.store.rows, l'.store.rows, m)
    requires Candidate(s.stage, s.file, OutcomesOf(s.passes), m)
    requires s.arrivals[m].account !in s.past.dirty ==>
               forall u: Msg | u < |s.arrivals| && SameAccount(s.arrivals, u, m) && u != m &&
                               Candidate(s.stage, s.file, OutcomesOf(s.passes), u) &&
                               SinceOf(s.past.since, s.arrivals[m].account) <= m :: m < u
    ensures OrderInv(s.(ledger := l'))
  {
    OrderGrows(s.arrivals, s.stage, s.file, OutcomesOf(s.passes), s.ledger, l', s.past, m);
  }

  /** A message in the attempt loop is the first of its account that may still get a number. */
  lemma LiveIsFirst(s: State, m: Msg, u: Msg)
    requires Fifo(s.arrivals, s.stage) && LoopIsAlone(s.arrivals, s.stage, s.file, s.past.dirty)
    requires m < |s.stage| && InLoop(s.stage[m]) && s.arrivals[m].account !in s.past.dirty
    requires SameAccount(s.arrivals, u, m) && u != m && Candidate(s.stage, s.file, OutcomesOf(s.passes), u)
    ensures m < u
  {
  }

  lemma AnswerOrder(s: State, m: Msg, l': Ledger, to: Stage)
    requires OrderInv(s) && QueueInv(s) && m < |s.stage| && InLoop(s.stage[m])
    requires Grows(s.arrivals, s.ledger.handed, l'.handed, m) && RowsGrow(s.ledger.store.rows, l'.store.rows, m)
    ensures OrderInv(WithStage(s.(ledger := l'), m, to))
  {
    if s.arrivals[m].account !in s.past.dirty {
      forall u: Msg | u < |s.arrivals| && SameAccount(s.arrivals, u, m) && u != m && Candidate(s.stage, s.file, OutcomesOf(s.passes), u)
        ensures m < u
      {
        LiveIsFirst(s, m, u);
      }
    }
    GrowOrder(s, m, l');
    MoveOrder(s.(ledger := l'), m, to);
  }

  lemma StoredKeeps(s: State, m: Msg, l': Ledger, to: Stage)
    requires Inv(s) && m < |s.stage| && s.stage[m].Attempting? && (to.Answered? || to.Failed?)
    requires m < |s.arrivals| && MayMove(s.arrivals, s.stage, m, to)
    requires Grows(s.arrivals, s.ledger.handed, l'.handed, m) && RowsGrow(s.ledger.store.rows, l'.store.rows, m) && Valid(l')
    requires AnswerIsTrue(s.arrivals, l'.handed, m, to) && AttemptBounded(to, s.retries)
    ensures Inv(WithStage(s.(ledger := l'), m, to))
  {
    hide QueueInv, PassInv, LogInv, SafetyInv, EmissionInv, OrderInv, Grows, RowsGrow, Valid, AnswerIsTrue;
    var t := s.(ledger := l');
    QueueFrame(s, t);
    MoveQueue(t, m, to);
    PassFrame(s, t);
    MovePass(t, m, to);
    GrowLog(s, m, l', to);
    GrowSafety(s, m, l');
    MoveSafety(t, m, to);
    GrowEmission(s, m, l');
    MoveEmission(t, m, to);
    if !s.guard.stopped { AnswerOrder(s, m, l', to); }
  }

  lemma AnswerFacts(s: State, m: Msg, outcome: StoreOutcome)
    requires Inv(s) && m < |s.stage| && s.stage[m].Attempting?
    ensures m < |s.arrivals| && MayMove(s.arrivals, s.stage, m, StageAfter(s, m, outcome))
    ensures AttemptBounded(StageAfter(s, m, outcome), s.retries)
    ensures var l' := AfterAttempt(s.ledger, s.arrivals[m], outcome);
      && Valid(l')
      && (l' == s.ledger ||
          (Grows(s.arrivals, s.ledger.handed, l'.handed, m) && RowsGrow(s.ledger.store.rows, l'.store.rows, m)))
      && AnswerIsTrue(s.arrivals, l'.handed, m, StageAfter(s, m, outcome))
  {
    AnswerIsSo(s, m, outcome);
  }

  lemma AnswerKeeps(s: State, m: Msg, outcome: StoreOutcome)
    requires Inv(s) && m < |s.stage| && m < |s.arrivals| && s.stage[m].Attempting?
    ensures Inv(Answer(s, m, outcome))
  {
    hide Inv, AfterAttempt, AnswerIsTrue, Grows, RowsGrow, Valid;
    var l', to := AfterAttempt(s.ledger, s.arrivals[m], outcome), StageAfter(s, m, outcome);
    AnswerFacts(s, m, outcome);
    if l' == s.ledger {
      MoveKeeps(s, m, to);
    } else {
      StoredKeeps(s, m, l', to);
    }
  }

  /** A lost answer does not cost a message its number: a retry that reaches the log finds it under the number it got. */
  lemma RetryFindsItsNumber(s: State, m: Msg, now: int)
    requires Inv(s) && m < |s.stage| && s.stage[m].Attempting? && InLog(s.arrivals, s.ledger.handed, m) && m !in s.past.forgotten
    ensures var t := Answer(s, m, CommitAnswered(now));
      && t.ledger == s.ledger
      && t.stage[m].Answered? && t.stage[m].result.Inserted?
      && Numbered(s.arrivals, s.ledger.handed, m, t.stage[m].result.accountSeq)
  {
    hide Inv, Commit, Valid, Grows, RowsGrow, HasRow, InLog, Numbered, MayMove, AttemptBounded;
    RetryFacts(s, m);
    OwnRowIsFound(s.ledger, s.arrivals[m], now);
    AnswerFacts(s, m, CommitAnswered(now));
  }

  lemma RetryFacts(s: State, m: Msg)
    requires Inv(s) && m < |s.stage| && s.stage[m].Attempting? && InLog(s.arrivals, s.ledger.handed, m) && m !in s.past.forgotten
    ensures m < |s.arrivals| && s.arrivals[m].id == m && s.stage[m].attempt > 0
    ensures Valid(s.ledger) && HasRow(s.ledger.store.rows, m)
  {
    assert !Untried(s.stage[m]);
  }

  lemma OwnRowIsFound(l: Ledger, envelope: Envelope, now: int)
    requires Valid(l) && HasRow(l.store.rows, envelope.id)
    ensures Commit(l, envelope, now).0 == l
    ensures Commit(l, envelope, now).1.Duplicate? && Commit(l, envelope, now).1.storedId == envelope.id
  {
    hide Valid, Commit;
    var k :| k in l.store.rows && l.store.rows[k].id == envelope.id;
    assert SameMessage(l.store.rows[k], envelope);
    CommitEffect(l, envelope, now);
  }

  // ── The circuit opens ────────────────────────────────────────────

  lemma OpenKeeps(s: State)
    requires Inv(s)
    ensures Inv(s.(guard := Open(s.guard)))
  {
    var t := s.(guard := Open(s.guard));
    LogFrame(s, t);
    SafetyFrame(s, t);
    EmissionFrame(s, t);
    if !s.guard.stopped { OrderFrame(s, t); }
  }

  lemma AttemptIsBounded(s: State, m: Msg)
    requires Inv(s) && m < |s.stage|
    ensures |s.stage| == |s.arrivals| && AttemptBounded(s.stage[m], s.retries)
  {
  }

  lemma FailedKeeps(s: State, m: Msg)
    requires Inv(s) && m < |s.stage| && s.stage[m].Failed?
    ensures Inv(AttemptFailed(s, m))
  {
    hide Inv;
    AttemptIsBounded(s, m);
    if !s.stage[m].permanent && s.stage[m].attempt >= s.retries {
      OpenKeeps(s);
      MoveKeeps(s.(guard := Open(s.guard)), m, Refusing);
    } else {
      MoveKeeps(s, m, AttemptFailed(s, m).stage[m]);
    }
  }
}

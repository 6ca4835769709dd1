/** An entry of the failed log is judged, stored, kept or given up on. */
module LineSteps {
  import opened MessageLedger
  import opened StoreGuard
  import opened InboundProtocol
  import opened ProtocolInvariants
  import opened CommitLemmas
  import opened Frames
  import opened LiveSteps
  import opened AnswerSteps
  import opened WriteOffSteps
  import opened EndSteps
  import opened WorkSteps

  // ── More is known of some messages ───────────────────────────────

  lemma FatesSafety(s: State, fates: Fates)
    requires SafetyInv(s) && FatesGrow(s.fates, fates)
    ensures SafetyInv(s.(fates := fates))
  {
    assert forall m: Msg :: Safe(s.arrivals, s.ledger.handed, s.file, s.fates, m) ==>
      Safe(s.arrivals, s.ledger.handed, s.file, fates, m);
  }

  lemma FatesKeep(s: State, fates: Fates)
    requires Inv(s) && FatesGrow(s.fates, fates) && fates.duplicates == s.fates.duplicates
    ensures Inv(s.(fates := fates))
  {
    hide QueueInv, PassInv, LogInv, SafetyInv, EmissionInv, OrderInv;
    var t := s.(fates := fates);
    QueueFrame(s, t);
    PassFrame(s, t);
    LogFrameSame(s, t);
    FatesSafety(s, fates);
    EmissionFrame(s, t);
    if !s.guard.stopped { OrderFrame(s, t); }
  }

  // ── Judged ───────────────────────────────────────────────────────

  lemma InsertingFacts(s: State, line: Line)
    requires Inv(s) && RunningLine(s)
    requires !HeldBack(s.arrivals, s.passes[0].work.lines, s.passes[0].work.outcomes, CurrentLine(s))
    requires line == Inserting ==> !s.guard.stopped
    ensures var w := Running(s.passes[0].work.lines, s.passes[0].work.outcomes, line);
      && PassShape(s.arrivals, s.file, Reworked(s.passes, w)) && LineIsLate(s.stage, Reworked(s.passes, w))
      && OutcomesHold(s.arrivals, s.ledger.handed, s.fates, Reworked(s.passes, w))
      && (!s.guard.stopped ==> WorksInOrder(s, w))
    ensures OnlyAppends(s.fileTurn)
  {
    OnlyAppendsWait(s);
    var lines, i := s.passes[0].work.lines, |s.passes[0].work.outcomes|;
    assert s.file[..|lines|][i] == s.file[i];
    assert CurrentLine(s) in s.file;
  }

  lemma LineMovesOn(s: State, line: Line)
    requires Inv(s) && RunningLine(s)
    requires !HeldBack(s.arrivals, s.passes[0].work.lines, s.passes[0].work.outcomes, CurrentLine(s))
    requires line == Inserting ==> !s.guard.stopped
    ensures Inv(WithWork(s, Running(s.passes[0].work.lines, s.passes[0].work.outcomes, line)))
  {
    hide Inv, OnlyAppends, PassShape, LineIsLate, OutcomesHold, WorksInOrder, HeldBack;
    InsertingFacts(s, line);
    WorkKeeps(s, Running(s.passes[0].work.lines, s.passes[0].work.outcomes, line));
  }

  lemma JudgeKeeps(s: State, verdict: Verdict)
    requires Inv(s) && OnLine(s, Next)
    ensures Inv(Judge(s, verdict))
  {
    hide Inv, HeldBack;
    var m := CurrentLine(s);
    if HeldBack(s.arrivals, s.passes[0].work.lines, s.passes[0].work.outcomes, m) {
      OutcomeKeeps(s, Kept);
    } else if verdict == Discard {
      FatesKeep(s, s.fates.(discarded := s.fates.discarded + {m}));
      OutcomeKeeps(s.(fates := s.fates.(discarded := s.fates.discarded + {m})), Left);
    } else if verdict == WaitedTooLong {
      OutcomeKeeps(s, Rejected);
    } else if verdict == CannotTell || s.guard.stopped || s.guard.phase == Down {
      OutcomeKeeps(s, Kept);
    } else {
      LineMovesOn(s, Inserting);
    }
  }

  // ── Answered ─────────────────────────────────────────────────────

  lemma LineFacts(s: State, line: Line)
    requires Inv(s) && OnLine(s, line) && line != Next
    ensures !HeldBack(s.arrivals, s.passes[0].work.lines, s.passes[0].work.outcomes, CurrentLine(s))
    ensures line == Inserting ==> CurrentLine(s) < |s.stage| && Late(s.stage[CurrentLine(s)])
    ensures |s.stage| == |s.arrivals|
    ensures s.file != [] && |s.passes[0].work.outcomes| < |s.file| && s.file[|s.passes[0].work.outcomes|] == CurrentLine(s)
  {
    var lines, i := s.passes[0].work.lines, |s.passes[0].work.outcomes|;
    assert s.file[..|lines|][i] == s.file[i];
  }

  /** The entry a pass offers to the log is the first of its account that may still get a number. */
  lemma LineIsFirst(s: State, u: Msg)
    requires Fifo(s.arrivals, s.stage) && Sorted(s.arrivals, s.past.since, s.file) && PassShape(s.arrivals, s.file, s.passes)
    requires OnLine(s, Inserting) && LineIsLate(s.stage, s.passes)
    requires SameAccount(s.arrivals, u, CurrentLine(s)) && u != CurrentLine(s)
    requires Candidate(s.stage, s.file, OutcomesOf(s.passes), u)
    requires SinceOf(s.past.since, s.arrivals[u].account) <= CurrentLine(s)
    ensures CurrentLine(s) < u
  {
    var w := s.passes[0].work;
    var i := |w.outcomes|;
    assert s.file[..|w.lines|][i] == s.file[i];
    assert forall q :: 0 <= q < |w.lines| ==> s.file[..|w.lines|][q] == s.file[q];
    assert forall q :: 0 <= q < i && SameAccount(s.arrivals, w.lines[q], w.lines[i]) ==> w.outcomes[q] != Kept;
    if u >= |s.stage| || s.stage[u] == Done {
      var p :| 0 <= p < |s.file| && s.file[p] == u && !Leaving(w.outcomes, p);
      assert p > i;
    }
  }

  lemma LineFirstParts(s: State)
    requires QueueInv(s) && PassInv(s) && LogInv(s)
    ensures Fifo(s.arrivals, s.stage) && PassShape(s.arrivals, s.file, s.passes) && LineIsLate(s.stage, s.passes)
  {
  }

  /** It has no row, so if it was ever stored retention removed it. */
  lemma IsForgotten(s: State, m: Msg)
    requires LogInv(s) && m < |s.stage| && (s.stage[m] != Done || m in s.file) && !HasRow(s.ledger.store.rows, m)
    ensures InLog(s.arrivals, s.ledger.handed, m) ==> m in s.past.forgotten
  {
  }

  lemma LineStoresLog(s: State, m: Msg, l': Ledger)
    requires LogInv(s) && Valid(l') && m < |s.stage| && Late(s.stage[m]) && m in s.file
    requires Grows(s.arrivals, s.ledger.handed, l'.handed, m) && RowsGrow(s.ledger.store.rows, l'.store.rows, m)
    ensures LogInv(s.(ledger := l'))
  {
    hide Valid, Grows, HasRow, HandedKnown, HandedOnce, LoggedWereTried, RowsStay, FileKnown, LineIsLate, FileLate;
    IsForgotten(s, m);
    HistoriesGrow(s.arrivals, s.ledger.handed, l'.handed, m, s.past.forgotten);
    LoggedGrow(s.arrivals, s.stage, s.ledger.handed, l'.handed, m);
    RowsStayGrown(s.arrivals, s.stage, s.file, s.left, s.ledger, l', m, s.past.forgotten);
  }

  lemma LineStoresOrder(s: State, l': Ledger)
    requires OrderInv(s) && OnLine(s, Inserting)
    requires Fifo(s.arrivals, s.stage) && PassShape(s.arrivals, s.file, s.passes) && LineIsLate(s.stage, s.passes)
    requires Grows(s.arrivals, s.ledger.handed, l'.handed, CurrentLine(s))
    requires RowsGrow(s.ledger.store.rows, l'.store.rows, CurrentLine(s))
    ensures OrderInv(s.(ledger := l'))
  {
    var m := CurrentLine(s);
    var w := s.passes[0].work;
    assert s.file[..|w.lines|][|w.outcomes|] == s.file[|w.outcomes|];
    assert Candidate(s.stage, s.file, OutcomesOf(s.passes), m);
    forall u: Msg | u < |s.arrivals| && SameAccount(s.arrivals, u, m) && u != m && Candidate(s.stage, s.file, OutcomesOf(s.passes), u) &&
                    SinceOf(s.past.since, s.arrivals[m].account) <= m
      ensures m < u
    {
      LineIsFirst(s, u);
    }
    GrowOrder(s, m, l');
  }

  lemma LineStoresKeeps(s: State, l': Ledger)
    requires Inv(s) && OnLine(s, Inserting) && CurrentLine(s) < |s.stage| && Late(s.stage[CurrentLine(s)]) && Valid(l')
    requires CurrentLine(s) in s.file
    requires Grows(s.arrivals, s.ledger.handed, l'.handed, CurrentLine(s))
    requires RowsGrow(s.ledger.store.rows, l'.store.rows, CurrentLine(s))
    ensures Inv(s.(ledger := l'))
  {
    hide QueueInv, PassInv, LogInv, SafetyInv, EmissionInv, OrderInv, Grows, RowsGrow, Valid, Fifo, PassShape, LineIsLate;
    var t := s.(ledger := l');
    QueueFrame(s, t);
    PassFrame(s, t);
    LineStoresLog(s, CurrentLine(s), l');
    GrowSafety(s, CurrentLine(s), l');
    GrowEmission(s, CurrentLine(s), l');
    if !s.guard.stopped {
      LineFirstParts(s);
      LineStoresOrder(s, l');
    }
  }

  lemma LineCommits(s: State, now: int)
    requires Inv(s) && OnLine(s, Inserting)
    ensures var m := CurrentLine(s);
      var (l', result) := Commit(s.ledger, s.arrivals[m], now);
      && Valid(l')
      && (l' == s.ledger || (Grows(s.arrivals, s.ledger.handed, l'.handed, m) && RowsGrow(s.ledger.store.rows, l'.store.rows, m)))
      && (result.Inserted? || (result.Duplicate? && result.storedId == m) ==> InLog(s.arrivals, l'.handed, m))
      && !result.Refused?
  {
    LineFacts(s, Inserting);
    var m := CurrentLine(s);
    assert m in s.file;
    CommitGrows(s.arrivals, s.ledger, m, now);
  }

  lemma LineLedgerKeeps(s: State, outcome: StoreOutcome)
    requires Inv(s) && OnLine(s, Inserting)
    ensures Inv(s.(ledger := AfterAttempt(s.ledger, s.arrivals[CurrentLine(s)], outcome)))
  {
    hide Inv, Grows, RowsGrow, Valid, HeldBack;
    LineFacts(s, Inserting);
    if !outcome.NoCommit? {
      LineCommits(s, outcome.now);
      var l' := Commit(s.ledger, s.arrivals[CurrentLine(s)], outcome.now).0;
      if l' != s.ledger { LineStoresKeeps(s, l'); }
    }
  }

  lemma GivesKeeps(s: State, outcome: StoreOutcome)
    requires Inv(s) && OnLine(s, Inserting)
    ensures Inv(Gives(s, |s.passes[0].work.outcomes|, outcome))
  {
    hide Inv, Gives;
    GivenKeeps(s, Gives(s, |s.passes[0].work.outcomes|, outcome).past.given);
  }

  lemma LineAnswerKeeps(s: State, outcome: StoreOutcome)
    requires Inv(s) && OnLine(s, Inserting)
    ensures Inv(LineAnswer(s, outcome))
  {
    hide Inv, Grows, RowsGrow, Valid, HeldBack, InLog, Gives;
    var m := CurrentLine(s);
    var g := Gives(s, |s.passes[0].work.outcomes|, outcome);
    var t := g.(ledger := AfterAttempt(s.ledger, s.arrivals[m], outcome));
    LineFacts(s, Inserting);
    GivesKeeps(s, outcome);
    LineLedgerKeeps(g, outcome);
    if outcome.CommitAnswered? {
      LineCommits(s, outcome.now);
      var result := Commit(s.ledger, s.arrivals[m], outcome.now).1;
      if result.Duplicate? && result.storedId != m {
        var fates := s.fates.(repeated := s.fates.repeated + {m});
        FatesKeep(t, fates);
        OutcomeKeeps(t.(fates := fates), Left);
      } else {
        OutcomeKeeps(t, Left);
      }
    } else if outcome.NoCommit? && outcome.permanent {
      OutcomeKeeps(t, Rejected);
    } else {
      LineMovesOn(t, ProbingLine);
    }
  }

  lemma LineProbedKeeps(s: State, written: bool)
    requires Inv(s) && OnLine(s, ProbingLine)
    ensures Inv(LineProbed(s, written))
  {
    hide Inv, HeldBack;
    if written {
      OutcomeKeeps(s, Kept);
    } else {
      OpenKeeps(s);
      OutcomeKeeps(s.(guard := Open(s.guard)), Kept);
    }
  }
}

/** The steps of a live message keep every invariant. */
module LiveSteps {
  import opened Options
  import opened StoreGuard
  import opened InboundProtocol
  import opened ProtocolInvariants
  import opened StageLemmas
  import opened Frames

  // ── A message moves on ───────────────────────────────────────────

  lemma MoveQueue(s: State, m: Msg, to: Stage)
    requires QueueInv(s) && MayMove(s.arrivals, s.stage, m, to) && to != Done && AttemptBounded(to, s.retries)
    ensures QueueInv(WithStage(s, m, to))
  {
    FifoMoves(s.arrivals, s.stage, m, to);
    AttemptsMove(s.stage, s.retries, m, to);
    UnsavedMoves(s.stage, s.unsaved, s.unsaved, m, to);
  }

  lemma MovePass(s: State, m: Msg, to: Stage)
    requires PassInv(s) && m < |s.stage|
    requires s.stage[m] != Done && s.stage[m] != WritingOff && s.stage[m] != Replaying
    ensures PassInv(WithStage(s, m, to))
  {
    OpsMove(s.stage, s.fileTurn, s.passes, s.busy, m, to);
    CallersMove(s.stage, s.starting, s.writeOffs, s.passes, s.ended, m, to);
  }

  lemma MoveLog(s: State, m: Msg, to: Stage)
    requires LogInv(s) && m < |s.stage| && s.stage[m] != Done
    requires Untried(s.stage[m]) || !Untried(to)
    requires Late(s.stage[m]) ==> Late(to)
    ensures LogInv(WithStage(s, m, to))
  {
    LoggedMove(s.arrivals, s.stage, s.ledger.handed, m, to);
    RowsMove(s.arrivals, s.stage, s.file, s.left, s.ledger, s.past.forgotten, m, to);
    LineMoves(s.stage, s.passes, m, to);
    if !s.guard.stopped { FileMoves(s.stage, s.file, m, to); }
  }

  lemma MoveSafety(s: State, m: Msg, to: Stage)
    requires SafetyInv(s) && m < |s.stage|
    requires IsWrittenOff(to) ==> IsWrittenOff(s.stage[m]) || m in s.left || m in s.fates.died ||
                                  Safe(s.arrivals, s.ledger.handed, s.file, s.fates, m)
    ensures SafetyInv(WithStage(s, m, to))
  {
    WrittenOffMove(s.arrivals, s.stage, s.left, s.ledger.handed, s.file, s.fates, m, to);
  }

  lemma MoveEmission(s: State, m: Msg, to: Stage)
    requires EmissionInv(s) && m < |s.stage| && s.stage[m] != Done && AnswerIsTrue(s.arrivals, s.ledger.handed, m, to)
    ensures EmissionInv(WithStage(s, m, to))
  {
    EmittedMove(s.arrivals, s.stage, s.emitted, m, to);
    UnfinishedMove(s.arrivals, s.stage, s.ledger.handed, s.emitted, m, to);
    AnswersMove(s.arrivals, s.stage, s.ledger.handed, m, to);
    DuplicatesMove(s.stage, s.fates.duplicates, s.emitted, m, to);
  }

  ghost predicate FileIsClearOf(s: State, m: Msg) {
    m < |s.arrivals| && forall e :: e in s.file && SameAccount(s.arrivals, e, m) ==> s.arrivals[m].account in s.past.dirty
  }

  lemma MoveOrder(s: State, m: Msg, to: Stage)
    requires OrderInv(s) && m < |s.stage| && s.stage[m] != Done
    requires InLoop(to) && !InLoop(s.stage[m]) ==> FileIsClearOf(s, m)
    requires s.guard.phase == Closed && (s.stage[m] == Appended || s.stage[m] == Replaying) ==> to == Replaying
    ensures OrderInv(WithStage(s, m, to))
  {
    OvertakingMoves(s.arrivals, s.stage, s.file, OutcomesOf(s.passes), s.ledger, s.past, m, to);
    LoopMoves(s.arrivals, s.stage, s.file, s.past.dirty, m, to);
    if s.guard.phase == Closed && !s.starting { ClosedMoves(s.arrivals, s.stage, s.file, s.past.dirty, m, to); }
  }

  lemma MoveKeeps(s: State, m: Msg, to: Stage)
    requires Inv(s) && MayMove(s.arrivals, s.stage, m, to) && to != Done && AttemptBounded(to, s.retries)
    requires s.stage[m] != WritingOff && s.stage[m] != Replaying
    requires s.stage[m] == Appended && !s.guard.stopped && s.guard.phase == Closed ==> to == Replaying
    requires (Untried(s.stage[m]) || !Untried(to)) && (Late(s.stage[m]) ==> Late(to))
    requires IsWrittenOff(to) && !IsWrittenOff(s.stage[m]) ==>
               m in s.left || m in s.fates.died || Safe(s.arrivals, s.ledger.handed, s.file, s.fates, m)
    requires AnswerIsTrue(s.arrivals, s.ledger.handed, m, to)
    requires !s.guard.stopped && InLoop(to) && !InLoop(s.stage[m]) ==> FileIsClearOf(s, m)
    ensures Inv(WithStage(s, m, to))
  {
    MoveQueue(s, m, to);
    MovePass(s, m, to);
    MoveLog(s, m, to);
    MoveSafety(s, m, to);
    MoveEmission(s, m, to);
    if !s.guard.stopped { MoveOrder(s, m, to); }
  }

  // ── A message leaves its queue ───────────────────────────────────

  /** Whatever else the end of a message says of it. */
  function Over(s: State, m: Msg, fates: Fates, emitted: seq<Emission>): State
    requires m < |s.stage|
  {
    Finish(s, m).(fates := fates, emitted := emitted)
  }

  predicate FatesGrow(f: Fates, g: Fates) {
    f.rejects <= g.rejects && f.filtered <= g.filtered && f.discarded <= g.discarded && f.duplicates <= g.duplicates &&
    f.repeated <= g.repeated && f.lost <= g.lost && f.died == g.died
  }

  lemma OverQueue(s: State, m: Msg, fates: Fates, emitted: seq<Emission>)
    requires QueueInv(s) && MayMove(s.arrivals, s.stage, m, Done)
    ensures QueueInv(Over(s, m, fates, emitted))
  {
    FifoMoves(s.arrivals, s.stage, m, Done);
    AttemptsMove(s.stage, s.retries, m, Done);
    UnsavedMoves(s.stage, s.unsaved, s.unsaved - {m}, m, Done);
  }

  lemma OverPass(s: State, m: Msg, fates: Fates, emitted: seq<Emission>)
    requires PassInv(s) && m < |s.stage|
    requires s.stage[m] != Done && s.stage[m] != WritingOff && s.stage[m] != Replaying
    ensures PassInv(Over(s, m, fates, emitted))
  {
    OpsMove(s.stage, s.fileTurn, s.passes, s.busy, m, Done);
    CallersMove(s.stage, s.starting, s.writeOffs, s.passes, s.ended, m, Done);
  }

  lemma OverLog(s: State, m: Msg, fates: Fates, emitted: seq<Emission>)
    requires LogInv(s) && m < |s.stage| && s.stage[m] != Done
    ensures LogInv(Over(s, m, fates, emitted))
  {
    MoveLog(s, m, Done);
    LogFrame(WithStage(s, m, Done), Over(s, m, fates, emitted));
  }

  lemma OverSafety(s: State, m: Msg, fates: Fates, emitted: seq<Emission>)
    requires SafetyInv(s) && m < |s.stage| && |s.stage| == |s.arrivals| && FatesGrow(s.fates, fates)
    requires m in s.left || m in s.fates.died || Safe(s.arrivals, s.ledger.handed, s.file, fates, m)
    ensures SafetyInv(Over(s, m, fates, emitted))
  {
    WrittenOffMove(s.arrivals, s.stage, s.left, s.ledger.handed, s.file, s.fates, m, Done);
  }

  lemma OverEmission(s: State, m: Msg, fates: Fates)
    requires EmissionInv(s) && m < |s.stage| && s.stage[m] != Done
    requires fates.duplicates == s.fates.duplicates || fates.duplicates == s.fates.duplicates + {m}
    ensures EmissionInv(Over(s, m, fates, s.emitted))
  {
    MoveEmission(s, m, Done);
    var stage := s.stage[m := Done];
    assert DuplicatesAreSilent(stage, s.fates.duplicates, s.emitted);
    assert m !in s.fates.duplicates && forall i :: 0 <= i < |s.emitted| ==> s.emitted[i].m != m;
    assert DuplicatesAreSilent(stage, fates.duplicates, s.emitted);
  }

  lemma OverOrder(s: State, m: Msg, fates: Fates, emitted: seq<Emission>)
    requires OrderInv(s) && m < |s.stage| && s.stage[m] != Done
    requires s.stage[m] != Appended && s.stage[m] != Replaying
    ensures OrderInv(Over(s, m, fates, emitted))
  {
    MoveOrder(s, m, Done);
    OrderFrame(WithStage(s, m, Done), Over(s, m, fates, emitted));
  }

  lemma SilentEndKeeps(s: State, m: Msg, fates: Fates)
    requires Inv(s) && MayMove(s.arrivals, s.stage, m, Done)
    requires s.stage[m] != WritingOff && s.stage[m] != Replaying && s.stage[m] != Appended
    requires FatesGrow(s.fates, fates)
    requires m in s.left || m in s.fates.died || Safe(s.arrivals, s.ledger.handed, s.file, fates, m)
    requires fates.duplicates == s.fates.duplicates || fates.duplicates == s.fates.duplicates + {m}
    ensures Inv(Over(s, m, fates, s.emitted))
  {
    OverQueue(s, m, fates, s.emitted);
    OverPass(s, m, fates, s.emitted);
    OverLog(s, m, fates, s.emitted);
    OverSafety(s, m, fates, s.emitted);
    OverEmission(s, m, fates);
    if !s.guard.stopped { OverOrder(s, m, fates, s.emitted); }
  }

  /** What its account emitted before came before it, and under a smaller number. */
  lemma EmittedCameBefore(s: State, m: Msg, i: nat)
    requires QueueInv(s) && EmissionInv(s) && m < |s.stage| && s.stage[m] != Done && s.stage[m] != Queued
    requires i < |s.emitted| && SameAccount(s.arrivals, s.emitted[i].m, m)
    ensures s.emitted[i].m < m
  {
    assert s.stage[s.emitted[i].m] == Done;
  }

  /** Nothing else of the account that is still in its queue is in the log. */
  lemma OnlyTheHeadIsLogged(s: State, m: Msg, other: Msg, number: nat)
    requires QueueInv(s) && LogInv(s) && m < |s.stage| && s.stage[m] != Done && s.stage[m] != Queued
    requires other < |s.stage| && s.stage[other] != Done && SameAccount(s.arrivals, m, other)
    requires Numbered(s.arrivals, s.ledger.handed, other, number)
    ensures other == m
  {
    assert InLog(s.arrivals, s.ledger.handed, other);
    assert !Untried(s.stage[other]);
  }

  lemma EmitKeepsNumbers(s: State, m: Msg, number: Option<nat>)
    requires QueueInv(s) && LogInv(s) && EmissionInv(s) && m < |s.stage| && s.stage[m] != Done && s.stage[m] != Queued
    requires number.Some? ==> Numbered(s.arrivals, s.ledger.handed, m, number.value)
    ensures NumbersIncrease(s.arrivals, s.emitted + [Emission(m, number)])
    ensures UnfinishedAreAhead(s.arrivals, s.stage[m := Done], s.ledger.handed, s.emitted + [Emission(m, number)])
  {
    var emitted, stage := s.emitted + [Emission(m, number)], s.stage[m := Done];
    forall i, other, n | 0 <= i < |emitted| && emitted[i].number.Some? && 0 <= other < |stage| && stage[other] != Done &&
                         SameAccount(s.arrivals, emitted[i].m, other) && Numbered(s.arrivals, s.ledger.handed, other, n)
      ensures emitted[i].number.value < n
    {
      if i == |s.emitted| { OnlyTheHeadIsLogged(s, m, other, n); }
    }
  }

  lemma EmitKeepsOrder(s: State, m: Msg, number: Option<nat>)
    requires QueueInv(s) && EmissionInv(s) && m < |s.stage| && s.stage[m] != Done && s.stage[m] != Queued
    ensures EmittedInOrder(s.arrivals, s.stage[m := Done], s.emitted + [Emission(m, number)])
    ensures DuplicatesAreSilent(s.stage[m := Done], s.fates.duplicates, s.emitted + [Emission(m, number)])
  {
    forall i | 0 <= i < |s.emitted| && SameAccount(s.arrivals, s.emitted[i].m, m) ensures s.emitted[i].m < m {
      EmittedCameBefore(s, m, i);
    }
  }

  lemma EmitEmission(s: State, m: Msg, number: Option<nat>)
    requires QueueInv(s) && LogInv(s) && EmissionInv(s) && m < |s.stage| && s.stage[m] != Done && s.stage[m] != Queued
    requires number.Some? ==> Numbered(s.arrivals, s.ledger.handed, m, number.value)
    ensures EmissionInv(FinishEmitting(s, m, number))
  {
    EmitKeepsOrder(s, m, number);
    EmitKeepsNumbers(s, m, number);
    AnswersMove(s.arrivals, s.stage, s.ledger.handed, m, Done);
  }

  lemma EmitKeeps(s: State, m: Msg, number: Option<nat>)
    requires Inv(s) && m < |s.stage| && (s.stage[m].Answered? || s.stage[m] == WrittenOff)
    requires m in s.left || m in s.fates.died || Safe(s.arrivals, s.ledger.handed, s.file, s.fates, m)
    requires number.Some? ==> Numbered(s.arrivals, s.ledger.handed, m, number.value)
    ensures Inv(FinishEmitting(s, m, number))
  {
    var emitted := s.emitted + [Emission(m, number)];
    OverQueue(s, m, s.fates, emitted);
    OverPass(s, m, s.fates, emitted);
    OverLog(s, m, s.fates, emitted);
    OverSafety(s, m, s.fates, emitted);
    EmitEmission(s, m, number);
    if !s.guard.stopped { OverOrder(s, m, s.fates, emitted); }
  }
}

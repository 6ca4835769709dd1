/** What survives one message moving to its next stage. */
module StageLemmas {
  import opened Options
  import opened MessageStore
  import opened MessageLedger
  import opened InboundProtocol
  import opened ProtocolInvariants

  predicate MayMove(arrivals: seq<Envelope>, stage: seq<Stage>, m: Msg, to: Stage) {
    m < |stage| && |stage| == |arrivals| && stage[m] != Done && to != Queued &&
    (stage[m] == Queued ==> forall before :: 0 <= before < m && SameAccount(arrivals, before, m) ==> stage[before] == Done)
  }

  lemma FifoMoves(arrivals: seq<Envelope>, stage: seq<Stage>, m: Msg, to: Stage)
    requires Fifo(arrivals, stage) && MayMove(arrivals, stage, m, to)
    ensures Fifo(arrivals, stage[m := to])
  {
  }

  predicate AttemptBounded(stage: Stage, retries: nat) {
    (stage.Attempting? || stage.Failed? ==> stage.attempt <= retries) && (stage.Waiting? ==> 0 < stage.attempt <= retries)
  }

  lemma AttemptsMove(stage: seq<Stage>, retries: nat, m: Msg, to: Stage)
    requires AttemptsBounded(stage, retries) && m < |stage| && AttemptBounded(to, retries)
    ensures AttemptsBounded(stage[m := to], retries)
  {
  }

  lemma UnsavedMoves(stage: seq<Stage>, unsaved: set<Msg>, unsaved': set<Msg>, m: Msg, to: Stage)
    requires UnsavedAreLive(stage, unsaved) && m < |stage| && unsaved' <= unsaved && (to == Done ==> m !in unsaved')
    ensures UnsavedAreLive(stage[m := to], unsaved')
  {
  }

  lemma OpsMove(stage: seq<Stage>, fileTurn: seq<FileOp>, passes: seq<Pass>, busy: Option<Msg>, m: Msg, to: Stage)
    requires OpsMatch(stage, fileTurn, passes, busy) && m < |stage| && stage[m] != WritingOff
    ensures OpsMatch(stage[m := to], fileTurn, passes, busy)
  {
    forall op | op in fileTurn ensures OpMatches(stage[m := to], passes, busy, op) {
      assert OpMatches(stage, passes, busy, op);
    }
  }

  lemma CallersMove(stage: seq<Stage>, starting: bool, writeOffs: nat, passes: seq<Pass>, ended: seq<Ended>, m: Msg, to: Stage)
    requires CallersHold(stage, starting, writeOffs, passes, ended) && m < |stage| && stage[m] != Replaying
    ensures CallersHold(stage[m := to], starting, writeOffs, passes, ended)
  {
    forall i | 0 <= i < |passes| ensures CallerHolds(stage[m := to], starting, writeOffs, passes[i].caller) {
      assert CallerHolds(stage, starting, writeOffs, passes[i].caller);
    }
    forall i | 0 <= i < |ended| ensures CallerHolds(stage[m := to], starting, writeOffs, ended[i].caller) {
      assert CallerHolds(stage, starting, writeOffs, ended[i].caller);
    }
  }

  lemma LoggedMove(arrivals: seq<Envelope>, stage: seq<Stage>, handed: map<Account, seq<Id>>, m: Msg, to: Stage)
    requires LoggedWereTried(arrivals, stage, handed) && m < |stage| && (Untried(stage[m]) || !Untried(to))
    ensures LoggedWereTried(arrivals, stage[m := to], handed)
  {
  }

  lemma RowsMove(arrivals: seq<Envelope>, stage: seq<Stage>, file: seq<Msg>, left: set<Msg>, l: Ledger, forgotten: set<Msg>,
                 m: Msg, to: Stage)
    requires RowsStay(arrivals, stage, file, left, l, forgotten) && m < |stage| && stage[m] != Done
    ensures RowsStay(arrivals, stage[m := to], file, left, l, forgotten)
  {
  }

  lemma LineMoves(stage: seq<Stage>, passes: seq<Pass>, m: Msg, to: Stage)
    requires LineIsLate(stage, passes) && m < |stage| && (Late(stage[m]) ==> Late(to))
    ensures LineIsLate(stage[m := to], passes)
  {
  }

  lemma FileMoves(stage: seq<Stage>, file: seq<Msg>, m: Msg, to: Stage)
    requires FileLate(stage, file) && m < |stage| && (Late(stage[m]) ==> Late(to))
    ensures FileLate(stage[m := to], file)
  {
  }

  predicate IsWrittenOff(stage: Stage) { stage == Appended || stage == Replaying || stage == WrittenOff }

  lemma WrittenOffMove(arrivals: seq<Envelope>, stage: seq<Stage>, left: set<Msg>, handed: map<Account, seq<Id>>,
                       file: seq<Msg>, fates: Fates, m: Msg, to: Stage)
    requires WrittenOffAreSafe(arrivals, stage, left, handed, file, fates) && m < |stage|
    requires IsWrittenOff(to) ==>
               IsWrittenOff(stage[m]) || m in left || m in fates.died || Safe(arrivals, handed, file, fates, m)
    ensures WrittenOffAreSafe(arrivals, stage[m := to], left, handed, file, fates)
  {
  }

  lemma EmittedMove(arrivals: seq<Envelope>, stage: seq<Stage>, emitted: seq<Emission>, m: Msg, to: Stage)
    requires EmittedInOrder(arrivals, stage, emitted) && m < |stage| && stage[m] != Done
    ensures EmittedInOrder(arrivals, stage[m := to], emitted)
  {
  }

  lemma UnfinishedMove(arrivals: seq<Envelope>, stage: seq<Stage>, handed: map<Account, seq<Id>>, emitted: seq<Emission>,
                       m: Msg, to: Stage)
    requires UnfinishedAreAhead(arrivals, stage, handed, emitted) && m < |stage| && stage[m] != Done
    ensures UnfinishedAreAhead(arrivals, stage[m := to], handed, emitted)
  {
  }

  predicate AnswerIsTrue(arrivals: seq<Envelope>, handed: map<Account, seq<Id>>, m: Msg, stage: Stage) {
    stage.Answered? ==>
      !stage.result.Refused? &&
      (stage.result.Inserted? ==> Numbered(arrivals, handed, m, stage.result.accountSeq)) &&
      (stage.result.Duplicate? ==> stage.result.storedId != m)
  }

  lemma AnswersMove(arrivals: seq<Envelope>, stage: seq<Stage>, handed: map<Account, seq<Id>>, m: Msg, to: Stage)
    requires AnswersAreTrue(arrivals, stage, handed) && m < |stage| && AnswerIsTrue(arrivals, handed, m, to)
    ensures AnswersAreTrue(arrivals, stage[m := to], handed)
  {
  }

  lemma DuplicatesMove(stage: seq<Stage>, duplicates: set<Msg>, emitted: seq<Emission>, m: Msg, to: Stage)
    requires DuplicatesAreSilent(stage, duplicates, emitted) && m < |stage| && stage[m] != Done
    ensures DuplicatesAreSilent(stage[m := to], duplicates, emitted)
  {
  }

  lemma OvertakingMoves(arrivals: seq<Envelope>, stage: seq<Stage>, file: seq<Msg>, outcomes: seq<Outcome>,
                        l: Ledger, past: Past, m: Msg, to: Stage)
    requires NoOvertaking(arrivals, stage, file, outcomes, l, past) && m < |stage| && stage[m] != Done
    ensures NoOvertaking(arrivals, stage[m := to], file, outcomes, l, past)
  {
    forall u | Candidate(stage[m := to], file, outcomes, u) ensures Candidate(stage, file, outcomes, u) {
    }
  }

  lemma LoopMoves(arrivals: seq<Envelope>, stage: seq<Stage>, file: seq<Msg>, dirty: set<Account>, m: Msg, to: Stage)
    requires LoopIsAlone(arrivals, stage, file, dirty) && m < |stage|
    requires InLoop(to) && !InLoop(stage[m]) ==>
               forall e :: e in file && SameAccount(arrivals, e, m) ==> arrivals[m].account in dirty
    ensures LoopIsAlone(arrivals, stage[m := to], file, dirty)
  {
  }

  lemma ClosedMoves(arrivals: seq<Envelope>, stage: seq<Stage>, file: seq<Msg>, dirty: set<Account>, m: Msg, to: Stage)
    requires ClosedIsClear(arrivals, stage, file, dirty) && m < |stage|
    requires to == Appended || to == Replaying || !(stage[m] == Appended || stage[m] == Replaying) || m !in file ||
             (m < |arrivals| && arrivals[m].account in dirty)
    ensures ClosedIsClear(arrivals, stage[m := to], file, dirty)
  {
    var moved := stage[m := to];
    forall e | e in file && e < |arrivals| && e < |moved| && arrivals[e].account !in dirty
      ensures moved[e] == Appended || moved[e] == Replaying
    {
      assert stage[e] == Appended || stage[e] == Replaying;
    }
  }
}

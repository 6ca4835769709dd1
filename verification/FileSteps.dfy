/** The operations on the failed log's file, one at a time. */
module FileSteps {
  import opened Options
  import opened MessageStore
  import opened InboundProtocol
  import opened ProtocolInvariants
  import opened Frames
  import opened StageLemmas
  import opened LiveSteps
  import opened WriteOffSteps
  import opened EndSteps

  function Popped(s: State): State
    requires s.fileTurn != []
  {
    s.(fileTurn := s.fileTurn[1..])
  }

  lemma PopPass(s: State)
    requires PassInv(s) && s.fileTurn != []
    ensures PassInv(Popped(s)) && s.fileTurn[0] !in s.fileTurn[1..]
    ensures OpMatches(s.stage, s.passes, s.busy, s.fileTurn[0])
    ensures !IsAppend(s.fileTurn[0]) ==> OnlyAppends(s.fileTurn[1..])
    ensures OnePassAtATime(s.passes)
  {
    assert s.fileTurn[0] in s.fileTurn;
    forall op | op in s.fileTurn[1..] ensures op in s.fileTurn && OpMatches(s.stage, s.passes, s.busy, op) {
    }
    var rest := s.fileTurn[1..];
    forall i | 0 <= i < |rest| ensures rest[i] != s.fileTurn[0] {
      assert rest[i] == s.fileTurn[i + 1];
    }
  }

  lemma PopOrder(s: State)
    requires OrderInv(s) && s.fileTurn != []
    ensures OrderInv(Popped(s))
  {
    var rest := s.fileTurn[1..];
    assert forall op :: op in rest ==> op in s.fileTurn;
    assert forall i :: 0 <= i < |rest| ==> rest[i] == s.fileTurn[i + 1];
  }

  lemma PopKeeps(s: State)
    requires Inv(s) && s.fileTurn != []
    ensures Inv(Popped(s)) && s.fileTurn[0] !in s.fileTurn[1..]
    ensures OpMatches(s.stage, s.passes, s.busy, s.fileTurn[0])
    ensures !IsAppend(s.fileTurn[0]) ==> OnlyAppends(s.fileTurn[1..])
    ensures OnePassAtATime(s.passes)
  {
    hide QueueInv, PassInv, LogInv, SafetyInv, EmissionInv, OrderInv, OnlyAppends, OnePassAtATime, OpMatches;
    var t := Popped(s);
    QueueFrame(s, t);
    PopPass(s);
    LogFrameSame(s, t);
    SafetyFrameSame(s, t);
    EmissionFrame(s, t);
    if !s.guard.stopped { PopOrder(s); }
  }

  // ── An append ────────────────────────────────────────────────────

  /** An entry joins the end of the file, or is LOST if it cannot be written. */
  lemma WrittenLog(s: State, m: Msg, ok: bool)
    requires LogInv(s) && m < |s.stage| && m < |s.arrivals| && (s.stage[m] != Done || m in s.left)
    requires !s.guard.stopped ==> Late(s.stage[m])
    ensures LogInv(Written(s, m, ok))
  {
  }

  lemma WrittenPass(s: State, m: Msg, ok: bool)
    requires PassInv(s)
    ensures PassInv(Written(s, m, ok))
  {
  }

  lemma WrittenSafety(s: State, m: Msg, ok: bool)
    requires SafetyInv(s)
    ensures SafetyInv(Written(s, m, ok)) && (m < |s.arrivals| ==> Safe(s.arrivals, s.ledger.handed, Written(s, m, ok).file, Written(s, m, ok).fates, m))
  {
  }

  lemma WrittenLeaving(file: seq<Msg>, stage: seq<Stage>, outcomes: seq<Outcome>, m: Msg, u: Msg)
    requires m < |stage| && stage[m] != Done && Candidate(stage, file + [m], outcomes, u)
    ensures Candidate(stage, file, outcomes, u)
  {
    if u >= |stage| || stage[u] == Done {
      var i :| 0 <= i < |file + [m]| && (file + [m])[i] == u && !Leaving(outcomes, i);
      assert i < |file|;
    }
  }

  /** No recovery that has seen all is left while an append is on its way, and no message waits for a pass at its first append. */
  ghost predicate NobodyCounts(s: State, m: Msg) {
    && (forall i :: 0 <= i < |s.ended| ==>
          s.ended[i].caller != Persist(m) && !s.ended[i].caller.AtStart? &&
          (s.ended[i].caller == Recover(s.writeOffs) ==> s.ended[i].failed))
    && (s.passes != [] ==>
          s.passes[0].caller != Persist(m) && !s.passes[0].caller.AtStart? &&
          (Processing(s.passes) ==> s.passes[0].caller != Recover(s.writeOffs)))
  }

  lemma WrittenSorted(arrivals: seq<Envelope>, stage: seq<Stage>, since: map<Account, nat>, file: seq<Msg>, m: Msg)
    requires Fifo(arrivals, stage) && FileLate(stage, file) && Sorted(arrivals, since, file)
    requires m < |stage| && stage[m] != Done && stage[m] != Queued && m !in file
    ensures Sorted(arrivals, since, file + [m])
  {
    forall e | e in file && SameAccount(arrivals, e, m) ensures e < m {
      assert Late(stage[e]);
    }
  }

  lemma WrittenAlone(arrivals: seq<Envelope>, stage: seq<Stage>, file: seq<Msg>, dirty: set<Account>, m: Msg)
    requires Fifo(arrivals, stage) && LoopIsAlone(arrivals, stage, file, dirty)
    requires m < |stage| && stage[m] == Appended
    ensures LoopIsAlone(arrivals, stage, file + [m], dirty)
  {
  }

  lemma WrittenOrder(s: State, m: Msg)
    requires OrderInv(s) && Fifo(s.arrivals, s.stage) && FileLate(s.stage, s.file) && PassShape(s.arrivals, s.file, s.passes)
    requires m < |s.stage| && s.stage[m] == Appended && m !in s.file && NobodyCounts(s, m)
    ensures OrderInv(s.(file := s.file + [m]))
  {
    WrittenSorted(s.arrivals, s.stage, s.past.since, s.file, m);
    WrittenAlone(s.arrivals, s.stage, s.file, s.past.dirty, m);
    forall u: Msg | Candidate(s.stage, s.file + [m], OutcomesOf(s.passes), u)
      ensures Candidate(s.stage, s.file, OutcomesOf(s.passes), u)
    {
      WrittenLeaving(s.file, s.stage, OutcomesOf(s.passes), m, u);
    }
    if Processing(s.passes) {
      var n := |s.passes[0].work.lines|;
      assert (s.file + [m])[n..] == s.file[n..] + [m];
    }
  }

  lemma AppendFacts(s: State, m: Msg)
    requires QueueInv(s) && PassInv(s) && LogInv(s) && s.fileTurn != [] && s.fileTurn[0] == Append(m)
    ensures m < |s.stage| && s.stage[m] == WritingOff && |s.stage| == |s.arrivals| && !s.starting
    ensures !s.guard.stopped ==> m !in s.file
    ensures Append(m) !in s.fileTurn[1..]
  {
    PopPass(s);
  }

  lemma NobodyDoesCount(s: State, m: Msg)
    requires PassInv(s) && OrderInv(s) && s.fileTurn != [] && s.fileTurn[0] == Append(m)
    requires m < |s.stage| && s.stage[m] == WritingOff
    ensures NobodyCounts(s, m)
  {
    assert s.fileTurn[0] in s.fileTurn && IsAppend(s.fileTurn[0]);
    assert forall i :: 0 <= i < |s.ended| ==> CallerHolds(s.stage, s.starting, s.writeOffs, s.ended[i].caller);
    assert s.passes != [] ==> CallerHolds(s.stage, s.starting, s.writeOffs, s.passes[0].caller);
  }

  lemma AppendPass(s: State, m: Msg, ok: bool)
    requires PassInv(s) && s.fileTurn != [] && s.fileTurn[0] == Append(m) && m < |s.stage| && s.stage[m] == WritingOff
    requires !s.starting
    ensures PassInv(FileStep(s, ok))
  {
    PopPass(s);
    var t, stage := Popped(s), s.stage[m := Appended];
    forall op | op in t.fileTurn ensures OpMatches(stage, t.passes, t.busy, op) {
      assert OpMatches(s.stage, s.passes, s.busy, op);
    }
    CallersMove(s.stage, s.starting, s.writeOffs, s.passes, s.ended, m, Appended);
    WrittenPass(WithStage(t, m, Appended), m, ok);
  }

  lemma AppendLog(s: State, m: Msg, ok: bool)
    requires LogInv(s) && m < |s.stage| && m < |s.arrivals| && s.stage[m] == WritingOff
    ensures LogInv(WithStage(Written(s, m, ok), m, Appended))
  {
    MoveLog(s, m, Appended);
    WrittenLog(WithStage(s, m, Appended), m, ok);
    LogFrameSame(Written(WithStage(s, m, Appended), m, ok), WithStage(Written(s, m, ok), m, Appended));
  }

  lemma AppendSafety(s: State, m: Msg, ok: bool)
    requires SafetyInv(s) && m < |s.stage| && m < |s.arrivals|
    ensures SafetyInv(WithStage(Written(s, m, ok), m, Appended))
  {
    WrittenSafety(s, m, ok);
    MoveSafety(Written(s, m, ok), m, Appended);
  }

  lemma AppendOrder(s: State, m: Msg, ok: bool)
    requires OrderInv(s) && Fifo(s.arrivals, s.stage) && FileLate(s.stage, s.file) && PassShape(s.arrivals, s.file, s.passes)
    requires m < |s.stage| && s.stage[m] == WritingOff && m !in s.file && NobodyCounts(s, m)
    ensures OrderInv(WithStage(Written(s, m, ok), m, Appended))
  {
    hide OrderInv, PassShape, NobodyCounts;
    var t := WithStage(s, m, Appended);
    CountsSame(s, t, m);
    MoveOrder(s, m, Appended);
    if ok {
      FifoMoves(s.arrivals, s.stage, m, Appended);
      FileMoves(s.stage, s.file, m, Appended);
      WrittenOrder(t, m);
      OrderFrame(t.(file := t.file + [m]), WithStage(Written(s, m, ok), m, Appended));
    } else {
      OrderFrame(t, WithStage(Written(s, m, ok), m, Appended));
    }
  }

  lemma OrderParts(s: State)
    requires QueueInv(s) && PassInv(s) && LogInv(s) && !s.guard.stopped
    ensures Fifo(s.arrivals, s.stage) && FileLate(s.stage, s.file) && PassShape(s.arrivals, s.file, s.passes)
    ensures !s.guard.stopped
  {
  }

  lemma AppendKeeps(s: State, m: Msg, ok: bool)
    requires Inv(s) && s.fileTurn != [] && s.fileTurn[0] == Append(m) && m < |s.stage|
    ensures Inv(FileStep(s, ok))
  {
    hide QueueInv, PassInv, LogInv, SafetyInv, EmissionInv, OrderInv, OnlyAppends, OnePassAtATime, OpMatches, NobodyCounts,
      Fifo, FileLate, PassShape;
    AppendFacts(s, m);
    PopKeeps(s);
    var t := Popped(s);
    MoveQueue(t, m, Appended);
    QueueFrame(WithStage(t, m, Appended), FileStep(s, ok));
    AppendPass(s, m, ok);
    AppendLog(t, m, ok);
    AppendSafety(t, m, ok);
    MoveEmission(t, m, Appended);
    EmissionFrame(WithStage(t, m, Appended), FileStep(s, ok));
    if !s.guard.stopped {
      OrderParts(s);
      NobodyDoesCount(s, m);
      CountsSame(s, t, m);
      AppendOrder(t, m, ok);
    }
  }

  lemma CountsSame(s: State, t: State, m: Msg)
    requires NobodyCounts(s, m) && t.ended == s.ended && t.passes == s.passes && t.writeOffs == s.writeOffs
    ensures NobodyCounts(t, m)
  {
  }

  // ── An append of `drain` ─────────────────────────────────────────

  lemma AppendLeftFacts(s: State, m: Msg)
    requires Inv(s) && s.fileTurn != [] && s.fileTurn[0] == AppendLeft(m)
    ensures s.busy == Some(m) && m in s.left && m < |s.arrivals| && s.guard.stopped && !s.starting
    ensures |s.stage| == |s.arrivals|
  {
    PopPass(s);
  }

  lemma AppendLeftPass(s: State, m: Msg, ok: bool)
    requires PassInv(s) && s.fileTurn != [] && s.fileTurn[0] == AppendLeft(m) && s.busy == Some(m) && !s.starting
    ensures PassInv(FileStep(s, ok))
  {
    PopPass(s);
    WrittenPass(Popped(s), m, ok);
    forall op | op in s.fileTurn[1..] ensures OpMatches(s.stage, s.passes, None, op) {
      assert OpMatches(s.stage, s.passes, s.busy, op);
    }
  }

  lemma AppendLeftLog(s: State, m: Msg, ok: bool)
    requires LogInv(s) && m in s.left && m < |s.stage| && m < |s.arrivals| && s.guard.stopped
    ensures LogInv(Written(s, m, ok).(left := s.left - {m}, busy := None))
  {
    WrittenLog(s, m, ok);
  }

  lemma AppendLeftSafety(s: State, m: Msg, ok: bool)
    requires SafetyInv(s) && m < |s.arrivals| && !s.drain.Drained?
    ensures SafetyInv(Written(s, m, ok).(left := s.left - {m}, busy := None))
  {
    WrittenSafety(s, m, ok);
  }

  lemma AppendLeftKeeps(s: State, m: Msg, ok: bool)
    requires Inv(s) && s.fileTurn != [] && s.fileTurn[0] == AppendLeft(m)
    ensures Inv(FileStep(s, ok))
  {
    hide QueueInv, PassInv, LogInv, SafetyInv, EmissionInv, OrderInv, OnlyAppends, OnePassAtATime, OpMatches;
    AppendLeftFacts(s, m);
    NotDrainedYet(s, m);
    PopKeeps(s);
    var t := Popped(s);
    QueueFrame(t, FileStep(s, ok));
    AppendLeftPass(s, m, ok);
    AppendLeftLog(t, m, ok);
    AppendLeftSafety(t, m, ok);
    EmissionFrame(t, FileStep(s, ok));
  }

  lemma NotDrainedYet(s: State, m: Msg)
    requires SafetyInv(s) && m in s.left
    ensures !s.drain.Drained?
  {
  }
}

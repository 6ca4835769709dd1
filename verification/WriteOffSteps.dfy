/** A refused message goes to the failed log, and to a pass of its own if the next of its account could overtake it. */
module WriteOffSteps {
  import opened Options
  import opened MessageStore
  import opened StoreGuard
  import opened InboundProtocol
  import opened ProtocolInvariants
  import opened Frames
  import opened LiveSteps

  // ── Asking for an append ─────────────────────────────────────────

  /** The write-off is counted and its append asked for in one go. */
  function Counted(s: State, op: FileOp): State {
    Ask(s.(writeOffs := s.writeOffs + 1), op)
  }

  lemma OpsAsk(stage: seq<Stage>, fileTurn: seq<FileOp>, passes: seq<Pass>, busy: Option<Msg>, op: FileOp)
    requires OpsMatch(stage, fileTurn, passes, busy) && OpMatches(stage, passes, busy, op) && op !in fileTurn
    ensures OpsMatch(stage, fileTurn + [op], passes, busy)
  {
  }

  lemma CallersCount(stage: seq<Stage>, starting: bool, writeOffs: nat, passes: seq<Pass>, ended: seq<Ended>)
    requires CallersHold(stage, starting, writeOffs, passes, ended)
    ensures CallersHold(stage, starting, writeOffs + 1, passes, ended)
  {
    forall i | 0 <= i < |passes| ensures CallerHolds(stage, starting, writeOffs + 1, passes[i].caller) {
      assert CallerHolds(stage, starting, writeOffs, passes[i].caller);
    }
    forall i | 0 <= i < |ended| ensures CallerHolds(stage, starting, writeOffs + 1, ended[i].caller) {
      assert CallerHolds(stage, starting, writeOffs, ended[i].caller);
    }
  }

  lemma CountedPass(s: State, op: FileOp)
    requires PassInv(s) && OpMatches(s.stage, s.passes, s.busy, op) && op !in s.fileTurn
    ensures PassInv(Counted(s, op))
  {
    OpsAsk(s.stage, s.fileTurn, s.passes, s.busy, op);
    CallersCount(s.stage, s.starting, s.writeOffs, s.passes, s.ended);
  }

  /** Every recovery under way started before this write-off was counted, so it will look again. */
  lemma RecoveriesAreBehind(stage: seq<Stage>, starting: bool, writeOffs: nat, file: seq<Msg>, fileTurn: seq<FileOp>,
                            passes: seq<Pass>, ended: seq<Ended>)
    requires CallersHold(stage, starting, writeOffs, passes, ended)
    ensures RecoverySawAll(writeOffs + 1, file, fileTurn, passes, ended)
  {
    assert forall i :: 0 <= i < |ended| ==> CallerHolds(stage, starting, writeOffs, ended[i].caller);
    assert passes != [] ==> CallerHolds(stage, starting, writeOffs, passes[0].caller);
  }

  lemma CountedOrder(s: State, op: FileOp)
    requires CallersHold(s.stage, s.starting, s.writeOffs, s.passes, s.ended) && OrderInv(s)
    ensures OrderInv(Counted(s, op))
  {
    RecoveriesAreBehind(s.stage, s.starting, s.writeOffs, s.file, s.fileTurn + [op], s.passes, s.ended);
  }

  lemma CountedKeeps(s: State, op: FileOp)
    requires Inv(s) && OpMatches(s.stage, s.passes, s.busy, op) && op !in s.fileTurn
    ensures Inv(Counted(s, op))
  {
    hide QueueInv, PassInv, LogInv, SafetyInv, EmissionInv, OrderInv, OpMatches;
    var t := Counted(s, op);
    QueueFrame(s, t);
    CountedPass(s, op);
    LogFrameSame(s, t);
    SafetyFrameSame(s, t);
    EmissionFrame(s, t);
    if !s.guard.stopped { CallersDoHold(s); CountedOrder(s, op); }
  }

  lemma CallersDoHold(s: State)
    requires PassInv(s)
    ensures CallersHold(s.stage, s.starting, s.writeOffs, s.passes, s.ended)
  {
  }

  lemma LogFrameSame(s: State, t: State)
    requires LogInv(s)
    requires t.arrivals == s.arrivals && t.stage == s.stage && t.file == s.file && t.left == s.left && t.ledger == s.ledger
    requires t.passes == s.passes && t.guard.stopped == s.guard.stopped && t.past.forgotten == s.past.forgotten
    ensures LogInv(t)
  {
    LogFrame(s, t);
  }

  lemma SafetyFrameSame(s: State, t: State)
    requires SafetyInv(s)
    requires t.arrivals == s.arrivals && t.stage == s.stage && t.left == s.left && t.ledger == s.ledger && t.file == s.file
    requires t.fates == s.fates && t.unsaved == s.unsaved && t.busy == s.busy && t.drain == s.drain && t.runStart == s.runStart
    requires t.passes == s.passes
    ensures SafetyInv(t)
  {
    SafetyFrame(s, t);
  }

  // ── A pass is asked for ──────────────────────────────────────────

  predicate MayCall(s: State, caller: Caller) {
    CallerHolds(s.stage, s.starting, s.writeOffs, caller) &&
    (forall i :: 0 <= i < |s.passes| ==> !SameCaller(s.passes[i].caller, caller)) &&
    (forall i :: 0 <= i < |s.ended| ==> !SameCaller(s.ended[i].caller, caller))
  }

  lemma StartPassShape(arrivals: seq<Envelope>, file: seq<Msg>, passes: seq<Pass>, caller: Caller)
    ensures Processing(passes + [Pass(caller, Turn)]) == Processing(passes)
    ensures PassShape(arrivals, file, passes) ==> PassShape(arrivals, file, passes + [Pass(caller, Turn)])
    ensures OutcomesOf(passes + [Pass(caller, Turn)]) == OutcomesOf(passes)
  {
  }

  lemma StartPassWaits(passes: seq<Pass>, ended: seq<Ended>, caller: Caller)
    requires WaitsOnce(passes, ended)
    requires forall i :: 0 <= i < |passes| ==> !SameCaller(passes[i].caller, caller)
    requires forall i :: 0 <= i < |ended| ==> !SameCaller(ended[i].caller, caller)
    ensures WaitsOnce(passes + [Pass(caller, Turn)], ended)
  {
  }

  lemma StartPassOps(stage: seq<Stage>, fileTurn: seq<FileOp>, passes: seq<Pass>, busy: Option<Msg>, caller: Caller)
    requires OpsMatch(stage, fileTurn, passes, busy)
    ensures OpsMatch(stage, fileTurn, passes + [Pass(caller, Turn)], busy)
  {
    forall op | op in fileTurn ensures OpMatches(stage, passes + [Pass(caller, Turn)], busy, op) {
      assert OpMatches(stage, passes, busy, op);
    }
  }

  lemma StartPassRecovery(g: Guard, passes: seq<Pass>, ended: seq<Ended>, caller: Caller)
    requires RecoveryRuns(g, passes, ended) || caller.Recover?
    ensures RecoveryRuns(g, passes + [Pass(caller, Turn)], ended)
  {
    var more := passes + [Pass(caller, Turn)];
    assert more[|passes|].caller == caller;
    assert forall i :: 0 <= i < |passes| ==> more[i] == passes[i];
  }

  lemma StartPassPass(s: State, caller: Caller)
    requires PassInv(s) && MayCall(s, caller)
    ensures PassInv(StartPass(s, caller))
  {
    StartPassOps(s.stage, s.fileTurn, s.passes, s.busy, caller);
    StartPassShape(s.arrivals, s.file, s.passes, caller);
    StartPassWaits(s.passes, s.ended, caller);
    StartPassRecovery(s.guard, s.passes, s.ended, caller);
  }

  lemma StartPassOrder(s: State, caller: Caller)
    requires OrderInv(s)
    ensures OrderInv(StartPass(s, caller))
  {
    StartPassShape(s.arrivals, s.file, s.passes, caller);
  }

  lemma StartPassOther(s: State, caller: Caller)
    ensures LogInv(s) ==> LogInv(StartPass(s, caller))
    ensures SafetyInv(s) ==> SafetyInv(StartPass(s, caller))
  {
    if LogInv(s) { LogFrame(s, StartPass(s, caller)); }
    if SafetyInv(s) { SafetyFrame(s, StartPass(s, caller)); }
  }

  lemma StartPassKeeps(s: State, caller: Caller)
    requires Inv(s) && MayCall(s, caller)
    ensures Inv(StartPass(s, caller))
  {
    hide QueueInv, PassInv, LogInv, SafetyInv, EmissionInv, OrderInv, MayCall;
    var t := StartPass(s, caller);
    QueueFrame(s, t);
    StartPassPass(s, caller);
    StartPassOther(s, caller);
    EmissionFrame(s, t);
    if !s.guard.stopped { StartPassOrder(s, caller); }
  }

  // ── Refused ──────────────────────────────────────────────────────

  lemma RefusedFacts(s: State, m: Msg)
    requires Inv(s) && m < |s.stage| && s.stage[m] == Refusing
    ensures |s.stage| == |s.arrivals| && Append(m) !in s.fileTurn && MayCall(WithStage(s, m, Replaying), Persist(m))
    ensures m !in s.unsaved ==> m in s.left || m in s.fates.died || Safe(s.arrivals, s.ledger.handed, s.file, s.fates, m)
  {
    assert forall op :: op in s.fileTurn ==> OpMatches(s.stage, s.passes, s.busy, op);
    NobodyWaitsFor(s, m);
  }

  lemma NobodyWaitsFor(s: State, m: Msg)
    requires PassInv(s) && m < |s.stage| && s.stage[m] != Replaying
    ensures MayCall(WithStage(s, m, Replaying), Persist(m))
  {
    assert forall i :: 0 <= i < |s.passes| ==> CallerHolds(s.stage, s.starting, s.writeOffs, s.passes[i].caller);
    assert forall i :: 0 <= i < |s.ended| ==> CallerHolds(s.stage, s.starting, s.writeOffs, s.ended[i].caller);
  }

  lemma WriteOffKeeps(s: State, m: Msg)
    requires Inv(s) && m < |s.stage| && s.stage[m] == Refusing
    ensures Inv(WriteOff(s, m))
  {
    hide Inv, MayCall, Safe;
    RefusedFacts(s, m);
    if m in s.unsaved {
      MoveKeeps(s, m, WritingOff);
      CountedKeeps(WithStage(s, m, WritingOff), Append(m));
    } else if TakingDirectly(s.guard) {
      MoveKeeps(s, m, Replaying);
      StartPassKeeps(WithStage(s, m, Replaying), Persist(m));
    } else {
      MoveKeeps(s, m, WrittenOff);
    }
  }

  // ── Its append is over ───────────────────────────────────────────

  lemma AppendedFacts(s: State, m: Msg)
    requires Inv(s) && m < |s.stage| && s.stage[m] == Appended
    ensures |s.stage| == |s.arrivals| && MayCall(WithStage(s, m, Replaying), Persist(m))
  {
    NobodyWaitsFor(s, m);
  }

  lemma ForgottenKeeps(s: State, m: Msg)
    requires Inv(s) && m < |s.stage| && s.stage[m] == Appended
    ensures Inv(s.(unsaved := s.unsaved - {m}))
  {
    var t := s.(unsaved := s.unsaved - {m});
    LogFrame(s, t);
    EmissionFrame(s, t);
    if !s.guard.stopped { OrderFrame(s, t); }
  }

  lemma AppendEndsKeeps(s: State, m: Msg)
    requires Inv(s) && m < |s.stage| && s.stage[m] == Appended
    ensures Inv(AppendEnds(s, m))
  {
    hide Inv, MayCall, Safe;
    ForgottenKeeps(s, m);
    var t := s.(unsaved := s.unsaved - {m});
    AppendedFacts(t, m);
    if TakingDirectly(s.guard) {
      MoveKeeps(t, m, Replaying);
      StartPassKeeps(WithStage(t, m, Replaying), Persist(m));
    } else {
      MoveKeeps(t, m, WrittenOff);
    }
  }
}

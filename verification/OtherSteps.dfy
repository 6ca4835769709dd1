/** Whoever waited for a pass goes on; the probe, the timer, the shutdown, retention and crashes. */
module OtherSteps {
  import opened StoreGuard
  import opened InboundProtocol
  import opened ProtocolInvariants
  import opened StageLemmas
  import opened Frames
  import opened LiveSteps
  import opened WriteOffSteps
  import opened EndSteps

  // ── A finished pass is dealt with ────────────────────────────────

  function Without(ended: seq<Ended>, i: nat): seq<Ended>
    requires i < |ended|
  {
    ended[..i] + ended[i + 1..]
  }

  lemma WithoutMembers(ended: seq<Ended>, i: nat)
    requires i < |ended|
    ensures |Without(ended, i)| == |ended| - 1
    ensures forall j :: 0 <= j < |Without(ended, i)| ==> Without(ended, i)[j] == ended[if j < i then j else j + 1]
  {
  }

  lemma WithoutHolds(stage: seq<Stage>, starting: bool, writeOffs: nat, passes: seq<Pass>, ended: seq<Ended>, i: nat)
    requires i < |ended| && CallersHold(stage, starting, writeOffs, passes, ended) && WaitsOnce(passes, ended)
    ensures CallersHold(stage, starting, writeOffs, passes, Without(ended, i)) && WaitsOnce(passes, Without(ended, i))
    ensures forall j :: 0 <= j < |Without(ended, i)| ==> !SameCaller(Without(ended, i)[j].caller, ended[i].caller)
    ensures forall j :: 0 <= j < |passes| ==> !SameCaller(passes[j].caller, ended[i].caller)
  {
    WithoutMembers(ended, i);
  }

  lemma WithoutOrder(s: State, i: nat)
    requires OrderInv(s) && i < |s.ended|
    ensures OrderInv(WithoutEnded(s, i))
  {
    WithoutMembers(s.ended, i);
    assert WithoutEnded(s, i).ended == Without(s.ended, i);
  }

  lemma WithoutPass(s: State, i: nat)
    requires PassInv(s) && i < |s.ended|
    requires IsRecovering(s.guard) && s.ended[i].caller.Recover? ==> exists j :: 0 <= j < |s.passes| && s.passes[j].caller.Recover?
    ensures PassInv(WithoutEnded(s, i))
  {
    WithoutHolds(s.stage, s.starting, s.writeOffs, s.passes, s.ended, i);
    WithoutMembers(s.ended, i);
    if IsRecovering(s.guard) && !(exists j :: 0 <= j < |s.passes| && s.passes[j].caller.Recover?) {
      var j :| 0 <= j < |s.ended| && s.ended[j].caller.Recover?;
      var at := if j < i then j else j - 1;
      assert Without(s.ended, i)[at].caller.Recover?;
    }
  }

  lemma WithoutKeeps(s: State, i: nat)
    requires Inv(s) && i < |s.ended|
    requires IsRecovering(s.guard) && s.ended[i].caller.Recover? ==> exists j :: 0 <= j < |s.passes| && s.passes[j].caller.Recover?
    ensures Inv(WithoutEnded(s, i))
  {
    hide QueueInv, PassInv, LogInv, SafetyInv, EmissionInv, OrderInv;
    var t := WithoutEnded(s, i);
    QueueFrame(s, t);
    WithoutPass(s, i);
    LogFrameSame(s, t);
    SafetyFrameSame(s, t);
    EmissionFrame(s, t);
    if !s.guard.stopped { WithoutOrder(s, i); }
  }

  // ── The circuit closes ───────────────────────────────────────────

  function Closing(s: State, i: nat): State
    requires i < |s.ended|
  {
    WithDirty(s, AccountsOf(s.arrivals, if s.ended[i].failed then s.file else s.ended[i].kept)).(guard := FinishRecovery(s.guard))
  }

  /** What the failed log still holds when the circuit closes is what the closing pass kept. */
  lemma ClosingOrder(s: State, i: nat)
    requires OrderInv(s) && FileKnown(s.arrivals, s.file) && IsRecovering(s.guard) && i < |s.ended|
    requires s.ended[i].caller.Recover? && (s.ended[i].failed || s.ended[i].caller.startedAt == s.writeOffs)
    ensures OrderInv(Closing(s, i))
  {
    var e, t := s.ended[i], Closing(s, i);
    DirtyCovers(s.arrivals, if e.failed then s.file else e.kept);
    assert forall m :: m in s.file ==> m < |s.arrivals| && (e.failed || m in e.kept);
    assert forall m :: m in s.file ==> s.arrivals[m].account in t.past.dirty;
  }

  lemma ClosingKeeps(s: State, i: nat)
    requires Inv(s) && IsRecovering(s.guard) && i < |s.ended|
    requires s.ended[i].caller.Recover? && (s.ended[i].failed || s.ended[i].caller.startedAt == s.writeOffs)
    ensures Inv(Closing(s, i))
  {
    hide PassInv, LogInv, SafetyInv, EmissionInv, OrderInv, FileKnown;
    var t := Closing(s, i);
    ClosingPass(s, i);
    LogFrameSame(s, t);
    SafetyFrameSame(s, t);
    EmissionFrame(s, t);
    if !s.guard.stopped {
      FileIsKnown(s);
      ClosingOrder(s, i);
    }
  }

  lemma ClosingPass(s: State, i: nat)
    requires PassInv(s) && i < |s.ended| && IsRecovering(s.guard)
    ensures PassInv(Closing(s, i))
  {
  }

  lemma FileIsKnown(s: State)
    requires LogInv(s)
    ensures FileKnown(s.arrivals, s.file)
  {
  }

  lemma LoopGoesOnKeeps(s: State, i: nat)
    requires Inv(s) && i < |s.ended| && s.ended[i].caller.Recover?
    ensures Inv(LoopGoesOn(s, i))
  {
    hide Inv;
    if PassesAgain(s, i) {
      var t := StartPass(s, Recover(s.writeOffs));
      StartPassKeeps(s, Recover(s.writeOffs));
      assert t.passes[|s.passes|].caller.Recover?;
      WithoutKeeps(t, i);
    } else if IsRecovering(s.guard) {
      ClosingKeeps(s, i);
      WithoutKeeps(Closing(s, i), i);
    } else {
      WithoutKeeps(s, i);
    }
  }

  /** How many recoveries are resuming media matters to nothing else. */
  lemma ResumingIsNothing(s: State, resuming: nat)
    requires Inv(s)
    ensures Inv(s.(resuming := resuming))
  {
    hide QueueInv, PassInv, LogInv, SafetyInv, EmissionInv, OrderInv;
    var t := s.(resuming := resuming);
    QueueFrame(s, t);
    PassFrame(s, t);
    LogFrameSame(s, t);
    SafetyFrameSame(s, t);
    EmissionFrame(s, t);
    if !s.guard.stopped { OrderFrame(s, t); }
  }

  lemma RecoverGoesOnKeeps(s: State, i: nat, stored: bool)
    requires Inv(s) && i < |s.ended| && s.ended[i].caller.Recover?
    ensures Inv(RecoverGoesOn(s, i, stored))
  {
    hide Inv, LoopGoesOn, PassesAgain;
    LoopGoesOnKeeps(s, i);
    var t := LoopGoesOn(s, i);
    ResumingIsNothing(t, t.resuming + 1);
  }

  // ── The circuit closes in the middle of a recovery ───────────────

  /** Nothing is known of what a pass saw, but whatever the file holds is of an account in disorder. */
  lemma ClosedMeanwhileOrder(s: State)
    requires OrderInv(s) && FileKnown(s.arrivals, s.file) && IsRecovering(s.guard)
    ensures OrderInv(ClosedMeanwhile(s))
  {
    DirtyCovers(s.arrivals, s.file);
    assert forall m :: m in s.file ==> s.arrivals[m].account in ClosedMeanwhile(s).past.dirty;
  }

  lemma ClosedMeanwhileKeeps(s: State)
    requires Inv(s) && IsRecovering(s.guard)
    ensures Inv(ClosedMeanwhile(s))
  {
    hide LogInv, SafetyInv, EmissionInv, OrderInv, FileKnown;
    var t := ClosedMeanwhile(s);
    LogFrameSame(s, t);
    SafetyFrameSame(s, t);
    EmissionFrame(s, t);
    FileIsKnown(s);
    ClosedMeanwhileOrder(s);
  }

  lemma ResumeEndsKeeps(s: State, failed: bool)
    requires Inv(s) && s.resuming > 0
    ensures Inv(ResumeEnds(s, failed))
  {
    hide Inv, ClosedMeanwhile;
    var t := s.(resuming := s.resuming - 1);
    ResumingIsNothing(s, s.resuming - 1);
    if failed && IsRecovering(s.guard) { ClosedMeanwhileKeeps(t); }
  }

  // ── A write-off with a pass of its own goes on ───────────────────

  lemma FreeCallersMove(stage: seq<Stage>, starting: bool, writeOffs: nat, passes: seq<Pass>, ended: seq<Ended>, m: Msg, to: Stage)
    requires CallersHold(stage, starting, writeOffs, passes, ended) && m < |stage|
    requires forall i :: 0 <= i < |passes| ==> passes[i].caller != Persist(m)
    requires forall i :: 0 <= i < |ended| ==> ended[i].caller != Persist(m)
    ensures CallersHold(stage[m := to], starting, writeOffs, passes, ended)
  {
    forall i | 0 <= i < |passes| ensures CallerHolds(stage[m := to], starting, writeOffs, passes[i].caller) {
      assert CallerHolds(stage, starting, writeOffs, passes[i].caller);
    }
    forall i | 0 <= i < |ended| ensures CallerHolds(stage[m := to], starting, writeOffs, ended[i].caller) {
      assert CallerHolds(stage, starting, writeOffs, ended[i].caller);
    }
  }

  lemma PersistedPass(s: State, i: nat, m: Msg)
    requires PassInv(s) && i < |s.ended| && s.ended[i].caller == Persist(m) && m < |s.stage| && s.stage[m] == Replaying
    ensures PassInv(WithStage(WithoutEnded(s, i), m, WrittenOff))
  {
    WithoutPass(s, i);
    WithoutHolds(s.stage, s.starting, s.writeOffs, s.passes, s.ended, i);
    var t := WithoutEnded(s, i);
    assert t.ended == Without(s.ended, i);
    OpsMove(s.stage, s.fileTurn, s.passes, s.busy, m, WrittenOff);
    FreeCallersMove(s.stage, s.starting, s.writeOffs, s.passes, t.ended, m, WrittenOff);
  }

  lemma PersistedOrder(s: State, i: nat, m: Msg)
    requires OrderInv(s) && i < |s.ended| && s.ended[i].caller == Persist(m) && m < |s.stage| && s.stage[m] == Replaying
    requires |s.stage| == |s.arrivals|
    ensures OrderInv(WithStage(WithoutEnded(s, i), m, WrittenOff))
  {
    WithoutOrder(s, i);
    OvertakingMoves(s.arrivals, s.stage, s.file, OutcomesOf(s.passes), s.ledger, s.past, m, WrittenOff);
    LoopMoves(s.arrivals, s.stage, s.file, s.past.dirty, m, WrittenOff);
    if s.guard.phase == Closed && !s.starting { ClosedMoves(s.arrivals, s.stage, s.file, s.past.dirty, m, WrittenOff); }
  }

  lemma PersistFacts(s: State, i: nat, m: Msg)
    requires Inv(s) && i < |s.ended| && s.ended[i].caller == Persist(m)
    ensures m < |s.stage| == |s.arrivals| && s.stage[m] == Replaying
  {
    assert CallerHolds(s.stage, s.starting, s.writeOffs, s.ended[i].caller);
  }

  lemma PersistGoesOnKeeps(s: State, i: nat)
    requires Inv(s) && i < |s.ended| && s.ended[i].caller.Persist? && s.ended[i].caller.m < |s.stage|
    ensures Inv(PersistGoesOn(s, i))
  {
    hide QueueInv, PassInv, LogInv, SafetyInv, EmissionInv, OrderInv;
    var m := s.ended[i].caller.m;
    PersistFacts(s, i, m);
    var t := WithoutEnded(s, i);
    QueueFrame(s, t);
    MoveQueue(t, m, WrittenOff);
    PersistedPass(s, i, m);
    LogFrameSame(s, t);
    MoveLog(t, m, WrittenOff);
    SafetyFrameSame(s, t);
    MoveSafety(t, m, WrittenOff);
    EmissionFrame(s, t);
    MoveEmission(t, m, WrittenOff);
    if !s.guard.stopped { PersistedOrder(s, i, m); }
  }

  // ── The start is over ────────────────────────────────────────────

  lemma StartedPass(s: State, i: nat)
    requires PassInv(s) && i < |s.ended| && s.ended[i].caller == AtStart
    ensures PassInv(StartGoesOn(s, i))
  {
    WithoutPass(s, i);
    WithoutHolds(s.stage, s.starting, s.writeOffs, s.passes, s.ended, i);
    var t := StartGoesOn(s, i);
    assert t.ended == Without(s.ended, i);
    forall j | 0 <= j < |t.passes| ensures CallerHolds(t.stage, false, t.writeOffs, t.passes[j].caller) {
      assert CallerHolds(s.stage, s.starting, s.writeOffs, s.passes[j].caller);
    }
    forall j | 0 <= j < |t.ended| ensures CallerHolds(t.stage, false, t.writeOffs, t.ended[j].caller) {
      assert CallerHolds(t.stage, s.starting, t.writeOffs, t.ended[j].caller);
    }
  }

  lemma StartedOrder(s: State, i: nat)
    requires OrderInv(s) && i < |s.ended| && s.ended[i].caller == AtStart && FileKnown(s.arrivals, s.file)
    ensures OrderInv(StartGoesOn(s, i))
  {
    WithoutOrder(s, i);
  }

  lemma StartGoesOnKeeps(s: State, i: nat)
    requires Inv(s) && i < |s.ended| && s.ended[i].caller == AtStart
    ensures Inv(StartGoesOn(s, i))
  {
    hide QueueInv, PassInv, LogInv, SafetyInv, EmissionInv, OrderInv, FileKnown;
    var t := StartGoesOn(s, i);
    QueueFrame(s, t);
    StartedPass(s, i);
    LogFrameSame(s, t);
    SafetyFrameSame(s, t);
    EmissionFrame(s, t);
    if !s.guard.stopped {
      FileIsKnown(s);
      StartedOrder(s, i);
    }
  }

  // ── Timers and the probe ─────────────────────────────────────────

  lemma HeldTimerKeeps(s: State)
    requires Inv(s)
    ensures Inv(HeldTimerFires(s))
  {
    hide Inv;
    HeldTimerIsNothing(s);
    StartPassKeeps(s.(heldTimer := false), Timer);
  }

  lemma HeldTimerIsNothing(s: State)
    requires Inv(s)
    ensures Inv(s.(heldTimer := false))
  {
    hide QueueInv, PassInv, LogInv, SafetyInv, EmissionInv, OrderInv;
    var t := s.(heldTimer := false);
    QueueFrame(s, t);
    PassFrame(s, t);
    LogFrameSame(s, t);
    SafetyFrameSame(s, t);
    EmissionFrame(s, t);
    if !s.guard.stopped { OrderFrame(s, t); }
  }

  lemma GuardKeeps(s: State, g: Guard)
    requires Inv(s) && Probing(g) && g.stopped == s.guard.stopped && RecoveryRuns(g, s.passes, s.ended)
    requires g.phase == Closed ==> s.guard.phase == Closed
    ensures Inv(s.(guard := g))
  {
    hide LogInv, SafetyInv, EmissionInv, OrderInv;
    var t := s.(guard := g);
    LogFrameSame(s, t);
    SafetyFrameSame(s, t);
    EmissionFrame(s, t);
    if !s.guard.stopped { OrderFrame(s, t); }
  }

  lemma ProbeFiresKeeps(s: State)
    requires Inv(s) && s.guard.probe == Pending
    ensures Inv(ProbeFires(s))
  {
    GuardKeeps(s, ProbeTimerFires(s.guard));
  }

  lemma ProbeAnswersKeeps(s: State, written: bool)
    requires Inv(s) && s.guard.probe == InFlight
    ensures Inv(ProbeAnswers(s, written))
  {
    var g := ProbeEnds(s.guard, written);
    if Answers(s.guard, written) {
      var t := StartPass(s, Recover(s.writeOffs));
      StartPassKeeps(s, Recover(s.writeOffs));
      assert t.passes[|s.passes|].caller.Recover?;
      GuardKeeps(t, g);
    } else {
      GuardKeeps(s, g);
    }
  }
}

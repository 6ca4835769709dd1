/** A pass works through what it read. */
module WorkSteps {
  import opened MessageStore
  import opened StoreGuard
  import opened InboundProtocol
  import opened ProtocolInvariants
  import opened Frames
  import opened WriteOffSteps
  import opened FileSteps
  import opened EndSteps

  function Reworked(passes: seq<Pass>, work: Work): seq<Pass>
    requires passes != []
  {
    passes[0 := passes[0].(work := work)]
  }

  // ── A pass changes its work ──────────────────────────────────────

  lemma WorkPass(s: State, work: Work)
    requires PassInv(s) && s.passes != [] && OnlyAppends(s.fileTurn)
    requires PassShape(s.arrivals, s.file, Reworked(s.passes, work))
    ensures PassInv(WithWork(s, work))
  {
    var more := Reworked(s.passes, work);
    forall op | op in s.fileTurn ensures OpMatches(s.stage, more, s.busy, op) {
      assert OpMatches(s.stage, s.passes, s.busy, op);
    }
    assert forall i :: 0 <= i < |more| ==> more[i].caller == s.passes[i].caller;
    CallersRework(s.stage, s.starting, s.writeOffs, s.passes, s.ended, work);
    RecoveryReworks(s.guard, s.passes, s.ended, work);
  }

  lemma CallersRework(stage: seq<Stage>, starting: bool, writeOffs: nat, passes: seq<Pass>, ended: seq<Ended>, work: Work)
    requires CallersHold(stage, starting, writeOffs, passes, ended) && WaitsOnce(passes, ended) && passes != []
    ensures CallersHold(stage, starting, writeOffs, Reworked(passes, work), ended) && WaitsOnce(Reworked(passes, work), ended)
  {
    var more := Reworked(passes, work);
    assert forall i :: 0 <= i < |more| ==> more[i].caller == passes[i].caller;
  }

  lemma RecoveryReworks(g: Guard, passes: seq<Pass>, ended: seq<Ended>, work: Work)
    requires RecoveryRuns(g, passes, ended) && passes != []
    ensures RecoveryRuns(g, Reworked(passes, work), ended)
  {
    var more := Reworked(passes, work);
    assert forall i :: 0 <= i < |more| ==> more[i].caller == passes[i].caller;
    if IsRecovering(g) {
      if i :| 0 <= i < |passes| && passes[i].caller.Recover? { assert more[i].caller.Recover?; }
    }
  }

  /** What may still get a number cannot grow, and what the recovery has seen must stay seen. */
  ghost predicate WorksInOrder(s: State, work: Work) {
    s.passes != [] &&
    var more := Reworked(s.passes, work);
    && (forall i: nat :: Leaving(OutcomesOf(s.passes), i) ==> Leaving(OutcomesOf(more), i))
    && PassReadItsOwn(s.file, more)
    && (more[0].caller == Recover(s.writeOffs) ==>
          && (work.Reading? ==> AppendsBeforeRead(s.fileTurn))
          && (Processing(more) ==> NoAppends(s.fileTurn) && |work.lines| == |s.file|))
  }

  lemma WorkOrder(s: State, work: Work)
    requires OrderInv(s) && WorksInOrder(s, work)
    ensures OrderInv(WithWork(s, work))
  {
    var more := Reworked(s.passes, work);
    forall u: Msg | Candidate(s.stage, s.file, OutcomesOf(more), u) ensures Candidate(s.stage, s.file, OutcomesOf(s.passes), u) {
    }
  }

  lemma WorkKeeps(s: State, work: Work)
    requires Inv(s) && s.passes != [] && OnlyAppends(s.fileTurn)
    requires PassShape(s.arrivals, s.file, Reworked(s.passes, work))
    requires LineIsLate(s.stage, Reworked(s.passes, work))
    requires OutcomesHold(s.arrivals, s.ledger.handed, s.fates, Reworked(s.passes, work))
    requires !s.guard.stopped ==> WorksInOrder(s, work)
    ensures Inv(WithWork(s, work))
  {
    hide QueueInv, PassInv, LogInv, SafetyInv, EmissionInv, OrderInv, OnlyAppends, PassShape, LineIsLate, OutcomesHold, WorksInOrder;
    var t := WithWork(s, work);
    QueueFrame(s, t);
    WorkPass(s, work);
    LogFrame(s, t);
    SafetyFrame(s, t);
    EmissionFrame(s, t);
    if !s.guard.stopped { WorkOrder(s, work); }
  }

  /** While a pass neither reads nor writes, only appends wait for the file. */
  lemma OnlyAppendsWait(s: State)
    requires PassInv(s) && s.passes != [] && (s.passes[0].work.Turn? || s.passes[0].work.Running?)
    ensures OnlyAppends(s.fileTurn)
  {
    assert forall op :: op in s.fileTurn ==> OpMatches(s.stage, s.passes, s.busy, op);
  }

  // ── The pass asks for the file ───────────────────────────────────

  lemma AskOrder(s: State, op: FileOp)
    requires OrderInv(s) && !IsAppend(op)
    ensures OrderInv(Ask(s, op))
  {
  }

  lemma AskPass(s: State, op: FileOp)
    requires PassInv(s) && OpMatches(s.stage, s.passes, s.busy, op) && op !in s.fileTurn
    ensures PassInv(Ask(s, op))
  {
    OpsAsk(s.stage, s.fileTurn, s.passes, s.busy, op);
  }

  lemma AskKeeps(s: State, op: FileOp)
    requires Inv(s) && !IsAppend(op) && OpMatches(s.stage, s.passes, s.busy, op) && OnlyAppends(s.fileTurn)
    ensures Inv(Ask(s, op))
  {
    hide QueueInv, PassInv, LogInv, SafetyInv, EmissionInv, OrderInv, OpMatches;
    var t := Ask(s, op);
    QueueFrame(s, t);
    AskPass(s, op);
    LogFrameSame(s, t);
    SafetyFrameSame(s, t);
    EmissionFrame(s, t);
    if !s.guard.stopped { AskOrder(s, op); }
  }

  lemma BeginFacts(s: State)
    requires Inv(s) && s.passes != [] && s.passes[0].work.Turn?
    ensures OnlyAppends(s.fileTurn)
    ensures PassShape(s.arrivals, s.file, Reworked(s.passes, Reading)) && LineIsLate(s.stage, Reworked(s.passes, Reading))
    ensures OutcomesHold(s.arrivals, s.ledger.handed, s.fates, Reworked(s.passes, Reading))
    ensures WorksInOrder(s, Reading)
  {
    OnlyAppendsWait(s);
    forall i | 0 <= i < |s.fileTurn| ensures s.fileTurn[i] != Read {
      assert s.fileTurn[i] in s.fileTurn;
    }
  }

  lemma BeginKeeps(s: State)
    requires Inv(s) && s.passes != [] && s.passes[0].work.Turn?
    ensures Inv(BeginPass(s))
  {
    hide Inv, OnlyAppends, PassShape, LineIsLate, OutcomesHold, WorksInOrder;
    BeginFacts(s);
    WorkKeeps(s, Reading);
    AskKeeps(WithWork(s, Reading), Read);
  }

  lemma GivenKeeps(s: State, given: seq<(nat, nat)>)
    requires Inv(s)
    ensures Inv(WithGiven(s, given))
  {
    hide QueueInv, PassInv, LogInv, SafetyInv, EmissionInv, OrderInv;
    var t := WithGiven(s, given);
    QueueFrame(s, t);
    PassFrame(s, t);
    LogFrameSame(s, t);
    SafetyFrameSame(s, t);
    EmissionFrame(s, t);
    if !s.guard.stopped { OrderFrame(s, t); }
  }

  // ── The file has been read ───────────────────────────────────────

  lemma ReadFacts(s: State)
    requires Inv(s) && s.fileTurn != [] && s.fileTurn[0] == Read && s.passes != [] && s.passes[0].work.Reading?
    ensures var w := Running(s.file, [], Next);
      && PassShape(s.arrivals, s.file, Reworked(s.passes, w)) && LineIsLate(s.stage, Reworked(s.passes, w))
      && OutcomesHold(s.arrivals, s.ledger.handed, s.fates, Reworked(s.passes, w))
      && (!s.guard.stopped ==> WorksInOrder(Popped(s), w))
  {
    var w := Running(s.file, [], Next);
    var more := Reworked(s.passes, w);
    assert !s.guard.stopped && more[0].caller == Recover(s.writeOffs) ==> NoAppends(s.fileTurn[1..]) by {
      if !s.guard.stopped && more[0].caller == Recover(s.writeOffs) {
        assert AppendsBeforeRead(s.fileTurn);
        assert forall i :: 0 <= i < |s.fileTurn[1..]| ==> s.fileTurn[1..][i] == s.fileTurn[i + 1];
      }
    }
  }

  lemma ReadKeeps(s: State, ok: bool)
    requires Inv(s) && s.fileTurn != [] && s.fileTurn[0] == Read && s.passes != [] && s.passes[0].work.Reading?
    ensures Inv(FileStep(s, ok))
  {
    hide Inv, OnlyAppends, OnePassAtATime, PassShape, LineIsLate, OutcomesHold, WorksInOrder, LeftBehind;
    PopKeeps(s);
    if ok {
      ReadFacts(s);
      WorkKeeps(Popped(s), Running(s.file, [], Next));
      GivenKeeps(WithWork(Popped(s), Running(s.file, [], Next)), []);
    } else {
      FailKeeps(Popped(s));
    }
  }

  lemma FailKeeps(s: State)
    requires Inv(s) && s.passes != [] && OnePassAtATime(s.passes) && OnlyAppends(s.fileTurn)
    ensures Inv(EndPass(s, [], true))
  {
    hide Inv, OnlyAppends, OnePassAtATime;
    EndWithKeeps(s, s.file, [], true);
    assert s.(file := s.file) == s;
  }

  // ── An entry after another ───────────────────────────────────────

  /** The pass works on a line. */
  predicate OnLine(s: State, line: Line) {
    RunningLine(s) && s.passes[0].work.line == line
  }

  function CurrentLine(s: State): Msg
    requires RunningLine(s)
  {
    s.passes[0].work.lines[|s.passes[0].work.outcomes|]
  }

  function WorkAfter(s: State, outcome: Outcome): Work
    requires RunningLine(s)
  {
    Running(s.passes[0].work.lines, s.passes[0].work.outcomes + [outcome], Next)
  }

  lemma SuffixGrows(arrivals: seq<Envelope>, lines: seq<Msg>, outcomes: seq<Outcome>, outcome: Outcome)
    requires KeptIsSuffix(arrivals, lines, outcomes) && |outcomes| < |lines|
    requires HeldBack(arrivals, lines, outcomes, lines[|outcomes|]) ==> outcome == Kept
    ensures KeptIsSuffix(arrivals, lines, outcomes + [outcome])
  {
  }

  lemma OutcomeShape(s: State, outcome: Outcome)
    requires PassInv(s) && RunningLine(s)
    requires HeldBack(s.arrivals, s.passes[0].work.lines, s.passes[0].work.outcomes, CurrentLine(s)) ==> outcome == Kept
    ensures PassShape(s.arrivals, s.file, Reworked(s.passes, WorkAfter(s, outcome)))
    ensures LineIsLate(s.stage, Reworked(s.passes, WorkAfter(s, outcome)))
    ensures OnlyAppends(s.fileTurn)
  {
    SuffixGrows(s.arrivals, s.passes[0].work.lines, s.passes[0].work.outcomes, outcome);
    OnlyAppendsWait(s);
  }

  lemma OutcomeOrder(s: State, outcome: Outcome)
    requires OrderInv(s) && RunningLine(s)
    ensures WorksInOrder(s, WorkAfter(s, outcome))
  {
  }

  lemma OutcomeHolds(s: State, outcome: Outcome)
    requires SafetyInv(s) && RunningLine(s)
    requires outcome == Left ==> InLog(s.arrivals, s.ledger.handed, CurrentLine(s)) || CurrentLine(s) in s.fates.discarded ||
                                 CurrentLine(s) in s.fates.repeated
    ensures OutcomesHold(s.arrivals, s.ledger.handed, s.fates, Reworked(s.passes, WorkAfter(s, outcome)))
  {
  }

  lemma OutcomeFacts(s: State, outcome: Outcome)
    requires Inv(s) && RunningLine(s)
    requires HeldBack(s.arrivals, s.passes[0].work.lines, s.passes[0].work.outcomes, CurrentLine(s)) ==> outcome == Kept
    requires outcome == Left ==> InLog(s.arrivals, s.ledger.handed, CurrentLine(s)) || CurrentLine(s) in s.fates.discarded ||
                                 CurrentLine(s) in s.fates.repeated
    ensures PassShape(s.arrivals, s.file, Reworked(s.passes, WorkAfter(s, outcome)))
    ensures LineIsLate(s.stage, Reworked(s.passes, WorkAfter(s, outcome)))
    ensures OnlyAppends(s.fileTurn)
    ensures OutcomesHold(s.arrivals, s.ledger.handed, s.fates, Reworked(s.passes, WorkAfter(s, outcome)))
    ensures !s.guard.stopped ==> WorksInOrder(s, WorkAfter(s, outcome))
  {
    hide PassInv, SafetyInv, OrderInv, QueueInv, LogInv, EmissionInv;
    OutcomeShape(s, outcome);
    OutcomeHolds(s, outcome);
    if !s.guard.stopped { OutcomeOrder(s, outcome); }
  }

  lemma OutcomeKeeps(s: State, outcome: Outcome)
    requires Inv(s) && RunningLine(s)
    requires HeldBack(s.arrivals, s.passes[0].work.lines, s.passes[0].work.outcomes, CurrentLine(s)) ==> outcome == Kept
    requires outcome == Left ==> InLog(s.arrivals, s.ledger.handed, CurrentLine(s)) || CurrentLine(s) in s.fates.discarded ||
                                 CurrentLine(s) in s.fates.repeated
    ensures Inv(WithOutcome(s, outcome))
  {
    hide Inv, OnlyAppends, PassShape, LineIsLate, OutcomesHold, WorksInOrder, InLog, HeldBack;
    OutcomeFacts(s, outcome);
    WorkKeeps(s, WorkAfter(s, outcome));
  }
}

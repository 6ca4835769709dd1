/**
 The numbers one pass gives: within an account they follow the order of the file, whatever else happens meanwhile and
 whatever the order of numbers is worth. This has an induction of its own, on top of the other invariants.
 */
module GivenSteps {
  import opened MessageStore
  import opened MessageLedger
  import opened StoreGuard
  import opened InboundProtocol
  import opened ProtocolInvariants
  import opened CommitLemmas
  import opened StageLemmas
  import opened WorkSteps
  import opened WorldSteps
  import opened AnswerSteps
  import opened ProtocolTheorems

  /** A number given is in the log, under a line that is over, or of which the answer got lost. */
  ghost predicate GivenAreLogged(arrivals: seq<Envelope>, handed: map<Account, seq<Id>>, w: Work, given: seq<(nat, nat)>)
    requires !w.Turn? && !w.Reading?
  {
    forall p | 0 <= p < |given| ::
      && given[p].0 < |w.lines| && given[p].0 <= |w.outcomes|
      && (given[p].0 == |w.outcomes| ==> w.Running? && w.line == ProbingLine)
      && Numbered(arrivals, handed, w.lines[given[p].0], given[p].1)
  }

  ghost predicate GivenGrow(arrivals: seq<Envelope>, lines: seq<Msg>, given: seq<(nat, nat)>) {
    forall p, q | 0 <= p < q < |given| ::
      && given[p].0 < given[q].0
      && (given[q].0 < |lines| && SameAccount(arrivals, lines[given[p].0], lines[given[q].0]) ==> given[p].1 < given[q].1)
  }

  ghost predicate GivenInOrder(s: State) {
    Processing(s.passes) ==>
      GivenAreLogged(s.arrivals, s.ledger.handed, s.passes[0].work, s.past.given) &&
      GivenGrow(s.arrivals, s.passes[0].work.lines, s.past.given)
  }

  /** The pass in progress goes on with the lines it read, and no line it gave a number to comes again. */
  predicate GoesOn(passes: seq<Pass>, passes': seq<Pass>) {
    Processing(passes') ==>
      Processing(passes) &&
      var w, w' := passes[0].work, passes'[0].work;
      w'.lines == w.lines &&
      (|w.outcomes| < |w'.outcomes| ||
       (|w'.outcomes| == |w.outcomes| && (w.Running? && w.line == ProbingLine ==> w'.Running? && w'.line == ProbingLine)))
  }

  ghost predicate LogGrew(s: State, t: State) {
    s.arrivals <= t.arrivals &&
    forall m, n :: Numbered(s.arrivals, s.ledger.handed, m, n) ==> Numbered(t.arrivals, t.ledger.handed, m, n)
  }

  lemma GivenFrame(s: State, t: State)
    requires GivenInOrder(s) && GoesOn(s.passes, t.passes) && LogGrew(s, t) && t.past.given == s.past.given
    ensures GivenInOrder(t)
  {
    if Processing(t.passes) {
      var lines, given := s.passes[0].work.lines, s.past.given;
      forall p | 0 <= p < |given| ensures lines[given[p].0] < |s.arrivals| {
        assert Numbered(s.arrivals, s.ledger.handed, lines[given[p].0], given[p].1);
      }
    }
  }

  // ── Steps that leave the pass and the log alone ──────────────────

  predicate IsElsewhere(e: Event) {
    e.Handles? || e.Starts? || e.EnrichEnds? || e.ResolveEnds? || e.Fails? || e.Wakes? || e.WritesOff? || e.AppendIsOver? ||
    e.Concludes? || e.RecoverContinues? || e.ResumeIsOver? || e.PersistContinues? || e.StartContinues? ||
    e.HeldTimerGoesOff? || e.ProbeGoesOut? || e.ProbeIsAnswered? || e.DrainBegins? || e.DrainSnapshots? || e.DrainWrites? || e.DrainReturns? || e.Retains?
  }

  /** At most one more pass waits for its turn. */
  predicate SamePass(s: State, t: State) {
    && t.past.given == s.past.given && t.ledger.handed == s.ledger.handed && s.arrivals <= t.arrivals && t.file == s.file
    && (t.passes == s.passes || (|t.passes| == |s.passes| + 1 && t.passes[..|s.passes|] == s.passes && t.passes[|s.passes|].work.Turn?))
  }

  lemma EarlyStepsAreElsewhere(s: State, e: Event)
    requires Enabled(s, e) && (e.Handles? || e.Starts? || e.EnrichEnds? || e.ResolveEnds? || e.Wakes?)
    ensures SamePass(s, Step(s, e))
  {
    hide ItsTurn, SameAccount;
  }

  lemma LateStepsAreElsewhere(s: State, e: Event)
    requires Enabled(s, e) && (e.Fails? || e.Concludes?)
    ensures SamePass(s, Step(s, e))
  {
    hide FinishEmitting;
    if e.Concludes? { ConcludingIsElsewhere(s, e.m); }
  }

  lemma ConcludingIsElsewhere(s: State, m: Msg)
    requires m < |s.stage|
    ensures SamePass(s, Conclude(s, m))
  {
  }

  lemma WriteOffsAreElsewhere(s: State, e: Event)
    requires Enabled(s, e) && (e.WritesOff? || e.AppendIsOver?)
    ensures SamePass(s, Step(s, e))
  {
    hide AfterWriteOff;
    if e.AppendIsOver? || e.m !in s.unsaved {
      AfterWriteOffIsElsewhere(if e.AppendIsOver? then s.(unsaved := s.unsaved - {e.m}) else s, e.m);
    }
  }

  lemma AfterWriteOffIsElsewhere(s: State, m: Msg)
    requires m < |s.stage|
    ensures SamePass(s, AfterWriteOff(s, m))
  {
  }

  lemma GoingOnIsElsewhere(s: State, e: Event)
    requires Enabled(s, e) && (e.RecoverContinues? || e.ResumeIsOver? || e.ProbeIsAnswered?)
    ensures SamePass(s, Step(s, e))
  {
    hide SamePass, RecoverGoesOn, ResumeEnds, ProbeAnswers;
    match e
    case RecoverContinues(i, stored) => RecoveringIsElsewhere(s, i, stored);
    case ResumeIsOver(failed) => ResumingIsElsewhere(s, failed);
    case ProbeIsAnswered(written) => ProbingIsElsewhere(s, written);
  }

  lemma OtherStepsAreElsewhere(s: State, e: Event)
    requires Enabled(s, e) && IsElsewhere(e) && !IsLive(e) && !(e.RecoverContinues? || e.ResumeIsOver? || e.ProbeIsAnswered?)
    ensures SamePass(s, Step(s, e))
  {
    hide AccountsOf, ForgottenBy, AtStage;
  }

  lemma RecoveringIsElsewhere(s: State, i: nat, stored: bool)
    requires i < |s.ended| && s.ended[i].caller.Recover?
    ensures SamePass(s, RecoverGoesOn(s, i, stored))
  {
    hide AccountsOf;
  }

  lemma ResumingIsElsewhere(s: State, failed: bool)
    requires s.resuming > 0
    ensures SamePass(s, ResumeEnds(s, failed))
  {
  }

  lemma ProbingIsElsewhere(s: State, written: bool)
    ensures SamePass(s, ProbeAnswers(s, written))
  {
  }

  lemma SamePassGoesOn(s: State, t: State)
    requires GivenInOrder(s) && SamePass(s, t)
    ensures GivenInOrder(t)
  {
    assert t.passes != [] && s.passes != [] ==> t.passes[0] == s.passes[0];
    GivenFrame(s, t);
  }

  lemma StepsElsewhereLeaveThePass(s: State, e: Event)
    requires Enabled(s, e) && IsElsewhere(e)
    ensures SamePass(s, Step(s, e))
  {
    hide Enabled, Step, SamePass;
    if e.Handles? || e.Starts? || e.EnrichEnds? || e.ResolveEnds? || e.Wakes? {
      EarlyStepsAreElsewhere(s, e);
    } else if e.Fails? || e.Concludes? {
      LateStepsAreElsewhere(s, e);
    } else if IsLive(e) {
      WriteOffsAreElsewhere(s, e);
    } else if e.RecoverContinues? || e.ResumeIsOver? || e.ProbeIsAnswered? {
      GoingOnIsElsewhere(s, e);
    } else {
      OtherStepsAreElsewhere(s, e);
    }
  }

  lemma ElsewhereKeepsGiven(s: State, e: Event)
    requires Enabled(s, e) && IsElsewhere(e) && GivenInOrder(s)
    ensures GivenInOrder(Step(s, e))
  {
    hide Enabled, Step, GivenInOrder, SamePass;
    StepsElsewhereLeaveThePass(s, e);
    SamePassGoesOn(s, Step(s, e));
  }

  // ── The log grows ────────────────────────────────────────────────

  lemma AnswerKeepsGiven(s: State, m: Msg, outcome: StoreOutcome)
    requires Inv(s) && m < |s.stage| && m < |s.arrivals| && s.stage[m].Attempting? && GivenInOrder(s)
    ensures GivenInOrder(Answer(s, m, outcome))
  {
    hide Inv, GivenInOrder, Numbered, Grows, RowsGrow, Valid, AfterAttempt, Commit, SettleRetried, AnswerIsTrue;
    var l' := AfterAttempt(s.ledger, s.arrivals[m], outcome);
    AnswerFacts(s, m, outcome);
    if l' != s.ledger { NumberedGrows(s.arrivals, s.ledger.handed, l'.handed, m); }
    GivenFrame(s, Answer(s, m, outcome));
  }

  // ── The file ─────────────────────────────────────────────────────

  lemma AppendKeepsGiven(s: State, ok: bool)
    requires FileOpReady(s) && IsAppend(s.fileTurn[0]) && GivenInOrder(s)
    ensures GivenInOrder(FileStep(s, ok))
  {
    hide GivenInOrder;
    GivenFrame(s, FileStep(s, ok));
  }

  lemma PassIsOver(s: State, kept: seq<Msg>, failed: bool)
    requires s.passes != [] && OnePassAtATime(s.passes)
    ensures !Processing(EndPass(s, kept, failed).passes)
  {
    assert |s.passes| > 1 ==> s.passes[1..][0] == s.passes[1];
  }

  lemma FileKeepsGiven(s: State, ok: bool)
    requires FileOpReady(s) && OnePassAtATime(s.passes) && GivenInOrder(s)
    ensures GivenInOrder(FileStep(s, ok))
  {
    hide LinesThat, EndPass, Elements, GivenInOrder, GivenAreLogged, GivenGrow;
    var t := s.(fileTurn := s.fileTurn[1..]);
    if IsAppend(s.fileTurn[0]) {
      AppendKeepsGiven(s, ok);
    } else if !ok {
      PassIsOver(t, [], true);
      NoPassNoNumbers(FileStep(s, ok));
    } else if s.fileTurn[0] == Read {
      ReadGivesNothing(s);
    } else if s.fileTurn[0] == Reject {
      RejectsKeepGiven(s);
    } else {
      var w := s.passes[0].work;
      var kept := LinesThat(w.lines, w.outcomes, Kept);
      PassIsOver(t.(file := kept + s.file[|w.lines|..]), kept, false);
      NoPassNoNumbers(FileStep(s, ok));
    }
  }

  lemma NoPassNoNumbers(s: State)
    requires !Processing(s.passes)
    ensures GivenInOrder(s)
  {
  }

  lemma RejectsKeepGiven(s: State)
    requires FileOpReady(s) && s.fileTurn[0] == Reject && GivenInOrder(s)
    ensures GivenInOrder(FileStep(s, true))
  {
    hide LinesThat, Elements, GivenInOrder;
    GivenFrame(s, FileStep(s, true));
  }

  lemma ReadGivesNothing(s: State)
    requires FileOpReady(s) && s.fileTurn[0] == Read
    ensures GivenInOrder(FileStep(s, true))
  {
  }

  // ── A pass ───────────────────────────────────────────────────────

  lemma JudgeKeepsGiven(s: State, verdict: Verdict)
    requires OnLine(s, InboundProtocol.Next) && GivenInOrder(s)
    ensures GivenInOrder(Judge(s, verdict))
  {
    hide GivenInOrder, HeldBack, Numbered, HandedTo;
    GivenFrame(s, Judge(s, verdict));
  }

  lemma LineProbedKeepsGiven(s: State, written: bool)
    requires RunningLine(s) && GivenInOrder(s)
    ensures GivenInOrder(LineProbed(s, written))
  {
    hide GivenInOrder, HeldBack, Numbered, HandedTo;
    GivenFrame(s, LineProbed(s, written));
  }

  lemma LinesEndKeepsGiven(s: State)
    requires Enabled(s, LinesEnd) && OnePassAtATime(s.passes) && PassShape(s.arrivals, s.file, s.passes) && GivenInOrder(s)
    ensures GivenInOrder(EndLines(s))
  {
    hide LinesThat, EndPass, GivenInOrder, HeldBack, Numbered, HandedTo;
    var w := s.passes[0].work;
    if Rejected in w.outcomes || Left in w.outcomes {
      GivenFrame(s, EndLines(s));
    } else {
      PassIsOver(s, LinesThat(w.lines, w.outcomes, Kept), false);
      NoPassNoNumbers(EndLines(s));
    }
  }

  /** The next number of an account is greater than any it had before. */
  lemma OneMoreGiven(arrivals: seq<Envelope>, handed: map<Account, seq<Id>>, handed': map<Account, seq<Id>>, w: Work, w': Work,
                     given: seq<(nat, nat)>, n: nat)
    requires w.Running? && w.line == Inserting && |w.outcomes| < |w.lines|
    requires GivenAreLogged(arrivals, handed, w, given) && GivenGrow(arrivals, w.lines, given)
    requires Grows(arrivals, handed, handed', w.lines[|w.outcomes|])
    requires Numbered(arrivals, handed', w.lines[|w.outcomes|], n) && n == |HandedTo(handed, arrivals[w.lines[|w.outcomes|]].account)| + 1
    requires !w'.Turn? && !w'.Reading? && w'.lines == w.lines
    requires |w'.outcomes| == |w.outcomes| + 1 || (w'.outcomes == w.outcomes && w'.Running? && w'.line == ProbingLine)
    ensures GivenAreLogged(arrivals, handed', w', given + [(|w.outcomes|, n)])
    ensures GivenGrow(arrivals, w.lines, given + [(|w.outcomes|, n)])
  {
    var i := |w.outcomes|;
    var more := given + [(i, n)];
    NumberedGrows(arrivals, handed, handed', w.lines[i]);
    forall p | 0 <= p < |given| ensures Numbered(arrivals, handed, w.lines[given[p].0], given[p].1) && given[p].0 < i && more[p] == given[p] {
    }
  }

  /** What the answer to a line does to the log. */
  lemma LineCommitsNext(s: State, now: int)
    requires Inv(s) && OnLine(s, Inserting) && Commit(s.ledger, s.arrivals[CurrentLine(s)], now).1.Inserted?
    ensures var m := CurrentLine(s);
      var (l', result) := Commit(s.ledger, s.arrivals[m], now);
      && Grows(s.arrivals, s.ledger.handed, l'.handed, m) && Numbered(s.arrivals, l'.handed, m, result.accountSeq)
      && result.accountSeq == |HandedTo(s.ledger.handed, s.arrivals[m].account)| + 1
  {
    hide PassInv, SafetyInv, EmissionInv, OrderInv;
    CommitEffect(s.ledger, s.arrivals[CurrentLine(s)], now);
    InsertGrows(s.arrivals, s.ledger, CurrentLine(s), now);
  }

  lemma LineGives(s: State, outcome: StoreOutcome)
    requires Inv(s) && OnLine(s, Inserting) && GivenInOrder(s) && !outcome.NoCommit?
    requires Commit(s.ledger, s.arrivals[CurrentLine(s)], outcome.now).1.Inserted?
    ensures GivenInOrder(LineAnswer(s, outcome))
  {
    hide Inv, HeldBack, GivenAreLogged, GivenGrow, Numbered, Grows, Commit;
    var (l', result) := Commit(s.ledger, s.arrivals[CurrentLine(s)], outcome.now);
    LineCommitsNext(s, outcome.now);
    var w, t := s.passes[0].work, LineAnswer(s, outcome);
    OneMoreGiven(s.arrivals, s.ledger.handed, l'.handed, w, t.passes[0].work, s.past.given, result.accountSeq);
  }

  lemma LineKeepsGiven(s: State, outcome: StoreOutcome)
    requires Inv(s) && OnLine(s, Inserting) && GivenInOrder(s)
    ensures GivenInOrder(LineAnswer(s, outcome))
  {
    hide Inv, HeldBack, GivenInOrder, Numbered, Grows, RowsGrow, Commit, Valid, InLog;
    if outcome.NoCommit? {
      GivenFrame(s, LineAnswer(s, outcome));
    } else if Commit(s.ledger, s.arrivals[CurrentLine(s)], outcome.now).1.Inserted? {
      LineGives(s, outcome);
    } else {
      LineFindsIt(s, outcome.now);
      GivenFrame(s, LineAnswer(s, outcome));
    }
  }

  lemma LineFindsIt(s: State, now: int)
    requires Inv(s) && OnLine(s, Inserting) && !Commit(s.ledger, s.arrivals[CurrentLine(s)], now).1.Inserted?
    ensures Commit(s.ledger, s.arrivals[CurrentLine(s)], now).0 == s.ledger
  {
    hide PassInv, SafetyInv, EmissionInv, OrderInv;
    CommitEffect(s.ledger, s.arrivals[CurrentLine(s)], now);
  }

  // ── Every run ────────────────────────────────────────────────────

  lemma PassesTakeTurns(s: State)
    requires Inv(s)
    ensures OnePassAtATime(s.passes) && PassShape(s.arrivals, s.file, s.passes)
  {
  }

  lemma StepKeepsGiven(s: State, e: Event)
    requires Inv(s) && Enabled(s, e) && GivenInOrder(s)
    ensures GivenInOrder(Step(s, e))
  {
    hide Inv, GivenInOrder, LineAnswer, Answer, FileStep, Judge, LineProbed, EndLines, PassShape;
    PassesTakeTurns(s);
    if IsElsewhere(e) {
      ElsewhereKeepsGiven(s, e);
    } else {
      match e
      case StoreAnswers(m, outcome) => AnswerKeepsGiven(s, m, outcome);
      case FileWorks(ok) => FileKeepsGiven(s, ok);
      case LineAnswered(outcome) => LineKeepsGiven(s, outcome);
      case Crashes => NoPassNoNumbers(Crash(s));
      case PassBegins => NoPassNoNumbers(BeginPass(s));
      case Judges(verdict) => JudgeKeepsGiven(s, verdict);
      case LineProbes(written) => LineProbedKeepsGiven(s, written);
      case LinesEnd => LinesEndKeepsGiven(s);
    }
  }

  lemma {:induction false} RunsKeepGiven(s: State, events: seq<Event>)
    requires Inv(s) && GivenInOrder(s) && IsRun(s, events)
    ensures GivenInOrder(After(s, events))
    decreases |events|
  {
    hide Inv, GivenInOrder, Step, Enabled;
    if events != [] {
      StepKeeps(s, events[0]);
      StepKeepsGiven(s, events[0]);
      RunsKeepGiven(Step(s, events[0]), events[1..]);
    }
  }

  /**
   * The numbers a pass gives an account follow the order of the file: of two lines that both got theirs in this pass,
   * the first one's is the smaller, in every state of every run.
   */
  lemma PassNumbersInOrder(s: State, j: nat, i: nat, number: nat, laterNumber: nat)
    requires Reachable(s) && Processing(s.passes) && j < i < |s.passes[0].work.lines|
    requires SameAccount(s.arrivals, s.passes[0].work.lines[j], s.passes[0].work.lines[i])
    requires (j, number) in s.past.given && (i, laterNumber) in s.past.given
    ensures number < laterNumber
    ensures Numbered(s.arrivals, s.ledger.handed, s.passes[0].work.lines[j], number)
    ensures Numbered(s.arrivals, s.ledger.handed, s.passes[0].work.lines[i], laterNumber)
  {
    hide Inv, GivenInOrder;
    var retries, events :| IsRun(Init(retries), events) && After(Init(retries), events) == s;
    InitHolds(retries);
    NoPassNoNumbers(Init(retries));
    RunsKeepGiven(Init(retries), events);
    GivenAreInOrder(s, j, i, number, laterNumber);
  }

  lemma GivenAreInOrder(s: State, j: nat, i: nat, number: nat, laterNumber: nat)
    requires GivenInOrder(s) && Processing(s.passes) && j < i < |s.passes[0].work.lines|
    requires SameAccount(s.arrivals, s.passes[0].work.lines[j], s.passes[0].work.lines[i])
    requires (j, number) in s.past.given && (i, laterNumber) in s.past.given
    ensures number < laterNumber
    ensures Numbered(s.arrivals, s.ledger.handed, s.passes[0].work.lines[j], number)
    ensures Numbered(s.arrivals, s.ledger.handed, s.passes[0].work.lines[i], laterNumber)
  {
    var given := s.past.given;
    var p :| 0 <= p < |given| && given[p] == (j, number);
    var q :| 0 <= q < |given| && given[q] == (i, laterNumber);
    assert p < q || q < p;
  }
}

/**
 What the verdict on an entry of the failed log, and the answer of the log to it, make of it: over every run, an entry leaves, is
 given up on or stays for exactly the steps that decide so.
 */
module VerdictTheorems {
  import opened MessageLedger
  import opened StoreGuard
  import opened InboundProtocol
  import opened ProtocolInvariants
  import opened WorkSteps
  import opened WorldSteps
  import opened ProtocolTheorems
  import opened GivenSteps
  import opened FateTheorems

  predicate IsHeld(s: State)
    requires RunningLine(s)
  {
    HeldBack(s.arrivals, s.passes[0].work.lines, s.passes[0].work.outcomes, CurrentLine(s))
  }

  /**
   * An entry leaves if it is discarded or the log answers; it is given up on if it has waited too long or is refused for good; it
   * stays if an earlier one of its account does, if nobody can tell, if the circuit is open, or if the attempt was in vain.
   */
  predicate Decides(s: State, e: Event, m: Msg, outcome: Outcome)
    requires Enabled(s, e)
  {
    if e.Judges? then
      CurrentLine(s) == m &&
      match outcome
      case Left => !IsHeld(s) && e.verdict == Discard
      case Rejected => !IsHeld(s) && e.verdict == WaitedTooLong
      case Kept => IsHeld(s) || e.verdict == CannotTell || (e.verdict == Accept && (s.guard.stopped || s.guard.phase == Down))
    else if e.LineAnswered? then
      CurrentLine(s) == m &&
      match outcome
      case Left => e.outcome.CommitAnswered?
      case Rejected => e.outcome == NoCommit(true)
      case Kept => false
    else e.LineProbes? && CurrentLine(s) == m && outcome == Kept
  }

  /** The pass in progress has come to this for an entry of the message. */
  predicate IsOutcome(passes: seq<Pass>, m: Msg, outcome: Outcome) {
    Processing(passes) &&
    var w := passes[0].work;
    exists i :: 0 <= i < |w.outcomes| && i < |w.lines| && w.lines[i] == m && w.outcomes[i] == outcome
  }

  predicate SameWork(passes: seq<Pass>, passes': seq<Pass>) {
    Processing(passes') ==>
      Processing(passes) && passes'[0].work.lines == passes[0].work.lines && passes'[0].work.outcomes == passes[0].work.outcomes
  }

  lemma SameOutcomes(passes: seq<Pass>, passes': seq<Pass>, m: Msg, outcome: Outcome)
    requires SameWork(passes, passes')
    ensures IsOutcome(passes', m, outcome) ==> IsOutcome(passes, m, outcome)
  {
  }

  lemma ElsewhereIsSame(s: State, e: Event)
    requires Enabled(s, e) && IsElsewhere(e)
    ensures SameWork(s.passes, Step(s, e).passes)
  {
    hide Enabled, Step;
    StepsElsewhereLeaveThePass(s, e);
    var t := Step(s, e);
    assert t.passes != [] && s.passes != [] ==> t.passes[0] == s.passes[0];
  }

  lemma AttemptIsSame(s: State, m: Msg, outcome: StoreOutcome)
    requires m < |s.stage| && m < |s.arrivals| && s.stage[m].Attempting?
    ensures SameWork(s.passes, Answer(s, m, outcome).passes)
  {
    hide AfterAttempt, SettleRetried, Commit;
  }

  lemma FileIsSame(s: State, ok: bool, m: Msg, outcome: Outcome)
    requires FileOpReady(s) && OnePassAtATime(s.passes)
    ensures IsOutcome(FileStep(s, ok).passes, m, outcome) ==> IsOutcome(s.passes, m, outcome)
  {
    hide LinesThat, EndPass, Elements;
    var t := s.(fileTurn := s.fileTurn[1..]);
    if !IsAppend(s.fileTurn[0]) {
      if !ok {
        PassIsOver(t, [], true);
      } else if s.fileTurn[0] == Keep {
        var w := s.passes[0].work;
        var kept := LinesThat(w.lines, w.outcomes, Kept);
        PassIsOver(t.(file := kept + s.file[|w.lines|..]), kept, false);
      }
    }
  }

  lemma EndIsSame(s: State)
    requires Enabled(s, LinesEnd) && OnePassAtATime(s.passes)
    ensures SameWork(s.passes, EndLines(s).passes)
  {
    hide LinesThat, EndPass;
    var w := s.passes[0].work;
    PassIsOver(s, LinesThat(w.lines, w.outcomes, Kept), false);
  }

  /** The line in hand comes to this, and the lines before it stay as they were. */
  predicate ComesTo(s: State, t: State, outcome: Outcome)
    requires RunningLine(s)
  {
    var w := s.passes[0].work;
    t.passes != [] && t.passes[0].work == Running(w.lines, w.outcomes + [outcome], InboundProtocol.Next)
  }

  lemma JudgingDecides(s: State, verdict: Verdict)
    requires Enabled(s, Judges(verdict))
    ensures var t := Judge(s, verdict);
      if Decides(s, Judges(verdict), CurrentLine(s), Left) then ComesTo(s, t, Left)
      else if Decides(s, Judges(verdict), CurrentLine(s), Rejected) then ComesTo(s, t, Rejected)
      else if Decides(s, Judges(verdict), CurrentLine(s), Kept) then ComesTo(s, t, Kept)
      else SameWork(s.passes, t.passes)
  {
    hide HeldBack;
  }

  lemma AnsweringDecides(s: State, outcome: StoreOutcome)
    requires Enabled(s, LineAnswered(outcome))
    ensures var t := LineAnswer(s, outcome);
      if Decides(s, LineAnswered(outcome), CurrentLine(s), Left) then ComesTo(s, t, Left)
      else if Decides(s, LineAnswered(outcome), CurrentLine(s), Rejected) then ComesTo(s, t, Rejected)
      else SameWork(s.passes, t.passes)
  {
    hide Gives, AfterAttempt, Commit;
  }

  lemma ProbingDecides(s: State, written: bool)
    requires Enabled(s, LineProbes(written))
    ensures ComesTo(s, LineProbed(s, written), Kept)
  {
  }

  lemma OneMoreOutcome(s: State, t: State, last: Outcome, m: Msg, outcome: Outcome)
    requires RunningLine(s) && ComesTo(s, t, last)
    ensures IsOutcome(t.passes, m, outcome) <==> IsOutcome(s.passes, m, outcome) || (CurrentLine(s) == m && last == outcome)
  {
    var w, w' := s.passes[0].work, t.passes[0].work;
    if i :| 0 <= i < |w.outcomes| && w.lines[i] == m && w.outcomes[i] == outcome { assert w'.outcomes[i] == outcome; }
    if CurrentLine(s) == m && last == outcome { assert w'.outcomes[|w.outcomes|] == outcome && w'.lines[|w.outcomes|] == m; }
  }

  lemma LineDecides(s: State, e: Event, m: Msg, outcome: Outcome)
    requires Enabled(s, e) && (e.Judges? || e.LineAnswered? || e.LineProbes?)
    ensures IsOutcome(Step(s, e).passes, m, outcome) ==> IsOutcome(s.passes, m, outcome) || Decides(s, e, m, outcome)
    ensures Decides(s, e, m, outcome) ==> IsOutcome(Step(s, e).passes, m, outcome)
  {
    hide Judge, LineAnswer, LineProbed, IsOutcome, HeldBack, ComesTo, SameWork;
    var t := Step(s, e);
    match e {
      case Judges(verdict) => JudgingDecides(s, verdict);
      case LineAnswered(answer) => AnsweringDecides(s, answer);
      case LineProbes(written) => ProbingDecides(s, written);
    }
    if ComesTo(s, t, Left) { OneMoreOutcome(s, t, Left, m, outcome); }
    if ComesTo(s, t, Rejected) { OneMoreOutcome(s, t, Rejected, m, outcome); }
    if ComesTo(s, t, Kept) { OneMoreOutcome(s, t, Kept, m, outcome); }
    if SameWork(s.passes, t.passes) { SameOutcomes(s.passes, t.passes, m, outcome); }
  }

  lemma StepDecides(s: State, e: Event, m: Msg, outcome: Outcome)
    requires Inv(s) && Enabled(s, e)
    ensures IsOutcome(Step(s, e).passes, m, outcome) ==> IsOutcome(s.passes, m, outcome) || Decides(s, e, m, outcome)
    ensures Decides(s, e, m, outcome) ==> IsOutcome(Step(s, e).passes, m, outcome)
  {
    hide Inv, IsOutcome, SameWork, FileStep, Answer, EndLines, PassShape, Judge, LineAnswer, LineProbed, Crash;
    PassesTakeTurns(s);
    if e.Judges? || e.LineAnswered? || e.LineProbes? {
      LineDecides(s, e, m, outcome);
    } else if IsElsewhere(e) {
      ElsewhereIsSame(s, e);
      SameOutcomes(s.passes, Step(s, e).passes, m, outcome);
    } else {
      match e
      case StoreAnswers(other, answer) =>
        AttemptIsSame(s, other, answer);
        SameOutcomes(s.passes, Step(s, e).passes, m, outcome);
      case FileWorks(ok) => FileIsSame(s, ok, m, outcome);
      case LinesEnd =>
        EndIsSame(s);
        SameOutcomes(s.passes, Step(s, e).passes, m, outcome);
      case PassBegins => NothingYet(BeginPass(s).passes, m, outcome);
      case Crashes =>
        DeathTurns(s);
        NothingYet(Crash(s).passes, m, outcome);
    }
  }

  lemma NothingYet(passes: seq<Pass>, m: Msg, outcome: Outcome)
    requires !Processing(passes)
    ensures !IsOutcome(passes, m, outcome)
  {
  }

  lemma DeathTurns(s: State)
    ensures !Processing(Crash(s).passes)
  {
    hide Restarted;
  }

  // ── Every run ────────────────────────────────────────────────────

  ghost predicate IsDecided(s: State, events: seq<Event>, m: Msg, outcome: Outcome)
    requires IsRun(s, events)
    decreases |events|
  {
    events != [] && (Decides(s, events[0], m, outcome) || IsDecided(Step(s, events[0]), events[1..], m, outcome))
  }

  /** Whatever has come of the message was decided. */
  predicate IsAccounted(s: State, m: Msg, outcome: Outcome, decided: bool) {
    (IsOutcome(s.passes, m, outcome) ==> decided) && (outcome == Rejected && m in s.fates.rejects ==> decided)
  }

  lemma GivenUpIsOutcome(s: State, m: Msg)
    requires FateTheorems.IsGivenUp(s, m)
    ensures IsOutcome(s.passes, m, Rejected)
  {
  }

  lemma RejectsAreGivenUp(s: State, e: Event, m: Msg)
    requires Inv(s) && Enabled(s, e)
    ensures m in Step(s, e).fates.rejects ==> m in s.fates.rejects || IsOutcome(s.passes, m, Rejected)
  {
    hide Inv, Step, Enabled, IsOutcome, FateTheorems.IsGivenUp;
    StepEnds(s, e, m, ByRejects);
    if FateTheorems.IsGivenUp(s, m) { GivenUpIsOutcome(s, m); }
  }

  lemma {:induction false} RunAccounts(s: State, events: seq<Event>, m: Msg, outcome: Outcome, decided: bool)
    requires Inv(s) && IsRun(s, events) && IsAccounted(s, m, outcome, decided)
    ensures IsAccounted(After(s, events), m, outcome, decided || IsDecided(s, events, m, outcome))
    decreases |events|
  {
    hide Inv, Step, Enabled, Decides, IsOutcome;
    if events != [] {
      StepKeeps(s, events[0]);
      StepDecides(s, events[0], m, outcome);
      RejectsAreGivenUp(s, events[0], m);
      RunAccounts(Step(s, events[0]), events[1..], m, outcome, decided || Decides(s, events[0], m, outcome));
    }
  }

  /**
   * Over every run: what a pass has come to for an entry, it came to by a step that decides so, and each step that does has that
   * outcome; and what is among the rejects had waited too long or was refused for good.
   */
  lemma OutcomesAreDecided(retries: nat, events: seq<Event>, m: Msg, outcome: Outcome)
    requires IsRun(Init(retries), events)
    ensures var t := After(Init(retries), events);
      && (IsOutcome(t.passes, m, outcome) ==> IsDecided(Init(retries), events, m, outcome))
      && (m in t.fates.rejects ==> IsDecided(Init(retries), events, m, Rejected))
      && forall e | Enabled(t, e) && Decides(t, e, m, outcome) :: IsOutcome(Step(t, e).passes, m, outcome)
  {
    hide Inv, Step, Enabled, Decides, IsOutcome, IsDecided;
    var s, t := Init(retries), After(Init(retries), events);
    InitHolds(retries);
    NothingYet(s.passes, m, outcome);
    NothingYet(s.passes, m, Rejected);
    RunAccounts(s, events, m, outcome, false);
    RunAccounts(s, events, m, Rejected, false);
    RunKeeps(s, events);
    forall e | Enabled(t, e) && Decides(t, e, m, outcome) ensures IsOutcome(Step(t, e).passes, m, outcome) {
      StepDecides(t, e, m, outcome);
    }
  }
}

/**
 How messages end other than in the log: over every run, each is traced to exactly the steps that end one so. A message counts
 as lost if and only if its append failed, as rejected if and only if a pass that gave up on it got to write that down, and so on.
 */
module FateTheorems {
  import opened MessageStore
  import opened MessageLedger
  import opened StoreGuard
  import opened InboundProtocol
  import opened ProtocolInvariants
  import opened WorkSteps
  import opened WorldSteps
  import opened DuplicateSteps
  import opened DuplicateTheorems
  import opened FilterTheorems

  datatype Way = ByFilter | ByDiscard | ByAppend | ByRejects | ByAnswer | ByRepeat | ByDeath

  function Those(fates: Fates, way: Way): set<Msg> {
    match way
    case ByFilter => fates.filtered
    case ByDiscard => fates.discarded
    case ByAppend => fates.lost
    case ByRejects => fates.rejects
    case ByAnswer => fates.duplicates
    case ByRepeat => fates.repeated
    case ByDeath => fates.died
  }

  /** The pass in progress gave up on an entry of it. */
  predicate IsGivenUp(s: State, m: Msg) {
    s.passes != [] && s.passes[0].work.Rejecting? &&
    var w := s.passes[0].work;
    exists i :: 0 <= i < |w.outcomes| && i < |w.lines| && w.lines[i] == m && w.outcomes[i] == Rejected
  }

  ghost predicate EndsBy(s: State, e: Event, m: Msg, way: Way)
    requires Enabled(s, e)
  {
    match way
    case ByFilter => Refuses(s, e, m) || e == DrainWrites(m, false)
    case ByDiscard => e == Judges(Discard) && CurrentLine(s) == m && !HeldBack(s.arrivals, s.passes[0].work.lines, s.passes[0].work.outcomes, m)
    case ByAppend => e == FileWorks(false) && (s.fileTurn[0] == Append(m) || s.fileTurn[0] == AppendLeft(m))
    case ByRejects => e == FileWorks(true) && s.fileTurn[0] == Reject && IsGivenUp(s, m)
    case ByAnswer => e == Concludes(m) && s.stage[m].Answered? && s.stage[m].result.Duplicate?
    case ByRepeat => e.LineAnswered? && e.outcome.CommitAnswered? && CurrentLine(s) == m &&
                     Stored(s.ledger.store.rows, s.arrivals[m]) && !HasRow(s.ledger.store.rows, m)
    case ByDeath => e.Crashes? && (m in s.unsaved || m in s.left)
  }

  ghost predicate HasEndedBy(s: State, events: seq<Event>, m: Msg, way: Way)
    requires IsRun(s, events)
    decreases |events|
  {
    events != [] && (EndsBy(s, events[0], m, way) || HasEndedBy(Step(s, events[0]), events[1..], m, way))
  }

  predicate SameFates(s: State, t: State) {
    t.fates == s.fates
  }

  // ── Steps that end nothing so ────────────────────────────────────

  lemma EarlyEndsNothing(s: State, e: Event)
    requires Enabled(s, e) && (e.Handles? || e.Starts? || e.ResolveEnds? || e.Wakes?)
    ensures SameFates(s, Step(s, e))
  {
    hide ItsTurn;
  }

  lemma LateEndsNothing(s: State, e: Event)
    requires Enabled(s, e) && (e.StoreAnswers? || e.Fails? || e.WritesOff? || e.AppendIsOver?)
    ensures SameFates(s, Step(s, e))
  {
    hide AfterAttempt, SettleRetried, Commit;
  }

  lemma PassEndsNothing(s: State, e: Event)
    requires Enabled(s, e)
    requires e.PassBegins? || e.LineProbes? || e.LinesEnd? || e.RecoverContinues? || e.PersistContinues? || e.StartContinues?
    ensures SameFates(s, Step(s, e))
  {
    hide LinesThat, AccountsOf, LetGoOf, EndLines, RecoverGoesOn;
    if e.LinesEnd? { EndingEndsNothing(s); } else if e.RecoverContinues? { RecoveringEndsNothing(s, e.i, e.stored); }
  }

  lemma EndingEndsNothing(s: State)
    requires s.passes != [] && s.passes[0].work.Running? && |s.passes[0].work.outcomes| == |s.passes[0].work.lines|
    ensures SameFates(s, EndLines(s))
  {
    hide LinesThat, AccountsOf, LetGoOf;
  }

  lemma RecoveringEndsNothing(s: State, i: nat, stored: bool)
    requires i < |s.ended| && s.ended[i].caller.Recover?
    ensures SameFates(s, RecoverGoesOn(s, i, stored))
  {
    hide AccountsOf;
  }

  lemma OthersEndNothing(s: State, e: Event)
    requires Enabled(s, e)
    requires e.ResumeIsOver? || e.HeldTimerGoesOff? || e.ProbeGoesOut? || e.ProbeIsAnswered? || e.DrainBegins? || e.DrainSnapshots? ||
             e.DrainReturns? || e.Retains?
    ensures SameFates(s, Step(s, e))
  {
    hide AccountsOf, ForgottenBy;
  }

  predicate EndsNothing(e: Event) {
    !(e.EnrichEnds? || e.Concludes? || e.FileWorks? || e.Judges? || e.LineAnswered? || e.DrainWrites? || e.Crashes?)
  }

  lemma EndsNone(s: State, e: Event, m: Msg, way: Way)
    requires Enabled(s, e) && EndsNothing(e)
    ensures !EndsBy(s, e, m, way)
  {
    hide Stored, HasRow, HeldBack, IsGivenUp;
  }

  lemma TheRestEndsNothing(s: State, e: Event, m: Msg, way: Way)
    requires Enabled(s, e) && EndsNothing(e)
    ensures SameFates(s, Step(s, e)) && !EndsBy(s, e, m, way)
  {
    EndsNone(s, e, m, way);
    hide Step, Enabled, EndsBy;
    if e.Handles? || e.Starts? || e.ResolveEnds? || e.Wakes? {
      EarlyEndsNothing(s, e);
    } else if IsLive(e) {
      LateEndsNothing(s, e);
    } else if IsOfAPass(e) {
      PassEndsNothing(s, e);
    } else {
      OthersEndNothing(s, e);
    }
  }

  // ── Steps that may ───────────────────────────────────────────────

  lemma VerdictEnds(s: State, e: Event, m: Msg, way: Way)
    requires Enabled(s, e) && (e.EnrichEnds? || e.DrainWrites?)
    ensures m in Those(Step(s, e).fates, way) <==> m in Those(s.fates, way) || EndsBy(s, e, m, way)
  {
  }

  lemma ConcludingEnds(s: State, e: Event, m: Msg, way: Way)
    requires Inv(s) && Enabled(s, e) && e.Concludes?
    ensures m in Those(Step(s, e).fates, way) <==> m in Those(s.fates, way) || EndsBy(s, e, m, way)
  {
    hide Inv, Conclude;
    if s.stage[e.m].Answered? { AnswersAreGiven(s, e.m); }
    ConcludingDecides(s, e.m);
  }

  lemma ConcludingDecides(s: State, m: Msg)
    requires m < |s.stage| && (s.stage[m].Answered? ==> !s.stage[m].result.Refused?)
    ensures Conclude(s, m).fates ==
            if s.stage[m].Answered? && s.stage[m].result.Duplicate? then s.fates.(duplicates := s.fates.duplicates + {m}) else s.fates
  {
  }

  lemma AnswersAreGiven(s: State, m: Msg)
    requires Inv(s) && m < |s.stage| && s.stage[m].Answered?
    ensures !s.stage[m].result.Refused?
  {
  }

  lemma FileEnds(s: State, e: Event, m: Msg, way: Way)
    requires Enabled(s, e) && e.FileWorks?
    ensures m in Those(Step(s, e).fates, way) <==> m in Those(s.fates, way) || EndsBy(s, e, m, way)
  {
    hide FileStep;
    FileDecides(s, e.ok);
    if e.ok && s.fileTurn[0].Reject? {
      var w := s.passes[0].work;
      LinesAreLines(w.lines, w.outcomes, Rejected, m);
    }
  }

  lemma FileDecides(s: State, ok: bool)
    requires FileOpReady(s)
    ensures FileStep(s, ok).fates ==
            match s.fileTurn[0]
            case Append(m) => if ok then s.fates else s.fates.(lost := s.fates.lost + {m})
            case AppendLeft(m) => if ok then s.fates else s.fates.(lost := s.fates.lost + {m})
            case Reject =>
              if ok then s.fates.(rejects := s.fates.rejects + Elements(LinesThat(s.passes[0].work.lines, s.passes[0].work.outcomes, Rejected)))
              else s.fates
            case _ => s.fates
  {
    hide LinesThat, AccountsOf, LetGo, LetGoOf, Elements;
  }

  lemma JudgingEnds(s: State, e: Event, m: Msg, way: Way)
    requires Enabled(s, e) && e.Judges?
    ensures m in Those(Step(s, e).fates, way) <==> m in Those(s.fates, way) || EndsBy(s, e, m, way)
  {
    hide HeldBack;
  }

  lemma AnsweringEnds(s: State, e: Event, m: Msg, way: Way)
    requires Inv(s) && Enabled(s, e) && e.LineAnswered?
    ensures m in Those(Step(s, e).fates, way) <==> m in Those(s.fates, way) || EndsBy(s, e, m, way)
  {
    hide Inv, Valid, HandedKnown, LineAnswer, Commit, Stored, HasRow;
    LogParts(s);
    AnsweringDecides(s, e.outcome);
    if e.outcome.CommitAnswered? { StoredMeansDuplicate(s.ledger, s.arrivals[CurrentLine(s)], e.outcome.now); }
  }

  lemma AnsweringDecides(s: State, outcome: StoreOutcome)
    requires RunningLine(s)
    ensures LineAnswer(s, outcome).fates ==
            if outcome.CommitAnswered? &&
               var result := Commit(s.ledger, s.arrivals[CurrentLine(s)], outcome.now).1; result.Duplicate? && result.storedId != CurrentLine(s)
            then s.fates.(repeated := s.fates.repeated + {CurrentLine(s)}) else s.fates
  {
    hide Gives, AfterAttempt, Commit;
  }

  lemma DyingEnds(s: State, e: Event, m: Msg, way: Way)
    requires Enabled(s, e) && e.Crashes?
    ensures m in Those(Step(s, e).fates, way) <==> m in Those(s.fates, way) || EndsBy(s, e, m, way)
  {
    hide Restarted;
  }

  lemma StepEnds(s: State, e: Event, m: Msg, way: Way)
    requires Inv(s) && Enabled(s, e)
    ensures m in Those(Step(s, e).fates, way) <==> m in Those(s.fates, way) || EndsBy(s, e, m, way)
  {
    hide Inv, Step, Enabled, EndsBy, Those;
    if e.EnrichEnds? || e.DrainWrites? {
      VerdictEnds(s, e, m, way);
    } else if e.Concludes? {
      ConcludingEnds(s, e, m, way);
    } else if e.FileWorks? {
      FileEnds(s, e, m, way);
    } else if e.Judges? {
      JudgingEnds(s, e, m, way);
    } else if e.LineAnswered? {
      AnsweringEnds(s, e, m, way);
    } else if e.Crashes? {
      DyingEnds(s, e, m, way);
    } else {
      TheRestEndsNothing(s, e, m, way);
    }
  }

  lemma {:induction false} RunEnds(s: State, events: seq<Event>, m: Msg, way: Way)
    requires Inv(s) && IsRun(s, events)
    ensures m in Those(After(s, events).fates, way) <==> m in Those(s.fates, way) || HasEndedBy(s, events, m, way)
    decreases |events|
  {
    hide Inv, Step, Enabled, EndsBy, Those;
    if events != [] {
      StepKeeps(s, events[0]);
      StepEnds(s, events[0], m, way);
      RunEnds(Step(s, events[0]), events[1..], m, way);
    }
  }

  /** After any run, a message has ended in one of these ways if and only if some step of the run ended it so. */
  lemma EveryEndHasItsCause(retries: nat, events: seq<Event>, m: Msg, way: Way)
    requires IsRun(Init(retries), events)
    ensures m in Those(After(Init(retries), events).fates, way) <==> HasEndedBy(Init(retries), events, m, way)
  {
    hide Inv;
    InitHolds(retries);
    RunEnds(Init(retries), events, m, way);
  }
}

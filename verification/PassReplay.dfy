/**
 A pass that dies anywhere, and the pass of the next process: together they leave what one pass would have left. The
 lines go through the steps of the protocol, with nothing else in between.
 */
module PassReplay {
  import opened MessageStore
  import opened MessageLedger
  import opened StoreGuard
  import opened InboundProtocol
  import opened ProtocolInvariants
  import opened WorkSteps
  import opened ProtocolTheorems
  import opened Runs
  import opened GivenSteps
  import opened DuplicateSteps
  import opened Courses

  /** The pass is between two lines. */
  predicate Between(s: State, lines: seq<Msg>, done: nat) {
    && s.passes != [] && s.passes[0].work.Running? && s.passes[0].work.line == InboundProtocol.Next
    && s.passes[0].work.lines == lines && |s.passes[0].work.outcomes| == done
    && LinesKnown(s.arrivals, lines)
  }

  function CourseOf(s: State): Course
    requires s.passes != [] && s.passes[0].work.Running?
  {
    Course(s.ledger, s.passes[0].work.outcomes, s.guard.stopped || s.guard.phase == Down)
  }

  /** What a line leaves alone. */
  predicate OnlyTheLine(s: State, t: State) {
    t.arrivals == s.arrivals && t.file == s.file && t.guard.stopped == s.guard.stopped && t.stage == s.stage
  }

  /** A line, from its verdict to its answer. */
  ghost function Try(s: State, lines: seq<Msg>, done: nat, way: Way): (u: State)
    requires Between(s, lines, done) && done < |lines|
    ensures u.passes != [] && u.passes[0].work.Running?
  {
    JudgesSo(s, way.verdict);
    var t := Judge(s, way.verdict);
    if t.passes[0].work.line == Inserting then AnswersSo(t, way); LineAnswer(t, way.outcome) else t
  }

  /** And to its outcome. */
  ghost function Offer(s: State, lines: seq<Msg>, done: nat, way: Way): State
    requires Between(s, lines, done) && done < |lines|
  {
    var u := Try(s, lines, done, way);
    if u.passes[0].work.line == ProbingLine then LineProbed(u, way.written) else u
  }

  /** The log is as the line leaves it; a probe comes before the outcome or not at all. */
  lemma TryIsTold(s: State, lines: seq<Msg>, done: nat, way: Way)
    requires Between(s, lines, done) && done < |lines|
    ensures var u, c := Try(s, lines, done, way), Told(s.arrivals, lines, CourseOf(s), way);
      && OnlyTheLine(s, u) && u.guard == s.guard && u.ledger == c.ledger && u.passes[0].work.lines == lines
      && (u.passes[0].work.line == ProbingLine ==>
            && u.passes[0].work.outcomes == s.passes[0].work.outcomes && c.outcomes == u.passes[0].work.outcomes + [Kept]
            && (CourseOf(s).down || !way.written <==> c.down))
      && (u.passes[0].work.line != ProbingLine ==>
            u.passes[0].work.line == InboundProtocol.Next && u.passes[0].work.outcomes == c.outcomes && CourseOf(s).down == c.down)
  {
    hide Commit, HeldBack, AfterAttempt, LinesKnown;
    Knows(s, lines, done);
    JudgesSo(s, way.verdict);
    var t := Judge(s, way.verdict);
    hide Judge;
    if t.passes[0].work.line == Inserting {
      AnswersSo(t, way);
      hide LineAnswer;
    }
  }

  lemma OfferIsTold(s: State, lines: seq<Msg>, done: nat, way: Way)
    requires Between(s, lines, done) && done < |lines|
    ensures var t := Offer(s, lines, done, way);
      && Between(t, lines, done + 1) && OnlyTheLine(s, t)
      && CourseOf(t) == Told(s.arrivals, lines, CourseOf(s), way)
  {
    hide Try, Told, LinesKnown;
    TryIsTold(s, lines, done, way);
  }

  lemma Knows(s: State, lines: seq<Msg>, done: nat)
    requires Between(s, lines, done) && done < |lines|
    ensures lines[done] < |s.arrivals|
  {
  }

  lemma JudgesSo(s: State, verdict: Verdict)
    requires OnLine(s, InboundProtocol.Next)
    ensures var w, t := s.passes[0].work, Judge(s, verdict);
      && OnlyTheLine(s, t) && t.ledger == s.ledger && t.guard == s.guard && t.passes != [] && t.passes[0].work.Running?
      && t.passes[0].work.lines == w.lines
      && (t.passes[0].work.line == Inserting <==>
            IsOffered(s.arrivals, w.lines, w.outcomes, s.guard.stopped || s.guard.phase == Down, Way(verdict, NoCommit(false), false)))
      && (t.passes[0].work.line == Inserting ==> t.passes[0].work.outcomes == w.outcomes)
      && (t.passes[0].work.line != Inserting ==>
            t.passes[0].work.line == InboundProtocol.Next &&
            t.passes[0].work.outcomes == w.outcomes +
              [OutcomeFor(s.arrivals, w.lines, w.outcomes, s.guard.stopped || s.guard.phase == Down, Way(verdict, NoCommit(false), false))])
  {
    hide HeldBack;
  }

  lemma AnswersSo(s: State, way: Way)
    requires OnLine(s, Inserting)
    ensures var w, u := s.passes[0].work, LineAnswer(s, way.outcome);
      && OnlyTheLine(s, u) && u.ledger == AfterAttempt(s.ledger, s.arrivals[CurrentLine(s)], way.outcome) && u.guard == s.guard
      && u.passes != [] && u.passes[0].work.Running? && u.passes[0].work.lines == w.lines
      && match way.outcome
         case CommitAnswered(_) => u.passes[0].work.line == InboundProtocol.Next && u.passes[0].work.outcomes == w.outcomes + [Left]
         case CommitUnanswered(_) => u.passes[0].work.line == ProbingLine && u.passes[0].work.outcomes == w.outcomes
         case NoCommit(permanent) =>
           if permanent then u.passes[0].work.line == InboundProtocol.Next && u.passes[0].work.outcomes == w.outcomes + [Rejected]
           else u.passes[0].work.line == ProbingLine && u.passes[0].work.outcomes == w.outcomes
  {
    hide Commit, AfterAttempt, Gives;
  }

  /** The first `n` lines. */
  ghost function Offered(s: State, lines: seq<Msg>, ways: seq<Way>, n: nat): (t: State)
    requires Between(s, lines, 0) && n <= |ways| == |lines|
    ensures Between(t, lines, n) && OnlyTheLine(s, t)
  {
    if n == 0 then s
    else
      var t := Offered(s, lines, ways, n - 1);
      OfferIsTold(t, lines, n - 1, ways[n - 1]);
      Offer(t, lines, n - 1, ways[n - 1])
  }

  lemma {:induction false} OfferedCame(s: State, lines: seq<Msg>, ways: seq<Way>, n: nat)
    requires Between(s, lines, 0) && n <= |ways| == |lines| && !s.guard.stopped && s.guard.phase != Down
    ensures CourseOf(Offered(s, lines, ways, n)) == Came(s.arrivals, lines, s.ledger, ways, n)
  {
    hide Between, Offer, Told;
    if n != 0 {
      OfferedCame(s, lines, ways, n - 1);
      OfferIsTold(Offered(s, lines, ways, n - 1), lines, n - 1, ways[n - 1]);
    } else {
      NothingYet(s, lines);
    }
  }

  lemma NothingYet(s: State, lines: seq<Msg>)
    requires Between(s, lines, 0)
    ensures s.passes[0].work.outcomes == []
  {
  }

  // ── They are steps of the protocol ───────────────────────────────

  lemma TryLeads(r: State, s: State, lines: seq<Msg>, done: nat, way: Way)
    requires Leads(r, s) && Between(s, lines, done) && done < |lines|
    ensures Leads(r, Try(s, lines, done, way))
  {
    hide Leads, LinesKnown, Commit, HeldBack, AfterAttempt;
    Knows(s, lines, done);
    JudgesSo(s, way.verdict);
    JudgeLeads(r, s, way.verdict);
    var t := Judge(s, way.verdict);
    hide Judge, LineAnswer;
    if t.passes[0].work.line == Inserting { AnswerLeads(r, t, way.outcome); }
  }

  lemma JudgeLeads(r: State, s: State, verdict: Verdict)
    requires Leads(r, s) && OnLine(s, InboundProtocol.Next)
    ensures Leads(r, Judge(s, verdict))
  {
    hide Leads, Judge;
    AndThen(r, s, Judges(verdict));
  }

  lemma AnswerLeads(r: State, s: State, outcome: StoreOutcome)
    requires Leads(r, s) && OnLine(s, Inserting)
    ensures Leads(r, LineAnswer(s, outcome))
  {
    hide Leads, LineAnswer;
    AndThen(r, s, LineAnswered(outcome));
  }

  lemma ProbeLeads(r: State, s: State, written: bool)
    requires Leads(r, s) && OnLine(s, ProbingLine)
    ensures Leads(r, LineProbed(s, written))
  {
    hide Leads, LineProbed;
    AndThen(r, s, LineProbes(written));
  }

  lemma OfferLeads(r: State, s: State, lines: seq<Msg>, done: nat, way: Way)
    requires Leads(r, s) && Between(s, lines, done) && done < |lines|
    ensures Leads(r, Offer(s, lines, done, way))
  {
    hide Leads, LinesKnown, Try, Told, LineProbed;
    Knows(s, lines, done);
    TryLeads(r, s, lines, done, way);
    TryIsTold(s, lines, done, way);
    var u := Try(s, lines, done, way);
    if u.passes[0].work.line == ProbingLine { ProbeLeads(r, u, way.written); }
  }

  lemma {:induction false} OfferedLeads(r: State, s: State, lines: seq<Msg>, ways: seq<Way>, n: nat)
    requires Leads(r, s) && Between(s, lines, 0) && n <= |ways| == |lines|
    ensures Leads(r, Offered(s, lines, ways, n))
  {
    hide Leads, Between, Offer;
    if n != 0 {
      OfferedLeads(r, s, lines, ways, n - 1);
      OfferLeads(r, Offered(s, lines, ways, n - 1), lines, n - 1, ways[n - 1]);
    }
  }

  // ── A death, and a new start ─────────────────────────────────────

  /** After the first `n` lines, or once the line after them had its answer and before it had its outcome. */
  ghost function Partway(s: State, lines: seq<Msg>, ways: seq<Way>, n: nat, answered: bool): State
    requires Between(s, lines, 0) && n <= |ways| == |lines|
  {
    if answered && n < |ways| then Try(Offered(s, lines, ways, n), lines, n, ways[n]) else Offered(s, lines, ways, n)
  }

  /** The process dies, and the next one reads the file. */
  ghost function Restart(s: State): State {
    FileStep(BeginPass(Crash(s)), true)
  }

  lemma RestartReads(s: State)
    requires LinesKnown(s.arrivals, s.file)
    ensures var t := Restart(s);
      && Between(t, s.file, 0) && t.arrivals == s.arrivals && t.file == s.file && t.ledger == s.ledger
      && !t.guard.stopped && t.guard.phase == Closed
  {
    hide LinesKnown, Restarted;
  }

  lemma RestartLeads(r: State, s: State)
    requires Leads(r, s)
    ensures Leads(r, Restart(s))
  {
    hide Leads, Crash;
    AndThen(r, s, Crashes);
    var t := Crash(s);
    CrashTurns(s);
    AndThen(r, t, PassBegins);
    AndThen(r, BeginPass(t), FileWorks(true));
  }

  lemma CrashTurns(s: State)
    ensures var t := Crash(s); t.passes == [Pass(AtStart, Turn)] && t.fileTurn == []
  {
  }

  lemma PartwayCame(s: State, lines: seq<Msg>, ways: seq<Way>, n: nat, answered: bool)
    requires Between(s, lines, 0) && n <= |ways| == |lines| && !s.guard.stopped && s.guard.phase != Down
    ensures var t := Partway(s, lines, ways, n, answered);
      && t.arrivals == s.arrivals && t.file == s.file
      && t.ledger == Came(s.arrivals, lines, s.ledger, ways, if answered && n < |ways| then n + 1 else n).ledger
  {
    hide Told, Try, Offered, LinesKnown;
    OfferedCame(s, lines, ways, n);
    if answered && n < |ways| { TryIsTold(Offered(s, lines, ways, n), lines, n, ways[n]); }
  }

  lemma PartwayLeads(r: State, s: State, lines: seq<Msg>, ways: seq<Way>, n: nat, answered: bool)
    requires Leads(r, s) && Between(s, lines, 0) && n <= |ways| == |lines|
    ensures Leads(r, Partway(s, lines, ways, n, answered))
  {
    hide Leads, Try, Offered, Between;
    OfferedLeads(r, s, lines, ways, n);
    if answered && n < |ways| { TryLeads(r, Offered(s, lines, ways, n), lines, n, ways[n]); }
  }

  // ── The theorem ──────────────────────────────────────────────────

  /** A pass has read the file, and the circuit takes messages. */
  predicate HasRead(s: State) {
    Between(s, s.file, 0) && !s.guard.stopped && s.guard.phase != Down
  }

  /**
   * Offering some of the entries, dying, and offering all of them again leaves the log as offering all of them once
   * does: the same rows under the same numbers, and the same outcomes for the file.
   */
  lemma DyingMidPassChangesNothing(s: State, ways: seq<Way>, n: nat, answered: bool)
    requires Reachable(s) && HasRead(s) && n <= |ways| == |s.file|
    ensures var again := Restart(Partway(s, s.file, ways, n, answered));
      && Reachable(again) && HasRead(again) && again.file == s.file
      && CourseOf(Offered(again, s.file, ways, |ways|)) == CourseOf(Offered(s, s.file, ways, |ways|))
  {
    hide Between, Came, Reachable, Leads, Inv;
    var died := Partway(s, s.file, ways, n, answered);
    var k := if answered && n < |ways| then n + 1 else n;
    ReachableHolds(s);
    LogParts(s);
    ReadKnows(s);
    PartwayCame(s, s.file, ways, n, answered);
    RestartReads(died);
    hide Restart, Partway;
    OfferedCame(s, s.file, ways, |ways|);
    OfferedCame(Restart(died), s.file, ways, |ways|);
    RestAgain(s.arrivals, s.file, s.ledger, ways, k, |ways|);
    ReachesOn(s, ways, n, answered);
  }

  lemma ReadKnows(s: State)
    requires Between(s, s.file, 0)
    ensures LinesKnown(s.arrivals, s.file)
  {
  }

  lemma ReachesOn(s: State, ways: seq<Way>, n: nat, answered: bool)
    requires Reachable(s) && HasRead(s) && n <= |ways| == |s.file|
    ensures Reachable(Restart(Partway(s, s.file, ways, n, answered)))
  {
    hide Between, Restart, Partway, IsRun, After, Step;
    var retries, events :| IsRun(Init(retries), events) && After(Init(retries), events) == s;
    assert Leads(Init(retries), s);
    PartwayLeads(Init(retries), s, s.file, ways, n, answered);
    RestartLeads(Init(retries), Partway(s, s.file, ways, n, answered));
  }

  /** Where each death came. */
  datatype Death = Death(line: nat, answered: bool)

  ghost function Successor(s: State, ways: seq<Way>, death: Death): (t: State)
    requires Reachable(s) && HasRead(s) && death.line <= |ways| == |s.file|
    ensures Reachable(t) && HasRead(t) && t.file == s.file
    ensures CourseOf(Offered(t, s.file, ways, |ways|)) == CourseOf(Offered(s, s.file, ways, |ways|))
  {
    DyingMidPassChangesNothing(s, ways, death.line, death.answered);
    hide Between, Restart, Partway, Offered, Reachable;
    Restart(Partway(s, s.file, ways, death.line, death.answered))
  }

  /** However often the process dies on the way. */
  ghost function Survives(s: State, ways: seq<Way>, deaths: seq<Death>): (t: State)
    requires Reachable(s) && HasRead(s) && |ways| == |s.file| && forall i :: 0 <= i < |deaths| ==> deaths[i].line <= |ways|
    ensures Reachable(t) && HasRead(t) && t.file == s.file
    ensures CourseOf(Offered(t, s.file, ways, |ways|)) == CourseOf(Offered(s, s.file, ways, |ways|))
    decreases |deaths|
  {
    hide Between, Successor, Offered, Reachable;
    if deaths == [] then s else Survives(Successor(s, ways, deaths[0]), ways, deaths[1..])
  }

  /**
   * A stuck account holds no other back: of two passes over the same file that differ only in what other accounts' lines
   * meet, both give the account's lines the same outcomes, its messages the same numbers, and its rows the same contents,
   * as long as neither has opened the circuit.
   */
  lemma StuckAccountHoldsNoOtherBack(s: State, ways: seq<Way>, others: seq<Way>, account: Account, n: nat)
    requires Reachable(s) && HasRead(s) && n <= |ways| == |others| == |s.file|
    requires forall i | 0 <= i < |s.file| && s.file[i] < |s.arrivals| && s.arrivals[s.file[i]].account == account :: ways[i] == others[i]
    requires !CourseOf(Offered(s, s.file, ways, n)).down && !CourseOf(Offered(s, s.file, others, n)).down
    ensures var c, d := CourseOf(Offered(s, s.file, ways, n)), CourseOf(Offered(s, s.file, others, n));
      OutcomesAgree(s.arrivals, s.file, c.outcomes, d.outcomes, account) && AgreeOn(c.ledger, d.ledger, account)
  {
    hide Between, Came, Reachable, Inv, Offered, AgreeOn, OutcomesAgree, Valid, HandedKnown, RowsAreTrue;
    ReachableHolds(s);
    LogParts(s);
    ReachableIsTrue(s);
    ReadKnows(s);
    OfferedCame(s, s.file, ways, n);
    OfferedCame(s, s.file, others, n);
    OthersHoldNothingBack(s.arrivals, s.file, s.ledger, ways, others, account, n);
  }

  // ── With live messages in between ────────────────────────────────

  /** A live message goes on, up to an attempt of it, and the circuit stays as it is. */
  ghost predicate IsAmongThem(s: State, e: Event)
    requires Enabled(s, e)
  {
    e.StoreAnswers? || (IsElsewhere(e) && !e.Handles? && !e.Retains? && Step(s, e).guard == s.guard)
  }

  predicate IdsKnown(arrivals: seq<Envelope>) {
    forall m :: 0 <= m < |arrivals| ==> arrivals[m].id == m
  }

  /** What such a step leaves of a pass. */
  predicate MovesAlong(s: State, t: State, lines: seq<Msg>, done: nat) {
    Between(t, lines, done) && t.arrivals == s.arrivals && t.file == s.file && t.guard == s.guard
  }

  lemma LiveAttemptMovesAlong(s: State, e: Event, lines: seq<Msg>, done: nat)
    requires Enabled(s, e) && e.StoreAnswers? && Between(s, lines, done) && IdsKnown(s.arrivals)
    ensures MovesAlong(s, Step(s, e), lines, done)
    ensures CourseOf(Step(s, e)) == Moved(s.arrivals, CourseOf(s), e)
  {
    hide LinesKnown, AfterAttempt, SettleRetried, Commit;
  }

  lemma QuietStepMovesAlong(s: State, e: Event, lines: seq<Msg>, done: nat)
    requires Enabled(s, e) && !e.StoreAnswers? && IsAmongThem(s, e) && Between(s, lines, done)
    ensures MovesAlong(s, Step(s, e), lines, done)
    ensures CourseOf(Step(s, e)) == Moved(s.arrivals, CourseOf(s), e)
  {
    hide Enabled, Step, LinesKnown;
    StepsElsewhereLeaveThePass(s, e);
    TheRestLeaveTheLog(s, e);
    assert Step(s, e).passes[0] == s.passes[0];
  }

  lemma StepMovesAlong(s: State, e: Event, lines: seq<Msg>, done: nat)
    requires Enabled(s, e) && IsAmongThem(s, e) && Between(s, lines, done) && IdsKnown(s.arrivals)
    ensures MovesAlong(s, Step(s, e), lines, done)
    ensures CourseOf(Step(s, e)) == Moved(s.arrivals, CourseOf(s), e)
  {
    hide Enabled, Step, MovesAlong, Moved, Between;
    if e.StoreAnswers? { LiveAttemptMovesAlong(s, e, lines, done); } else { QuietStepMovesAlong(s, e, lines, done); }
  }

  /** The lines and the steps between them can happen in this order. */
  ghost predicate CanGo(s: State, lines: seq<Msg>, done: nat, ways: seq<Way>, beats: seq<Beat>)
    requires Between(s, lines, done) && IdsKnown(s.arrivals) && |ways| == |lines|
    decreases |beats|
  {
    hide Between, LinesKnown, Offer, Step, Enabled, Told, OnlyTheLine, Moved;
    if beats == [] then done <= |lines|
    else match beats[0]
      case Line =>
        done < |lines| &&
        (OfferIsTold(s, lines, done, ways[done]); SameArrivals(s, Offer(s, lines, done, ways[done]));
         CanGo(Offer(s, lines, done, ways[done]), lines, done + 1, ways, beats[1..]))
      case Moves(e) =>
        Enabled(s, e) && IsAmongThem(s, e) && (StepMovesAlong(s, e, lines, done); CanGo(Step(s, e), lines, done, ways, beats[1..]))
  }

  lemma SameArrivals(s: State, t: State)
    ensures OnlyTheLine(s, t) ==> t.arrivals == s.arrivals && t.file == s.file
  {
  }

  ghost function Goes(s: State, lines: seq<Msg>, done: nat, ways: seq<Way>, beats: seq<Beat>): State
    requires Between(s, lines, done) && IdsKnown(s.arrivals) && |ways| == |lines| && CanGo(s, lines, done, ways, beats)
    decreases |beats|
  {
    hide Between, LinesKnown, Offer, Step, Enabled, Told, OnlyTheLine, Moved;
    if beats == [] then s
    else match beats[0]
      case Line =>
        OfferIsTold(s, lines, done, ways[done]);
        SameArrivals(s, Offer(s, lines, done, ways[done]));
        Goes(Offer(s, lines, done, ways[done]), lines, done + 1, ways, beats[1..])
      case Moves(e) =>
        StepMovesAlong(s, e, lines, done);
        Goes(Step(s, e), lines, done, ways, beats[1..])
  }

  lemma {:induction false} GoesWent(s: State, lines: seq<Msg>, done: nat, ways: seq<Way>, beats: seq<Beat>)
    requires Between(s, lines, done) && IdsKnown(s.arrivals) && |ways| == |lines| && CanGo(s, lines, done, ways, beats)
    ensures var t := Goes(s, lines, done, ways, beats);
      && LinesKnown(s.arrivals, lines) && |CourseOf(s).outcomes| == done && done + LinesOf(beats) <= |lines|
      && t.passes != [] && t.passes[0].work.Running? && t.arrivals == s.arrivals && t.file == s.file
      && CourseOf(t) == Went(s.arrivals, lines, CourseOf(s), ways, beats)
    decreases |beats|
  {
    KnowsItsCourse(s, lines, done);
    hide Between, LinesKnown, Offer, Step, Enabled, Told, OnlyTheLine, Moved;
    if beats != [] {
      match beats[0] {
        case Line =>
          OfferIsTold(s, lines, done, ways[done]);
          SameArrivals(s, Offer(s, lines, done, ways[done]));
          GoesWent(Offer(s, lines, done, ways[done]), lines, done + 1, ways, beats[1..]);
        case Moves(e) =>
          StepMovesAlong(s, e, lines, done);
          GoesWent(Step(s, e), lines, done, ways, beats[1..]);
      }
    }
  }

  lemma KnowsItsCourse(s: State, lines: seq<Msg>, done: nat)
    requires Between(s, lines, done)
    ensures LinesKnown(s.arrivals, lines) && |CourseOf(s).outcomes| == done
    ensures s.passes != [] && s.passes[0].work.Running?
  {
  }

  lemma {:induction false} GoesLeads(r: State, s: State, lines: seq<Msg>, done: nat, ways: seq<Way>, beats: seq<Beat>)
    requires Leads(r, s)
    requires Between(s, lines, done) && IdsKnown(s.arrivals) && |ways| == |lines| && CanGo(s, lines, done, ways, beats)
    ensures Leads(r, Goes(s, lines, done, ways, beats))
    decreases |beats|
  {
    hide Leads, Between, LinesKnown, Offer, Step, Enabled, Told, OnlyTheLine, Moved;
    if beats != [] {
      match beats[0] {
        case Line =>
          OfferLeads(r, s, lines, done, ways[done]);
          OfferIsTold(s, lines, done, ways[done]);
          SameArrivals(s, Offer(s, lines, done, ways[done]));
          GoesLeads(r, Offer(s, lines, done, ways[done]), lines, done + 1, ways, beats[1..]);
        case Moves(e) =>
          AndThen(r, s, e);
          StepMovesAlong(s, e, lines, done);
          GoesLeads(r, Step(s, e), lines, done, ways, beats[1..]);
      }
    }
  }

  lemma IdsAreKnown(s: State)
    requires Reachable(s)
    ensures IdsKnown(s.arrivals) && Valid(s.ledger) && RowsAreTrue(s.arrivals, s.ledger.store.rows)
  {
    hide Inv, Reachable, Valid, HandedKnown;
    ReachableHolds(s);
    LogParts(s);
    ReachableIsTrue(s);
  }

  lemma GoesReachesOn(s: State, ways: seq<Way>, beats: seq<Beat>)
    requires Reachable(s) && HasRead(s) && |ways| == |s.file| && IdsKnown(s.arrivals) && CanGo(s, s.file, 0, ways, beats)
    ensures Reachable(Restart(Goes(s, s.file, 0, ways, beats)))
  {
    hide Between, Restart, Goes, CanGo, IsRun, After, Step;
    var retries, events :| IsRun(Init(retries), events) && After(Init(retries), events) == s;
    assert Leads(Init(retries), s);
    GoesLeads(Init(retries), s, s.file, 0, ways, beats);
    RestartLeads(Init(retries), Goes(s, s.file, 0, ways, beats));
  }

  /** The steps between the lines store nothing of the account. */
  predicate LeaveAlone(arrivals: seq<Envelope>, beats: seq<Beat>, account: Account) {
    forall i :: 0 <= i < |beats| && beats[i].Moves? && IsLive(beats[i].e, arrivals) ==> arrivals[beats[i].e.m].account != account
  }

  /**
   * With live messages of other accounts going on between the lines, up to and through their attempts: a pass that dies
   * anywhere, and the one of the next process, leave an account's rows and numbers, and every outcome, as one pass with
   * nothing in between would have.
   */
  lemma DyingAmongLiveMessages(s: State, ways: seq<Way>, beats: seq<Beat>, account: Account)
    requires Reachable(s) && HasRead(s) && |ways| == |s.file|
    requires IdsKnown(s.arrivals) && CanGo(s, s.file, 0, ways, beats) && LeaveAlone(s.arrivals, beats, account)
    ensures var again := Restart(Goes(s, s.file, 0, ways, beats));
      && Reachable(again) && HasRead(again) && again.file == s.file
      && var c, d := CourseOf(Offered(s, s.file, ways, |ways|)), CourseOf(Offered(again, s.file, ways, |ways|));
         d.outcomes == c.outcomes && d.down == c.down && AgreeOn(c.ledger, d.ledger, account)
  {
    hide Between, Came, Went, Goes, CanGo, Reachable, Valid, RowsAreTrue, AgreeOn;
    IdsAreKnown(s);
    ReadKnows(s);
    GoesReachesOn(s, ways, beats);
    GoesWent(s, s.file, 0, ways, beats);
    var died := Goes(s, s.file, 0, ways, beats);
    RestartReads(died);
    hide Restart;
    OfferedCame(s, s.file, ways, |ways|);
    OfferedCame(Restart(died), s.file, ways, |ways|);
    NothingYet(s, s.file);
    DyingAmongOthers(s.arrivals, s.file, s.ledger, ways, beats, account);
  }
}

/**
 Why an entry that a pass lets go of counts against the order of its account: a run in which no circuit closes over
 an entry that was kept, and in which the later of two messages still gets the earlier number.

 Both messages are refused while the log is down and wait in the failed log. After a restart the first one's
 conversation is excluded, so the pass discards it, and the second one is stored; the process dies before the
 outcome is written to the file. After another restart the conversation is accepted again, and the first is stored.
 */
module OrderCounterexample {
  import opened Options
  import opened MessageStore
  import opened MessageLedger
  import opened StoreGuard
  import opened InboundProtocol
  import opened ProtocolInvariants
  import opened Runs

  // ── The steps used ───────────────────────────────────────────────

  lemma Begins(s: State, t: State)
    requires Leads(s, t) && t.passes != [] && t.passes[0].work.Turn?
    ensures Leads(s, BeginPass(t))
  {
    AndThen(s, t, PassBegins);
  }

  lemma FileDoes(s: State, t: State)
    requires Leads(s, t) && FileOpReady(t)
    ensures Leads(s, FileStep(t, true))
  {
    AndThen(s, t, FileWorks(true));
  }

  lemma LinesAreOver(s: State, t: State)
    requires Leads(s, t) && t.passes != [] && t.passes[0].work.Running? && |t.passes[0].work.outcomes| == |t.passes[0].work.lines|
    ensures Leads(s, EndLines(t))
  {
    AndThen(s, t, LinesEnd);
  }

  lemma StartIsOver(s: State, t: State)
    requires Leads(s, t) && t.ended != [] && t.ended[0].caller.AtStart?
    ensures Leads(s, StartGoesOn(t, 0))
  {
    AndThen(s, t, StartContinues(0));
  }

  lemma Arrives(s: State, t: State, envelope: Envelope)
    requires Leads(s, t) && !t.starting && envelope.id == |t.arrivals|
    ensures Leads(s, Handle(t, envelope))
  {
    AndThen(s, t, Handles(envelope));
  }

  lemma TakesItsTurn(s: State, t: State, m: Msg)
    requires Leads(s, t) && AtStage(t, m) && t.stage[m] == Queued && ItsTurn(t, m)
    ensures Leads(s, Start(t, m))
  {
    AndThen(s, t, Starts(m));
  }

  lemma IsAccepted(s: State, t: State, m: Msg)
    requires Leads(s, t) && AtStage(t, m) && t.stage[m] == Enriching
    ensures Leads(s, Enriched(t, m, true))
  {
    AndThen(s, t, EnrichEnds(m, true));
  }

  lemma IsResolved(s: State, t: State, m: Msg)
    requires Leads(s, t) && AtStage(t, m) && t.stage[m] == Resolving
    ensures Leads(s, Attempt(t, m, 0))
  {
    AndThen(s, t, ResolveEnds(m));
  }

  lemma AnswersNothing(s: State, t: State, m: Msg)
    requires Leads(s, t) && AtStage(t, m) && t.stage[m].Attempting?
    ensures Leads(s, WithStage(t, m, Failed(t.stage[m].attempt, false)))
  {
    AndThen(s, t, StoreAnswers(m, NoCommit(false)));
    assert Answer(t, m, NoCommit(false)) == WithStage(t, m, Failed(t.stage[m].attempt, false));
  }

  lemma IsOutOfAttempts(s: State, t: State, m: Msg)
    requires Leads(s, t) && AtStage(t, m) && t.stage[m].Failed?
    ensures Leads(s, AttemptFailed(t, m))
  {
    AndThen(s, t, Fails(m));
  }

  lemma IsWrittenOff(s: State, t: State, m: Msg)
    requires Leads(s, t) && AtStage(t, m) && t.stage[m] == Refusing
    ensures Leads(s, WriteOff(t, m))
  {
    AndThen(s, t, WritesOff(m));
  }

  lemma IsAppended(s: State, t: State, m: Msg)
    requires Leads(s, t) && AtStage(t, m) && t.stage[m] == Appended
    ensures Leads(s, AppendEnds(t, m))
  {
    AndThen(s, t, AppendIsOver(m));
  }

  lemma IsConcluded(s: State, t: State, m: Msg)
    requires Leads(s, t) && AtStage(t, m) && t.stage[m] == WrittenOff
    ensures Leads(s, FinishEmitting(t, m, None))
  {
    AndThen(s, t, Concludes(m));
    assert Conclude(t, m) == FinishEmitting(t, m, None);
  }

  lemma IsJudged(s: State, t: State, verdict: Verdict)
    requires Leads(s, t) && RunningLine(t) && t.passes[0].work.line == InboundProtocol.Next
    ensures Leads(s, Judge(t, verdict))
  {
    AndThen(s, t, Judges(verdict));
  }

  lemma IsStored(s: State, t: State)
    requires Leads(s, t) && RunningLine(t) && t.passes[0].work.line == Inserting
    ensures Leads(s, LineAnswer(t, CommitAnswered(0)))
  {
    AndThen(s, t, LineAnswered(CommitAnswered(0)));
  }

  lemma Dies(s: State, t: State)
    requires Leads(s, t)
    ensures Leads(s, Crash(t))
  {
    AndThen(s, t, Crashes);
  }

  // ── The run ──────────────────────────────────────────────────────

  const NO_FATES := Fates({}, {}, {}, {}, {}, {}, {})
  const OPEN := Guard(Down, false, Pending)
  const NO_PAST := Past({}, map[], {}, [])

  function First(a: Account): Envelope { Envelope(0, a, None) }

  function Second(a: Account): Envelope { Envelope(1, a, None) }

  /** The accounts connect; nothing has happened yet. */
  function Connected(): State {
    State([], [], {}, 0, false, NotDraining, {}, None, FRESH, 0, EMPTY, [], [], [], [], false, 0, NO_FATES, [], NO_PAST, 0)
  }

  /** The first message is in the failed log, and the circuit is open. */
  function FirstWaits(a: Account): State {
    State([First(a)], [Done], {}, 1, false, NotDraining, {}, None, OPEN, 0, EMPTY, [0], [], [], [], false, 0,
          NO_FATES, [Emission(0, None)], NO_PAST, 0)
  }

  /** Both are, and the process starts again. */
  function BothWait(a: Account): State {
    State([First(a), Second(a)], [Done, Done], {}, 0, false, NotDraining, {}, None, FRESH, 0, EMPTY, [0, 1], [],
          [Pass(AtStart, Turn)], [], true, 0, NO_FATES, [Emission(0, None), Emission(1, None)], NO_PAST, 2)
  }

  lemma Connecting()
    ensures Leads(Init(0), Connected())
  {
    hide Leads;
    var s0 := Init(0);
    FromTheStart(s0);
    Begins(s0, s0);
    var s1 := s0.(passes := [Pass(AtStart, Reading)], fileTurn := [Read]);
    assert BeginPass(s0) == s1;
    FileDoes(s0, s1);
    var s2 := s0.(passes := [Pass(AtStart, Running([], [], InboundProtocol.Next))]);
    assert FileStep(s1, true) == s2;
    LinesAreOver(s0, s2);
    var s3 := s0.(passes := [], ended := [Ended(AtStart, [], false)]);
    assert EndLines(s2) == s3;
    StartIsOver(s0, s3);
    assert StartGoesOn(s3, 0) == Connected();
  }

  /** Refused for want of attempts, and so the circuit opens. */
  lemma FirstIsRefused(a: Account)
    ensures Leads(Init(0), Connected().(arrivals := [First(a)], stage := [Refusing], unsaved := {0}, guard := OPEN))
  {
    hide Leads;
    var s0, s := Init(0), Connected().(arrivals := [First(a)], unsaved := {0});
    Connecting();
    Arrives(s0, Connected(), First(a));
    assert Handle(Connected(), First(a)) == s.(stage := [Queued]);
    TakesItsTurn(s0, s.(stage := [Queued]), 0);
    assert Start(s.(stage := [Queued]), 0) == s.(stage := [Enriching]);
    IsAccepted(s0, s.(stage := [Enriching]), 0);
    assert Enriched(s.(stage := [Enriching]), 0, true) == s.(stage := [Resolving]);
    IsResolved(s0, s.(stage := [Resolving]), 0);
    assert Attempt(s.(stage := [Resolving]), 0, 0) == s.(stage := [Attempting(0)]);
    AnswersNothing(s0, s.(stage := [Attempting(0)]), 0);
    assert WithStage(s.(stage := [Attempting(0)]), 0, Failed(0, false)) == s.(stage := [Failed(0, false)]);
    IsOutOfAttempts(s0, s.(stage := [Failed(0, false)]), 0);
    assert AttemptFailed(s.(stage := [Failed(0, false)]), 0) == s.(stage := [Refusing], guard := OPEN);
  }

  lemma FirstIsWrittenOff(a: Account)
    ensures Leads(Init(0), FirstWaits(a))
  {
    hide Leads;
    var s0, s := Init(0), Connected().(arrivals := [First(a)], unsaved := {0}, guard := OPEN);
    FirstIsRefused(a);
    IsWrittenOff(s0, s.(stage := [Refusing]), 0);
    var s1 := s.(stage := [WritingOff], writeOffs := 1, fileTurn := [Append(0)]);
    assert WriteOff(s.(stage := [Refusing]), 0) == s1;
    FileDoes(s0, s1);
    var s2 := s.(stage := [Appended], writeOffs := 1, file := [0]);
    assert FileStep(s1, true) == s2;
    IsAppended(s0, s2, 0);
    var s3 := s2.(stage := [WrittenOff], unsaved := {});
    assert AppendEnds(s2, 0) == s3;
    IsConcluded(s0, s3, 0);
    assert FinishEmitting(s3, 0, None) == FirstWaits(a);
  }

  lemma SecondIsRefused(a: Account)
    ensures Leads(Init(0), FirstWaits(a).(arrivals := [First(a), Second(a)], stage := [Done, Refusing], unsaved := {1}))
  {
    hide Leads;
    var s0, s := Init(0), FirstWaits(a).(arrivals := [First(a), Second(a)], unsaved := {1});
    FirstIsWrittenOff(a);
    Arrives(s0, FirstWaits(a), Second(a));
    assert Handle(FirstWaits(a), Second(a)) == s.(stage := [Done, Queued]);
    TakesItsTurn(s0, s.(stage := [Done, Queued]), 1);
    assert Start(s.(stage := [Done, Queued]), 1) == s.(stage := [Done, Enriching]);
    IsAccepted(s0, s.(stage := [Done, Enriching]), 1);
    assert Enriched(s.(stage := [Done, Enriching]), 1, true) == s.(stage := [Done, Resolving]);
    IsResolved(s0, s.(stage := [Done, Resolving]), 1);
    assert Attempt(s.(stage := [Done, Resolving]), 1, 0) == s.(stage := [Done, Refusing]);
  }

  lemma SecondIsWrittenOff(a: Account)
    ensures Leads(Init(0), FirstWaits(a).(arrivals := [First(a), Second(a)], stage := [Done, Appended], unsaved := {1},
                                          writeOffs := 2, file := [0, 1]))
  {
    hide Leads;
    var s0, s := Init(0), FirstWaits(a).(arrivals := [First(a), Second(a)], unsaved := {1});
    SecondIsRefused(a);
    IsWrittenOff(s0, s.(stage := [Done, Refusing]), 1);
    var s1 := s.(stage := [Done, WritingOff], writeOffs := 2, fileTurn := [Append(1)]);
    assert WriteOff(s.(stage := [Done, Refusing]), 1) == s1;
    FileDoes(s0, s1);
    var s2 := s.(stage := [Done, Appended], writeOffs := 2, file := [0, 1]);
    assert FileStep(s1, true) == s2;
  }

  lemma TheProcessDies(a: Account)
    ensures Leads(Init(0), BothWait(a))
  {
    hide Leads;
    var s0 := Init(0);
    var s2 := FirstWaits(a).(arrivals := [First(a), Second(a)], stage := [Done, Appended], unsaved := {1},
                             writeOffs := 2, file := [0, 1]);
    SecondIsWrittenOff(a);
    IsAppended(s0, s2, 1);
    var s3 := s2.(stage := [Done, WrittenOff], unsaved := {});
    assert AppendEnds(s2, 1) == s3;
    IsConcluded(s0, s3, 1);
    var s4 := FinishEmitting(s3, 1, None);
    assert s4 == s3.(stage := [Done, Done], emitted := [Emission(0, None), Emission(1, None)]);
    Dies(s0, s4);
    assert Spoilt(s4) == {};
    assert Restarted(s4) == NO_PAST;
    assert Crash(s4) == BothWait(a);
  }

  /** The log with the second message in it, and then with both. */
  ghost function OneStored(a: Account): Ledger { Commit(EMPTY, Second(a), 0).0 }

  ghost function BothStored(a: Account): Ledger { Commit(OneStored(a), First(a), 0).0 }

  lemma SecondIsFirst(a: Account)
    ensures Commit(EMPTY, Second(a), 0).1 == Inserted(1)
    ensures OneStored(a).handed == map[a := [1]]
    ensures OneStored(a).store.rows == map[(a, 1) := RowFor(Second(a), 1, 0)]
    ensures Valid(OneStored(a))
  {
    assert Valid(EMPTY);
    CommitEffect(EMPTY, Second(a), 0);
    CommitKeepsValid(EMPTY, Second(a), 0);
    assert HandedTo(EMPTY.handed, a) + [1] == [1];
  }

  lemma FirstIsSecond(a: Account)
    ensures Commit(OneStored(a), First(a), 0).1 == Inserted(2)
    ensures BothStored(a).handed == map[a := [1, 0]]
  {
    hide Commit;
    SecondIsFirst(a);
    CommitEffect(OneStored(a), First(a), 0);
    assert !Stored(OneStored(a).store.rows, First(a));
    assert HandedTo(OneStored(a).handed, a) + [0] == [1, 0];
  }

  /** The first is discarded, the second stored, and nothing of it gets into the file. */
  function LetGoOfFirst(a: Account, ledger: Ledger): State {
    BothWait(a).(ledger := ledger, fates := NO_FATES.(discarded := {0}), past := NO_PAST.(since := map[a := 2]))
  }

  lemma FirstIsDiscarded(a: Account)
    ensures Leads(Init(0), BothWait(a).(fates := NO_FATES.(discarded := {0}),
                                        passes := [Pass(AtStart, Running([0, 1], [Left], Inserting))]))
  {
    hide Leads;
    var s0, s := Init(0), BothWait(a);
    TheProcessDies(a);
    Begins(s0, s);
    var s1 := s.(passes := [Pass(AtStart, Reading)], fileTurn := [Read]);
    assert BeginPass(s) == s1;
    FileDoes(s0, s1);
    var s2 := s.(passes := [Pass(AtStart, Running([0, 1], [], InboundProtocol.Next))]);
    assert FileStep(s1, true) == s2;
    IsJudged(s0, s2, Discard);
    var s3 := s.(fates := NO_FATES.(discarded := {0}), passes := [Pass(AtStart, Running([0, 1], [Left], InboundProtocol.Next))]);
    assert [] + [Left] == [Left] && NO_FATES.discarded + {0} == {0};
    assert Judge(s2, Discard) == s3;
    IsJudged(s0, s3, Accept);
    assert Judge(s3, Accept) == s3.(passes := [Pass(AtStart, Running([0, 1], [Left], Inserting))]);
  }

  /** The first has no row, and the second, which came later, has a number. */
  lemma FirstIsLetGo(a: Account, s: State)
    requires s.arrivals == [First(a), Second(a)] && s.ledger == OneStored(a) && s.past.since == map[]
    requires s.passes == [Pass(AtStart, Running([0, 1], [Left, Left], InboundProtocol.Next))]
    ensures LetGoOf(s) == {a}
  {
    hide Commit;
    SecondIsFirst(a);
    var w, rows := s.passes[0].work, s.ledger.store.rows;
    assert forall k :: k in rows ==> rows[k].id == 1;
    assert 1 in HandedTo(s.ledger.handed, a);
    assert IsPassed(HandedTo(s.ledger.handed, a), 0, 0);
    assert w.outcomes[0] != Kept && w.lines[0] == 0 && !HasRow(rows, 0);
  }

  function SecondInTheLog(a: Account, ledger: Ledger): State {
    BothWait(a).(ledger := ledger, fates := NO_FATES.(discarded := {0}), past := NO_PAST.(given := [(1, 1)]),
                 passes := [Pass(AtStart, Running([0, 1], [Left, Left], InboundProtocol.Next))])
  }

  lemma SecondIsOffered(a: Account)
    ensures Leads(Init(0), SecondInTheLog(a, OneStored(a)))
  {
    hide Leads, Commit;
    var s0, s := Init(0), BothWait(a).(fates := NO_FATES.(discarded := {0}),
                                       passes := [Pass(AtStart, Running([0, 1], [Left], Inserting))]);
    FirstIsDiscarded(a);
    SecondIsFirst(a);
    IsStored(s0, s);
    assert [Left] + [Left] == [Left, Left];
    assert Gives(s, 1, CommitAnswered(0)) == WithGiven(s, [(1, 1)]);
    assert LineAnswer(s, CommitAnswered(0)) == SecondInTheLog(a, OneStored(a));
  }

  lemma SecondIsStored(a: Account)
    ensures Leads(Init(0), LetGoOfFirst(a, OneStored(a)))
  {
    hide Leads, OneStored, LetGoOf;
    var s := SecondInTheLog(a, OneStored(a));
    SecondIsOffered(a);
    Dies(Init(0), s);
    FirstIsLetGo(a, s);
    assert Spoilt(s) == {a};
    assert Restarted(s) == NO_PAST.(since := map[a := 2]);
    assert Crash(s) == LetGoOfFirst(a, OneStored(a));
  }

  lemma FirstIsStored(a: Account) returns (t: State)
    ensures Leads(Init(0), t)
    ensures t.arrivals == [First(a), Second(a)] && t.ledger == BothStored(a) && !t.guard.stopped
    ensures t.past.dirty == {} && t.past.since == map[a := 2]
  {
    hide Leads, Commit;
    var s0, s := Init(0), LetGoOfFirst(a, OneStored(a));
    SecondIsStored(a);
    FirstIsSecond(a);
    Begins(s0, s);
    var s1 := s.(passes := [Pass(AtStart, Reading)], fileTurn := [Read]);
    assert BeginPass(s) == s1;
    FileDoes(s0, s1);
    var s2 := s.(passes := [Pass(AtStart, Running([0, 1], [], InboundProtocol.Next))]);
    assert FileStep(s1, true) == s2;
    IsJudged(s0, s2, Accept);
    var s3 := s.(passes := [Pass(AtStart, Running([0, 1], [], Inserting))]);
    assert Judge(s2, Accept) == s3;
    IsStored(s0, s3);
    t := LineAnswer(s3, CommitAnswered(0));
  }

  /**
   * With no shutdown, and no entry kept behind a closed circuit, the later message has the earlier number. The death
   * that cost the order is noted: it counts from the third message on.
   */
  lemma LettingGoCostsTheOrder(a: Account) returns (events: seq<Event>, t: State)
    ensures IsRun(Init(0), events) && After(Init(0), events) == t && !t.guard.stopped
    ensures t.past.dirty == {} && SinceOf(t.past.since, a) == 2 && t.arrivals == [First(a), Second(a)]
    ensures SameAccount(t.arrivals, 0, 1)
    ensures Numbered(t.arrivals, t.ledger.handed, 0, 2) && Numbered(t.arrivals, t.ledger.handed, 1, 1)
  {
    t := FirstIsStored(a);
    FirstIsSecond(a);
    events :| IsRun(Init(0), events) && After(Init(0), events) == t;
  }
}

/**
 A duplicate that is emitted: a message is stored and emitted with its number, comes again while the log is down, is
 refused, written off, and emitted a second time, without a number.
 */
module DuplicateCounterexample {
  import opened Options
  import opened MessageStore
  import opened MessageLedger
  import opened InboundProtocol
  import opened Runs
  import opened DuplicateSteps
  import opened OrderCounterexample

  function Original(a: Account): Envelope { Envelope(0, a, Some("id")) }

  function Redelivered(a: Account): Envelope { Envelope(1, a, Some("id")) }

  ghost function OriginalStored(a: Account): Ledger { Commit(EMPTY, Original(a), 0).0 }

  lemma OriginalIsFirst(a: Account)
    ensures Commit(EMPTY, Original(a), 0).1 == Inserted(1)
    ensures OriginalStored(a).store.rows == map[(a, 1) := RowFor(Original(a), 1, 0)]
    ensures Stored(OriginalStored(a).store.rows, Redelivered(a))
  {
    assert Valid(EMPTY);
    CommitEffect(EMPTY, Original(a), 0);
    var rows := OriginalStored(a).store.rows;
    assert (a, 1) in rows && SameMessage(rows[(a, 1)], Redelivered(a));
  }

  /** The original is in the log and emitted. */
  function OriginalIsOut(a: Account, ledger: Ledger): State {
    Connected().(arrivals := [Original(a)], stage := [Done], ledger := ledger, emitted := [Emission(0, Some(1))])
  }

  lemma OriginalArrives(a: Account)
    ensures Leads(Init(0), Connected().(arrivals := [Original(a)], stage := [Attempting(0)], unsaved := {0}))
  {
    hide Leads;
    var s0, s := Init(0), Connected().(arrivals := [Original(a)], unsaved := {0});
    Connecting();
    Arrives(s0, Connected(), Original(a));
    assert Handle(Connected(), Original(a)) == s.(stage := [Queued]);
    TakesItsTurn(s0, s.(stage := [Queued]), 0);
    assert Start(s.(stage := [Queued]), 0) == s.(stage := [Enriching]);
    IsAccepted(s0, s.(stage := [Enriching]), 0);
    assert Enriched(s.(stage := [Enriching]), 0, true) == s.(stage := [Resolving]);
    IsResolved(s0, s.(stage := [Resolving]), 0);
    assert Attempt(s.(stage := [Resolving]), 0, 0) == s.(stage := [Attempting(0)]);
  }

  lemma OriginalIsStored(a: Account)
    ensures Leads(Init(0), OriginalIsOut(a, OriginalStored(a)))
  {
    hide Leads, Commit;
    var s0, s := Init(0), Connected().(arrivals := [Original(a)], unsaved := {0});
    var t := s.(stage := [Answered(Inserted(1))], ledger := OriginalStored(a));
    OriginalArrives(a);
    OriginalIsFirst(a);
    AndThen(s0, s.(stage := [Attempting(0)]), StoreAnswers(0, CommitAnswered(0)));
    assert Answer(s.(stage := [Attempting(0)]), 0, CommitAnswered(0)) == t;
    AndThen(s0, t, Concludes(0));
    assert Conclude(t, 0) == OriginalIsOut(a, OriginalStored(a));
  }

  /** Its second copy is on its way. */
  function SecondCopy(a: Account, stage: Stage, ledger: Ledger): State {
    OriginalIsOut(a, ledger).(arrivals := [Original(a), Redelivered(a)], stage := [Done, stage], unsaved := {1})
  }

  lemma CopyArrives(a: Account)
    ensures Leads(Init(0), SecondCopy(a, Attempting(0), OriginalStored(a)))
  {
    hide Leads, OriginalStored;
    var s0, l := Init(0), OriginalStored(a);
    OriginalIsStored(a);
    Arrives(s0, OriginalIsOut(a, l), Redelivered(a));
    assert Handle(OriginalIsOut(a, l), Redelivered(a)) == SecondCopy(a, Queued, l);
    TakesItsTurn(s0, SecondCopy(a, Queued, l), 1);
    assert Start(SecondCopy(a, Queued, l), 1) == SecondCopy(a, Enriching, l);
    IsAccepted(s0, SecondCopy(a, Enriching, l), 1);
    assert Enriched(SecondCopy(a, Enriching, l), 1, true) == SecondCopy(a, Resolving, l);
    IsResolved(s0, SecondCopy(a, Resolving, l), 1);
    assert Attempt(SecondCopy(a, Resolving, l), 1, 0) == SecondCopy(a, Attempting(0), l);
  }

  lemma CopyIsRefused(a: Account)
    ensures Leads(Init(0), SecondCopy(a, Refusing, OriginalStored(a)).(guard := OPEN))
  {
    hide Leads, OriginalStored;
    var s0, l := Init(0), OriginalStored(a);
    CopyArrives(a);
    AnswersNothing(s0, SecondCopy(a, Attempting(0), l), 1);
    assert WithStage(SecondCopy(a, Attempting(0), l), 1, Failed(0, false)) == SecondCopy(a, Failed(0, false), l);
    IsOutOfAttempts(s0, SecondCopy(a, Failed(0, false), l), 1);
    assert AttemptFailed(SecondCopy(a, Failed(0, false), l), 1) == SecondCopy(a, Refusing, l).(guard := OPEN);
  }

  lemma CopyIsWrittenOff(a: Account) returns (t: State)
    ensures Leads(Init(0), t)
    ensures t.arrivals == [Original(a), Redelivered(a)] && t.ledger == OriginalStored(a) && !t.guard.stopped
    ensures t.emitted == [Emission(0, Some(1)), Emission(1, None)] && t.fates.duplicates == {}
  {
    hide Leads, OriginalStored;
    var s0, s := Init(0), SecondCopy(a, Refusing, OriginalStored(a)).(guard := OPEN);
    CopyIsRefused(a);
    IsWrittenOff(s0, s, 1);
    var s1 := s.(stage := [Done, WritingOff], writeOffs := 1, fileTurn := [Append(1)]);
    assert WriteOff(s, 1) == s1;
    FileDoes(s0, s1);
    var s2 := s.(stage := [Done, Appended], writeOffs := 1, file := [1]);
    assert FileStep(s1, true) == s2;
    IsAppended(s0, s2, 1);
    var s3 := s2.(stage := [Done, WrittenOff], unsaved := {});
    assert AppendEnds(s2, 1) == s3;
    IsConcluded(s0, s3, 1);
    t := FinishEmitting(s3, 1, None);
  }

  /** One WhatsApp message, in the log once, and emitted twice. */
  lemma DuplicateIsEmitted(a: Account) returns (events: seq<Event>, t: State)
    ensures IsRun(Init(0), events) && After(Init(0), events) == t && !t.guard.stopped
    ensures t.emitted == [Emission(0, Some(1)), Emission(1, None)]
    ensures SameAs(t.arrivals, 0, 1) && Stored(t.ledger.store.rows, t.arrivals[1]) && 1 !in t.fates.duplicates
  {
    t := CopyIsWrittenOff(a);
    OriginalIsFirst(a);
    events :| IsRun(Init(0), events) && After(Init(0), events) == t;
  }
}

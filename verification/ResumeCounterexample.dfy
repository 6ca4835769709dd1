/**
 What it costs that a recovery's `catch` also covers its resuming of media: two runs in which that fails while a later
 recovery is in the middle of its pass, and so closes the circuit.

 A message waits in the failed log. A recovery stores it and closes the circuit; its media is being resumed when another
 message meets the next outage, and the next recovery has read the file when the resuming fails. In the first run a third
 message, whose turn has come, finds the circuit closed and is stored before the second. In the second run the third was
 refused and appended after the file was read, and when the recovery is over nothing looks at it.
 */
module ResumeCounterexample {
  import opened Options
  import opened MessageStore
  import opened MessageLedger
  import opened StoreGuard
  import opened InboundProtocol
  import opened ProtocolInvariants
  import opened WatchSteps
  import opened Runs
  import opened OrderCounterexample

  const RECOVERING := Guard(StoreGuard.Recovering, false, Idle)

  // ── Several steps at a time ──────────────────────────────────────

  /** A message arrives with nothing before it, takes its turn and is about to be attempted. */
  lemma IsOnItsWay(s: State, t: State, envelope: Envelope)
    requires Leads(s, t) && !t.starting && |t.stage| == |t.arrivals| == envelope.id
    requires forall m :: 0 <= m < |t.stage| ==> t.stage[m] == Done
    ensures Leads(s, t.(arrivals := t.arrivals + [envelope], stage := t.stage + [Resolving], unsaved := t.unsaved + {envelope.id}))
  {
    hide Leads;
    var m := envelope.id;
    var u := t.(arrivals := t.arrivals + [envelope], unsaved := t.unsaved + {m});
    Arrives(s, t, envelope);
    assert Handle(t, envelope) == u.(stage := t.stage + [Queued]);
    TakesItsTurn(s, u.(stage := t.stage + [Queued]), m);
    assert (t.stage + [Queued])[m := Enriching] == t.stage + [Enriching];
    assert Start(u.(stage := t.stage + [Queued]), m) == u.(stage := t.stage + [Enriching]);
    IsAccepted(s, u.(stage := t.stage + [Enriching]), m);
    assert (t.stage + [Enriching])[m := Resolving] == t.stage + [Resolving];
    assert Enriched(u.(stage := t.stage + [Enriching]), m, true) == u.(stage := t.stage + [Resolving]);
  }

  /** A refused message is written off, with the circuit not closed. */
  lemma IsLeftToTheFile(s: State, t: State, m: Msg)
    requires Leads(s, t) && AtStage(t, m) && t.stage[m] == Refusing && m in t.unsaved && t.fileTurn == [] && t.guard.phase != Closed
    ensures Leads(s, t.(stage := t.stage[m := Done], unsaved := t.unsaved - {m}, writeOffs := t.writeOffs + 1,
                        file := t.file + [m], emitted := t.emitted + [Emission(m, None)]))
  {
    hide Leads;
    IsWrittenOff(s, t, m);
    var t1 := t.(stage := t.stage[m := WritingOff], writeOffs := t.writeOffs + 1, fileTurn := [Append(m)]);
    assert WriteOff(t, m) == t1;
    FileDoes(s, t1);
    var t2 := t.(stage := t.stage[m := Appended], writeOffs := t.writeOffs + 1, file := t.file + [m]);
    assert t1.stage[m := Appended] == t2.stage && t1.fileTurn[1..] == [];
    assert FileStep(t1, true) == t2;
    IsAppended(s, t2, m);
    var t3 := t2.(stage := t.stage[m := WrittenOff], unsaved := t.unsaved - {m});
    assert t2.stage[m := WrittenOff] == t3.stage;
    assert AppendEnds(t2, m) == t3;
    IsConcluded(s, t3, m);
    assert t3.stage[m := Done] == t.stage[m := Done] && t3.unsaved - {m} == t3.unsaved;
  }

  /** The probe is answered, and the recovery's pass reads the file. */
  lemma IsRecovered(s: State, t: State)
    requires Leads(s, t) && t.guard == OPEN && t.passes == [] && t.fileTurn == []
    ensures Leads(s, t.(guard := RECOVERING, past := t.past.(given := []),
                        passes := [Pass(Recover(t.writeOffs), Running(t.file, [], InboundProtocol.Next))]))
  {
    hide Leads;
    AndThen(s, t, ProbeGoesOut);
    var t1 := t.(guard := Guard(Down, false, InFlight));
    assert ProbeFires(t) == t1;
    AndThen(s, t1, ProbeIsAnswered(true));
    var t2 := t.(guard := RECOVERING, passes := [Pass(Recover(t.writeOffs), Turn)]);
    assert ProbeAnswers(t1, true) == t2;
    Begins(s, t2);
    var t3 := t2.(passes := [Pass(Recover(t.writeOffs), Reading)], fileTurn := [Read]);
    assert BeginPass(t2) == t3;
    FileDoes(s, t3);
    assert t3.fileTurn[1..] == [];
    assert FileStep(t3, true) == t.(guard := RECOVERING, past := t.past.(given := []),
                                    passes := [Pass(Recover(t.writeOffs), Running(t.file, [], InboundProtocol.Next))]);
  }

  /** The first line of the pass is given the next number. */
  lemma FirstLineIsStored(s: State, t: State, caller: Caller, m: Msg)
    requires Leads(s, t) && t.passes == [Pass(caller, Running([m], [], InboundProtocol.Next))] && m < |t.arrivals|
    requires !t.guard.stopped && t.guard.phase != Down && Commit(t.ledger, t.arrivals[m], 0).1.Inserted?
    ensures Leads(s, t.(ledger := Commit(t.ledger, t.arrivals[m], 0).0, passes := [Pass(caller, Running([m], [Left], InboundProtocol.Next))],
                        past := t.past.(given := t.past.given + [(0, Commit(t.ledger, t.arrivals[m], 0).1.accountSeq)])))
  {
    hide Leads, Commit;
    IsJudged(s, t, Accept);
    var t1 := t.(passes := [Pass(caller, Running([m], [], Inserting))]);
    assert Judge(t, Accept) == t1;
    IsStored(s, t1);
    assert [] + [Left] == [Left];
    assert Gives(t1, 0, CommitAnswered(0)) ==
           WithGiven(t1, t.past.given + [(0, Commit(t.ledger, t.arrivals[m], 0).1.accountSeq)]);
    assert LineAnswer(t1, CommitAnswered(0)) ==
           t.(ledger := Commit(t.ledger, t.arrivals[m], 0).0, passes := [Pass(caller, Running([m], [Left], InboundProtocol.Next))],
              past := t.past.(given := t.past.given + [(0, Commit(t.ledger, t.arrivals[m], 0).1.accountSeq)]));
  }

  /** Its only line leaves the file, and what came since stays. */
  lemma IsRewritten(s: State, t: State, n: nat, m: Msg, rest: seq<Msg>)
    requires Leads(s, t) && t.passes == [Pass(Recover(n), Running([m], [Left], InboundProtocol.Next))]
    requires t.file == [m] + rest && t.fileTurn == [] && !t.heldTimer
    ensures Leads(s, t.(passes := [], ended := t.ended + [Ended(Recover(n), [], false)], file := rest))
  {
    hide Leads;
    LinesAreOver(s, t);
    var t1 := t.(passes := [Pass(Recover(n), Keeping([m], [Left]))], fileTurn := [Keep]);
    assert Left in [Left] && Rejected !in [Left];
    assert EndLines(t) == t1;
    FileDoes(s, t1);
    NothingIsKept(m);
    assert [] + t.file[1..] == rest;
    assert t.past.dirty + ({} + {}) == t.past.dirty;
    assert FileStep(t1, true) == t.(passes := [], ended := t.ended + [Ended(Recover(n), [], false)], file := rest);
  }

  lemma NothingIsKept(m: Msg)
    ensures LinesThat([m], [Left], Kept) == []
    ensures forall arrivals :: AccountsOf(arrivals, []) == {}
  {
    assert [Left][..0] == [];
    assert LinesThat([m], [Left][..0], Kept) == [];
  }

  // ── The log ──────────────────────────────────────────────────────

  function Third(a: Account): Envelope { Envelope(2, a, None) }

  /** A message with no WhatsApp id, of which the log has no row, gets the next number. */
  lemma IsNext(l: Ledger, envelope: Envelope)
    requires Valid(l) && envelope.messageId.None? && !HasRow(l.store.rows, envelope.id)
    ensures var (l', result) := Commit(l, envelope, 0);
      && result == Inserted(|HandedTo(l.handed, envelope.account)| + 1) && Valid(l')
      && HandedTo(l'.handed, envelope.account) == HandedTo(l.handed, envelope.account) + [envelope.id]
      && forall id :: HasRow(l'.store.rows, id) ==> HasRow(l.store.rows, id) || id == envelope.id
  {
    CommitEffect(l, envelope, 0);
    CommitKeepsValid(l, envelope, 0);
  }

  ghost function FirstInTheLog(a: Account): Ledger { Commit(EMPTY, First(a), 0).0 }

  lemma FirstIsNext(a: Account)
    ensures Commit(EMPTY, First(a), 0).1 == Inserted(1) && Valid(FirstInTheLog(a))
    ensures HandedTo(FirstInTheLog(a).handed, a) == [0]
    ensures forall id :: HasRow(FirstInTheLog(a).store.rows, id) ==> id == 0
  {
    hide Commit;
    assert Valid(EMPTY);
    assert forall id :: !HasRow(EMPTY.store.rows, id);
    IsNext(EMPTY, First(a));
    assert HandedTo(EMPTY.handed, a) + [0] == [0];
  }

  // ── What the runs have in common ─────────────────────────────────

  /** The first is stored, the circuit is closed, and the recovery is resuming media. */
  function IsResuming(a: Account, l: Ledger): State {
    FirstWaits(a).(guard := FRESH, ledger := l, file := [], past := NO_PAST.(given := [(0, 1)]), resuming := 1)
  }

  lemma FirstIsReplayed(a: Account)
    ensures Leads(Init(0), IsResuming(a, FirstInTheLog(a)).(guard := RECOVERING, ended := [Ended(Recover(1), [], false)], resuming := 0))
  {
    hide Leads, Commit;
    var s, t := Init(0), FirstWaits(a);
    FirstIsWrittenOff(a);
    IsRecovered(s, t);
    FirstIsNext(a);
    var t1 := t.(guard := RECOVERING, passes := [Pass(Recover(1), Running([0], [], InboundProtocol.Next))]);
    assert t.past.(given := []) == t.past;
    FirstLineIsStored(s, t1, Recover(1), 0);
    assert [] + [(0, 1)] == [(0, 1)];
    var t2 := t1.(ledger := FirstInTheLog(a), past := NO_PAST.(given := [(0, 1)]),
                  passes := [Pass(Recover(1), Running([0], [Left], InboundProtocol.Next))]);
    assert [0] == [0] + [];
    IsRewritten(s, t2, 1, 0, []);
    assert t2.ended + [Ended(Recover(1), [], false)] == [Ended(Recover(1), [], false)];
  }

  lemma FirstIsRecovered(a: Account)
    ensures Leads(Init(0), IsResuming(a, FirstInTheLog(a)))
  {
    hide Leads, FirstInTheLog;
    FirstIsReplayed(a);
    var t := IsResuming(a, FirstInTheLog(a)).(guard := RECOVERING, ended := [Ended(Recover(1), [], false)], resuming := 0);
    AndThen(Init(0), t, RecoverContinues(0, true));
    NothingIsKept(0);
    assert t.past.dirty + {} == t.past.dirty;
    assert RecoverGoesOn(t, 0, true) == IsResuming(a, FirstInTheLog(a));
  }

  /** The circuit is open again, and the second waits in the failed log. */
  function SecondWaits(a: Account, l: Ledger): State {
    IsResuming(a, l).(arrivals := [First(a), Second(a)], stage := [Done, Done], writeOffs := 2, guard := OPEN, file := [1],
                      emitted := [Emission(0, None), Emission(1, None)])
  }

  lemma SecondIsLeft(a: Account, l: Ledger)
    requires Leads(Init(0), IsResuming(a, l))
    ensures Leads(Init(0), SecondWaits(a, l))
  {
    hide Leads;
    var s, t := Init(0), IsResuming(a, l);
    IsOnItsWay(s, t, Second(a));
    var t1 := t.(arrivals := [First(a), Second(a)], unsaved := {1});
    assert t.(arrivals := t.arrivals + [Second(a)], stage := t.stage + [Resolving], unsaved := t.unsaved + {1}) ==
           t1.(stage := [Done, Resolving]);
    IsResolved(s, t1.(stage := [Done, Resolving]), 1);
    assert Attempt(t1.(stage := [Done, Resolving]), 1, 0) == t1.(stage := [Done, Attempting(0)]);
    AnswersNothing(s, t1.(stage := [Done, Attempting(0)]), 1);
    assert WithStage(t1.(stage := [Done, Attempting(0)]), 1, Failed(0, false)) == t1.(stage := [Done, Failed(0, false)]);
    IsOutOfAttempts(s, t1.(stage := [Done, Failed(0, false)]), 1);
    var t2 := t1.(stage := [Done, Refusing], guard := OPEN);
    assert AttemptFailed(t1.(stage := [Done, Failed(0, false)]), 1) == t2;
    IsLeftToTheFile(s, t2, 1);
    assert t2.(stage := t2.stage[1 := Done], unsaved := t2.unsaved - {1}, writeOffs := t2.writeOffs + 1,
               file := t2.file + [1], emitted := t2.emitted + [Emission(1, None)]) == SecondWaits(a, l);
  }

  /** The second recovery has read the file, and the third message is on its way. The first is still resuming media. */
  function ThirdIsHere(a: Account, l: Ledger): State {
    SecondWaits(a, l).(guard := RECOVERING, past := NO_PAST, passes := [Pass(Recover(2), Running([1], [], InboundProtocol.Next))],
                       arrivals := [First(a), Second(a), Third(a)], stage := [Done, Done, Resolving], unsaved := {2})
  }

  lemma ThirdIsOnItsWay(a: Account)
    ensures Leads(Init(0), ThirdIsHere(a, FirstInTheLog(a)))
  {
    hide Leads, FirstInTheLog;
    var s, t := Init(0), SecondWaits(a, FirstInTheLog(a));
    FirstIsRecovered(a);
    SecondIsLeft(a, FirstInTheLog(a));
    IsRecovered(s, t);
    var t1 := t.(guard := RECOVERING, past := NO_PAST, passes := [Pass(Recover(2), Running([1], [], InboundProtocol.Next))]);
    assert t.past.(given := []) == NO_PAST;
    IsOnItsWay(s, t1, Third(a));
    assert t1.(arrivals := t1.arrivals + [Third(a)], stage := t1.stage + [Resolving], unsaved := t1.unsaved + {2}) ==
           ThirdIsHere(a, FirstInTheLog(a));
  }

  // ── The third is stored before the second ────────────────────────

  /** The circuit closes with the second's line still to be judged. */
  lemma ClosesOverTheSecond(a: Account, l: Ledger)
    requires Leads(Init(0), ThirdIsHere(a, l))
    ensures Leads(Init(0), ThirdIsHere(a, l).(guard := FRESH, past := NO_PAST.(dirty := {a}), resuming := 0))
  {
    hide Leads;
    var t := ThirdIsHere(a, l);
    AndThen(Init(0), t, ResumeIsOver(true));
    assert AccountsOf(t.arrivals, t.file) == {a} by { assert t.file[0] == 1 && t.arrivals[1].account == a; }
    assert ResumeEnds(t, true) == t.(guard := FRESH, past := NO_PAST.(dirty := {a}), resuming := 0);
  }

  ghost function ThirdInTheLog(a: Account): Ledger { Commit(FirstInTheLog(a), Third(a), 0).0 }

  lemma ThirdIsNext(a: Account)
    ensures Commit(FirstInTheLog(a), Third(a), 0).1 == Inserted(2)
    ensures Commit(ThirdInTheLog(a), Second(a), 0).1 == Inserted(3)
    ensures HandedTo(Commit(ThirdInTheLog(a), Second(a), 0).0.handed, a) == [0, 2, 1]
  {
    hide Commit, FirstInTheLog, Valid, HasRow;
    FirstIsNext(a);
    IsNext(FirstInTheLog(a), Third(a));
    assert [0] + [2] == [0, 2];
    IsNext(ThirdInTheLog(a), Second(a));
    assert [0, 2] + [1] == [0, 2, 1];
  }

  function ThirdIsStored(a: Account, l: Ledger): State {
    ThirdIsHere(a, l).(guard := FRESH, past := NO_PAST.(dirty := {a}), resuming := 0, stage := [Done, Done, Answered(Inserted(2))])
  }

  lemma ThirdGoesStraightIn(a: Account)
    ensures Leads(Init(0), ThirdIsStored(a, ThirdInTheLog(a)))
  {
    hide Leads, Commit, FirstInTheLog;
    ThirdIsOnItsWay(a);
    ClosesOverTheSecond(a, FirstInTheLog(a));
    ThirdIsNext(a);
    var s, t := Init(0), ThirdIsHere(a, FirstInTheLog(a)).(guard := FRESH, past := NO_PAST.(dirty := {a}), resuming := 0);
    IsResolved(s, t, 2);
    var t1 := t.(stage := [Done, Done, Attempting(0)]);
    assert Attempt(t, 2, 0) == t1;
    AndThen(s, t1, StoreAnswers(2, CommitAnswered(0)));
    assert Answer(t1, 2, CommitAnswered(0)) == ThirdIsStored(a, ThirdInTheLog(a));
  }

  /**
   * With no shutdown, no death, no entry kept, nothing let go of and nothing removed, the later message has the smaller
   * number. That the account is in disorder is noted when the circuit closes.
   */
  lemma ResumingCostsTheOrder(a: Account) returns (events: seq<Event>, t: State)
    ensures IsRun(Init(0), events) && After(Init(0), events) == t && !t.guard.stopped
    ensures t.arrivals == [First(a), Second(a), Third(a)] && t.runStart == 0 && t.past.forgotten == {} && t.past.dirty == {a}
    ensures SameAccount(t.arrivals, 1, 2)
    ensures Numbered(t.arrivals, t.ledger.handed, 1, 3) && Numbered(t.arrivals, t.ledger.handed, 2, 2)
  {
    hide Commit, ThirdInTheLog;
    ThirdGoesStraightIn(a);
    ThirdIsNext(a);
    var s := ThirdIsStored(a, ThirdInTheLog(a));
    FirstLineIsStored(Init(0), s, Recover(2), 1);
    t := s.(ledger := Commit(s.ledger, Second(a), 0).0, passes := [Pass(Recover(2), Running([1], [Left], InboundProtocol.Next))],
            past := s.past.(given := s.past.given + [(0, 3)]));
    events :| IsRun(Init(0), events) && After(Init(0), events) == t;
  }

  // ── The third is left in the file ────────────────────────────────

  /** Refused while the recovery is in progress, the third is appended after its pass read the file. */
  function ThirdIsLeft(a: Account, l: Ledger): State {
    ThirdIsHere(a, l).(stage := [Done, Done, Done], unsaved := {}, writeOffs := 3, file := [1, 2],
                       emitted := [Emission(0, None), Emission(1, None), Emission(2, None)])
  }

  lemma ThirdIsAppended(a: Account, l: Ledger)
    requires Leads(Init(0), ThirdIsHere(a, l))
    ensures Leads(Init(0), ThirdIsLeft(a, l))
  {
    hide Leads;
    var s, t := Init(0), ThirdIsHere(a, l);
    IsResolved(s, t, 2);
    var t1 := t.(stage := [Done, Done, Refusing]);
    assert Attempt(t, 2, 0) == t1;
    IsLeftToTheFile(s, t1, 2);
    assert t1.(stage := t1.stage[2 := Done], unsaved := t1.unsaved - {2}, writeOffs := t1.writeOffs + 1,
               file := t1.file + [2], emitted := t1.emitted + [Emission(2, None)]) == ThirdIsLeft(a, l);
  }

  function ThirdIsNeglected(a: Account, l: Ledger): State {
    ThirdIsLeft(a, l).(guard := FRESH, past := NO_PAST.(dirty := {a}), resuming := 0)
  }

  lemma ClosesOverTheThird(a: Account, l: Ledger)
    requires Leads(Init(0), ThirdIsLeft(a, l))
    ensures Neglects(ThirdIsLeft(a, l), ResumeIsOver(true), 2)
    ensures Leads(Init(0), ThirdIsNeglected(a, l))
  {
    hide Leads;
    var t := ThirdIsLeft(a, l);
    assert t.file[|t.passes[0].work.lines|..] == [2];
    AndThen(Init(0), t, ResumeIsOver(true));
    assert AccountsOf(t.arrivals, t.file) == {a} by { assert t.file[0] == 1 && t.arrivals[1].account == a; }
    assert ResumeEnds(t, true) == ThirdIsNeglected(a, l);
  }

  /** The circuit is closed, nothing is under way and no timer is set. The third waits, its write-off long over. */
  lemma ResumingLeavesAnEntry(a: Account) returns (events: seq<Event>, t: State)
    ensures IsRun(Init(0), events) && After(Init(0), events) == t && TakingDirectly(t.guard) && t.guard.probe == Idle
    ensures t.file == [2] && t.stage == [Done, Done, Done] && t.fates.lost == {}
    ensures !t.heldTimer && t.passes == [] && t.ended == [] && t.fileTurn == [] && t.resuming == 0
    ensures Unwatched(t, 2)
  {
    hide Leads, Commit, FirstInTheLog, SecondLogged;
    SecondIsReplayed(a);
    t, events := PassIsOver(SecondLeaves(a, SecondLogged(a)));
  }

  ghost function SecondLogged(a: Account): Ledger { Commit(FirstInTheLog(a), Second(a), 0).0 }

  function SecondLeaves(a: Account, l: Ledger): State {
    ThirdIsNeglected(a, l).(past := NO_PAST.(dirty := {a}, given := [(0, 2)]),
                            passes := [Pass(Recover(2), Running([1], [Left], InboundProtocol.Next))])
  }

  lemma SecondIsReplayed(a: Account)
    ensures Leads(Init(0), SecondLeaves(a, SecondLogged(a)))
  {
    hide Leads, Commit, FirstInTheLog;
    var t := ThirdIsNeglected(a, FirstInTheLog(a));
    ThirdIsOnItsWay(a);
    ThirdIsAppended(a, FirstInTheLog(a));
    ClosesOverTheThird(a, FirstInTheLog(a));
    SecondIsNext(a);
    FirstLineIsStored(Init(0), t, Recover(2), 1);
    assert t.past.given + [(0, 2)] == [(0, 2)];
  }

  lemma SecondIsNext(a: Account)
    ensures Commit(FirstInTheLog(a), Second(a), 0).1 == Inserted(2)
  {
    hide Commit, FirstInTheLog, Valid, HasRow;
    FirstIsNext(a);
    IsNext(FirstInTheLog(a), Second(a));
  }

  lemma PassIsOver(s: State) returns (t: State, events: seq<Event>)
    requires Leads(Init(0), s) && s.passes == [Pass(Recover(2), Running([1], [Left], InboundProtocol.Next))]
    requires s.file == [1, 2] && s.fileTurn == [] && !s.heldTimer && s.ended == [] && s.guard == FRESH
    ensures IsRun(Init(0), events) && After(Init(0), events) == t && t == s.(passes := [], file := [2])
  {
    assert [1, 2] == [1] + [2];
    IsRewritten(Init(0), s, 2, 1, [2]);
    var t1 := s.(passes := [], ended := s.ended + [Ended(Recover(2), [], false)], file := [2]);
    AndThen(Init(0), t1, RecoverContinues(0, false));
    t := s.(passes := [], file := [2]);
    assert RecoverGoesOn(t1, 0, false) == t;
    events :| IsRun(Init(0), events) && After(Init(0), events) == t;
  }
}

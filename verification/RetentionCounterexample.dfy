/**
 Why offering an entry again is not always nothing: a run in which one message gets two numbers. It is stored by a pass
 that dies before the outcome is in the file; retention removes its row; and the next pass stores it again.
 */
module RetentionCounterexample {
  import opened Options
  import opened MessageStore
  import opened MessageLedger
  import opened StoreGuard
  import opened InboundProtocol
  import opened ProtocolInvariants
  import opened Runs
  import opened OrderCounterexample

  /** The message waits in the failed log, and the process starts again. */
  function Starts(a: Account, ledger: Ledger, past: Past): State {
    FirstWaits(a).(writeOffs := 0, guard := FRESH, passes := [Pass(AtStart, Turn)], starting := true, runStart := 1,
                   ledger := ledger, past := past)
  }

  lemma FirstStart(a: Account)
    ensures Leads(Init(0), Starts(a, EMPTY, NO_PAST))
  {
    hide Leads;
    FirstIsWrittenOff(a);
    Dies(Init(0), FirstWaits(a));
    assert Spoilt(FirstWaits(a)) == {};
    assert Restarted(FirstWaits(a)) == NO_PAST;
    assert Crash(FirstWaits(a)) == Starts(a, EMPTY, NO_PAST);
  }

  /** The pass has given the message a number, and its outcome is not in the file. */
  function IsGiven(a: Account, ledger: Ledger, past: Past, number: nat): State {
    Starts(a, ledger, past).(passes := [Pass(AtStart, Running([0], [Left], InboundProtocol.Next))],
                             past := past.(given := [(0, number)]))
  }

  function IsOffered(a: Account, l: Ledger, past: Past): State {
    Starts(a, l, past).(passes := [Pass(AtStart, Running([0], [], Inserting))])
  }

  lemma PassOffers(a: Account, l: Ledger, past: Past)
    requires Leads(Init(0), Starts(a, l, past)) && past.given == []
    ensures Leads(Init(0), IsOffered(a, l, past))
  {
    hide Leads;
    var s0, s := Init(0), Starts(a, l, past);
    Begins(s0, s);
    var s1 := s.(passes := [Pass(AtStart, Reading)], fileTurn := [Read]);
    assert BeginPass(s) == s1;
    FileDoes(s0, s1);
    var s2 := s.(passes := [Pass(AtStart, Running([0], [], InboundProtocol.Next))]);
    assert FileStep(s1, true) == s2;
    IsJudged(s0, s2, Accept);
    assert Judge(s2, Accept) == IsOffered(a, l, past);
  }

  lemma PassStores(a: Account, l: Ledger, past: Past)
    requires Leads(Init(0), Starts(a, l, past)) && past.given == [] && Commit(l, First(a), 0).1.Inserted?
    ensures Leads(Init(0), IsGiven(a, Commit(l, First(a), 0).0, past, Commit(l, First(a), 0).1.accountSeq))
  {
    hide Leads, Commit;
    PassOffers(a, l, past);
    var s := IsOffered(a, l, past);
    IsStored(Init(0), s);
    var (l', result) := Commit(l, First(a), 0);
    assert [] + [(0, result.accountSeq)] == [(0, result.accountSeq)];
    assert Gives(s, 0, CommitAnswered(0)) == WithGiven(s, [(0, result.accountSeq)]);
    assert [] + [Left] == [Left];
    assert LineAnswer(s, CommitAnswered(0)) == IsGiven(a, l', past, result.accountSeq);
  }

  ghost function OnceStored(a: Account): Ledger { Commit(EMPTY, First(a), 0).0 }

  lemma OnceIsFirst(a: Account)
    ensures Commit(EMPTY, First(a), 0).1 == Inserted(1) && Valid(OnceStored(a))
    ensures OnceStored(a).handed == map[a := [0]]
    ensures OnceStored(a).store.rows == map[(a, 1) := RowFor(First(a), 1, 0)]
  {
    assert Valid(EMPTY);
    CommitEffect(EMPTY, First(a), 0);
    CommitKeepsValid(EMPTY, First(a), 0);
    assert HandedTo(EMPTY.handed, a) + [0] == [0];
  }

  /** Without its row, the log does not know the message. */
  lemma TwiceIsSecond(a: Account)
    ensures var l := Forget(OnceStored(a), {(a, 1)});
      Commit(l, First(a), 0).1 == Inserted(2) && Commit(l, First(a), 0).0.handed == map[a := [0, 0]]
  {
    hide Commit, Valid, OnceStored;
    OnceIsFirst(a);
    var l := Forget(OnceStored(a), {(a, 1)});
    ForgetKeepsValid(OnceStored(a), {(a, 1)});
    assert l.store.rows == map[];
    CommitEffect(l, First(a), 0);
    assert !Stored(l.store.rows, First(a));
    assert HandedTo(l.handed, a) + [0] == [0, 0];
  }

  lemma DiesBeforeWriting(a: Account)
    ensures Leads(Init(0), Starts(a, OnceStored(a), NO_PAST))
  {
    hide Leads, OnceStored, Commit;
    FirstStart(a);
    OnceIsFirst(a);
    assert OnceStored(a) == Commit(EMPTY, First(a), 0).0 by { OnceIs(a); }
    PassStores(a, EMPTY, NO_PAST);
    var s := IsGiven(a, OnceStored(a), NO_PAST, 1);
    Dies(Init(0), s);
    assert HasRow(OnceStored(a).store.rows, 0) by {
      assert (a, 1) in OnceStored(a).store.rows && OnceStored(a).store.rows[(a, 1)].id == 0;
    }
    assert Spoilt(s) == {};
    assert Restarted(s) == NO_PAST;
    assert Crash(s) == Starts(a, OnceStored(a), NO_PAST);
  }

  lemma OnceIs(a: Account)
    ensures OnceStored(a) == Commit(EMPTY, First(a), 0).0
  {
  }

  lemma RowIsRemoved(a: Account)
    ensures Leads(Init(0), Starts(a, Forget(OnceStored(a), {(a, 1)}), Past({a}, map[], {0}, [])))
  {
    hide Leads, OnceStored, Forget, Retention;
    DiesBeforeWriting(a);
    AndThen(Init(0), Starts(a, OnceStored(a), NO_PAST), Retains({(a, 1)}));
    RowIsNeeded(a);
  }

  lemma RowIsNeeded(a: Account)
    ensures Retention(Starts(a, OnceStored(a), NO_PAST), {(a, 1)}) ==
            Starts(a, Forget(OnceStored(a), {(a, 1)}), Past({a}, map[], {0}, []))
  {
    hide OnceStored, Forget;
    OnceIsFirst(a);
    var s := Starts(a, OnceStored(a), NO_PAST);
    assert s.ledger.store.rows[(a, 1)].id == 0 && 0 in s.file;
    assert ForgottenBy(s, {(a, 1)}) == {0};
  }

  /** One message of the failed log, stored under 1 and again under 2. */
  lemma RetentionMakesASecondNumber(a: Account) returns (events: seq<Event>, t: State)
    ensures IsRun(Init(0), events) && After(Init(0), events) == t && !t.guard.stopped
    ensures t.arrivals == [First(a)] && t.past.forgotten == {0}
    ensures Numbered(t.arrivals, t.ledger.handed, 0, 1) && Numbered(t.arrivals, t.ledger.handed, 0, 2)
  {
    hide Commit, OnceStored, Forget;
    RowIsRemoved(a);
    TwiceIsSecond(a);
    var l := Forget(OnceStored(a), {(a, 1)});
    PassStores(a, l, Past({a}, map[], {0}, []));
    t := IsGiven(a, Commit(l, First(a), 0).0, Past({a}, map[], {0}, []), 2);
    events :| IsRun(Init(0), events) && After(Init(0), events) == t;
  }
}

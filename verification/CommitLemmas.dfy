/** What survives a commit, which either stores a message under the next number of its account or does nothing. */
module CommitLemmas {
  import opened MessageStore
  import opened MessageLedger
  import opened InboundProtocol
  import opened ProtocolInvariants

  ghost predicate Grows(arrivals: seq<Envelope>, handed: map<Account, seq<Id>>, handed': map<Account, seq<Id>>, m: Msg) {
    m < |arrivals| &&
    HandedTo(handed', arrivals[m].account) == HandedTo(handed, arrivals[m].account) + [m] &&
    forall a :: a != arrivals[m].account ==> HandedTo(handed', a) == HandedTo(handed, a)
  }

  ghost predicate RowsGrow(rows: Rows, rows': Rows, m: Msg) {
    !HasRow(rows, m) && HasRow(rows', m) && forall id :: HasRow(rows, id) ==> HasRow(rows', id)
  }

  lemma RowMeansHanded(arrivals: seq<Envelope>, l: Ledger, k: (Account, nat))
    requires Valid(l) && HandedKnown(arrivals, l.handed) && k in l.store.rows
    ensures Numbered(arrivals, l.handed, l.store.rows[k].id, k.1)
  {
    assert HandedTo(l.handed, k.0)[k.1 - 1] in HandedTo(l.handed, k.0);
  }

  lemma InsertGrows(arrivals: seq<Envelope>, l: Ledger, m: Msg, now: int)
    requires Valid(l) && m < |arrivals| && arrivals[m].id == m && Commit(l, arrivals[m], now).1.Inserted?
    ensures Grows(arrivals, l.handed, Commit(l, arrivals[m], now).0.handed, m)
    ensures RowsGrow(l.store.rows, Commit(l, arrivals[m], now).0.store.rows, m)
    ensures Numbered(arrivals, Commit(l, arrivals[m], now).0.handed, m, Commit(l, arrivals[m], now).1.accountSeq)
  {
    CommitEffect(l, arrivals[m], now);
    var (l', result) := Commit(l, arrivals[m], now);
    var at := (arrivals[m].account, result.accountSeq);
    assert at in l'.store.rows && l'.store.rows[at].id == m;
    assert forall k :: k in l.store.rows ==> k in l'.store.rows && l'.store.rows[k].id == l.store.rows[k].id;
    assert forall k :: k in l.store.rows ==> !SameMessage(l.store.rows[k], arrivals[m]);
  }

  lemma CommitGrows(arrivals: seq<Envelope>, l: Ledger, m: Msg, now: int)
    requires Valid(l) && HandedKnown(arrivals, l.handed) && m < |arrivals| && arrivals[m].id == m
    ensures var (l', result) := Commit(l, arrivals[m], now);
      && Valid(l')
      && (l' == l || (Grows(arrivals, l.handed, l'.handed, m) && RowsGrow(l.store.rows, l'.store.rows, m)))
      && InResult(arrivals, l, l', m, result)
  {
    CommitKeepsValid(l, arrivals[m], now);
    CommitEffect(l, arrivals[m], now);
    var (l', result) := Commit(l, arrivals[m], now);
    if result.Inserted? {
      InsertGrows(arrivals, l, m, now);
    } else {
      var k :| k in l.store.rows && SameMessage(l.store.rows[k], arrivals[m]) &&
               l.store.rows[k].id == result.storedId && k.1 == result.storedSeq;
      RowMeansHanded(arrivals, l, k);
    }
  }

  /** What the answer says is so: the number is this message's, or another message has the row. */
  predicate InResult(arrivals: seq<Envelope>, l: Ledger, l': Ledger, m: Msg, result: InsertResult) {
    match result
    case Inserted(number) => Numbered(arrivals, l'.handed, m, number)
    case Duplicate(storedId, storedSeq) => l' == l && Numbered(arrivals, l.handed, storedId, storedSeq)
    case Refused => false
  }

  lemma LogGrows(arrivals: seq<Envelope>, handed: map<Account, seq<Id>>, handed': map<Account, seq<Id>>, m: Msg)
    requires Grows(arrivals, handed, handed', m)
    ensures InLog(arrivals, handed', m)
    ensures forall x :: x != m ==> InLog(arrivals, handed', x) == InLog(arrivals, handed, x)
  {
    forall x | x != m ensures InLog(arrivals, handed', x) == InLog(arrivals, handed, x) {
    }
  }

  lemma HistoriesGrow(arrivals: seq<Envelope>, handed: map<Account, seq<Id>>, handed': map<Account, seq<Id>>, m: Msg, forgotten: set<Msg>)
    requires Grows(arrivals, handed, handed', m) && HandedKnown(arrivals, handed) && HandedOnce(handed, forgotten)
    requires InLog(arrivals, handed, m) ==> m in forgotten
    ensures HandedKnown(arrivals, handed') && HandedOnce(handed', forgotten)
  {
    forall a, id | id in HandedTo(handed', a) ensures id < |arrivals| && arrivals[id].account == a {
      assert id == m || id in HandedTo(handed, a);
    }
    forall a, i, j | 0 <= i < j < |HandedTo(handed', a)| && HandedTo(handed', a)[i] == HandedTo(handed', a)[j]
      ensures HandedTo(handed', a)[i] in forgotten
    {
      if a == arrivals[m].account && j == |HandedTo(handed, a)| {
        assert HandedTo(handed', a)[i] in HandedTo(handed, a);
      } else {
        assert HandedTo(handed, a)[i] == HandedTo(handed, a)[j];
      }
    }
  }

  lemma LoggedGrow(arrivals: seq<Envelope>, stage: seq<Stage>, handed: map<Account, seq<Id>>, handed': map<Account, seq<Id>>, m: Msg)
    requires Grows(arrivals, handed, handed', m) && LoggedWereTried(arrivals, stage, handed)
    requires m < |stage| && !Untried(stage[m])
    ensures LoggedWereTried(arrivals, stage, handed')
  {
    LogGrows(arrivals, handed, handed', m);
  }

  lemma RowsStayGrown(arrivals: seq<Envelope>, stage: seq<Stage>, file: seq<Msg>, left: set<Msg>, l: Ledger, l': Ledger, m: Msg,
                      forgotten: set<Msg>)
    requires Grows(arrivals, l.handed, l'.handed, m) && RowsGrow(l.store.rows, l'.store.rows, m)
    requires RowsStay(arrivals, stage, file, left, l, forgotten)
    ensures RowsStay(arrivals, stage, file, left, l', forgotten)
  {
    LogGrows(arrivals, l.handed, l'.handed, m);
  }

  lemma SafetyGrows(arrivals: seq<Envelope>, stage: seq<Stage>, unsaved: set<Msg>, left: set<Msg>, handed: map<Account, seq<Id>>,
                    handed': map<Account, seq<Id>>, file: seq<Msg>, fates: Fates, passes: seq<Pass>, m: Msg)
    requires Grows(arrivals, handed, handed', m)
    requires OutcomesHold(arrivals, handed, fates, passes) && NothingLost(arrivals, unsaved, left, handed, file, fates)
    requires WrittenOffAreSafe(arrivals, stage, left, handed, file, fates)
    ensures OutcomesHold(arrivals, handed', fates, passes) && NothingLost(arrivals, unsaved, left, handed', file, fates)
    ensures WrittenOffAreSafe(arrivals, stage, left, handed', file, fates)
  {
    LogGrows(arrivals, handed, handed', m);
    assert forall x :: InLog(arrivals, handed, x) ==> InLog(arrivals, handed', x);
  }

  lemma NumberedGrows(arrivals: seq<Envelope>, handed: map<Account, seq<Id>>, handed': map<Account, seq<Id>>, m: Msg)
    requires Grows(arrivals, handed, handed', m)
    ensures forall x, n :: Numbered(arrivals, handed, x, n) ==> Numbered(arrivals, handed', x, n)
    ensures forall x, n :: Numbered(arrivals, handed', x, n) ==>
              Numbered(arrivals, handed, x, n) || (x == m && n == |HandedTo(handed, arrivals[m].account)| + 1)
  {
  }

  lemma EmissionGrows(arrivals: seq<Envelope>, stage: seq<Stage>, handed: map<Account, seq<Id>>,
                      handed': map<Account, seq<Id>>, emitted: seq<Emission>, m: Msg)
    requires Grows(arrivals, handed, handed', m)
    requires EmittedAreLogged(arrivals, handed, emitted) && UnfinishedAreAhead(arrivals, stage, handed, emitted)
    requires AnswersAreTrue(arrivals, stage, handed)
    ensures EmittedAreLogged(arrivals, handed', emitted) && UnfinishedAreAhead(arrivals, stage, handed', emitted)
    ensures AnswersAreTrue(arrivals, stage, handed')
  {
    NumberedGrows(arrivals, handed, handed', m);
    forall i, x, n | 0 <= i < |emitted| && emitted[i].number.Some? && 0 <= x < |stage| && stage[x] != Done &&
                     SameAccount(arrivals, emitted[i].m, x) && Numbered(arrivals, handed', x, n)
      ensures emitted[i].number.value < n
    {
      assert Numbered(arrivals, handed, emitted[i].m, emitted[i].number.value);
    }
  }

  lemma OrderGrows(arrivals: seq<Envelope>, stage: seq<Stage>, file: seq<Msg>, outcomes: seq<Outcome>,
                   l: Ledger, l': Ledger, past: Past, m: Msg)
    requires Grows(arrivals, l.handed, l'.handed, m) && RowsGrow(l.store.rows, l'.store.rows, m) && Candidate(stage, file, outcomes, m)
    requires NoOvertaking(arrivals, stage, file, outcomes, l, past) && LogInOrder(l.handed, past)
    requires arrivals[m].account !in past.dirty ==>
               forall u: Msg | u < |arrivals| && SameAccount(arrivals, u, m) && u != m && Candidate(stage, file, outcomes, u) &&
                               SinceOf(past.since, arrivals[m].account) <= m :: m < u
    ensures NoOvertaking(arrivals, stage, file, outcomes, l', past) && LogInOrder(l'.handed, past)
  {
    var handed, handed' := l.handed, l'.handed;
    var a := arrivals[m].account;
    forall u, k | 0 <= u < |arrivals| && arrivals[u].account !in past.dirty && Candidate(stage, file, outcomes, u) &&
                  !HasRow(l'.store.rows, u) && k in HandedTo(handed', arrivals[u].account) &&
                  SinceOf(past.since, arrivals[u].account) <= k
      ensures k < u
    {
      assert k in HandedTo(handed, arrivals[u].account) || (k == m && arrivals[u].account == a);
    }
    forall b | b !in past.dirty ensures InOrder(HandedTo(handed', b), SinceOf(past.since, b)) {
      assert InOrder(HandedTo(handed, b), SinceOf(past.since, b));
      if b == a {
        assert forall i :: 0 <= i < |HandedTo(handed, a)| ==> HandedTo(handed, a)[i] in HandedTo(handed, a);
      }
    }
  }
}

/**
 The log together with its history: which message each number was handed to. Retention takes rows away
 and never numbers, so the history is what density and order are said about.
 */
module MessageLedger {
  import opened Options
  import opened MessageStore

  datatype Ledger = Ledger(store: Store, handed: map<Account, seq<Id>>)

  const EMPTY := Ledger(Store(map[], map[]), map[])

  /** The messages that got the numbers 1, 2, 3... of an account. */
  function HandedTo(handed: map<Account, seq<Id>>, account: Account): seq<Id> {
    if account in handed then handed[account] else []
  }

  ghost predicate HasRow(rows: Rows, id: Id) {
    exists k :: k in rows && rows[k].id == id
  }

  /** Every row stands at its number in the history, and the counter is the length of the history. */
  ghost predicate RowsAreHanded(rows: Rows, handed: map<Account, seq<Id>>) {
    forall k :: k in rows ==> 1 <= k.1 <= |HandedTo(handed, k.0)| && HandedTo(handed, k.0)[k.1 - 1] == rows[k].id
  }

  ghost predicate CountersAreLengths(counters: map<Account, nat>, handed: map<Account, seq<Id>>) {
    forall a :: CounterOf(counters, a) == |HandedTo(handed, a)|
  }

  ghost predicate Valid(l: Ledger) {
    && Constrained(l.store.rows)
    && RowsAreHanded(l.store.rows, l.handed)
    && CountersAreLengths(l.store.counters, l.handed)
  }

  /** An insert whose transaction commits. */
  ghost function Commit(l: Ledger, envelope: Envelope, now: int): (Ledger, InsertResult) {
    var (store, result) := Insert(l.store, envelope, now);
    (Ledger(store,
            if result.Inserted?
            then l.handed[envelope.account := HandedTo(l.handed, envelope.account) + [envelope.id]]
            else l.handed),
     result)
  }

  /** Retention: any rows may go. */
  function Forget(l: Ledger, keys: set<(Account, nat)>): Ledger {
    l.(store := l.store.(rows := l.store.rows - keys))
  }

  lemma NextNumberIsFree(l: Ledger, account: Account)
    requires Valid(l)
    ensures (account, CounterOf(l.store.counters, account) + 1) !in l.store.rows
  {
    assert forall k :: k in l.store.rows && k.0 == account ==> k.1 <= CounterOf(l.store.counters, account);
  }

  /** What a commit does, for whoever does not care how: the next number of the account, or nothing at all. */
  lemma CommitEffect(l: Ledger, envelope: Envelope, now: int)
    requires Valid(l)
    ensures var (l', result) := Commit(l, envelope, now);
      && !result.Refused?
      && (result.Inserted? ==>
            && result.accountSeq == |HandedTo(l.handed, envelope.account)| + 1
            && l'.handed == l.handed[envelope.account := HandedTo(l.handed, envelope.account) + [envelope.id]]
            && l'.store.rows == l.store.rows[(envelope.account, result.accountSeq) := RowFor(envelope, result.accountSeq, now)]
            && (envelope.account, result.accountSeq) !in l.store.rows
            && !Stored(l.store.rows, envelope))
      && (result.Duplicate? ==>
            && l' == l
            && (result.storedId == envelope.id <==> HasRow(l.store.rows, envelope.id))
            && exists k :: k in l.store.rows && SameMessage(l.store.rows[k], envelope) &&
                           l.store.rows[k].id == result.storedId && k.1 == result.storedSeq)
  {
    NextNumberIsFree(l, envelope.account);
    if Stored(l.store.rows, envelope) {
      var k := Holder(l.store.rows, envelope);
      assert k in l.store.rows && SameMessage(l.store.rows[k], envelope);
    }
  }

  /** The numbers ever handed to an account are 1..n with n its counter, whatever commits and whatever retention removes. */
  lemma CommitKeepsValid(l: Ledger, envelope: Envelope, now: int)
    requires Valid(l)
    ensures Valid(Commit(l, envelope, now).0)
  {
    CommitEffect(l, envelope, now);
    InsertKeepsConstraints(l.store, envelope, now);
    var (l', result) := Commit(l, envelope, now);
    if result.Inserted? {
      var a, h := envelope.account, HandedTo(l.handed, envelope.account);
      assert HandedTo(l'.handed, a) == h + [envelope.id];
      assert forall b :: b != a ==> HandedTo(l'.handed, b) == HandedTo(l.handed, b);
      CountersFollow(l, l', a, result.accountSeq);
      RowsFollow(l.store.rows, l'.store.rows, l.handed, l'.handed, a, envelope.id, (a, result.accountSeq));
    }
  }

  lemma CountersFollow(l: Ledger, l': Ledger, a: Account, n: nat)
    requires CountersAreLengths(l.store.counters, l.handed)
    requires l'.store.counters == l.store.counters[a := n]
    requires n == |HandedTo(l'.handed, a)|
    requires forall b :: b != a ==> HandedTo(l'.handed, b) == HandedTo(l.handed, b)
    ensures CountersAreLengths(l'.store.counters, l'.handed)
  {
  }

  lemma RowsFollow(rows: Rows, rows': Rows, handed: map<Account, seq<Id>>, handed': map<Account, seq<Id>>,
                   a: Account, id: Id, at: (Account, nat))
    requires RowsAreHanded(rows, handed)
    requires HandedTo(handed', a) == HandedTo(handed, a) + [id]
    requires forall b :: b != a ==> HandedTo(handed', b) == HandedTo(handed, b)
    requires at.0 == a && at.1 == |HandedTo(handed', a)|
    requires rows'.Keys == rows.Keys + {at} && at in rows' && rows'[at].id == id
    requires forall k :: k in rows && k != at ==> rows'[k] == rows[k]
    ensures RowsAreHanded(rows', handed')
  {
  }

  lemma ForgetKeepsValid(l: Ledger, keys: set<(Account, nat)>)
    requires Valid(l)
    ensures Valid(Forget(l, keys))
  {
    assert forall k :: k in Forget(l, keys).store.rows ==> k in l.store.rows && Forget(l, keys).store.rows[k] == l.store.rows[k];
  }

  // ── Runs ─────────────────────────────────────────────────────────

  /** An attempt commits, or it does not; that its answer may be lost changes nothing here. Or retention removes rows. */
  datatype LogEvent =
    | Committed(envelope: Envelope, now: int)
    | Uncommitted(envelope: Envelope)
    | Forgotten(keys: set<(Account, nat)>)
    | Expired(cutoff: int)

  ghost function LogAfter(l: Ledger, events: seq<LogEvent>): Ledger
    decreases |events|
  {
    if events == [] then l
    else
      var before := LogAfter(l, events[..|events| - 1]);
      match events[|events| - 1]
      case Committed(envelope, now) => Commit(before, envelope, now).0
      case Uncommitted(_) => before
      case Forgotten(keys) => Forget(before, keys)
      case Expired(cutoff) => before.(store := before.store.(rows := Retained(before.store.rows, cutoff)))
  }

  lemma {:induction false} RunsKeepValid(l: Ledger, events: seq<LogEvent>)
    requires Valid(l)
    ensures Valid(LogAfter(l, events))
    decreases |events|
  {
    if events == [] {
    } else {
      var before := LogAfter(l, events[..|events| - 1]);
      RunsKeepValid(l, events[..|events| - 1]);
      match events[|events| - 1]
      case Committed(envelope, now) => CommitKeepsValid(before, envelope, now);
      case Uncommitted(_) =>
      case Forgotten(keys) => ForgetKeepsValid(before, keys);
      case Expired(cutoff) => ExpiringForgets(before, cutoff);
    }
  }

  /** Retention by age is a removal of rows like any other. */
  lemma ExpiringForgets(l: Ledger, cutoff: int)
    requires Valid(l)
    ensures Valid(l.(store := l.store.(rows := Retained(l.store.rows, cutoff))))
  {
    var t := l.(store := l.store.(rows := Retained(l.store.rows, cutoff)));
    assert forall k :: k in t.store.rows ==> k in l.store.rows && t.store.rows[k] == l.store.rows[k];
  }

  /** When a number was given last, along a run. */
  ghost function GivenAt(l: Ledger, events: seq<LogEvent>, k: (Account, nat)): Option<int>
    decreases |events|
  {
    if events == [] then None
    else
      var earlier, e := events[..|events| - 1], events[|events| - 1];
      if e.Committed? && e.envelope.account == k.0 && Commit(LogAfter(l, earlier), e.envelope, e.now).1 == Inserted(k.1)
      then Some(e.now) else GivenAt(l, earlier, k)
  }

  /** A row is as old as the commit that gave its number. */
  lemma {:induction false} RowsKnowTheirAge(events: seq<LogEvent>, k: (Account, nat))
    requires k in LogAfter(EMPTY, events).store.rows
    ensures GivenAt(EMPTY, events, k) == Some(LogAfter(EMPTY, events).store.rows[k].createdAt)
    decreases |events|
  {
    hide Commit, Valid;
    if events != [] {
      var earlier, e := events[..|events| - 1], events[|events| - 1];
      RunsAreValid(earlier);
      if e.Committed? { CommitEffect(LogAfter(EMPTY, earlier), e.envelope, e.now); }
      if k in LogAfter(EMPTY, earlier).store.rows { RowsKnowTheirAge(earlier, k); }
    }
  }

  lemma RunsAreValid(events: seq<LogEvent>)
    ensures Valid(LogAfter(EMPTY, events))
  {
    RunsKeepValid(EMPTY, events);
  }

  /** After any run, retention removes exactly the rows whose number was given before the cutoff. */
  lemma RetentionGoesByAge(events: seq<LogEvent>, cutoff: int, k: (Account, nat))
    ensures k in LogAfter(EMPTY, events + [Expired(cutoff)]).store.rows <==>
              k in LogAfter(EMPTY, events).store.rows && GivenAt(EMPTY, events, k).Some? && GivenAt(EMPTY, events, k).value >= cutoff
  {
    assert (events + [Expired(cutoff)])[..|events|] == events;
    if k in LogAfter(EMPTY, events).store.rows { RowsKnowTheirAge(events, k); }
  }

  /** A number, once handed, keeps its message: a history only ever grows at its end. */
  lemma {:induction false} HistoriesOnlyGrow(l: Ledger, events: seq<LogEvent>, a: Account)
    requires Valid(l)
    ensures HandedTo(l.handed, a) <= HandedTo(LogAfter(l, events).handed, a)
    decreases |events|
  {
    if events == [] {
    } else {
      var earlier := events[..|events| - 1];
      HistoriesOnlyGrow(l, earlier, a);
      RunsKeepValid(l, earlier);
      match events[|events| - 1]
      case Committed(envelope, now) => CommitEffect(LogAfter(l, earlier), envelope, now);
      case Uncommitted(_) =>
      case Forgotten(keys) =>
      case Expired(cutoff) =>
    }
  }
}

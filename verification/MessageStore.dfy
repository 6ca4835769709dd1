/**
 The durable log of inbound messages: the rows, the number each account counts up to, and the
 transaction that takes a number, stores a row under it, and gives the number back for a duplicate.
 The database itself is a set of rows and its three uniqueness constraints.
 */
module MessageStore {
  import opened Options

  type Account = string

  /** An envelope's id. The gateway makes a fresh one for every message, so ids are numbered. */
  type Id = nat

  datatype Envelope = Envelope(id: Id, account: Account, messageId: Option<string>)

  /** The WhatsApp id a message is deduplicated by. An empty one never dedupes. */
  function WaMessageIdOf(envelope: Envelope): (wa: Option<string>)
    ensures wa.Some? ==> wa.value != "" && envelope.messageId == wa
    ensures wa.None? <==> envelope.messageId.None? || envelope.messageId.value == ""
  {
    if envelope.messageId == Some("") then None else envelope.messageId
  }

  datatype Row = Row(id: Id, account: Account, wa: Option<string>, accountSeq: nat, createdAt: int)

  /** Rows by account and number, which the database keeps unique. */
  type Rows = map<(Account, nat), Row>

  datatype Store = Store(rows: Rows, counters: map<Account, nat>)

  datatype InsertResult =
    | Inserted(accountSeq: nat)
    | Duplicate(storedId: Id, storedSeq: nat)
    | Refused

  function CounterOf(counters: map<Account, nat>, account: Account): nat {
    if account in counters then counters[account] else 0
  }

  predicate SameMessage(row: Row, envelope: Envelope) {
    row.id == envelope.id ||
    (row.account == envelope.account && WaMessageIdOf(envelope).Some? && row.wa == WaMessageIdOf(envelope))
  }

  predicate Stored(rows: Rows, envelope: Envelope) {
    exists k :: k in rows && SameMessage(rows[k], envelope)
  }

  function RowFor(envelope: Envelope, number: nat, now: int): Row {
    Row(envelope.id, envelope.account, WaMessageIdOf(envelope), number, now)
  }

  /** The numbers of an account's rows above a cursor. */
  function NumbersAbove(rows: Rows, account: Account, after: int): (numbers: set<nat>)
    ensures forall n :: n in numbers <==> n > after && (account, n) in rows
  {
    var numbers := set k | k in rows && k.0 == account && k.1 > after :: k.1;
    assert forall n :: n in numbers ==> (account, n) in rows;
    assert forall n: nat :: n > after && (account, n) in rows ==> (account, n).1 in numbers;
    numbers
  }

  lemma {:induction false} Greatest(s: set<nat>) returns (m: nat)
    requires s != {}
    ensures m in s && forall n :: n in s ==> n <= m
  {
    m :| m in s;
    var rest := s - {m};
    assert forall n :: n in s ==> n == m || n in rest;
    if rest != {} {
      var other := Greatest(rest);
      m := if m < other then other else m;
    }
  }

  lemma HasGreatest(s: set<nat>)
    requires s != {}
    ensures exists m :: m in s && forall n :: n in s ==> n <= m
  {
    var m := Greatest(s);
  }

  /** `COALESCE(MAX(account_seq), 0)` */
  function MaxNumber(rows: Rows, account: Account): (m: nat)
    ensures forall n :: (account, n) in rows ==> n <= m
    ensures m == 0 || (account, m) in rows
  {
    var numbers := NumbersAbove(rows, account, -1);
    if numbers == {} then 0 else
      HasGreatest(numbers);
      var m :| m in numbers && forall n :: n in numbers ==> n <= m;
      m
  }

  /** What the three constraints keep out. `ON CONFLICT DO NOTHING` then changes nothing. */
  predicate Conflicts(rows: Rows, envelope: Envelope, number: nat) {
    (envelope.account, number) in rows || Stored(rows, envelope)
  }

  /** The row that holds a stored message: its own if there is one, else the one with its WhatsApp id. */
  ghost predicate Holds(rows: Rows, envelope: Envelope, k: (Account, nat)) {
    k in rows && SameMessage(rows[k], envelope) &&
    ((exists own :: own in rows && rows[own].id == envelope.id) ==> rows[k].id == envelope.id)
  }

  ghost function Holder(rows: Rows, envelope: Envelope): (k: (Account, nat))
    requires Stored(rows, envelope)
    ensures Holds(rows, envelope, k)
  {
    if own :| own in rows && rows[own].id == envelope.id then own
    else var k :| k in rows && SameMessage(rows[k], envelope); k
  }

  /** One insert of the log, as a whole: what the transaction leaves behind and what it answers. */
  ghost function Insert(store: Store, envelope: Envelope, now: int): (Store, InsertResult) {
    var n := CounterOf(store.counters, envelope.account) + 1;
    if Stored(store.rows, envelope) then
      var k := Holder(store.rows, envelope);
      (store, Duplicate(store.rows[k].id, k.1))
    else
      var number := if (envelope.account, n) in store.rows then MaxNumber(store.rows, envelope.account) + 1 else n;
      (Store(store.rows[(envelope.account, number) := RowFor(envelope, number, now)],
             store.counters[envelope.account := number]),
       Inserted(number))
  }

  /** A row holds what its message says, and the moment it was stored. */
  predicate SaysSo(row: Row, envelope: Envelope, number: nat, now: int) {
    && row.id == envelope.id && row.account == envelope.account && row.accountSeq == number && row.createdAt == now
    && (row.wa.Some? <==> envelope.messageId.Some? && envelope.messageId.value != "") && (row.wa.Some? ==> row.wa == envelope.messageId)
  }

  /** What the constraints keep true of any rows, whatever the counters say. */
  ghost predicate Constrained(rows: Rows) {
    && (forall k :: k in rows ==> rows[k].account == k.0 && rows[k].accountSeq == k.1)
    && (forall k, l :: k in rows && l in rows && rows[k].id == rows[l].id ==> k == l)
    && (forall k, l :: k in rows && l in rows && k.0 == l.0 && rows[k].wa.Some? && rows[k].wa == rows[l].wa ==> k == l)
  }

  lemma HolderIsUnique(rows: Rows, envelope: Envelope, k: (Account, nat), l: (Account, nat))
    requires Constrained(rows) && Holds(rows, envelope, k) && Holds(rows, envelope, l)
    ensures k == l
  {
  }

  lemma InsertKeepsConstraints(store: Store, envelope: Envelope, now: int)
    requires Constrained(store.rows)
    ensures Constrained(Insert(store, envelope, now).0.rows)
  {
  }

  /**
   * A counter behind its rows catches up: the message gets the first number above all of its account's, which no
   * constraint keeps out, and the next one follows it without catching up again.
   */
  lemma CounterBehindCatchesUp(store: Store, envelope: Envelope, now: int)
    requires Constrained(store.rows) && !Stored(store.rows, envelope)
    requires (envelope.account, CounterOf(store.counters, envelope.account) + 1) in store.rows
    ensures var (t, result) := Insert(store, envelope, now);
      && result.Inserted? && !Conflicts(store.rows, envelope, result.accountSeq)
      && (forall n :: (envelope.account, n) in store.rows ==> n < result.accountSeq)
      && (envelope.account, result.accountSeq - 1) in store.rows
      && CounterOf(t.counters, envelope.account) == result.accountSeq
      && (envelope.account, CounterOf(t.counters, envelope.account) + 1) !in t.rows
  {
    var m := MaxNumber(store.rows, envelope.account);
    assert m >= CounterOf(store.counters, envelope.account) + 1;
  }

  // ── The transaction, statement by statement ──────────────────────

  class Log {
    var rows: Rows
    var counters: map<Account, nat>

    ghost function View(): Store
      reads this
    {
      Store(rows, counters)
    }

    ghost predicate Valid()
      reads this
    {
      Constrained(rows)
    }

    constructor ()
      ensures Valid() && View() == Store(map[], map[])
    {
      rows, counters := map[], map[];
    }

    /** `INSERT ... ON CONFLICT DO NOTHING`: how many rows changed. */
    method InsertWith(envelope: Envelope, number: nat, now: int) returns (changes: nat)
      modifies this`rows
      ensures changes == if old(Conflicts(rows, envelope, number)) then 0 else 1
      ensures rows == if changes == 0 then old(rows) else old(rows)[(envelope.account, number) := RowFor(envelope, number, now)]
      ensures changes == 1 ==> SaysSo(rows[(envelope.account, number)], envelope, number, now)
    {
      if Conflicts(rows, envelope, number) {
        return 0;
      }
      rows := rows[(envelope.account, number) := RowFor(envelope, number, now)];
      changes := 1;
    }

    /** A stored message's row: under its own id, or else under its WhatsApp id. */
    method ReadStored(envelope: Envelope) returns (stored: Option<Row>)
      requires Valid()
      ensures stored.Some? <==> Stored(rows, envelope)
      ensures stored.Some? ==> stored.value == rows[Holder(rows, envelope)]
    {
      if own :| own in rows && rows[own].id == envelope.id {
        HolderIsUnique(rows, envelope, own, Holder(rows, envelope));
        return Some(rows[own]);
      }
      if k :| k in rows && SameMessage(rows[k], envelope) {
        HolderIsUnique(rows, envelope, k, Holder(rows, envelope));
        return Some(rows[k]);
      }
      stored := None;
    }

    /** `UPDATE account_counters SET n = (SELECT COALESCE(MAX(account_seq), 0) + 1 ...)` */
    method ResyncCounter(account: Account) returns (n: nat)
      modifies this`counters
      ensures n == MaxNumber(rows, account) + 1
      ensures counters == old(counters)[account := n]
      ensures (account, n) !in rows
    {
      n := MaxNumber(rows, account) + 1;
      counters := counters[account := n];
    }

    /**
     * A number is taken first, and given back for a duplicate. If another row has that number the counter lags, and
     * catches up with the rows; the number after that is free, so nothing is refused.
     */
    method Run(envelope: Envelope, now: int) returns (result: InsertResult)
      requires Valid()
      modifies this
      ensures View() == Insert(old(View()), envelope, now).0
      ensures result == Insert(old(View()), envelope, now).1
    {
      var before := counters;
      var n := CounterOf(counters, envelope.account) + 1;
      counters := counters[envelope.account := n];
      var changes := InsertWith(envelope, n, now);
      if changes == 0 {
        var stored := ReadStored(envelope);
        if stored.Some? {
          counters := before;
          return Duplicate(stored.value.id, stored.value.accountSeq);
        }
        n := ResyncCounter(envelope.account);
        changes := InsertWith(envelope, n, now);
      }
      result := if changes == 0 then Refused else Inserted(n);
    }

    method InsertInbound(envelope: Envelope, now: int) returns (result: InsertResult)
      requires Valid()
      modifies this
      ensures Valid()
      ensures View() == Insert(old(View()), envelope, now).0
      ensures result == Insert(old(View()), envelope, now).1 && !result.Refused?
      ensures result.Inserted? ==>
                var k := (envelope.account, result.accountSeq);
                && k !in old(rows) && k in rows && SaysSo(rows[k], envelope, result.accountSeq, now)
                && forall other :: other != k ==> (other in rows <==> other in old(rows)) && (other in rows ==> rows[other] == old(rows)[other])
      ensures !result.Inserted? ==> rows == old(rows) && Stored(rows, envelope)
    {
      InsertKeepsConstraints(View(), envelope, now);
      result := Run(envelope, now);
    }

    /** Retention in batches, so a big delete never holds everything else for long. */
    method DeleteOlderThan(cutoff: int, batch: nat) returns (deleted: nat)
      requires batch > 0
      modifies this`rows
      ensures rows == Retained(old(rows), cutoff)
      ensures deleted == |old(rows)| - |rows|
    {
      deleted := 0;
      var changes := batch;
      while changes == batch
        invariant changes <= batch
        invariant Retained(rows, cutoff) == Retained(old(rows), cutoff)
        invariant deleted == |old(rows)| - |rows|
        invariant changes < batch ==> Retained(rows, cutoff) == rows
        decreases changes == batch, |rows|
      {
        var chosen := ChooseOld(cutoff, batch);
        DeletingOldRows(rows, chosen, cutoff);
        rows := rows - chosen;
        changes := |chosen|;
        deleted := deleted + changes;
      }
    }

    /** `SELECT rowid ... WHERE created_at < ? LIMIT ?`: any of them, as many as there are up to the limit. */
    method ChooseOld(cutoff: int, limit: nat) returns (chosen: set<(Account, nat)>)
      ensures chosen <= rows.Keys && forall k :: k in chosen ==> rows[k].createdAt < cutoff
      ensures |chosen| <= limit
      ensures |chosen| < limit ==> forall k :: k in rows && rows[k].createdAt < cutoff ==> k in chosen
    {
      chosen := {};
      var left := set k | k in rows && rows[k].createdAt < cutoff;
      while left != {} && |chosen| < limit
        invariant chosen <= rows.Keys && forall k :: k in chosen ==> rows[k].createdAt < cutoff
        invariant left <= rows.Keys && forall k :: k in left ==> rows[k].createdAt < cutoff
        invariant forall k :: k in rows && rows[k].createdAt < cutoff ==> k in chosen || k in left
        invariant chosen !! left
        invariant |chosen| <= limit
        decreases left
      {
        var k :| k in left;
        left := left - {k};
        chosen := chosen + {k};
      }
    }
  }

  lemma DeletingOldRows(rows: Rows, chosen: set<(Account, nat)>, cutoff: int)
    requires chosen <= rows.Keys && forall k :: k in chosen ==> rows[k].createdAt < cutoff
    ensures |rows - chosen| == |rows| - |chosen|
    ensures Retained(rows - chosen, cutoff) == Retained(rows, cutoff)
    ensures (forall k :: k in rows && rows[k].createdAt < cutoff ==> k in chosen) ==>
              Retained(rows - chosen, cutoff) == rows - chosen
  {
    var remaining := rows - chosen;
    assert forall k :: k in remaining <==> k in rows && k !in chosen;
    assert Retained(remaining, cutoff).Keys == Retained(rows, cutoff).Keys;
    assert remaining.Keys == rows.Keys - chosen;
    assert |rows.Keys - chosen| == |rows.Keys| - |chosen|;
    assert |remaining| == |remaining.Keys|;
  }

  /**
   * A message stored now is there after retention if and only if it is not older than the cutoff, and storing it makes no
   * difference to what retention does to any other row.
   */
  lemma RetentionSparesTheNew(store: Store, envelope: Envelope, now: int, cutoff: int, k: (Account, nat))
    requires Insert(store, envelope, now).1.Inserted?
    ensures var (t, result) := Insert(store, envelope, now);
      if k == (envelope.account, result.accountSeq)
      then k !in store.rows && (k in Retained(t.rows, cutoff) <==> now >= cutoff)
      else && (k in Retained(t.rows, cutoff) <==> k in Retained(store.rows, cutoff))
           && (k in Retained(t.rows, cutoff) ==> Retained(t.rows, cutoff)[k] == store.rows[k])
  {
  }

  /** What a single `DELETE ... WHERE created_at < ?` leaves. */
  function Retained(rows: Rows, cutoff: int): Rows {
    map k | k in rows && rows[k].createdAt >= cutoff :: rows[k]
  }
}

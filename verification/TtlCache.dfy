/**
 A cache whose entries live for a while and of which there are never more than so many. JavaScript's map keeps the
 order in which keys were inserted, so it is a sequence here. Times are whatever the clock said at each call.
 */
module TtlCache {
  import opened Options

  type Key = string

  datatype Entry<V> = Entry(key: Key, value: V, expiresAt: int)

  // ── What the operations do ───────────────────────────────────────

  predicate Has<V>(entries: seq<Entry<V>>, key: Key) {
    exists i :: 0 <= i < |entries| && entries[i].key == key
  }

  function At<V>(entries: seq<Entry<V>>, key: Key): (i: nat)
    requires Has(entries, key)
    ensures i < |entries| && entries[i].key == key && forall j :: 0 <= j < i ==> entries[j].key != key
  {
    if entries[0].key == key then 0
    else
      var i :| 0 <= i < |entries| && entries[i].key == key;
      assert entries[1..][i - 1].key == key;
      1 + At(entries[1..], key)
  }

  function Deleted<V>(entries: seq<Entry<V>>, key: Key): seq<Entry<V>> {
    if Has(entries, key) then entries[..At(entries, key)] + entries[At(entries, key) + 1..] else entries
  }

  /** With no cap, nothing is evicted. */
  function Trimmed<V>(entries: seq<Entry<V>>, max: Option<nat>): seq<Entry<V>> {
    if max.Some? && |entries| > max.value then entries[|entries| - max.value..] else entries
  }

  /** A key set again counts as new. */
  function Put<V>(entries: seq<Entry<V>>, entry: Entry<V>, max: Option<nat>): seq<Entry<V>> {
    Trimmed(Deleted(entries, entry.key) + [entry], max)
  }

  function Found<V>(entries: seq<Entry<V>>, key: Key, now: int): Option<V> {
    if Has(entries, key) && entries[At(entries, key)].expiresAt > now then Some(entries[At(entries, key)].value) else None
  }

  /** An expired entry goes when it is read. */
  function AfterGet<V>(entries: seq<Entry<V>>, key: Key, now: int): seq<Entry<V>> {
    if Found(entries, key, now).Some? then entries else Deleted(entries, key)
  }

  /** An entry that is read is there afterwards exactly if it was found, and no other is touched. */
  lemma ReadingDropsTheExpired<V>(entries: seq<Entry<V>>, key: Key, now: int, other: Key)
    requires Distinct(entries)
    ensures Has(AfterGet(entries, key, now), key) <==> Found(entries, key, now).Some?
    ensures other != key ==> (Has(AfterGet(entries, key, now), other) <==> Has(entries, other))
  {
    DeletedIsGone(entries, key);
    if Has(entries, key) {
      var at, left := At(entries, key), Deleted(entries, key);
      if i :| other != key && 0 <= i < |entries| && entries[i].key == other { assert left[if i < at then i else i - 1] == entries[i]; }
      if j :| 0 <= j < |left| && left[j].key == other { assert left[j] == entries[if j < at then j else j + 1]; }
    }
  }

  // ── What stays true ──────────────────────────────────────────────

  ghost predicate Distinct<V>(entries: seq<Entry<V>>) {
    forall i, j :: 0 <= i < j < |entries| ==> entries[i].key != entries[j].key
  }

  /** The order of insertion is the order of expiry, and nothing expires later than a set now would. */
  ghost predicate InExpiryOrder<V>(entries: seq<Entry<V>>, latest: int) {
    && (forall i, j :: 0 <= i < j < |entries| ==> entries[i].expiresAt <= entries[j].expiresAt)
    && (forall i :: 0 <= i < |entries| ==> entries[i].expiresAt <= latest)
  }

  ghost predicate Valid<V>(entries: seq<Entry<V>>, max: Option<nat>, latest: int) {
    Distinct(entries) && InExpiryOrder(entries, latest) && (max.Some? ==> |entries| <= max.value)
  }

  /** Where an entry that stays was before. */
  function Before<V>(entries: seq<Entry<V>>, key: Key, i: nat): (j: nat)
    requires i < |Deleted(entries, key)|
    ensures j < |entries| && i <= j && Deleted(entries, key)[i] == entries[j]
  {
    if Has(entries, key) && i >= At(entries, key) then i + 1 else i
  }

  lemma BeforeGrows<V>(entries: seq<Entry<V>>, key: Key, i: nat, j: nat)
    requires i < j < |Deleted(entries, key)|
    ensures Before(entries, key, i) < Before(entries, key, j)
  {
  }

  lemma DeletedIsDistinct<V>(entries: seq<Entry<V>>, key: Key)
    requires Distinct(entries)
    ensures Distinct(Deleted(entries, key))
  {
    hide Deleted;
    var left := Deleted(entries, key);
    forall i, j | 0 <= i < j < |left| ensures left[i].key != left[j].key {
      BeforeGrows(entries, key, i, j);
      assert left[i] == entries[Before(entries, key, i)] && left[j] == entries[Before(entries, key, j)];
    }
  }

  lemma DeletedIsInOrder<V>(entries: seq<Entry<V>>, key: Key, latest: int)
    requires InExpiryOrder(entries, latest)
    ensures InExpiryOrder(Deleted(entries, key), latest)
  {
    hide Deleted;
    var left := Deleted(entries, key);
    forall i | 0 <= i < |left| ensures left[i].expiresAt <= latest {
      assert left[i] == entries[Before(entries, key, i)];
    }
    forall i, j | 0 <= i < j < |left| ensures left[i].expiresAt <= left[j].expiresAt {
      BeforeGrows(entries, key, i, j);
      assert left[i] == entries[Before(entries, key, i)] && left[j] == entries[Before(entries, key, j)];
    }
  }

  lemma DeletedIsGone<V>(entries: seq<Entry<V>>, key: Key)
    requires Distinct(entries)
    ensures !Has(Deleted(entries, key), key) && |Deleted(entries, key)| <= |entries|
  {
    if Has(entries, key) {
      var at, left := At(entries, key), Deleted(entries, key);
      forall i | 0 <= i < |left| ensures left[i].key != key {
        var j := Before(entries, key, i);
        assert j != at && entries[at].key == key;
      }
    }
  }

  lemma DeletedKeeps<V>(entries: seq<Entry<V>>, key: Key, latest: int)
    requires Distinct(entries) && InExpiryOrder(entries, latest)
    ensures var left := Deleted(entries, key);
      && Distinct(left) && InExpiryOrder(left, latest) && !Has(left, key) && |left| <= |entries|
  {
    hide Deleted, Distinct, InExpiryOrder, Has;
    DeletedIsDistinct(entries, key);
    DeletedIsInOrder(entries, key, latest);
    DeletedIsGone(entries, key);
  }

  lemma PutKeeps<V>(entries: seq<Entry<V>>, entry: Entry<V>, max: Option<nat>, latest: int)
    requires Valid(entries, max, latest) && latest <= entry.expiresAt
    ensures Valid(Put(entries, entry, max), max, entry.expiresAt)
  {
    hide Deleted;
    DeletedKeeps(entries, entry.key, latest);
    var left := Deleted(entries, entry.key);
    assert forall i :: 0 <= i < |left| ==> left[i].key != entry.key;
    var all := left + [entry];
    assert Distinct(all) && InExpiryOrder(all, entry.expiresAt);
  }

  /** What is evicted had expired, unless nothing that stays has. */
  lemma EvictsExpiredFirst<V>(entries: seq<Entry<V>>, max: Option<nat>, latest: int, now: int, evicted: nat, staying: nat)
    requires InExpiryOrder(entries, latest)
    requires evicted < |entries| && staying < |entries| && evicted < |entries| - |Trimmed(entries, max)| <= staying
    ensures entries[evicted].expiresAt > now ==> entries[staying].expiresAt > now
  {
  }

  // ── In place ─────────────────────────────────────────────────────

  class Cache<V(==)> {
    const ttlMs: nat
    const max: Option<nat>
    var entries: seq<Entry<V>>

    constructor (ttlMs: nat, max: Option<nat>)
      ensures this.ttlMs == ttlMs && this.max == max && entries == []
    {
      this.ttlMs, this.max, entries := ttlMs, max, [];
    }

    method Get(key: Key, now: int) returns (value: Option<V>)
      modifies this
      ensures value == Found(old(entries), key, now)
      ensures entries == AfterGet(old(entries), key, now)
    {
      if !Has(entries, key) {
        return None;
      }
      var i := At(entries, key);
      if entries[i].expiresAt <= now {
        entries := entries[..i] + entries[i + 1..];
        return None;
      }
      value := Some(entries[i].value);
    }

    /** Whatever it held before, it holds no more than its cap after. */
    method Set(key: Key, value: V, now: int)
      modifies this
      ensures entries == Put(old(entries), Entry(key, value, now + ttlMs), max)
    {
      entries := Deleted(entries, key) + [Entry(key, value, now + ttlMs)];
      ghost var all := entries;
      ghost var gone: nat := 0;
      while max.Some? && |entries| > max.value
        invariant gone <= |all| && entries == all[gone..]
        invariant gone > 0 ==> max.Some? && |entries| >= max.value
      {
        entries := entries[1..];
        gone := gone + 1;
      }
    }

    method Del(key: Key)
      modifies this
      ensures entries == Deleted(old(entries), key)
    {
      entries := Deleted(entries, key);
    }

    method FlushAll()
      modifies this
      ensures entries == []
    {
      entries := [];
    }
  }

  // ── Runs ─────────────────────────────────────────────────────────

  datatype Op<V> = Get(key: Key) | Set(key: Key, value: V) | Del(key: Key) | Flush

  datatype Call<V> = Call(op: Op<V>, now: int)

  function Next<V>(entries: seq<Entry<V>>, call: Call<V>, ttlMs: nat, max: Option<nat>): seq<Entry<V>> {
    match call.op
    case Get(key) => AfterGet(entries, key, call.now)
    case Set(key, value) => Put(entries, Entry(key, value, call.now + ttlMs), max)
    case Del(key) => Deleted(entries, key)
    case Flush => []
  }

  function After<V>(entries: seq<Entry<V>>, calls: seq<Call<V>>, ttlMs: nat, max: Option<nat>): seq<Entry<V>>
    decreases |calls|
  {
    if calls == [] then entries else After(Next(entries, calls[0], ttlMs, max), calls[1..], ttlMs, max)
  }

  /** The clock does not go back. */
  ghost predicate InTime<V>(calls: seq<Call<V>>, from: int, to: int)
    decreases |calls|
  {
    if calls == [] then from <= to else from <= calls[0].now && InTime(calls[1..], calls[0].now, to)
  }

  lemma LaterIsFine<V>(entries: seq<Entry<V>>, latest: int, later: int)
    requires InExpiryOrder(entries, latest) && latest <= later
    ensures InExpiryOrder(entries, later)
  {
  }

  lemma NextKeeps<V>(entries: seq<Entry<V>>, call: Call<V>, ttlMs: nat, max: Option<nat>, before: int)
    requires Valid(entries, max, before + ttlMs) && before <= call.now
    ensures Valid(Next(entries, call, ttlMs, max), max, call.now + ttlMs)
  {
    hide Deleted, Put;
    LaterIsFine(entries, before + ttlMs, call.now + ttlMs);
    match call.op
    case Get(key) => DeletedKeeps(entries, key, before + ttlMs);
    case Set(key, value) => PutKeeps(entries, Entry(key, value, call.now + ttlMs), max, before + ttlMs);
    case Del(key) => DeletedKeeps(entries, key, before + ttlMs);
    case Flush =>
  }

  lemma {:induction false} RunKeeps<V>(entries: seq<Entry<V>>, calls: seq<Call<V>>, ttlMs: nat, max: Option<nat>, from: int, to: int)
    requires Valid(entries, max, from + ttlMs) && InTime(calls, from, to)
    ensures Valid(After(entries, calls, ttlMs, max), max, to + ttlMs)
    decreases |calls|
  {
    if calls == [] {
    } else {
      hide Next;
      NextKeeps(entries, calls[0], ttlMs, max, from);
      RunKeeps(Next(entries, calls[0], ttlMs, max), calls[1..], ttlMs, max, calls[0].now, to);
    }
  }

  // ── A value stays for its time ───────────────────────────────────

  predicate Touches<V>(call: Call<V>, key: Key) {
    call.op.Flush? || ((call.op.Set? || call.op.Del?) && call.op.key == key)
  }

  function KeysSet<V>(calls: seq<Call<V>>): set<Key> {
    set i | 0 <= i < |calls| && calls[i].op.Set? :: calls[i].op.key
  }

  ghost predicate StandsAt<V>(entries: seq<Entry<V>>, entry: Entry<V>, others: set<Key>, i: int) {
    0 <= i < |entries| && entries[i] == entry && forall j :: i < j < |entries| ==> entries[j].key in others
  }

  /** The entry is there with nothing newer than `others`, or its time is over. */
  ghost predicate Holds<V>(entries: seq<Entry<V>>, entry: Entry<V>, others: set<Key>, now: int) {
    if Has(entries, entry.key) then exists i :: StandsAt(entries, entry, others, i)
    else entry.expiresAt <= now
  }

  lemma DeletingAnother<V>(entries: seq<Entry<V>>, entry: Entry<V>, key: Key, others: set<Key>, i: int)
    requires Has(entries, key) && StandsAt(entries, entry, others, i) && key != entry.key
    ensures StandsAt(Deleted(entries, key), entry, others, if i < At(entries, key) then i else i - 1)
  {
    var left, at := Deleted(entries, key), At(entries, key);
    var i' := if i < at then i else i - 1;
    assert i != at && Before(entries, key, i') == i;
    hide Deleted;
    forall j | i' < j < |left| ensures left[j].key in others {
      BeforeGrows(entries, key, i', j);
      assert left[j] == entries[Before(entries, key, j)];
    }
  }

  lemma DeletingStaysAway<V>(entries: seq<Entry<V>>, key: Key, other: Key)
    requires !Has(entries, key)
    ensures !Has(Deleted(entries, other), key)
  {
    hide Deleted;
    var left := Deleted(entries, other);
    forall i | 0 <= i < |left| ensures left[i].key != key {
      assert left[i] == entries[Before(entries, other, i)];
    }
  }

  lemma DeletingHolds<V>(entries: seq<Entry<V>>, entry: Entry<V>, key: Key, others: set<Key>, now: int)
    requires Holds(entries, entry, others, now) && key != entry.key
    ensures Holds(Deleted(entries, key), entry, others, now)
  {
    hide Deleted;
    if !Has(entries, key) {
      NothingDeleted(entries, key);
    } else if Has(entries, entry.key) {
      var i :| StandsAt(entries, entry, others, i);
      DeletingAnother(entries, entry, key, others, i);
    } else {
      DeletingStaysAway(entries, entry.key, key);
    }
  }

  lemma NothingDeleted<V>(entries: seq<Entry<V>>, key: Key)
    requires !Has(entries, key)
    ensures Deleted(entries, key) == entries
  {
  }

  /** Distinct keys, all of them among `others`. */
  lemma {:induction false} NoMoreThan<V>(entries: seq<Entry<V>>, others: set<Key>)
    requires Distinct(entries) && forall j :: 0 <= j < |entries| ==> entries[j].key in others
    ensures |entries| <= |others|
    decreases |entries|
  {
    if entries == [] {
    } else {
      NoMoreThan(entries[1..], others - {entries[0].key});
    }
  }

  /** Where the entry stands, as many as `others` come after it at most, so the cap does not reach it. */
  lemma TrimmingSpares<V>(all: seq<Entry<V>>, entry: Entry<V>, others: set<Key>, max: Option<nat>, i: int)
    requires Distinct(all) && StandsAt(all, entry, others, i)
    requires max.Some? ==> |others| < max.value
    ensures StandsAt(Trimmed(all, max), entry, others, i - |all| + |Trimmed(all, max)|)
  {
    var newer := all[i + 1..];
    assert Distinct(newer);
    forall j | 0 <= j < |newer| ensures newer[j].key in others {
      assert newer[j] == all[i + 1 + j];
    }
    NoMoreThan(newer, others);
  }

  lemma SettingAnother<V>(entries: seq<Entry<V>>, entry: Entry<V>, other: Entry<V>, others: set<Key>, max: Option<nat>, now: int)
    requires Distinct(entries) && Holds(entries, entry, others, now) && other.key != entry.key && other.key in others
    requires max.Some? ==> |others| < max.value
    ensures Holds(Put(entries, other, max), entry, others, now)
  {
    DeletingHolds(entries, entry, other.key, others, now);
    DeletedIsDistinct(entries, other.key);
    DeletedIsGone(entries, other.key);
    var left := Deleted(entries, other.key);
    hide Deleted;
    var all := left + [other];
    assert Distinct(all);
    if Has(left, entry.key) {
      var i :| StandsAt(left, entry, others, i);
      assert StandsAt(all, entry, others, i);
      TrimmingSpares(all, entry, others, max, i);
    } else {
      assert !Has(all, entry.key);
    }
  }

  /** A read of the entry itself drops it only when its time is over. */
  lemma ReadingHolds<V>(entries: seq<Entry<V>>, entry: Entry<V>, others: set<Key>, now: int)
    requires Distinct(entries) && Holds(entries, entry, others, now)
    ensures Holds(AfterGet(entries, entry.key, now), entry, others, now)
  {
    DeletedIsDistinct(entries, entry.key);
    DeletedIsGone(entries, entry.key);
    hide Deleted;
    if Has(entries, entry.key) {
      var i :| StandsAt(entries, entry, others, i);
      assert At(entries, entry.key) == i;
    } else {
      NothingDeleted(entries, entry.key);
    }
  }

  lemma NextHolds<V>(entries: seq<Entry<V>>, entry: Entry<V>, call: Call<V>, others: set<Key>, ttlMs: nat, max: Option<nat>, before: int)
    requires Distinct(entries) && Holds(entries, entry, others, before) && before <= call.now && !Touches(call, entry.key)
    requires call.op.Set? ==> call.op.key in others
    requires max.Some? ==> |others| < max.value
    ensures Holds(Next(entries, call, ttlMs, max), entry, others, call.now)
  {
    assert Holds(entries, entry, others, call.now);
    hide Deleted, Put, Holds;
    match call.op
    case Get(key) =>
      if key != entry.key {
        DeletingHolds(entries, entry, key, others, call.now);
      } else {
        ReadingHolds(entries, entry, others, call.now);
      }
    case Set(key, value) => SettingAnother(entries, entry, Entry(key, value, call.now + ttlMs), others, max, call.now);
    case Del(key) => DeletingHolds(entries, entry, key, others, call.now);
  }

  lemma {:induction false} RunHolds<V>(entries: seq<Entry<V>>, entry: Entry<V>, calls: seq<Call<V>>, others: set<Key>,
                                       ttlMs: nat, max: Option<nat>, from: int, to: int)
    requires Valid(entries, max, from + ttlMs) && InTime(calls, from, to) && Holds(entries, entry, others, from)
    requires forall i :: 0 <= i < |calls| ==> !Touches(calls[i], entry.key)
    requires KeysSet(calls) <= others && (max.Some? ==> |others| < max.value)
    ensures Holds(After(entries, calls, ttlMs, max), entry, others, to)
    decreases |calls|
  {
    if calls == [] {
    } else {
      assert !Touches(calls[0], entry.key);
      assert calls[0].op.Set? ==> calls[0].op.key in KeysSet(calls);
      assert forall i :: 0 <= i < |calls[1..]| ==> calls[1..][i] == calls[i + 1];
      hide Next, Holds, Touches, Distinct, InExpiryOrder;
      NextHolds(entries, entry, calls[0], others, ttlMs, max, from);
      NextKeeps(entries, calls[0], ttlMs, max, from);
      RunHolds(Next(entries, calls[0], ttlMs, max), entry, calls[1..], others, ttlMs, max, calls[0].now, to);
    }
  }

  /**
   * What a read gives is what was last set, for exactly as long as its time lasts, if meanwhile the key was left
   * alone and fewer other keys than the cap were set.
   */
  lemma ReadsTheLastSet<V>(entries: seq<Entry<V>>, key: Key, value: V, at: int, calls: seq<Call<V>>,
                           ttlMs: nat, max: Option<nat>, before: int, now: int)
    requires Valid(entries, max, before + ttlMs) && before <= at && InTime(calls, at, now)
    requires forall i :: 0 <= i < |calls| ==> !Touches(calls[i], key)
    requires max.Some? ==> |KeysSet(calls)| < max.value
    ensures Found(After(Next(entries, Call(Set(key, value), at), ttlMs, max), calls, ttlMs, max), key, now) ==
            if now < at + ttlMs then Some(value) else None
  {
    var entry := Entry(key, value, at + ttlMs);
    var start := Put(entries, entry, max);
    hide Next;
    JustSet(entries, entry, KeysSet(calls), max, at);
    SetIsPut(entries, key, value, at, ttlMs, max);
    NextKeeps(entries, Call(Set(key, value), at), ttlMs, max, before);
    RunHolds(start, entry, calls, KeysSet(calls), ttlMs, max, at, now);
    RunKeeps(start, calls, ttlMs, max, at, now);
    ReadsWhatHolds(After(start, calls, ttlMs, max), entry, KeysSet(calls), now);
  }

  lemma SetIsPut<V>(entries: seq<Entry<V>>, key: Key, value: V, at: int, ttlMs: nat, max: Option<nat>)
    ensures Next(entries, Call(Set(key, value), at), ttlMs, max) == Put(entries, Entry(key, value, at + ttlMs), max)
  {
  }

  lemma JustSet<V>(entries: seq<Entry<V>>, entry: Entry<V>, others: set<Key>, max: Option<nat>, now: int)
    requires max.Some? ==> |others| < max.value
    ensures Holds(Put(entries, entry, max), entry, others, now)
  {
    hide Deleted;
    var put := Put(entries, entry, max);
    assert StandsAt(put, entry, others, |put| - 1);
  }

  lemma ReadsWhatHolds<V>(entries: seq<Entry<V>>, entry: Entry<V>, others: set<Key>, now: int)
    requires Distinct(entries) && Holds(entries, entry, others, now)
    ensures Found(entries, entry.key, now) == if now < entry.expiresAt then Some(entry.value) else None
  {
    if Has(entries, entry.key) {
      var i :| StandsAt(entries, entry, others, i);
      assert At(entries, entry.key) == i;
    }
  }
}

/**
 A consumer of one account's messages, as the documentation tells it to behave: it keeps the last number it
 processed, reads what follows it when it starts, reconnects or sees a gap, and tells messages apart by id.
 Meanwhile messages are stored, retention runs, and any part of the live stream may pass it by.
 */
module LiveConsumer {
  import opened Options
  import opened MessageStore
  import opened MessageLedger
  import opened MessagePaging

  /** `start` is where it began: everything up to there it did not ask for. */
  datatype Consumer = Consumer(start: nat, cursor: nat, processed: seq<Id>)

  function See(c: Consumer, id: Id): Consumer {
    if id in c.processed then c else c.(processed := c.processed + [id])
  }

  function SeeAll(c: Consumer, messages: seq<Row>): Consumer
    decreases |messages|
  {
    if messages == [] then c else SeeAll(See(c, messages[0].id), messages[1..])
  }

  /** A message as it comes: with the next number, with none, with an old one, or past a gap, which it leaves to a read. */
  function Hears(c: Consumer, id: Id, number: Option<nat>): Consumer {
    match number
    case None => See(c, id)
    case Some(n) =>
      if n == c.cursor + 1 then See(c, id).(cursor := n)
      else if n <= c.cursor then See(c, id)
      else c
  }

  function Reads(c: Consumer, page: Page): Consumer {
    if page.messages == [] then c
    else SeeAll(c, page.messages).(cursor := page.messages[|page.messages| - 1].accountSeq)
  }

  /** What is heard is processed at once, unless it is past a gap: a read has to come first. */
  lemma HearingProcesses(c: Consumer, id: Id, number: Option<nat>)
    ensures id in Hears(c, id, number).processed <==> id in c.processed || number.None? || number.value <= c.cursor + 1
    ensures c.processed <= Hears(c, id, number).processed
  {
  }

  // ── What may happen around it ────────────────────────────────────

  datatype World = World(ledger: Ledger, account: Account, consumer: Consumer)

  datatype Event =
    | Stores(envelope: Envelope, now: int)
    | Retains(keys: set<(Account, nat)>)
    | Heard(id: Id, number: Option<nat>)
    | ReadsPage(limit: Number)

  /** Retention leaves what the consumer has not read; a number in the live stream is one of the log. */
  predicate Enabled(w: World, e: Event) {
    match e
    case Stores(_, _) => true
    case Retains(keys) => forall k :: k in keys && k.0 == w.account ==> k.1 <= w.consumer.cursor
    case Heard(id, Some(n)) => 1 <= n <= |HandedTo(w.ledger.handed, w.account)| && HandedTo(w.ledger.handed, w.account)[n - 1] == id
    case Heard(_, None) => true
    case ReadsPage(_) => true
  }

  ghost function Next(w: World, e: Event): World {
    match e
    case Stores(envelope, now) => w.(ledger := Commit(w.ledger, envelope, now).0)
    case Retains(keys) => w.(ledger := Forget(w.ledger, keys))
    case Heard(id, number) => w.(consumer := Hears(w.consumer, id, number))
    case ReadsPage(limit) =>
      w.(consumer := Reads(w.consumer, QueryAfter(w.ledger.store.rows, w.account, w.consumer.cursor, limit)))
  }

  ghost predicate IsRun(w: World, events: seq<Event>)
    decreases |events|
  {
    events == [] || (Enabled(w, events[0]) && IsRun(Next(w, events[0]), events[1..]))
  }

  ghost function After(w: World, events: seq<Event>): World
    decreases |events|
  {
    if events == [] then w else After(Next(w, events[0]), events[1..])
  }

  // ── What stays true ──────────────────────────────────────────────

  ghost predicate Distinct(ids: seq<Id>) {
    forall i, j :: 0 <= i < j < |ids| ==> ids[i] != ids[j]
  }

  /** Every number past the cursor still has its row. */
  ghost predicate RowsAhead(rows: Rows, handed: seq<Id>, account: Account, cursor: nat) {
    forall n :: cursor < n <= |handed| ==> (account, n) in rows
  }

  /** Whatever got a number between the start and the cursor was processed. */
  ghost predicate ProcessedUpTo(handed: seq<Id>, c: Consumer) {
    forall i :: c.start <= i < c.cursor && i < |handed| ==> handed[i] in c.processed
  }

  ghost predicate Inv(w: World) {
    var handed := HandedTo(w.ledger.handed, w.account);
    && Valid(w.ledger)
    && w.consumer.start <= w.consumer.cursor <= |handed|
    && Distinct(w.consumer.processed)
    && RowsAhead(w.ledger.store.rows, handed, w.account, w.consumer.cursor)
    && ProcessedUpTo(handed, w.consumer)
  }

  lemma StoresKeeps(w: World, envelope: Envelope, now: int)
    requires Inv(w)
    ensures Inv(Next(w, Stores(envelope, now)))
  {
    hide Commit, Valid;
    CommitKeepsValid(w.ledger, envelope, now);
    CommitEffect(w.ledger, envelope, now);
    var l, l' := w.ledger, Commit(w.ledger, envelope, now).0;
    var handed, handed' := HandedTo(l.handed, w.account), HandedTo(l'.handed, w.account);
    assert handed <= handed';
    assert forall n: nat :: (w.account, n) in l.store.rows ==> (w.account, n) in l'.store.rows;
    assert |handed'| > |handed| ==> (w.account, |handed'|) in l'.store.rows;
  }

  lemma RetainsKeeps(w: World, keys: set<(Account, nat)>)
    requires Inv(w) && Enabled(w, Retains(keys))
    ensures Inv(Next(w, Retains(keys)))
  {
    hide Valid;
    ForgetKeepsValid(w.ledger, keys);
    assert forall n: nat :: (w.account, n) in w.ledger.store.rows && n > w.consumer.cursor ==> (w.account, n) !in keys;
  }

  lemma SeeKeeps(c: Consumer, id: Id)
    ensures Distinct(c.processed) ==> Distinct(See(c, id).processed)
    ensures id in See(c, id).processed && forall other :: other in c.processed ==> other in See(c, id).processed
    ensures See(c, id).start == c.start && See(c, id).cursor == c.cursor
  {
  }

  lemma {:induction false} SeeAllKeeps(c: Consumer, messages: seq<Row>)
    ensures Distinct(c.processed) ==> Distinct(SeeAll(c, messages).processed)
    ensures forall i :: 0 <= i < |messages| ==> messages[i].id in SeeAll(c, messages).processed
    ensures forall other :: other in c.processed ==> other in SeeAll(c, messages).processed
    ensures SeeAll(c, messages).start == c.start && SeeAll(c, messages).cursor == c.cursor
    decreases |messages|
  {
    if messages == [] {
    } else {
      hide See;
      SeeKeeps(c, messages[0].id);
      SeeAllKeeps(See(c, messages[0].id), messages[1..]);
    }
  }

  lemma HeardKeeps(w: World, id: Id, number: Option<nat>)
    requires Inv(w) && Enabled(w, Heard(id, number))
    ensures Inv(Next(w, Heard(id, number)))
  {
    hide Valid, See;
    SeeKeeps(w.consumer, id);
  }

  /** With every row past the cursor there, the numbers of a page are the ones right after the cursor. */
  lemma {:induction false} ListingIsDense(rows: Rows, handed: seq<Id>, account: Account, cursor: nat)
    requires RowsAhead(rows, handed, account, cursor) && cursor <= |handed|
    requires forall n: nat :: (account, n) in rows ==> n <= |handed|
    ensures var all := Listing(rows, account, cursor);
      |all| == |handed| - cursor && forall i :: 0 <= i < |all| ==> all[i] == cursor + 1 + i
  {
    var dense := seq(|handed| - cursor, i requires 0 <= i => cursor + 1 + i);
    var s := NumbersAbove(rows, account, cursor);
    forall n: nat ensures n in dense <==> n in s {
      if n in s { assert dense[n - cursor - 1] == n; }
    }
    OneListing(Listing(rows, account, cursor), dense, s);
  }

  /** A page: as many of the numbers after the cursor as it has room for, each with its message. */
  lemma PageIsDense(w: World, limit: Number)
    requires Inv(w)
    ensures var page := QueryAfter(w.ledger.store.rows, w.account, w.consumer.cursor, limit);
      var handed, n := HandedTo(w.ledger.handed, w.account), |page.messages|;
      && w.consumer.cursor + n <= |handed|
      && (forall i :: 0 <= i < n ==>
            page.messages[i].accountSeq == w.consumer.cursor + 1 + i && page.messages[i].id == handed[w.consumer.cursor + i])
      && (page.next.None? ==> w.consumer.cursor + n == |handed|)
      && (page.next.Some? ==> n > 0)
  {
    hide QueryAfter, Listing;
    var rows, handed := w.ledger.store.rows, HandedTo(w.ledger.handed, w.account);
    assert forall n: nat :: (w.account, n) in rows ==> n <= |handed|;
    ListingIsDense(rows, handed, w.account, w.consumer.cursor);
    PageIsAPrefix(rows, w.account, w.consumer.cursor, limit);
  }

  lemma ReadsKeeps(w: World, limit: Number)
    requires Inv(w)
    ensures Inv(Next(w, ReadsPage(limit)))
  {
    hide Valid, QueryAfter, SeeAll;
    var page := QueryAfter(w.ledger.store.rows, w.account, w.consumer.cursor, limit);
    PageIsDense(w, limit);
    SeeAllKeeps(w.consumer, page.messages);
    var handed, c := HandedTo(w.ledger.handed, w.account), Next(w, ReadsPage(limit)).consumer;
    forall i | c.start <= i < c.cursor && i < |handed| ensures handed[i] in c.processed {
      if i >= w.consumer.cursor {
        assert page.messages[i - w.consumer.cursor].id == handed[i];
      }
    }
  }

  lemma {:induction false} RunKeeps(w: World, events: seq<Event>)
    requires Inv(w) && IsRun(w, events)
    ensures Inv(After(w, events))
    ensures After(w, events).account == w.account && After(w, events).consumer.start == w.consumer.start
    decreases |events|
  {
    if events != [] {
      hide Inv;
      match events[0] {
        case Stores(envelope, now) => StoresKeeps(w, envelope, now);
        case Retains(keys) => RetainsKeeps(w, keys);
        case Heard(id, number) => HeardKeeps(w, id, number);
        case ReadsPage(limit) => ReadsKeeps(w, limit);
      }
      StartStays(w, events[0]);
      RunKeeps(Next(w, events[0]), events[1..]);
    }
  }

  lemma StartStays(w: World, e: Event)
    ensures Next(w, e).account == w.account && Next(w, e).consumer.start == w.consumer.start
  {
    if e.ReadsPage? {
      SeeAllKeeps(w.consumer, QueryAfter(w.ledger.store.rows, w.account, w.consumer.cursor, e.limit).messages);
    }
  }

  // ── The promise ──────────────────────────────────────────────────

  /** A new consumer, at any point of the log, of which nothing it has still to read is gone. */
  ghost predicate Fresh(w: World) {
    var handed := HandedTo(w.ledger.handed, w.account);
    && Valid(w.ledger) && w.consumer.start == w.consumer.cursor <= |handed| && w.consumer.processed == []
    && RowsAhead(w.ledger.store.rows, handed, w.account, w.consumer.cursor)
  }

  /**
   * Whatever it heard and whatever passed it by, with messages stored meanwhile: no message is processed twice,
   * every one that got a number up to its cursor was processed, and every one past it has its row still to be read.
   */
  lemma ProcessedExactlyOnce(w: World, events: seq<Event>)
    requires Fresh(w) && IsRun(w, events)
    ensures var t := After(w, events);
      var handed := HandedTo(t.ledger.handed, w.account);
      && Distinct(t.consumer.processed)
      && t.consumer.cursor <= |handed|
      && (forall i :: w.consumer.start <= i < t.consumer.cursor ==> handed[i] in t.consumer.processed)
      && (forall n :: t.consumer.cursor < n <= |handed| ==> (w.account, n) in t.ledger.store.rows)
  {
    RunKeeps(w, events);
  }

  /** Reads page after page, until one has no next. */
  ghost function CatchUp(w: World, limit: Number): (t: World)
    requires Inv(w)
    decreases |HandedTo(w.ledger.handed, w.account)| - w.consumer.cursor
  {
    var next := Next(w, ReadsPage(limit));
    PageIsDense(w, limit);
    ReadsKeeps(w, limit);
    StartStays(w, ReadsPage(limit));
    if QueryAfter(w.ledger.store.rows, w.account, w.consumer.cursor, limit).next.None? then next
    else CatchUp(next, limit)
  }

  /** Catching up ends, whatever page size is asked for, and leaves no message stored so far unprocessed. */
  lemma {:induction false} CatchingUpProcessesAll(w: World, limit: Number)
    requires Inv(w)
    ensures var t := CatchUp(w, limit);
      && Inv(t) && t.ledger == w.ledger && t.account == w.account && t.consumer.start == w.consumer.start
      && t.consumer.cursor == |HandedTo(w.ledger.handed, w.account)|
    decreases |HandedTo(w.ledger.handed, w.account)| - w.consumer.cursor
  {
    hide Valid, QueryAfter, SeeAll;
    PageIsDense(w, limit);
    ReadsKeeps(w, limit);
    StartStays(w, ReadsPage(limit));
    if QueryAfter(w.ledger.store.rows, w.account, w.consumer.cursor, limit).next.Some? {
      CatchingUpProcessesAll(Next(w, ReadsPage(limit)), limit);
    }
  }
}

/** Reading an account's messages in the order of their numbers, a page at a time. */
module MessagePaging {
  import opened Options
  import opened MessageStore

  const MAX_PAGE_LIMIT: nat := 500

  /** A requested page size is any number of JavaScript. */
  datatype Number = NotFinite | Finite(value: real)

  function Trunc(x: real): int {
    if x >= 0.0 then x.Floor else -((-x).Floor)
  }

  /** Whatever was asked for, a page has room for one message, and the nearest allowed size to what was asked for. */
  function ClampPageLimit(limit: Number, max: nat): (size: nat)
    requires max >= 1
    ensures 1 <= size <= max
    ensures limit.Finite? && 1.0 <= limit.value < max as real + 1.0 ==> size as real <= limit.value < size as real + 1.0
    ensures limit.Finite? && limit.value < 1.0 ==> size == 1
    ensures limit.NotFinite? || limit.value >= max as real ==> size == max
  {
    match limit
    case NotFinite => max
    case Finite(x) =>
      var asked := Trunc(x);
      var atLeastOne := if asked < 1 then 1 else asked;
      if atLeastOne > max then max else atLeastOne
  }

  // ── In the order of their numbers ────────────────────────────────

  predicate Increasing(numbers: seq<nat>) {
    forall i, j :: 0 <= i < j < |numbers| ==> numbers[i] < numbers[j]
  }

  ghost predicate Lists(numbers: seq<nat>, s: set<nat>) {
    Increasing(numbers) && forall n :: n in numbers <==> n in s
  }

  ghost predicate IsLeast(m: nat, s: set<nat>) {
    m in s && forall n :: n in s ==> m <= n
  }

  lemma HasLeast(s: set<nat>)
    requires s != {}
    ensures exists m :: IsLeast(m, s)
    decreases |s|
  {
    var m :| m in s;
    var rest := s - {m};
    if rest == {} {
      assert forall n :: n in s && n != m ==> n in rest;
      assert IsLeast(m, s);
    } else {
      HasLeast(rest);
      var other :| IsLeast(other, rest);
      assert forall n :: n in s ==> n == m || n in rest;
      assert IsLeast(if m < other then m else other, s);
    }
  }

  function Least(s: set<nat>): (m: nat)
    requires s != {}
    ensures IsLeast(m, s)
  {
    HasLeast(s);
    assert exists m :: m in s && forall n :: n in s ==> m <= n by {
      var m :| IsLeast(m, s);
    }
    var m :| m in s && forall n :: n in s ==> m <= n;
    m
  }

  /** `ORDER BY account_seq ASC` */
  function Ascending(s: set<nat>): (numbers: seq<nat>)
    ensures Lists(numbers, s)
    decreases |s|
  {
    if s == {} then []
    else
      var m := Least(s);
      var rest := Ascending(s - {m});
      assert forall n :: n in rest ==> n in s - {m};
      assert forall n :: n in s ==> n == m || n in rest;
      [m] + rest
  }

  lemma SameHead(a: seq<nat>, b: seq<nat>, s: set<nat>)
    requires Lists(a, s) && Lists(b, s)
    ensures (a == [] <==> b == []) && (a != [] ==> a[0] == b[0])
  {
    if b != [] { assert b[0] in b && b[0] in a; }
    if a != [] {
      assert a[0] in a && a[0] in b;
      var i :| 0 <= i < |a| && a[i] == b[0];
      var j :| 0 <= j < |b| && b[j] == a[0];
      assert a[0] <= a[i] && b[0] <= b[j];
    }
  }

  /** There is only one such listing. */
  lemma {:induction false} OneListing(a: seq<nat>, b: seq<nat>, s: set<nat>)
    requires Lists(a, s) && Lists(b, s)
    ensures a == b
    decreases |a|
  {
    SameHead(a, b, s);
    if a != [] {
      Rest(a, s);
      Rest(b, s);
      OneListing(a[1..], b[1..], s - {a[0]});
      assert a == [a[0]] + a[1..] && b == [b[0]] + b[1..];
    }
  }

  lemma Rest(a: seq<nat>, s: set<nat>)
    requires Lists(a, s) && a != []
    ensures Lists(a[1..], s - {a[0]})
  {
    forall n ensures n in a[1..] <==> n in s - {a[0]} {
      assert a == [a[0]] + a[1..];
      if n in a[1..] {
        var i :| 0 <= i < |a[1..]| && a[1..][i] == n;
        assert a[i + 1] == n;
      }
    }
  }

  // ── A page ───────────────────────────────────────────────────────

  datatype Page = Page(messages: seq<Row>, next: Option<nat>)

  function RowsAt(rows: Rows, account: Account, numbers: seq<nat>): (found: seq<Row>)
    requires forall n :: n in numbers ==> (account, n) in rows
  {
    seq(|numbers|, i requires 0 <= i < |numbers| => assert numbers[i] in numbers; rows[(account, numbers[i])])
  }

  /** The numbers of an account's rows above a cursor, in order. */
  function Listing(rows: Rows, account: Account, after: int): (numbers: seq<nat>)
    ensures Lists(numbers, NumbersAbove(rows, account, after))
    ensures forall n :: n in numbers ==> n > after && (account, n) in rows
  {
    Ascending(NumbersAbove(rows, account, after))
  }

  /** `LIMIT` */
  function Front(numbers: seq<nat>, size: nat): (front: seq<nat>)
    ensures forall n :: n in front ==> n in numbers
  {
    if size < |numbers| then numbers[..size] else numbers
  }

  /** One row more than asked for tells whether another page exists. */
  function QueryAfter(rows: Rows, account: Account, after: int, limit: Number): Page {
    var size := ClampPageLimit(limit, MAX_PAGE_LIMIT);
    var selected := Front(Listing(rows, account, after), size + 1);
    var numbers := Front(selected, size);
    Page(RowsAt(rows, account, numbers),
         if |selected| > size && numbers != [] then Some(numbers[|numbers| - 1]) else None)
  }

  /** The first of what there is above the cursor, in order; a cursor to go on from exactly if there is more. */
  lemma PageIsAPrefix(rows: Rows, account: Account, after: int, limit: Number)
    ensures var all, page := Listing(rows, account, after), QueryAfter(rows, account, after, limit);
      var n := |page.messages|;
      && n <= |all|
      && page.messages == RowsAt(rows, account, Front(all, n))
      && (page.next.Some? <==> n < |all|)
      && (page.next.Some? ==> n > 0 && page.next.value == all[n - 1])
  {
    hide Listing, ClampPageLimit;
    var all, size := Listing(rows, account, after), ClampPageLimit(limit, MAX_PAGE_LIMIT);
    if size < |all| {
      assert all[..size + 1][..size] == all[..size];
    }
  }

  /** What is left above the cursor a page gives is what the page left out. */
  lemma NextIsTheRest(rows: Rows, account: Account, after: int, n: nat)
    requires 0 < n <= |Listing(rows, account, after)|
    ensures var all := Listing(rows, account, after);
      Listing(rows, account, all[n - 1]) == all[n..]
  {
    hide Listing;
    var all := Listing(rows, account, after);
    var t := NumbersAbove(rows, account, all[n - 1]);
    assert all[n - 1] in all;
    forall m | m in t ensures m in all[n..] {
      assert m in all;
      var i :| 0 <= i < |all| && all[i] == m;
      assert all[n..][i - n] == m;
    }
    forall m | m in all[n..] ensures m in t {
      assert m in all;
    }
    OneListing(Listing(rows, account, all[n - 1]), all[n..], t);
  }

  lemma RowsInTurn(rows: Rows, account: Account, all: seq<nat>, n: nat, m: nat)
    requires n + m <= |all| && forall k :: k in all ==> (account, k) in rows
    ensures RowsAt(rows, account, Front(all, n)) + RowsAt(rows, account, Front(all[n..], m)) ==
            RowsAt(rows, account, Front(all, n + m))
  {
  }

  /**
   * Following the cursor until there is none ends, and the pages one after another are exactly the account's rows
   * above the first cursor, ascending, each once, whatever the page size asked for.
   */
  method ReadAll(rows: Rows, account: Account, after: int, limit: Number) returns (messages: seq<Row>)
    ensures messages == RowsAt(rows, account, Listing(rows, account, after))
  {
    hide Listing, QueryAfter, RowsAt;
    ghost var all := Listing(rows, account, after);
    messages := [];
    var cursor, more := after, true;
    ghost var read: nat := 0;
    NoRows(rows, account, all);
    while more
      invariant read <= |all| && messages == RowsAt(rows, account, Front(all, read))
      invariant if more then Listing(rows, account, cursor) == all[read..] else read == |all|
      decreases more, |all| - read
    {
      var page := QueryAfter(rows, account, cursor, limit);
      PageIsAPrefix(rows, account, cursor, limit);
      RowsInTurn(rows, account, all, read, |page.messages|);
      if page.next.Some? {
        NextIsTheRest(rows, account, cursor, |page.messages|);
        assert all[read..][|page.messages|..] == all[read + |page.messages|..];
        cursor := page.next.value;
      } else {
        more := false;
      }
      messages, read := messages + page.messages, read + |page.messages|;
    }
  }

  lemma NoRows(rows: Rows, account: Account, all: seq<nat>)
    requires forall n :: n in all ==> (account, n) in rows
    ensures RowsAt(rows, account, Front(all, 0)) == [] && Front(all, |all|) == all
  {
  }
}

/**
 The accounts in memory and in their file. A change someone asks for counts once it is on disk; what the gateway
 saw happen stands anyway. Calls take turns, so each is one step; whether its write succeeds is part of it.
 */
module AccountRepository {
  import opened Options

  datatype Status = Active | Suspended | AuthExpired | Error | Unchecked

  type Fields = map<string, string>

  datatype Account = Account(id: string, status: Status, identity: Fields, metadata: Fields, others: Fields)

  datatype Partial = Partial(status: Option<Status>, identity: Option<Fields>, metadata: Option<Fields>, others: Fields)

  /** What the changes name is as they say, and the rest as it was. */
  ghost predicate IsMerge(before: Fields, changes: Fields, after: Fields) {
    after.Keys == before.Keys + changes.Keys &&
    forall k :: k in after ==> after[k] == if k in changes then changes[k] else before[k]
  }

  /** Metadata is merged; everything else is replaced. The id stays. */
  function WithChanges(account: Account, partial: Partial): (updated: Account)
    ensures updated.id == account.id
    ensures partial.metadata.None? ==> updated.metadata == account.metadata
    ensures partial.metadata.Some? ==> IsMerge(account.metadata, partial.metadata.value, updated.metadata)
    ensures IsMerge(account.others, partial.others, updated.others)
    ensures partial.status.Some? ==> updated.status == partial.status.value
    ensures partial.identity.Some? ==> updated.identity == partial.identity.value
    ensures partial.status.None? ==> updated.status == account.status
    ensures partial.identity.None? ==> updated.identity == account.identity
  {
    Account(account.id,
            if partial.status.Some? then partial.status.value else account.status,
            if partial.identity.Some? then partial.identity.value else account.identity,
            if partial.metadata.Some? then account.metadata + partial.metadata.value else account.metadata,
            account.others + partial.others)
  }

  function Both(first: Partial, second: Partial): Partial {
    Partial(if second.status.Some? then second.status else first.status,
            if second.identity.Some? then second.identity else first.identity,
            if first.metadata.Some? && second.metadata.Some? then Some(first.metadata.value + second.metadata.value)
            else if second.metadata.Some? then second.metadata else first.metadata,
            first.others + second.others)
  }

  /** Two updates amount to one, in which the later has the last word; and the same update again changes nothing. */
  lemma ChangesCompose(account: Account, first: Partial, second: Partial)
    ensures WithChanges(WithChanges(account, first), second) == WithChanges(account, Both(first, second))
    ensures WithChanges(WithChanges(account, first), first) == WithChanges(account, first)
  {
    hide IsMerge;
    if first.metadata.Some? {
      Again(account.metadata, first.metadata.value);
      if second.metadata.Some? { InTurn(account.metadata, first.metadata.value, second.metadata.value); }
    }
    Again(account.others, first.others);
    InTurn(account.others, first.others, second.others);
  }

  lemma Again(fields: Fields, changes: Fields)
    ensures (fields + changes) + changes == fields + changes
  {
  }

  lemma InTurn(fields: Fields, first: Fields, second: Fields)
    ensures (fields + first) + second == fields + (first + second)
  {
  }

  // ── What the gateway sees ────────────────────────────────────────

  datatype Seen =
    | ConnectionUpdate(connected: bool, authExpired: bool)
    | HealthResult(status: Status, discovered: Option<Fields>)

  function OnlyStatus(status: Status): Partial {
    Partial(Some(status), None, None, map[])
  }

  /** What a connection event sets: nothing on a suspended account, and nothing that is so already. */
  function FromConnection(account: Account, connected: bool, authExpired: bool): Option<Partial> {
    if !connected && !authExpired then None
    else
      var next := if connected then Active else AuthExpired;
      if account.status == Suspended || account.status == next then None else Some(OnlyStatus(next))
  }

  /** What a health check sets: an identity it discovered, and its status unless the account is suspended by then. */
  function FromHealth(account: Account, status: Status, discovered: Option<Fields>): Option<Partial> {
    var next := if account.status == Suspended then Suspended else status;
    if discovered.None? && next == account.status then None
    else Some(Partial(Some(next), if discovered.Some? then Some(account.identity + discovered.value) else None, None, map[]))
  }

  function ChangeFor(account: Account, seen: Seen): Option<Partial> {
    match seen
    case ConnectionUpdate(connected, authExpired) => FromConnection(account, connected, authExpired)
    case HealthResult(status, discovered) => FromHealth(account, status, discovered)
  }

  // ── Calls ────────────────────────────────────────────────────────

  predicate HasId(accounts: seq<Account>, id: string) {
    exists i :: 0 <= i < |accounts| && accounts[i].id == id
  }

  function IndexOf(accounts: seq<Account>, id: string): (i: nat)
    requires HasId(accounts, id)
    ensures i < |accounts| && accounts[i].id == id && forall j :: 0 <= j < i ==> accounts[j].id != id
  {
    if accounts[0].id == id then 0
    else
      var i :| 0 <= i < |accounts| && accounts[i].id == id;
      assert accounts[1..][i - 1].id == id;
      1 + IndexOf(accounts[1..], id)
  }

  function Without(accounts: seq<Account>, id: string): seq<Account> {
    if accounts == [] then []
    else (if accounts[0].id == id then [] else [accounts[0]]) + Without(accounts[1..], id)
  }

  datatype Op =
    | Save(account: Account)
    | Update(id: string, partial: Partial)
    | Remove(id: string)
    | Observe(id: string, seen: Seen)

  /** The accounts a call leaves, and whether it changes any: what changes nothing is not written. */
  function Change(accounts: seq<Account>, op: Op): (seq<Account>, bool) {
    match op
    case Save(account) => if HasId(accounts, account.id) then (accounts, false) else (accounts + [account], true)
    case Update(id, partial) =>
      if !HasId(accounts, id) then (accounts, false)
      else (accounts[IndexOf(accounts, id) := WithChanges(accounts[IndexOf(accounts, id)], partial)], true)
    case Remove(id) =>
      var remaining := Without(accounts, id);
      if |remaining| == |accounts| then (accounts, false) else (remaining, true)
    case Observe(id, seen) =>
      if !HasId(accounts, id) then (accounts, false)
      else
        var i := IndexOf(accounts, id);
        match ChangeFor(accounts[i], seen)
        case None => (accounts, false)
        case Some(partial) => (accounts[i := WithChanges(accounts[i], partial)], true)
  }

  datatype Repo = Repo(memory: seq<Account>, disk: seq<Account>)

  datatype Call = Call(op: Op, written: bool)

  /** A change that cannot be written does not happen, unless it was only observed. */
  function Next(repo: Repo, call: Call): Repo {
    var (after, changed) := Change(repo.memory, call.op);
    if !changed then repo
    else if call.written then Repo(after, after)
    else if call.op.Observe? then repo.(memory := after)
    else repo
  }

  function After(repo: Repo, calls: seq<Call>): Repo
    decreases |calls|
  {
    if calls == [] then repo else Next(After(repo, calls[..|calls| - 1]), calls[|calls| - 1])
  }

  class Repository {
    var accounts: seq<Account>
    /** What the next start would load. */
    var file: seq<Account>

    ghost function View(): Repo
      reads this
    {
      Repo(accounts, file)
    }

    constructor (accounts: seq<Account>)
      ensures View() == Repo(accounts, accounts)
    {
      this.accounts, file := accounts, accounts;
    }

    method WriteAtomically(content: seq<Account>, ok: bool)
      modifies this`file
      ensures file == if ok then content else old(file)
    {
      if ok {
        file := content;
      }
    }

    /** In memory only once it is on disk. */
    method Commit(op: Op, writes: bool) returns (committed: bool)
      requires !op.Observe?
      modifies this
      ensures View() == Next(old(View()), Call(op, writes))
      ensures committed == (Change(old(accounts), op).1 ==> writes)
    {
      var (after, changed) := Change(accounts, op);
      if changed {
        WriteAtomically(after, writes);
        if !writes {
          return false;
        }
        accounts := after;
      }
      committed := true;
    }

    /** In memory at once: it is true anyway. */
    method ObserveIt(id: string, seen: Seen, writes: bool) returns (account: Option<Account>)
      modifies this
      ensures View() == Next(old(View()), Call(Observe(id, seen), writes))
      ensures account == if HasId(accounts, id) then Some(accounts[IndexOf(accounts, id)]) else None
    {
      if !HasId(accounts, id) {
        return None;
      }
      var i := IndexOf(accounts, id);
      var partial := ChangeFor(accounts[i], seen);
      if partial.Some? {
        accounts := accounts[i := WithChanges(accounts[i], partial.value)];
        WriteAtomically(accounts, writes);
      }
      StaysAt(old(accounts), i, accounts[i]);
      account := Some(accounts[i]);
    }
  }

  lemma StaysAt(accounts: seq<Account>, i: nat, account: Account)
    requires i < |accounts| && account.id == accounts[i].id && IndexOf(accounts, account.id) == i
    ensures HasId(accounts[i := account], account.id) && IndexOf(accounts[i := account], account.id) == i
  {
    assert accounts[i := account][i].id == account.id;
  }

  // ── What is seen is recorded ─────────────────────────────────────

  /** The status that what was seen speaks for. A drop speaks for none: the provider is reconnecting. */
  function Says(seen: Seen): Option<Status> {
    match seen
    case ConnectionUpdate(connected, authExpired) =>
      if connected then Some(Active) else if authExpired then Some(AuthExpired) else None
    case HealthResult(status, _) => Some(status)
  }

  function StatusIn(accounts: seq<Account>, id: string): Option<Status> {
    if HasId(accounts, id) then Some(accounts[IndexOf(accounts, id)].status) else None
  }

  /** The call leaves the account to what is seen of it. */
  predicate LeavesItBe(op: Op, id: string) {
    match op
    case Save(account) => account.id != id
    case Update(other, _) => other != id
    case Remove(other) => other != id
    case Observe(_, _) => true
  }

  /**
   * Nothing but its status and identity changes by what is seen of an account: the status to what that speaks for, unless
   * the account is suspended, and the identity by what was discovered.
   */
  lemma SeeingChanges(accounts: seq<Account>, id: string, seen: Seen)
    requires HasId(accounts, id)
    ensures var i, after := IndexOf(accounts, id), Change(accounts, Observe(id, seen)).0;
      && |after| == |accounts| && (forall j :: 0 <= j < |accounts| && j != i ==> after[j] == accounts[j])
      && var was, now := accounts[i], after[i];
         && now.id == was.id && now.metadata == was.metadata && now.others == was.others
         && now.status == (if was.status == Suspended || Says(seen).None? then was.status else Says(seen).value)
         && (if seen.HealthResult? && seen.discovered.Some? then IsMerge(was.identity, seen.discovered.value, now.identity)
             else now.identity == was.identity)
  {
  }

  /** What the last call that spoke of the status of an account said, or what it was. */
  function LastSaid(status: Status, calls: seq<Call>, id: string): Status
    decreases |calls|
  {
    if calls == [] then status
    else
      var last := |calls| - 1;
      var before, op := LastSaid(status, calls[..last], id), calls[last].op;
      if op.Observe? && op.id == id && Says(op.seen).Some? && before != Suspended then Says(op.seen).value else before
  }

  function Find(accounts: seq<Account>, id: string): Option<Account> {
    if HasId(accounts, id) then Some(accounts[IndexOf(accounts, id)]) else None
  }

  /** What a call makes of the account it names: saved once, updated if it is there, gone, or as it was seen. */
  ghost predicate MakesOf(op: Op, was: Option<Account>, now: Option<Account>) {
    match op
    case Save(account) => now == if was.Some? then was else Some(account)
    case Update(_, partial) => now == if was.Some? then Some(WithChanges(was.value, partial)) else None
    case Remove(_) => now.None?
    case Observe(_, seen) =>
      (now.Some? <==> was.Some?) &&
      (was.Some? ==>
         now.value.status == if was.value.status == Suspended || Says(seen).None? then was.value.status else Says(seen).value)
  }

  function IdOf(op: Op): string {
    match op
    case Save(account) => account.id
    case Update(id, _) => id
    case Remove(id) => id
    case Observe(id, _) => id
  }

  /** A call is about the account it names and no other. It has something to write exactly if it changes that one. */
  lemma CallsMakeOf(accounts: seq<Account>, op: Op, id: string)
    ensures var was, now := Find(accounts, id), Find(Change(accounts, op).0, id);
      if id == IdOf(op) then MakesOf(op, was, now) else now == was
    ensures op.Save? || op.Remove? ==>
              (Change(accounts, op).1 <==> Find(Change(accounts, op).0, IdOf(op)) != Find(accounts, IdOf(op)))
  {
    hide Change, Without, IsMerge;
    match op
    case Save(account) =>
      SavingMakes(accounts, account, id);
      SavingMakes(accounts, account, account.id);
    case Remove(other) =>
      RemovingMakes(accounts, other, id);
      RemovingMakes(accounts, other, other);
    case _ => ReplacingMakes(accounts, op, id);
  }

  lemma SavingMakes(accounts: seq<Account>, account: Account, id: string)
    ensures var (after, changed) := Change(accounts, Save(account));
      && (if id == account.id && !HasId(accounts, id) then Find(after, id) == Some(account) else Find(after, id) == Find(accounts, id))
      && (changed <==> !HasId(accounts, account.id))
  {
    var after := Change(accounts, Save(account)).0;
    if HasId(accounts, id) {
      SameFirst(accounts, after, id);
    } else if !HasId(accounts, account.id) {
      if id == account.id {
        FirstIs(after, id, |accounts|);
      } else {
        assert forall i :: 0 <= i < |after| ==> after[i].id != id;
      }
    }
  }

  lemma RemovingMakes(accounts: seq<Account>, other: string, id: string)
    ensures var (after, changed) := Change(accounts, Remove(other));
      && (if id == other then !HasId(after, id) else Find(after, id) == Find(accounts, id))
      && (changed <==> HasId(accounts, other))
  {
    hide IndexOf, Without;
    var left := Without(accounts, other);
    WithoutKeeps(accounts, other);
    if HasId(accounts, id) && id != other { WithoutAnother(accounts, other, id); }
    if |left| == |accounts| { WithoutNobody(accounts, other); } else { WithoutSomebody(accounts, other); }
    if id != other && HasId(left, id) {
      var i :| 0 <= i < |left| && left[i].id == id;
      assert left[i] in accounts;
    }
  }

  lemma {:induction false} WithoutNobody(accounts: seq<Account>, other: string)
    requires |Without(accounts, other)| == |accounts|
    ensures !HasId(accounts, other)
  {
    if accounts != [] {
      WithoutKeeps(accounts[1..], other);
      WithoutNobody(accounts[1..], other);
      forall i | 0 <= i < |accounts| ensures accounts[i].id != other {
        if i > 0 { assert accounts[1..][i - 1] == accounts[i]; }
      }
    }
  }

  lemma {:induction false} WithoutSomebody(accounts: seq<Account>, other: string)
    requires |Without(accounts, other)| != |accounts|
    ensures HasId(accounts, other)
  {
    if accounts[0].id != other {
      WithoutSomebody(accounts[1..], other);
      var i :| 0 <= i < |accounts[1..]| && accounts[1..][i].id == other;
      assert accounts[i + 1].id == other;
    }
  }

  lemma ReplacingMakes(accounts: seq<Account>, op: Op, id: string)
    requires op.Update? || op.Observe?
    ensures var was, now := Find(accounts, id), Find(Change(accounts, op).0, id);
      if id == IdOf(op) then MakesOf(op, was, now) else now == was
  {
    hide IndexOf, IsMerge, ChangeFor;
    var after := Change(accounts, op).0;
    if HasId(accounts, op.id) {
      if op.Observe? { SeeingChanges(accounts, op.id, op.seen); }
      if HasId(accounts, id) {
        SameFirst(accounts, after, id);
      } else {
        assert forall i :: 0 <= i < |after| ==> after[i].id == accounts[i].id;
      }
    }
  }

  lemma StatusMoves(accounts: seq<Account>, op: Op, id: string)
    requires HasId(accounts, id) && LeavesItBe(op, id)
    ensures HasId(Change(accounts, op).0, id)
    ensures StatusIn(Change(accounts, op).0, id).value ==
            if op.Observe? && op.id == id && Says(op.seen).Some? && StatusIn(accounts, id).value != Suspended then Says(op.seen).value
            else StatusIn(accounts, id).value
  {
    hide Change;
    CallsMakeOf(accounts, op, id);
  }

  /** The account stands where it stood, if no other before it took its id. */
  lemma SameFirst(accounts: seq<Account>, after: seq<Account>, id: string)
    requires HasId(accounts, id) && |accounts| <= |after| && forall j :: 0 <= j < |accounts| ==> after[j].id == accounts[j].id
    ensures HasId(after, id) && IndexOf(after, id) == IndexOf(accounts, id)
  {
    var i := IndexOf(accounts, id);
    assert after[i].id == id;
    var k := IndexOf(after, id);
    assert k <= i;
    assert accounts[k].id == after[k].id == id;
  }

  lemma {:induction false} WithoutAnother(accounts: seq<Account>, other: string, id: string)
    requires HasId(accounts, id) && other != id
    ensures HasId(Without(accounts, other), id)
    ensures Without(accounts, other)[IndexOf(Without(accounts, other), id)] == accounts[IndexOf(accounts, id)]
  {
    hide IndexOf;
    var i, rest := IndexOf(accounts, id), Without(accounts[1..], other);
    assert Without(accounts, other) == (if accounts[0].id == other then [] else [accounts[0]]) + rest;
    if i == 0 {
      FirstIs(Without(accounts, other), id, 0);
    } else {
      assert forall j :: 0 <= j < |accounts| - 1 ==> accounts[1..][j] == accounts[j + 1];
      FirstIs(accounts[1..], id, i - 1);
      WithoutAnother(accounts[1..], other, id);
      if accounts[0].id != other {
        FirstIs(Without(accounts, other), id, IndexOf(rest, id) + 1);
      } else {
        assert Without(accounts, other) == rest;
      }
    }
  }

  lemma FirstIs(accounts: seq<Account>, id: string, i: nat)
    requires i < |accounts| && accounts[i].id == id && forall j :: 0 <= j < i ==> accounts[j].id != id
    ensures HasId(accounts, id) && IndexOf(accounts, id) == i
  {
  }

  /**
   * In memory an account's status is what was said of it last, by its connection or by a health check, whatever writes fail
   * and whatever happens to other accounts; a suspended one stays so.
   */
  lemma {:induction false} StatusIsTheLastWord(repo: Repo, calls: seq<Call>, id: string)
    requires HasId(repo.memory, id) && forall i :: 0 <= i < |calls| ==> LeavesItBe(calls[i].op, id)
    ensures HasId(After(repo, calls).memory, id)
    ensures StatusIn(After(repo, calls).memory, id) == Some(LastSaid(StatusIn(repo.memory, id).value, calls, id))
    decreases |calls|
  {
    hide Change, Says;
    if calls != [] {
      var last := |calls| - 1;
      var before := After(repo, calls[..last]).memory;
      StatusIsTheLastWord(repo, calls[..last], id);
      assert LeavesItBe(calls[last].op, id);
      StatusMoves(before, calls[last].op, id);
      UnchangedIsTheSame(before, calls[last].op);
    }
  }

  // ── Memory and disk over runs ────────────────────────────────────

  /** A call that counts: it was written, or it only says what happened. */
  predicate Counts(call: Call) {
    call.written || call.op.Observe?
  }

  /** One after another, with nothing failing. */
  function Folded(accounts: seq<Account>, ops: seq<Op>): seq<Account>
    decreases |ops|
  {
    if ops == [] then accounts else Change(Folded(accounts, ops[..|ops| - 1]), ops[|ops| - 1]).0
  }

  function OpsThat(calls: seq<Call>, counts: Call -> bool): seq<Op> {
    if calls == [] then []
    else
      var last := |calls| - 1;
      OpsThat(calls[..last], counts) + (if counts(calls[last]) then [calls[last].op] else [])
  }

  lemma UnchangedIsTheSame(accounts: seq<Account>, op: Op)
    ensures !Change(accounts, op).1 ==> Change(accounts, op).0 == accounts
  {
  }

  lemma FoldedMore(accounts: seq<Account>, ops: seq<Op>, op: Op)
    ensures Folded(accounts, ops + [op]) == Change(Folded(accounts, ops), op).0
  {
    assert (ops + [op])[..|ops|] == ops;
  }

  /** One more call: it is folded in if it counts, and changes nothing otherwise. */
  lemma FoldedLast(accounts: seq<Account>, calls: seq<Call>, counts: Call -> bool)
    requires calls != []
    ensures var last := |calls| - 1;
      var before := Folded(accounts, OpsThat(calls[..last], counts));
      Folded(accounts, OpsThat(calls, counts)) == if counts(calls[last]) then Change(before, calls[last].op).0 else before
  {
    var last := |calls| - 1;
    if counts(calls[last]) {
      FoldedMore(accounts, OpsThat(calls[..last], counts), calls[last].op);
    } else {
      assert OpsThat(calls, counts) == OpsThat(calls[..last], counts);
    }
  }

  /** Memory is the fold, in the order of the calls, of those whose write succeeded and of all that was observed. */
  lemma {:induction false} MemoryIsTheFold(repo: Repo, calls: seq<Call>)
    ensures After(repo, calls).memory == Folded(repo.memory, OpsThat(calls, Counts))
    decreases |calls|
  {
    if calls == [] {
    } else {
      hide Folded, OpsThat, Change;
      var last := |calls| - 1;
      MemoryIsTheFold(repo, calls[..last]);
      UnchangedIsTheSame(After(repo, calls[..last]).memory, calls[last].op);
      FoldedLast(repo.memory, calls, Counts);
    }
  }

  predicate Observes(call: Call) {
    call.op.Observe?
  }

  /** Where the last write that succeeded was: the number of calls up to it. */
  function LastWrite(repo: Repo, calls: seq<Call>): (k: nat)
    ensures k <= |calls|
    decreases |calls|
  {
    if calls == [] then 0
    else
      var last := |calls| - 1;
      if calls[last].written && Change(After(repo, calls[..last]).memory, calls[last].op).1 then |calls|
      else LastWrite(repo, calls[..last])
  }

  /**
   * Disk is memory as of the last write that succeeded, and memory differs from it only by what was observed since.
   */
  lemma {:induction false} DiskIsMemoryAsOfTheLastWrite(repo: Repo, calls: seq<Call>)
    requires repo.memory == repo.disk
    ensures var k, t := LastWrite(repo, calls), After(repo, calls);
      t.disk == After(repo, calls[..k]).memory && t.memory == Folded(t.disk, OpsThat(calls[k..], Observes))
    decreases |calls|
  {
    if calls == [] {
    } else {
      var last := |calls| - 1;
      var before := After(repo, calls[..last]);
      var k := LastWrite(repo, calls);
      DiskIsMemoryAsOfTheLastWrite(repo, calls[..last]);
      UnchangedIsTheSame(before.memory, calls[last].op);
      hide Folded, OpsThat, Change;
      if k == |calls| {
        assert calls[..k] == calls && calls[k..] == [];
        NothingFolded(After(repo, calls).disk);
      } else {
        var since := calls[k..];
        assert calls[..last][..k] == calls[..k];
        assert since[..|since| - 1] == calls[..last][k..] && since[|since| - 1] == calls[last];
        FoldedLast(before.disk, since, Observes);
      }
    }
  }

  lemma NothingFolded(accounts: seq<Account>)
    ensures Folded(accounts, OpsThat([], Observes)) == accounts
  {
  }

  // ── Suspended is the operator's ──────────────────────────────────

  ghost predicate IsSuspended(accounts: seq<Account>, id: string) {
    exists i :: 0 <= i < |accounts| && accounts[i].id == id && accounts[i].status == Suspended
  }

  ghost predicate DistinctIds(accounts: seq<Account>) {
    forall i, j :: 0 <= i < j < |accounts| ==> accounts[i].id != accounts[j].id
  }

  /** The operator speaks of this account's status, or removes it. */
  predicate Decides(op: Op, id: string) {
    (op.Update? && op.id == id && op.partial.status.Some?) || (op.Remove? && op.id == id)
  }

  lemma {:induction false} WithoutKeeps(accounts: seq<Account>, id: string)
    ensures |Without(accounts, id)| <= |accounts|
    ensures forall i :: 0 <= i < |Without(accounts, id)| ==> Without(accounts, id)[i] in accounts && Without(accounts, id)[i].id != id
    ensures forall a :: a in accounts && a.id != id ==> a in Without(accounts, id)
  {
    if accounts == [] {
    } else {
      WithoutKeeps(accounts[1..], id);
      assert accounts == [accounts[0]] + accounts[1..];
    }
  }

  lemma {:induction false} WithoutStaysDistinct(accounts: seq<Account>, id: string)
    requires DistinctIds(accounts)
    ensures DistinctIds(Without(accounts, id))
  {
    if accounts == [] {
    } else {
      WithoutStaysDistinct(accounts[1..], id);
      WithoutKeeps(accounts[1..], id);
      forall a | a in Without(accounts[1..], id) ensures a.id != accounts[0].id {
        var i :| 0 <= i < |accounts[1..]| && accounts[1..][i] == a;
        assert accounts[i + 1] == a;
      }
    }
  }

  lemma ChangeKeeps(accounts: seq<Account>, op: Op, id: string)
    requires DistinctIds(accounts)
    ensures DistinctIds(Change(accounts, op).0)
    ensures IsSuspended(accounts, id) && !Decides(op, id) ==> IsSuspended(Change(accounts, op).0, id)
  {
    var after := Change(accounts, op).0;
    if op.Remove? {
      WithoutKeeps(accounts, op.id);
      WithoutStaysDistinct(accounts, op.id);
    }
    if i :| IsSuspended(accounts, id) && !Decides(op, id) && 0 <= i < |accounts| && accounts[i].id == id && accounts[i].status == Suspended {
      if op.Remove? {
        assert accounts[i] in after;
      } else {
        assert after[i].id == id && after[i].status == Suspended;
      }
    }
  }

  /**
   * No connection event and no health result, nor anything else but the operator, takes an account out of
   * `suspended`: not in memory, and not in what a restart would load, whatever writes fail.
   */
  lemma {:induction false} SuspendedStays(repo: Repo, calls: seq<Call>, id: string)
    requires DistinctIds(repo.memory) && IsSuspended(repo.memory, id) && IsSuspended(repo.disk, id)
    requires forall i :: 0 <= i < |calls| ==> !Decides(calls[i].op, id)
    ensures var t := After(repo, calls);
      DistinctIds(t.memory) && IsSuspended(t.memory, id) && IsSuspended(t.disk, id)
    decreases |calls|
  {
    if calls == [] {
    } else {
      var last := |calls| - 1;
      SuspendedStays(repo, calls[..last], id);
      ChangeKeeps(After(repo, calls[..last]).memory, calls[last].op, id);
    }
  }

  /** A suspension that was written holds from then on, whatever the gateway sees. */
  lemma {:induction false} SuspendingHolds(repo: Repo, id: string, partial: Partial, calls: seq<Call>)
    requires DistinctIds(repo.memory) && HasId(repo.memory, id) && partial.status == Some(Suspended)
    requires forall i :: 0 <= i < |calls| ==> !Decides(calls[i].op, id)
    ensures var t := After(Next(repo, Call(Update(id, partial), true)), calls);
      IsSuspended(t.memory, id) && IsSuspended(t.disk, id)
  {
    var suspended := Next(repo, Call(Update(id, partial), true));
    ChangeKeeps(repo.memory, Update(id, partial), id);
    assert suspended.memory[IndexOf(repo.memory, id)].status == Suspended;
    SuspendedStays(suspended, calls, id);
  }
}

/**
 Which accounts a client of the live events listens to: the list the client keeps, the filter the server keeps,
 the actions on their way between them, and the list printed in the URL a reconnect asks for it with.
 */
module Subscriptions {
  import opened Options
  import opened Whitespace

  /** None is every account. */
  type Filter = Option<set<string>>

  // ── The list in the URL ──────────────────────────────────────────

  function TrimStart(s: string): string {
    if s != "" && IsSpace(s[0]) then TrimStart(s[1..]) else s
  }

  function TrimEnd(s: string): string {
    if s != "" && IsSpace(s[|s| - 1]) then TrimEnd(s[..|s| - 1]) else s
  }

  function Trim(s: string): string {
    TrimEnd(TrimStart(s))
  }

  function Join(ids: seq<string>): string {
    if ids == [] then "" else if |ids| == 1 then ids[0] else ids[0] + "," + Join(ids[1..])
  }

  function PutBefore(c: char, pieces: seq<string>): (more: seq<string>)
    requires |pieces| >= 1
    ensures |more| >= 1
  {
    if c == ',' then [""] + pieces else [[c] + pieces[0]] + pieces[1..]
  }

  function Split(s: string): (pieces: seq<string>)
    ensures |pieces| >= 1
  {
    if s == "" then [""] else PutBefore(s[0], Split(s[1..]))
  }

  /** Trimmed, and what is empty left out. */
  function Tidied(pieces: seq<string>): seq<string> {
    if pieces == [] then []
    else (if Trim(pieces[0]) == "" then [] else [Trim(pieces[0])]) + Tidied(pieces[1..])
  }

  /** The query parameter; an empty list has none. */
  function Print(ids: seq<string>): Option<string> {
    if ids == [] then None else Some(Join(ids))
  }

  function SetOf(ids: seq<string>): set<string> {
    set id | id in ids
  }

  function FilterOf(ids: seq<string>): Filter {
    if ids == [] then None else Some(SetOf(ids))
  }

  /** What the server makes of the parameter: an empty one counts as none. */
  function Parse(parameter: Option<string>): Filter {
    if parameter.None? || parameter.value == "" then None else FilterOf(Tidied(Split(parameter.value)))
  }

  /** An id the URL can carry: not empty, no comma, no space around it. */
  predicate IsClean(id: string) {
    id != "" && ',' !in id && !IsSpace(id[0]) && !IsSpace(id[|id| - 1])
  }

  predicate AreClean(ids: seq<string>) {
    forall i :: 0 <= i < |ids| ==> IsClean(ids[i])
  }

  lemma {:induction false} SplitOnePiece(s: string)
    requires ',' !in s
    ensures Split(s) == [s]
    decreases |s|
  {
    if s == "" {
    } else {
      SplitOnePiece(s[1..]);
      assert s == [s[0]] + s[1..];
    }
  }

  lemma {:induction false} SplitAtComma(s: string, t: string)
    requires ',' !in s
    ensures Split(s + "," + t) == [s] + Split(t)
    decreases |s|
  {
    var whole := s + "," + t;
    if s == "" {
      assert whole[1..] == t;
    } else {
      SplitAtComma(s[1..], t);
      assert whole[0] == s[0] && whole[1..] == s[1..] + "," + t;
      var rest := [s[1..]] + Split(t);
      assert rest[1..] == Split(t) && s == [s[0]] + s[1..];
    }
  }

  lemma {:induction false} JoinedSplits(ids: seq<string>)
    requires ids != [] && AreClean(ids)
    ensures Split(Join(ids)) == ids && Join(ids) != ""
  {
    if |ids| == 1 {
      SplitOnePiece(ids[0]);
    } else {
      JoinedSplits(ids[1..]);
      SplitAtComma(ids[0], Join(ids[1..]));
    }
  }

  lemma {:induction false} CleanStaysTidied(ids: seq<string>)
    requires AreClean(ids)
    ensures Tidied(ids) == ids
  {
    if ids == [] {
    } else {
      assert IsClean(ids[0]);
      CleanStaysTidied(ids[1..]);
    }
  }

  lemma {:induction false} PiecesHaveNoComma(s: string)
    ensures forall i :: 0 <= i < |Split(s)| ==> ',' !in Split(s)[i]
    decreases |s|
  {
    if s == "" {
    } else {
      PiecesHaveNoComma(s[1..]);
    }
  }

  lemma {:induction false} TrimStartIsATail(s: string)
    ensures TrimStart(s) != "" ==> !IsSpace(TrimStart(s)[0])
    ensures ',' !in s ==> ',' !in TrimStart(s)
    decreases |s|
  {
    if s != "" && IsSpace(s[0]) { TrimStartIsATail(s[1..]); }
  }

  lemma {:induction false} TrimEndIsAFront(s: string)
    ensures TrimEnd(s) != "" ==> !IsSpace(TrimEnd(s)[|TrimEnd(s)| - 1]) && TrimEnd(s)[0] == s[0]
    ensures ',' !in s ==> ',' !in TrimEnd(s)
    decreases |s|
  {
    if s != "" && IsSpace(s[|s| - 1]) { TrimEndIsAFront(s[..|s| - 1]); }
  }

  lemma TrimmedIsClean(s: string)
    requires ',' !in s && Trim(s) != ""
    ensures IsClean(Trim(s))
  {
    TrimStartIsATail(s);
    TrimEndIsAFront(TrimStart(s));
  }

  lemma {:induction false} TidiedAreClean(pieces: seq<string>)
    requires forall i :: 0 <= i < |pieces| ==> ',' !in pieces[i]
    ensures AreClean(Tidied(pieces))
  {
    if pieces == [] {
    } else {
      TidiedAreClean(pieces[1..]);
      if Trim(pieces[0]) != "" { TrimmedIsClean(pieces[0]); }
    }
  }

  /** The server reads back the set the client printed, if and only if the URL can carry every id. */
  lemma PrintedListReadsBack(ids: seq<string>)
    ensures Parse(Print(ids)) == FilterOf(ids) <==> AreClean(ids)
  {
    if ids != [] {
      if AreClean(ids) {
        JoinedSplits(ids);
        CleanStaysTidied(ids);
      } else {
        var i :| 0 <= i < |ids| && !IsClean(ids[i]);
        assert ids[i] in SetOf(ids);
        if Join(ids) != "" {
          var read := Tidied(Split(Join(ids)));
          PiecesHaveNoComma(Join(ids));
          TidiedAreClean(Split(Join(ids)));
          assert forall id :: id in SetOf(read) ==> IsClean(id);
        }
      }
    }
  }

  // ── Actions ──────────────────────────────────────────────────────

  datatype Action = Subscribe(accounts: seq<string>) | Unsubscribe(accounts: seq<string>)

  /** Removing the last account of a filter leaves none. */
  function Applied(filter: Filter, action: Action): Filter {
    match action
    case Subscribe(accounts) => FilterOf(accounts)
    case Unsubscribe(accounts) =>
      match filter
      case None => None
      case Some(wanted) => if wanted - SetOf(accounts) == {} then None else Some(wanted - SetOf(accounts))
  }

  function AllApplied(filter: Filter, actions: seq<Action>): Filter
    decreases |actions|
  {
    if actions == [] then filter else AllApplied(Applied(filter, actions[0]), actions[1..])
  }

  function Without(ids: seq<string>, gone: seq<string>): seq<string> {
    if ids == [] then [] else (if ids[0] in gone then [] else [ids[0]]) + Without(ids[1..], gone)
  }

  function Listed(ids: seq<string>, action: Action): seq<string> {
    match action
    case Subscribe(accounts) => accounts
    case Unsubscribe(accounts) => Without(ids, accounts)
  }

  lemma SetOfAll(ids: seq<string>, more: seq<string>)
    ensures SetOf(ids + more) == SetOf(ids) + SetOf(more)
  {
  }

  lemma {:induction false} WithoutIsDifference(ids: seq<string>, gone: seq<string>)
    ensures SetOf(Without(ids, gone)) == SetOf(ids) - SetOf(gone)
  {
    if ids == [] {
    } else {
      WithoutIsDifference(ids[1..], gone);
      SetOfAll([ids[0]], ids[1..]);
      assert ids == [ids[0]] + ids[1..];
      SetOfAll(if ids[0] in gone then [] else [ids[0]], Without(ids[1..], gone));
    }
  }

  /** The client's list and the server's filter change alike. */
  lemma ActsAlike(ids: seq<string>, action: Action)
    ensures FilterOf(Listed(ids, action)) == Applied(FilterOf(ids), action)
  {
    if action.Unsubscribe? {
      WithoutIsDifference(ids, action.accounts);
      var left := Without(ids, action.accounts);
      assert left != [] ==> left[0] in SetOf(left);
    }
  }

  /** Whether an event reaches a client with this filter. */
  predicate Gets(filter: Filter, account: string, readOnly: bool) {
    if account == "" then !readOnly && filter.None?
    else filter.None? || account in filter.value
  }

  /** A client of the server, whose filter actions change in place. */
  class ServerClient {
    var accountFilter: Filter

    constructor (parameter: Option<string>)
      ensures accountFilter == Parse(parameter)
    {
      accountFilter := Parse(parameter);
    }

    method OnAction(action: Action)
      modifies this
      ensures accountFilter == Applied(old(accountFilter), action)
    {
      match action
      case Subscribe(accounts) => accountFilter := FilterOf(accounts);
      case Unsubscribe(accounts) =>
        ghost var before := accountFilter;
        for i := 0 to |accounts|
          invariant accountFilter.Some? <==> before.Some?
          invariant before.Some? ==> accountFilter.value == before.value - SetOf(accounts[..i])
        {
          if accountFilter.Some? {
            accountFilter := Some(accountFilter.value - {accounts[i]});
          }
          assert SetOf(accounts[..i + 1]) == SetOf(accounts[..i]) + {accounts[i]} by {
            assert accounts[..i + 1] == accounts[..i] + [accounts[i]];
          }
        }
        assert accounts[..|accounts|] == accounts;
        if accountFilter == Some({}) {
          accountFilter := None;
        }
    }

    /** An event with no account concerns nobody in particular: only who listens to everything and may see all of it gets it. */
    predicate Wants(account: string, readOnly: bool)
      reads this
    {
      Gets(accountFilter, account, readOnly)
    }
  }

  // ── Runs ─────────────────────────────────────────────────────────

  /** A connection on its way, with the URL it asks for; or one the server accepted, with what it has not read yet. */
  datatype Connection = Connecting(url: Option<string>) | Open(sent: seq<Action>, filter: Filter)

  datatype Sdk = Sdk(subscriptions: seq<string>, ws: Option<Connection>, timer: bool, intentionalClose: bool, autoReconnect: bool)

  function New(accounts: seq<string>, autoReconnect: bool): Sdk {
    Sdk(accounts, None, false, false, autoReconnect)
  }

  datatype Event =
    | Connect
    | Accepted
    | Acts(action: Action)
    | ServerReads
    | Drops(refused: bool)
    | TimerFires
    | Disconnect

  /** The server reads what is sent in order; a connection may drop at any moment, with whatever is on its way. */
  predicate Enabled(s: Sdk, e: Event) {
    match e
    case Accepted => s.ws.Some? && s.ws.value.Connecting?
    case ServerReads => s.ws.Some? && s.ws.value.Open? && s.ws.value.sent != []
    case Drops(_) => s.ws.Some?
    case TimerFires => s.timer
    case _ => true
  }

  function StartConnection(s: Sdk): Sdk {
    if s.ws.Some? then s else s.(ws := Some(Connecting(Print(s.subscriptions))), intentionalClose := false)
  }

  function Next(s: Sdk, e: Event): Sdk
    requires Enabled(s, e)
  {
    match e
    case Connect => StartConnection(s)
    case Accepted => s.(ws := Some(Open([], Parse(s.ws.value.url))))
    case Acts(action) =>
      // Without a connection it throws, and leaves everything as it was.
      if s.ws.Some? && s.ws.value.Open?
      then s.(ws := Some(s.ws.value.(sent := s.ws.value.sent + [action])), subscriptions := Listed(s.subscriptions, action))
      else s
    case ServerReads =>
      s.(ws := Some(Open(s.ws.value.sent[1..], Applied(s.ws.value.filter, s.ws.value.sent[0]))))
    case Drops(refused) =>
      s.(ws := None, timer := s.timer || (s.autoReconnect && !s.intentionalClose && !refused))
    case TimerFires => StartConnection(s.(timer := false))
    case Disconnect => s.(intentionalClose := true, timer := false, ws := None)
  }

  predicate IsRun(s: Sdk, events: seq<Event>)
    decreases |events|
  {
    events == [] || (Enabled(s, events[0]) && IsRun(Next(s, events[0]), events[1..]))
  }

  function After(s: Sdk, events: seq<Event>): Sdk
    requires IsRun(s, events)
    decreases |events|
  {
    if events == [] then s else After(Next(s, events[0]), events[1..])
  }

  /** The list, as a filter, is the server's filter with what is on its way applied; or what the URL asks for. */
  ghost predicate Agrees(s: Sdk) {
    match s.ws
    case None => true
    case Some(Connecting(url)) => url == Print(s.subscriptions)
    case Some(Open(sent, filter)) => FilterOf(s.subscriptions) == AllApplied(filter, sent)
  }

  lemma {:induction false} AppliedLast(filter: Filter, sent: seq<Action>, action: Action)
    ensures AllApplied(filter, sent + [action]) == Applied(AllApplied(filter, sent), action)
    decreases |sent|
  {
    if sent == [] {
      assert sent + [action] == [action];
      assert [action][1..] == [];
    } else {
      AppliedLast(Applied(filter, sent[0]), sent[1..], action);
      assert (sent + [action])[1..] == sent[1..] + [action];
    }
  }

  lemma NextAgrees(s: Sdk, e: Event)
    requires Agrees(s) && Enabled(s, e)
    ensures Agrees(Next(s, e)) <==> (e.Accepted? ==> AreClean(s.subscriptions))
  {
    match e
    case Accepted => PrintedListReadsBack(s.subscriptions);
    case Acts(action) =>
      ActsAlike(s.subscriptions, action);
      if s.ws.Some? && s.ws.value.Open? { AppliedLast(s.ws.value.filter, s.ws.value.sent, action); }
    case _ =>
  }

  /** At every moment of the run. */
  ghost predicate AgreesThroughout(s: Sdk, events: seq<Event>)
    requires IsRun(s, events)
    decreases |events|
  {
    Agrees(s) && (events == [] || AgreesThroughout(Next(s, events[0]), events[1..]))
  }

  /** Whenever the server accepts a connection, every id on the list is one the URL can carry. */
  predicate CleanWhenAccepted(s: Sdk, events: seq<Event>)
    requires IsRun(s, events)
    decreases |events|
  {
    events == [] ||
    ((events[0].Accepted? ==> AreClean(s.subscriptions)) && CleanWhenAccepted(Next(s, events[0]), events[1..]))
  }

  /** Client and server agree throughout a run exactly if every list they connect with is one the URL can carry. */
  lemma {:induction false} AlwaysAgree(s: Sdk, events: seq<Event>)
    requires Agrees(s) && IsRun(s, events)
    ensures AgreesThroughout(s, events) <==> CleanWhenAccepted(s, events)
    decreases |events|
  {
    hide Next, Agrees, AreClean, Enabled;
    if events != [] {
      NextAgrees(s, events[0]);
      if Agrees(Next(s, events[0])) { AlwaysAgree(Next(s, events[0]), events[1..]); }
    }
  }

  /** With any other a reconnect does not ask for what the client listens to. */
  lemma ReconnectAgreesIfClean(s: Sdk)
    requires s.ws.None?
    ensures Agrees(Next(Next(s, Connect), Accepted)) <==> AreClean(s.subscriptions)
  {
    PrintedListReadsBack(s.subscriptions);
  }

  /** After a disconnect nothing connects until someone asks: no timer is left, and a late close starts none. */
  lemma {:induction false} StaysDisconnected(s: Sdk, events: seq<Event>)
    requires IsRun(Next(s, Disconnect), events)
    requires forall i :: 0 <= i < |events| ==> !events[i].Connect?
    ensures After(Next(s, Disconnect), events).ws.None? && !After(Next(s, Disconnect), events).timer
  {
    StaysDown(Next(s, Disconnect), events);
  }

  /** Neither connected nor about to be. */
  predicate IsDown(s: Sdk) {
    s.ws.None? && !s.timer
  }

  /** A connection there is was meant. */
  predicate IsMeant(s: Sdk) {
    s.ws.Some? ==> !s.intentionalClose
  }

  /** What ends it: a disconnect, or a drop with no reconnect pending that was refused or is not to be followed by one. */
  predicate EndsIt(s: Sdk, e: Event) {
    e.Disconnect? || (e.Drops? && !s.timer && (e.refused || !s.autoReconnect))
  }

  lemma OnlyTheseEndIt(s: Sdk, e: Event)
    requires IsMeant(s) && Enabled(s, e)
    ensures IsMeant(Next(s, e)) && Next(s, e).autoReconnect == s.autoReconnect
    ensures IsDown(s) ==> (IsDown(Next(s, e)) <==> !e.Connect?)
    ensures !IsDown(s) ==> (IsDown(Next(s, e)) <==> EndsIt(s, e))
    ensures e.TimerFires? || e.Connect? ==> Next(s, e).ws.Some?
  {
  }

  /** The last that mattered was a step that ends it, or nobody ever asked. */
  predicate HasEnded(s: Sdk, events: seq<Event>, down: bool)
    requires IsRun(s, events)
    decreases |events|
  {
    if events == [] then down
    else HasEnded(Next(s, events[0]), events[1..], if down then !events[0].Connect? else EndsIt(s, events[0]))
  }

  /**
   * After any run a client is connected, or connecting, or has a reconnect pending, unless, if and only if, nobody asked for a
   * connection since it was ended by a disconnect, a refusal, or a drop it is not to reconnect after.
   */
  lemma {:induction false} ReconnectsUnlessEnded(s: Sdk, events: seq<Event>)
    requires IsMeant(s) && IsRun(s, events)
    ensures IsDown(After(s, events)) <==> HasEnded(s, events, IsDown(s))
    decreases |events|
  {
    hide Next, Enabled, EndsIt, IsDown;
    if events != [] {
      OnlyTheseEndIt(s, events[0]);
      ReconnectsUnlessEnded(Next(s, events[0]), events[1..]);
    }
  }

  lemma {:induction false} StaysDown(s: Sdk, events: seq<Event>)
    requires IsRun(s, events) && s.ws.None? && !s.timer
    requires forall i :: 0 <= i < |events| ==> !events[i].Connect?
    ensures After(s, events).ws.None? && !After(s, events).timer
    decreases |events|
  {
    if events == [] {
    } else {
      assert !events[0].Connect?;
      assert forall i :: 0 <= i < |events[1..]| ==> events[1..][i] == events[i + 1];
      StaysDown(Next(s, events[0]), events[1..]);
    }
  }

  /**
   * Once the server has read all that was sent, a client gets the events of the accounts on its list, or of all if the list is
   * empty; and those of no account only then, and with the right to see everything.
   */
  lemma GetsWhatItListensTo(s: Sdk, account: string, readOnly: bool)
    requires Agrees(s) && s.ws.Some? && s.ws.value.Open? && s.ws.value.sent == []
    ensures Gets(s.ws.value.filter, account, readOnly) <==>
              if s.subscriptions == [] then account != "" || !readOnly else account != "" && account in s.subscriptions
  {
  }

  // ── In place ─────────────────────────────────────────────────────

  /** The client, changed in place; what the server makes of it is in `ws`. */
  class MessagingGatewayEvents {
    var subscriptions: seq<string>
    var ws: Option<Connection>
    var reconnectTimer: bool
    var intentionalClose: bool
    const autoReconnect: bool

    ghost function View(): Sdk
      reads this
    {
      Sdk(subscriptions, ws, reconnectTimer, intentionalClose, autoReconnect)
    }

    constructor (accounts: seq<string>, autoReconnect: bool)
      ensures View() == New(accounts, autoReconnect)
    {
      subscriptions, ws, reconnectTimer, intentionalClose := accounts, None, false, false;
      this.autoReconnect := autoReconnect;
    }

    method ConnectNow()
      modifies this
      ensures View() == Next(old(View()), Connect)
    {
      if ws.Some? {
        return;
      }
      intentionalClose := false;
      ws := Some(Connecting(Print(subscriptions)));
    }

    method DisconnectNow()
      modifies this
      ensures View() == Next(old(View()), Disconnect)
    {
      intentionalClose, reconnectTimer, ws := true, false, None;
    }

    /** Whether it could be sent: it throws otherwise, and nothing changes. */
    method SendAction(action: Action) returns (sent: bool)
      modifies this`ws
      ensures sent <==> old(ws).Some? && old(ws).value.Open?
      ensures ws == if sent then Some(old(ws).value.(sent := old(ws).value.sent + [action])) else old(ws)
    {
      sent := ws.Some? && ws.value.Open?;
      if sent {
        ws := Some(ws.value.(sent := ws.value.sent + [action]));
      }
    }

    method SubscribeTo(accounts: seq<string>) returns (sent: bool)
      modifies this
      ensures View() == Next(old(View()), Acts(Subscribe(accounts)))
    {
      sent := SendAction(Subscribe(accounts));
      if sent {
        subscriptions := accounts;
      }
    }

    method UnsubscribeFrom(accounts: seq<string>) returns (sent: bool)
      modifies this
      ensures View() == Next(old(View()), Acts(Unsubscribe(accounts)))
    {
      sent := SendAction(Unsubscribe(accounts));
      if sent {
        subscriptions := Without(subscriptions, accounts);
      }
    }

    /** The current socket closed: the reconnect is scheduled before anyone is told. */
    method OnClose(refused: bool)
      requires ws.Some?
      modifies this
      ensures View() == Next(old(View()), Drops(refused))
    {
      ws := None;
      if autoReconnect && !intentionalClose && !refused {
        reconnectTimer := true;
      }
    }

    method OnTimer()
      requires reconnectTimer
      modifies this
      ensures View() == Next(old(View()), TimerFires)
    {
      reconnectTimer := false;
      ConnectNow();
    }
  }
}

/**
 Where a socket gets lost: still connected, its messages arriving, and in none of the manager's maps, so that nothing
 of the manager closes it any more. It takes a logout whose end meets another socket of the account.
 */
module LiveSockets {
  import opened Options
  import opened SocketManager

  /** Live, and not the account's current socket. */
  predicate Adrift(m: Manager, id: Id) {
    id in m.live && !IsCurrent(m, id)
  }

  /** An entry is of a socket of its account that can still be heard. */
  ghost predicate EntriesMatch(m: Manager) {
    forall a :: a in m.sockets ==>
      m.sockets[a].id in m.listening && m.listening[m.sockets[a].id].account == a && m.sockets[a].id !in m.dropped
  }

  /** A logout under way is of a socket the account had. */
  ghost predicate LogoutsMatch(m: Manager) {
    forall r :: r in m.logouts ==> r.1 < m.nextId && (r.1 in m.listening ==> m.listening[r.1].account == r.0)
  }

  /** A timer waits for an account whose socket is gone or dead, and nobody connects it meanwhile. */
  ghost predicate TimersWait(m: Manager) {
    forall a :: a in m.timers ==> a !in m.connecting && (a in m.sockets ==> m.sockets[a].id !in m.live)
  }

  /** A live socket is current unless it was dropped. */
  ghost predicate LiveAreKnown(m: Manager) {
    forall id :: id in m.live ==> id in m.listening && (IsCurrent(m, id) || id in m.dropped)
  }

  ghost predicate DroppedAreOld(dropped: set<Id>, nextId: Id) {
    forall id :: id in dropped ==> id < nextId
  }

  ghost predicate Tracked(m: Manager) {
    EntriesMatch(m) && LogoutsMatch(m) && TimersWait(m) && LiveAreKnown(m) && DroppedAreOld(m.dropped, m.nextId)
  }

  // ── Every step keeps track ───────────────────────────────────────

  lemma CancelTracks(m: Manager, a: Account)
    requires Tracked(m)
    ensures Tracked(WithoutTimer(m, a)) && Tracked(CancelReconnect(m, a))
  {
    TimerGoneTracks(m, a);
    StreakGoneTracks(WithoutTimer(m, a), a);
  }

  lemma TimerGoneTracks(m: Manager, a: Account)
    requires Tracked(m)
    ensures Tracked(WithoutTimer(m, a))
  {
  }

  lemma StreakGoneTracks(m: Manager, a: Account)
    requires Tracked(m)
    ensures Tracked(ForgetStreak(m, a))
  {
  }

  lemma ScheduleTracks(m: Manager, a: Account, retries: bool, code: Option<int>, random: real)
    requires Tracked(m) && 0.0 <= random < 1.0 && a !in m.connecting && (a in m.sockets ==> m.sockets[a].id !in m.live)
    ensures Tracked(Schedule(m, a, retries, code, random))
  {
    hide Schedule;
    ScheduleSets(m, a, retries, code, random);
  }

  lemma StartConnectTracks(m: Manager, a: Account, waiter: Waiter, retries: bool)
    requires Tracked(m)
    ensures Tracked(StartConnect(m, a, waiter, retries))
  {
    hide WithoutTimer, Tracked;
    if m.closed || a in m.clearing || a in m.sockets {
    } else if a in m.connecting {
      SameTracks(m, m.(ended := m.ended - {a}));
    } else {
      TimerGoneTracks(m, a);
      NoTimer(m, a);
      ConnectingTracks(WithoutTimer(m, a), a, (waiter, retries));
    }
  }

  lemma ConnectingTracks(m: Manager, a: Account, connect: (Waiter, bool))
    requires Tracked(m) && a !in m.timers
    ensures Tracked(m.(ended := m.ended - {a}, connecting := m.connecting[a := connect]))
  {
    var t := m.(ended := m.ended - {a}, connecting := m.connecting[a := connect]);
    assert forall id :: IsCurrent(t, id) == IsCurrent(m, id);
  }

  lemma NoTimer(m: Manager, a: Account)
    ensures a !in WithoutTimer(m, a).timers
  {
  }

  /** The entry a reconnect replaces is of a dead socket. */
  lemma StartReconnectTracks(m: Manager, a: Account, retries: bool)
    requires Tracked(m) && (a in m.sockets ==> m.sockets[a].id !in m.live)
    ensures Tracked(StartReconnect(m, a, retries))
  {
    hide StartConnect;
    var t := m.(sockets := m.sockets - {a});
    assert forall id :: id in m.live && IsCurrent(m, id) ==> IsCurrent(t, id);
    StartConnectTracks(t, a, Loop(retries), retries);
  }

  lemma ConnectEndsTracks(m: Manager, a: Account, ok: bool, random: real)
    requires Inv(m) && Tracked(m) && a in m.connecting && 0.0 <= random < 1.0
    ensures Tracked(ConnectEnds(m, a, ok, random))
  {
    hide ConnectEnds, Schedule, SocketMade, StreaksAreBounded, TimersMatch;
    var (waiter, retries) := m.connecting[a];
    var t := m.(connecting := m.connecting - {a});
    assert Tracked(t) && a !in t.sockets && a !in t.timers;
    ConnectEndsIs(m, a, ok, random);
    if !ok && waiter.Loop? { ScheduleTracks(t, a, waiter.retries, None, random); }
    MadeTracks(t, a, retries);
  }

  lemma MadeTracks(m: Manager, a: Account, retries: bool)
    requires Tracked(m) && IdsAreFresh(m.listening, m.nextId) && a !in m.sockets && a !in m.timers
    ensures Tracked(SocketMade(m, a, retries))
  {
    var t := SocketMade(m, a, retries);
    forall id | id in t.live ensures id in t.listening && (IsCurrent(t, id) || id in t.dropped) {
      if id != m.nextId && id !in m.dropped { assert IsCurrent(m, id); }
    }
  }

  lemma DeadTracks(m: Manager, a: Account, now: int)
    requires Tracked(m) && a in m.sockets
    ensures Tracked(Dead(m, a, now)) && Dead(m, a, now).sockets[a].id == m.sockets[a].id
    ensures SameRest(m.(sockets := m.sockets[a := m.sockets[a].(openedAt := None)]), Dead(m, a, now))
  {
    hide ForgetStreak;
    StreaksAreApart(m, a);
    DeadIsApart(m, a, now);
    StreakGoneTracks(m, a);
    var t := Dead(m, a, now);
    assert forall id :: id in m.live && IsCurrent(m, id) ==> IsCurrent(t, id);
    assert t.timers == m.timers by { StreaksHaveNoTimers(m, a); }
  }

  lemma StreaksHaveNoTimers(m: Manager, a: Account)
    ensures ForgetStreak(m, a).timers == m.timers && ForgetStreak(m, a).running == m.running
  {
  }

  lemma BackOffTracks(m: Manager, a: Account, retries: bool, code: Option<int>, now: int, random: real)
    requires Inv(m) && Tracked(m) && a in m.sockets && m.sockets[a].id !in m.live && 0.0 <= random < 1.0
    ensures Tracked(BackOff(m, a, retries, code, now, random))
  {
    hide Tracked, Dead, Schedule, StreaksAreBounded, TimersMatch, IdsAreFresh;
    DeadTracks(m, a, now);
    ScheduleTracks(Dead(m, a, now), a, retries, code, random);
  }

  lemma EndForGoodTracks(m: Manager, a: Account, code: Option<int>)
    requires Tracked(m) && a in m.sockets && m.sockets[a].id !in m.live
    ensures Tracked(EndForGood(m, a, code))
  {
    hide CancelReconnect;
    var t := m.(ended := if IsLost(code) && a !in m.ended then m.ended[a := SessionLost] else m.ended,
                sockets := m.sockets - {a});
    assert forall id :: id in m.live && IsCurrent(m, id) ==> IsCurrent(t, id);
    CancelTracks(t, a);
  }

  lemma ClosesTracks(m: Manager, id: Id, code: Option<int>, now: int, random: real)
    requires Inv(m) && Tracked(m) && id in m.listening && id !in m.live && 0.0 <= random < 1.0
    ensures Tracked(SocketCloses(m, id, code, now, random))
  {
    hide Inv, Tracked, BackOff, EndForGood;
    if IsCurrent(m, id) {
      BackOffTracks(m, m.listening[id].account, m.listening[id].retries, code, now, random);
      EndForGoodTracks(m, m.listening[id].account, code);
    }
  }

  lemma DropTracks(m: Manager, a: Account)
    requires Tracked(m)
    ensures Tracked(DropSocket(m, a))
  {
    var t := DropSocket(m, a);
    assert forall id :: id in t.live && IsCurrent(m, id) ==> IsCurrent(t, id);
  }

  lemma EndDisconnectTracks(m: Manager, a: Account, id: Id)
    requires Tracked(m) && (a, id) in m.logouts && IdsAreFresh(m.listening, m.nextId)
    ensures Tracked(EndDisconnect(m, a, id))
  {
    var t := EndDisconnect(m, a, id);
    forall other | other in t.live ensures other in t.listening && (IsCurrent(t, other) || other in t.dropped) {
      if IsCurrent(m, other) && m.listening[other].account == a { assert other in t.dropped; }
    }
    forall r | r in t.logouts ensures r in m.logouts {
    }
  }

  lemma DisconnectingTracks(m: Manager, a: Account)
    requires Tracked(m) && IdsAreFresh(m.listening, m.nextId)
    ensures Tracked(Disconnecting(m, a))
  {
    var t := Disconnecting(m, a);
    assert forall id :: IsCurrent(t, id) == IsCurrent(m, id);
    assert forall r :: r in t.logouts ==> r in m.logouts || (a in m.sockets && r == (a, m.sockets[a].id));
  }

  lemma CloseAllTracks(m: Manager)
    requires Tracked(m)
    ensures Tracked(CloseAll(m))
  {
    var t := CloseAll(m);
    forall id | id in t.live ensures id in t.listening && id in t.dropped {
      assert id in m.live && !IsCurrent(m, id);
    }
  }

  lemma OpensTracks(m: Manager, id: Id, now: int)
    requires Tracked(m) && id in m.listening
    ensures Tracked(SocketOpens(m, id, now))
  {
    hide Tracked;
    if IsCurrent(m, id) {
      var a := m.listening[id].account;
      EntryTracks(m, a, m.sockets[a].(openedAt := Some(now)));
    }
  }

  lemma EntryTracks(m: Manager, a: Account, entry: Entry)
    requires Tracked(m) && a in m.sockets && entry.id == m.sockets[a].id
    ensures Tracked(m.(sockets := m.sockets[a := entry]))
  {
    var t := m.(sockets := m.sockets[a := entry]);
    assert forall b :: b in t.sockets ==> b in m.sockets && t.sockets[b].id == m.sockets[b].id;
    assert forall id :: IsCurrent(t, id) == IsCurrent(m, id);
  }

  /** Only what `Tracked` does not read, or less of what is live. */
  lemma SameTracks(m: Manager, t: Manager)
    requires Tracked(m) && t.sockets == m.sockets && t.connecting == m.connecting && t.listening == m.listening
    requires t.live <= m.live && t.logouts == m.logouts && t.nextId == m.nextId && t.dropped == m.dropped
    requires forall a :: a in t.timers ==> a in m.timers
    ensures Tracked(t)
  {
    assert forall id :: IsCurrent(t, id) == IsCurrent(m, id);
  }

  /** The entry of an account whose timer goes off is dead, and there is no entry of one that is to be connected. */
  lemma ReconnectsTrack(m: Manager, e: Event)
    requires Inv(m) && Tracked(m) && Enabled(m, e) && (e.TimerFires? || e.EnsureConnected?)
    ensures Tracked(Next(m, e))
  {
    hide StartReconnect, StreaksAreBounded, IdsAreFresh, ConnectsAlone;
    match e
    case TimerFires(a, id, retries) =>
      var t := m.(timers := m.timers - {a}, running := m.running - {(a, id)});
      SameTracks(m, t);
      StartReconnectTracks(t, a, retries);
    case EnsureConnected(a, retries) =>
      if a !in m.sockets { StartReconnectTracks(m, a, retries); }
  }

  lemma CallersTrack(m: Manager, e: Event)
    requires Inv(m) && Tracked(m) && (e.DisconnectStarts? || e.CloseConnection? || e.ClearStarts?)
    ensures Tracked(Next(m, e))
  {
    hide Tracked, CancelReconnect, DropSocket, Disconnecting, StreaksAreBounded, TimersMatch;
    match e
    case DisconnectStarts(a) =>
      DisconnectingTracks(m, a);
      CancelTracks(Disconnecting(m, a), a);
    case CloseConnection(a) =>
      var t := m.(ended := m.ended[a := Closed]);
      SameTracks(m, t);
      CancelTracks(t, a);
      DropTracks(CancelReconnect(t, a), a);
    case ClearStarts(a) =>
      var t := m.(clearing := m.clearing + {a});
      SameTracks(m, t);
      CancelTracks(t, a);
      DropTracks(CancelReconnect(t, a), a);
  }

  lemma ClosingTracks(m: Manager, e: Event)
    requires Inv(m) && Tracked(m) && Enabled(m, e) && e.Closes?
    ensures Tracked(Next(m, e))
  {
    hide Inv, Tracked, SocketCloses;
    var t := m.(live := m.live - {e.id});
    FieldsAside(m, e);
    SameTracks(m, t);
    ClosesTracks(t, e.id, e.code, e.now, e.random);
  }

  lemma QuietTracks(m: Manager, e: Event)
    requires Tracked(m) && (e.Registers? || e.ClearEnds? || e.ForgetAccount?)
    ensures Tracked(Next(m, e))
  {
    hide Tracked;
    match e
    case Registers(a) => SameTracks(m, m.(wired := m.wired + {a}));
    case ClearEnds(a) => SameTracks(m, m.(clearing := m.clearing - {a}));
    case ForgetAccount(a) => SameTracks(m, m.(ended := m.ended - {a}));
  }

  lemma IdsDoFollow(m: Manager)
    requires Inv(m)
    ensures IdsAreFresh(m.listening, m.nextId)
  {
  }

  lemma NextTracks(m: Manager, e: Event)
    requires Inv(m) && Tracked(m) && Enabled(m, e)
    ensures Tracked(Next(m, e))
  {
    hide Inv, Tracked, StartConnect, StartReconnect, ConnectEnds, SocketCloses, SocketOpens, EndDisconnect, CloseAll,
      CancelReconnect, DropSocket;
    IdsDoFollow(m);
    match e
    case Connect(a, retries) => StartConnectTracks(m, a, Caller, retries);
    case ConnectIsOver(a, ok, random) => ConnectEndsTracks(m, a, ok, random);
    case Opens(id, now) => OpensTracks(m, id, now);
    case Closes(_, _, _, _) => ClosingTracks(m, e);
    case DisconnectEnds(a, id) => EndDisconnectTracks(m, a, id);
    case ClosesAll => CloseAllTracks(m);
    case Registers(_) => QuietTracks(m, e);
    case ClearEnds(_) => QuietTracks(m, e);
    case ForgetAccount(_) => QuietTracks(m, e);
    case TimerFires(_, _, _) => ReconnectsTrack(m, e);
    case EnsureConnected(_, _) => ReconnectsTrack(m, e);
    case _ => CallersTrack(m, e);
  }

  lemma {:induction false} RunTracks(m: Manager, events: seq<Event>)
    requires Inv(m) && Tracked(m) && IsRun(m, events)
    ensures Tracked(After(m, events))
    decreases |events|
  {
    hide Inv, Tracked, Next, Enabled;
    if events != [] {
      NextKeeps(m, events[0]);
      NextTracks(m, events[0]);
      RunTracks(Next(m, events[0]), events[1..]);
    }
  }

  lemma FreshIsTracked()
    ensures Tracked(FRESH)
  {
  }

  // ── Exactly these are adrift ─────────────────────────────────────

  /** In every run, a live socket is its account's current one, unless the end of another one's logout dropped its entry. */
  lemma OnlyDroppedAreAdrift(events: seq<Event>, id: Id)
    requires IsRun(FRESH, events) && id in After(FRESH, events).live
    ensures Adrift(After(FRESH, events), id) <==> id in After(FRESH, events).dropped
  {
    FreshHolds();
    FreshIsTracked();
    RunTracks(FRESH, events);
    var m := After(FRESH, events);
    if IsCurrent(m, id) { assert m.sockets[m.listening[id].account].id !in m.dropped; }
  }

  ghost predicate AllCurrent(m: Manager) {
    forall id :: id in m.live ==> IsCurrent(m, id)
  }

  /** At every moment of the run. */
  ghost predicate AlwaysCurrent(m: Manager, events: seq<Event>)
    requires IsRun(m, events)
    decreases |events|
  {
    AllCurrent(m) && (events == [] || AlwaysCurrent(Next(m, events[0]), events[1..]))
  }

  /** No logout ends while the account's entry is a live socket other than the one logged out. */
  predicate NoneIsSetAdrift(m: Manager, events: seq<Event>)
    requires IsRun(m, events)
    decreases |events|
  {
    events == [] || (!SetsAdrift(m, events[0]) && NoneIsSetAdrift(Next(m, events[0]), events[1..]))
  }

  /** What is live after a step. */
  function LiveAfter(m: Manager, e: Event): set<Id>
    requires Enabled(m, e)
  {
    match e
    case ConnectIsOver(a, ok, _) =>
      if ok && !(m.closed || (a in m.ended && m.ended[a] == Closed)) then m.live + {m.nextId} else m.live
    case Closes(id, _, _, _) => m.live - {id}
    case DisconnectEnds(_, id) => m.live - {id}
    case CloseConnection(a) => if a in m.sockets then m.live - {m.sockets[a].id} else m.live
    case ClearStarts(a) => if a in m.sockets then m.live - {m.sockets[a].id} else m.live
    case ClosesAll => m.live - (set a | a in m.sockets :: m.sockets[a].id)
    case _ => m.live
  }

  predicate SameLive(m: Manager, t: Manager) {
    t.live == m.live && t.dropped == m.dropped
  }

  lemma ConnectIsQuiet(m: Manager, a: Account, waiter: Waiter, retries: bool)
    ensures SameLive(m, StartConnect(m, a, waiter, retries))
  {
    hide WithoutTimer;
    TimersAreApart(m, a);
  }

  lemma ReconnectIsQuiet(m: Manager, a: Account, retries: bool)
    ensures SameLive(m, StartReconnect(m, a, retries))
  {
    hide StartConnect;
    ConnectIsQuiet(m.(sockets := m.sockets - {a}), a, Loop(retries), retries);
  }

  lemma ConnectEndsLives(m: Manager, a: Account, ok: bool, random: real)
    requires a in m.connecting && 0.0 <= random < 1.0
    ensures ConnectEnds(m, a, ok, random).dropped == m.dropped
    ensures ConnectEnds(m, a, ok, random).live == LiveAfter(m, ConnectIsOver(a, ok, random))
  {
    hide ConnectEnds, Schedule;
    var (waiter, retries) := m.connecting[a];
    ConnectEndsIs(m, a, ok, random);
    if waiter.Loop? { ScheduleIsApart(m.(connecting := m.connecting - {a}), a, waiter.retries, None, random); }
  }

  lemma BackOffIsQuiet(m: Manager, a: Account, retries: bool, code: Option<int>, now: int, random: real)
    requires a in m.sockets && 0.0 <= random < 1.0
    ensures SameLive(m, BackOff(m, a, retries, code, now, random))
  {
    hide Schedule, Dead;
    DeadIsApart(m, a, now);
    ScheduleIsApart(Dead(m, a, now), a, retries, code, random);
  }

  lemma EndingIsQuiet(m: Manager, a: Account, code: Option<int>)
    ensures SameLive(m, EndForGood(m, a, code))
  {
    hide CancelReconnect;
    CancelIsApart(m.(ended := if IsLost(code) && a !in m.ended then m.ended[a := SessionLost] else m.ended,
                     sockets := m.sockets - {a}), a);
  }

  lemma ClosingIsQuiet(m: Manager, id: Id, code: Option<int>, now: int, random: real)
    requires id in m.listening && 0.0 <= random < 1.0
    ensures SameLive(m, SocketCloses(m, id, code, now, random))
  {
    hide BackOff, EndForGood;
    if IsCurrent(m, id) {
      BackOffIsQuiet(m, m.listening[id].account, m.listening[id].retries, code, now, random);
      EndingIsQuiet(m, m.listening[id].account, code);
    }
  }

  /** As `LiveAfter` says; and only what it sets adrift is dropped. */
  predicate LivesAsSaid(m: Manager, e: Event)
    requires Enabled(m, e)
  {
    Next(m, e).live == LiveAfter(m, e) &&
    Next(m, e).dropped == if SetsAdrift(m, e) then m.dropped + {m.sockets[e.a].id} else m.dropped
  }

  lemma ConnectsLive(m: Manager, e: Event)
    requires Enabled(m, e) && (e.Connect? || e.TimerFires? || e.EnsureConnected?)
    ensures LivesAsSaid(m, e)
  {
    hide StartConnect, StartReconnect;
    match e
    case Connect(a, retries) => ConnectIsQuiet(m, a, Caller, retries);
    case TimerFires(a, id, retries) => ReconnectIsQuiet(m.(timers := m.timers - {a}, running := m.running - {(a, id)}), a, retries);
    case EnsureConnected(a, retries) => ReconnectIsQuiet(m, a, retries);
  }

  lemma ComingAndGoingLive(m: Manager, e: Event)
    requires Enabled(m, e) && (e.ConnectIsOver? || e.Closes?)
    ensures LivesAsSaid(m, e)
  {
    hide ConnectEnds, SocketCloses;
    match e
    case ConnectIsOver(a, ok, random) => ConnectEndsLives(m, a, ok, random);
    case Closes(id, code, now, random) => ClosingIsQuiet(m.(live := m.live - {id}), id, code, now, random);
  }

  lemma CallersLive(m: Manager, e: Event)
    requires e.DisconnectStarts? || e.CloseConnection? || e.ClearStarts?
    ensures LivesAsSaid(m, e)
  {
    hide CancelReconnect;
    match e
    case DisconnectStarts(a) => CancelIsApart(Disconnecting(m, a), a);
    case CloseConnection(a) => CancelIsApart(m.(ended := m.ended[a := Closed]), a);
    case ClearStarts(a) => CancelIsApart(m.(clearing := m.clearing + {a}), a);
  }

  lemma ClosingAllLives(m: Manager)
    ensures LivesAsSaid(m, ClosesAll)
  {
  }

  lemma OthersLive(m: Manager, e: Event)
    requires Enabled(m, e) && (e.Opens? || e.Registers? || e.DisconnectEnds? || e.ClearEnds? || e.ForgetAccount?)
    ensures LivesAsSaid(m, e)
  {
  }

  /** What is live after a step, and what it drops. */
  lemma NextLives(m: Manager, e: Event)
    requires Enabled(m, e)
    ensures LivesAsSaid(m, e)
  {
    hide LivesAsSaid, Enabled;
    if e.Connect? || e.TimerFires? || e.EnsureConnected? {
      ConnectsLive(m, e);
    } else if e.ConnectIsOver? || e.Closes? {
      ComingAndGoingLive(m, e);
    } else if e.DisconnectStarts? || e.CloseConnection? || e.ClearStarts? {
      CallersLive(m, e);
    } else if e.ClosesAll? {
      ClosingAllLives(m);
    } else {
      OthersLive(m, e);
    }
  }

  /** From a state in which every live socket is current, a step keeps it so unless it sets one adrift. */
  lemma StepSetsAdrift(m: Manager, e: Event)
    requires Inv(m) && Tracked(m) && Enabled(m, e) && AllCurrent(m)
    ensures AllCurrent(Next(m, e)) <==> !SetsAdrift(m, e)
  {
    hide Inv, LogoutsMatch, TimersWait, DroppedAreOld, Next;
    NextTracks(m, e);
    NextLives(m, e);
    var t := Next(m, e);
    if SetsAdrift(m, e) {
      StaysLive(m, e);
      assert !IsCurrent(t, m.sockets[e.a].id);
    } else {
      NothingNewIsOld(m, e);
    }
  }

  lemma StaysLive(m: Manager, e: Event)
    requires SetsAdrift(m, e) && Enabled(m, e) && EntriesMatch(m)
    ensures m.sockets[e.a].id in Next(m, e).live && e.a !in Next(m, e).sockets
    ensures m.sockets[e.a].id in Next(m, e).listening && Next(m, e).listening[m.sockets[e.a].id].account == e.a
  {
  }

  /** What was dropped before is not live now. */
  lemma NothingNewIsOld(m: Manager, e: Event)
    requires Inv(m) && Tracked(m) && Enabled(m, e) && AllCurrent(m)
    ensures forall id :: id in Next(m, e).live ==> id !in m.dropped
  {
    hide Inv, LogoutsMatch, TimersWait, Next;
    NextLives(m, e);
    forall id | id in m.live ensures id !in m.dropped {
      assert m.sockets[m.listening[id].account].id !in m.dropped;
    }
  }

  /**
   * Every live socket is its account's current one at every moment of a run, if and only if in that run no logout ended
   * while the account's entry was a live socket other than the one logged out.
   */
  lemma LiveSocketsAreCurrent(events: seq<Event>)
    requires IsRun(FRESH, events)
    ensures AlwaysCurrent(FRESH, events) <==> NoneIsSetAdrift(FRESH, events)
  {
    hide Inv, Tracked;
    FreshHolds();
    FreshIsTracked();
    CurrentUntilSetAdrift(FRESH, events);
  }

  lemma {:induction false} CurrentUntilSetAdrift(m: Manager, events: seq<Event>)
    requires Inv(m) && Tracked(m) && AllCurrent(m) && IsRun(m, events)
    ensures AlwaysCurrent(m, events) <==> NoneIsSetAdrift(m, events)
    decreases |events|
  {
    hide Inv, Tracked, AllCurrent, SetsAdrift, Next, Enabled;
    if events != [] {
      NextKeeps(m, events[0]);
      NextTracks(m, events[0]);
      StepSetsAdrift(m, events[0]);
      if !SetsAdrift(m, events[0]) {
        CurrentUntilSetAdrift(Next(m, events[0]), events[1..]);
      } else {
        NotAlways(Next(m, events[0]), events[1..]);
      }
    }
  }

  lemma NotAlways(m: Manager, events: seq<Event>)
    requires IsRun(m, events) && !AllCurrent(m)
    ensures !AlwaysCurrent(m, events)
  {
  }

  /** Once adrift, nothing of the manager closes it: only WhatsApp does, or another logout of it that was under way. */
  lemma AdriftStays(m: Manager, e: Event, id: Id)
    requires Inv(m) && Tracked(m) && Enabled(m, e) && Adrift(m, id)
    requires !(e.Closes? && e.id == id) && !(e.DisconnectEnds? && e.id == id)
    ensures Adrift(Next(m, e), id)
  {
    hide Inv, LogoutsMatch, TimersWait, DroppedAreOld, Next, SetsAdrift;
    NextTracks(m, e);
    NextLives(m, e);
    assert forall a :: a in m.sockets ==> m.sockets[a].id != id;
  }

  // ── It happens ───────────────────────────────────────────────────

  lemma Prepend(m: Manager, e: Event, rest: seq<Event>)
    requires Enabled(m, e) && IsRun(Next(m, e), rest)
    ensures IsRun(m, [e] + rest) && After(m, [e] + rest) == After(Next(m, e), rest)
  {
    assert ([e] + rest)[1..] == rest;
  }

  lemma Connects(m: Manager, a: Account)
    requires !m.closed && a !in m.clearing && a !in m.sockets && a !in m.connecting && a !in m.timers
    ensures Next(m, Connect(a, true)) == m.(ended := m.ended - {a}, connecting := m.connecting[a := (Caller, true)])
  {
  }

  lemma Comes(m: Manager, a: Account)
    requires a in m.connecting && m.connecting[a] == (Caller, true) && !m.closed && a !in m.ended
    ensures Next(m, ConnectIsOver(a, true, 0.0)) == SocketMade(m.(connecting := m.connecting - {a}), a, true)
  {
    hide Schedule, SocketMade;
  }

  /** A disconnect starts its logout... */
  lemma LogsOut(m: Manager, a: Account)
    requires a in m.sockets && a !in m.timers
    ensures var t := Next(m, DisconnectStarts(a));
      && t.sockets == m.sockets && t.listening == m.listening && t.connecting == m.connecting && t.live == m.live
      && t.logouts == m.logouts + multiset{(a, m.sockets[a].id)} && a !in t.timers && a in t.ended
      && t.nextId == m.nextId && t.closed == m.closed && t.clearing == m.clearing
  {
    hide ForgetStreak;
    StreaksAreApart(Disconnecting(m, a), a);
    StreaksHaveNoTimers(Disconnecting(m, a), a);
  }

  /** ...and the close that comes of it removes the entry. */
  lemma IsLoggedOut(m: Manager, a: Account, id: Id)
    requires IsCurrent(m, id) && m.listening[id].account == a && a !in m.timers
    ensures var t := Next(m, Closes(id, Some(LOGGED_OUT), 0, 0.0));
      && t.sockets == m.sockets - {a} && t.listening == m.listening && t.connecting == m.connecting && t.live == m.live - {id}
      && t.logouts == m.logouts && a !in t.timers && t.nextId == m.nextId && t.closed == m.closed && t.clearing == m.clearing
  {
    hide ForgetStreak;
    var t := m.(live := m.live - {id}, ended := if a !in m.ended then m.ended[a := SessionLost] else m.ended,
                sockets := m.sockets - {a});
    StreaksAreApart(t, a);
    StreaksHaveNoTimers(t, a);
  }

  /** The first half: a socket, a disconnect that waits for its logout, and the close that comes of it. */
  lemma ClosedDuringLogout(a: Account) returns (s: Manager)
    ensures IsRun(FRESH, BeforeReconnecting(a)) && After(FRESH, BeforeReconnecting(a)) == s
    ensures s.sockets == map[] && s.listening == map[0 := Socket(a, true)] && s.connecting == map[]
    ensures a !in s.timers && s.nextId == 1 && !s.closed && s.clearing == {} && s.logouts == multiset{(a, 0)} && s.live == {}
  {
    hide Next;
    var e0, e1, e2, e3 := Connect(a, true), ConnectIsOver(a, true, 0.0), DisconnectStarts(a), Closes(0, Some(LOGGED_OUT), 0, 0.0);
    Connects(FRESH, a);
    var s1 := Next(FRESH, e0);
    Comes(s1, a);
    var s2 := Next(s1, e1);
    LogsOut(s2, a);
    var s3 := Next(s2, e2);
    IsLoggedOut(s3, a, 0);
    s := Next(s3, e3);
    Prepend(s3, e3, []);
    Prepend(s2, e2, [e3] + []);
    Prepend(s1, e1, [e2] + ([e3] + []));
    Prepend(FRESH, e0, [e1] + ([e2] + ([e3] + [])));
    assert BeforeReconnecting(a) == [e0] + ([e1] + ([e2] + ([e3] + [])));
  }

  function BeforeReconnecting(a: Account): seq<Event> {
    [Connect(a, true), ConnectIsOver(a, true, 0.0), DisconnectStarts(a), Closes(0, Some(LOGGED_OUT), 0, 0.0)]
  }

  /** Someone connects before the logout is over, and then it is. */
  lemma ReconnectedIsAdrift(s: Manager, a: Account)
    requires s.sockets == map[] && s.listening == map[0 := Socket(a, true)] && s.connecting == map[]
    requires a !in s.timers && s.nextId == 1 && !s.closed && s.clearing == {} && s.logouts == multiset{(a, 0)} && s.live == {}
    ensures IsRun(s, WhileLoggingOut(a)) && Adrift(After(s, WhileLoggingOut(a)), 1)
  {
    hide Next, SetsAdrift;
    var e0, e1, e2 := Connect(a, true), ConnectIsOver(a, true, 0.0), DisconnectEnds(a, 0);
    Connects(s, a);
    var s1 := Next(s, e0);
    Comes(s1, a);
    var s2 := Next(s1, e1);
    EndsTheOther(s2, a);
    Prepend(s2, e2, []);
    Prepend(s1, e1, [e2] + []);
    Prepend(s, e0, [e1] + ([e2] + []));
    assert WhileLoggingOut(a) == [e0] + ([e1] + ([e2] + []));
  }

  lemma EndsTheOther(m: Manager, a: Account)
    requires 1 in m.live && 1 in m.listening && m.listening[1] == Socket(a, true) && (a, 0) in m.logouts
    ensures Adrift(Next(m, DisconnectEnds(a, 0)), 1)
  {
    hide SetsAdrift;
  }

  function WhileLoggingOut(a: Account): seq<Event> {
    [Connect(a, true), ConnectIsOver(a, true, 0.0), DisconnectEnds(a, 0)]
  }

  lemma {:induction false} InTurn(m: Manager, first: seq<Event>, second: seq<Event>)
    requires IsRun(m, first) && IsRun(After(m, first), second)
    ensures IsRun(m, first + second) && After(m, first + second) == After(After(m, first), second)
    decreases |first|
  {
    hide Next, Enabled;
    if first == [] {
      assert first + second == second;
    } else {
      InTurn(Next(m, first[0]), first[1..], second);
      assert (first + second)[1..] == first[1..] + second;
    }
  }

  /** It happens: WhatsApp closes the socket during the logout, and someone connects before the logout is over. */
  lemma DisconnectMaySetAdrift(a: Account)
    ensures var events := BeforeReconnecting(a) + WhileLoggingOut(a);
      IsRun(FRESH, events) && Adrift(After(FRESH, events), 1)
  {
    hide Next, Adrift, Enabled, IsRun, After, BeforeReconnecting, WhileLoggingOut;
    var s := ClosedDuringLogout(a);
    ReconnectedIsAdrift(s, a);
    InTurn(FRESH, BeforeReconnecting(a), WhileLoggingOut(a));
  }
}

/**
 A connection that drops comes back: whatever happens, an account whose socket died has a timer running, unless a logout
 of that socket is under way; the timer connects it again, and a failed attempt leaves another timer.
 */
module Reconnects {
  import opened Options
  import opened SocketManager
  import opened LiveSockets

  // ── Someone sees to every dead entry ─────────────────────────────

  predicate IsDead(m: Manager, a: Account) {
    a in m.sockets && m.sockets[a].id !in m.live
  }

  predicate IsLeaving(m: Manager, a: Account) {
    a in m.sockets && (a, m.sockets[a].id) in m.logouts
  }

  /** The entry of a dead socket waits for its timer or for its logout, and that of an ended account for its logout. */
  predicate IsSeenTo(m: Manager, a: Account) {
    && (IsDead(m, a) ==> a in m.timers || IsLeaving(m, a))
    && (a in m.sockets && a in m.ended ==> IsLeaving(m, a))
    && (a in m.clearing ==> !IsDead(m, a))
  }

  /** The account's entry and who sees to it are as they were. */
  predicate SameFor(m: Manager, t: Manager, a: Account) {
    && (a in t.sockets <==> a in m.sockets) && (a in m.sockets ==> t.sockets[a].id == m.sockets[a].id)
    && (a in m.sockets ==> (m.sockets[a].id in t.live <==> m.sockets[a].id in m.live))
    && (a in t.timers <==> a in m.timers) && (a in t.ended ==> a in m.ended) && (a in t.clearing ==> a in m.clearing)
    && (IsLeaving(m, a) ==> IsLeaving(t, a))
  }

  lemma SameIsSeenTo(m: Manager, t: Manager, a: Account)
    requires IsSeenTo(m, a) && SameFor(m, t, a)
    ensures IsSeenTo(t, a)
  {
  }

  lemma NoEntryIsSeenTo(m: Manager, a: Account)
    requires a !in m.sockets
    ensures IsSeenTo(m, a)
  {
  }

  lemma CancelForOthers(m: Manager, a: Account, b: Account)
    requires b != a
    ensures SameFor(m, CancelReconnect(m, b), a)
  {
    hide CancelReconnect;
    CancelIsApart(m, b);
    CancelLeavesTimers(m, b);
  }

  lemma CancelLeavesTimers(m: Manager, b: Account)
    ensures CancelReconnect(m, b).timers == m.timers - {b}
  {
  }

  lemma ScheduleFor(m: Manager, b: Account, retries: bool, code: Option<int>, random: real, a: Account)
    requires 0.0 <= random < 1.0
    ensures b != a ==> SameFor(m, Schedule(m, b, retries, code, random), a)
    ensures b in Schedule(m, b, retries, code, random).timers
  {
    hide Schedule;
    ScheduleSets(m, b, retries, code, random);
    ScheduleIsApart(m, b, retries, code, random);
  }

  lemma StartConnectFor(m: Manager, b: Account, waiter: Waiter, retries: bool, a: Account)
    requires IsSeenTo(m, a)
    ensures IsSeenTo(StartConnect(m, b, waiter, retries), a)
  {
    hide WithoutTimer, IsSeenTo;
    if m.closed || b in m.clearing || b in m.sockets {
    } else if b in m.connecting {
      SameIsSeenTo(m, m.(ended := m.ended - {b}), a);
    } else {
      var u := WithoutTimer(m, b);
      var t := StartConnect(m, b, waiter, retries);
      TimersAreApart(m, b);
      if b == a {
        NoEntryIsSeenTo(t, a);
      } else {
        TimerLeft(m, b);
        SameIsSeenTo(m, t, a);
      }
    }
  }

  lemma TimerLeft(m: Manager, b: Account)
    ensures WithoutTimer(m, b).timers == m.timers - {b}
  {
  }

  lemma StartReconnectFor(m: Manager, b: Account, retries: bool, a: Account)
    requires IsSeenTo(m, a) || (b == a && (a in m.clearing || a in m.ended ==> IsSeenTo(m, a)))
    ensures IsSeenTo(StartReconnect(m, b, retries), a)
  {
    hide StartConnect;
    if !(b in m.clearing || b in m.ended) {
      var t := m.(sockets := m.sockets - {b});
      StartConnectFor(t, b, Loop(retries), retries, a);
    }
  }

  lemma ConnectEndsFor(m: Manager, b: Account, ok: bool, random: real, a: Account)
    requires Inv(m) && Tracked(m) && IsSeenTo(m, a) && b in m.connecting && 0.0 <= random < 1.0
    ensures IsSeenTo(ConnectEnds(m, b, ok, random), a)
  {
    hide ConnectEnds, Schedule, SocketMade, StreaksAreBounded, TimersMatch;
    var (waiter, retries) := m.connecting[b];
    var t := m.(connecting := m.connecting - {b});
    ConnectEndsIs(m, b, ok, random);
    if !ok && waiter.Loop? {
      ScheduleFor(t, b, waiter.retries, None, random, a);
      ScheduleIsApart(t, b, waiter.retries, None, random);
    }
    if ok && !(m.closed || (b in m.ended && m.ended[b] == Closed)) { MadeFor(t, b, retries, a); }
  }

  lemma MadeFor(m: Manager, b: Account, retries: bool, a: Account)
    requires IsSeenTo(m, a) && (b == a ==> a !in m.ended) && (a in m.sockets ==> m.sockets[a].id != m.nextId)
    ensures IsSeenTo(SocketMade(m, b, retries), a)
  {
  }

  /** The entry the account has is not the one that closes. */
  lemma ClosesForOthers(m: Manager, id: Id, code: Option<int>, now: int, random: real, a: Account)
    requires id in m.listening && 0.0 <= random < 1.0 && (IsCurrent(m, id) ==> m.listening[id].account != a)
    ensures SameFor(m, SocketCloses(m, id, code, now, random), a)
  {
    hide Schedule, CancelReconnect, ForgetStreak;
    if IsCurrent(m, id) {
      var b := m.listening[id].account;
      DeadForOthers(m, b, now, a);
      ScheduleFor(Dead(m, b, now), b, m.listening[id].retries, code, random, a);
      EndForOthers(m, b, code, a);
    }
  }

  lemma DeadForOthers(m: Manager, b: Account, now: int, a: Account)
    requires b in m.sockets && b != a
    ensures SameFor(m, Dead(m, b, now), a)
  {
  }

  lemma EndForOthers(m: Manager, b: Account, code: Option<int>, a: Account)
    requires b != a
    ensures SameFor(m, EndForGood(m, b, code), a)
  {
    hide CancelReconnect;
    CancelForOthers(m.(ended := if IsLost(code) && b !in m.ended then m.ended[b := SessionLost] else m.ended, sockets := m.sockets - {b}), a, b);
  }

  lemma ClosesForItself(m: Manager, id: Id, code: Option<int>, now: int, random: real, a: Account)
    requires IsSeenTo(m, a) && id in m.listening && 0.0 <= random < 1.0 && IsCurrent(m, id) && m.listening[id].account == a
    ensures IsSeenTo(SocketCloses(m.(live := m.live - {id}), id, code, now, random), a)
  {
    hide Schedule, CancelReconnect, Dead;
    var t, retries := m.(live := m.live - {id}), m.listening[id].retries;
    if !IsLost(code) && retries && a !in m.clearing {
      DeadIsApart(t, a, now);
      ScheduleIsApart(Dead(t, a, now), a, retries, code, random);
      ScheduleFor(Dead(t, a, now), a, retries, code, random, a);
    } else {
      EndIsGone(t, a, code);
      NoEntryIsSeenTo(EndForGood(t, a, code), a);
    }
  }

  lemma EndIsGone(m: Manager, a: Account, code: Option<int>)
    ensures a !in EndForGood(m, a, code).sockets
  {
    hide CancelReconnect;
    var t := m.(ended := if IsLost(code) && a !in m.ended then m.ended[a := SessionLost] else m.ended, sockets := m.sockets - {a});
    CancelIsApart(t, a);
    assert EndForGood(m, a, code).sockets == t.sockets;
  }

  lemma ClosingSeesTo(m: Manager, e: Event, a: Account)
    requires Tracked(m) && IsSeenTo(m, a) && Enabled(m, e) && e.Closes?
    ensures IsSeenTo(Next(m, e), a)
  {
    hide SocketCloses;
    if IsCurrent(m, e.id) && m.listening[e.id].account == a {
      ClosesForItself(m, e.id, e.code, e.now, e.random, a);
    } else {
      var t := m.(live := m.live - {e.id});
      assert SameFor(m, t, a);
      SameIsSeenTo(m, t, a);
      ClosesForOthers(t, e.id, e.code, e.now, e.random, a);
      SameIsSeenTo(t, Next(m, e), a);
    }
  }

  lemma DropForOthers(m: Manager, b: Account, a: Account)
    requires b != a && (a in m.sockets && b in m.sockets ==> m.sockets[b].id != m.sockets[a].id)
    ensures SameFor(m, DropSocket(m, b), a)
  {
  }

  lemma CallersSeeTo(m: Manager, e: Event, a: Account)
    requires Tracked(m) && IsSeenTo(m, a) && IsOfACaller(e)
    ensures IsSeenTo(Next(m, e), a)
  {
    hide CancelReconnect;
    match e
    case DisconnectStarts(b) => DisconnectingSeesTo(m, b, a);
    case CloseConnection(b) =>
      var t := m.(ended := m.ended[b := Closed]);
      CancelIsApart(t, b);
      if b != a {
        CancelForOthers(t, a, b);
        DropForOthers(CancelReconnect(t, b), b, a);
      }
    case ClearStarts(b) =>
      var t := m.(clearing := m.clearing + {b});
      CancelIsApart(t, b);
      if b != a {
        CancelForOthers(t, a, b);
        DropForOthers(CancelReconnect(t, b), b, a);
      }
  }

  lemma DisconnectingSeesTo(m: Manager, b: Account, a: Account)
    requires IsSeenTo(m, a)
    ensures IsSeenTo(StartDisconnect(m, b), a)
  {
    hide CancelReconnect;
    var t := Disconnecting(m, b);
    CancelIsApart(t, b);
    CancelLeavesTimers(t, b);
  }

  lemma EndDisconnectSeesTo(m: Manager, b: Account, id: Id, a: Account)
    requires Tracked(m) && IsSeenTo(m, a) && (b, id) in m.logouts
    ensures IsSeenTo(EndDisconnect(m, b, id), a)
  {
    hide SetsAdrift;
    if a in m.sockets && b != a { assert m.sockets[a].id != id; }
  }

  lemma NextSeesTo(m: Manager, e: Event, a: Account)
    requires Inv(m) && Tracked(m) && Enabled(m, e) && IsSeenTo(m, a)
    ensures IsSeenTo(Next(m, e), a)
  {
    hide Inv, Tracked, StartConnect, StartReconnect, ConnectEnds, SocketCloses, EndDisconnect, CancelReconnect, DropSocket;
    match e
    case Connect(b, retries) => StartConnectFor(m, b, Caller, retries, a);
    case ConnectIsOver(b, ok, random) => ConnectEndsFor(m, b, ok, random, a);
    case Closes(_, _, _, _) => ClosingSeesTo(m, e, a);
    case TimerFires(b, id, retries) =>
      StartReconnectFor(m.(timers := m.timers - {b}, running := m.running - {(b, id)}), b, retries, a);
    case EnsureConnected(b, retries) => StartReconnectFor(m, b, retries, a);
    case DisconnectEnds(b, id) => EndDisconnectSeesTo(m, b, id, a);
    case DisconnectStarts(_) => CallersSeeTo(m, e, a);
    case CloseConnection(_) => CallersSeeTo(m, e, a);
    case ClearStarts(_) => CallersSeeTo(m, e, a);
    case _ => QuietSeesTo(m, e, a);
  }

  lemma QuietSeesTo(m: Manager, e: Event, a: Account)
    requires Enabled(m, e) && IsSeenTo(m, a)
    requires e.Opens? || e.Registers? || e.ClearEnds? || e.ForgetAccount? || e.ClosesAll?
    ensures IsSeenTo(Next(m, e), a)
  {
    hide SocketOpens, IsSeenTo, CloseAll, SameFor;
    if e.Opens? {
      OpeningIsApart(m, e.id, e.now, a);
      SameIsSeenTo(m, Next(m, e), a);
    } else if e.ClosesAll? {
      AllAreGone(m, a);
      NoEntryIsSeenTo(Next(m, e), a);
    } else {
      FlagsAreApart(m, e.a, a);
      SameIsSeenTo(m, Next(m, e), a);
    }
  }

  lemma FlagsAreApart(m: Manager, b: Account, a: Account)
    ensures SameFor(m, m.(wired := m.wired + {b}), a)
    ensures SameFor(m, m.(clearing := m.clearing - {b}), a) && SameFor(m, m.(ended := m.ended - {b}), a)
  {
  }

  lemma OpeningIsApart(m: Manager, id: Id, now: int, a: Account)
    requires id in m.listening
    ensures SameFor(m, SocketOpens(m, id, now), a)
  {
  }

  lemma AllAreGone(m: Manager, a: Account)
    ensures a !in CloseAll(m).sockets
  {
  }

  lemma {:induction false} RunSeesTo(m: Manager, events: seq<Event>, a: Account)
    requires Inv(m) && Tracked(m) && IsRun(m, events) && IsSeenTo(m, a)
    ensures IsSeenTo(After(m, events), a)
    decreases |events|
  {
    hide Inv, Tracked, Next, Enabled, IsSeenTo;
    if events != [] {
      NextKeeps(m, events[0]);
      NextTracks(m, events[0]);
      NextSeesTo(m, events[0], a);
      RunSeesTo(Next(m, events[0]), events[1..], a);
    }
  }

  /**
   * In every run, the account of a dead socket has a timer running; the only others are those a logout of that socket will
   * remove, as it does of every account that was ended and still has an entry.
   */
  lemma DeadSocketsAreReplaced(events: seq<Event>, a: Account)
    requires IsRun(FRESH, events) && IsDead(After(FRESH, events), a)
    ensures var m := After(FRESH, events);
      && (!IsLeaving(m, a) ==> a in m.timers && (a, m.timers[a].id) in m.running)
      && (a in m.ended ==> IsLeaving(m, a))
  {
    FreshHolds();
    FreshIsTracked();
    RunKeeps(FRESH, events);
    RunSeesTo(FRESH, events, a);
  }

  // ── And it comes back ────────────────────────────────────────────

  predicate HasTimer(m: Manager, a: Account) {
    a in m.timers && (a, m.timers[a].id) in m.running
  }

  /** The connection was up for long enough to count. */
  predicate Lasted(m: Manager, a: Account, now: int) {
    a in m.sockets && m.sockets[a].openedAt.Some? && now - m.sockets[a].openedAt.value >= STABLE_CONNECTION_MS
  }

  /** One more wait, no longer than it may be. */
  predicate WaitsOnce(before: seq<nat>, after: seq<nat>, code: Option<int>) {
    |after| == |before| + 1 && after[..|before|] == before &&
    if code == Some(CONNECTION_REPLACED) then after[|before|] == CONNECTION_REPLACED_MIN_DELAY_MS
    else after[|before|] <= Ceiling(|before|)
  }

  lemma SchedulingWaits(m: Manager, a: Account, retries: bool, code: Option<int>, random: real)
    requires Inv(m) && a !in m.timers && 0.0 <= random < 1.0
    ensures var t := Schedule(m, a, retries, code, random);
      HasTimer(t, a) && WaitsOnce(StreakOf(m.streaks, a), StreakOf(t.streaks, a), code)
  {
    hide Delay, Ceiling;
    DelayIsBounded(AttemptsOf(m.attempts, a), random, code);
    assert |StreakOf(m.streaks, a)| == AttemptsOf(m.attempts, a);
  }

  /**
   * A live current socket that closes, not for a lost session, with retries and no clearing, leaves a timer of its account
   * running, one wait further in the streak, or at the first of a new one if the connection lasted.
   */
  lemma DroppingSchedules(m: Manager, id: Id, code: Option<int>, now: int, random: real)
    requires Inv(m) && Tracked(m) && Enabled(m, Closes(id, code, now, random)) && IsCurrent(m, id) && id in m.live
    requires !IsLost(code) && m.listening[id].retries && m.listening[id].account !in m.clearing
    ensures var a, t := m.listening[id].account, Next(m, Closes(id, code, now, random));
      && HasTimer(t, a) && (a in t.ended <==> a in m.ended) && t.clearing == m.clearing && t.closed == m.closed
      && WaitsOnce(if Lasted(m, a, now) then [] else StreakOf(m.streaks, a), StreakOf(t.streaks, a), code)
  {
    hide Inv, Schedule, IdsAreFresh, ConnectsAlone;
    var a, m0 := m.listening[id].account, m.(live := m.live - {id});
    FieldsAside(m, Closes(id, code, now, random));
    assert a !in m.timers;
    DeadKeeps(m0, a, now);
    var d := Dead(m0, a, now);
    SchedulingWaits(d, a, m.listening[id].retries, code, random);
    ScheduleIsApart(d, a, m.listening[id].retries, code, random);
  }

  /** Its timer goes off, and it is being connected, by someone who tries again. */
  predicate IsRetried(m: Manager, a: Account) {
    a in m.connecting && m.connecting[a].0.Loop? && a !in m.sockets
  }

  predicate IsWanted(m: Manager, a: Account) {
    a !in m.ended && a !in m.clearing && !m.closed
  }

  lemma TimerConnects(m: Manager, a: Account, retries: bool)
    requires Inv(m) && Tracked(m) && HasTimer(m, a) && IsWanted(m, a)
    ensures var e := TimerFires(a, m.timers[a].id, retries);
      && Enabled(m, e) && IsRetried(Next(m, e), a) && IsWanted(Next(m, e), a) && Next(m, e).streaks == m.streaks
      && Next(m, e).everOpened == m.everOpened
      && Next(m, e).connecting[a] == (Loop(retries), retries)
  {
  }

  /** A caller that asks has the account connected, also after it was ended; a health check, only if nothing sees to it. */
  lemma AskingConnects(m: Manager, a: Account, retries: bool)
    requires Inv(m) && !m.closed && a !in m.clearing && a !in m.sockets
    ensures var t := Next(m, Connect(a, retries)); a in t.connecting && a !in t.ended && a !in t.sockets
  {
  }

  lemma ChecksConnectTheUnseen(m: Manager, a: Account, retries: bool)
    requires Inv(m) && !m.closed && a !in m.clearing && a !in m.sockets
    ensures var t := Next(m, EnsureConnected(a, retries));
      a !in m.connecting && a !in m.timers && a !in m.ended && a in m.wired && retries <==>
      a !in m.connecting && IsRetried(t, a)
  {
  }

  /** Registering an account lets checks connect it, and a disconnect takes that back until it is registered again. */
  lemma RegisteredAreChecked(m: Manager, a: Account)
    requires Inv(m) && IsWanted(m, a) && a !in m.sockets && a !in m.connecting && a !in m.timers
    ensures IsRetried(Next(Next(m, Registers(a)), EnsureConnected(a, true)), a)
  {
  }

  lemma {:induction false} DisconnectedAreNotChecked(m: Manager, events: seq<Event>, a: Account, retries: bool)
    requires IsRun(Next(m, DisconnectStarts(a)), events) && forall i :: 0 <= i < |events| ==> events[i] != Registers(a)
    ensures var t := After(Next(m, DisconnectStarts(a)), events); Next(t, EnsureConnected(a, retries)) == t
  {
    CancelIsApart(Disconnecting(m, a), a);
    StaysUnwired(Next(m, DisconnectStarts(a)), events, a);
  }

  lemma {:induction false} StaysUnwired(m: Manager, events: seq<Event>, a: Account)
    requires IsRun(m, events) && a !in m.wired && forall i :: 0 <= i < |events| ==> events[i] != Registers(a)
    ensures a !in After(m, events).wired
    decreases |events|
  {
    hide Next, Enabled;
    if events != [] {
      assert events[0] != Registers(a);
      assert forall i :: 0 <= i < |events[1..]| ==> events[1..][i] == events[i + 1];
      OnlyRegisteringWires(m, events[0], a);
      StaysUnwired(Next(m, events[0]), events[1..], a);
    }
  }

  lemma ConnectingWires(m: Manager, e: Event)
    requires Enabled(m, e) && (e.Connect? || e.ConnectIsOver? || e.TimerFires? || e.EnsureConnected?)
    ensures Next(m, e).wired == m.wired
  {
    hide WithoutTimer, ConnectEnds, Schedule;
    match e
    case Connect(b, _) => TimersAreApart(m, b);
    case ConnectIsOver(b, ok, random) =>
      ConnectEndsIs(m, b, ok, random);
      if m.connecting[b].0.Loop? { ScheduleIsApart(m.(connecting := m.connecting - {b}), b, m.connecting[b].0.retries, None, random); }
    case TimerFires(b, id, _) => TimersAreApart(m.(timers := m.timers - {b}, running := m.running - {(b, id)}, sockets := m.sockets - {b}), b);
    case EnsureConnected(b, _) => TimersAreApart(m.(sockets := m.sockets - {b}), b);
  }

  lemma ClosingWires(m: Manager, e: Event)
    requires Enabled(m, e) && e.Closes?
    ensures Next(m, e).wired == m.wired
  {
    hide Schedule, CancelReconnect, Dead;
    var t := m.(live := m.live - {e.id});
    if IsCurrent(m, e.id) {
      var b := m.listening[e.id].account;
      DeadIsApart(t, b, e.now);
      ScheduleIsApart(Dead(t, b, e.now), b, m.listening[e.id].retries, e.code, e.random);
      CancelIsApart(t.(ended := if IsLost(e.code) && b !in t.ended then t.ended[b := SessionLost] else t.ended,
                       sockets := t.sockets - {b}), b);
    }
  }

  lemma OnlyRegisteringWires(m: Manager, e: Event, a: Account)
    requires Enabled(m, e) && a !in m.wired && e != Registers(a)
    ensures a !in Next(m, e).wired
  {
    hide CancelReconnect;
    if e.Closes? {
      ClosingWires(m, e);
    } else if e.Connect? || e.ConnectIsOver? || e.TimerFires? || e.EnsureConnected? {
      ConnectingWires(m, e);
    } else {
      match e
      case DisconnectStarts(b) => CancelIsApart(Disconnecting(m, b), b);
      case CloseConnection(b) => CancelIsApart(m.(ended := m.ended[b := Closed]), b);
      case ClearStarts(b) => CancelIsApart(m.(clearing := m.clearing + {b}), b);
      case _ =>
    }
  }

  /** Nothing connects an account while its session is cleared, and after that a caller can. */
  lemma ClearedCanConnect(m: Manager, a: Account, retries: bool)
    requires Inv(m) && !m.closed && a !in m.connecting
    ensures var t := Next(m, ClearStarts(a));
      && a !in t.sockets && a !in t.timers && a !in t.connecting
      && Next(t, Connect(a, retries)) == t && Next(t, EnsureConnected(a, retries)) == t && !t.closed
      && a in Next(Next(t, ClearEnds(a)), Connect(a, retries)).connecting
  {
    hide CancelReconnect, WithoutTimer, StartReconnect;
    var t := m.(clearing := m.clearing + {a});
    CancelIsApart(t, a);
    CancelLeavesTimers(t, a);
    NextKeeps(m, ClearStarts(a));
    hide DropSocket, Inv;
    AskingConnects(Next(Next(m, ClearStarts(a)), ClearEnds(a)), a, retries);
  }

  /** Forgetting an account that is not being connected forgets that it was ended; a connect under way stays given up on. */
  lemma ForgettingForgets(m: Manager, a: Account, random: real)
    requires Inv(m) && a in m.ended && 0.0 <= random < 1.0
    ensures a !in m.connecting ==> a !in Next(m, ForgetAccount(a)).ended
    ensures a in m.connecting ==>
              Opened(Next(Next(m, ForgetAccount(a)), ConnectIsOver(a, true, random)), a) == Opened(m, a)
  {
    assert a in m.connecting ==> m.ended[a] == Closed;
  }

  /** A connection that opened and lasted a minute ends the streak; one that did not is the next of it. */
  lemma LastingEndsTheStreak(m: Manager, id: Id, since: int, code: Option<int>, now: int, random: real)
    requires Inv(m) && Tracked(m) && IsCurrent(m, id) && id in m.live && 0.0 <= random < 1.0
    requires !IsLost(code) && m.listening[id].retries && m.listening[id].account !in m.clearing
    ensures var a, u := m.listening[id].account, Next(m, Opens(id, since));
      var t := Next(u, Closes(id, code, now, random));
      && Enabled(u, Closes(id, code, now, random))
      && |StreakOf(t.streaks, a)| == (if now - since >= STABLE_CONNECTION_MS then 0 else |StreakOf(m.streaks, a)|) + 1
  {
    hide Inv, Tracked, WaitsOnce;
    NextKeeps(m, Opens(id, since));
    NextTracks(m, Opens(id, since));
    var u := Next(m, Opens(id, since));
    OneWait([], StreakOf(Next(u, Closes(id, code, now, random)).streaks, m.listening[id].account), code);
    OneWait(StreakOf(u.streaks, m.listening[id].account), StreakOf(Next(u, Closes(id, code, now, random)).streaks, m.listening[id].account), code);
    hide SocketCloses;
    DroppingSchedules(u, id, code, now, random);
  }

  lemma OneWait(before: seq<nat>, after: seq<nat>, code: Option<int>)
    ensures WaitsOnce(before, after, code) ==> |after| == |before| + 1
  {
  }

  lemma FailingSchedules(m: Manager, a: Account, random: real)
    requires Inv(m) && Tracked(m) && IsRetried(m, a) && IsWanted(m, a) && 0.0 <= random < 1.0
    ensures var t := Next(m, ConnectIsOver(a, false, random));
      HasTimer(t, a) && IsWanted(t, a) && WaitsOnce(StreakOf(m.streaks, a), StreakOf(t.streaks, a), None)
  {
    hide Inv, Schedule, IdsAreFresh, ConnectsAlone, ConnectEnds;
    var t := m.(connecting := m.connecting - {a});
    ConnectEndsIs(m, a, false, random);
    NotConnectingKeeps(m, a);
    SchedulingWaits(t, a, m.connecting[a].0.retries, None, random);
    ScheduleIsApart(t, a, m.connecting[a].0.retries, None, random);
  }

  lemma NotConnectingKeeps(m: Manager, a: Account)
    requires Inv(m)
    ensures Inv(m.(connecting := m.connecting - {a}))
  {
    hide StreaksAreBounded;
  }

  lemma SucceedingOpens(m: Manager, a: Account, random: real)
    requires Inv(m) && Tracked(m) && a in m.connecting && IsWanted(m, a) && 0.0 <= random < 1.0
    ensures var t := Next(m, ConnectIsOver(a, true, random));
      && t.streaks == m.streaks && a in t.sockets && t.sockets[a] == Entry(m.nextId, m.connecting[a].1, None) && t.sockets[a].id in t.live && IsCurrent(t, t.sockets[a].id)
      && t.listening[m.nextId] == Socket(a, m.connecting[a].1)
      && Opened(t, a) == Opened(m, a) + 1
  {
  }

  /** The timer goes off and the connect is over, time and again: each fails but the last. */
  predicate IsTrying(events: seq<Event>, a: Account, randoms: seq<real>)
    decreases |randoms|
  {
    |events| >= 2 && events[0].TimerFires? && events[0].a == a && events[1].ConnectIsOver? && events[1].a == a &&
    if randoms == [] then |events| == 2 && events[1].ok
    else !events[1].ok && events[1].random == randoms[0] && IsTrying(events[2..], a, randoms[1..])
  }

  lemma TryingOnceMore(events: seq<Event>, a: Account, randoms: seq<real>, fires: Event, fails: Event)
    requires randoms != [] && IsTrying(events, a, randoms[1..]) && fires.TimerFires? && fires.a == a
    requires fails == ConnectIsOver(a, false, randoms[0])
    ensures IsTrying([fires, fails] + events, a, randoms)
  {
    assert ([fires, fails] + events)[2..] == events;
  }

  lemma TwoSteps(m: Manager, first: Event, second: Event, events: seq<Event>)
    requires Enabled(m, first) && Enabled(Next(m, first), second) && IsRun(Next(Next(m, first), second), events)
    ensures IsRun(m, [first, second] + events)
    ensures After(m, [first, second] + events) == After(Next(Next(m, first), second), events)
  {
    hide Next, Enabled;
    assert ([first, second] + events)[1..] == [second] + events;
    assert ([second] + events)[1..] == events;
  }

  lemma FailsOnce(m: Manager, a: Account, random: real)
    requires Inv(m) && Tracked(m) && HasTimer(m, a) && IsWanted(m, a) && 0.0 <= random < 1.0
    ensures var fires, fails := TimerFires(a, m.timers[a].id, true), ConnectIsOver(a, false, random);
      && Enabled(m, fires) && Enabled(Next(m, fires), fails)
      && var t := Next(Next(m, fires), fails);
         Inv(t) && Tracked(t) && HasTimer(t, a) && IsWanted(t, a) && WaitsOnce(StreakOf(m.streaks, a), StreakOf(t.streaks, a), None)
  {
    hide Inv, Tracked, Next, WaitsOnce;
    var fires, fails := TimerFires(a, m.timers[a].id, true), ConnectIsOver(a, false, random);
    TimerConnects(m, a, true);
    NextKeeps(m, fires);
    NextTracks(m, fires);
    FailingSchedules(Next(m, fires), a, random);
    NextKeeps(Next(m, fires), fails);
    NextTracks(Next(m, fires), fails);
  }

  lemma SucceedsOnce(m: Manager, a: Account)
    requires Inv(m) && Tracked(m) && HasTimer(m, a) && IsWanted(m, a)
    ensures var fires, opens := TimerFires(a, m.timers[a].id, true), ConnectIsOver(a, true, 0.0);
      && Enabled(m, fires) && Enabled(Next(m, fires), opens)
      && var t := Next(Next(m, fires), opens);
         && a in t.sockets && t.sockets[a].id in t.live && IsCurrent(t, t.sockets[a].id) && t.streaks == m.streaks
         && Opened(t, a) == Opened(m, a) + 1
  {
    hide Inv, Tracked, Next;
    var fires := TimerFires(a, m.timers[a].id, true);
    TimerConnects(m, a, true);
    NextKeeps(m, fires);
    NextTracks(m, fires);
    SucceedingOpens(Next(m, fires), a, 0.0);
  }

  /** However often connecting fails, the account of a timer is tried again, and ends up with a live socket. */
  lemma {:induction false} ComesBack(m: Manager, a: Account, randoms: seq<real>) returns (events: seq<Event>, t: Manager)
    requires Inv(m) && Tracked(m) && HasTimer(m, a) && IsWanted(m, a)
    requires forall i :: 0 <= i < |randoms| ==> 0.0 <= randoms[i] < 1.0
    ensures IsRun(m, events) && After(m, events) == t && IsTrying(events, a, randoms)
    ensures a in t.sockets && t.sockets[a].id in t.live && IsCurrent(t, t.sockets[a].id)
    ensures |StreakOf(t.streaks, a)| == |StreakOf(m.streaks, a)| + |randoms|
    decreases |randoms|
  {
    hide Inv, Tracked, Next, Enabled, IsCurrent, HasTimer, IsWanted, StreakOf;
    assert a in m.timers by { TimerIsThere(m, a); }
    var fires := TimerFires(a, m.timers[a].id, true);
    if randoms == [] {
      var opens := ConnectIsOver(a, true, 0.0);
      SucceedsOnce(m, a);
      TwoSteps(m, fires, opens, []);
      events := [fires, opens] + [];
      t := After(m, events);
    } else {
      var fails := ConnectIsOver(a, false, randoms[0]);
      FailsOnce(m, a, randoms[0]);
      var rest;
      rest, t := ComesBack(Next(Next(m, fires), fails), a, randoms[1..]);
      TryingOnceMore(rest, a, randoms, fires, fails);
      TwoSteps(m, fires, fails, rest);
      events := [fires, fails] + rest;
    }
  }

  lemma TimerIsThere(m: Manager, a: Account)
    requires HasTimer(m, a)
    ensures a in m.timers
  {
  }
}

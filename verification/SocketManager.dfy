/**
 The sockets of the WhatsApp accounts: connecting, backing off after a drop, and staying down once a connection
 was ended on purpose or its session lost. A step is what runs between two `await`s; what a socket, a timer or
 WhatsApp does is one too. `live` are the sockets that have not closed; from `everOpened` on it is history, `dropped`
 being the live sockets whose entry the end of another one's logout removed.
 */
module SocketManager {
  import opened Options

  type Account = string
  type Id = nat

  datatype End = SessionLost | Closed

  const LOGGED_OUT := 401
  const FORBIDDEN := 403
  const CONNECTION_REPLACED := 440
  const CONNECTION_REPLACED_MIN_DELAY_MS: nat := 5 * 60 * 1000
  const STABLE_CONNECTION_MS := 60_000
  const BACKOFF_BASE_MS: nat := 1000
  const BACKOFF_MAX_MS: nat := 300_000

  /** `retries` is the account's `retryOnDisconnect`. */
  datatype Entry = Entry(id: Id, retries: bool, openedAt: Option<int>)

  datatype Socket = Socket(account: Account, retries: bool)

  /** Who waits for a connect in flight: a caller, or the loop that backs off if it fails. */
  datatype Waiter = Caller | Loop(retries: bool)

  datatype Timer = Timer(id: Id, retries: bool)

  datatype Manager = Manager(
    sockets: map<Account, Entry>,
    wired: set<Account>,
    clearing: set<Account>,
    connecting: map<Account, (Waiter, bool)>,
    ended: map<Account, End>,
    timers: map<Account, Timer>,
    attempts: map<Account, nat>,
    closed: bool,
    listening: map<Id, Socket>,
    live: set<Id>,
    logouts: multiset<(Account, Id)>,
    running: set<(Account, Id)>,
    nextId: Id,
    // history
    everOpened: seq<Account>,
    streaks: map<Account, seq<nat>>,
    dropped: set<Id>)

  const FRESH := Manager(map[], {}, {}, map[], map[], map[], map[], false, map[], {}, multiset{}, {}, 0, [], map[], {})

  // ── How long to wait ─────────────────────────────────────────────

  function Power(k: nat): (p: nat)
    ensures p >= 1
  {
    if k == 0 then 1 else 2 * Power(k - 1)
  }

  function Ceiling(attempt: nat): (ms: nat)
    ensures 0 < ms <= BACKOFF_MAX_MS
  {
    if BACKOFF_BASE_MS * Power(attempt) < BACKOFF_MAX_MS then BACKOFF_BASE_MS * Power(attempt) else BACKOFF_MAX_MS
  }

  /** `Math.round` */
  function Round(x: real): int {
    (x + 0.5).Floor
  }

  /** Full jitter: anything up to a ceiling that doubles with each attempt. */
  function Backoff(attempt: nat, random: real): real {
    Part(random, Ceiling(attempt) as real)
  }

  function Part(part: real, whole: real): real {
    part * whole
  }

  lemma PartIsLess(part: real, whole: real)
    requires 0.0 <= part < 1.0 && whole > 0.0
    ensures 0.0 <= Part(part, whole) < whole
  {
    assert whole - part * whole == (1.0 - part) * whole;
    assert (1.0 - part) * whole > 0.0;
  }

  lemma BackoffIsPart(attempt: nat, random: real)
    requires 0.0 <= random < 1.0
    ensures 0.0 <= Backoff(attempt, random) < Ceiling(attempt) as real
  {
    hide Ceiling, Part;
    PartIsLess(random, Ceiling(attempt) as real);
  }

  /** After a 440, five minutes at least. */
  function Delay(attempt: nat, random: real, code: Option<int>): int
    requires 0.0 <= random < 1.0
  {
    var backoff := Backoff(attempt, random);
    Round(if code == Some(CONNECTION_REPLACED) && backoff < CONNECTION_REPLACED_MIN_DELAY_MS as real
          then CONNECTION_REPLACED_MIN_DELAY_MS as real else backoff)
  }

  lemma RoundStays(x: real, ceiling: nat)
    requires 0.0 <= x <= ceiling as real
    ensures 0 <= Round(x) <= ceiling
    ensures x == ceiling as real ==> Round(x) == ceiling
  {
  }

  /** The k-th wait of a streak is at most 2^k seconds and at most five minutes; after a 440 it is just that. */
  lemma DelayIsBounded(attempt: nat, random: real, code: Option<int>)
    requires 0.0 <= random < 1.0
    ensures code != Some(CONNECTION_REPLACED) ==> 0 <= Delay(attempt, random, code) <= Ceiling(attempt)
    ensures code == Some(CONNECTION_REPLACED) ==> Delay(attempt, random, code) == CONNECTION_REPLACED_MIN_DELAY_MS
  {
    hide Round, Backoff, Ceiling;
    BackoffIsPart(attempt, random);
    RoundStays(Backoff(attempt, random), Ceiling(attempt));
    RoundStays(CONNECTION_REPLACED_MIN_DELAY_MS as real, CONNECTION_REPLACED_MIN_DELAY_MS);
  }

  /** Anything below the ceiling, which doubles up to five minutes, may come out. */
  lemma AnyWaitIsPossible(attempt: nat, wait: nat)
    requires wait < BACKOFF_MAX_MS && wait < BACKOFF_BASE_MS * Power(attempt)
    ensures exists random: real :: 0.0 <= random < 1.0 && Delay(attempt, random, None) == wait
  {
    var ceiling := Ceiling(attempt) as real;
    var random := wait as real / ceiling;
    QuotientTimes(wait as real, ceiling);
    assert Backoff(attempt, random) == wait as real;
    RoundStays(wait as real, wait);
    assert Delay(attempt, random, None) == wait;
  }

  lemma QuotientTimes(part: real, whole: real)
    requires 0.0 <= part < whole
    ensures 0.0 <= part / whole < 1.0 && Part(part / whole, whole) == part
  {
    var q := part / whole;
    assert q * whole == part;
    if q < 0.0 { NegativeTimes(q, whole); }
    if q >= 1.0 { AtLeastTimes(q, whole); }
  }

  lemma NegativeTimes(q: real, whole: real)
    requires q < 0.0 && whole > 0.0
    ensures q * whole < 0.0
  {
  }

  lemma AtLeastTimes(q: real, whole: real)
    requires q >= 1.0 && whole > 0.0
    ensures q * whole >= whole
  {
    assert (q - 1.0) * whole >= 0.0;
    assert q * whole == (q - 1.0) * whole + whole;
  }

  // ── Pieces ───────────────────────────────────────────────────────

  function StreakOf(streaks: map<Account, seq<nat>>, a: Account): seq<nat> {
    if a in streaks then streaks[a] else []
  }

  function AttemptsOf(attempts: map<Account, nat>, a: Account): nat {
    if a in attempts then attempts[a] else 0
  }

  function WithoutTimer(m: Manager, a: Account): Manager {
    if a in m.timers then m.(timers := m.timers - {a}, running := m.running - {(a, m.timers[a].id)}) else m
  }

  function ForgetStreak(m: Manager, a: Account): Manager {
    m.(attempts := m.attempts - {a}, streaks := m.streaks[a := []])
  }

  function CancelReconnect(m: Manager, a: Account): Manager {
    ForgetStreak(WithoutTimer(m, a), a)
  }

  function Schedule(m: Manager, a: Account, retries: bool, code: Option<int>, random: real): Manager
    requires 0.0 <= random < 1.0
  {
    if a in m.timers then m
    else
      var attempt := AttemptsOf(m.attempts, a);
      DelayIsBounded(attempt, random, code);
      m.(attempts := m.attempts[a := attempt + 1],
         streaks := m.streaks[a := StreakOf(m.streaks, a) + [Delay(attempt, random, code)]],
         timers := m.timers[a := Timer(m.nextId, retries)],
         running := m.running + {(a, m.nextId)},
         nextId := m.nextId + 1)
  }

  /** `connect` up to its first `await`. */
  function StartConnect(m: Manager, a: Account, waiter: Waiter, retries: bool): Manager {
    if m.closed || a in m.clearing || a in m.sockets then m
    else if a in m.connecting then m.(ended := m.ended - {a})
    else
      var t := WithoutTimer(m, a);
      t.(ended := t.ended - {a}, connecting := t.connecting[a := (waiter, retries)])
  }

  function StartReconnect(m: Manager, a: Account, retries: bool): Manager {
    if a in m.clearing || a in m.ended then m
    else StartConnect(m.(sockets := m.sockets - {a}), a, Loop(retries), retries)
  }

  /** The sockets were made, or making them failed; who started it goes on in the same step. */
  function ConnectEnds(m: Manager, a: Account, ok: bool, random: real): Manager
    requires a in m.connecting && 0.0 <= random < 1.0
  {
    var (waiter, retries) := m.connecting[a];
    var t := m.(connecting := m.connecting - {a});
    if !ok then (if waiter.Loop? then Schedule(t, a, waiter.retries, None, random) else t)
    else if m.closed || (a in m.ended && m.ended[a] == Closed) then t
    else SocketMade(t, a, retries)
  }

  function SocketMade(m: Manager, a: Account, retries: bool): Manager {
    m.(sockets := m.sockets[a := Entry(m.nextId, retries, None)],
       listening := m.listening[m.nextId := Socket(a, retries)],
       live := m.live + {m.nextId},
       nextId := m.nextId + 1,
       everOpened := m.everOpened + [a])
  }

  /** Its handlers are gone, so nothing it does from here on is heard. */
  function CloseSocket(m: Manager, id: Id): Manager {
    m.(listening := m.listening - {id}, live := m.live - {id})
  }

  predicate IsCurrent(m: Manager, id: Id)
  {
    id in m.listening && m.listening[id].account in m.sockets && m.sockets[m.listening[id].account].id == id
  }

  predicate IsLost(code: Option<int>) {
    code == Some(LOGGED_OUT) || code == Some(FORBIDDEN)
  }

  /** A dead entry stays until the timer replaces it; a connection that lasted ends the streak. */
  function BackOff(m: Manager, a: Account, retries: bool, code: Option<int>, now: int, random: real): Manager
    requires a in m.sockets && 0.0 <= random < 1.0
  {
    Schedule(Dead(m, a, now), a, retries, code, random)
  }

  function Dead(m: Manager, a: Account, now: int): Manager
    requires a in m.sockets
  {
    var entry := m.sockets[a];
    var stable := entry.openedAt.Some? && now - entry.openedAt.value >= STABLE_CONNECTION_MS;
    var t := if stable then ForgetStreak(m, a) else m;
    t.(sockets := t.sockets[a := entry.(openedAt := None)])
  }

  function EndForGood(m: Manager, a: Account, code: Option<int>): Manager {
    var t := m.(ended := if IsLost(code) && a !in m.ended then m.ended[a := SessionLost] else m.ended,
                sockets := m.sockets - {a});
    CancelReconnect(t, a)
  }

  /** A close is stale news from a socket that was replaced or dropped. */
  function SocketCloses(m: Manager, id: Id, code: Option<int>, now: int, random: real): Manager
    requires id in m.listening && 0.0 <= random < 1.0
  {
    var socket := m.listening[id];
    if !IsCurrent(m, id) then m
    else if !IsLost(code) && socket.retries && socket.account !in m.clearing
    then BackOff(m, socket.account, socket.retries, code, now, random)
    else EndForGood(m, socket.account, code)
  }

  function SocketOpens(m: Manager, id: Id, now: int): Manager
    requires id in m.listening
  {
    var a := m.listening[id].account;
    if IsCurrent(m, id) then m.(sockets := m.sockets[a := m.sockets[a].(openedAt := Some(now))]) else m
  }

  function DropSocket(m: Manager, a: Account): Manager {
    if a in m.sockets then CloseSocket(m, m.sockets[a].id).(sockets := m.sockets - {a}) else m
  }

  /** Up to the logout, if there is a socket to log out. */
  function StartDisconnect(m: Manager, a: Account): Manager {
    CancelReconnect(Disconnecting(m, a), a)
  }

  function Disconnecting(m: Manager, a: Account): Manager {
    m.(ended := m.ended[a := Closed], wired := m.wired - {a},
       logouts := if a in m.sockets then m.logouts + multiset{(a, m.sockets[a].id)} else m.logouts)
  }

  /** The end of a logout removes whatever entry the account has by then, and it is another socket's. */
  predicate SetsAdrift(m: Manager, e: Event) {
    e.DisconnectEnds? && e.a in m.sockets && m.sockets[e.a].id in m.live && m.sockets[e.a].id != e.id
  }

  /** From the logout on: its socket is closed, if it is not yet. */
  function EndDisconnect(m: Manager, a: Account, id: Id): Manager {
    CloseSocket(m, id).(sockets := m.sockets - {a}, logouts := m.logouts - multiset{(a, id)},
                        dropped := if SetsAdrift(m, DisconnectEnds(a, id)) then m.dropped + {m.sockets[a].id} else m.dropped)
  }

  function CloseAll(m: Manager): Manager {
    m.(closed := true, timers := map[], running := m.running - (set a | a in m.timers :: (a, m.timers[a].id)),
       attempts := m.attempts - m.timers.Keys,
       streaks := map a | a in m.streaks && a !in m.timers :: m.streaks[a],
       listening := m.listening - (set a | a in m.sockets :: m.sockets[a].id),
       live := m.live - (set a | a in m.sockets :: m.sockets[a].id),
       sockets := map[])
  }

  // ── Steps ────────────────────────────────────────────────────────

  datatype Event =
    | Connect(a: Account, retries: bool)
    | ConnectIsOver(a: Account, ok: bool, random: real)
    | Opens(id: Id, now: int)
    | Closes(id: Id, code: Option<int>, now: int, random: real)
    | TimerFires(a: Account, id: Id, retries: bool)
    | EnsureConnected(a: Account, retries: bool)
    | Registers(a: Account)
    | DisconnectStarts(a: Account)
    | DisconnectEnds(a: Account, id: Id)
    | CloseConnection(a: Account)
    | ClosesAll
    | ClearStarts(a: Account)
    | ClearEnds(a: Account)
    | ForgetAccount(a: Account)

  predicate Enabled(m: Manager, e: Event) {
    match e
    case ConnectIsOver(a, _, random) => a in m.connecting && 0.0 <= random < 1.0
    case Opens(id, _) => id in m.listening
    case Closes(id, _, _, random) => id in m.listening && 0.0 <= random < 1.0
    case TimerFires(a, id, _) => (a, id) in m.running
    case DisconnectEnds(a, id) => (a, id) in m.logouts
    case _ => true
  }

  function Next(m: Manager, e: Event): Manager
    requires Enabled(m, e)
  {
    match e
    case Connect(a, retries) => StartConnect(m, a, Caller, retries)
    case ConnectIsOver(a, ok, random) => ConnectEnds(m, a, ok, random)
    case Opens(id, now) => SocketOpens(m, id, now)
    case Closes(id, code, now, random) => SocketCloses(m.(live := m.live - {id}), id, code, now, random)
    case TimerFires(a, id, retries) =>
      StartReconnect(m.(timers := m.timers - {a}, running := m.running - {(a, id)}), a, retries)
    case EnsureConnected(a, retries) =>
      if a in m.sockets || a in m.connecting || a in m.timers || a in m.clearing || a in m.ended || a !in m.wired || !retries
      then m else StartReconnect(m, a, retries)
    case Registers(a) => m.(wired := m.wired + {a})
    case DisconnectStarts(a) => StartDisconnect(m, a)
    case DisconnectEnds(a, id) => EndDisconnect(m, a, id)
    case CloseConnection(a) => DropSocket(CancelReconnect(m.(ended := m.ended[a := Closed]), a), a)
    case ClosesAll => CloseAll(m)
    case ClearStarts(a) => DropSocket(CancelReconnect(m.(clearing := m.clearing + {a}), a), a)
    case ClearEnds(a) => m.(clearing := m.clearing - {a})
    case ForgetAccount(a) => if a in m.connecting then m else m.(ended := m.ended - {a})
  }

  predicate IsRun(m: Manager, events: seq<Event>)
    decreases |events|
  {
    events == [] || (Enabled(m, events[0]) && IsRun(Next(m, events[0]), events[1..]))
  }

  function After(m: Manager, events: seq<Event>): Manager
    requires IsRun(m, events)
    decreases |events|
  {
    if events == [] then m else After(Next(m, events[0]), events[1..])
  }

  // ── What stays true ──────────────────────────────────────────────

  /** The timers that run are the ones in the map, so an account has one at most. */
  ghost predicate TimersMatch(timers: map<Account, Timer>, running: set<(Account, Id)>) {
    && (forall a :: a in timers ==> (a, timers[a].id) in running)
    && (forall r :: r in running ==> r.0 in timers && timers[r.0].id == r.1)
  }

  ghost predicate IdsAreFresh(listening: map<Id, Socket>, nextId: Id) {
    forall id :: id in listening ==> id < nextId
  }

  /** Nobody opens a socket over another, and no connect goes on while a session is lost. */
  ghost predicate ConnectsAlone(m: Manager) {
    forall a :: a in m.connecting ==> a !in m.sockets && (a in m.ended ==> m.ended[a] == Closed)
  }

  /** The waits of the streak under way, one for each attempt counted. */
  ghost predicate StreaksAreBounded(attempts: map<Account, nat>, streaks: map<Account, seq<nat>>) {
    forall a :: |StreakOf(streaks, a)| == AttemptsOf(attempts, a) && WaitsBounded(StreakOf(streaks, a))
  }

  ghost predicate WaitsBounded(streak: seq<nat>) {
    forall k :: 0 <= k < |streak| ==> streak[k] <= Ceiling(k) || streak[k] == CONNECTION_REPLACED_MIN_DELAY_MS
  }

  ghost predicate Inv(m: Manager) {
    && TimersMatch(m.timers, m.running)
    && IdsAreFresh(m.listening, m.nextId)
    && ConnectsAlone(m)
    && StreaksAreBounded(m.attempts, m.streaks)
  }

  lemma OneMoreWait(attempts: map<Account, nat>, streaks: map<Account, seq<nat>>, a: Account, wait: nat)
    requires StreaksAreBounded(attempts, streaks)
    requires wait <= Ceiling(AttemptsOf(attempts, a)) || wait == CONNECTION_REPLACED_MIN_DELAY_MS
    ensures StreaksAreBounded(attempts[a := AttemptsOf(attempts, a) + 1], streaks[a := StreakOf(streaks, a) + [wait]])
  {
    hide Ceiling;
    var attempts', streaks' := attempts[a := AttemptsOf(attempts, a) + 1], streaks[a := StreakOf(streaks, a) + [wait]];
    assert |StreakOf(streaks, a)| == AttemptsOf(attempts, a) && WaitsBounded(StreakOf(streaks, a));
    forall b ensures |StreakOf(streaks', b)| == AttemptsOf(attempts', b) && WaitsBounded(StreakOf(streaks', b)) {
      if b != a { assert |StreakOf(streaks, b)| == AttemptsOf(attempts, b) && WaitsBounded(StreakOf(streaks, b)); }
    }
  }

  lemma OneMoreTimer(timers: map<Account, Timer>, running: set<(Account, Id)>, a: Account, timer: Timer)
    requires TimersMatch(timers, running) && a !in timers
    ensures TimersMatch(timers[a := timer], running + {(a, timer.id)})
  {
  }

  lemma ScheduleKeeps(m: Manager, a: Account, retries: bool, code: Option<int>, random: real)
    requires Inv(m) && 0.0 <= random < 1.0
    ensures Inv(Schedule(m, a, retries, code, random))
  {
    hide StreaksAreBounded, TimersMatch, Delay, Ceiling, AttemptsOf, StreakOf;
    if a !in m.timers {
      var attempt := AttemptsOf(m.attempts, a);
      DelayIsBounded(attempt, random, code);
      OneMoreTimer(m.timers, m.running, a, Timer(m.nextId, retries));
      OneMoreWait(m.attempts, m.streaks, a, Delay(attempt, random, code));
    }
  }

  lemma CancelKeeps(m: Manager, a: Account)
    requires Inv(m)
    ensures Inv(WithoutTimer(m, a)) && Inv(ForgetStreak(m, a)) && Inv(CancelReconnect(m, a))
  {
    TimerGone(m, a);
    StreakGone(m, a);
    StreakGone(WithoutTimer(m, a), a);
  }

  lemma TimerGone(m: Manager, a: Account)
    requires Inv(m)
    ensures Inv(WithoutTimer(m, a))
  {
  }

  lemma StreakGone(m: Manager, a: Account)
    requires Inv(m)
    ensures Inv(ForgetStreak(m, a))
  {
    var t := ForgetStreak(m, a);
    forall b ensures |StreakOf(t.streaks, b)| == AttemptsOf(t.attempts, b) && WaitsBounded(StreakOf(t.streaks, b)) {
      assert |StreakOf(m.streaks, b)| == AttemptsOf(m.attempts, b) && WaitsBounded(StreakOf(m.streaks, b));
    }
  }

  lemma ScheduleSets(m: Manager, a: Account, retries: bool, code: Option<int>, random: real)
    requires 0.0 <= random < 1.0
    ensures var t := Schedule(m, a, retries, code, random);
      if a in m.timers then t == m
      else t == m.(attempts := m.attempts[a := AttemptsOf(m.attempts, a) + 1], timers := m.timers[a := Timer(m.nextId, retries)],
                   nextId := m.nextId + 1, running := t.running, streaks := t.streaks)
  {
    hide Delay, StreakOf, AttemptsOf, Ceiling;
  }

  /** A connect that fails, one that finds it is not wanted any more, and one that makes a socket. */
  lemma ConnectEndsIs(m: Manager, a: Account, ok: bool, random: real)
    requires a in m.connecting && 0.0 <= random < 1.0
    ensures var (waiter, retries) := m.connecting[a];
      var t, r := m.(connecting := m.connecting - {a}), ConnectEnds(m, a, ok, random);
      && (!ok && waiter.Loop? ==> r == Schedule(t, a, waiter.retries, None, random))
      && ((!ok && !waiter.Loop?) || (ok && (m.closed || (a in m.ended && m.ended[a] == Closed))) ==> r == t)
      && (ok && !(m.closed || (a in m.ended && m.ended[a] == Closed)) ==>
            r == SocketMade(t, a, retries))
  {
    hide Schedule, SocketMade;
  }

  /** All but the timers and the streaks. */
  ghost predicate SameRest(m: Manager, t: Manager) {
    && t.sockets == m.sockets && t.wired == m.wired && t.clearing == m.clearing && t.connecting == m.connecting
    && t.ended == m.ended && t.closed == m.closed && t.listening == m.listening && t.everOpened == m.everOpened
    && t.live == m.live && t.logouts == m.logouts && t.dropped == m.dropped
  }

  lemma TimersAreApart(m: Manager, a: Account)
    ensures SameRest(m, WithoutTimer(m, a)) && WithoutTimer(m, a).nextId == m.nextId
  {
  }

  lemma StreaksAreApart(m: Manager, a: Account)
    ensures SameRest(m, ForgetStreak(m, a)) && ForgetStreak(m, a).nextId == m.nextId
  {
  }

  lemma CancelIsApart(m: Manager, a: Account)
    ensures SameRest(m, CancelReconnect(m, a)) && CancelReconnect(m, a).nextId == m.nextId
  {
    hide WithoutTimer, ForgetStreak;
    TimersAreApart(m, a);
    StreaksAreApart(WithoutTimer(m, a), a);
  }

  lemma ScheduleIsApart(m: Manager, a: Account, retries: bool, code: Option<int>, random: real)
    requires 0.0 <= random < 1.0
    ensures SameRest(m, Schedule(m, a, retries, code, random))
  {
    hide Delay;
  }

  lemma StartConnectKeeps(m: Manager, a: Account, waiter: Waiter, retries: bool)
    requires Inv(m)
    ensures Inv(StartConnect(m, a, waiter, retries))
  {
    hide WithoutTimer, StreaksAreBounded, TimersMatch;
    TimerGone(m, a);
    TimersAreApart(m, a);
  }

  lemma StartReconnectKeeps(m: Manager, a: Account, retries: bool)
    requires Inv(m)
    ensures Inv(StartReconnect(m, a, retries))
  {
    StartConnectKeeps(m.(sockets := m.sockets - {a}), a, Loop(retries), retries);
  }

  lemma ConnectEndsKeeps(m: Manager, a: Account, ok: bool, random: real)
    requires Inv(m) && a in m.connecting && 0.0 <= random < 1.0
    ensures Inv(ConnectEnds(m, a, ok, random))
  {
    hide StreaksAreBounded;
    var (waiter, retries) := m.connecting[a];
    var t := m.(connecting := m.connecting - {a});
    if !ok && waiter.Loop? { ScheduleKeeps(t, a, waiter.retries, None, random); }
  }

  lemma DeadKeeps(m: Manager, a: Account, now: int)
    requires Inv(m) && a in m.sockets
    ensures Inv(Dead(m, a, now))
  {
    hide StreaksAreBounded, TimersMatch, ForgetStreak;
    StreakGone(m, a);
    StreaksAreApart(m, a);
  }

  lemma DeadIsApart(m: Manager, a: Account, now: int)
    requires a in m.sockets
    ensures SameRest(m.(sockets := m.sockets[a := m.sockets[a].(openedAt := None)]), Dead(m, a, now))
    ensures Dead(m, a, now).nextId == m.nextId
  {
    hide ForgetStreak;
    StreaksAreApart(m, a);
  }

  lemma BackOffKeeps(m: Manager, a: Account, retries: bool, code: Option<int>, now: int, random: real)
    requires Inv(m) && a in m.sockets && 0.0 <= random < 1.0
    ensures Inv(BackOff(m, a, retries, code, now, random))
  {
    hide Inv, Schedule, Dead;
    DeadKeeps(m, a, now);
    ScheduleKeeps(Dead(m, a, now), a, retries, code, random);
  }

  lemma EndForGoodKeeps(m: Manager, a: Account, code: Option<int>)
    requires Inv(m) && a in m.sockets
    ensures Inv(EndForGood(m, a, code))
  {
    hide StreaksAreBounded, TimersMatch, CancelReconnect;
    var t := m.(ended := if IsLost(code) && a !in m.ended then m.ended[a := SessionLost] else m.ended,
                sockets := m.sockets - {a});
    CancelKeeps(t, a);
  }

  lemma DropKeeps(m: Manager, a: Account)
    requires Inv(m)
    ensures Inv(DropSocket(m, a))
  {
  }

  lemma CloseAllKeeps(m: Manager)
    requires Inv(m)
    ensures Inv(CloseAll(m))
  {
    var t := CloseAll(m);
    forall b ensures |StreakOf(t.streaks, b)| == AttemptsOf(t.attempts, b) && WaitsBounded(StreakOf(t.streaks, b)) {
      assert |StreakOf(m.streaks, b)| == AttemptsOf(m.attempts, b) && WaitsBounded(StreakOf(m.streaks, b));
    }
  }

  lemma NextKeeps(m: Manager, e: Event)
    requires Inv(m) && Enabled(m, e)
    ensures Inv(Next(m, e))
  {
    hide Inv, CloseAll, SocketCloses, ConnectEnds, StartConnect, StartReconnect;
    match e
    case Connect(a, retries) => StartConnectKeeps(m, a, Caller, retries);
    case ConnectIsOver(a, ok, random) => ConnectEndsKeeps(m, a, ok, random);
    case Closes(id, code, now, random) =>
      FieldsAside(m, e);
      ClosesKeeps(m.(live := m.live - {id}), id, code, now, random);
    case TimerFires(a, id, retries) =>
      FieldsAside(m, e);
      StartReconnectKeeps(m.(timers := m.timers - {a}, running := m.running - {(a, id)}), a, retries);
    case EnsureConnected(a, retries) => StartReconnectKeeps(m, a, retries);
    case ClosesAll => CloseAllKeeps(m);
    case DisconnectStarts(_) => CallersKeep(m, e);
    case CloseConnection(_) => CallersKeep(m, e);
    case ClearStarts(_) => CallersKeep(m, e);
    case _ => QuietKeeps(m, e);
  }

  lemma FieldsAside(m: Manager, e: Event)
    requires Inv(m) && Enabled(m, e)
    ensures e.Closes? ==> Inv(m.(live := m.live - {e.id}))
    ensures e.TimerFires? ==> Inv(m.(timers := m.timers - {e.a}, running := m.running - {(e.a, e.id)}))
  {
    hide StreaksAreBounded;
  }

  lemma QuietKeeps(m: Manager, e: Event)
    requires Inv(m) && Enabled(m, e)
    requires e.Opens? || e.Registers? || e.ClearEnds? || e.ForgetAccount? || e.DisconnectEnds?
    ensures Inv(Next(m, e))
  {
    hide StreaksAreBounded, TimersMatch, SetsAdrift;
  }

  lemma ClosesKeeps(m: Manager, id: Id, code: Option<int>, now: int, random: real)
    requires Inv(m) && id in m.listening && 0.0 <= random < 1.0
    ensures Inv(SocketCloses(m, id, code, now, random))
  {
    hide Inv, BackOff, EndForGood;
    if IsCurrent(m, id) {
      BackOffKeeps(m, m.listening[id].account, m.listening[id].retries, code, now, random);
      EndForGoodKeeps(m, m.listening[id].account, code);
    }
  }

  predicate IsOfACaller(e: Event) {
    e.DisconnectStarts? || e.CloseConnection? || e.ClearStarts?
  }

  lemma CallersKeep(m: Manager, e: Event)
    requires Inv(m) && IsOfACaller(e)
    ensures Inv(Next(m, e))
  {
    hide StreaksAreBounded, TimersMatch, CancelReconnect, DropSocket;
    match e
    case DisconnectStarts(a) => CancelKeeps(Disconnecting(m, a), a);
    case CloseConnection(a) =>
      CancelKeeps(m.(ended := m.ended[a := Closed]), a);
      DropKeeps(CancelReconnect(m.(ended := m.ended[a := Closed]), a), a);
    case ClearStarts(a) =>
      CancelKeeps(m.(clearing := m.clearing + {a}), a);
      DropKeeps(CancelReconnect(m.(clearing := m.clearing + {a}), a), a);
  }

  lemma {:induction false} RunKeeps(m: Manager, events: seq<Event>)
    requires Inv(m) && IsRun(m, events)
    ensures Inv(After(m, events))
    decreases |events|
  {
    if events == [] {
    } else {
      hide Inv, Next;
      NextKeeps(m, events[0]);
      RunKeeps(Next(m, events[0]), events[1..]);
    }
  }

  lemma FreshHolds()
    ensures Inv(FRESH)
  {
  }

  // ── What is promised ─────────────────────────────────────────────

  /** Someone asks for the account again, or it no longer exists. */
  predicate Revives(e: Event, a: Account) {
    (e.Connect? && e.a == a) || (e.ForgetAccount? && e.a == a)
  }

  function Opened(m: Manager, a: Account): nat {
    multiset(m.everOpened)[a]
  }

  lemma ConnectingKeepsEnded(m: Manager, a: Account, other: Account, waiter: Waiter, retries: bool)
    requires a in m.ended && other != a
    ensures a in StartConnect(m, other, waiter, retries).ended
    ensures StartConnect(m, other, waiter, retries).everOpened == m.everOpened
  {
    hide WithoutTimer;
    TimersAreApart(m, other);
  }

  lemma ReconnectingKeepsEnded(m: Manager, a: Account, other: Account, retries: bool)
    requires a in m.ended
    ensures a in StartReconnect(m, other, retries).ended
    ensures StartReconnect(m, other, retries).everOpened == m.everOpened
  {
    hide StartConnect;
    if other != a { ConnectingKeepsEnded(m.(sockets := m.sockets - {other}), a, other, Loop(retries), retries); }
    else { assert StartReconnect(m, other, retries) == m; }
  }

  lemma ConnectEndsKeepsEnded(m: Manager, a: Account, other: Account, ok: bool, random: real)
    requires Inv(m) && a in m.ended && other in m.connecting && 0.0 <= random < 1.0
    ensures a in ConnectEnds(m, other, ok, random).ended
    ensures Opened(ConnectEnds(m, other, ok, random), a) == Opened(m, a)
  {
    hide Schedule, StreaksAreBounded, TimersMatch;
    var (waiter, retries) := m.connecting[other];
    if waiter.Loop? { ScheduleIsApart(m.(connecting := m.connecting - {other}), other, waiter.retries, None, random); }
  }

  lemma BackOffIsApart(m: Manager, a: Account, retries: bool, code: Option<int>, now: int, random: real)
    requires a in m.sockets && 0.0 <= random < 1.0
    ensures var t := BackOff(m, a, retries, code, now, random);
      t.ended == m.ended && t.closed == m.closed && t.everOpened == m.everOpened
  {
    hide Schedule, Dead;
    DeadIsApart(m, a, now);
    ScheduleIsApart(Dead(m, a, now), a, retries, code, random);
  }

  lemma EndIsApart(m: Manager, a: Account, code: Option<int>)
    ensures var t := EndForGood(m, a, code);
      && t.ended == (if IsLost(code) && a !in m.ended then m.ended[a := SessionLost] else m.ended)
      && t.closed == m.closed && t.everOpened == m.everOpened
  {
    hide CancelReconnect;
    CancelIsApart(m.(ended := if IsLost(code) && a !in m.ended then m.ended[a := SessionLost] else m.ended,
                     sockets := m.sockets - {a}), a);
  }

  lemma ClosesKeepsEnded(m: Manager, a: Account, id: Id, code: Option<int>, now: int, random: real)
    requires a in m.ended && id in m.listening && 0.0 <= random < 1.0
    ensures a in SocketCloses(m, id, code, now, random).ended
    ensures SocketCloses(m, id, code, now, random).everOpened == m.everOpened
  {
    hide BackOff, EndForGood;
    if IsCurrent(m, id) {
      BackOffIsApart(m, m.listening[id].account, m.listening[id].retries, code, now, random);
      EndIsApart(m, m.listening[id].account, code);
    }
  }

  lemma NextKeepsEnded(m: Manager, e: Event, a: Account)
    requires Inv(m) && Enabled(m, e) && a in m.ended && !Revives(e, a)
    ensures a in Next(m, e).ended && Opened(Next(m, e), a) == Opened(m, a)
  {
    hide Inv, StartConnect, StartReconnect, ConnectEnds, SocketCloses, CancelReconnect, Opened;
    SameOpened(m, Next(m, e), a);
    match e
    case Connect(b, retries) => ConnectingKeepsEnded(m, a, b, Caller, retries);
    case ConnectIsOver(b, ok, random) => ConnectEndsKeepsEnded(m, a, b, ok, random);
    case Opens(id, now) =>
    case Closes(id, code, now, random) => ClosesKeepsEnded(m.(live := m.live - {id}), a, id, code, now, random);
    case TimerFires(b, id, retries) =>
      ReconnectingKeepsEnded(m.(timers := m.timers - {b}, running := m.running - {(b, id)}), a, b, retries);
    case EnsureConnected(b, retries) => ReconnectingKeepsEnded(m, a, b, retries);
    case Registers(_) =>
    case DisconnectStarts(b) => CancelIsApart(Disconnecting(m, b), b);
    case DisconnectEnds(_, _) =>
    case CloseConnection(b) => CancelIsApart(m.(ended := m.ended[b := Closed]), b);
    case ClosesAll =>
    case ClearStarts(b) => CancelIsApart(m.(clearing := m.clearing + {b}), b);
    case ClearEnds(_) =>
    case ForgetAccount(_) =>
  }

  lemma SameOpened(m: Manager, t: Manager, a: Account)
    ensures m.everOpened == t.everOpened ==> Opened(m, a) == Opened(t, a)
  {
  }

  /**
   * Once a connection was ended on purpose or its session lost, no timer, no health check and no connect already
   * on its way opens a socket for the account, until someone asks for it again.
   */
  lemma {:induction false} StaysDown(m: Manager, events: seq<Event>, a: Account)
    requires Inv(m) && IsRun(m, events) && a in m.ended
    requires forall i :: 0 <= i < |events| ==> !Revives(events[i], a)
    ensures a in After(m, events).ended && Opened(After(m, events), a) == Opened(m, a)
    decreases |events|
  {
    if events == [] {
    } else {
      hide Inv, Next, Opened, Revives;
      assert !Revives(events[0], a);
      assert forall i :: 0 <= i < |events[1..]| ==> events[1..][i] == events[i + 1];
      NextKeepsEnded(m, events[0], a);
      NextKeeps(m, events[0]);
      StaysDown(Next(m, events[0]), events[1..], a);
    }
  }

  /** What ends a connection: a disconnect, a close... */
  lemma DisconnectingEnds(m: Manager, a: Account)
    ensures a in Next(m, DisconnectStarts(a)).ended && a in Next(m, CloseConnection(a)).ended
  {
    hide CancelReconnect;
    CancelIsApart(Disconnecting(m, a), a);
    CancelIsApart(m.(ended := m.ended[a := Closed]), a);
  }

  /** ...or WhatsApp's 401 or 403 on the account's current socket, and no other close. */
  lemma LosingTheSessionEnds(m: Manager, id: Id, code: Option<int>, now: int, random: real)
    requires Enabled(m, Closes(id, code, now, random)) && m.listening[id].account !in m.ended
    ensures m.listening[id].account in SocketCloses(m, id, code, now, random).ended <==> IsCurrent(m, id) && IsLost(code)
  {
    hide BackOff, EndForGood;
    if IsCurrent(m, id) {
      BackOffIsApart(m, m.listening[id].account, m.listening[id].retries, code, now, random);
      EndIsApart(m, m.listening[id].account, code);
    }
  }

  lemma CallersLeaveItClosed(m: Manager, e: Event)
    requires m.closed && IsOfACaller(e)
    ensures Next(m, e).closed && Next(m, e).everOpened == m.everOpened
  {
    hide CancelReconnect, DropSocket;
    match e
    case DisconnectStarts(a) => CancelIsApart(Disconnecting(m, a), a);
    case CloseConnection(a) =>
      CancelIsApart(m.(ended := m.ended[a := Closed]), a);
      DroppingIsQuiet(CancelReconnect(m.(ended := m.ended[a := Closed]), a), a);
    case ClearStarts(a) =>
      CancelIsApart(m.(clearing := m.clearing + {a}), a);
      DroppingIsQuiet(CancelReconnect(m.(clearing := m.clearing + {a}), a), a);
  }

  lemma NextStaysClosed(m: Manager, e: Event)
    requires m.closed && Enabled(m, e)
    ensures Next(m, e).closed && Next(m, e).everOpened == m.everOpened
  {
    hide ConnectEnds, CancelReconnect, StartConnect, StartReconnect, SocketCloses, DropSocket;
    if IsOfACaller(e) {
      CallersLeaveItClosed(m, e);
    } else {
      match e
      case Connect(a, retries) => StaysShut(m, a, Caller, retries);
      case ConnectIsOver(a, ok, random) => ConnectEndsStaysClosed(m, a, ok, random);
      case Closes(id, code, now, random) => ClosesStaysClosed(m.(live := m.live - {id}), id, code, now, random);
      case TimerFires(a, id, retries) => StaysShutOnRetry(m.(timers := m.timers - {a}, running := m.running - {(a, id)}), a, retries);
      case EnsureConnected(a, retries) => StaysShutOnRetry(m, a, retries);
      case _ =>
    }
  }

  lemma ConnectEndsStaysClosed(m: Manager, a: Account, ok: bool, random: real)
    requires m.closed && a in m.connecting && 0.0 <= random < 1.0
    ensures ConnectEnds(m, a, ok, random).closed && ConnectEnds(m, a, ok, random).everOpened == m.everOpened
  {
    hide Schedule;
    var (waiter, retries) := m.connecting[a];
    if waiter.Loop? { ScheduleIsApart(m.(connecting := m.connecting - {a}), a, waiter.retries, None, random); }
  }

  lemma StaysShut(m: Manager, a: Account, waiter: Waiter, retries: bool)
    requires m.closed
    ensures StartConnect(m, a, waiter, retries) == m
  {
  }

  lemma StaysShutOnRetry(m: Manager, a: Account, retries: bool)
    requires m.closed
    ensures StartReconnect(m, a, retries).closed && StartReconnect(m, a, retries).everOpened == m.everOpened
  {
  }

  lemma DroppingIsQuiet(m: Manager, a: Account)
    ensures DropSocket(m, a).closed == m.closed && DropSocket(m, a).everOpened == m.everOpened
  {
  }

  lemma ClosesStaysClosed(m: Manager, id: Id, code: Option<int>, now: int, random: real)
    requires m.closed && id in m.listening && 0.0 <= random < 1.0
    ensures var t := SocketCloses(m, id, code, now, random);
      t.closed && t.everOpened == m.everOpened
  {
    hide BackOff, EndForGood;
    if IsCurrent(m, id) {
      BackOffIsApart(m, m.listening[id].account, m.listening[id].retries, code, now, random);
      EndIsApart(m, m.listening[id].account, code);
    }
  }

  /** After `closeAll` no socket ever opens, for any account. */
  lemma {:induction false} NothingOpensAfterCloseAll(m: Manager, events: seq<Event>)
    requires IsRun(CloseAll(m), events)
    ensures After(CloseAll(m), events).everOpened == m.everOpened
  {
    StaysClosed(CloseAll(m), events);
  }

  lemma {:induction false} StaysClosed(m: Manager, events: seq<Event>)
    requires m.closed && IsRun(m, events)
    ensures After(m, events).closed && After(m, events).everOpened == m.everOpened
    decreases |events|
  {
    if events == [] {
    } else {
      hide Next;
      NextStaysClosed(m, events[0]);
      StaysClosed(Next(m, events[0]), events[1..]);
    }
  }

  /** An account never has two timers, and one that is cancelled does not fire. */
  lemma OneTimerAtMost(events: seq<Event>, a: Account, id: Id, other: Id)
    requires IsRun(FRESH, events)
    requires (a, id) in After(FRESH, events).running && (a, other) in After(FRESH, events).running
    ensures id == other && (a, id) !in CancelReconnect(After(FRESH, events), a).running
  {
    FreshHolds();
    RunKeeps(FRESH, events);
  }

  /** However long a streak gets, its k-th wait is at most 2^k seconds and five minutes, or just five minutes after a 440. */
  lemma WaitsOfAStreak(events: seq<Event>, a: Account, k: nat)
    requires IsRun(FRESH, events) && k < |StreakOf(After(FRESH, events).streaks, a)|
    ensures var wait := StreakOf(After(FRESH, events).streaks, a)[k];
      wait <= BACKOFF_MAX_MS && (wait <= BACKOFF_BASE_MS * Power(k) || wait == CONNECTION_REPLACED_MIN_DELAY_MS)
  {
    FreshHolds();
    RunKeeps(FRESH, events);
    assert WaitsBounded(StreakOf(After(FRESH, events).streaks, a));
  }

  // ── In place ─────────────────────────────────────────────────────

  /** What the manager does not hold itself: the sockets, the timers, the logouts under way, and the history. */
  datatype Outside = Outside(
    listening: map<Id, Socket>, live: set<Id>, logouts: multiset<(Account, Id)>, running: set<(Account, Id)>,
    everOpened: seq<Account>, streaks: map<Account, seq<nat>>, dropped: set<Id>)

  /** The manager's own maps and sets, changed in place. What the sockets and timers themselves are is ghost. */
  class BaileysSocketManager {
    var sockets: map<Account, Entry>
    var wired: set<Account>
    var clearing: set<Account>
    var connecting: map<Account, (Waiter, bool)>
    var ended: map<Account, End>
    var reconnectTimers: map<Account, Timer>
    var reconnectAttempts: map<Account, nat>
    var closed: bool
    var nextId: Id
    ghost var outside: Outside

    ghost function View(): Manager
      reads this
    {
      Manager(sockets, wired, clearing, connecting, ended, reconnectTimers, reconnectAttempts, closed,
              outside.listening, outside.live, outside.logouts, outside.running, nextId,
              outside.everOpened, outside.streaks, outside.dropped)
    }

    constructor ()
      ensures View() == FRESH
    {
      sockets, wired, clearing, connecting, ended := map[], {}, {}, map[], map[];
      reconnectTimers, reconnectAttempts, closed, nextId := map[], map[], false, 0;
      outside := Outside(map[], {}, multiset{}, {}, [], map[], {});
    }

    method ClearReconnectTimer(a: Account)
      modifies this`reconnectTimers, this`outside
      ensures View() == WithoutTimer(old(View()), a)
    {
      if a in reconnectTimers {
        outside := outside.(running := outside.running - {(a, reconnectTimers[a].id)});
        reconnectTimers := reconnectTimers - {a};
      }
    }

    method CancelTheReconnect(a: Account)
      modifies this`reconnectTimers, this`reconnectAttempts, this`outside
      ensures View() == CancelReconnect(old(View()), a)
    {
      ClearReconnectTimer(a);
      reconnectAttempts := reconnectAttempts - {a};
      outside := outside.(streaks := outside.streaks[a := []]);
    }

    method ScheduleReconnect(a: Account, retries: bool, code: Option<int>, random: real)
      requires 0.0 <= random < 1.0
      modifies this
      ensures View() == Schedule(old(View()), a, retries, code, random)
    {
      hide Schedule, AttemptsOf;
      ScheduleSets(View(), a, retries, code, random);
      if a in reconnectTimers {
        return;
      }
      ghost var next := Schedule(View(), a, retries, code, random);
      var attempt := AttemptsOf(reconnectAttempts, a);
      reconnectAttempts := reconnectAttempts[a := attempt + 1];
      reconnectTimers := reconnectTimers[a := Timer(nextId, retries)];
      outside, nextId := outside.(running := next.running, streaks := next.streaks), nextId + 1;
    }

    /** `connect` up to its first `await`: whether a socket is on its way. */
    method StartConnecting(a: Account, waiter: Waiter, retries: bool) returns (starts: bool)
      modifies this
      ensures View() == StartConnect(old(View()), a, waiter, retries)
    {
      starts := false;
      if closed || a in clearing || a in sockets {
        return;
      }
      if a in connecting {
        ended := ended - {a};
        return;
      }
      ClearReconnectTimer(a);
      ended := ended - {a};
      connecting := connecting[a := (waiter, retries)];
      starts := true;
    }

    method Reconnect(a: Account, retries: bool)
      modifies this
      ensures View() == StartReconnect(old(View()), a, retries)
    {
      if a in clearing || a in ended {
        return;
      }
      sockets := sockets - {a};
      var _ := StartConnecting(a, Loop(retries), retries);
    }

    method MakeSocket(a: Account, retries: bool)
      modifies this`sockets, this`outside, this`nextId
      ensures View() == SocketMade(old(View()), a, retries)
    {
      sockets := sockets[a := Entry(nextId, retries, None)];
      outside := outside.(listening := outside.listening[nextId := Socket(a, retries)], live := outside.live + {nextId},
                          everOpened := outside.everOpened + [a]);
      nextId := nextId + 1;
    }

    /** Opening a socket ended, one way or the other. */
    method ConnectIsDone(a: Account, ok: bool, random: real)
      requires a in connecting && 0.0 <= random < 1.0
      modifies this
      ensures View() == ConnectEnds(old(View()), a, ok, random)
    {
      hide Schedule, ConnectEnds, SocketMade;
      ConnectEndsIs(View(), a, ok, random);
      var (waiter, retries) := connecting[a];
      connecting := connecting - {a};
      if !ok {
        if waiter.Loop? {
          ScheduleReconnect(a, waiter.retries, None, random);
        }
        return;
      }
      if closed || (a in ended && ended[a] == Closed) {
        return;
      }
      MakeSocket(a, retries);
    }

    method BackOffFrom(a: Account, retries: bool, code: Option<int>, now: int, random: real)
      requires a in sockets && 0.0 <= random < 1.0
      modifies this
      ensures View() == BackOff(old(View()), a, retries, code, now, random)
    {
      hide Schedule;
      var entry := sockets[a];
      if entry.openedAt.Some? && now - entry.openedAt.value >= STABLE_CONNECTION_MS {
        reconnectAttempts := reconnectAttempts - {a};
        outside := outside.(streaks := outside.streaks[a := []]);
      }
      sockets := sockets[a := entry.(openedAt := None)];
      ScheduleReconnect(a, retries, code, random);
    }

    method EndWith(a: Account, code: Option<int>)
      modifies this
      ensures View() == EndForGood(old(View()), a, code)
    {
      hide CancelReconnect;
      if IsLost(code) && a !in ended {
        ended := ended[a := SessionLost];
      }
      sockets := sockets - {a};
      CancelTheReconnect(a);
    }

    /** The handler of a socket's 'close'. */
    method OnClose(id: Id, a: Account, retries: bool, code: Option<int>, now: int, random: real)
      requires id in outside.listening && outside.listening[id] == Socket(a, retries) && 0.0 <= random < 1.0
      modifies this
      ensures View() == Next(old(View()), Closes(id, code, now, random))
    {
      hide BackOff, EndForGood;
      outside := outside.(live := outside.live - {id});
      var isCurrent := a in sockets && sockets[a].id == id;
      if !IsLost(code) && retries && a !in clearing {
        if isCurrent {
          BackOffFrom(a, retries, code, now, random);
        }
      } else if isCurrent {
        EndWith(a, code);
      }
    }

    method Drop(a: Account)
      modifies this`sockets, this`outside
      ensures View() == DropSocket(old(View()), a)
    {
      if a in sockets {
        outside := outside.(listening := outside.listening - {sockets[a].id}, live := outside.live - {sockets[a].id});
        sockets := sockets - {a};
      }
    }

    method CloseTheConnection(a: Account)
      modifies this
      ensures View() == Next(old(View()), CloseConnection(a))
    {
      hide CancelReconnect, DropSocket;
      ended := ended[a := Closed];
      CancelTheReconnect(a);
      Drop(a);
    }

    method EnsureIsConnected(a: Account, retries: bool) returns (starts: bool)
      modifies this
      ensures View() == Next(old(View()), EnsureConnected(a, retries))
    {
      starts := false;
      if a in sockets || a in connecting || a in reconnectTimers || a in clearing || a in ended || a !in wired || !retries {
        return;
      }
      Reconnect(a, retries);
      starts := true;
    }
  }
}

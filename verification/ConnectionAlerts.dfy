/**
 Telling someone that an account is down: at once if its session is lost, after a quarter of an hour if its
 connection dropped, again every six hours. Accounts do not touch each other, so this is one account; an alert on
 its way keeps its outage, even one that is no longer the account's.
 */
module ConnectionAlerts {
  import opened Options

  const DOWN_ALERT_AFTER_MS: int := 15 * 60 * 1000
  const ALERT_REPEAT_MS: int := 6 * 60 * 60 * 1000
  const RETRY_BASE_MS: int := 30_000
  const RETRY_MAX_MS: int := 15 * 60 * 1000
  const STABLE_CONNECTION_MS: int := 60_000

  /**
   * From `alerted` on it is history: whether an alert ever began, when the last one delivered did, and whether the outage
   * has been excused since from waiting: its session was lost, or it changed its kind while that alert was on its way.
   * `failures` are the alerts that failed in a row, and the outage is `hurried` if the same happened since the last one.
   */
  datatype Outage = Outage(
    since: int, terminal: bool, upSince: Option<int>, nextAlertAt: int, failedAttempts: nat, forwarded: bool, sending: bool,
    alerted: bool, last: Option<int>, excused: bool, failures: seq<Failure>, hurried: bool)

  /** An alert that was not delivered: when it began, and whether it was hurried. */
  datatype Failure = Failure(began: int, hurried: bool)

  type Id = nat

  /** An alert on its way: its outage, when it began, whether the session was lost by then, and whether it was hurried. */
  datatype Flight = Flight(outage: Id, began: int, terminal: bool, hurried: bool)

  /** Every outage there has been, the account's being `current`; `clock` is the time of the latest event. */
  datatype State = State(current: Option<Id>, outages: seq<Outage>, flights: map<nat, Flight>, nextFlight: nat, clock: int)

  function NewOutage(now: int): Outage {
    Outage(now, false, None, now, 0, false, false, false, None, false, [], false)
  }

  function Power(k: nat): (p: nat)
    ensures p >= 1
  {
    if k == 0 then 1 else 2 * Power(k - 1)
  }

  /** How long the k-th failure in a row makes the next attempt wait. */
  function RetryIn(k: nat): (ms: int)
    ensures 0 < ms <= RETRY_MAX_MS
  {
    if RETRY_BASE_MS * Power(k) < RETRY_MAX_MS then RETRY_BASE_MS * Power(k) else RETRY_MAX_MS
  }

  function With(s: State, id: Id, outage: Outage): State
    requires id < |s.outages|
  {
    s.(outages := s.outages[id := outage])
  }

  function Replace(s: State, outage: Outage): State {
    s.(current := Some(|s.outages|), outages := s.outages + [outage])
  }

  predicate IsDue(outage: Outage, now: int) {
    outage.upSince.None? && !outage.sending && now >= outage.nextAlertAt &&
    (outage.terminal || now - outage.since >= DOWN_ALERT_AFTER_MS)
  }

  function AlertIfDue(s: State, id: Id, now: int): State
    requires id < |s.outages|
  {
    var outage := s.outages[id];
    if IsDue(outage, now)
    then With(s, id, outage.(sending := true, alerted := true))
         .(flights := s.flights[s.nextFlight := Flight(id, now, outage.terminal, outage.hurried)], nextFlight := s.nextFlight + 1)
    else s
  }

  predicate HasCurrent(s: State) {
    s.current.Some? && s.current.value < |s.outages|
  }

  /** If it was up in between, for a moment even, it is another session that is lost, and another outage. */
  function ForLostSession(s: State, now: int): State {
    if HasCurrent(s) && s.outages[s.current.value].upSince.None? then s else Replace(s, NewOutage(now))
  }

  function TurnTerminal(outage: Outage, now: int): Outage {
    if outage.terminal then outage else outage.(terminal := true, nextAlertAt := now, forwarded := false, excused := true, hurried := true)
  }

  function SessionLost(s: State, now: int): State {
    var t := ForLostSession(s, now);
    var id := t.current.value;
    AlertIfDue(With(t, id, TurnTerminal(t.outages[id], now)), id, now)
  }

  function Connected(s: State, now: int): State {
    if HasCurrent(s) && s.outages[s.current.value].upSince.None?
    then With(s, s.current.value, s.outages[s.current.value].(upSince := Some(now)))
    else s
  }

  predicate HasRecovered(outage: Outage, now: int) {
    outage.upSince.Some? && now - outage.upSince.value >= STABLE_CONNECTION_MS
  }

  /** A connection too short to count leaves the outage where it was. */
  function Dropped(s: State, now: int): State {
    if !HasCurrent(s) || HasRecovered(s.outages[s.current.value], now) then Replace(s, NewOutage(now))
    else With(s, s.current.value, s.outages[s.current.value].(upSince := None, terminal := false))
  }

  function Tick(s: State, now: int): State {
    if !HasCurrent(s) then s
    else if HasRecovered(s.outages[s.current.value], now) then s.(current := None)
    else AlertIfDue(s, s.current.value, now)
  }

  predicate InFlight(s: State, f: nat) {
    f in s.flights && s.flights[f].outage < |s.outages|
  }

  function Land(s: State, f: nat, outage: Outage): State
    requires InFlight(s, f)
  {
    With(s, s.flights[f].outage, outage.(sending := false)).(flights := s.flights - {f})
  }

  /** The account is looked up first: one that is gone, or suspended, is no outage. */
  function NobodyToTell(s: State, f: nat): State
    requires InFlight(s, f)
  {
    var id := s.flights[f].outage;
    Land(s, f, s.outages[id]).(current := if s.current == Some(id) then None else s.current)
  }

  /** Its webhooks hear of the outage once. */
  function Forwards(s: State, f: nat): State
    requires InFlight(s, f)
  {
    With(s, s.flights[f].outage, s.outages[s.flights[f].outage].(forwarded := true))
  }

  function Delivered(outage: Outage, flight: Flight): Outage {
    var changed := outage.terminal != flight.terminal;
    outage.(failedAttempts := 0, nextAlertAt := if changed then flight.began else flight.began + ALERT_REPEAT_MS,
            last := Some(flight.began), excused := changed, failures := [], hurried := changed)
  }

  /** If the outage is of another kind by now, that has not been told yet, and does not wait. */
  function NotDelivered(outage: Outage, flight: Flight): Outage {
    var changed := outage.terminal != flight.terminal;
    outage.(failedAttempts := outage.failedAttempts + 1,
            nextAlertAt := if changed then flight.began else flight.began + RetryIn(outage.failedAttempts),
            failures := outage.failures + [Failure(flight.began, flight.hurried)], hurried := changed)
  }

  function FlightEnds(s: State, f: nat, delivered: bool): State
    requires InFlight(s, f)
  {
    var flight := s.flights[f];
    var outage := s.outages[flight.outage];
    Land(s, f, if delivered then Delivered(outage, flight) else NotDelivered(outage, flight))
  }

  // ── Runs ─────────────────────────────────────────────────────────

  datatype Event =
    | OnSessionLost(now: int)
    | OnConnected(now: int)
    | OnDropped(now: int)
    | OnTick(now: int)
    | OnDeliberateOrQr
    | LooksUpNobody(f: nat)
    | LooksUpSomeone(f: nat)
    | Ends(f: nat, delivered: bool)

  predicate Enabled(s: State, e: Event) {
    match e
    case OnDeliberateOrQr => true
    case LooksUpNobody(f) => InFlight(s, f)
    case LooksUpSomeone(f) => InFlight(s, f)
    case Ends(f, _) => InFlight(s, f)
    case _ => s.clock <= e.now
  }

  function Next(s: State, e: Event): State
    requires Enabled(s, e)
  {
    match e
    case OnSessionLost(now) => SessionLost(s.(clock := now), now)
    case OnConnected(now) => Connected(s.(clock := now), now)
    case OnDropped(now) => Dropped(s.(clock := now), now)
    case OnTick(now) => Tick(s.(clock := now), now)
    case OnDeliberateOrQr => s.(current := None)
    case LooksUpNobody(f) => NobodyToTell(s, f)
    case LooksUpSomeone(f) => Forwards(s, f)
    case Ends(f, delivered) => FlightEnds(s, f, delivered)
  }

  predicate IsRun(s: State, events: seq<Event>)
    decreases |events|
  {
    events == [] || (Enabled(s, events[0]) && IsRun(Next(s, events[0]), events[1..]))
  }

  function After(s: State, events: seq<Event>): State
    requires IsRun(s, events)
    decreases |events|
  {
    if events == [] then s else After(Next(s, events[0]), events[1..])
  }

  function Calm(now: int): State {
    State(None, [], map[], 0, now)
  }

  // ── What stays true ──────────────────────────────────────────────

  /** After one delivered, the next waits six hours, unless excused; before the first, nothing waits. */
  predicate WaitsEnough(outage: Outage, clock: int) {
    && outage.since <= clock
    && (outage.last.Some? && !outage.excused ==> outage.nextAlertAt >= outage.last.value + ALERT_REPEAT_MS)
    && (outage.last.Some? && !outage.excused && outage.failures == [] ==> outage.nextAlertAt == outage.last.value + ALERT_REPEAT_MS)
    && (!outage.alerted ==> outage.nextAlertAt <= clock && !outage.sending && outage.last.None?)
  }

  /** When an alert that follows this failure in a row may begin. */
  function RetryAt(failures: seq<Failure>): int
    requires failures != []
  {
    failures[|failures| - 1].began + RetryIn(|failures| - 1)
  }

  /** After each failure in a row the next alert waits for longer, unless hurried. */
  ghost predicate BacksOff(outage: Outage) {
    && outage.failedAttempts == |outage.failures|
    && (outage.failures != [] && !outage.hurried ==> outage.nextAlertAt == RetryAt(outage.failures))
    && (forall i | 0 < i < |outage.failures| && !outage.failures[i].hurried :: outage.failures[i].began >= RetryAt(outage.failures[..i]))
  }

  /** An outage has one alert on its way exactly while it says so, and that one began no sooner than it should. */
  ghost predicate Inv(s: State) {
    && (s.current.Some? ==> s.current.value < |s.outages|)
    && (forall id :: 0 <= id < |s.outages| ==> WaitsEnough(s.outages[id], s.clock))
    && (forall id :: 0 <= id < |s.outages| ==> BacksOff(s.outages[id]))
    && FlightsMatch(s.flights, s.outages)
    && (forall f :: f in s.flights ==> f < s.nextFlight)
  }

  ghost predicate FlightsMatch(flights: map<nat, Flight>, outages: seq<Outage>) {
    && (forall f :: f in flights ==> flights[f].outage < |outages| && outages[flights[f].outage].sending)
    && (forall f, g :: f in flights && g in flights && flights[f].outage == flights[g].outage ==> f == g)
    && (forall f :: f in flights ==> Spaced(outages[flights[f].outage], flights[f].began))
    && (forall f :: f in flights ==> HasWaited(outages[flights[f].outage], flights[f]))
  }

  predicate Spaced(outage: Outage, began: int) {
    outage.last.Some? && !outage.excused ==> began >= outage.last.value + ALERT_REPEAT_MS
  }

  predicate HasWaited(outage: Outage, flight: Flight) {
    outage.failures != [] && !flight.hurried ==> flight.began >= RetryAt(outage.failures)
  }

  lemma AlertKeeps(s: State, id: Id, now: int)
    requires Inv(s) && id < |s.outages| && s.clock == now
    ensures Inv(AlertIfDue(s, id, now))
  {
    hide RetryIn;
  }

  lemma SessionLostKeeps(s: State, now: int)
    requires Inv(s) && s.clock == now
    ensures Inv(SessionLost(s, now))
  {
    hide AlertIfDue, Inv;
    LosingKeeps(s, now);
    var t := ForLostSession(s, now);
    var id := t.current.value;
    TurningKeeps(t, id, now);
    AlertKeeps(With(t, id, TurnTerminal(t.outages[id], now)), id, now);
  }

  lemma LosingKeeps(s: State, now: int)
    requires Inv(s) && s.clock == now
    ensures Inv(ForLostSession(s, now)) && ForLostSession(s, now).clock == now
  {
  }

  lemma TurningKeeps(s: State, id: Id, now: int)
    requires Inv(s) && s.clock == now && id < |s.outages|
    ensures Inv(With(s, id, TurnTerminal(s.outages[id], now)))
  {
    hide RetryAt;
  }

  lemma LandingKeeps(s: State, f: nat, delivered: bool)
    requires Inv(s) && InFlight(s, f)
    ensures Inv(FlightEnds(s, f, delivered))
  {
    hide RetryIn;
    var flight := s.flights[f];
    var outage := s.outages[flight.outage];
    assert Spaced(outage, flight.began) && HasWaited(outage, flight);
    assert 0 < RetryIn(outage.failedAttempts);
    FailureBacksOff(outage, flight);
  }

  lemma FailureBacksOff(outage: Outage, flight: Flight)
    requires BacksOff(outage) && HasWaited(outage, flight)
    ensures BacksOff(NotDelivered(outage, flight))
  {
    hide RetryIn;
    var before, after := outage.failures, NotDelivered(outage, flight).failures;
    forall i | 0 < i < |after| && !after[i].hurried ensures after[i].began >= RetryAt(after[..i]) {
      assert after[..i] == if i < |before| then before[..i] else before;
    }
  }

  lemma ClockKeeps(s: State, now: int)
    requires Inv(s) && s.clock <= now
    ensures Inv(s.(clock := now))
  {
  }

  lemma NobodyKeeps(s: State, f: nat)
    requires Inv(s) && InFlight(s, f)
    ensures Inv(NobodyToTell(s, f))
  {
    hide RetryAt;
  }

  lemma ForwardsKeeps(s: State, f: nat)
    requires Inv(s) && InFlight(s, f)
    ensures Inv(Forwards(s, f))
  {
    hide RetryAt;
  }

  lemma ConnectedKeeps(s: State, now: int)
    requires Inv(s) && s.clock == now
    ensures Inv(Connected(s, now))
  {
    hide RetryAt;
  }

  lemma DroppedKeeps(s: State, now: int)
    requires Inv(s) && s.clock == now
    ensures Inv(Dropped(s, now))
  {
    hide RetryAt;
  }

  lemma NextKeeps(s: State, e: Event)
    requires Inv(s) && Enabled(s, e)
    ensures Inv(Next(s, e))
  {
    hide SessionLost, Connected, Dropped, AlertIfDue, NobodyToTell, Forwards, FlightEnds;
    match e
    case OnSessionLost(now) =>
      ClockKeeps(s, now);
      SessionLostKeeps(s.(clock := now), now);
    case OnConnected(now) =>
      ClockKeeps(s, now);
      ConnectedKeeps(s.(clock := now), now);
    case OnDropped(now) =>
      ClockKeeps(s, now);
      DroppedKeeps(s.(clock := now), now);
    case OnTick(now) =>
      ClockKeeps(s, now);
      if HasCurrent(s) { AlertKeeps(s.(clock := now), s.current.value, now); }
    case OnDeliberateOrQr =>
    case LooksUpNobody(f) => NobodyKeeps(s, f);
    case LooksUpSomeone(f) => ForwardsKeeps(s, f);
    case Ends(f, delivered) => LandingKeeps(s, f, delivered);
  }

  lemma {:induction false} RunKeeps(s: State, events: seq<Event>)
    requires Inv(s) && IsRun(s, events)
    ensures Inv(After(s, events))
    decreases |events|
  {
    if events == [] {
    } else {
      hide Inv, Next;
      NextKeeps(s, events[0]);
      RunKeeps(Next(s, events[0]), events[1..]);
    }
  }

  // ── What is promised ─────────────────────────────────────────────

  /**
   * In every run, an outage has at most one alert on its way, and one that follows a delivered one begins six hours
   * after it at the earliest, unless the outage was excused meanwhile.
   */
  lemma AlertsAreSpaced(from: int, events: seq<Event>, f: nat, g: nat)
    requires IsRun(Calm(from), events)
    requires f in After(Calm(from), events).flights && g in After(Calm(from), events).flights
    ensures var t := After(Calm(from), events);
      && InFlight(t, f) && t.outages[t.flights[f].outage].sending
      && Spaced(t.outages[t.flights[f].outage], t.flights[f].began)
      && (t.flights[f].outage == t.flights[g].outage ==> f == g)
  {
    RunKeeps(Calm(from), events);
  }

  /** What excuses: losing the session, or a delivered alert that told of another kind of outage than it is by then. */
  lemma OnlyTheseExcuse(s: State, e: Event, id: Id)
    requires Inv(s) && Enabled(s, e) && id < |s.outages| && !s.outages[id].excused
    ensures id < |Next(s, e).outages|
    ensures Next(s, e).outages[id].excused <==>
              || (e.OnSessionLost? && s.current == Some(id) && s.outages[id].upSince.None? && !s.outages[id].terminal)
              || (e.Ends? && e.delivered && s.flights[e.f].outage == id && s.outages[id].terminal != s.flights[e.f].terminal)
  {
  }

  /**
   * So the six hours do not hold for a session lost at 0, connected again and dropped while its alert is on its way:
   * a quarter of an hour later, with no session lost since, there is another.
   */
  lemma DroppingExcuses() returns (events: seq<Event>)
    ensures IsRun(Calm(0), events)
    ensures var t := After(Calm(0), events);
      && 1 in t.flights && InFlight(t, 1) && t.outages[t.flights[1].outage].last == Some(0)
      && t.flights[1].began == DOWN_ALERT_AFTER_MS < ALERT_REPEAT_MS
    ensures forall i :: 0 < i < |events| ==> !events[i].OnSessionLost?
  {
    var s := Calm(0);
    var s1 := Next(s, OnSessionLost(0));
    assert s1.current == Some(0) && s1.flights == map[0 := Flight(0, 0, true, true)] && |s1.outages| == 1 && s1.nextFlight == 1;
    var s2 := Next(s1, OnConnected(1));
    var s3 := Next(s2, OnDropped(2));
    assert s3.current == Some(0) && !s3.outages[0].terminal && s3.flights == s1.flights;
    var s4 := Next(s3, Ends(0, true));
    assert s4.outages[0].last == Some(0) && s4.outages[0].nextAlertAt == 0 && s4.flights == map[];
    Prepend(s4, OnTick(DOWN_ALERT_AFTER_MS), []);
    Prepend(s3, Ends(0, true), [OnTick(DOWN_ALERT_AFTER_MS)] + []);
    Prepend(s2, OnDropped(2), [Ends(0, true)] + ([OnTick(DOWN_ALERT_AFTER_MS)] + []));
    Prepend(s1, OnConnected(1), [OnDropped(2)] + ([Ends(0, true)] + ([OnTick(DOWN_ALERT_AFTER_MS)] + [])));
    Prepend(s, OnSessionLost(0), [OnConnected(1)] + ([OnDropped(2)] + ([Ends(0, true)] + ([OnTick(DOWN_ALERT_AFTER_MS)] + []))));
    events := [OnSessionLost(0)] + ([OnConnected(1)] + ([OnDropped(2)] + ([Ends(0, true)] + ([OnTick(DOWN_ALERT_AFTER_MS)] + []))));
  }

  lemma Prepend(s: State, e: Event, rest: seq<Event>)
    requires Enabled(s, e) && IsRun(Next(s, e), rest)
    ensures IsRun(s, [e] + rest) && After(s, [e] + rest) == After(Next(s, e), rest)
  {
    assert ([e] + rest)[1..] == rest;
  }

  // ── Flapping ─────────────────────────────────────────────────────

  /** The connection comes and goes, never for long enough to count. */
  predicate Flaps(s: State, e: Event) {
    && (e.OnConnected? || e.OnDropped? || e.OnTick? || e.LooksUpSomeone? || e.Ends?)
    && (e.OnDropped? || e.OnTick? ==> HasCurrent(s) && !HasRecovered(s.outages[s.current.value], e.now))
  }

  predicate IsFlapping(s: State, events: seq<Event>)
    decreases |events|
  {
    events == [] || (Enabled(s, events[0]) && Flaps(s, events[0]) && IsFlapping(Next(s, events[0]), events[1..]))
  }

  lemma FlappingStep(s: State, e: Event)
    requires Inv(s) && HasCurrent(s) && Enabled(s, e) && Flaps(s, e)
    ensures var t := Next(s, e);
      t.current == s.current && HasCurrent(t) && t.outages[t.current.value].since == s.outages[s.current.value].since
  {
  }

  /** However often it connects and drops, it is the same outage and it began when it began... */
  lemma {:induction false} FlappingIsOneOutage(s: State, events: seq<Event>)
    requires Inv(s) && HasCurrent(s) && IsFlapping(s, events)
    ensures IsRun(s, events)
    ensures var t := After(s, events);
      Inv(t) && t.current == s.current && HasCurrent(t) && t.outages[t.current.value].since == s.outages[s.current.value].since
    decreases |events|
  {
    if events == [] {
    } else {
      hide Inv, Next, Flaps, Enabled;
      FlappingStep(s, events[0]);
      NextKeeps(s, events[0]);
      FlappingIsOneOutage(Next(s, events[0]), events[1..]);
    }
  }

  /** ...so a quarter of an hour after that, down, and with no alert so far, the next check begins one. */
  lemma FlappingPostponesNothing(s: State, events: seq<Event>, now: int)
    requires Inv(s) && HasCurrent(s) && IsFlapping(s, events) && IsRun(s, events)
    requires var t := After(s, events);
      t.current == s.current && HasCurrent(t) && t.clock <= now && t.outages[t.current.value].upSince.None? &&
      !t.outages[t.current.value].alerted
    ensures var t := After(s, events);
      var u := Next(t, OnTick(now));
      (exists f :: f in u.flights && f !in t.flights && u.flights[f].outage == s.current.value && u.flights[f].began == now)
      <==> t.outages[t.current.value].terminal || now - s.outages[s.current.value].since >= DOWN_ALERT_AFTER_MS
  {
    FlappingIsOneOutage(s, events);
    var t := After(s, events);
    assert WaitsEnough(t.outages[t.current.value], t.clock);
    var u := Next(t, OnTick(now));
    if IsDue(t.outages[t.current.value], now) {
      assert t.nextFlight in u.flights && t.nextFlight !in t.flights;
    }
  }

  // ── How an outage begins and ends ────────────────────────────────

  predicate IsLostAlready(s: State) {
    HasCurrent(s) && s.outages[s.current.value].upSince.None? && s.outages[s.current.value].terminal
  }

  /** A session that is lost is alerted at once, unless an alert of its outage is on its way, whose end then decides. */
  lemma LosingAlertsAtOnce(from: int, events: seq<Event>, now: int)
    requires IsRun(Calm(from), events) && After(Calm(from), events).clock <= now && !IsLostAlready(After(Calm(from), events))
    ensures var s := After(Calm(from), events);
      var t := Next(s, OnSessionLost(now));
      && HasCurrent(t)
      && var id := t.current.value;
         && t.outages[id].terminal && t.outages[id].upSince.None? && t.outages[id].sending
         && (id < |s.outages| ==> s.current == Some(id) && s.outages[id].upSince.None?)
         && (id >= |s.outages| ==> t.outages[id].since == now)
         && ((id < |s.outages| && s.outages[id].sending) ||
             exists f :: f in t.flights && f !in s.flights && t.flights[f].outage == id && t.flights[f].began == now && t.flights[f].terminal)
  {
    RunKeeps(Calm(from), events);
    var s := After(Calm(from), events);
    var t := Next(s, OnSessionLost(now));
    assert s.nextFlight !in s.flights;
    assert s.nextFlight in t.flights || s.outages[t.current.value].sending;
  }

  /** Up for a minute the outage is over, at the next check or drop; up for less, it is the same outage still. */
  lemma OnlyALastingConnectionEndsIt(s: State, up: int, now: int)
    requires Inv(s) && HasCurrent(s) && s.outages[s.current.value].upSince.None? && s.clock <= up <= now
    ensures var u := Next(s, OnConnected(up));
      && u.current == s.current
      && var checked, dropped := Next(u, OnTick(now)), Next(u, OnDropped(now));
         && checked.flights == s.flights && (checked.current.None? <==> now - up >= STABLE_CONNECTION_MS)
         && HasCurrent(dropped) && dropped.outages[dropped.current.value].upSince.None?
         && if now - up >= STABLE_CONNECTION_MS
            then dropped.current.value == |s.outages| && dropped.outages[dropped.current.value] == NewOutage(now)
            else dropped.current == s.current && dropped.outages[dropped.current.value].since == s.outages[s.current.value].since
  {
  }

  /** With no outage, none begins and nothing is alerted until a session is lost or a connection drops. */
  lemma {:induction false} StaysCalm(s: State, events: seq<Event>)
    requires s.current.None? && IsRun(s, events)
    requires forall i :: 0 <= i < |events| ==> !events[i].OnSessionLost? && !events[i].OnDropped?
    ensures After(s, events).current.None? && After(s, events).nextFlight == s.nextFlight
    decreases |events|
  {
    if events != [] {
      assert !events[0].OnSessionLost? && !events[0].OnDropped?;
      assert forall i :: 0 <= i < |events[1..]| ==> events[1..][i] == events[i + 1];
      StaysCalm(Next(s, events[0]), events[1..]);
    }
  }

  /** A deliberate disconnect, a QR to scan, and an account that is gone or suspended end an outage; and of those on their way, only their own. */
  lemma TheseAreNoOutages(s: State, f: nat)
    requires Inv(s)
    ensures Next(s, OnDeliberateOrQr).current.None?
    ensures InFlight(s, f) ==>
              var id, t := s.flights[f].outage, Next(s, LooksUpNobody(f));
              t.current == (if s.current == Some(id) then None else s.current) && !t.outages[id].sending && f !in t.flights
  {
  }

  /** The account's webhooks are told. */
  predicate Tells(s: State, e: Event, id: Id)
    requires Enabled(s, e)
  {
    e.LooksUpSomeone? && s.flights[e.f].outage == id && !s.outages[id].forwarded
  }

  predicate AreTold(s: State, events: seq<Event>, id: Id)
    requires IsRun(s, events)
    decreases |events|
  {
    events != [] && (Tells(s, events[0], id) || AreTold(Next(s, events[0]), events[1..], id))
  }

  lemma StaysForwarded(s: State, e: Event, id: Id)
    requires Inv(s) && Enabled(s, e) && id < |s.outages| && !e.OnSessionLost?
    ensures id < |Next(s, e).outages|
    ensures Next(s, e).outages[id].forwarded <==> s.outages[id].forwarded || Tells(s, e, id)
  {
    hide RetryAt;
  }

  /** Once told of an outage, they are not told again unless its session is lost. */
  lemma {:induction false} ToldOnce(s: State, events: seq<Event>, id: Id)
    requires Inv(s) && IsRun(s, events) && id < |s.outages| && s.outages[id].forwarded
    requires forall i :: 0 <= i < |events| ==> !events[i].OnSessionLost?
    ensures !AreTold(s, events, id)
    decreases |events|
  {
    hide Inv, Next, Enabled;
    if events != [] {
      assert !events[0].OnSessionLost?;
      assert forall i :: 0 <= i < |events[1..]| ==> events[1..][i] == events[i + 1];
      StaysForwarded(s, events[0], id);
      NextKeeps(s, events[0]);
      ToldOnce(Next(s, events[0]), events[1..], id);
    }
  }

  // ── Failing ──────────────────────────────────────────────────────

  /**
   * In every run, `failedAttempts` counts the failures in a row, and after the k-th of them (counted from 0) no alert of
   * the outage begins before the smaller of 30 s * 2^k and a quarter of an hour have passed, unless hurried.
   */
  lemma FailuresBackOff(from: int, events: seq<Event>, id: Id, i: nat)
    requires IsRun(Calm(from), events) && id < |After(Calm(from), events).outages|
    requires var outage := After(Calm(from), events).outages[id]; 0 < i < |outage.failures| && !outage.failures[i].hurried
    ensures var outage := After(Calm(from), events).outages[id];
      && outage.failedAttempts == |outage.failures|
      && var waited := outage.failures[i].began - outage.failures[i - 1].began;
         waited >= RETRY_MAX_MS || waited >= RETRY_BASE_MS * Power(i - 1)
  {
    RunKeeps(Calm(from), events);
    var outage := After(Calm(from), events).outages[id];
    assert BacksOff(outage);
    assert outage.failures[i].began >= RetryAt(outage.failures[..i]);
  }

  /** So does the one on its way. */
  lemma AlertsWaitForTheirTurn(from: int, events: seq<Event>, f: nat)
    requires IsRun(Calm(from), events) && f in After(Calm(from), events).flights
    ensures var t := After(Calm(from), events);
      && InFlight(t, f)
      && var flight, failures := t.flights[f], t.outages[t.flights[f].outage].failures;
         failures != [] && !flight.hurried ==>
           var waited := flight.began - failures[|failures| - 1].began;
           waited >= RETRY_MAX_MS || waited >= RETRY_BASE_MS * Power(|failures| - 1)
  {
    RunKeeps(Calm(from), events);
    var t := After(Calm(from), events);
    assert HasWaited(t.outages[t.flights[f].outage], t.flights[f]);
  }

  /** And no longer than that: the first check after the wait begins the next one. */
  lemma FailedAlertsComeBack(from: int, events: seq<Event>, now: int)
    requires IsRun(Calm(from), events)
    requires var t := After(Calm(from), events);
      && HasCurrent(t) && t.clock <= now
      && var outage := t.outages[t.current.value];
         outage.failures != [] && !outage.hurried && !outage.sending && outage.upSince.None?
    ensures var t := After(Calm(from), events);
      var outage, u := t.outages[t.current.value], Next(t, OnTick(now));
      var waited, k := now - outage.failures[|outage.failures| - 1].began, |outage.failures| - 1;
      (exists f :: f in u.flights && f !in t.flights && u.flights[f].outage == t.current.value && u.flights[f].began == now)
      <==>
      (waited >= RETRY_MAX_MS || waited >= RETRY_BASE_MS * Power(k)) &&
      (outage.terminal || now - outage.since >= DOWN_ALERT_AFTER_MS)
  {
    RunKeeps(Calm(from), events);
    var t := After(Calm(from), events);
    var outage, u := t.outages[t.current.value], Next(t, OnTick(now));
    assert BacksOff(outage);
    if IsDue(outage, now) {
      assert t.nextFlight in u.flights && t.nextFlight !in t.flights;
    }
  }

  /** After a delivered one, with the account down, the first check six hours later begins the next, and none before. */
  lemma DeliveredAlertsComeBack(from: int, events: seq<Event>, now: int)
    requires IsRun(Calm(from), events)
    requires var t := After(Calm(from), events);
      && HasCurrent(t) && t.clock <= now
      && var outage := t.outages[t.current.value];
         outage.last.Some? && !outage.excused && outage.failures == [] && !outage.sending && outage.upSince.None?
    ensures var t := After(Calm(from), events);
      var outage, u := t.outages[t.current.value], Next(t, OnTick(now));
      (exists f :: f in u.flights && f !in t.flights && u.flights[f].outage == t.current.value && u.flights[f].began == now)
      <==>
      now - outage.last.value >= ALERT_REPEAT_MS && (outage.terminal || now - outage.since >= DOWN_ALERT_AFTER_MS)
  {
    RunKeeps(Calm(from), events);
    var t := After(Calm(from), events);
    var outage, u := t.outages[t.current.value], Next(t, OnTick(now));
    assert WaitsEnough(outage, t.clock);
    if IsDue(outage, now) {
      assert t.nextFlight in u.flights && t.nextFlight !in t.flights;
    }
  }

  /** What hurries the next alert: losing the session, or an alert that told of another kind of outage than it is by then. */
  lemma OnlyTheseHurry(s: State, e: Event, id: Id)
    requires Inv(s) && Enabled(s, e) && id < |s.outages| && !s.outages[id].hurried
    ensures id < |Next(s, e).outages|
    ensures Next(s, e).outages[id].hurried <==>
              || (e.OnSessionLost? && s.current == Some(id) && s.outages[id].upSince.None? && !s.outages[id].terminal)
              || (e.Ends? && s.flights[e.f].outage == id && s.outages[id].terminal != s.flights[e.f].terminal)
  {
    hide Inv, RetryIn, BacksOff;
  }

  // ── In place ─────────────────────────────────────────────────────

  class Alerts {
    var current: Option<Id>
    var outages: seq<Outage>
    var flights: map<nat, Flight>
    var nextFlight: nat
    var clock: int

    ghost function View(): State
      reads this
    {
      State(current, outages, flights, nextFlight, clock)
    }

    ghost predicate Valid()
      reads this
    {
      current.Some? ==> current.value < |outages|
    }

    constructor (now: int)
      ensures Valid() && View() == Calm(now)
    {
      current, outages, flights, nextFlight, clock := None, [], map[], 0, now;
    }

    /** Whether an alert begins. */
    method BeginIfDue(id: Id, now: int) returns (begins: bool)
      requires Valid() && id < |outages|
      modifies this`outages, this`flights, this`nextFlight
      ensures Valid() && View() == AlertIfDue(old(View()), id, now)
      ensures begins <==> IsDue(old(outages)[id], now)
    {
      var outage := outages[id];
      if outage.upSince.Some? || outage.sending || now < outage.nextAlertAt {
        return false;
      }
      if !outage.terminal && now - outage.since < DOWN_ALERT_AFTER_MS {
        return false;
      }
      outages := outages[id := outage.(sending := true, alerted := true)];
      flights := flights[nextFlight := Flight(id, now, outage.terminal, outage.hurried)];
      nextFlight := nextFlight + 1;
      begins := true;
    }

    method LosesItsSession(now: int)
      requires Valid()
      modifies this
      ensures Valid() && View() == SessionLost(old(View()), now)
    {
      if current.None? || outages[current.value].upSince.Some? {
        current, outages := Some(|outages|), outages + [NewOutage(now)];
      }
      var id := current.value;
      outages := outages[id := TurnTerminal(outages[id], now)];
      var _ := BeginIfDue(id, now);
    }

    method Connects(now: int)
      requires Valid()
      modifies this`outages
      ensures Valid() && View() == Connected(old(View()), now)
    {
      if current.Some? && outages[current.value].upSince.None? {
        outages := outages[current.value := outages[current.value].(upSince := Some(now))];
      }
    }

    method Drops(now: int)
      requires Valid()
      modifies this`current, this`outages
      ensures Valid() && View() == Dropped(old(View()), now)
    {
      var recovered := current.Some? && HasRecovered(outages[current.value], now);
      if current.None? || recovered {
        current, outages := Some(|outages|), outages + [NewOutage(now)];
        return;
      }
      outages := outages[current.value := outages[current.value].(upSince := None, terminal := false)];
    }

    method Checks(now: int)
      requires Valid()
      modifies this
      ensures Valid() && View() == Tick(old(View()), now)
    {
      if current.None? {
        return;
      }
      if HasRecovered(outages[current.value], now) {
        current := None;
      } else {
        var _ := BeginIfDue(current.value, now);
      }
    }

    /** An alert was delivered, or was not. */
    method IsOver(f: nat, delivered: bool)
      requires Valid() && InFlight(View(), f)
      modifies this`outages, this`flights
      ensures Valid() && View() == FlightEnds(old(View()), f, delivered)
    {
      hide RetryIn;
      var flight := flights[f];
      var outage := outages[flight.outage];
      var after := outage.(sending := false);
      if delivered {
        after := after.(failedAttempts := 0, nextAlertAt := flight.began + ALERT_REPEAT_MS,
                        last := Some(flight.began), excused := outage.terminal != flight.terminal, failures := []);
      } else {
        var retryIn := RetryIn(outage.failedAttempts);
        after := after.(failedAttempts := outage.failedAttempts + 1, nextAlertAt := flight.began + retryIn,
                        failures := outage.failures + [Failure(flight.began, flight.hurried)]);
      }
      after := after.(hurried := outage.terminal != flight.terminal);
      if outage.terminal != flight.terminal {
        after := after.(nextAlertAt := flight.began);
      }
      outages, flights := outages[flight.outage := after], flights - {f};
    }
  }
}

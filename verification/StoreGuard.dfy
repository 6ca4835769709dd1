/**
 The circuit breaker between the inbound path and the message log. Open, it diverts live messages; a
 write of its own tells when the log answers, and then the failed log goes in before the circuit closes.
 */
module StoreGuard {
  import opened MessageStore

  /** Closed is no diversion at all. */
  datatype Phase = Closed | Down | Recovering

  /** The write that checks whether the log is back: waiting for its timer, or on its way. */
  datatype Probe = Idle | Pending | InFlight

  datatype Guard = Guard(phase: Phase, stopped: bool, probe: Probe)

  const FRESH := Guard(Closed, false, Idle)

  /** A recovery is under way, and no shutdown has begun. */
  predicate IsRecovering(g: Guard) { !g.stopped && g.phase == Recovering }

  /** Live messages are attempted at once. */
  predicate TakingDirectly(g: Guard) { !g.stopped && g.phase == Closed }

  function Open(g: Guard): Guard {
    if g.phase == Down || g.stopped then g else g.(phase := Down, probe := Pending)
  }

  function FinishRecovery(g: Guard): Guard {
    if IsRecovering(g) then g.(phase := Closed) else g
  }

  /** A probe already on its way is not called back. */
  function Stop(g: Guard): Guard {
    g.(stopped := true, probe := if g.probe == Pending then Idle else g.probe)
  }

  function ProbeTimerFires(g: Guard): Guard {
    g.(probe := if g.phase == Down then InFlight else Idle)
  }

  /** Answered: the failed log comes first. Otherwise, again later, unless there is no later. */
  function ProbeEnds(g: Guard, written: bool): Guard {
    if !written then g.(probe := if g.stopped then Idle else Pending)
    else if g.stopped then g.(probe := Idle)
    else g.(phase := Recovering, probe := Idle)
  }

  /** `onAnswering` is called. */
  predicate Answers(g: Guard, written: bool) { written && !g.stopped }

  /** Until it is stopped, the circuit is open exactly while one probe is pending or in flight. */
  ghost predicate Probing(g: Guard) {
    !g.stopped ==> (g.phase == Down <==> g.probe != Idle)
  }

  datatype GuardEvent =
    | Opens
    | Finishes
    | Stops
    | TimerFires
    | Probed(written: bool)

  ghost predicate CanHappen(g: Guard, e: GuardEvent) {
    match e
    case TimerFires => g.probe == Pending
    case Probed(_) => g.probe == InFlight
    case _ => true
  }

  function NextGuard(g: Guard, e: GuardEvent): Guard {
    match e
    case Opens => Open(g)
    case Finishes => FinishRecovery(g)
    case Stops => Stop(g)
    case TimerFires => ProbeTimerFires(g)
    case Probed(written) => ProbeEnds(g, written)
  }

  ghost predicate IsGuardRun(g: Guard, events: seq<GuardEvent>)
    decreases |events|
  {
    events == [] || (CanHappen(g, events[0]) && IsGuardRun(NextGuard(g, events[0]), events[1..]))
  }

  function GuardAfter(g: Guard, events: seq<GuardEvent>): Guard
    decreases |events|
  {
    if events == [] then g else GuardAfter(NextGuard(g, events[0]), events[1..])
  }

  /** How many outages began, and how often the failed log was called for, along a run. */
  function Outages(g: Guard, events: seq<GuardEvent>): nat
    decreases |events|
  {
    if events == [] then 0
    else (if g.phase != Down && NextGuard(g, events[0]).phase == Down then 1 else 0) + Outages(NextGuard(g, events[0]), events[1..])
  }

  function Calls(g: Guard, events: seq<GuardEvent>): nat
    decreases |events|
  {
    if events == [] then 0
    else (if events[0].Probed? && Answers(g, events[0].written) then 1 else 0) + Calls(NextGuard(g, events[0]), events[1..])
  }

  /** Each outage that ends calls `onAnswering` once: only the one still going on has not yet. */
  lemma {:induction false} EachOutageEndsWithOneCall(g: Guard, events: seq<GuardEvent>)
    requires Probing(g) && IsGuardRun(g, events)
    ensures Probing(GuardAfter(g, events))
    ensures Outages(g, events) + (if g.phase == Down then 1 else 0) ==
            Calls(g, events) + (if GuardAfter(g, events).phase == Down then 1 else 0)
    decreases |events|
  {
    if events != [] {
      var h := NextGuard(g, events[0]);
      StoppedStaysStopped(g, events[0]);
      EachOutageEndsWithOneCall(h, events[1..]);
    }
  }

  lemma StoppedStaysStopped(g: Guard, e: GuardEvent)
    requires Probing(g) && CanHappen(g, e)
    ensures Probing(NextGuard(g, e))
    ensures g.stopped ==> NextGuard(g, e).stopped && NextGuard(g, e).phase == g.phase
  {
  }

  /** Nothing is pending, and at most one probe is on its way that was not called back. */
  lemma {:induction false} StoppedProbesNoMore(g: Guard, events: seq<GuardEvent>)
    requires IsGuardRun(Stop(g), events)
    ensures forall i :: 0 <= i < |events| ==> !events[i].TimerFires?
    ensures Calls(Stop(g), events) == 0
  {
    NeverPending(Stop(g), events);
  }

  lemma {:induction false} NeverPending(g: Guard, events: seq<GuardEvent>)
    requires g.stopped && g.probe != Pending && IsGuardRun(g, events)
    ensures forall i :: 0 <= i < |events| ==> !events[i].TimerFires?
    ensures Calls(g, events) == 0
    decreases |events|
  {
    if events != [] {
      NeverPending(NextGuard(g, events[0]), events[1..]);
      assert forall i :: 0 < i < |events| ==> events[i] == events[1..][i - 1];
    }
  }

  // ── Storing a live message ───────────────────────────────────────

  /** A duplicate after a failed attempt may be that very attempt, whose answer was lost. */
  function SettleRetried(id: Id, attempt: nat, result: InsertResult): InsertResult {
    if attempt > 0 && result.Duplicate? && result.storedId == id then Inserted(result.storedSeq) else result
  }

  /** What an attempt meets: an answer, or a failure that another attempt would not change, or one it might. */
  datatype Reply = Says(result: InsertResult) | FailsForGood | FailsForNow

  datatype Ending = Stores(result: InsertResult) | Rejects

  /** What the log replies to each attempt, and what happens to the circuit during it and during the wait after it. */
  datatype World = World(reply: nat -> Reply, during: nat -> seq<GuardEvent>, waiting: nat -> seq<GuardEvent>)

  /** What cannot happen does not. */
  function Elapsed(g: Guard, events: seq<GuardEvent>): Guard
    decreases |events|
  {
    if events == [] then g else Elapsed(if MayHappen(g, events[0]) then NextGuard(g, events[0]) else g, events[1..])
  }

  predicate MayHappen(g: Guard, e: GuardEvent) {
    (e.TimerFires? ==> g.probe == Pending) && (e.Probed? ==> g.probe == InFlight)
  }

  datatype Tried = Tried(guard: Guard, ending: Ending, attempts: nat)

  function InsertFrom(g: Guard, id: Id, attempt: nat, retries: nat, world: World): Tried
    requires attempt <= retries
    decreases retries - attempt
  {
    if g.phase != Closed then Tried(g, Rejects, attempt)
    else
      var h := Elapsed(g, world.during(attempt));
      match world.reply(attempt)
      case Says(result) => Tried(h, Stores(SettleRetried(id, attempt, result)), attempt + 1)
      case FailsForGood => Tried(h, Rejects, attempt + 1)
      case FailsForNow =>
        if attempt == retries then Tried(Open(h), Rejects, attempt + 1)
        else if h.stopped then Tried(h, Rejects, attempt + 1)
        else InsertFrom(Elapsed(h, world.waiting(attempt)), id, attempt + 1, retries, world)
  }

  /** One insert makes at most one attempt more than there are delays, and none after an answer. */
  lemma {:induction false} InsertIsBounded(g: Guard, id: Id, attempt: nat, retries: nat, world: World)
    requires attempt <= retries
    ensures var tried := InsertFrom(g, id, attempt, retries, world);
      && attempt <= tried.attempts <= retries + 1
      && (forall k :: attempt <= k < tried.attempts - 1 ==> world.reply(k) == FailsForNow)
      && (tried.ending.Stores? <==> tried.attempts > attempt && world.reply(tried.attempts - 1).Says?)
      && (tried.ending.Stores? ==>
            tried.ending.result == SettleRetried(id, tried.attempts - 1, world.reply(tried.attempts - 1).result))
      && (tried.attempts == retries + 1 && world.reply(retries) == FailsForNow ==>
            tried.guard.stopped || tried.guard.phase == Down)
    decreases retries - attempt
  {
    if g.phase == Closed && world.reply(attempt) == FailsForNow && attempt < retries {
      var h := Elapsed(g, world.during(attempt));
      if !h.stopped { InsertIsBounded(Elapsed(h, world.waiting(attempt)), id, attempt + 1, retries, world); }
    }
  }

  /** The circuit as the world has left it before attempt `k`, if all from `first` on failed for now. */
  function BeforeAttempt(g: Guard, first: nat, k: nat, world: World): Guard
    decreases k - first
  {
    if k <= first then g
    else BeforeAttempt(Elapsed(Elapsed(g, world.during(first)), world.waiting(first)), first + 1, k, world)
  }

  /** And after it. */
  function AfterAttemptOf(g: Guard, first: nat, k: nat, world: World): Guard {
    Elapsed(BeforeAttempt(g, first, k, world), world.during(k))
  }

  /** Attempt `k` failed for now, and neither a stop nor a lack of delays keeps another from following. */
  predicate IsRetried(g: Guard, first: nat, k: nat, retries: nat, world: World) {
    world.reply(k) == FailsForNow && k < retries && !AfterAttemptOf(g, first, k, world).stopped
  }

  predicate RunsOut(k: nat, retries: nat, world: World) {
    k == retries && world.reply(k) == FailsForNow
  }

  /**
   * Which attempts there are: each finds the circuit closed and follows one that is retried, and the last is not, or the
   * circuit is found open. What becomes of the circuit is the world's doing, up to the last attempt or to where it was
   * found open, and then it is opened if and only if the attempts ran out.
   */
  lemma {:induction false} InsertIsExactly(g: Guard, id: Id, first: nat, retries: nat, world: World)
    requires first <= retries
    ensures var tried := InsertFrom(g, id, first, retries, world);
      var n := tried.attempts;
      && first <= n <= retries + 1
      && (forall k :: first <= k < n ==> BeforeAttempt(g, first, k, world).phase == Closed)
      && (forall k :: first <= k < n - 1 ==> IsRetried(g, first, k, retries, world))
      && if n == first || IsRetried(g, first, n - 1, retries, world)
         then BeforeAttempt(g, first, n, world).phase != Closed && tried.guard == BeforeAttempt(g, first, n, world)
         else tried.guard == GuardAfter(AfterAttemptOf(g, first, n - 1, world), if RunsOut(n - 1, retries, world) then [Opens] else [])
    decreases retries - first
  {
    if g.phase == Closed {
      var h := Elapsed(g, world.during(first));
      assert BeforeAttempt(g, first, first, world) == g;
      if IsRetried(g, first, first, retries, world) {
        var next := Elapsed(h, world.waiting(first));
        InsertIsExactly(next, id, first + 1, retries, world);
        assert forall k :: first < k ==> BeforeAttempt(g, first, k, world) == BeforeAttempt(next, first + 1, k, world);
        assert forall k :: first < k ==> IsRetried(g, first, k, retries, world) == IsRetried(next, first + 1, k, retries, world);
      }
    }
  }

  ghost predicate IsQuiet(world: World) {
    forall k: nat :: world.during(k) == [] && world.waiting(k) == []
  }

  lemma {:induction false} NothingHappens(g: Guard, first: nat, k: nat, world: World)
    requires IsQuiet(world)
    ensures BeforeAttempt(g, first, k, world) == g && AfterAttemptOf(g, first, k, world) == g
    decreases k - first
  {
    assert world.during(k) == [];
    if k > first {
      assert world.during(first) == [] && world.waiting(first) == [];
      NothingHappens(g, first + 1, k, world);
    }
  }

  /** Left alone, an insert changes the circuit if and only if all its attempts were made and failed for now: it is down, and probed. */
  lemma OnlyRunningOutOpens(g: Guard, id: Id, retries: nat, world: World)
    requires IsQuiet(world) && g.phase == Closed
    ensures InsertFrom(g, id, 0, retries, world).guard ==
            if !g.stopped && forall k :: 0 <= k <= retries ==> world.reply(k) == FailsForNow then Guard(Down, false, Pending) else g
  {
    var n := InsertFrom(g, id, 0, retries, world).attempts;
    InsertIsExactly(g, id, 0, retries, world);
    forall k: nat ensures BeforeAttempt(g, 0, k, world) == g && AfterAttemptOf(g, 0, k, world) == g {
      NothingHappens(g, 0, k, world);
    }
    assert BeforeAttempt(g, 0, n, world) == g;
    assert AfterAttemptOf(g, 0, n - 1, world) == g;
    assert GuardAfter(g, [Opens]) == Open(g) by { assert [Opens][1..] == []; }
    if RunsOut(n - 1, retries, world) {
      forall k | 0 <= k <= retries ensures world.reply(k) == FailsForNow {
        if k < n - 1 { assert IsRetried(g, 0, k, retries, world); }
      }
    } else {
      assert !IsRetried(g, 0, n - 1, retries, world);
    }
  }

  class Breaker {
    var phase: Phase
    var probe: Probe
    var stopped: bool
    /** Messages waiting for their next attempt. */
    var retryWaits: set<nat>

    ghost function View(): Guard
      reads this
    {
      Guard(phase, stopped, probe)
    }

    constructor ()
      ensures View() == FRESH && retryWaits == {}
    {
      phase, probe, stopped, retryWaits := Closed, Idle, false, {};
    }

    method WakeRetries() returns (woken: set<nat>)
      modifies this`retryWaits
      ensures woken == old(retryWaits) && retryWaits == {}
    {
      woken, retryWaits := retryWaits, {};
    }

    method OpenCircuit() returns (woken: set<nat>)
      modifies this
      ensures View() == Open(old(View()))
      ensures if View() == old(View()) then woken == {} && retryWaits == old(retryWaits)
              else woken == old(retryWaits) && retryWaits == {}
    {
      woken := {};
      if phase == Down || stopped {
        return;
      }
      phase := Down;
      woken := WakeRetries();
      probe := Pending;
    }

    method CloseAfterRecovery()
      modifies this`phase
      ensures View() == FinishRecovery(old(View()))
    {
      if !stopped && phase == Recovering {
        phase := Closed;
      }
    }

    method StopForGood() returns (woken: set<nat>)
      modifies this
      ensures View() == Stop(old(View()))
      ensures woken == old(retryWaits) && retryWaits == {}
    {
      stopped := true;
      if probe == Pending {
        probe := Idle;
      }
      woken := WakeRetries();
    }

    /** Whether a probing write goes out. */
    method OnProbeTimer() returns (goes: bool)
      requires probe == Pending
      modifies this`probe
      ensures View() == ProbeTimerFires(old(View())) && goes == (phase == Down)
    {
      goes := phase == Down;
      probe := if goes then InFlight else Idle;
    }

    /** Whether the failed log is called for. */
    method OnProbed(written: bool) returns (answering: bool)
      requires probe == InFlight
      modifies this`phase, this`probe
      ensures View() == ProbeEnds(old(View()), written) && answering == Answers(old(View()), written)
    {
      answering := false;
      if !written {
        probe := if stopped then Idle else Pending;
        return;
      }
      probe := Idle;
      if stopped {
        return;
      }
      phase := Recovering;
      answering := true;
    }

    method Elapse(events: seq<GuardEvent>)
      modifies this
      ensures View() == Elapsed(old(View()), events)
    {
      for i := 0 to |events|
        invariant Elapsed(View(), events[i..]) == Elapsed(old(View()), events)
      {
        assert events[i..][1..] == events[i + 1..];
        match events[i]
        case Opens => var _ := OpenCircuit();
        case Finishes => CloseAfterRecovery();
        case Stops => var _ := StopForGood();
        case TimerFires =>
          if probe == Pending {
            var _ := OnProbeTimer();
          }
        case Probed(written) =>
          if probe == InFlight {
            var _ := OnProbed(written);
          }
      }
    }

    /** The attempts of a live message, one after another. */
    method Insert(id: Id, retries: nat, world: World) returns (ending: Ending, attempts: nat)
      modifies this
      ensures Tried(View(), ending, attempts) == InsertFrom(old(View()), id, 0, retries, world)
      ensures attempts <= retries + 1
    {
      attempts := 0;
      while true
        invariant attempts <= retries
        invariant InsertFrom(View(), id, attempts, retries, world) == InsertFrom(old(View()), id, 0, retries, world)
        decreases retries - attempts
      {
        if phase != Closed {
          return Rejects, attempts;
        }
        var attempt := attempts;
        Elapse(world.during(attempt));
        attempts := attempts + 1;
        match world.reply(attempt)
        case Says(result) => return Stores(SettleRetried(id, attempt, result)), attempts;
        case FailsForGood => return Rejects, attempts;
        case FailsForNow =>
          if attempt == retries {
            var _ := OpenCircuit();
            return Rejects, attempts;
          }
          if stopped {
            return Rejects, attempts;
          }
          Elapse(world.waiting(attempt));
      }
    }
  }
}

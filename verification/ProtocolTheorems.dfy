/** What every run of the inbound protocol guarantees. */
module ProtocolTheorems {
  import opened Options
  import opened MessageStore
  import opened MessageLedger
  import opened StoreGuard
  import opened InboundProtocol
  import opened ProtocolInvariants
  import opened WorldSteps
  import opened AnswerSteps
  import opened WatchSteps

  /** Some run of a new installation leads here. */
  ghost predicate Reachable(s: State) {
    exists retries, events :: IsRun(Init(retries), events) && After(Init(retries), events) == s
  }

  lemma {:induction false} RunKeeps(s: State, events: seq<Event>)
    requires Inv(s) && IsRun(s, events)
    ensures Inv(After(s, events))
    decreases |events|
  {
    hide Inv;
    if events != [] {
      StepKeeps(s, events[0]);
      RunKeeps(Step(s, events[0]), events[1..]);
    }
  }

  lemma ReachableHolds(s: State)
    requires Reachable(s)
    ensures Inv(s)
  {
    hide Inv;
    var retries, events :| IsRun(Init(retries), events) && After(Init(retries), events) == s;
    InitHolds(retries);
    RunKeeps(Init(retries), events);
  }

  /** Left unwatched from here on. */
  ghost predicate StaysUnwatched(s: State, events: seq<Event>, m: Msg)
    requires IsRun(s, events)
    decreases |events|
  {
    Unwatched(s, m) && (events == [] || StaysUnwatched(Step(s, events[0]), events[1..], m))
  }

  /** Some step of the run neglects it, and nothing looks at it after that. */
  ghost predicate NeglectedSince(s: State, events: seq<Event>, m: Msg)
    requires IsRun(s, events)
    decreases |events|
  {
    events != [] &&
    ((Neglects(s, events[0], m) && StaysUnwatched(Step(s, events[0]), events[1..], m)) ||
     NeglectedSince(Step(s, events[0]), events[1..], m))
  }

  lemma {:induction false} RunWatches(s: State, events: seq<Event>, m: Msg)
    requires Inv(s) && RecoveriesLeaveATimer(s) && IsRun(s, events)
    ensures Unwatched(After(s, events), m) <==> StaysUnwatched(s, events, m) || NeglectedSince(s, events, m)
    decreases |events|
  {
    hide Inv, RecoveriesLeaveATimer, Step, Enabled, Unwatched, Neglects;
    if events != [] {
      StepKeeps(s, events[0]);
      StepWatched(s, events[0], m);
      if Unwatched(s, m) { UnwatchedIsNotNeglected(s, events[0], m); }
      RunWatches(Step(s, events[0]), events[1..], m);
      if StaysUnwatched(Step(s, events[0]), events[1..], m) { StartsUnwatched(Step(s, events[0]), events[1..], m); }
    }
  }

  lemma StartsUnwatched(s: State, events: seq<Event>, m: Msg)
    requires IsRun(s, events) && StaysUnwatched(s, events, m)
    ensures Unwatched(s, m)
  {
  }

  lemma UnwatchedIsNotNeglected(s: State, e: Event, m: Msg)
    requires Unwatched(s, m)
    ensures !Neglects(s, e, m)
  {
  }

  // ── Nothing is lost ──────────────────────────────────────────────

  /**
   * Every message given to `handle()` is still remembered, or on its way out through `drain`, or on disk, or its
   * end was decided; only what memory alone held when an earlier process died is none of these, and what is on disk
   * or decided survives a death.
   */
  lemma NothingAcceptedIsLost(s: State, m: Msg)
    requires Reachable(s) && m < |s.arrivals|
    ensures m in s.unsaved || m in s.left || Safe(s.arrivals, s.ledger.handed, s.file, s.fates, m) || m in s.fates.died
    ensures m in s.fates.died ==> m < s.runStart
    ensures m in Crash(s).fates.died ==> m in s.unsaved || m in s.left || m in s.fates.died
    ensures Safe(s.arrivals, s.ledger.handed, s.file, s.fates, m) ==>
              var t := Crash(s); Safe(t.arrivals, t.ledger.handed, t.file, t.fates, m)
  {
    ReachableHolds(s);
  }

  /** When `drain` returns, nothing accepted before its snapshot exists only in memory. */
  lemma DrainLeavesNothingInMemory(s: State, m: Msg)
    requires Reachable(s) && s.drain.Drained? && s.runStart <= m < s.drain.snapshot
    ensures m < |s.arrivals| && Safe(s.arrivals, s.ledger.handed, s.file, s.fates, m)
  {
    ReachableHolds(s);
  }

  /**
   * Until a shutdown begins, nothing waits in the failed log with nobody to look at it: a timer is set, or a pass has
   * read it or will, or its own write-off is not over, or the circuit is open, and watched. It is otherwise if and only if
   * a step of the run neglected it and nothing looked at it since.
   */
  lemma NothingWaitsUnwatched(retries: nat, events: seq<Event>, m: Msg)
    requires IsRun(Init(retries), events)
    ensures Unwatched(After(Init(retries), events), m) <==> NeglectedSince(Init(retries), events, m)
    ensures var t := After(Init(retries), events);
      && (!t.guard.stopped && t.guard.phase == Down ==> t.guard.probe != Idle)
      && (!t.guard.stopped && t.guard.phase == Recovering ==>
            (exists i :: 0 <= i < |t.passes| && t.passes[i].caller.Recover?) ||
            (exists i :: 0 <= i < |t.ended| && t.ended[i].caller.Recover?))
  {
    hide Inv, RecoveriesLeaveATimer, Unwatched, NeglectedSince;
    var s, t := Init(retries), After(Init(retries), events);
    InitHolds(retries);
    InitWatched(retries);
    RunWatches(s, events, m);
    InitIsEmpty(retries, events, m);
    RunKeeps(s, events);
    if !t.guard.stopped { TheCircuitIsWatched(t); }
  }

  lemma InitIsEmpty(retries: nat, events: seq<Event>, m: Msg)
    requires IsRun(Init(retries), events)
    ensures !StaysUnwatched(Init(retries), events, m)
  {
  }

  // ── Numbers ──────────────────────────────────────────────────────

  /**
   * The log is dense: the numbers of an account are 1 to its counter, each with one message, and each message has one,
   * unless retention removed its row while it could still be stored.
   */
  lemma NumbersAreDense(s: State, account: Account)
    requires Reachable(s)
    ensures var n := CounterOf(s.ledger.store.counters, account);
      && n == |HandedTo(s.ledger.handed, account)|
      && (forall i :: 0 <= i < n ==> Numbered(s.arrivals, s.ledger.handed, HandedTo(s.ledger.handed, account)[i], i + 1))
    ensures forall m, a, b :: Numbered(s.arrivals, s.ledger.handed, m, a) && Numbered(s.arrivals, s.ledger.handed, m, b) ==>
              a == b || m in s.past.forgotten
  {
    ReachableHolds(s);
    var h := HandedTo(s.ledger.handed, account);
    forall i | 0 <= i < |h| ensures Numbered(s.arrivals, s.ledger.handed, h[i], i + 1) {
      assert h[i] in h;
    }
  }

  /**
   * Offering an entry again, after a crash or a pass whose outcome was not written down, changes nothing, exactly while
   * its message is in the log; and it is, unless retention removed its row. Then it gets one more number.
   */
  lemma OfferingAgainIsNothing(s: State, m: Msg, now: int)
    requires Reachable(s) && m in s.file && InLog(s.arrivals, s.ledger.handed, m)
    ensures Commit(s.ledger, s.arrivals[m], now).0 == s.ledger <==> Stored(s.ledger.store.rows, s.arrivals[m])
    ensures m !in s.past.forgotten ==> Stored(s.ledger.store.rows, s.arrivals[m])
    ensures !Stored(s.ledger.store.rows, s.arrivals[m]) ==>
              var more := Commit(s.ledger, s.arrivals[m], now).0.handed;
              exists number, again :: number < again && Numbered(s.arrivals, more, m, number) && Numbered(s.arrivals, more, m, again)
  {
    ReachableHolds(s);
    var (l', result) := Commit(s.ledger, s.arrivals[m], now);
    var h := HandedTo(s.ledger.handed, s.arrivals[m].account);
    CommitEffect(s.ledger, s.arrivals[m], now);
    if m !in s.past.forgotten {
      assert HasRow(s.ledger.store.rows, m);
      var k :| k in s.ledger.store.rows && s.ledger.store.rows[k].id == m;
      assert SameMessage(s.ledger.store.rows[k], s.arrivals[m]);
    }
    if !Stored(s.ledger.store.rows, s.arrivals[m]) {
      var i :| 0 <= i < |h| && h[i] == m;
      assert HandedTo(l'.handed, s.arrivals[m].account) == h + [m];
      assert Numbered(s.arrivals, l'.handed, m, i + 1) && Numbered(s.arrivals, l'.handed, m, |h| + 1);
    }
  }

  // ── What is emitted ──────────────────────────────────────────────

  /** Per account in order of arrival, each message once, numbers growing; never a message found to be a duplicate. */
  lemma EmittedOnceInOrder(s: State, i: nat, j: nat)
    requires Reachable(s) && i < j < |s.emitted| && SameAccount(s.arrivals, s.emitted[i].m, s.emitted[j].m)
    ensures s.emitted[i].m < s.emitted[j].m
    ensures s.emitted[i].number.Some? && s.emitted[j].number.Some? ==> s.emitted[i].number.value < s.emitted[j].number.value
    ensures s.emitted[i].m !in s.fates.duplicates && s.emitted[j].m !in s.fates.duplicates
  {
    ReachableHolds(s);
  }

  /** Persisted before emitted: the log has the message under the number emitted, and something under every number below. */
  lemma EmittedNumbersAreInTheLog(s: State, i: nat)
    requires Reachable(s) && i < |s.emitted| && s.emitted[i].number.Some?
    ensures var m, n := s.emitted[i].m, s.emitted[i].number.value;
      && Numbered(s.arrivals, s.ledger.handed, m, n)
      && forall i :: 0 <= i < n ==>
           Numbered(s.arrivals, s.ledger.handed, HandedTo(s.ledger.handed, s.arrivals[m].account)[i], i + 1)
  {
    ReachableHolds(s);
    NumbersAreDense(s, s.arrivals[s.emitted[i].m].account);
  }

  /**
   * What a message ends as: emitted with the number the log has it under, or in silence because the log has another
   * under its WhatsApp id; or emitted with none, and then it is in the failed log or somewhere as safe.
   */
  lemma EndsAsItIs(s: State, m: Msg)
    requires Reachable(s) && m < |s.stage| && (s.stage[m].Answered? || s.stage[m] == WrittenOff)
    ensures s.stage[m].Answered? && s.stage[m].result.Inserted? ==>
              Conclude(s, m).emitted == s.emitted + [Emission(m, Some(s.stage[m].result.accountSeq))] &&
              Numbered(s.arrivals, s.ledger.handed, m, s.stage[m].result.accountSeq)
    ensures s.stage[m].Answered? && !s.stage[m].result.Inserted? ==>
              Conclude(s, m).emitted == s.emitted && s.stage[m].result.Duplicate? && s.stage[m].result.storedId != m
    ensures s.stage[m] == WrittenOff ==>
              Conclude(s, m).emitted == s.emitted + [Emission(m, None)] &&
              (m in s.left || m in s.fates.died || Safe(s.arrivals, s.ledger.handed, s.file, s.fates, m))
  {
    ReachableHolds(s);
  }

  /** A lost answer costs a message nothing: the retry that reaches the log finds its number, and it is emitted with it. */
  lemma LostAnswerCostsNothing(s: State, m: Msg, now: int)
    requires Reachable(s) && m < |s.stage| && m < |s.arrivals| && s.stage[m].Attempting? && InLog(s.arrivals, s.ledger.handed, m)
    requires m !in s.past.forgotten
    ensures var t := Answer(s, m, CommitAnswered(now));
      && t.ledger == s.ledger && t.stage[m].Answered? && t.stage[m].result.Inserted?
      && Numbered(s.arrivals, s.ledger.handed, m, t.stage[m].result.accountSeq)
      && Conclude(t, m).emitted == s.emitted + [Emission(m, Some(t.stage[m].result.accountSeq))]
  {
    hide Inv, Numbered, AfterAttempt, SettleRetried, Commit, Reachable;
    ReachableHolds(s);
    RetryFindsItsNumber(s, m, now);
  }

  // ── The circuit ──────────────────────────────────────────────────

  /** Open, one probe is pending or in flight; recovering, a recovery is under way; and no message is tried more than its share. */
  lemma TheCircuitIsWatched(s: State)
    requires Reachable(s) && !s.guard.stopped
    ensures s.guard.phase == Down <==> s.guard.probe != Idle
    ensures s.guard.phase == Recovering ==>
              (exists i :: 0 <= i < |s.passes| && s.passes[i].caller.Recover?) ||
              (exists i :: 0 <= i < |s.ended| && s.ended[i].caller.Recover?)
    ensures forall m :: 0 <= m < |s.stage| && s.stage[m].Attempting? ==> s.stage[m].attempt <= s.retries
  {
    ReachableHolds(s);
  }

  /** In every pass, of each account the entries that leave come before the entries that stay. */
  lemma WhatStaysIsASuffix(s: State, j: nat, i: nat)
    requires Reachable(s) && Processing(s.passes)
    requires j < i < |s.passes[0].work.outcomes| <= |s.passes[0].work.lines|
    requires SameAccount(s.arrivals, s.passes[0].work.lines[j], s.passes[0].work.lines[i])
    requires s.passes[0].work.outcomes[j] == Kept
    ensures s.passes[0].work.outcomes[i] == Kept
  {
    ReachableHolds(s);
  }
}

/**
 The rows of the log against the messages that arrived: a message is there under one number at a time. This has an
 induction of its own, on top of the other invariants.
 */
module DuplicateSteps {
  import opened MessageStore
  import opened MessageLedger
  import opened StoreGuard
  import opened InboundProtocol
  import opened ProtocolInvariants
  import opened WorkSteps
  import opened WorldSteps
  import opened ProtocolTheorems

  /** The same message by either of its ids. */
  predicate SameAs(arrivals: seq<Envelope>, m: Msg, other: Msg) {
    SameAccount(arrivals, m, other) &&
    (m == other || (WaMessageIdOf(arrivals[m]).Some? && WaMessageIdOf(arrivals[m]) == WaMessageIdOf(arrivals[other])))
  }

  /** A row says of a message what its envelope says. */
  ghost predicate RowsAreTrue(arrivals: seq<Envelope>, rows: Rows) {
    forall k :: k in rows ==>
      && rows[k].id < |arrivals|
      && arrivals[rows[k].id].account == k.0
      && rows[k].wa == WaMessageIdOf(arrivals[rows[k].id])
  }

  /** When a message is numbered again, by either of its ids, the row of the number before is gone. */
  ghost predicate OneRowAtATime(arrivals: seq<Envelope>, l: Ledger) {
    forall a, i, j | 0 <= i < j < |HandedTo(l.handed, a)| && SameAs(arrivals, HandedTo(l.handed, a)[i], HandedTo(l.handed, a)[j]) ::
      (a, i + 1) !in l.store.rows
  }

  ghost predicate LogIsTrue(arrivals: seq<Envelope>, l: Ledger) {
    RowsAreTrue(arrivals, l.store.rows) && OneRowAtATime(arrivals, l)
  }

  // ── The log ──────────────────────────────────────────────────────

  lemma ArrivalKeepsTrue(arrivals: seq<Envelope>, envelope: Envelope, l: Ledger)
    requires LogIsTrue(arrivals, l) && HandedKnown(arrivals, l.handed)
    ensures LogIsTrue(arrivals + [envelope], l)
  {
    var more := arrivals + [envelope];
    forall a, i, j | 0 <= i < j < |HandedTo(l.handed, a)| && SameAs(more, HandedTo(l.handed, a)[i], HandedTo(l.handed, a)[j])
      ensures (a, i + 1) !in l.store.rows
    {
      var h := HandedTo(l.handed, a);
      assert h[i] in h && h[j] in h;
      assert SameAs(arrivals, h[i], h[j]);
    }
  }

  lemma ForgettingKeepsTrue(arrivals: seq<Envelope>, l: Ledger, keys: set<(Account, nat)>)
    requires LogIsTrue(arrivals, l)
    ensures LogIsTrue(arrivals, Forget(l, keys))
  {
    assert forall k :: k in Forget(l, keys).store.rows ==> k in l.store.rows && Forget(l, keys).store.rows[k] == l.store.rows[k];
  }

  /** The row an earlier number left is the same message's. */
  lemma RowIsSameMessage(arrivals: seq<Envelope>, l: Ledger, m: Msg, a: Account, i: nat)
    requires RowsAreTrue(arrivals, l.store.rows) && Valid(l) && i < |HandedTo(l.handed, a)| && (a, i + 1) in l.store.rows
    requires SameAs(arrivals, HandedTo(l.handed, a)[i], m) && arrivals[m].id == m
    ensures Stored(l.store.rows, arrivals[m])
  {
    assert l.store.rows[(a, i + 1)].id == HandedTo(l.handed, a)[i];
    assert SameMessage(l.store.rows[(a, i + 1)], arrivals[m]);
  }

  lemma CommitKeepsRowsTrue(arrivals: seq<Envelope>, l: Ledger, m: Msg, now: int)
    requires Valid(l) && RowsAreTrue(arrivals, l.store.rows) && m < |arrivals| && arrivals[m].id == m
    ensures RowsAreTrue(arrivals, Commit(l, arrivals[m], now).0.store.rows)
  {
    hide Commit;
    CommitEffect(l, arrivals[m], now);
  }

  lemma CommitKeepsTrue(arrivals: seq<Envelope>, l: Ledger, m: Msg, now: int)
    requires Valid(l) && LogIsTrue(arrivals, l) && m < |arrivals| && arrivals[m].id == m
    ensures LogIsTrue(arrivals, Commit(l, arrivals[m], now).0)
  {
    hide Commit, Valid, RowsAreTrue, SameAs;
    CommitKeepsRowsTrue(arrivals, l, m, now);
    CommitEffect(l, arrivals[m], now);
    var (l', result) := Commit(l, arrivals[m], now);
    if result.Inserted? {
      forall a, i, j | 0 <= i < j < |HandedTo(l'.handed, a)| && SameAs(arrivals, HandedTo(l'.handed, a)[i], HandedTo(l'.handed, a)[j])
        ensures (a, i + 1) !in l'.store.rows
      {
        var h := HandedTo(l.handed, a);
        assert HandedTo(l'.handed, a)[i] == h[i];
        if j == |h| {
          assert HandedTo(l'.handed, a)[j] == m;
          if (a, i + 1) in l.store.rows { RowIsSameMessage(arrivals, l, m, a, i); }
        } else {
          assert HandedTo(l'.handed, a)[j] == h[j];
        }
      }
    }
  }

  // ── Every step ───────────────────────────────────────────────────

  predicate TouchesTheLog(e: Event) {
    e.StoreAnswers? || e.LineAnswered? || e.Retains? || e.Handles?
  }

  predicate SameLog(s: State, t: State) {
    t.ledger == s.ledger && t.arrivals == s.arrivals
  }

  lemma LiveStepsLeaveTheLog(s: State, e: Event)
    requires Enabled(s, e) && IsLive(e) && !TouchesTheLog(e)
    ensures SameLog(s, Step(s, e))
  {
    hide ItsTurn;
  }

  lemma FileLeavesTheLog(s: State, ok: bool)
    requires FileOpReady(s)
    ensures SameLog(s, FileStep(s, ok))
  {
    hide LinesThat, AccountsOf, LetGoOf, Elements;
  }

  lemma LinesLeaveTheLog(s: State, e: Event)
    requires Enabled(s, e) && (e.PassBegins? || e.Judges? || e.LineProbes? || e.LinesEnd?)
    ensures SameLog(s, Step(s, e))
  {
    hide LinesThat, AccountsOf, LetGoOf, HeldBack;
  }

  lemma OthersLeaveTheLog(s: State, e: Event)
    requires Enabled(s, e) && !TouchesTheLog(e) && !IsLive(e) && !e.FileWorks?
    requires !(e.PassBegins? || e.Judges? || e.LineProbes? || e.LinesEnd?)
    ensures SameLog(s, Step(s, e))
  {
    hide AccountsOf, Restarted;
  }

  lemma TheRestLeaveTheLog(s: State, e: Event)
    requires Enabled(s, e) && !TouchesTheLog(e)
    ensures SameLog(s, Step(s, e))
  {
    hide FileStep, SameLog;
    if IsLive(e) {
      LiveStepsLeaveTheLog(s, e);
    } else if e.FileWorks? {
      FileLeavesTheLog(s, e.ok);
    } else if e.PassBegins? || e.Judges? || e.LineProbes? || e.LinesEnd? {
      LinesLeaveTheLog(s, e);
    } else {
      OthersLeaveTheLog(s, e);
    }
  }

  /** What a step leaves in the log. */
  ghost function LogAfterStep(s: State, e: Event): Ledger
    requires Enabled(s, e)
  {
    match e
    case StoreAnswers(m, outcome) => AfterAttempt(s.ledger, s.arrivals[m], outcome)
    case LineAnswered(outcome) => AfterAttempt(s.ledger, s.arrivals[CurrentLine(s)], outcome)
    case Retains(keys) => Forget(s.ledger, keys)
    case _ => s.ledger
  }

  lemma StepLeavesLog(s: State, e: Event)
    requires Enabled(s, e)
    ensures Step(s, e).ledger == LogAfterStep(s, e)
    ensures Step(s, e).arrivals == if e.Handles? then s.arrivals + [e.envelope] else s.arrivals
  {
    hide AfterAttempt, Forget, Answer, LineAnswer, Retention;
    match e
    case StoreAnswers(m, outcome) => AnswerLeavesLog(s, m, outcome);
    case LineAnswered(outcome) => LineLeavesLog(s, outcome);
    case Retains(keys) => RetentionLeavesLog(s, keys);
    case Handles(_) =>
    case _ => TheRestLeaveTheLog(s, e);
  }

  lemma AnswerLeavesLog(s: State, m: Msg, outcome: StoreOutcome)
    requires AtStage(s, m) && s.stage[m].Attempting?
    ensures var t := Answer(s, m, outcome);
      t.ledger == AfterAttempt(s.ledger, s.arrivals[m], outcome) && t.arrivals == s.arrivals
  {
    hide SettleRetried, AfterAttempt, Commit;
  }

  lemma LineLeavesLog(s: State, outcome: StoreOutcome)
    requires OnLine(s, Inserting)
    ensures var t := LineAnswer(s, outcome);
      t.ledger == AfterAttempt(s.ledger, s.arrivals[CurrentLine(s)], outcome) && t.arrivals == s.arrivals
  {
    hide AfterAttempt, Gives, Commit;
  }

  lemma RetentionLeavesLog(s: State, keys: set<(Account, nat)>)
    ensures Retention(s, keys).ledger == Forget(s.ledger, keys) && Retention(s, keys).arrivals == s.arrivals
  {
    hide Forget, ForgottenBy;
  }

  lemma LogParts(s: State)
    requires Inv(s)
    ensures Valid(s.ledger) && HandedKnown(s.arrivals, s.ledger.handed)
    ensures forall m :: 0 <= m < |s.arrivals| ==> s.arrivals[m].id == m
  {
  }

  lemma AttemptKeepsTrue(arrivals: seq<Envelope>, l: Ledger, m: Msg, outcome: StoreOutcome)
    requires Valid(l) && LogIsTrue(arrivals, l) && m < |arrivals| && arrivals[m].id == m
    ensures LogIsTrue(arrivals, AfterAttempt(l, arrivals[m], outcome))
  {
    hide Valid, LogIsTrue, Commit;
    if !outcome.NoCommit? { CommitKeepsTrue(arrivals, l, m, outcome.now); }
  }

  lemma StepKeepsTrue(s: State, e: Event)
    requires Inv(s) && Enabled(s, e) && LogIsTrue(s.arrivals, s.ledger)
    ensures var t := Step(s, e); LogIsTrue(t.arrivals, t.ledger)
  {
    hide Inv, LogIsTrue, Valid, HandedKnown, Forget, AfterAttempt, Step;
    LogParts(s);
    StepLeavesLog(s, e);
    match e
    case Handles(envelope) => ArrivalKeepsTrue(s.arrivals, envelope, s.ledger);
    case StoreAnswers(m, outcome) => AttemptKeepsTrue(s.arrivals, s.ledger, m, outcome);
    case LineAnswered(outcome) => AttemptKeepsTrue(s.arrivals, s.ledger, CurrentLine(s), outcome);
    case Retains(keys) => ForgettingKeepsTrue(s.arrivals, s.ledger, keys);
    case _ =>
  }

  lemma {:induction false} RunsKeepTrue(s: State, events: seq<Event>)
    requires Inv(s) && LogIsTrue(s.arrivals, s.ledger) && IsRun(s, events)
    ensures LogIsTrue(After(s, events).arrivals, After(s, events).ledger)
    decreases |events|
  {
    hide Inv, LogIsTrue, Step, Enabled;
    if events != [] {
      StepKeeps(s, events[0]);
      StepKeepsTrue(s, events[0]);
      RunsKeepTrue(Step(s, events[0]), events[1..]);
    }
  }

  lemma ReachableIsTrue(s: State)
    requires Reachable(s)
    ensures LogIsTrue(s.arrivals, s.ledger)
  {
    hide Inv;
    var retries, events :| IsRun(Init(retries), events) && After(Init(retries), events) == s;
    InitHolds(retries);
    RunsKeepTrue(Init(retries), events);
  }

  lemma AttemptsRemoveNothing(l: Ledger, envelope: Envelope, outcome: StoreOutcome, k: (Account, nat))
    requires Valid(l) && k in l.store.rows
    ensures var l' := AfterAttempt(l, envelope, outcome); k in l'.store.rows && l'.store.rows[k] == l.store.rows[k]
  {
    hide Valid, Commit;
    if !outcome.NoCommit? { CommitEffect(l, envelope, outcome.now); }
  }

  /** A row leaves the log through retention alone, and no row ever changes. */
  lemma OnlyRetentionRemoves(s: State, e: Event, k: (Account, nat))
    requires Inv(s) && Enabled(s, e) && k in s.ledger.store.rows && (e.Retains? ==> k !in e.keys)
    ensures k in Step(s, e).ledger.store.rows && Step(s, e).ledger.store.rows[k] == s.ledger.store.rows[k]
  {
    hide Inv, Valid, HandedKnown, AfterAttempt, Step;
    LogParts(s);
    StepLeavesLog(s, e);
    match e
    case StoreAnswers(m, outcome) => AttemptsRemoveNothing(s.ledger, s.arrivals[m], outcome, k);
    case LineAnswered(outcome) => AttemptsRemoveNothing(s.ledger, s.arrivals[CurrentLine(s)], outcome, k);
    case _ =>
  }
}

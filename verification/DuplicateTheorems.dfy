/**
 What is emitted, and what becomes of a duplicate. The class comment of the pipeline says it is not emitted; that holds
 exactly of those whose attempt is answered while the log has the other. One that is refused and written off is emitted
 like any message, without a number.
 */
module DuplicateTheorems {
  import opened Options
  import opened MessageStore
  import opened MessageLedger
  import opened StoreGuard
  import opened InboundProtocol
  import opened ProtocolInvariants
  import opened CommitLemmas
  import opened WorkSteps
  import opened WorldSteps
  import opened ProtocolTheorems
  import opened DuplicateSteps

  // ── Emitted with a number ────────────────────────────────────────

  /**
   * Of two messages an account emitted with a number, the later is not the earlier one again, by either of its ids,
   * unless retention removed the earlier one's row.
   */
  lemma NumberedEmissionsAreDistinct(s: State, i: nat, j: nat)
    requires Reachable(s) && i < j < |s.emitted| && s.emitted[i].number.Some? && s.emitted[j].number.Some?
    requires SameAs(s.arrivals, s.emitted[i].m, s.emitted[j].m)
    ensures (s.arrivals[s.emitted[i].m].account, s.emitted[i].number.value) !in s.ledger.store.rows
  {
    EmittedOnceInOrder(s, i, j);
    EmittedNumbersAreInTheLog(s, i);
    EmittedNumbersAreInTheLog(s, j);
    ReachableIsTrue(s);
    var h := HandedTo(s.ledger.handed, s.arrivals[s.emitted[i].m].account);
    var p, q := s.emitted[i].number.value - 1, s.emitted[j].number.value - 1;
    assert h[p] == s.emitted[i].m && h[q] == s.emitted[j].m;
  }

  // ── A message the log has under another id ───────────────────────

  predicate IsEmitted(emitted: seq<Emission>, m: Msg) {
    exists i :: 0 <= i < |emitted| && emitted[i].m == m
  }

  /** An attempt of it gets an answer. */
  predicate IsAnsweredBy(e: Event, m: Msg) {
    e.StoreAnswers? && e.m == m && e.outcome.CommitAnswered?
  }

  predicate IsAnswered(events: seq<Event>, m: Msg) {
    exists i :: 0 <= i < |events| && IsAnsweredBy(events[i], m)
  }

  /** The answer is that the log has the message, and not under its id. */
  ghost predicate IsSilencedBy(s: State, e: Event, m: Msg) {
    IsAnsweredBy(e, m) && m < |s.arrivals| && Stored(s.ledger.store.rows, s.arrivals[m]) && !HasRow(s.ledger.store.rows, m)
  }

  ghost predicate IsSilenced(s: State, events: seq<Event>, m: Msg)
    requires IsRun(s, events)
    decreases |events|
  {
    events != [] && (IsSilencedBy(s, events[0], m) || IsSilenced(Step(s, events[0]), events[1..], m))
  }

  /** The row at `k` is the message's, under another id, and the message never got a number of its own. */
  ghost predicate IsDuplicateOf(arrivals: seq<Envelope>, l: Ledger, m: Msg, k: (Account, nat)) {
    m < |arrivals| && k in l.store.rows && SameMessage(l.store.rows[k], arrivals[m]) && l.store.rows[k].id != m &&
    !InLog(arrivals, l.handed, m)
  }

  predicate HasAnswer(stage: Stage, silenced: bool) {
    (silenced <==> stage.Answered? && stage.result.Duplicate?) && (stage.Answered? ==> !stage.result.Refused?)
  }

  /** On its way, or over: emitted exactly if no answer silenced it. */
  ghost predicate Fares(stage: seq<Stage>, emitted: seq<Emission>, m: Msg, silenced: bool) {
    m < |stage| &&
    if stage[m] == Done then IsEmitted(emitted, m) <==> !silenced
    else !IsEmitted(emitted, m) && stage[m] != Queued && stage[m] != Enriching && HasAnswer(stage[m], silenced)
  }

  /** Neither a death nor the removal of the row. */
  predicate IsUndisturbed(e: Event, k: (Account, nat)) {
    !e.Crashes? && (e.Retains? ==> k !in e.keys)
  }

  // ── The log ──────────────────────────────────────────────────────

  /** Offered to the log it changes nothing, and the answer names the other. */
  lemma DuplicateIsFound(arrivals: seq<Envelope>, l: Ledger, m: Msg, k: (Account, nat), now: int)
    requires Valid(l) && HandedKnown(arrivals, l.handed) && IsDuplicateOf(arrivals, l, m, k) && arrivals[m].id == m
    ensures Commit(l, arrivals[m], now).0 == l
    ensures Commit(l, arrivals[m], now).1.Duplicate? && Commit(l, arrivals[m], now).1.storedId != m
  {
    hide Commit;
    CommitEffect(l, arrivals[m], now);
    if own :| own in l.store.rows && l.store.rows[own].id == m { RowMeansHanded(arrivals, l, own); }
  }

  lemma AttemptKeepsDuplicate(arrivals: seq<Envelope>, l: Ledger, other: Msg, outcome: StoreOutcome, m: Msg, k: (Account, nat))
    requires Valid(l) && HandedKnown(arrivals, l.handed) && IsDuplicateOf(arrivals, l, m, k)
    requires other < |arrivals| && arrivals[m].id == m && arrivals[other].id == other
    ensures IsDuplicateOf(arrivals, AfterAttempt(l, arrivals[other], outcome), m, k)
  {
    hide Valid, HandedKnown, Commit, Grows, RowsGrow, SameMessage;
    AttemptsRemoveNothing(l, arrivals[other], outcome, k);
    if !outcome.NoCommit? {
      if other == m {
        DuplicateIsFound(arrivals, l, m, k, outcome.now);
      } else {
        var l' := Commit(l, arrivals[other], outcome.now).0;
        CommitGrows(arrivals, l, other, outcome.now);
        if l' != l { LogGrows(arrivals, l.handed, l'.handed, other); }
      }
    }
  }

  lemma StepKeepsDuplicate(s: State, e: Event, m: Msg, k: (Account, nat))
    requires Inv(s) && Enabled(s, e) && IsUndisturbed(e, k) && IsDuplicateOf(s.arrivals, s.ledger, m, k)
    ensures IsDuplicateOf(Step(s, e).arrivals, Step(s, e).ledger, m, k)
  {
    hide Inv, Valid, HandedKnown, AfterAttempt, Step;
    LogParts(s);
    StepLeavesLog(s, e);
    match e
    case StoreAnswers(other, outcome) => AttemptKeepsDuplicate(s.arrivals, s.ledger, other, outcome, m, k);
    case LineAnswered(outcome) => AttemptKeepsDuplicate(s.arrivals, s.ledger, CurrentLine(s), outcome, m, k);
    case _ =>
  }

  // ── The queue ────────────────────────────────────────────────────

  /** The step is not about this message. */
  predicate IsAboutOthers(s: State, e: Event, m: Msg) {
    match e
    case Starts(other) => other != m
    case EnrichEnds(other, _) => other != m
    case ResolveEnds(other) => other != m
    case StoreAnswers(other, _) => other != m
    case Fails(other) => other != m
    case Wakes(other) => other != m
    case WritesOff(other) => other != m
    case AppendIsOver(other) => other != m
    case Concludes(other) => other != m
    case FileWorks(_) => s.fileTurn == [] || s.fileTurn[0] != Append(m)
    case PersistContinues(i) => i >= |s.ended| || s.ended[i].caller != Persist(m)
    case Crashes => false
    case _ => true
  }

  predicate SameFor(s: State, t: State, m: Msg) {
    && m < |s.stage| && m < |t.stage| && t.stage[m] == s.stage[m]
    && (t.emitted == s.emitted ||
        (|t.emitted| == |s.emitted| + 1 && t.emitted[..|s.emitted|] == s.emitted && t.emitted[|s.emitted|].m != m))
  }

  lemma EarlyForOthers(s: State, e: Event, m: Msg)
    requires Enabled(s, e) && IsAboutOthers(s, e, m) && m < |s.stage|
    requires e.Handles? || e.Starts? || e.EnrichEnds? || e.ResolveEnds? || e.Wakes?
    ensures SameFor(s, Step(s, e), m)
  {
    hide ItsTurn;
  }

  lemma LateForOthers(s: State, e: Event, m: Msg)
    requires Enabled(s, e) && IsAboutOthers(s, e, m) && m < |s.stage|
    requires e.StoreAnswers? || e.Fails? || e.WritesOff? || e.AppendIsOver? || e.Concludes?
    ensures SameFor(s, Step(s, e), m)
  {
    hide AfterAttempt, SettleRetried, Commit, Conclude, AfterWriteOff;
    if e.Concludes? {
      ConcludesForOthers(s, e.m, m);
    } else if e.AppendIsOver? || (e.WritesOff? && e.m !in s.unsaved) {
      AfterWriteOffForOthers(if e.AppendIsOver? then s.(unsaved := s.unsaved - {e.m}) else s, e.m, m);
    }
  }

  lemma ConcludesForOthers(s: State, other: Msg, m: Msg)
    requires other < |s.stage| && m < |s.stage| && other != m
    ensures SameFor(s, Conclude(s, other), m)
  {
  }

  lemma AfterWriteOffForOthers(s: State, other: Msg, m: Msg)
    requires other < |s.stage| && m < |s.stage| && other != m
    ensures SameFor(s, AfterWriteOff(s, other), m)
  {
  }

  lemma FileForOthers(s: State, e: Event, m: Msg)
    requires Enabled(s, e) && e.FileWorks? && IsAboutOthers(s, e, m) && m < |s.stage|
    ensures SameFor(s, Step(s, e), m)
  {
    hide LinesThat, AccountsOf, LetGo, LetGoOf, Elements;
  }

  lemma LinesForOthers(s: State, e: Event, m: Msg)
    requires Enabled(s, e) && m < |s.stage|
    requires e.PassBegins? || e.Judges? || e.LineAnswered? || e.LineProbes? || e.LinesEnd?
    ensures SameFor(s, Step(s, e), m)
  {
    hide LinesThat, AccountsOf, LetGo, LetGoOf, HeldBack, Gives, AfterAttempt, Commit;
  }

  lemma RestForOthers(s: State, e: Event, m: Msg)
    requires Enabled(s, e) && IsAboutOthers(s, e, m) && m < |s.stage| && !IsLive(e) && !e.FileWorks?
    requires !(e.PassBegins? || e.Judges? || e.LineAnswered? || e.LineProbes? || e.LinesEnd?)
    ensures SameFor(s, Step(s, e), m)
  {
    hide AccountsOf, ForgottenBy;
  }

  lemma OthersLeaveIt(s: State, e: Event, m: Msg)
    requires Enabled(s, e) && IsAboutOthers(s, e, m) && m < |s.stage|
    ensures SameFor(s, Step(s, e), m)
  {
    hide Enabled, Step, IsAboutOthers, SameFor;
    if e.Handles? || e.Starts? || e.EnrichEnds? || e.ResolveEnds? || e.Wakes? {
      EarlyForOthers(s, e, m);
    } else if IsLive(e) {
      LateForOthers(s, e, m);
    } else if e.FileWorks? {
      FileForOthers(s, e, m);
    } else if e.PassBegins? || e.Judges? || e.LineAnswered? || e.LineProbes? || e.LinesEnd? {
      LinesForOthers(s, e, m);
    } else {
      RestForOthers(s, e, m);
    }
  }

  lemma SameForFares(s: State, t: State, m: Msg, silenced: bool)
    requires Fares(s.stage, s.emitted, m, silenced) && SameFor(s, t, m)
    ensures Fares(t.stage, t.emitted, m, silenced)
  {
    assert forall i :: 0 <= i < |s.emitted| ==> t.emitted[i] == s.emitted[i];
    assert IsEmitted(t.emitted, m) == IsEmitted(s.emitted, m);
  }

  // ── Its own steps ────────────────────────────────────────────────

  /** Its stage changes, short of its end. */
  lemma MovesOn(s: State, t: State, m: Msg, silenced: bool, silenced': bool)
    requires Fares(s.stage, s.emitted, m, silenced) && s.stage[m] != Done && t.emitted == s.emitted
    requires m < |t.stage| && t.stage[m] != Done && t.stage[m] != Queued && t.stage[m] != Enriching
    requires HasAnswer(t.stage[m], silenced')
    ensures Fares(t.stage, t.emitted, m, silenced')
  {
  }

  /** A row of its own means an earlier attempt, and then the answer is settled as its own. */
  lemma OwnRowMeansRetried(s: State, m: Msg)
    requires Inv(s) && AtStage(s, m) && s.stage[m].Attempting? && HasRow(s.ledger.store.rows, m)
    ensures s.stage[m].attempt > 0
  {
    var k :| k in s.ledger.store.rows && s.ledger.store.rows[k].id == m;
    RowMeansHanded(s.arrivals, s.ledger, k);
    assert InLog(s.arrivals, s.ledger.handed, m);
    assert !Untried(s.stage[m]);
  }

  lemma StoredMeansDuplicate(l: Ledger, envelope: Envelope, now: int)
    requires Valid(l)
    ensures var result := Commit(l, envelope, now).1;
      && !result.Refused?
      && (result.Duplicate? <==> Stored(l.store.rows, envelope))
      && (result.Duplicate? ==> (result.storedId == envelope.id <==> HasRow(l.store.rows, envelope.id)))
  {
    hide Valid;
    CommitEffect(l, envelope, now);
  }

  lemma OwnRowIsStored(rows: Rows, envelope: Envelope)
    requires HasRow(rows, envelope.id)
    ensures Stored(rows, envelope)
  {
    var k :| k in rows && rows[k].id == envelope.id;
    assert SameMessage(rows[k], envelope);
  }

  lemma Answering(s: State, e: Event, m: Msg, silenced: bool)
    requires Inv(s) && Enabled(s, e) && e.StoreAnswers? && e.m == m && Fares(s.stage, s.emitted, m, silenced)
    ensures Fares(Step(s, e).stage, Step(s, e).emitted, m, silenced || IsSilencedBy(s, e, m))
  {
    hide Inv, Valid, HandedKnown, AfterAttempt, Commit, IsEmitted, HasRow, Stored;
    LogParts(s);
    if e.outcome.CommitAnswered? {
      StoredMeansDuplicate(s.ledger, s.arrivals[m], e.outcome.now);
      if HasRow(s.ledger.store.rows, m) {
        OwnRowMeansRetried(s, m);
        OwnRowIsStored(s.ledger.store.rows, s.arrivals[m]);
      }
    }
    MovesOn(s, Step(s, e), m, silenced, IsSilencedBy(s, e, m));
  }

  lemma Ending(s: State, m: Msg, silenced: bool)
    requires AtStage(s, m) && (s.stage[m].Answered? || s.stage[m] == WrittenOff) && Fares(s.stage, s.emitted, m, silenced)
    ensures var t := Conclude(s, m); Fares(t.stage, t.emitted, m, silenced)
  {
    var t := Conclude(s, m);
    if !silenced { assert t.emitted[|s.emitted|].m == m; }
  }

  lemma Attempts(s: State, e: Event, m: Msg, silenced: bool)
    requires Enabled(s, e) && (e.ResolveEnds? || e.Fails? || e.Wakes?) && e.m == m && Fares(s.stage, s.emitted, m, silenced)
    ensures Fares(Step(s, e).stage, Step(s, e).emitted, m, silenced)
  {
    hide IsEmitted;
    MovesOn(s, Step(s, e), m, silenced, silenced);
  }

  lemma WritingOffs(s: State, e: Event, m: Msg, silenced: bool)
    requires Enabled(s, e) && (e.WritesOff? || e.AppendIsOver?) && e.m == m && Fares(s.stage, s.emitted, m, silenced)
    ensures Fares(Step(s, e).stage, Step(s, e).emitted, m, silenced)
  {
    hide IsEmitted;
    MovesOn(s, Step(s, e), m, silenced, silenced);
  }

  lemma Appending(s: State, ok: bool, m: Msg, silenced: bool)
    requires Inv(s) && FileOpReady(s) && s.fileTurn[0] == Append(m) && Fares(s.stage, s.emitted, m, silenced)
    ensures var t := FileStep(s, ok); Fares(t.stage, t.emitted, m, silenced)
  {
    assert s.stage[m] == WritingOff by { IsWritingOff(s, m); }
    hide Inv, IsEmitted;
    MovesOn(s, FileStep(s, ok), m, silenced, silenced);
  }

  lemma IsWritingOff(s: State, m: Msg)
    requires Inv(s) && s.fileTurn != [] && s.fileTurn[0] == Append(m)
    ensures m < |s.stage| && s.stage[m] == WritingOff
  {
    assert OpMatches(s.stage, s.passes, s.busy, s.fileTurn[0]);
  }

  lemma Persisting(s: State, i: nat, m: Msg, silenced: bool)
    requires Inv(s) && Enabled(s, PersistContinues(i)) && s.ended[i].caller == Persist(m) && Fares(s.stage, s.emitted, m, silenced)
    ensures var t := PersistGoesOn(s, i); Fares(t.stage, t.emitted, m, silenced)
  {
    assert s.stage[m] == Replaying by { IsReplaying(s, i, m); }
    hide Inv, IsEmitted;
    MovesOn(s, PersistGoesOn(s, i), m, silenced, silenced);
  }

  lemma IsReplaying(s: State, i: nat, m: Msg)
    requires Inv(s) && i < |s.ended| && s.ended[i].caller == Persist(m)
    ensures m < |s.stage| && s.stage[m] == Replaying
  {
    assert CallerHolds(s.stage, s.starting, s.writeOffs, s.ended[i].caller);
  }

  lemma StepFares(s: State, e: Event, m: Msg, silenced: bool)
    requires Inv(s) && Enabled(s, e) && !e.Crashes? && Fares(s.stage, s.emitted, m, silenced)
    ensures Fares(Step(s, e).stage, Step(s, e).emitted, m, silenced || IsSilencedBy(s, e, m))
  {
    hide Inv, IsEmitted, FileStep, PersistGoesOn, Conclude, SameFor, Stored, HasRow;
    if IsAboutOthers(s, e, m) {
      OthersLeaveIt(s, e, m);
      hide Step, Fares;
      SameForFares(s, Step(s, e), m, silenced);
    } else {
      match e
      case StoreAnswers(_, _) => Answering(s, e, m, silenced);
      case Concludes(_) => Ending(s, m, silenced);
      case FileWorks(ok) => Appending(s, ok, m, silenced);
      case PersistContinues(i) => Persisting(s, i, m, silenced);
      case Starts(_) =>
      case EnrichEnds(_, _) =>
      case AppendIsOver(_) => WritingOffs(s, e, m, silenced);
      case WritesOff(_) => WritingOffs(s, e, m, silenced);
      case _ => Attempts(s, e, m, silenced);
    }
  }

  // ── Every run ────────────────────────────────────────────────────

  lemma {:induction false} RunFares(s: State, events: seq<Event>, m: Msg, silenced: bool)
    requires Inv(s) && IsRun(s, events) && Fares(s.stage, s.emitted, m, silenced)
    requires forall i :: 0 <= i < |events| ==> !events[i].Crashes?
    ensures var t := After(s, events); Inv(t) && Fares(t.stage, t.emitted, m, silenced || IsSilenced(s, events, m))
    decreases |events|
  {
    hide Inv, Step, Enabled, Fares, IsSilencedBy;
    if events != [] {
      StepKeeps(s, events[0]);
      StepFares(s, events[0], m, silenced);
      RunFares(Step(s, events[0]), events[1..], m, silenced || IsSilencedBy(s, events[0], m));
    }
  }

  /** While the row of the other is there, every answer silences. */
  lemma AnswersSilence(s: State, e: Event, m: Msg, k: (Account, nat))
    requires Inv(s) && IsDuplicateOf(s.arrivals, s.ledger, m, k)
    ensures IsSilencedBy(s, e, m) <==> IsAnsweredBy(e, m)
  {
    hide Inv, Valid, HandedKnown, SameMessage;
    LogParts(s);
    if own :| own in s.ledger.store.rows && s.ledger.store.rows[own].id == m { RowMeansHanded(s.arrivals, s.ledger, own); }
  }

  lemma {:induction false} SilencedIfAnswered(s: State, events: seq<Event>, m: Msg, k: (Account, nat))
    requires Inv(s) && IsRun(s, events) && IsDuplicateOf(s.arrivals, s.ledger, m, k)
    requires forall i :: 0 <= i < |events| ==> IsUndisturbed(events[i], k)
    ensures IsSilenced(s, events, m) <==> IsAnswered(events, m)
    ensures IsDuplicateOf(After(s, events).arrivals, After(s, events).ledger, m, k)
    decreases |events|
  {
    hide Inv, Step, Enabled, IsDuplicateOf, IsUndisturbed, IsSilencedBy, IsAnsweredBy;
    if events != [] {
      StepKeeps(s, events[0]);
      StepKeepsDuplicate(s, events[0], m, k);
      AnswersSilence(s, events[0], m, k);
      SilencedIfAnswered(Step(s, events[0]), events[1..], m, k);
      OneOrTheRest(events, m);
    }
  }

  lemma OneOrTheRest(events: seq<Event>, m: Msg)
    requires events != []
    ensures IsAnswered(events, m) <==> IsAnsweredBy(events[0], m) || IsAnswered(events[1..], m)
  {
    if i :| 0 <= i < |events| && IsAnsweredBy(events[i], m) {
      if i > 0 { assert events[1..][i - 1] == events[i]; }
    }
    if j :| 0 <= j < |events[1..]| && IsAnsweredBy(events[1..][j], m) { assert events[j + 1] == events[1..][j]; }
  }

  /**
   * Whatever a message meets from its attempts on, short of a death: it is emitted, exactly if no attempt of it was
   * answered while the log had its WhatsApp id under another id and no row of its own. An original that only waits in
   * the failed log silences nothing.
   */
  lemma EmittedUnlessSilenced(s: State, events: seq<Event>, m: Msg)
    requires Reachable(s) && m < |s.stage| && s.stage[m] == Resolving
    requires IsRun(s, events) && forall i :: 0 <= i < |events| ==> !events[i].Crashes?
    requires var t := After(s, events); m < |t.stage| && t.stage[m] == Done
    ensures IsEmitted(After(s, events).emitted, m) <==> !IsSilenced(s, events, m)
  {
    hide Inv, Reachable, Step, Enabled, IsSilenced;
    ReachableHolds(s);
    IsUntried(s, m);
    RunFares(s, events, m, false);
  }

  /**
   * A message that the log has under another id when its turn comes is emitted exactly if no attempt of it is answered,
   * and then without a number: whatever else happens meanwhile, short of a death or of retention removing that row.
   */
  lemma DuplicateIsEmittedIfUnanswered(s: State, events: seq<Event>, m: Msg, k: (Account, nat))
    requires Reachable(s) && m < |s.stage| && m < |s.arrivals| && s.stage[m] == Resolving
    requires k in s.ledger.store.rows && SameMessage(s.ledger.store.rows[k], s.arrivals[m]) && s.ledger.store.rows[k].id != m
    requires IsRun(s, events) && forall i :: 0 <= i < |events| ==> IsUndisturbed(events[i], k)
    requires var t := After(s, events); m < |t.stage| && t.stage[m] == Done
    ensures var t := After(s, events);
      && (IsEmitted(t.emitted, m) <==> !IsAnswered(events, m))
      && forall i :: 0 <= i < |t.emitted| && t.emitted[i].m == m ==> t.emitted[i].number == None
  {
    hide Inv, Reachable, InLog, SameMessage, Step, Enabled, IsSilenced, IsAnswered, IsEmitted;
    ReachableHolds(s);
    IsUntried(s, m);
    SilencedIfAnswered(s, events, m, k);
    RunFares(s, events, m, false);
    NotLoggedNotNumbered(After(s, events), m);
  }

  lemma NotLoggedNotNumbered(s: State, m: Msg)
    requires Inv(s) && !InLog(s.arrivals, s.ledger.handed, m)
    ensures forall i :: 0 <= i < |s.emitted| && s.emitted[i].m == m ==> s.emitted[i].number == None
  {
    forall i | 0 <= i < |s.emitted| && s.emitted[i].number.Some? ensures InLog(s.arrivals, s.ledger.handed, s.emitted[i].m) {
      assert Numbered(s.arrivals, s.ledger.handed, s.emitted[i].m, s.emitted[i].number.value);
    }
  }

  lemma IsUntried(s: State, m: Msg)
    requires Inv(s) && m < |s.stage| && s.stage[m] == Resolving
    ensures !InLog(s.arrivals, s.ledger.handed, m) && Fares(s.stage, s.emitted, m, false)
  {
    assert Untried(s.stage[m]);
  }

  /** If both copies went to the failed log, a pass stores the first it offers, and drops the other without a word. */
  lemma SecondCopyIsDropped(s: State, now: int)
    requires Reachable(s) && OnLine(s, Inserting)
    requires Stored(s.ledger.store.rows, s.arrivals[CurrentLine(s)]) && !HasRow(s.ledger.store.rows, CurrentLine(s))
    ensures var t := LineAnswer(s, CommitAnswered(now));
      && t.ledger == s.ledger && t.emitted == s.emitted && CurrentLine(s) in t.fates.repeated
      && t.passes[0].work.outcomes == s.passes[0].work.outcomes + [Left]
  {
    hide Inv, Reachable, Commit, Valid, HandedKnown, Stored, HasRow, Gives;
    ReachableHolds(s);
    LogParts(s);
    StoredMeansDuplicate(s.ledger, s.arrivals[CurrentLine(s)], now);
    CommitEffect(s.ledger, s.arrivals[CurrentLine(s)], now);
  }
}

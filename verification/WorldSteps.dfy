/** Shutdown, retention, crashes; and with them every step there is. */
module WorldSteps {
  import opened Options
  import opened MessageStore
  import opened MessageLedger
  import opened InboundProtocol
  import opened ProtocolInvariants
  import opened Frames
  import opened ArrivalSteps
  import opened AnswerSteps
  import opened WriteOffSteps
  import opened EndSteps
  import opened WorkSteps
  import opened LineSteps
  import opened KeepSteps
  import opened OtherSteps

  // ── Shutdown ─────────────────────────────────────────────────────

  lemma DrainStartsLog(s: State)
    requires LogInv(s)
    ensures LogInv(DrainStarts(s))
  {
  }

  lemma DrainStartsRest(s: State)
    requires QueueInv(s) && PassInv(s) && SafetyInv(s) && s.drain == NotDraining
    ensures QueueInv(DrainStarts(s)) && PassInv(DrainStarts(s)) && SafetyInv(DrainStarts(s))
  {
  }

  lemma DrainStartsKeeps(s: State)
    requires Inv(s) && s.drain == NotDraining
    ensures Inv(DrainStarts(s))
  {
    hide QueueInv, PassInv, LogInv, SafetyInv, EmissionInv, OrderInv;
    DrainStartsLog(s);
    DrainStartsRest(s);
    EmissionFrame(s, DrainStarts(s));
  }

  lemma DrainTakesLog(s: State)
    requires LogInv(s) && UnsavedAreLive(s.stage, s.unsaved) && s.left == {}
    ensures LogInv(DrainTakes(s))
  {
  }

  lemma DrainTakesRest(s: State)
    requires QueueInv(s) && PassInv(s) && SafetyInv(s) && s.drain == DrainWaiting
    ensures QueueInv(DrainTakes(s)) && PassInv(DrainTakes(s)) && SafetyInv(DrainTakes(s))
    ensures s.left == {} && s.guard.stopped && UnsavedAreLive(s.stage, s.unsaved)
  {
  }

  lemma DrainTakesKeeps(s: State)
    requires Inv(s) && s.drain == DrainWaiting
    ensures Inv(DrainTakes(s))
  {
    hide QueueInv, PassInv, LogInv, SafetyInv, EmissionInv, OrderInv, UnsavedAreLive;
    DrainTakesRest(s);
    DrainTakesLog(s);
    EmissionFrame(s, DrainTakes(s));
  }

  lemma DrainSkipsRest(s: State, m: Msg)
    requires QueueInv(s) && PassInv(s) && SafetyInv(s) && LogInv(s) && s.drain.DrainWriting? && s.busy == None
    ensures QueueInv(DrainNext(s, m, false)) && PassInv(DrainNext(s, m, false)) && SafetyInv(DrainNext(s, m, false))
    ensures LogInv(DrainNext(s, m, false)) && s.guard.stopped
  {
  }

  lemma DrainSkipsKeeps(s: State, m: Msg)
    requires Inv(s) && s.drain.DrainWriting? && s.busy == None
    ensures Inv(DrainNext(s, m, false))
  {
    hide QueueInv, PassInv, LogInv, SafetyInv, EmissionInv, OrderInv;
    DrainSkipsRest(s, m);
    EmissionFrame(s, DrainNext(s, m, false));
  }

  /** The next of what is left becomes the one being written. */
  lemma DrainPicksKeeps(s: State, m: Msg)
    requires Inv(s) && s.drain.DrainWriting? && s.busy == None && m in s.left
    ensures Inv(s.(busy := Some(m))) && AppendLeft(m) !in s.fileTurn && s.guard.stopped
  {
    hide LogInv, EmissionInv, OrderInv;
    var t := s.(busy := Some(m));
    forall op | op in s.fileTurn ensures OpMatches(s.stage, s.passes, t.busy, op) && op != AppendLeft(m) {
      assert OpMatches(s.stage, s.passes, s.busy, op);
    }
    LogFrameSame(s, t);
    EmissionFrame(s, t);
  }

  lemma DrainWritesKeeps(s: State, m: Msg, accepted: bool)
    requires Inv(s) && s.drain.DrainWriting? && s.busy == None && m in s.left
    ensures Inv(DrainNext(s, m, accepted))
  {
    hide Inv;
    if accepted {
      DrainPicksKeeps(s, m);
      CountedKeeps(s.(busy := Some(m)), AppendLeft(m));
    } else {
      DrainSkipsKeeps(s, m);
    }
  }

  lemma DrainEndsRest(s: State)
    requires QueueInv(s) && SafetyInv(s) && s.drain.DrainWriting? && s.left == {}
    ensures QueueInv(DrainEnds(s)) && SafetyInv(DrainEnds(s)) && s.guard.stopped
  {
  }

  lemma DrainEndsKeeps(s: State)
    requires Inv(s) && s.drain.DrainWriting? && s.left == {}
    ensures Inv(DrainEnds(s))
  {
    hide QueueInv, PassInv, LogInv, SafetyInv, EmissionInv, OrderInv;
    var t := DrainEnds(s);
    DrainEndsRest(s);
    PassFrame(s, t);
    LogFrameSame(s, t);
    EmissionFrame(s, t);
  }

  // ── Retention ────────────────────────────────────────────────────

  /** A row still needed that goes is noted as forgotten. */
  lemma ForgottenOrThere(s: State, keys: set<(Account, nat)>, m: Msg)
    requires HasRow(s.ledger.store.rows, m) && !Settled(s, m)
    ensures m in ForgottenBy(s, keys) || HasRow(Retention(s, keys).ledger.store.rows, m)
  {
    var k :| k in s.ledger.store.rows && s.ledger.store.rows[k].id == m;
    var rows := Retention(s, keys).ledger.store.rows;
    if k !in keys { assert k in rows && rows[k].id == m; }
  }

  lemma RetentionLog(s: State, keys: set<(Account, nat)>)
    requires LogInv(s) && |s.stage| == |s.arrivals|
    ensures LogInv(Retention(s, keys))
  {
    var t := Retention(s, keys);
    ForgetKeepsValid(s.ledger, keys);
    forall m | 0 <= m < |s.stage| && InLog(s.arrivals, t.ledger.handed, m) && (s.stage[m] != Done || m in s.file || m in s.left)
      ensures m in t.past.forgotten || HasRow(t.ledger.store.rows, m)
    {
      if m !in s.past.forgotten {
        assert HasRow(s.ledger.store.rows, m);
        ForgottenOrThere(s, keys, m);
      }
    }
  }

  lemma RetentionRest(s: State, keys: set<(Account, nat)>)
    ensures SafetyInv(s) ==> SafetyInv(Retention(s, keys))
    ensures EmissionInv(s) ==> EmissionInv(Retention(s, keys))
  {
  }

  lemma OvertakingForgets(arrivals: seq<Envelope>, stage: seq<Stage>, file: seq<Msg>, outcomes: seq<Outcome>,
                          l: Ledger, l': Ledger, past: Past, past': Past)
    requires NoOvertaking(arrivals, stage, file, outcomes, l, past)
    requires l'.handed == l.handed && past.dirty <= past'.dirty && past'.since == past.since
    requires forall m: Msg | m < |arrivals| && arrivals[m].account !in past'.dirty && Candidate(stage, file, outcomes, m) &&
                             HasRow(l.store.rows, m) :: HasRow(l'.store.rows, m)
    ensures NoOvertaking(arrivals, stage, file, outcomes, l', past')
  {
  }

  /** What may get a number although it had one belongs to an account now in disorder. */
  lemma RetentionOvertakes(s: State, keys: set<(Account, nat)>)
    requires NoOvertaking(s.arrivals, s.stage, s.file, OutcomesOf(s.passes), s.ledger, s.past)
    ensures var t := Retention(s, keys);
      NoOvertaking(t.arrivals, t.stage, t.file, OutcomesOf(t.passes), t.ledger, t.past)
  {
    var t := Retention(s, keys);
    forall m: Msg | m < |s.arrivals| && s.arrivals[m].account !in t.past.dirty &&
                    Candidate(s.stage, s.file, OutcomesOf(s.passes), m) && HasRow(s.ledger.store.rows, m)
      ensures HasRow(t.ledger.store.rows, m)
    {
      ForgottenOrThere(s, keys, m);
    }
    OvertakingForgets(s.arrivals, s.stage, s.file, OutcomesOf(s.passes), s.ledger, t.ledger, s.past, t.past);
  }

  lemma RetentionOrder(s: State, keys: set<(Account, nat)>)
    requires OrderInv(s)
    ensures OrderInv(Retention(s, keys))
  {
    hide NoOvertaking, Candidate, HasRow;
    RetentionOvertakes(s, keys);
  }

  lemma RetentionKeeps(s: State, keys: set<(Account, nat)>)
    requires Inv(s)
    ensures Inv(Retention(s, keys))
  {
    hide PassInv, LogInv, SafetyInv, EmissionInv, OrderInv;
    var t := Retention(s, keys);
    PassFrame(s, t);
    RetentionLog(s, keys);
    RetentionRest(s, keys);
    if !s.guard.stopped { RetentionOrder(s, keys); }
  }

  // ── A crash ──────────────────────────────────────────────────────

  lemma CrashQueue(s: State)
    requires QueueInv(s)
    ensures QueueInv(Crash(s)) && PassInv(Crash(s))
  {
  }

  lemma CrashLog(s: State)
    requires LogInv(s) && |s.stage| == |s.arrivals|
    ensures LogInv(Crash(s))
  {
  }

  lemma CrashSafety(s: State)
    requires SafetyInv(s) && |s.stage| == |s.arrivals|
    ensures SafetyInv(Crash(s))
  {
  }

  lemma CrashEmission(s: State)
    requires EmissionInv(s)
    ensures EmissionInv(Crash(s))
  {
  }

  /** Of an account that was stopped, or in disorder, nothing that counts is there yet. */
  lemma SpoiltStartsOver(s: State, a: Account)
    requires HandedKnown(s.arrivals, s.ledger.handed) && a in Spoilt(s)
    ensures forall k :: k in HandedTo(s.ledger.handed, a) ==> k < SinceOf(Crash(s).past.since, a)
  {
    assert SinceOf(Crash(s).past.since, a) == |s.arrivals|;
  }

  lemma SinceStays(s: State, a: Account)
    requires a !in Spoilt(s)
    ensures SinceOf(Crash(s).past.since, a) == SinceOf(s.past.since, a)
  {
  }

  lemma UnspoiltIsRunning(s: State, a: Account)
    requires HandedKnown(s.arrivals, s.ledger.handed) && a !in Spoilt(s) && HandedTo(s.ledger.handed, a) != []
    ensures !s.guard.stopped && a !in s.past.dirty && a !in LetGoOf(s)
  {
    var id := HandedTo(s.ledger.handed, a)[0];
    assert id in HandedTo(s.ledger.handed, a);
    assert s.arrivals[id].account == a;
  }

  lemma CrashOvertakes(s: State)
    requires HandedKnown(s.arrivals, s.ledger.handed) && |s.stage| == |s.arrivals| && PassShape(s.arrivals, s.file, s.passes)
    requires !s.guard.stopped ==> NoOvertaking(s.arrivals, s.stage, s.file, OutcomesOf(s.passes), s.ledger, s.past)
    ensures var t := Crash(s);
      NoOvertaking(t.arrivals, t.stage, t.file, OutcomesOf(t.passes), t.ledger, t.past)
  {
    hide PassShape, HandedKnown, Spoilt, LetGoOf, IsPassed;
    var t := Crash(s);
    forall u, k | 0 <= u < |s.arrivals| && Candidate(t.stage, s.file, [], u) && !HasRow(s.ledger.store.rows, u) &&
                  k in HandedTo(s.ledger.handed, s.arrivals[u].account) && SinceOf(t.past.since, s.arrivals[u].account) <= k
      ensures k < u
    {
      var a := s.arrivals[u].account;
      if a in Spoilt(s) {
        SpoiltStartsOver(s, a);
      } else {
        UnspoiltIsRunning(s, a);
        SinceStays(s, a);
        CrashDoesNotOvertake(s, u, k);
      }
    }
  }

  lemma CrashDoesNotOvertake(s: State, u: Msg, k: Msg)
    requires PassShape(s.arrivals, s.file, s.passes) && |s.stage| == |s.arrivals| && u < |s.arrivals|
    requires s.arrivals[u].account !in s.past.dirty && s.arrivals[u].account !in LetGoOf(s)
    requires NoOvertaking(s.arrivals, s.stage, s.file, OutcomesOf(s.passes), s.ledger, s.past)
    requires Candidate(Crash(s).stage, s.file, [], u) && !HasRow(s.ledger.store.rows, u)
    requires k in HandedTo(s.ledger.handed, s.arrivals[u].account) && SinceOf(s.past.since, s.arrivals[u].account) <= k
    ensures k < u
  {
    hide PassShape, LetGoOf;
    assert Candidate(s.stage, s.file, [], u);
    ReadAgain(s, u);
  }

  lemma CrashLogOrder(s: State)
    requires HandedKnown(s.arrivals, s.ledger.handed) && (!s.guard.stopped ==> LogInOrder(s.ledger.handed, s.past))
    ensures LogInOrder(s.ledger.handed, Crash(s).past)
  {
    hide Spoilt, HandedKnown;
    var t := Crash(s);
    forall a ensures InOrder(HandedTo(s.ledger.handed, a), SinceOf(t.past.since, a)) {
      var h := HandedTo(s.ledger.handed, a);
      assert forall i :: 0 <= i < |h| ==> h[i] in h;
      if a in Spoilt(s) {
        SpoiltStartsOver(s, a);
      } else if h != [] {
        UnspoiltIsRunning(s, a);
        SinceStays(s, a);
        assert InOrder(h, SinceOf(s.past.since, a));
      }
    }
  }

  lemma CrashSorted(s: State)
    requires FileKnown(s.arrivals, s.file) && (!s.guard.stopped ==> Sorted(s.arrivals, s.past.since, s.file))
    ensures Sorted(s.arrivals, Crash(s).past.since, s.file)
  {
    hide Spoilt;
    var since := Crash(s).past.since;
    forall i, j | 0 <= i < j < |s.file| && SameAccount(s.arrivals, s.file[i], s.file[j]) &&
                  SinceOf(since, s.arrivals[s.file[i]].account) <= s.file[i]
      ensures s.file[i] < s.file[j]
    {
      var a := s.arrivals[s.file[i]].account;
      assert s.file[i] in s.file;
      if a !in Spoilt(s) {
        SinceStays(s, a);
        StoppedSpoils(s, s.file[i]);
      }
    }
  }

  lemma StoppedSpoils(s: State, m: Msg)
    requires m < |s.arrivals|
    ensures s.guard.stopped ==> s.arrivals[m].account in Spoilt(s)
  {
  }

  lemma CrashRest(s: State)
    ensures var t := Crash(s);
      && LoopIsAlone(t.arrivals, t.stage, t.file, t.past.dirty)
      && PassReadItsOwn(t.file, t.passes)
      && RecoverySawAll(t.writeOffs, t.file, t.fileTurn, t.passes, t.ended)
      && EndedIsClear(t.arrivals, t.file, t.ended, t.past.dirty)
  {
  }

  lemma CrashOrder(s: State)
    requires LogInv(s) && PassInv(s) && |s.stage| == |s.arrivals| && (!s.guard.stopped ==> OrderInv(s))
    ensures OrderInv(Crash(s))
  {
    CrashParts(s);
    hide NoOvertaking, LogInOrder, Sorted, HandedKnown, FileKnown, PassShape, LogInv, PassInv, LoopIsAlone, PassReadItsOwn,
      RecoverySawAll, EndedIsClear, Restarted;
    CrashOvertakes(s);
    CrashLogOrder(s);
    CrashSorted(s);
    CrashRest(s);
  }

  lemma CrashParts(s: State)
    requires LogInv(s) && PassInv(s)
    ensures HandedKnown(s.arrivals, s.ledger.handed) && FileKnown(s.arrivals, s.file) && PassShape(s.arrivals, s.file, s.passes)
  {
  }

  lemma CrashKeeps(s: State)
    requires Inv(s)
    ensures Inv(Crash(s))
  {
    hide PassInv, LogInv, SafetyInv, EmissionInv, OrderInv;
    CrashQueue(s);
    CrashLog(s);
    CrashSafety(s);
    CrashEmission(s);
    CrashOrder(s);
  }

  // ── Every step ───────────────────────────────────────────────────

  lemma InitHolds(retries: nat)
    ensures Inv(Init(retries))
  {
    hide PassInv, LogInv, SafetyInv, EmissionInv, OrderInv;
    InitPass(retries);
    InitLog(retries);
    InitEmission(retries);
    InitOrder(retries);
  }

  lemma InitPass(retries: nat)
    ensures PassInv(Init(retries))
  {
    var s := Init(retries);
    assert s.passes[0].caller == AtStart;
  }

  lemma InitLog(retries: nat)
    ensures LogInv(Init(retries)) && SafetyInv(Init(retries))
  {
  }

  lemma InitEmission(retries: nat)
    ensures EmissionInv(Init(retries))
  {
  }

  lemma InitOrder(retries: nat)
    ensures OrderInv(Init(retries))
  {
  }

  predicate IsLive(e: Event) {
    e.Handles? || e.Starts? || e.EnrichEnds? || e.ResolveEnds? || e.StoreAnswers? || e.Fails? || e.Wakes? ||
    e.WritesOff? || e.AppendIsOver? || e.Concludes?
  }

  predicate IsOfAPass(e: Event) {
    e.FileWorks? || e.PassBegins? || e.Judges? || e.LineAnswered? || e.LineProbes? || e.LinesEnd? ||
    e.RecoverContinues? || e.PersistContinues? || e.StartContinues?
  }

  lemma EarlyStepKeeps(s: State, e: Event)
    requires Inv(s) && Enabled(s, e) && (e.Handles? || e.Starts? || e.EnrichEnds? || e.ResolveEnds?)
    ensures Inv(Step(s, e))
  {
    hide Inv;
    match e
    case Handles(envelope) => HandleKeeps(s, envelope);
    case Starts(m) => StartKeeps(s, m);
    case EnrichEnds(m, accepted) => EnrichedKeeps(s, m, accepted);
    case ResolveEnds(m) => AttemptKeeps(s, m, 0);
  }

  lemma LateStepKeeps(s: State, e: Event)
    requires Inv(s) && Enabled(s, e) && IsLive(e) && !(e.Handles? || e.Starts? || e.EnrichEnds? || e.ResolveEnds?)
    ensures Inv(Step(s, e))
  {
    hide Inv;
    match e
    case StoreAnswers(m, outcome) => AnswerKeeps(s, m, outcome);
    case Fails(m) => FailedKeeps(s, m);
    case Wakes(m) => AttemptKeeps(s, m, s.stage[m].attempt);
    case WritesOff(m) => WriteOffKeeps(s, m);
    case AppendIsOver(m) => AppendEndsKeeps(s, m);
    case Concludes(m) => ConcludeKeeps(s, m);
  }

  lemma PassStepKeeps(s: State, e: Event)
    requires Inv(s) && Enabled(s, e) && IsOfAPass(e)
    ensures Inv(Step(s, e))
  {
    hide Inv;
    match e
    case FileWorks(ok) => FileStepKeeps(s, ok);
    case PassBegins => BeginKeeps(s);
    case Judges(verdict) => JudgeKeeps(s, verdict);
    case LineAnswered(outcome) => LineAnswerKeeps(s, outcome);
    case LineProbes(written) => LineProbedKeeps(s, written);
    case LinesEnd => EndLinesKeeps(s);
    case RecoverContinues(i, stored) => RecoverGoesOnKeeps(s, i, stored);
    case PersistContinues(i) => PersistGoesOnKeeps(s, i);
    case StartContinues(i) => StartGoesOnKeeps(s, i);
  }

  lemma OtherStepKeeps(s: State, e: Event)
    requires Inv(s) && Enabled(s, e) && !IsLive(e) && !IsOfAPass(e)
    ensures Inv(Step(s, e))
  {
    hide Inv;
    match e
    case ResumeIsOver(failed) => ResumeEndsKeeps(s, failed);
    case HeldTimerGoesOff => HeldTimerKeeps(s);
    case ProbeGoesOut => ProbeFiresKeeps(s);
    case ProbeIsAnswered(written) => ProbeAnswersKeeps(s, written);
    case DrainBegins => DrainStartsKeeps(s);
    case DrainSnapshots => DrainTakesKeeps(s);
    case DrainWrites(m, accepted) => DrainWritesKeeps(s, m, accepted);
    case DrainReturns => DrainEndsKeeps(s);
    case Retains(keys) => RetentionKeeps(s, keys);
    case Crashes => CrashKeeps(s);
  }

  /** Whatever happens next, the invariant holds after it. */
  lemma StepKeeps(s: State, e: Event)
    requires Inv(s) && Enabled(s, e)
    ensures Inv(Step(s, e))
  {
    hide Inv, Enabled, Step;
    if e.Handles? || e.Starts? || e.EnrichEnds? || e.ResolveEnds? {
      EarlyStepKeeps(s, e);
    } else if IsLive(e) {
      LateStepKeeps(s, e);
    } else if IsOfAPass(e) {
      PassStepKeeps(s, e);
    } else {
      OtherStepKeeps(s, e);
    }
  }
}

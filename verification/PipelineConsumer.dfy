/**
 The pipeline with a consumer of one account behind it. Whatever the consumer hears is an emission of the pipeline, now
 or long ago, once or often, in any order; whatever it reads is in the pipeline's log.
 */
module PipelineConsumer {
  import opened MessageStore
  import opened MessageLedger
  import opened MessagePaging
  import opened ProtocolInvariants
  import opened WorkSteps
  import opened WorldSteps
  import opened DuplicateSteps
  import P = InboundProtocol
  import C = LiveConsumer

  datatype System = System(pipeline: P.State, account: Account, consumer: C.Consumer)

  datatype Event =
    | Moves(e: P.Event)
    | Hears(i: nat)
    | ReadsPage(limit: Number)

  function WorldOf(s: System): C.World {
    C.World(s.pipeline.ledger, s.account, s.consumer)
  }

  predicate IsOfTheAccount(s: System, i: nat) {
    i < |s.pipeline.emitted| && s.pipeline.emitted[i].m < |s.pipeline.arrivals| &&
    s.pipeline.arrivals[s.pipeline.emitted[i].m].account == s.account
  }

  /** Retention leaves what the consumer has not read. */
  predicate Enabled(s: System, e: Event) {
    match e
    case Moves(step) =>
      P.Enabled(s.pipeline, step) &&
      (step.Retains? ==> forall k :: k in step.keys && k.0 == s.account ==> k.1 <= s.consumer.cursor)
    case Hears(i) => IsOfTheAccount(s, i)
    case ReadsPage(_) => true
  }

  ghost function Next(s: System, e: Event): System
    requires Enabled(s, e)
  {
    match e
    case Moves(step) => s.(pipeline := P.Step(s.pipeline, step))
    case Hears(i) => s.(consumer := C.Hears(s.consumer, s.pipeline.emitted[i].m, s.pipeline.emitted[i].number))
    case ReadsPage(limit) => s.(consumer := C.Next(WorldOf(s), C.ReadsPage(limit)).consumer)
  }

  ghost predicate IsRun(s: System, events: seq<Event>)
    decreases |events|
  {
    events == [] || (Enabled(s, events[0]) && IsRun(Next(s, events[0]), events[1..]))
  }

  ghost function After(s: System, events: seq<Event>): System
    requires IsRun(s, events)
    decreases |events|
  {
    if events == [] then s else After(Next(s, events[0]), events[1..])
  }

  ghost predicate Holds(s: System) {
    Inv(s.pipeline) && C.Inv(WorldOf(s))
  }

  // ── Each is a step of the consumer's world ───────────────────────

  /** What the pipeline emits with a number is what the log has under it, so the consumer may hear it. */
  lemma EmissionMayBeHeard(s: System, i: nat)
    requires Inv(s.pipeline) && IsOfTheAccount(s, i)
    ensures var emission := s.pipeline.emitted[i];
      C.Enabled(WorldOf(s), C.Heard(emission.m, emission.number))
  {
    var emission := s.pipeline.emitted[i];
    if emission.number.Some? {
      assert Numbered(s.pipeline.arrivals, s.pipeline.ledger.handed, emission.m, emission.number.value);
    }
  }

  /** A step of the pipeline stores one message, removes rows, or leaves the log alone. */
  lemma MoveKeeps(s: System, step: P.Event)
    requires Holds(s) && Enabled(s, Moves(step))
    ensures C.Inv(WorldOf(Next(s, Moves(step))))
  {
    hide Inv, C.Inv, P.Step, Forget, Commit;
    StepLeavesLog(s.pipeline, step);
    match step
    case StoreAnswers(m, outcome) =>
      if !outcome.NoCommit? { C.StoresKeeps(WorldOf(s), s.pipeline.arrivals[m], outcome.now); }
    case LineAnswered(outcome) =>
      if !outcome.NoCommit? { C.StoresKeeps(WorldOf(s), s.pipeline.arrivals[CurrentLine(s.pipeline)], outcome.now); }
    case Retains(keys) => C.RetainsKeeps(WorldOf(s), keys);
    case _ =>
  }

  lemma NextHolds(s: System, e: Event)
    requires Holds(s) && Enabled(s, e)
    ensures Holds(Next(s, e))
    ensures Next(s, e).account == s.account && Next(s, e).consumer.start == s.consumer.start
  {
    hide Inv, C.Inv, P.Step, P.Enabled;
    match e
    case Moves(step) =>
      StepKeeps(s.pipeline, step);
      MoveKeeps(s, step);
    case Hears(i) =>
      var emission := s.pipeline.emitted[i];
      EmissionMayBeHeard(s, i);
      C.HeardKeeps(WorldOf(s), emission.m, emission.number);
      C.StartStays(WorldOf(s), C.Heard(emission.m, emission.number));
    case ReadsPage(limit) =>
      C.ReadsKeeps(WorldOf(s), limit);
      C.StartStays(WorldOf(s), C.ReadsPage(limit));
      ReadingIsReading(s, limit);
  }

  lemma ReadingIsReading(s: System, limit: Number)
    ensures WorldOf(Next(s, ReadsPage(limit))) == C.Next(WorldOf(s), C.ReadsPage(limit))
  {
  }

  lemma {:induction false} RunHolds(s: System, events: seq<Event>)
    requires Holds(s) && IsRun(s, events)
    ensures Holds(After(s, events))
    ensures After(s, events).account == s.account && After(s, events).consumer.start == s.consumer.start
    decreases |events|
  {
    hide Holds, Next, Enabled;
    if events != [] {
      NextHolds(s, events[0]);
      RunHolds(Next(s, events[0]), events[1..]);
    }
  }

  /**
   * Over every run of the pipeline and of a consumer that is there from the start, through outages, deaths, passes and
   * whatever it does not hear: it processes nothing twice and everything that got a number up to its cursor, and every
   * number past that is in the log to be read.
   */
  lemma PipelineIsProcessedExactlyOnce(retries: nat, account: Account, events: seq<Event>)
    requires IsRun(System(P.Init(retries), account, C.Consumer(0, 0, [])), events)
    ensures var t := After(System(P.Init(retries), account, C.Consumer(0, 0, [])), events);
      var handed := HandedTo(t.pipeline.ledger.handed, account);
      && C.Distinct(t.consumer.processed)
      && t.consumer.cursor <= |handed|
      && (forall i :: 0 <= i < t.consumer.cursor ==> handed[i] in t.consumer.processed)
      && (forall n :: t.consumer.cursor < n <= |handed| ==> (account, n) in t.pipeline.ledger.store.rows)
  {
    hide Inv, Next, Enabled;
    var s := System(P.Init(retries), account, C.Consumer(0, 0, []));
    InitHolds(retries);
    StartHolds(retries, account);
    RunHolds(s, events);
  }

  lemma StartHolds(retries: nat, account: Account)
    ensures C.Inv(WorldOf(System(P.Init(retries), account, C.Consumer(0, 0, []))))
  {
  }
}

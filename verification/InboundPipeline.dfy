/**
 The pipeline itself, changed in place: its queues, what it has not saved yet, its count of write-offs and its timer.
 Each method is what the code runs between two `await`s, and does to these fields what the protocol's step says.
 What is not a field of the pipeline (where every message is, the log, the file, the passes) is `rest`.
 */
module InboundPipeline {
  import opened Options
  import opened MessageStore
  import opened StoreGuard
  import opened InboundProtocol

  function QueueOf(queues: map<Account, seq<Msg>>, a: Account): seq<Msg> {
    if a in queues then queues[a] else []
  }

  ghost predicate Ascends(queue: seq<Msg>) {
    forall i, j :: 0 <= i < j < |queue| ==> queue[i] < queue[j]
  }

  predicate IsPending(arrivals: seq<Envelope>, stage: seq<Stage>, a: Account, m: Msg) {
    m < |arrivals| && m < |stage| && arrivals[m].account == a && stage[m] != Done
  }

  /** An account's queue is what of it is not over, in the order it came. An account with nothing has no queue. */
  ghost predicate QueuesMatch(queues: map<Account, seq<Msg>>, arrivals: seq<Envelope>, stage: seq<Stage>) {
    && (forall a :: Ascends(QueueOf(queues, a)))
    && (forall a, m: Msg :: m in QueueOf(queues, a) <==> IsPending(arrivals, stage, a, m))
    && (forall a :: a in queues ==> queues[a] != [])
  }

  /** A message's turn has come exactly when it is at the head of its account's queue. */
  lemma HeadsHaveTheirTurn(queues: map<Account, seq<Msg>>, s: State, m: Msg)
    requires QueuesMatch(queues, s.arrivals, s.stage) && |s.stage| == |s.arrivals|
    requires m < |s.arrivals| && s.stage[m] != Done
    ensures var queue := QueueOf(queues, s.arrivals[m].account);
      queue != [] && (ItsTurn(s, m) <==> queue[0] == m)
  {
    var a := s.arrivals[m].account;
    var queue := QueueOf(queues, a);
    assert IsPending(s.arrivals, s.stage, a, m) && m in queue;
    if queue[0] == m {
      forall before: Msg | before < m && SameAccount(s.arrivals, before, m) ensures s.stage[before] == Done {
        assert before in queue <==> IsPending(s.arrivals, s.stage, a, before);
        assert before !in queue;
      }
    } else {
      assert queue[0] in queue && IsPending(s.arrivals, s.stage, a, queue[0]) && queue[0] < m;
      assert SameAccount(s.arrivals, queue[0], m);
    }
  }

  function Enqueued(queues: map<Account, seq<Msg>>, a: Account, m: Msg): map<Account, seq<Msg>> {
    queues[a := QueueOf(queues, a) + [m]]
  }

  /** The head of the queue is over; with nothing behind it, neither is there a queue. */
  function Dequeued(queues: map<Account, seq<Msg>>, a: Account): map<Account, seq<Msg>> {
    if |QueueOf(queues, a)| <= 1 then queues - {a} else queues[a := QueueOf(queues, a)[1..]]
  }

  lemma EnqueuedMatches(queues: map<Account, seq<Msg>>, arrivals: seq<Envelope>, stage: seq<Stage>, envelope: Envelope)
    requires QueuesMatch(queues, arrivals, stage) && |stage| == |arrivals|
    ensures QueuesMatch(Enqueued(queues, envelope.account, |arrivals|), arrivals + [envelope], stage + [Queued])
  {
    var m, queues' := |arrivals|, Enqueued(queues, envelope.account, |arrivals|);
    forall a, n: Msg ensures n in QueueOf(queues', a) <==> IsPending(arrivals + [envelope], stage + [Queued], a, n) {
      assert n in QueueOf(queues, a) <==> IsPending(arrivals, stage, a, n);
      assert n in QueueOf(queues', a) <==> n in QueueOf(queues, a) || (a == envelope.account && n == m);
    }
    forall a ensures Ascends(QueueOf(queues', a)) {
      assert Ascends(QueueOf(queues, a));
      forall i | 0 <= i < |QueueOf(queues, a)| ensures QueueOf(queues, a)[i] < m {
        assert QueueOf(queues, a)[i] in QueueOf(queues, a);
      }
    }
  }

  lemma DequeuedOthers(queues: map<Account, seq<Msg>>, a: Account, other: Account)
    requires QueueOf(queues, a) != []
    ensures QueueOf(Dequeued(queues, a), other) == if other == a then QueueOf(queues, a)[1..] else QueueOf(queues, other)
  {
  }

  lemma WithoutHead(queue: seq<Msg>)
    requires Ascends(queue) && queue != []
    ensures Ascends(queue[1..]) && forall n :: n in queue[1..] <==> n in queue && n != queue[0]
  {
    assert queue == [queue[0]] + queue[1..];
    assert forall i :: 0 <= i < |queue[1..]| ==> queue[1..][i] == queue[i + 1];
  }

  lemma DequeuedMatches(queues: map<Account, seq<Msg>>, arrivals: seq<Envelope>, stage: seq<Stage>, m: Msg)
    requires QueuesMatch(queues, arrivals, stage) && m < |stage| && m < |arrivals|
    requires QueueOf(queues, arrivals[m].account) != [] && QueueOf(queues, arrivals[m].account)[0] == m
    ensures QueuesMatch(Dequeued(queues, arrivals[m].account), arrivals, stage[m := Done])
  {
    hide Ascends;
    var b := arrivals[m].account;
    var queues' := Dequeued(queues, b);
    WithoutHead(QueueOf(queues, b));
    forall a, n: Msg ensures n in QueueOf(queues', a) <==> IsPending(arrivals, stage[m := Done], a, n) {
      DequeuedOthers(queues, b, a);
      assert n in QueueOf(queues, a) <==> IsPending(arrivals, stage, a, n);
    }
    forall a ensures Ascends(QueueOf(queues', a)) {
      DequeuedOthers(queues, b, a);
    }
  }

  lemma MovedMatches(queues: map<Account, seq<Msg>>, arrivals: seq<Envelope>, stage: seq<Stage>, m: Msg, to: Stage)
    requires QueuesMatch(queues, arrivals, stage) && m < |stage| && stage[m] != Done && to != Done
    ensures QueuesMatch(queues, arrivals, stage[m := to])
  {
    forall a, n: Msg ensures n in QueueOf(queues, a) <==> IsPending(arrivals, stage[m := to], a, n) {
      assert n in QueueOf(queues, a) <==> IsPending(arrivals, stage, a, n);
    }
  }

  datatype PersistOutcome = IsStored(number: nat) | IsDuplicate | IsWrittenOff

  predicate OutcomeIs(stage: Stage, outcome: PersistOutcome) {
    match outcome
    case IsStored(number) => stage == Answered(Inserted(number))
    case IsDuplicate => stage.Answered? && !stage.result.Inserted?
    case IsWrittenOff => stage == WrittenOff
  }

  class Pipeline {
    var queues: map<Account, seq<Msg>>
    var unsaved: set<Msg>
    var writeOffs: nat
    var heldRetryTimer: bool
    var draining: bool
    const guard: Breaker
    ghost var rest: State

    ghost function View(): State
      reads this, guard
    {
      rest.(unsaved := unsaved, writeOffs := writeOffs, heldTimer := heldRetryTimer, guard := guard.View())
    }

    ghost predicate Valid()
      reads this, guard
    {
      && |rest.stage| == |rest.arrivals|
      && QueuesMatch(queues, rest.arrivals, rest.stage)
      && (draining <==> rest.drain != NotDraining)
    }

    constructor (retries: nat)
      ensures Valid() && fresh(guard) && View() == Init(retries)
    {
      queues, unsaved, writeOffs, heldRetryTimer, draining := map[], {}, 0, false, false;
      guard := new Breaker();
      rest := Init(retries);
    }

    /** `handle`: behind the tail of its account's queue, before anything is awaited. */
    method HandleMessage(envelope: Envelope) returns (m: Msg)
      requires Valid() && Enabled(View(), Handles(envelope))
      modifies this
      ensures Valid() && View() == Handle(old(View()), envelope)
      ensures m == envelope.id
    {
      EnqueuedMatches(queues, rest.arrivals, rest.stage, envelope);
      ghost var next := Handle(View(), envelope);
      m := envelope.id;
      unsaved := unsaved + {m};
      queues := Enqueued(queues, envelope.account, m);
      rest := next;
    }

    /** The tail of the queue before it resolves: the next message's turn. */
    method TakeTurn(a: Account) returns (m: Msg)
      requires Valid() && QueueOf(queues, a) != [] && AtStage(rest, QueueOf(queues, a)[0])
      requires rest.stage[QueueOf(queues, a)[0]] == Queued
      modifies this
      ensures Valid() && m == old(QueueOf(queues, a)[0]) && m < |old(rest).stage|
      ensures ItsTurn(old(View()), m) && View() == Start(old(View()), m)
    {
      m := QueueOf(queues, a)[0];
      assert m in QueueOf(queues, a) && IsPending(rest.arrivals, rest.stage, a, m);
      HeadsHaveTheirTurn(queues, View(), m);
      ghost var next := Start(View(), m);
      if m in unsaved {
        MovedMatches(queues, rest.arrivals, rest.stage, m, Enriching);
      } else {
        DequeuedMatches(queues, rest.arrivals, rest.stage, m);
        queues := Dequeued(queues, a);
      }
      rest := next;
      assert unsaved == next.unsaved;
    }

    /** `enrich` is over: `drain` may have taken the message, and the filter may not want it. */
    method AfterEnrich(m: Msg, a: Account, accepted: bool)
      requires Valid() && AtStage(View(), m) && rest.stage[m] == Enriching && rest.arrivals[m].account == a
      requires ItsTurn(View(), m)
      modifies this
      ensures Valid() && View() == Enriched(old(View()), m, accepted)
    {
      HeadsHaveTheirTurn(queues, View(), m);
      ghost var next := Enriched(View(), m, accepted);
      if m !in unsaved || !accepted {
        DequeuedMatches(queues, rest.arrivals, rest.stage, m);
        queues := Dequeued(queues, a);
        unsaved := unsaved - {m};
      } else {
        MovedMatches(queues, rest.arrivals, rest.stage, m, Resolving);
      }
      rest := next;
    }

    /** `persist` catches a refusal: whether there is a write-off to wait for. */
    method CatchRefusal(m: Msg) returns (writesOff: bool)
      requires Valid() && AtStage(View(), m) && rest.stage[m] == Refusing
      modifies this
      ensures Valid() && View() == WriteOff(old(View()), m) && writesOff == (m in old(unsaved))
    {
      ghost var next := WriteOff(View(), m);
      MovedMatches(queues, rest.arrivals, rest.stage, m, next.stage[m]);
      writesOff := m in unsaved;
      if writesOff {
        writeOffs := writeOffs + 1;
      }
      rest := next;
    }

    /** The append is over, and so is being unsaved; with the log taking messages directly, a pass comes first. */
    method AfterAppend(m: Msg) returns (replays: bool)
      requires Valid() && AtStage(View(), m) && rest.stage[m] == Appended
      modifies this
      ensures Valid() && View() == AppendEnds(old(View()), m) && replays == TakingDirectly(old(View()).guard)
    {
      ghost var next := AppendEnds(View(), m);
      MovedMatches(queues, rest.arrivals, rest.stage, m, next.stage[m]);
      unsaved := unsaved - {m};
      replays := !guard.stopped && guard.phase == Closed;
      rest := next;
    }

    /** `persist` is over: a duplicate ends here, anything else is emitted. Its queue goes on. */
    method AfterPersist(m: Msg, a: Account, outcome: PersistOutcome) returns (emitted: Option<Emission>)
      requires Valid() && AtStage(View(), m) && OutcomeIs(rest.stage[m], outcome)
      requires rest.arrivals[m].account == a && ItsTurn(View(), m)
      modifies this
      ensures Valid() && View() == Conclude(old(View()), m)
      ensures View().emitted == if emitted.Some? then old(View()).emitted + [emitted.value] else old(View()).emitted
    {
      HeadsHaveTheirTurn(queues, View(), m);
      ghost var next := Conclude(View(), m);
      DequeuedMatches(queues, rest.arrivals, rest.stage, m);
      match outcome {
        case IsDuplicate => emitted := None;
        case IsStored(number) => emitted := Some(Emission(m, Some(number)));
        case IsWrittenOff => emitted := Some(Emission(m, None));
      }
      queues := Dequeued(queues, a);
      unsaved := unsaved - {m};
      rest := next;
    }

    /** Another look at the failed log later, unless one is coming or nothing starts any more. */
    method RetryHeldLater(s: State, kept: seq<Msg>, failed: bool)
      requires Valid() && View() == s && s.passes != [] && (failed || kept != [])
      modifies this
      ensures Valid() && View() == EndPass(s, kept, failed)
    {
      ghost var next := EndPass(s, kept, failed);
      if !draining && !heldRetryTimer {
        heldRetryTimer := true;
      }
      rest := next;
    }

    /** `drain` begins: the guard stops, and so does the timer. */
    method StartDraining()
      requires Valid() && !draining
      modifies this, guard
      ensures Valid() && View() == DrainStarts(old(View()))
    {
      ghost var next := DrainStarts(View());
      var _ := guard.StopForGood();
      draining := true;
      heldRetryTimer := false;
      rest := next;
    }

    /** What is still unsaved is `drain`'s to write off, in the order it came. */
    method TakeUnsaved() returns (left: set<Msg>)
      requires Valid() && rest.drain == DrainWaiting
      modifies this
      ensures Valid() && View() == DrainTakes(old(View())) && left == old(unsaved)
    {
      ghost var next := DrainTakes(View());
      left := unsaved;
      unsaved := {};
      rest := next;
    }

    /**
     * `recover` after a pass: whether to pass again, and if not, whether to resume media. There is no `await` between the
     * check and closing the circuit.
     */
    method AfterRecoveryPass(i: nat, startedAt: nat, failed: bool, stored: bool) returns (again: bool, resumes: bool)
      requires Valid() && i < |rest.ended| && rest.ended[i].caller == Recover(startedAt) && rest.ended[i].failed == failed
      modifies this, guard
      ensures Valid() && View() == RecoverGoesOn(old(View()), i, stored)
      ensures again <==> !failed && IsRecovering(old(View()).guard) && old(writeOffs) != startedAt
      ensures View().resuming == old(View()).resuming + (if resumes then 1 else 0)
    {
      hide QueuesMatch, AccountsOf;
      ghost var next := RecoverGoesOn(View(), i, stored);
      again := !failed && !guard.stopped && guard.phase == Recovering && writeOffs != startedAt;
      if !again {
        guard.CloseAfterRecovery();
      }
      resumes := !again && !failed && stored;
      rest := next;
    }

    /** The media is resumed, or that failed: then the `catch` closes the circuit, whoever is recovering by now. */
    method AfterResuming(failed: bool)
      requires Valid() && rest.resuming > 0
      modifies this, guard
      ensures Valid() && View() == ResumeEnds(old(View()), failed)
    {
      hide QueuesMatch, AccountsOf;
      ghost var next := ResumeEnds(View(), failed);
      if failed {
        guard.CloseAfterRecovery();
      }
      rest := next;
    }
  }
}

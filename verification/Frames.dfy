/** Each group of invariants only depends on the parts of the state it reads. */
module Frames {
  import opened StoreGuard
  import opened InboundProtocol
  import opened ProtocolInvariants

  lemma QueueFrame(s: State, t: State)
    requires QueueInv(s)
    requires t.arrivals == s.arrivals && t.stage == s.stage && t.retries == s.retries && t.unsaved == s.unsaved
    requires t.guard == s.guard && t.drain == s.drain
    ensures QueueInv(t)
  {
  }

  lemma PassFrame(s: State, t: State)
    requires PassInv(s)
    requires t.arrivals == s.arrivals && t.stage == s.stage && t.fileTurn == s.fileTurn && t.passes == s.passes
    requires t.busy == s.busy && t.file == s.file && t.starting == s.starting && t.writeOffs == s.writeOffs
    requires t.ended == s.ended && t.unsaved == s.unsaved && t.left == s.left && t.guard == s.guard
    ensures PassInv(t)
  {
  }

  lemma LogFrame(s: State, t: State)
    requires LogInv(s)
    requires t.arrivals == s.arrivals && t.stage == s.stage && t.file == s.file && t.left == s.left && t.ledger == s.ledger
    requires t.past.forgotten == s.past.forgotten
    requires LineIsLate(t.stage, t.passes)
    requires t.guard.stopped == s.guard.stopped
    ensures LogInv(t)
  {
  }

  lemma SafetyFrame(s: State, t: State)
    requires SafetyInv(s)
    requires t.arrivals == s.arrivals && t.stage == s.stage && t.left == s.left && t.ledger == s.ledger && t.file == s.file
    requires t.fates == s.fates && t.unsaved == s.unsaved && t.busy == s.busy && t.drain == s.drain && t.runStart == s.runStart
    requires OutcomesHold(t.arrivals, t.ledger.handed, t.fates, t.passes)
    ensures SafetyInv(t)
  {
  }

  lemma EmissionFrame(s: State, t: State)
    requires EmissionInv(s)
    requires t.arrivals == s.arrivals && t.stage == s.stage && t.ledger == s.ledger && t.emitted == s.emitted
    requires t.fates.duplicates == s.fates.duplicates
    ensures EmissionInv(t)
  {
  }

  lemma OrderFrame(s: State, t: State)
    requires OrderInv(s)
    requires t.arrivals == s.arrivals && t.stage == s.stage && t.file == s.file && t.ledger == s.ledger
    requires t.past.dirty == s.past.dirty && t.past.since == s.past.since
    requires t.passes == s.passes && t.writeOffs == s.writeOffs && t.fileTurn == s.fileTurn && t.ended == s.ended
    requires t.guard.phase == Closed ==> s.guard.phase == Closed
    requires t.starting == s.starting
    ensures OrderInv(t)
  {
  }
}

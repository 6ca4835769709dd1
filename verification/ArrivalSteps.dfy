/** A message arrives, reaches the attempt loop, and ends. */
module ArrivalSteps {
  import opened Options
  import opened MessageStore
  import opened StoreGuard
  import opened InboundProtocol
  import opened ProtocolInvariants
  import opened StageLemmas
  import opened ArrivalLemmas
  import opened LiveSteps

  // ── A message arrives ────────────────────────────────────────────

  lemma HandleQueue(s: State, envelope: Envelope)
    requires QueueInv(s) && envelope.id == |s.arrivals|
    ensures QueueInv(Handle(s, envelope))
  {
  }

  lemma HandlePass(s: State, envelope: Envelope)
    requires PassInv(s) && !s.starting && FileKnown(s.arrivals, s.file)
    ensures PassInv(Handle(s, envelope))
  {
    OpsArrive(s.stage, s.fileTurn, s.passes, s.busy);
    CallersArrive(s.stage, s.starting, s.writeOffs, s.passes, s.ended);
    PassArrives(s.arrivals, envelope, s.file, s.passes);
  }

  lemma HandleLog(s: State, envelope: Envelope)
    requires LogInv(s) && |s.stage| == |s.arrivals|
    ensures LogInv(Handle(s, envelope))
  {
    LogArrives(s.arrivals, envelope, s.ledger.handed);
    LoggedArrive(s.arrivals, envelope, s.stage, s.ledger.handed);
    RowsArrive(s.arrivals, envelope, s.stage, s.file, s.left, s.ledger, s.past.forgotten);
  }

  lemma HandleSafety(s: State, envelope: Envelope)
    requires SafetyInv(s) && |s.stage| == |s.arrivals|
    ensures SafetyInv(Handle(s, envelope))
  {
    WrittenOffArrive(s.arrivals, envelope, s.stage, s.left, s.ledger.handed, s.file, s.fates);
  }

  lemma HandleEmission(s: State, envelope: Envelope)
    requires EmissionInv(s) && |s.stage| == |s.arrivals| && HandedKnown(s.arrivals, s.ledger.handed)
    ensures EmissionInv(Handle(s, envelope))
  {
    EmittedArrive(s.arrivals, envelope, s.stage, s.emitted);
    NumbersArrive(s.arrivals, envelope, s.ledger.handed, s.emitted);
    UnfinishedArrive(s.arrivals, envelope, s.stage, s.ledger.handed, s.emitted);
    AnswersArrive(s.arrivals, envelope, s.stage, s.ledger.handed);
  }

  lemma HandleOrder(s: State, envelope: Envelope)
    requires OrderInv(s) && |s.stage| == |s.arrivals| && FileKnown(s.arrivals, s.file) && HandedKnown(s.arrivals, s.ledger.handed)
    ensures OrderInv(Handle(s, envelope))
  {
    OvertakingArrives(s.arrivals, envelope, s.stage, s.file, OutcomesOf(s.passes), s.ledger, s.past);
    FilesArrive(s.arrivals, envelope, s.stage, s.file, s.ended, s.past);
  }

  lemma HandleKeeps(s: State, envelope: Envelope)
    requires Inv(s) && Enabled(s, Handles(envelope))
    ensures Inv(Handle(s, envelope))
  {
    HandleQueue(s, envelope);
    HandlePass(s, envelope);
    HandleLog(s, envelope);
    HandleSafety(s, envelope);
    HandleEmission(s, envelope);
    if !s.guard.stopped { HandleOrder(s, envelope); }
  }

  // ── Up to the attempt loop ───────────────────────────────────────

  lemma StartKeeps(s: State, m: Msg)
    requires Inv(s) && m < |s.stage| && s.stage[m] == Queued && ItsTurn(s, m)
    ensures Inv(Start(s, m))
  {
    if m in s.unsaved {
      MoveKeeps(s, m, Enriching);
    } else {
      SilentEndKeeps(s, m, s.fates);
    }
  }

  lemma EnrichedKeeps(s: State, m: Msg, accepted: bool)
    requires Inv(s) && m < |s.stage| && s.stage[m] == Enriching
    ensures Inv(Enriched(s, m, accepted))
  {
    if m !in s.unsaved {
      SilentEndKeeps(s, m, s.fates);
    } else if !accepted {
      SilentEndKeeps(s, m, s.fates.(filtered := s.fates.filtered + {m}));
    } else {
      MoveKeeps(s, m, Resolving);
    }
  }

  /** Closed, and so with nothing of the account in the failed log but the message being written off. */
  lemma EntersAlone(s: State, m: Msg)
    requires Fifo(s.arrivals, s.stage) && StartIsQuiet(s.stage, s.unsaved, s.left, s.busy, s.starting) && OrderInv(s)
    requires s.guard.phase == Closed && m < |s.stage| && (s.stage[m] == Resolving || s.stage[m].Waiting?)
    ensures FileIsClearOf(s, m)
  {
    assert ClosedIsClear(s.arrivals, s.stage, s.file, s.past.dirty);
  }

  lemma AttemptKeeps(s: State, m: Msg, attempt: nat)
    requires Inv(s) && m < |s.stage| && ((s.stage[m] == Resolving && attempt == 0) || s.stage[m] == Waiting(attempt))
    ensures Inv(Attempt(s, m, attempt))
  {
    if s.guard.phase == Closed {
      if !s.guard.stopped { EntersAlone(s, m); }
      MoveKeeps(s, m, Attempting(attempt));
    } else {
      MoveKeeps(s, m, Refusing);
    }
  }

  // ── Out of it ────────────────────────────────────────────────────

  lemma EndsSafely(s: State, m: Msg)
    requires Inv(s) && m < |s.stage|
    ensures AnswerIsTrue(s.arrivals, s.ledger.handed, m, s.stage[m])
    ensures s.stage[m].Answered? && s.stage[m].result.Inserted? ==> Safe(s.arrivals, s.ledger.handed, s.file, s.fates, m)
    ensures s.stage[m] == WrittenOff ==> m in s.left || m in s.fates.died || Safe(s.arrivals, s.ledger.handed, s.file, s.fates, m)
  {
  }

  lemma ConcludeKeeps(s: State, m: Msg)
    requires Inv(s) && m < |s.stage| && (s.stage[m].Answered? || s.stage[m] == WrittenOff)
    ensures Inv(Conclude(s, m))
  {
    EndsSafely(s, m);
    hide Inv;
    if s.stage[m].Answered? {
      if s.stage[m].result.Inserted? {
        EmitKeeps(s, m, Some(s.stage[m].result.accountSeq));
      } else {
        SilentEndKeeps(s, m, s.fates.(duplicates := s.fates.duplicates + {m}));
      }
    } else {
      EmitKeeps(s, m, None);
    }
  }
}

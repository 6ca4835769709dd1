/** A pass ends, however it ends, and every invariant holds of what it leaves. */
module EndSteps {
  import opened MessageStore
  import opened MessageLedger
  import opened StoreGuard
  import opened InboundProtocol
  import opened ProtocolInvariants
  import opened PassLemmas
  import opened Frames

  ghost function EndWith(s: State, file: seq<Msg>, kept: seq<Msg>, failed: bool): State
    requires s.passes != []
  {
    EndPass(s.(file := file), kept, failed)
  }

  /** What is no longer in the file is safe elsewhere. */
  ghost predicate LeftBehind(arrivals: seq<Envelope>, handed: map<Account, seq<Id>>, fates: Fates, file: seq<Msg>, file': seq<Msg>) {
    && (forall e :: e in file' ==> e in file)
    && (forall e :: e in file && e !in file' ==>
          InLog(arrivals, handed, e) || e in fates.discarded || e in fates.repeated || e in fates.rejects)
  }

  /** For the order of numbers: nothing new may get one, and whoever started the pass knows what it kept. */
  ghost predicate EndsInOrder(s: State, file: seq<Msg>, kept: seq<Msg>) {
    s.passes != [] &&
    var caller := s.passes[0].caller;
    && Sorted(s.arrivals, s.past.since, file)
    && (forall u: Msg :: Candidate(s.stage, file, [], u) ==> Candidate(s.stage, s.file, OutcomesOf(s.passes), u))
    && (caller.Persist? && caller.m in file ==> caller.m in kept)
    && (caller.AtStart? ==> forall e :: e in file ==> e in kept)
    && (caller == Recover(s.writeOffs) ==> NoAppends(s.fileTurn) && forall e :: e in file ==> e in kept)
  }

  ghost predicate OnlyAppends(fileTurn: seq<FileOp>) {
    forall op :: op in fileTurn ==> IsAppend(op)
  }

  lemma EndWithPass(s: State, file: seq<Msg>, kept: seq<Msg>, failed: bool)
    requires PassInv(s) && s.passes != [] && OnlyAppends(s.fileTurn)
    ensures PassInv(EndWith(s, file, kept, failed))
  {
    EndOps(s.stage, s.fileTurn, s.passes, s.busy);
    EndCallers(s.stage, s.starting, s.writeOffs, s.passes, s.ended, kept, failed);
    EndWaits(s.passes, s.ended, kept, failed);
    EndRecovery(s.guard, s.passes, s.ended, kept, failed);
    EndTurns(s.passes);
  }

  lemma EndWithLog(s: State, file: seq<Msg>, kept: seq<Msg>, failed: bool)
    requires LogInv(s) && OnePassAtATime(s.passes) && s.passes != []
    requires LeftBehind(s.arrivals, s.ledger.handed, s.fates, s.file, file)
    ensures LogInv(EndWith(s, file, kept, failed))
  {
    EndTurns(s.passes);
  }

  lemma EndWithSafety(s: State, file: seq<Msg>, kept: seq<Msg>, failed: bool)
    requires SafetyInv(s) && OnePassAtATime(s.passes) && s.passes != []
    requires LeftBehind(s.arrivals, s.ledger.handed, s.fates, s.file, file)
    ensures SafetyInv(EndWith(s, file, kept, failed))
  {
    EndTurns(s.passes);
    assert forall m: Msg :: Safe(s.arrivals, s.ledger.handed, s.file, s.fates, m) ==>
      Safe(s.arrivals, s.ledger.handed, file, s.fates, m);
  }

  /** Read again, it would come after something that arrived no earlier. */
  predicate IsLate(arrivals: seq<Envelope>, l: Ledger, since: map<Account, nat>, u: Msg) {
    u < |arrivals| && IsPassed(HandedTo(l.handed, arrivals[u].account), SinceOf(since, arrivals[u].account), u)
  }

  lemma EndOvertaking(arrivals: seq<Envelope>, stage: seq<Stage>, file: seq<Msg>, outcomes: seq<Outcome>, file': seq<Msg>,
                      l: Ledger, past: Past, past': Past)
    requires NoOvertaking(arrivals, stage, file, outcomes, l, past) && past.dirty <= past'.dirty && past'.since == past.since
    requires forall u: Msg :: u < |arrivals| && arrivals[u].account !in past'.dirty && Candidate(stage, file', [], u) ==>
               Candidate(stage, file, outcomes, u) || HasRow(l.store.rows, u) || !IsLate(arrivals, l, past.since, u)
    ensures NoOvertaking(arrivals, stage, file', [], l, past')
  {
  }

  lemma EndFiles(arrivals: seq<Envelope>, stage: seq<Stage>, file: seq<Msg>, file': seq<Msg>,
                 ended: seq<Ended>, dirty: set<Account>, dirty': set<Account>)
    requires dirty <= dirty' && forall e :: e in file' ==> e in file
    ensures LoopIsAlone(arrivals, stage, file, dirty) ==> LoopIsAlone(arrivals, stage, file', dirty')
    ensures ClosedIsClear(arrivals, stage, file, dirty) ==> ClosedIsClear(arrivals, stage, file', dirty')
    ensures EndedIsClear(arrivals, file, ended, dirty) ==> EndedIsClear(arrivals, file', ended, dirty')
  {
  }

  lemma EndSaw(s: State, file: seq<Msg>, kept: seq<Msg>, failed: bool)
    requires s.passes != [] && OnePassAtATime(s.passes)
    requires RecoverySawAll(s.writeOffs, s.file, s.fileTurn, s.passes, s.ended)
    requires forall e :: e in file ==> e in s.file
    requires !failed && s.passes[0].caller == Recover(s.writeOffs) ==> NoAppends(s.fileTurn) && forall e :: e in file ==> e in kept
    ensures RecoverySawAll(s.writeOffs, file, s.fileTurn, s.passes[1..], EndedAfter(s.passes, s.ended, kept, failed))
  {
    EndTurns(s.passes);
  }

  lemma DirtyCovers(arrivals: seq<Envelope>, messages: seq<Msg>)
    ensures forall e :: e in messages && e < |arrivals| ==> arrivals[e].account in AccountsOf(arrivals, messages)
  {
  }

  lemma EndClear(s: State, file: seq<Msg>, kept: seq<Msg>, failed: bool)
    requires s.passes != [] && s.guard.phase == Closed && EndedIsClear(s.arrivals, s.file, s.ended, s.past.dirty)
    requires forall e :: e in file ==> e in s.file
    requires if failed then file == s.file else EndsInOrder(s, file, kept)
    ensures EndedIsClear(s.arrivals, file, EndWith(s, file, kept, failed).ended, EndWith(s, file, kept, failed).past.dirty)
  {
    hide AccountsOf, LetGo, LetGoOf;
    DirtyCovers(s.arrivals, file);
    DirtyCovers(s.arrivals, kept);
  }

  /** An entry read again is one that was still to be stored, or one the log has already, unless a pass had let go of it. */
  lemma ReadAgain(s: State, u: Msg)
    requires PassShape(s.arrivals, s.file, s.passes) && u < |s.arrivals| && s.arrivals[u].account !in LetGoOf(s)
    requires Candidate(s.stage, s.file, [], u)
    ensures Candidate(s.stage, s.file, OutcomesOf(s.passes), u) || HasRow(s.ledger.store.rows, u) ||
            !IsLate(s.arrivals, s.ledger, s.past.since, u)
  {
    if u >= |s.stage| || s.stage[u] == Done {
      var p :| 0 <= p < |s.file| && s.file[p] == u && !Leaving([], p);
      if Leaving(OutcomesOf(s.passes), p) {
        var w := s.passes[0].work;
        assert w.lines[p] == s.file[..|w.lines|][p] == u;
      }
    }
  }

  lemma EndWithOrder(s: State, file: seq<Msg>, kept: seq<Msg>, failed: bool)
    requires OrderInv(s) && OnePassAtATime(s.passes) && s.passes != []
    requires forall e :: e in file ==> e in s.file
    requires if failed then file == s.file && PassShape(s.arrivals, s.file, s.passes) else EndsInOrder(s, file, kept)
    ensures OrderInv(EndWith(s, file, kept, failed))
  {
    var t := EndWith(s, file, kept, failed);
    EndTurns(s.passes);
    if failed {
      forall u: Msg | Candidate(s.stage, s.file, [], u) && u < |s.arrivals| && s.arrivals[u].account !in t.past.dirty
        ensures Candidate(s.stage, s.file, OutcomesOf(s.passes), u) || HasRow(s.ledger.store.rows, u) ||
                !IsLate(s.arrivals, s.ledger, s.past.since, u)
      {
        ReadAgain(s, u);
      }
    }
    EndOvertaking(s.arrivals, s.stage, s.file, OutcomesOf(s.passes), file, s.ledger, s.past, t.past);
    EndFiles(s.arrivals, s.stage, s.file, file, s.ended, s.past.dirty, t.past.dirty);
    EndSaw(s, file, kept, failed);
    if s.guard.phase == Closed { EndClear(s, file, kept, failed); }
  }

  lemma EndWithKeeps(s: State, file: seq<Msg>, kept: seq<Msg>, failed: bool)
    requires Inv(s) && s.passes != [] && OnePassAtATime(s.passes) && OnlyAppends(s.fileTurn)
    requires LeftBehind(s.arrivals, s.ledger.handed, s.fates, s.file, file)
    requires if failed then file == s.file else !s.guard.stopped ==> EndsInOrder(s, file, kept)
    ensures Inv(EndWith(s, file, kept, failed))
  {
    hide QueueInv, PassInv, LogInv, SafetyInv, EmissionInv, OrderInv, EndsInOrder, OnlyAppends, PassShape;
    var t := EndWith(s, file, kept, failed);
    QueueFrame(s, t);
    EndWithPass(s, file, kept, failed);
    EndWithLog(s, file, kept, failed);
    EndWithSafety(s, file, kept, failed);
    EmissionFrame(s, t);
    if !s.guard.stopped {
      PassHasShape(s);
      EndWithOrder(s, file, kept, failed);
    }
  }

  lemma PassHasShape(s: State)
    requires PassInv(s)
    ensures PassShape(s.arrivals, s.file, s.passes)
  {
  }
}

/** A pass writes down its outcome: first what is rejected, then what the failed log keeps. */
module KeepSteps {
  import opened InboundProtocol
  import opened ProtocolInvariants
  import opened PassLemmas
  import opened FileSteps
  import opened EndSteps
  import opened WorkSteps
  import opened LineSteps

  // ── The lines are through ────────────────────────────────────────

  lemma WritingFacts(s: State, work: Work)
    requires Inv(s) && s.passes != [] && s.passes[0].work.Running?
    requires work == Rejecting(s.passes[0].work.lines, s.passes[0].work.outcomes) ||
             (work == Keeping(s.passes[0].work.lines, s.passes[0].work.outcomes) && Rejected !in work.outcomes)
    requires |work.outcomes| == |work.lines|
    ensures PassShape(s.arrivals, s.file, Reworked(s.passes, work)) && LineIsLate(s.stage, Reworked(s.passes, work))
    ensures OutcomesHold(s.arrivals, s.ledger.handed, s.fates, Reworked(s.passes, work))
    ensures !s.guard.stopped ==> WorksInOrder(s, work)
    ensures OnlyAppends(s.fileTurn)
  {
    OnlyAppendsWait(s);
  }

  /** Nothing left: the file stays as it is, and so does what the pass kept. */
  lemma AllStayFacts(s: State)
    requires Inv(s) && s.passes != [] && s.passes[0].work.Running? && |s.passes[0].work.outcomes| == |s.passes[0].work.lines|
    requires Rejected !in s.passes[0].work.outcomes && Left !in s.passes[0].work.outcomes
    ensures OnlyAppends(s.fileTurn) && OnePassAtATime(s.passes) && LeftBehind(s.arrivals, s.ledger.handed, s.fates, s.file, s.file)
    ensures !s.guard.stopped ==> EndsInOrder(s, s.file, LinesThat(s.passes[0].work.lines, s.passes[0].work.outcomes, Kept))
  {
    var w := s.passes[0].work;
    OnlyAppendsWait(s);
    forall j | 0 <= j < |w.outcomes| ensures w.outcomes[j] == Kept {
      assert w.outcomes[j] in w.outcomes;
    }
    AllKept(w.lines, w.outcomes);
    assert w.lines[..|w.outcomes|] == w.lines;
    if !s.guard.stopped { StaysInOrder(s); }
  }

  lemma StaysInOrder(s: State)
    requires OrderInv(s) && s.passes != [] && s.passes[0].work.Running?
    requires |s.passes[0].work.outcomes| == |s.passes[0].work.lines| <= |s.file|
    requires s.file[..|s.passes[0].work.lines|] == s.passes[0].work.lines
    requires forall j :: 0 <= j < |s.passes[0].work.outcomes| ==> s.passes[0].work.outcomes[j] == Kept
    ensures EndsInOrder(s, s.file, s.passes[0].work.lines)
  {
    var lines := s.passes[0].work.lines;
    forall e | e in s.file ensures e in lines || e in s.file[|lines|..] {
      assert s.file == s.file[..|lines|] + s.file[|lines|..];
    }
    forall u: Msg | Candidate(s.stage, s.file, [], u) ensures Candidate(s.stage, s.file, OutcomesOf(s.passes), u) {
      if u >= |s.stage| || s.stage[u] == Done {
        var p :| 0 <= p < |s.file| && s.file[p] == u && !Leaving([], p);
        assert !Leaving(s.passes[0].work.outcomes, p);
      }
    }
    if |lines| == |s.file| { assert s.file == lines; }
  }

  lemma EndLinesKeeps(s: State)
    requires Inv(s) && s.passes != [] && s.passes[0].work.Running? && |s.passes[0].work.outcomes| == |s.passes[0].work.lines|
    ensures Inv(EndLines(s))
  {
    hide Inv, OnlyAppends, OnePassAtATime, PassShape, LineIsLate, OutcomesHold, WorksInOrder, LeftBehind, EndsInOrder;
    var w := s.passes[0].work;
    if Rejected in w.outcomes {
      WritingFacts(s, Rejecting(w.lines, w.outcomes));
      WorkKeeps(s, Rejecting(w.lines, w.outcomes));
      AskKeeps(WithWork(s, Rejecting(w.lines, w.outcomes)), Reject);
    } else if Left in w.outcomes {
      WritingFacts(s, Keeping(w.lines, w.outcomes));
      WorkKeeps(s, Keeping(w.lines, w.outcomes));
      AskKeeps(WithWork(s, Keeping(w.lines, w.outcomes)), Keep);
    } else {
      AllStayFacts(s);
      EndWithKeeps(s, s.file, LinesThat(w.lines, w.outcomes, Kept), false);
      assert s.(file := s.file) == s;
    }
  }

  // ── The rejects are written ──────────────────────────────────────

  function WithRejects(fates: Fates, lines: seq<Msg>, outcomes: seq<Outcome>): Fates
    requires |outcomes| <= |lines|
  {
    fates.(rejects := fates.rejects + Elements(LinesThat(lines, outcomes, Rejected)))
  }

  lemma RejectFacts(s: State)
    requires Inv(s) && ReadyToReject(s.passes)
    ensures var w := s.passes[0].work;
      var work, fates := Keeping(w.lines, w.outcomes), WithRejects(s.fates, w.lines, w.outcomes);
      && PassShape(s.arrivals, s.file, Reworked(s.passes, work)) && LineIsLate(s.stage, Reworked(s.passes, work))
      && OutcomesHold(s.arrivals, s.ledger.handed, fates, Reworked(s.passes, work))
      && (!s.guard.stopped ==> WorksInOrder(s, work))
  {
    var w := s.passes[0].work;
    LinesThatMembers(w.lines, w.outcomes, Rejected);
  }

  lemma RejectKeeps(s: State, ok: bool)
    requires Inv(s) && s.fileTurn != [] && s.fileTurn[0] == Reject && ReadyToReject(s.passes)
    ensures Inv(FileStep(s, ok))
  {
    hide Inv, OnlyAppends, OnePassAtATime, PassShape, LineIsLate, OutcomesHold, WorksInOrder, LeftBehind;
    PopKeeps(s);
    var t, w := Popped(s), s.passes[0].work;
    if ok {
      var fates, work := WithRejects(s.fates, w.lines, w.outcomes), Keeping(w.lines, w.outcomes);
      RejectFacts(t);
      FatesKeep(t, fates);
      WorksSame(t, t.(fates := fates), work);
      WorkKeeps(t.(fates := fates), work);
      AskKeeps(WithWork(t.(fates := fates), work), Keep);
    } else {
      FailKeeps(t);
    }
  }

  lemma WorksSame(s: State, t: State, work: Work)
    requires t.passes == s.passes && t.file == s.file && t.writeOffs == s.writeOffs && t.fileTurn == s.fileTurn
    requires t.guard.stopped == s.guard.stopped
    requires !s.guard.stopped ==> WorksInOrder(s, work)
    ensures !t.guard.stopped ==> WorksInOrder(t, work)
  {
  }

  // ── The kept lines are written ───────────────────────────────────

  lemma KeepsLeftBehind(s: State)
    requires PassInv(s) && SafetyInv(s) && ReadyToKeep(s.passes, s.file)
    ensures var w := s.passes[0].work;
      LeftBehind(s.arrivals, s.ledger.handed, s.fates, s.file, Leaves(w.lines, w.outcomes, s.file))
  {
    var w := s.passes[0].work;
    var left := Leaves(w.lines, w.outcomes, s.file);
    LinesThatMembers(w.lines, w.outcomes, Kept);
    forall e | e in left ensures e in s.file {
      var i :| 0 <= i < |left| && left[i] == e;
      LeavesMembers(w.lines, w.outcomes, s.file, i);
    }
    forall e | e in s.file && e !in left
      ensures InLog(s.arrivals, s.ledger.handed, e) || e in s.fates.discarded || e in s.fates.repeated || e in s.fates.rejects
    {
      var p :| 0 <= p < |s.file| && s.file[p] == e;
      assert forall q :: |w.lines| <= q < |s.file| ==> left[|left| - |s.file| + q] == s.file[q];
      assert w.lines[p] == s.file[..|w.lines|][p] == e;
      assert w.outcomes[p] != Kept;
    }
  }

  lemma KeepsInOrder(s: State)
    requires OrderInv(s) && PassShape(s.arrivals, s.file, s.passes) && ReadyToKeep(s.passes, s.file)
    ensures var w := s.passes[0].work;
      EndsInOrder(s, Leaves(w.lines, w.outcomes, s.file), LinesThat(w.lines, w.outcomes, Kept))
  {
    var w := s.passes[0].work;
    var left, kept := Leaves(w.lines, w.outcomes, s.file), LinesThat(w.lines, w.outcomes, Kept);
    LeavesSorted(s.arrivals, s.past.since, w.lines, w.outcomes, s.file);
    forall u: Msg | Candidate(s.stage, left, [], u) ensures Candidate(s.stage, s.file, OutcomesOf(s.passes), u) {
      if u >= |s.stage| || s.stage[u] == Done {
        var i :| 0 <= i < |left| && left[i] == u && !Leaving([], i);
        LeavesMembers(w.lines, w.outcomes, s.file, i);
      }
    }
    assert forall e :: e in left ==> e in kept || e in s.file[|w.lines|..];
  }

  lemma KeepFacts(s: State)
    requires Inv(s) && ReadyToKeep(s.passes, s.file)
    ensures var w := s.passes[0].work;
      && LeftBehind(s.arrivals, s.ledger.handed, s.fates, s.file, Leaves(w.lines, w.outcomes, s.file))
      && (!s.guard.stopped ==> EndsInOrder(s, Leaves(w.lines, w.outcomes, s.file), LinesThat(w.lines, w.outcomes, Kept)))
  {
    hide LeftBehind, EndsInOrder, SafetyInv, LogInv, QueueInv, EmissionInv, OrderInv;
    KeepsLeftBehind(s);
    if !s.guard.stopped { KeepsInOrder(s); }
  }

  lemma KeepKeeps(s: State, ok: bool)
    requires Inv(s) && s.fileTurn != [] && s.fileTurn[0] == Keep && ReadyToKeep(s.passes, s.file)
    ensures Inv(FileStep(s, ok))
  {
    hide Inv, OnlyAppends, OnePassAtATime, LeftBehind, EndsInOrder;
    PopKeeps(s);
    var t, w := Popped(s), s.passes[0].work;
    if ok {
      KeepFacts(t);
      EndWithKeeps(t, Leaves(w.lines, w.outcomes, s.file), LinesThat(w.lines, w.outcomes, Kept), false);
    } else {
      FailKeeps(t);
    }
  }

  lemma FileStepKeeps(s: State, ok: bool)
    requires Inv(s) && FileOpReady(s)
    ensures Inv(FileStep(s, ok))
  {
    hide Inv;
    match s.fileTurn[0]
    case Append(m) => AppendKeeps(s, m, ok);
    case AppendLeft(m) => AppendLeftKeeps(s, m, ok);
    case Read => ReadKeeps(s, ok);
    case Reject => RejectKeeps(s, ok);
    case Keep => KeepKeeps(s, ok);
  }
}

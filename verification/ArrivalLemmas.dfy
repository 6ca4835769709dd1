/** What survives one more arrival: everything said of the messages so far. */
module ArrivalLemmas {
  import opened Options
  import opened MessageStore
  import opened MessageLedger
  import opened InboundProtocol
  import opened ProtocolInvariants

  lemma OpsArrive(stage: seq<Stage>, fileTurn: seq<FileOp>, passes: seq<Pass>, busy: Option<Msg>)
    requires OpsMatch(stage, fileTurn, passes, busy)
    ensures OpsMatch(stage + [Queued], fileTurn, passes, busy)
  {
    forall op | op in fileTurn ensures OpMatches(stage + [Queued], passes, busy, op) {
      assert OpMatches(stage, passes, busy, op);
    }
  }

  lemma CallersArrive(stage: seq<Stage>, starting: bool, writeOffs: nat, passes: seq<Pass>, ended: seq<Ended>)
    requires CallersHold(stage, starting, writeOffs, passes, ended)
    ensures CallersHold(stage + [Queued], starting, writeOffs, passes, ended)
  {
    forall i | 0 <= i < |passes| ensures CallerHolds(stage + [Queued], starting, writeOffs, passes[i].caller) {
      assert CallerHolds(stage, starting, writeOffs, passes[i].caller);
    }
    forall i | 0 <= i < |ended| ensures CallerHolds(stage + [Queued], starting, writeOffs, ended[i].caller) {
      assert CallerHolds(stage, starting, writeOffs, ended[i].caller);
    }
  }

  lemma HeldBackArrive(arrivals: seq<Envelope>, envelope: Envelope, lines: seq<Msg>, outcomes: seq<Outcome>, m: Msg)
    requires m < |arrivals| && forall e :: e in lines ==> e < |arrivals|
    ensures HeldBack(arrivals + [envelope], lines, outcomes, m) == HeldBack(arrivals, lines, outcomes, m)
  {
    var more := arrivals + [envelope];
    forall j | 0 <= j < |lines| ensures SameAccount(more, lines[j], m) == SameAccount(arrivals, lines[j], m) {
      assert lines[j] in lines;
      assert more[lines[j]] == arrivals[lines[j]] && more[m] == arrivals[m];
    }
  }

  lemma PassArrives(arrivals: seq<Envelope>, envelope: Envelope, file: seq<Msg>, passes: seq<Pass>)
    requires PassShape(arrivals, file, passes) && FileKnown(arrivals, file)
    ensures PassShape(arrivals + [envelope], file, passes)
  {
    if Processing(passes) {
      var w := passes[0].work;
      var more := arrivals + [envelope];
      assert forall j :: 0 <= j < |w.lines| ==> w.lines[j] == file[j] && file[j] in file;
      assert forall i, j :: 0 <= i < |w.lines| && 0 <= j < |w.lines| ==>
        SameAccount(more, w.lines[i], w.lines[j]) == SameAccount(arrivals, w.lines[i], w.lines[j]);
      if w.Running? && w.line != Next {
        HeldBackArrive(arrivals, envelope, w.lines, w.outcomes, w.lines[|w.outcomes|]);
      }
    }
  }

  lemma LogArrives(arrivals: seq<Envelope>, envelope: Envelope, handed: map<Account, seq<Id>>)
    requires HandedKnown(arrivals, handed)
    ensures HandedKnown(arrivals + [envelope], handed)
    ensures !InLog(arrivals + [envelope], handed, |arrivals|)
    ensures forall m :: 0 <= m < |arrivals| ==> InLog(arrivals + [envelope], handed, m) == InLog(arrivals, handed, m)
  {
    var more := arrivals + [envelope];
    forall a, id | id in HandedTo(handed, a) ensures id < |arrivals| && more[id].account == a {
      assert arrivals[id].account == a;
    }
  }

  lemma LoggedArrive(arrivals: seq<Envelope>, envelope: Envelope, stage: seq<Stage>, handed: map<Account, seq<Id>>)
    requires LoggedWereTried(arrivals, stage, handed) && HandedKnown(arrivals, handed) && |stage| == |arrivals|
    ensures LoggedWereTried(arrivals + [envelope], stage + [Queued], handed)
  {
    LogArrives(arrivals, envelope, handed);
  }

  lemma RowsArrive(arrivals: seq<Envelope>, envelope: Envelope, stage: seq<Stage>, file: seq<Msg>, left: set<Msg>, l: Ledger,
                   forgotten: set<Msg>)
    requires RowsStay(arrivals, stage, file, left, l, forgotten) && HandedKnown(arrivals, l.handed) && |stage| == |arrivals|
    ensures RowsStay(arrivals + [envelope], stage + [Queued], file, left, l, forgotten)
  {
    LogArrives(arrivals, envelope, l.handed);
  }

  lemma WrittenOffArrive(arrivals: seq<Envelope>, envelope: Envelope, stage: seq<Stage>, left: set<Msg>,
                         handed: map<Account, seq<Id>>, file: seq<Msg>, fates: Fates)
    requires WrittenOffAreSafe(arrivals, stage, left, handed, file, fates) && |stage| == |arrivals|
    ensures WrittenOffAreSafe(arrivals + [envelope], stage + [Queued], left, handed, file, fates)
  {
  }

  lemma EmittedArrive(arrivals: seq<Envelope>, envelope: Envelope, stage: seq<Stage>, emitted: seq<Emission>)
    requires EmittedInOrder(arrivals, stage, emitted) && |stage| == |arrivals|
    ensures EmittedInOrder(arrivals + [envelope], stage + [Queued], emitted)
    ensures forall i :: 0 <= i < |emitted| ==> emitted[i].m < |arrivals|
  {
  }

  lemma NumbersArrive(arrivals: seq<Envelope>, envelope: Envelope, handed: map<Account, seq<Id>>, emitted: seq<Emission>)
    requires EmittedAreLogged(arrivals, handed, emitted) && NumbersIncrease(arrivals, emitted)
    ensures EmittedAreLogged(arrivals + [envelope], handed, emitted)
    ensures NumbersIncrease(arrivals + [envelope], emitted)
  {
    forall i | 0 <= i < |emitted| && emitted[i].number.Some?
      ensures Numbered(arrivals + [envelope], handed, emitted[i].m, emitted[i].number.value)
    {
      assert Numbered(arrivals, handed, emitted[i].m, emitted[i].number.value);
    }
    forall i, j | 0 <= i < j < |emitted| && SameAccount(arrivals + [envelope], emitted[i].m, emitted[j].m) &&
                  emitted[i].number.Some? && emitted[j].number.Some?
      ensures emitted[i].number.value < emitted[j].number.value
    {
      assert Numbered(arrivals, handed, emitted[i].m, emitted[i].number.value);
      assert Numbered(arrivals, handed, emitted[j].m, emitted[j].number.value);
      assert SameAccount(arrivals, emitted[i].m, emitted[j].m);
    }
  }

  lemma UnfinishedArrive(arrivals: seq<Envelope>, envelope: Envelope, stage: seq<Stage>, handed: map<Account, seq<Id>>,
                         emitted: seq<Emission>)
    requires UnfinishedAreAhead(arrivals, stage, handed, emitted) && |stage| == |arrivals| && HandedKnown(arrivals, handed)
    requires forall i :: 0 <= i < |emitted| ==> emitted[i].m < |arrivals|
    ensures UnfinishedAreAhead(arrivals + [envelope], stage + [Queued], handed, emitted)
  {
    var more, stage' := arrivals + [envelope], stage + [Queued];
    forall i, m, number | 0 <= i < |emitted| && emitted[i].number.Some? && 0 <= m < |stage'| && stage'[m] != Done &&
                          SameAccount(more, emitted[i].m, m) && Numbered(more, handed, m, number)
      ensures emitted[i].number.value < number
    {
      LogArrives(arrivals, envelope, handed);
      assert InLog(more, handed, m);
      assert Numbered(arrivals, handed, m, number) && SameAccount(arrivals, emitted[i].m, m);
    }
  }

  lemma AnswersArrive(arrivals: seq<Envelope>, envelope: Envelope, stage: seq<Stage>, handed: map<Account, seq<Id>>)
    requires AnswersAreTrue(arrivals, stage, handed)
    ensures AnswersAreTrue(arrivals + [envelope], stage + [Queued], handed)
  {
  }

  lemma OvertakingArrives(arrivals: seq<Envelope>, envelope: Envelope, stage: seq<Stage>, file: seq<Msg>,
                          outcomes: seq<Outcome>, l: Ledger, past: Past)
    requires NoOvertaking(arrivals, stage, file, outcomes, l, past) && |stage| == |arrivals|
    requires FileKnown(arrivals, file) && HandedKnown(arrivals, l.handed)
    ensures NoOvertaking(arrivals + [envelope], stage + [Queued], file, outcomes, l, past)
  {
    var more, stage' := arrivals + [envelope], stage + [Queued];
    forall m, k | 0 <= m < |more| && more[m].account !in past.dirty && Candidate(stage', file, outcomes, m) &&
                  !HasRow(l.store.rows, m) && k in HandedTo(l.handed, more[m].account) &&
                  SinceOf(past.since, more[m].account) <= k
      ensures k < m
    {
      if m == |arrivals| {
        assert more[m] == envelope;
      } else {
        assert Candidate(stage, file, outcomes, m);
      }
    }
  }

  lemma FilesArrive(arrivals: seq<Envelope>, envelope: Envelope, stage: seq<Stage>, file: seq<Msg>, ended: seq<Ended>,
                    past: Past)
    requires FileKnown(arrivals, file) && |stage| == |arrivals|
    ensures Sorted(arrivals, past.since, file) ==> Sorted(arrivals + [envelope], past.since, file)
    ensures LoopIsAlone(arrivals, stage, file, past.dirty) ==> LoopIsAlone(arrivals + [envelope], stage + [Queued], file, past.dirty)
    ensures ClosedIsClear(arrivals, stage, file, past.dirty) ==>
              ClosedIsClear(arrivals + [envelope], stage + [Queued], file, past.dirty)
    ensures EndedIsClear(arrivals, file, ended, past.dirty) ==> EndedIsClear(arrivals + [envelope], file, ended, past.dirty)
  {
    var more := arrivals + [envelope];
    assert forall e :: e in file ==> e < |arrivals| && more[e] == arrivals[e];
  }
}

/** What a pass keeps of its lines, and what survives its end. */
module PassLemmas {
  import opened Options
  import opened MessageStore
  import opened StoreGuard
  import opened InboundProtocol
  import opened ProtocolInvariants

  // ── The lines with an outcome ────────────────────────────────────

  lemma {:induction false} LinesThatMember(lines: seq<Msg>, outcomes: seq<Outcome>, outcome: Outcome, m: Msg)
    requires |outcomes| <= |lines|
    ensures m in LinesThat(lines, outcomes, outcome) <==>
              exists j :: 0 <= j < |outcomes| && outcomes[j] == outcome && lines[j] == m
    decreases |outcomes|
  {
    if outcomes == [] {
    } else {
      var last := |outcomes| - 1;
      LinesThatMember(lines, outcomes[..last], outcome, m);
      assert forall j :: 0 <= j < last ==> outcomes[..last][j] == outcomes[j];
      if outcomes[last] == outcome && lines[last] == m {
      } else if j :| 0 <= j < |outcomes| && outcomes[j] == outcome && lines[j] == m {
        assert j < last && outcomes[..last][j] == outcome;
      }
    }
  }

  lemma LinesThatMembers(lines: seq<Msg>, outcomes: seq<Outcome>, outcome: Outcome)
    requires |outcomes| <= |lines|
    ensures forall m :: m in LinesThat(lines, outcomes, outcome) <==>
              exists j :: 0 <= j < |outcomes| && outcomes[j] == outcome && lines[j] == m
  {
    forall m ensures m in LinesThat(lines, outcomes, outcome) <==>
                       exists j :: 0 <= j < |outcomes| && outcomes[j] == outcome && lines[j] == m
    {
      LinesThatMember(lines, outcomes, outcome, m);
    }
  }

  lemma {:induction false} LinesThatSorted(arrivals: seq<Envelope>, since: map<Account, nat>, lines: seq<Msg>,
                                           outcomes: seq<Outcome>, outcome: Outcome)
    requires |outcomes| <= |lines| && Sorted(arrivals, since, lines)
    ensures Sorted(arrivals, since, LinesThat(lines, outcomes, outcome))
    decreases |outcomes|
  {
    if outcomes == [] {
    } else {
      var last := |outcomes| - 1;
      var before := LinesThat(lines, outcomes[..last], outcome);
      LinesThatSorted(arrivals, since, lines, outcomes[..last], outcome);
      LinesThatMembers(lines, outcomes[..last], outcome);
      forall i | 0 <= i < |before| && SameAccount(arrivals, before[i], lines[last]) &&
                 SinceOf(since, arrivals[before[i]].account) <= before[i]
        ensures before[i] < lines[last]
      {
        assert before[i] in before;
      }
    }
  }

  lemma {:induction false} AllKept(lines: seq<Msg>, outcomes: seq<Outcome>)
    requires |outcomes| <= |lines| && forall j :: 0 <= j < |outcomes| ==> outcomes[j] == Kept
    ensures LinesThat(lines, outcomes, Kept) == lines[..|outcomes|]
    decreases |outcomes|
  {
    if outcomes == [] {
    } else {
      AllKept(lines, outcomes[..|outcomes| - 1]);
    }
  }

  /** The file a pass leaves: what it kept, and what came meanwhile. */
  function Leaves(lines: seq<Msg>, outcomes: seq<Outcome>, file: seq<Msg>): seq<Msg>
    requires |outcomes| == |lines| <= |file|
  {
    LinesThat(lines, outcomes, Kept) + file[|lines|..]
  }

  lemma LeavesMembers(lines: seq<Msg>, outcomes: seq<Outcome>, file: seq<Msg>, i: nat)
    requires |outcomes| == |lines| <= |file| && file[..|lines|] == lines && i < |Leaves(lines, outcomes, file)|
    ensures exists p :: 0 <= p < |file| && file[p] == Leaves(lines, outcomes, file)[i] && !Leaving(outcomes, p) &&
                        (p < |lines| <==> i < |LinesThat(lines, outcomes, Kept)|)
  {
    var kept, left := LinesThat(lines, outcomes, Kept), Leaves(lines, outcomes, file);
    if i < |kept| {
      LinesThatMember(lines, outcomes, Kept, left[i]);
      assert kept[i] in kept;
      var j :| 0 <= j < |outcomes| && outcomes[j] == Kept && lines[j] == left[i];
      assert file[j] == lines[j];
    } else {
      assert file[|lines| + (i - |kept|)] == left[i];
    }
  }

  lemma LeavesSorted(arrivals: seq<Envelope>, since: map<Account, nat>, lines: seq<Msg>, outcomes: seq<Outcome>, file: seq<Msg>)
    requires |outcomes| == |lines| <= |file| && file[..|lines|] == lines && Sorted(arrivals, since, file)
    ensures Sorted(arrivals, since, Leaves(lines, outcomes, file))
  {
    var kept, left := LinesThat(lines, outcomes, Kept), Leaves(lines, outcomes, file);
    assert forall j :: 0 <= j < |lines| ==> lines[j] == file[j];
    LinesThatSorted(arrivals, since, lines, outcomes, Kept);
    forall i, j | 0 <= i < j < |left| && SameAccount(arrivals, left[i], left[j]) && SinceOf(since, arrivals[left[i]].account) <= left[i]
      ensures left[i] < left[j]
    {
      if j >= |kept| {
        assert left[j] == file[|lines| + (j - |kept|)];
        LeavesMembers(lines, outcomes, file, i);
        if i >= |kept| { assert left[i] == file[|lines| + (i - |kept|)]; }
      }
    }
  }

  // ── The end of a pass ────────────────────────────────────────────

  lemma EndOps(stage: seq<Stage>, fileTurn: seq<FileOp>, passes: seq<Pass>, busy: Option<Msg>)
    requires OpsMatch(stage, fileTurn, passes, busy) && passes != [] && forall op :: op in fileTurn ==> IsAppend(op)
    ensures OpsMatch(stage, fileTurn, passes[1..], busy)
  {
    forall op | op in fileTurn ensures OpMatches(stage, passes[1..], busy, op) {
      assert OpMatches(stage, passes, busy, op);
    }
  }

  function EndedAfter(passes: seq<Pass>, ended: seq<Ended>, kept: seq<Msg>, failed: bool): seq<Ended>
    requires passes != []
  {
    if passes[0].caller == Timer then ended else ended + [Ended(passes[0].caller, kept, failed)]
  }

  lemma EndCallers(stage: seq<Stage>, starting: bool, writeOffs: nat, passes: seq<Pass>, ended: seq<Ended>, kept: seq<Msg>, failed: bool)
    requires passes != [] && CallersHold(stage, starting, writeOffs, passes, ended)
    ensures CallersHold(stage, starting, writeOffs, passes[1..], EndedAfter(passes, ended, kept, failed))
  {
    assert CallerHolds(stage, starting, writeOffs, passes[0].caller);
  }

  lemma EndWaits(passes: seq<Pass>, ended: seq<Ended>, kept: seq<Msg>, failed: bool)
    requires passes != [] && WaitsOnce(passes, ended)
    ensures WaitsOnce(passes[1..], EndedAfter(passes, ended, kept, failed))
  {
  }

  lemma EndRecovery(g: Guard, passes: seq<Pass>, ended: seq<Ended>, kept: seq<Msg>, failed: bool)
    requires passes != [] && RecoveryRuns(g, passes, ended)
    ensures RecoveryRuns(g, passes[1..], EndedAfter(passes, ended, kept, failed))
  {
    if IsRecovering(g) {
      var more := EndedAfter(passes, ended, kept, failed);
      if i :| 0 <= i < |passes| && passes[i].caller.Recover? {
        if i == 0 { assert more[|ended|].caller.Recover?; } else { assert passes[1..][i - 1].caller.Recover?; }
      } else {
        var i :| 0 <= i < |ended| && ended[i].caller.Recover?;
        assert more[i].caller.Recover?;
      }
    }
  }

  lemma EndTurns(passes: seq<Pass>)
    requires passes != [] && OnePassAtATime(passes)
    ensures OnePassAtATime(passes[1..]) && !Processing(passes[1..]) && OutcomesOf(passes[1..]) == []
    ensures passes[1..] != [] ==> passes[1..][0].work.Turn?
  {
  }
}

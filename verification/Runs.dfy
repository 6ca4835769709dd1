/** Runs, put together step by step. */
module Runs {
  import opened InboundProtocol

  /** Some steps lead from one state to the other. */
  ghost predicate Leads(s: State, t: State) {
    exists events :: IsRun(s, events) && After(s, events) == t
  }

  lemma {:induction false} RunThenStep(s: State, events: seq<Event>, e: Event)
    requires IsRun(s, events) && Enabled(After(s, events), e)
    ensures IsRun(s, events + [e]) && After(s, events + [e]) == Step(After(s, events), e)
    decreases |events|
  {
    if events == [] {
      assert events + [e] == [e];
      assert [e][1..] == [];
    } else {
      hide Step, Enabled;
      RunThenStep(Step(s, events[0]), events[1..], e);
      assert (events + [e])[1..] == events[1..] + [e];
    }
  }

  /** One more step. */
  lemma AndThen(s: State, t: State, e: Event)
    requires Leads(s, t) && Enabled(t, e)
    ensures Leads(s, Step(t, e))
  {
    hide Step, Enabled;
    var events :| IsRun(s, events) && After(s, events) == t;
    RunThenStep(s, events, e);
  }

  lemma FromTheStart(s: State)
    ensures Leads(s, s)
  {
    assert IsRun(s, []) && After(s, []) == s;
  }
}

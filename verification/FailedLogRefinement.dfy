/**
 The failed log of the protocol is a sequence of messages; the one on disk is lines of text with junk among them.
 What the protocol's steps do to the sequence is what the file's operations do to its readable entries.
 */
module FailedLogRefinement {
  import opened JsonText
  import opened FailedLines
  import F = FailedInboundFile
  import P = InboundProtocol

  type Msg = P.Msg

  function Texts(messages: seq<Msg>, text: Msg -> string): seq<string> {
    seq(|messages|, i requires 0 <= i < |messages| => text(messages[i]))
  }

  /** The file's readable entries are the messages, in order. */
  ghost predicate Holds(content: string, messages: seq<Msg>, text: Msg -> string) {
    Entries(ReadLines(content)) == Texts(messages, text)
  }

  lemma TextsIn(a: seq<Msg>, b: seq<Msg>, text: Msg -> string)
    ensures Texts(a + b, text) == Texts(a, text) + Texts(b, text)
  {
  }

  /** An append adds the message, or leaves what there was: it is the protocol's append, which works or loses it. */
  lemma AppendRefines(content: string, messages: seq<Msg>, text: Msg -> string, m: Msg, written: nat)
    requires Holds(content, messages, text)
    ensures var attempt := Attempt(text(m), written);
      Holds(Appended(content, attempt), if IsComplete(content, attempt) then messages + [m] else messages, text)
  {
    hide Entries, ReadLines;
    AppendReads(content, Attempt(text(m), written));
    TextsIn(messages, [m], text);
    assert Texts([m], text) == [text(m)];
  }

  function OutcomeOf(verdict: F.Verdict): P.Outcome {
    match verdict
    case Saves => P.Left
    case RefusesForGood => P.Rejected
    case Fails => P.Kept
  }

  /** What becomes of the readable lines, in order. */
  function Outcomes(lines: seq<string>, save: nat -> F.Verdict): seq<P.Outcome> {
    if lines == [] then []
    else
      var n := |lines| - 1;
      Outcomes(lines[..n], save) + (if Parse(lines[n]).Some? then [OutcomeOf(save(n))] else [])
  }

  lemma EntriesLast(lines: seq<string>)
    requires lines != []
    ensures var n := |lines| - 1;
      Entries(lines) == Entries(lines[..n]) + (match Parse(lines[n]) case Some(t) => [t] case None => [])
  {
    var n := |lines| - 1;
    EntriesIn(lines[..n], [lines[n]]);
    assert lines == lines[..n] + [lines[n]];
    assert [lines[n]][1..] == [];
  }

  lemma {:induction false} AsManyOutcomes(lines: seq<string>, save: nat -> F.Verdict)
    ensures |Outcomes(lines, save)| == |Entries(lines)|
  {
    if lines == [] {
    } else {
      AsManyOutcomes(lines[..|lines| - 1], save);
      EntriesLast(lines);
    }
  }

  /** The protocol's word for a fate, and the verdict that has it. */
  function OutcomeFor(fate: F.Fate): P.Outcome {
    match fate
    case Saved => P.Left
    case Rejected => P.Rejected
    case Kept => P.Kept
  }

  function VerdictFor(fate: F.Fate): F.Verdict {
    match fate
    case Saved => F.Saves
    case Rejected => F.RefusesForGood
    case Kept => F.Fails
  }

  function MessagesThat(lines: seq<string>, messages: seq<Msg>, save: nat -> F.Verdict, fate: F.Fate): seq<Msg>
    requires |Outcomes(lines, save)| <= |messages|
  {
    P.LinesThat(messages, Outcomes(lines, save), OutcomeFor(fate))
  }

  /** Junk among the lines does not shift anyone's outcome: what is saved, rejected and kept are the messages with that outcome. */
  lemma {:induction false} FatesRefine(lines: seq<string>, messages: seq<Msg>, text: Msg -> string, save: nat -> F.Verdict, fate: F.Fate)
    requires Entries(lines) == Texts(messages, text)
    ensures |Outcomes(lines, save)| == |messages|
    ensures Entries(F.Those(lines, save, fate)) == Texts(MessagesThat(lines, messages, save, fate), text)
    decreases |lines|
  {
    hide F.Those, MessagesThat, OutcomeOf, VerdictFor;
    AsManyOutcomes(lines, save);
    if lines == [] {
      NothingHasAFate(messages, save, fate);
    } else {
      var n := |lines| - 1;
      EntriesLast(lines);
      FateLast(lines, save, fate);
      if Parse(lines[n]).None? {
        assert Entries(lines) == Entries(lines[..n]);
        assert Outcomes(lines, save) == Outcomes(lines[..n], save);
        FatesRefine(lines[..n], messages, text, save, fate);
        SameOutcomes(lines, lines[..n], messages, save, fate);
      } else {
        var last := |messages| - 1;
        assert Texts(messages, text)[..last] == Texts(messages[..last], text);
        assert (Entries(lines[..n]) + [Parse(lines[n]).value])[..last] == Entries(lines[..n]);
        assert Texts(messages, text)[last] == text(messages[last]);
        FatesRefine(lines[..n], messages[..last], text, save, fate);
        LastOutcome(lines, messages, text, save, fate);
      }
    }
  }

  lemma NothingHasAFate(messages: seq<Msg>, save: nat -> F.Verdict, fate: F.Fate)
    ensures F.Those([], save, fate) == [] && MessagesThat([], messages, save, fate) == []
  {
  }

  lemma SameOutcomes(lines: seq<string>, others: seq<string>, messages: seq<Msg>, save: nat -> F.Verdict, fate: F.Fate)
    requires Outcomes(lines, save) == Outcomes(others, save) && |Outcomes(lines, save)| <= |messages|
    ensures MessagesThat(lines, messages, save, fate) == MessagesThat(others, messages, save, fate)
  {
  }

  lemma FateLast(lines: seq<string>, save: nat -> F.Verdict, fate: F.Fate)
    requires lines != []
    ensures var n := |lines| - 1;
      Entries(F.Those(lines, save, fate)) ==
      Entries(F.Those(lines[..n], save, fate)) +
      (if Parse(lines[n]).Some? && save(n) == VerdictFor(fate) then [Parse(lines[n]).value] else [])
  {
    var n := |lines| - 1;
    if F.FateOf(lines[n], save(n)) == fate {
      EntriesIn(F.Those(lines[..n], save, fate), [lines[n]]);
      assert [lines[n]][1..] == [];
    } else {
      assert F.Those(lines, save, fate) == F.Those(lines[..n], save, fate);
    }
  }

  lemma LastOutcome(lines: seq<string>, messages: seq<Msg>, text: Msg -> string, save: nat -> F.Verdict, fate: F.Fate)
    requires lines != [] && messages != [] && Parse(lines[|lines| - 1]).Some?
    requires |Outcomes(lines, save)| == |messages| && |Outcomes(lines[..|lines| - 1], save)| == |messages| - 1
    ensures var n, last := |lines| - 1, |messages| - 1;
      Texts(MessagesThat(lines, messages, save, fate), text) ==
      Texts(MessagesThat(lines[..n], messages[..last], save, fate), text) +
      (if save(n) == VerdictFor(fate) then [text(messages[last])] else [])
  {
    var n, last := |lines| - 1, |messages| - 1;
    var before, outcomes := Outcomes(lines[..n], save), Outcomes(lines, save);
    assert outcomes[..last] == before;
    SameLines(messages, messages[..last], before, OutcomeFor(fate));
    TextsIn(P.LinesThat(messages, before, OutcomeFor(fate)), if save(n) == VerdictFor(fate) then [messages[last]] else [], text);
  }

  /** Only the lines with an outcome matter. */
  lemma {:induction false} SameLines(messages: seq<Msg>, front: seq<Msg>, outcomes: seq<P.Outcome>, outcome: P.Outcome)
    requires |outcomes| <= |front| <= |messages| && messages[..|front|] == front
    ensures P.LinesThat(messages, outcomes, outcome) == P.LinesThat(front, outcomes, outcome)
    decreases |outcomes|
  {
    if outcomes == [] {
    } else {
      var last := |outcomes| - 1;
      SameLines(messages, front, outcomes[..last], outcome);
      assert messages[last] == messages[..|front|][last];
    }
  }

  /**
   * A complete pass on disk is the protocol's pass: the messages it keeps, in order, and then those whose append was
   * complete meanwhile, are in the file; those that leave count as saved, and those it gives up on are rejected.
   */
  lemma PassRefines(d: F.Disk, pass: F.Pass, messages: seq<Msg>, arrived: seq<Msg>, text: Msg -> string)
    requires pass.end == F.Complete && Holds(d.content, messages, text)
    requires CompleteOnes(d.content, pass.meanwhile) +
             CompleteOnes(AppendedAll(d.content, pass.meanwhile), pass.between) == Texts(arrived, text)
    ensures var lines, t := ReadLines(d.content), F.RunPass(d, pass);
      && |Outcomes(lines, pass.save)| == |messages|
      && Holds(t.content, MessagesThat(lines, messages, pass.save, F.Kept) + arrived, text)
      && t.saved == d.saved + multiset(Texts(MessagesThat(lines, messages, pass.save, F.Saved), text))
      && t.rejected == d.rejected + multiset(Texts(MessagesThat(lines, messages, pass.save, F.Rejected), text))
  {
    hide ReadLines, F.Those, F.RunPass, Appended, CompleteOnes, Entries, MessagesThat;
    var lines, later := ReadLines(d.content), F.Later(d, pass);
    var kept, rest := F.Those(lines, pass.save, F.Kept), later[|d.content|..];
    FatesRefine(lines, messages, text, pass.save, F.Kept);
    FatesRefine(lines, messages, text, pass.save, F.Saved);
    FatesRefine(lines, messages, text, pass.save, F.Rejected);
    F.PassRecords(d, pass);
    F.PassPartitions(d, pass);
    EntriesIn(kept, ReadLines(rest));
    F.LaterFollows(d, pass);
    F.ArrivedReads(d.content, later);
    EntriesIn(lines, ReadLines(rest));
    AppendsRead(d.content, pass.meanwhile);
    AppendsRead(AppendedAll(d.content, pass.meanwhile), pass.between);
    F.SameRest(Entries(lines), Entries(ReadLines(rest)), CompleteOnes(d.content, pass.meanwhile),
               CompleteOnes(AppendedAll(d.content, pass.meanwhile), pass.between));
    TextsIn(MessagesThat(lines, messages, pass.save, F.Kept), arrived, text);
  }
}

/** The failed log on disk and the passes over it, which a crash may cut short anywhere. */
module FailedInboundFile {
  import opened Options
  import opened JsonText
  import opened FailedLines
  import opened RejectedRecords

  // ── A pass ───────────────────────────────────────────────────────

  /** How saving an entry went: stored or discarded, refused for good, or anything else. */
  datatype Verdict = Saves | RefusesForGood | Fails

  datatype Fate = Saved | Rejected | Kept

  /** What cannot be read is rejected; what fails without a reason stays. */
  function FateOf(line: string, verdict: Verdict): Fate {
    if Parse(line).None? then Rejected
    else match verdict
      case Saves => Saved
      case RefusesForGood => Rejected
      case Fails => Kept
  }

  /** The lines with a fate, in order. `save` tells how saving each line went. */
  function Those(lines: seq<string>, save: nat -> Verdict, fate: Fate): seq<string> {
    if lines == [] then []
    else
      var n := |lines| - 1;
      Those(lines[..n], save, fate) + (if FateOf(lines[n], save(n)) == fate then [lines[n]] else [])
  }

  function Joined(lines: seq<string>): string {
    if lines == [] then "" else lines[0] + "\n" + Joined(lines[1..])
  }

  /** Where a pass ends: having saved some of the lines, having written some of the rejects, or having written it all. */
  datatype End = InLines(done: nat) | InRejects(written: nat) | BeforeKeeping | Complete

  datatype Pass = Pass(save: nat -> Verdict, meanwhile: seq<Attempt>, between: seq<Attempt>, end: End)

  /**
   * The files, and what has become of what was accepted: the last four are history. `recorded` are the rejected lines
   * whose records got to the rejects whole, in order.
   */
  datatype Disk = Disk(content: string, rejects: string,
                       accepted: multiset<string>, saved: multiset<string>, rejected: multiset<string>, recorded: seq<string>)

  function Append(d: Disk, attempt: Attempt): Disk {
    d.(content := Appended(d.content, attempt),
       accepted := d.accepted + (if IsComplete(d.content, attempt) then multiset{attempt.text} else multiset{}))
  }

  function AppendAll(d: Disk, attempts: seq<Attempt>): Disk {
    d.(content := AppendedAll(d.content, attempts),
       accepted := d.accepted + multiset(CompleteOnes(d.content, attempts)))
  }

  function WithSaved(d: Disk, lines: seq<string>): Disk {
    d.(saved := d.saved + multiset(Entries(lines)))
  }

  function WithRejected(d: Disk, lines: seq<string>): Disk {
    d.(rejects := d.rejects + Records(lines), rejected := d.rejected + multiset(Entries(lines)), recorded := d.recorded + lines)
  }

  function KeepOnly(d: Disk, kept: seq<string>, size: nat): Disk
    requires size <= |d.content|
  {
    d.(content := Joined(kept) + d.content[size..])
  }

  function RunPass(d: Disk, pass: Pass): Disk {
    var lines := ReadLines(d.content);
    var saved, rejected, kept :=
      Those(lines, pass.save, Saved), Those(lines, pass.save, Rejected), Those(lines, pass.save, Kept);
    var d1 := AppendAll(d, pass.meanwhile);
    match pass.end
    case InLines(done) => WithSaved(d1, Those(if done <= |lines| then lines[..done] else lines, pass.save, Saved))
    case InRejects(written) =>
      var d2 := WithSaved(d1, saved);
      d2.(rejects := d2.rejects + Cut(Records(rejected), written), recorded := d2.recorded + Recorded(rejected, written))
    case BeforeKeeping => AppendAll(WithRejected(WithSaved(d1, saved), rejected), pass.between)
    case Complete =>
      var d2 := AppendAll(WithRejected(WithSaved(d1, saved), rejected), pass.between);
      AppendedAllGrows(d.content, pass.meanwhile);
      AppendedAllGrows(d1.content, pass.between);
      if |saved| + |rejected| > 0 then KeepOnly(d2, kept, |d.content|) else d2
  }

  lemma AppendedAllGrows(content: string, attempts: seq<Attempt>)
    ensures content <= AppendedAll(content, attempts)
  {
    AppendsRead(content, attempts);
  }

  // ── Each line has one fate ───────────────────────────────────────

  /** Saved, kept and rejected are a partition of the lines read, so the counts add up. */
  lemma {:induction false} EveryLineHasOneFate(lines: seq<string>, save: nat -> Verdict)
    ensures multiset(lines) == multiset(Those(lines, save, Saved)) + multiset(Those(lines, save, Rejected)) + multiset(Those(lines, save, Kept))
    ensures |lines| == |Those(lines, save, Saved)| + |Those(lines, save, Rejected)| + |Those(lines, save, Kept)|
  {
    if lines == [] {
    } else {
      var n := |lines| - 1;
      EveryLineHasOneFate(lines[..n], save);
      assert lines == lines[..n] + [lines[n]];
    }
  }

  // ── Which fate it is ─────────────────────────────────────────────

  /** The lines at some places, in order. */
  function Chosen(lines: seq<string>, at: set<nat>): seq<string> {
    if lines == [] then []
    else
      var n := |lines| - 1;
      Chosen(lines[..n], at) + (if n in at then [lines[n]] else [])
  }

  /** Read, and met with a verdict. */
  function MetAt(lines: seq<string>, save: nat -> Verdict, verdict: Verdict): set<nat> {
    set i: nat | i < |lines| && Parse(lines[i]).Some? && save(i) == verdict
  }

  function UnreadableAt(lines: seq<string>): set<nat> {
    set i: nat | i < |lines| && Parse(lines[i]).None?
  }

  lemma {:induction false} ThoseAreChosen(lines: seq<string>, save: nat -> Verdict, fate: Fate, at: set<nat>)
    requires forall i: nat :: i < |lines| ==> (FateOf(lines[i], save(i)) == fate <==> i in at)
    ensures Those(lines, save, fate) == Chosen(lines, at)
  {
    if lines != [] {
      var n := |lines| - 1;
      ThoseAreChosen(lines[..n], save, fate, at);
      assert FateOf(lines[n], save(n)) == fate <==> n in at;
    }
  }

  /** Saved are the lines that read and are met with success, rejected those that do not read or are refused for good. */
  lemma FatesFollowVerdicts(lines: seq<string>, save: nat -> Verdict)
    ensures Those(lines, save, Saved) == Chosen(lines, MetAt(lines, save, Saves))
    ensures Those(lines, save, Rejected) == Chosen(lines, UnreadableAt(lines) + MetAt(lines, save, RefusesForGood))
    ensures Those(lines, save, Kept) == Chosen(lines, MetAt(lines, save, Fails))
  {
    ThoseAreChosen(lines, save, Saved, MetAt(lines, save, Saves));
    ThoseAreChosen(lines, save, Rejected, UnreadableAt(lines) + MetAt(lines, save, RefusesForGood));
    ThoseAreChosen(lines, save, Kept, MetAt(lines, save, Fails));
  }

  lemma {:induction false} EntriesOfChosen(lines: seq<string>, at: set<nat>, text: string)
    ensures text in Entries(Chosen(lines, at)) <==> IsReadAt(lines, at, text)
    decreases |lines|
  {
    hide Entries, IsReadAt;
    EntriesOfNone();
    if lines == [] {
      NothingIsRead(at, text);
    } else {
      var n := |lines| - 1;
      EntriesOfChosen(lines[..n], at, text);
      EntriesIn(Chosen(lines[..n], at), [lines[n]]);
      EntriesOfOne(lines[n], text);
      ReadAtLast(lines, at, text);
      if n !in at { assert Chosen(lines, at) == Chosen(lines[..n], at); }
    }
  }

  /** One of the lines at some places reads as the entry. */
  predicate IsReadAt(lines: seq<string>, at: set<nat>, text: string) {
    exists i :: 0 <= i < |lines| && i in at && Parse(lines[i]) == Some(text)
  }

  lemma NothingIsRead(at: set<nat>, text: string)
    ensures !IsReadAt([], at, text)
  {
  }

  lemma ReadAtLast(lines: seq<string>, at: set<nat>, text: string)
    requires lines != []
    ensures var n := |lines| - 1; IsReadAt(lines, at, text) <==> IsReadAt(lines[..n], at, text) || (n in at && Parse(lines[n]) == Some(text))
  {
    hide Parse;
    var n := |lines| - 1;
    if i :| 0 <= i < |lines| && i in at && Parse(lines[i]) == Some(text) {
      if i < n { assert lines[..n][i] == lines[i]; }
    }
    if j :| 0 <= j < n && j in at && Parse(lines[..n][j]) == Some(text) { assert lines[j] == lines[..n][j]; }
  }

  lemma EntriesOfNone()
    ensures Entries([]) == []
  {
  }

  lemma EntriesOfOne(line: string, text: string)
    ensures text in Entries([line]) <==> Parse(line) == Some(text)
  {
    assert [line][1..] == [];
  }

  function AllEntries(lines: seq<string>): multiset<string> {
    multiset(Entries(lines))
  }

  lemma AllEntriesGrow(lines: seq<string>, line: string)
    ensures AllEntries(lines + [line]) == AllEntries(lines) + AllEntries([line])
  {
    EntriesIn(lines, [line]);
  }

  lemma ThoseGrow(lines: seq<string>, save: nat -> Verdict, fate: Fate)
    requires lines != []
    ensures var n := |lines| - 1;
      AllEntries(Those(lines, save, fate)) ==
      AllEntries(Those(lines[..n], save, fate)) +
      If(FateOf(lines[n], save(n)) == fate, AllEntries([lines[n]]))
  {
    var n := |lines| - 1;
    if FateOf(lines[n], save(n)) == fate {
      AllEntriesGrow(Those(lines[..n], save, fate), lines[n]);
    } else {
      assert Those(lines, save, fate) == Those(lines[..n], save, fate);
    }
  }

  function If(holds: bool, e: multiset<string>): multiset<string> {
    if holds then e else multiset{}
  }

  lemma OneFateEach(s: multiset<string>, r: multiset<string>, k: multiset<string>, e: multiset<string>, fate: Fate)
    ensures s + If(fate == Saved, e) + (r + If(fate == Rejected, e)) + (k + If(fate == Kept, e)) == s + r + k + e
  {
    assert s + multiset{} == s && r + multiset{} == r && k + multiset{} == k;
    match fate
    case Saved =>
    case Rejected =>
    case Kept =>
  }

  lemma NoneHaveFates(save: nat -> Verdict)
    ensures AllEntries([]) == multiset{} && forall fate :: Those([], save, fate) == []
  {
  }

  lemma {:induction false} EntriesHaveOneFate(lines: seq<string>, save: nat -> Verdict)
    ensures AllEntries(lines) ==
            AllEntries(Those(lines, save, Saved)) + AllEntries(Those(lines, save, Rejected)) + AllEntries(Those(lines, save, Kept))
    decreases |lines|
  {
    hide AllEntries, FateOf, Those, If;
    if lines == [] {
      NoneHaveFates(save);
    } else {
      var n := |lines| - 1;
      var before, line := lines[..n], lines[n];
      EntriesHaveOneFate(before, save);
      assert lines == before + [line];
      AllEntriesGrow(before, line);
      ThoseGrow(lines, save, Saved);
      ThoseGrow(lines, save, Rejected);
      ThoseGrow(lines, save, Kept);
      OneFateEach(AllEntries(Those(before, save, Saved)), AllEntries(Those(before, save, Rejected)),
                  AllEntries(Those(before, save, Kept)), AllEntries([line]), FateOf(line, save(n)));
    }
  }

  // ── What a pass leaves reads back ────────────────────────────────

  predicate AreLines(lines: seq<string>) {
    forall i :: 0 <= i < |lines| ==> '\n' !in lines[i] && !Blank(lines[i])
  }

  lemma {:induction false} SplitGivesLines(content: string)
    ensures forall i :: 0 <= i < |Split(content)| ==> '\n' !in Split(content)[i]
    decreases |content|
  {
    if content == "" {
    } else {
      SplitGivesLines(content[1..]);
    }
  }

  lemma {:induction false} WithoutBlankAreLines(lines: seq<string>)
    requires forall i :: 0 <= i < |lines| ==> '\n' !in lines[i]
    ensures AreLines(WithoutBlank(lines))
  {
    if lines == [] {
    } else {
      WithoutBlankAreLines(lines[1..]);
    }
  }

  lemma ReadGivesLines(content: string)
    ensures AreLines(ReadLines(content))
  {
    SplitGivesLines(content);
    WithoutBlankAreLines(Split(content));
  }

  lemma {:induction false} ThoseAreLines(lines: seq<string>, save: nat -> Verdict, fate: Fate)
    requires AreLines(lines)
    ensures AreLines(Those(lines, save, fate))
  {
    if lines == [] {
    } else {
      ThoseAreLines(lines[..|lines| - 1], save, fate);
    }
  }

  lemma LineAndMoreReads(line: string, after: string)
    requires '\n' !in line && !Blank(line)
    ensures ReadLines(line + "\n" + after) == [line] + ReadLines(after)
  {
    ReadAtLineEnd(line, after);
    ReadOneLine(line);
  }

  /** Lines written out and followed by anything read back as themselves, then what follows. */
  lemma {:induction false} JoinedReads(lines: seq<string>, after: string)
    requires AreLines(lines)
    ensures ReadLines(Joined(lines) + after) == lines + ReadLines(after)
  {
    hide ReadLines;
    if lines == [] {
      assert Joined(lines) + after == after;
    } else {
      JoinedReads(lines[1..], after);
      var rest := Joined(lines[1..]) + after;
      assert Joined(lines) + after == lines[0] + "\n" + rest;
      LineAndMoreReads(lines[0], rest);
      assert lines == [lines[0]] + lines[1..];
    }
  }

  /** A file and something after it whose line it is not in the middle of. */
  predicate Follows(content: string, later: string) {
    content <= later && (later == content || !EndsCutShort(content) || later[|content|] == '\n')
  }

  lemma {:induction false} AppendsFollow(content: string, attempts: seq<Attempt>)
    ensures Follows(content, AppendedAll(content, attempts))
    decreases |attempts|
  {
    hide Appended;
    if attempts == [] {
    } else {
      AppendFollows(content, attempts[0]);
      AppendsFollow(Appended(content, attempts[0]), attempts[1..]);
    }
  }

  lemma AppendFollows(content: string, attempt: Attempt)
    ensures Follows(content, Appended(content, attempt))
  {
  }

  /** What was appended since the file was read reads on its own. */
  lemma ArrivedReads(content: string, later: string)
    requires Follows(content, later)
    ensures ReadLines(later) == ReadLines(content) + ReadLines(later[|content|..])
  {
    hide ReadLines;
    var arrived := later[|content|..];
    assert later == content + arrived;
    if later == content {
      assert arrived == "";
      NothingReads();
    } else if !EndsCutShort(content) {
      ReadAfterWholeLines(content, arrived);
    } else {
      assert arrived == "\n" + arrived[1..] && later == content + "\n" + arrived[1..];
      ReadAtLineEnd(content, arrived[1..]);
      ReadAtLineEnd("", arrived[1..]);
      NothingReads();
      assert "" + "\n" + arrived[1..] == arrived;
    }
  }

  lemma NothingReads()
    ensures ReadLines("") == []
  {
  }

  // ── What a pass leaves ───────────────────────────────────────────

  function Later(d: Disk, pass: Pass): (later: string)
    ensures d.content <= later
  {
    AppendedAllGrows(d.content, pass.meanwhile);
    AppendedAllGrows(AppendedAll(d.content, pass.meanwhile), pass.between);
    AppendedAll(AppendedAll(d.content, pass.meanwhile), pass.between)
  }

  lemma {:induction false} AppendedInTurn(content: string, first: seq<Attempt>, second: seq<Attempt>)
    ensures AppendedAll(AppendedAll(content, first), second) == AppendedAll(content, first + second)
    decreases |first|
  {
    if first == [] {
      assert first + second == second;
    } else {
      hide Appended, IsComplete;
      AppendedInTurn(Appended(content, first[0]), first[1..], second);
      assert (first + second)[1..] == first[1..] + second;
    }
  }

  /** Nothing is written down when there is nothing to write. */
  lemma PassWrites(d: Disk, pass: Pass)
    requires pass.end == Complete
    ensures var lines := ReadLines(d.content);
      var kept := Those(lines, pass.save, Kept);
      RunPass(d, pass).content ==
        if kept == lines then Later(d, pass) else Joined(kept) + Later(d, pass)[|d.content|..]
  {
    var lines := ReadLines(d.content);
    hide ReadLines, Those, Appended, Joined, Records, Entries;
    EveryLineHasOneFate(lines, pass.save);
    AllOrSome(lines, pass.save);
  }

  /**
   * A complete pass is a partition of the lines it read: what the file holds in the end is what it kept, in order,
   * and then what was appended meanwhile.
   */
  lemma PassPartitions(d: Disk, pass: Pass)
    requires pass.end == Complete
    ensures ReadLines(RunPass(d, pass).content) ==
            Those(ReadLines(d.content), pass.save, Kept) + ReadLines(Later(d, pass)[|d.content|..])
  {
    var lines, later := ReadLines(d.content), Later(d, pass);
    hide RunPass, ReadLines, Those, Appended, Joined, AppendedAll;
    PassWrites(d, pass);
    LaterFollows(d, pass);
    ArrivedReads(d.content, later);
    ReadGivesLines(d.content);
    ThoseAreLines(lines, pass.save, Kept);
    JoinedReads(Those(lines, pass.save, Kept), later[|d.content|..]);
  }

  lemma LaterFollows(d: Disk, pass: Pass)
    ensures Follows(d.content, Later(d, pass))
  {
    AppendedInTurn(d.content, pass.meanwhile, pass.between);
    AppendsFollow(d.content, pass.meanwhile + pass.between);
  }

  lemma {:induction false} NoMoreThanAll(lines: seq<string>, save: nat -> Verdict, fate: Fate)
    ensures |Those(lines, save, fate)| <= |lines|
  {
    if lines != [] { NoMoreThanAll(lines[..|lines| - 1], save, fate); }
  }

  lemma {:induction false} AllOrSome(lines: seq<string>, save: nat -> Verdict)
    ensures |Those(lines, save, Kept)| == |lines| <==> Those(lines, save, Kept) == lines
  {
    hide FateOf;
    if lines != [] {
      var n := |lines| - 1;
      NoMoreThanAll(lines[..n], save, Kept);
      AllOrSome(lines[..n], save);
      assert lines == lines[..n] + [lines[n]];
    }
  }

  // ── Runs ─────────────────────────────────────────────────────────

  datatype Event = Appends(attempt: Attempt) | Passes(pass: Pass)

  function Next(d: Disk, e: Event): Disk {
    match e
    case Appends(attempt) => Append(d, attempt)
    case Passes(pass) => RunPass(d, pass)
  }

  function After(d: Disk, events: seq<Event>): Disk
    decreases |events|
  {
    if events == [] then d else After(Next(d, events[0]), events[1..])
  }

  const EMPTY := Disk("", "", multiset{}, multiset{}, multiset{}, [])

  /** Where everything accepted is: in the file, saved, or rejected. */
  function Found(d: Disk): multiset<string> {
    AllEntries(ReadLines(d.content)) + d.saved + d.rejected
  }

  lemma AppendFinds(d: Disk, attempt: Attempt)
    ensures d.accepted <= Found(d) ==> Append(d, attempt).accepted <= Found(Append(d, attempt))
    ensures d.accepted == Found(d) ==> Append(d, attempt).accepted == Found(Append(d, attempt))
  {
    AppendReads(d.content, attempt);
    hide ReadLines, Entries, Appended, IsComplete;
  }

  lemma AppendAllFinds(d: Disk, attempts: seq<Attempt>)
    ensures AllEntries(ReadLines(AppendAll(d, attempts).content)) ==
            AllEntries(ReadLines(d.content)) + multiset(CompleteOnes(d.content, attempts))
  {
    hide ReadLines, Entries, CompleteOnes;
    AppendsRead(d.content, attempts);
  }

  /** What a complete pass leaves in the file, among what it found there and what arrived meanwhile. */
  lemma PassLeaves(d: Disk, pass: Pass)
    requires pass.end == Complete
    ensures var d1 := AppendAll(d, pass.meanwhile);
      AllEntries(ReadLines(RunPass(d, pass).content)) ==
      AllEntries(Those(ReadLines(d.content), pass.save, Kept)) + multiset(CompleteOnes(d.content, pass.meanwhile)) +
      multiset(CompleteOnes(d1.content, pass.between))
  {
    hide ReadLines, Those, RunPass, Appended, CompleteOnes, Entries;
    var lines, later := ReadLines(d.content), Later(d, pass);
    var kept, arrived := Those(lines, pass.save, Kept), later[|d.content|..];
    PassPartitions(d, pass);
    EntriesIn(kept, ReadLines(arrived));
    LaterFollows(d, pass);
    ArrivedReads(d.content, later);
    EntriesIn(lines, ReadLines(arrived));
    AppendsRead(d.content, pass.meanwhile);
    AppendsRead(AppendedAll(d.content, pass.meanwhile), pass.between);
    SameRest(Entries(lines), Entries(ReadLines(arrived)), CompleteOnes(d.content, pass.meanwhile),
             CompleteOnes(AppendedAll(d.content, pass.meanwhile), pass.between));
  }

  lemma SameRest(a: seq<string>, b: seq<string>, c: seq<string>, e: seq<string>)
    requires a + b == a + c + e
    ensures b == c + e
  {
    assert (a + b)[|a|..] == b;
    assert (a + c + e)[|a|..] == c + e;
  }

  /** What was wholly appended while a pass ran. */
  function Arrived(d: Disk, pass: Pass): multiset<string> {
    multiset(CompleteOnes(d.content, pass.meanwhile)) +
    (if pass.end == Complete || pass.end == BeforeKeeping
     then multiset(CompleteOnes(AppendAll(d, pass.meanwhile).content, pass.between)) else multiset{})
  }

  lemma PassAccepts(d: Disk, pass: Pass)
    ensures RunPass(d, pass).accepted == d.accepted + Arrived(d, pass)
  {
    hide ReadLines, Those, CompleteOnes, AppendedAll, Entries, Records, Joined, Cut;
  }

  lemma PassRecords(d: Disk, pass: Pass)
    requires pass.end == Complete
    ensures var lines, t := ReadLines(d.content), RunPass(d, pass);
      && t.saved == d.saved + AllEntries(Those(lines, pass.save, Saved))
      && t.rejected == d.rejected + AllEntries(Those(lines, pass.save, Rejected))
      && t.rejects == d.rejects + Records(Those(lines, pass.save, Rejected))
      && t.recorded == d.recorded + Those(lines, pass.save, Rejected)
  {
    hide ReadLines, Those, CompleteOnes, AppendedAll, Entries, Records, Joined;
  }

  /** A complete pass: whatever was found before is found still, once. */
  lemma CompletePassFinds(d: Disk, pass: Pass)
    requires pass.end == Complete
    ensures Found(RunPass(d, pass)) == Found(d) + Arrived(d, pass)
  {
    hide ReadLines, Those, CompleteOnes, AppendedAll, Entries, RunPass, AllEntries;
    var lines := ReadLines(d.content);
    PassLeaves(d, pass);
    PassRecords(d, pass);
    EntriesHaveOneFate(lines, pass.save);
    AddUp(d.saved, d.rejected, AllEntries(Those(lines, pass.save, Saved)), AllEntries(Those(lines, pass.save, Rejected)),
          AllEntries(Those(lines, pass.save, Kept)), multiset(CompleteOnes(d.content, pass.meanwhile)),
          multiset(CompleteOnes(AppendAll(d, pass.meanwhile).content, pass.between)));
  }

  lemma AddUp(saved: multiset<string>, rejected: multiset<string>, s: multiset<string>, r: multiset<string>,
              k: multiset<string>, a: multiset<string>, b: multiset<string>)
    ensures k + a + b + (saved + s) + (rejected + r) == s + r + k + saved + rejected + (a + b)
  {
  }

  /** A pass cut short: whatever was found before is found still, and what it saved will only be found twice. */
  lemma CutPassFinds(d: Disk, pass: Pass)
    requires pass.end != Complete
    ensures Found(d) + Arrived(d, pass) <= Found(RunPass(d, pass))
  {
    hide ReadLines, Those, CompleteOnes, AppendedAll, Entries, Records, Joined, Cut;
    var d1 := AppendAll(d, pass.meanwhile);
    AppendAllFinds(d, pass.meanwhile);
    if pass.end == BeforeKeeping {
      AppendAllFinds(d1, pass.between);
    }
  }

  /**
   * For any appends, complete or cut short anywhere, and any passes, complete or cut short anywhere: everything
   * accepted is in the file, or was saved, or was rejected.
   */
  lemma {:induction false} NothingAcceptedIsLost(d: Disk, events: seq<Event>)
    requires d.accepted <= Found(d)
    ensures After(d, events).accepted <= Found(After(d, events))
    decreases |events|
  {
    if events == [] {
    } else {
      hide Found, RunPass, Append, Arrived;
      match events[0] {
        case Appends(attempt) => AppendFinds(d, attempt);
        case Passes(pass) =>
          PassAccepts(d, pass);
          if pass.end == Complete { CompletePassFinds(d, pass); } else { CutPassFinds(d, pass); }
      }
      NothingAcceptedIsLost(Next(d, events[0]), events[1..]);
    }
  }

  /** With every pass complete, everything accepted is in exactly one of the three. */
  lemma {:induction false} EverythingAcceptedIsInOnePlace(d: Disk, events: seq<Event>)
    requires d.accepted == Found(d)
    requires forall i :: 0 <= i < |events| && events[i].Passes? ==> events[i].pass.end == Complete
    ensures After(d, events).accepted == Found(After(d, events))
    decreases |events|
  {
    if events == [] {
    } else {
      hide Found, RunPass, Append, Arrived;
      match events[0] {
        case Appends(attempt) => AppendFinds(d, attempt);
        case Passes(pass) =>
          PassAccepts(d, pass);
          CompletePassFinds(d, pass);
      }
      EverythingAcceptedIsInOnePlace(Next(d, events[0]), events[1..]);
    }
  }

  // ── What is saved, and what is rejected ──────────────────────────

  /** The lines a pass gets to. */
  function LinesOffered(d: Disk, pass: Pass): seq<string> {
    var lines := ReadLines(d.content);
    if pass.end.InLines? && pass.end.done <= |lines| then lines[..pass.end.done] else lines
  }

  /** The pass offers the entry, and meets the verdict. */
  predicate Meets(d: Disk, pass: Pass, text: string, verdict: Verdict) {
    var lines := LinesOffered(d, pass);
    exists i :: 0 <= i < |lines| && Parse(lines[i]) == Some(text) && pass.save(i) == verdict
  }

  predicate WritesRejects(pass: Pass) {
    pass.end == BeforeKeeping || pass.end == Complete
  }

  predicate WasSaved(d: Disk, events: seq<Event>, text: string)
    decreases |events|
  {
    events != [] &&
    ((events[0].Passes? && Meets(d, events[0].pass, text, Saves)) || WasSaved(Next(d, events[0]), events[1..], text))
  }

  predicate WasRefused(d: Disk, events: seq<Event>, text: string)
    decreases |events|
  {
    events != [] &&
    ((events[0].Passes? && WritesRejects(events[0].pass) && Meets(d, events[0].pass, text, RefusesForGood)) ||
     WasRefused(Next(d, events[0]), events[1..], text))
  }

  lemma PassCounts(d: Disk, pass: Pass)
    ensures var t := RunPass(d, pass);
      && t.saved == d.saved + AllEntries(Those(LinesOffered(d, pass), pass.save, Saved))
      && (WritesRejects(pass) ==> t.rejected == d.rejected + AllEntries(Those(LinesOffered(d, pass), pass.save, Rejected)))
      && (!WritesRejects(pass) ==> t.rejected == d.rejected)
  {
    hide ReadLines, Those, CompleteOnes, AppendedAll, Entries, Records, Joined, Cut;
  }

  lemma MeetingCounts(d: Disk, pass: Pass, text: string)
    ensures text in AllEntries(Those(LinesOffered(d, pass), pass.save, Saved)) <==> Meets(d, pass, text, Saves)
    ensures text in AllEntries(Those(LinesOffered(d, pass), pass.save, Rejected)) <==> Meets(d, pass, text, RefusesForGood)
  {
    hide LinesOffered, Those, Entries;
    var lines := LinesOffered(d, pass);
    FatesFollowVerdicts(lines, pass.save);
    EntriesOfChosen(lines, MetAt(lines, pass.save, Saves), text);
    EntriesOfChosen(lines, UnreadableAt(lines) + MetAt(lines, pass.save, RefusesForGood), text);
  }

  /**
   * In every run, what counts as saved are exactly the entries some pass offered and saw saved; what counts as rejected,
   * exactly those some pass offered and saw refused for good, and lived to record.
   */
  lemma {:induction false} VerdictsDecide(d: Disk, events: seq<Event>, text: string)
    ensures text in After(d, events).saved <==> text in d.saved || WasSaved(d, events, text)
    ensures text in After(d, events).rejected <==> text in d.rejected || WasRefused(d, events, text)
    decreases |events|
  {
    hide RunPass, Append, Meets, AllEntries, Those, LinesOffered;
    if events != [] {
      VerdictsDecide(Next(d, events[0]), events[1..], text);
      match events[0]
      case Appends(attempt) => AppendCountsNothing(d, attempt);
      case Passes(pass) =>
        PassCounts(d, pass);
        MeetingCounts(d, pass, text);
    }
  }

  lemma AppendCountsNothing(d: Disk, attempt: Attempt)
    ensures Append(d, attempt).saved == d.saved && Append(d, attempt).rejected == d.rejected
  {
  }

  // ── The file, changed in place ───────────────────────────────────

  class LogFile {
    var content: string
    var rejects: string

    ghost function View(): Disk
      reads this
    {
      Disk(content, rejects, multiset{}, multiset{}, multiset{}, [])
    }

    constructor ()
      ensures View() == EMPTY
    {
      content, rejects := "", "";
    }

    method AppendEntry(text: string, written: nat)
      modifies this`content
      ensures content == Append(old(View()), Attempt(text, written)).content
    {
      var line := Print(text) + "\n";
      if EndsCutShort(content) {
        line := "\n" + line;
      }
      content := content + Cut(line, written);
    }

    /** Appends never wait for a pass to save its lines, so some may come in between. */
    method AppendEach(attempts: seq<Attempt>)
      modifies this`content
      ensures content == AppendedAll(old(content), attempts) && old(content) <= content
    {
      for i := 0 to |attempts|
        invariant AppendedAll(content, attempts[i..]) == AppendedAll(old(content), attempts)
      {
        AppendEntry(attempts[i].text, attempts[i].written);
        assert attempts[i..][1..] == attempts[i + 1..];
      }
      AppendedAllGrows(old(content), attempts);
    }

    /** Every line is read and, if it can be, offered. */
    method OfferLines(lines: seq<string>, save: nat -> Verdict) returns (kept: seq<string>, rejected: seq<string>)
      ensures kept == Those(lines, save, Kept) && rejected == Those(lines, save, Rejected)
      ensures kept == Chosen(lines, MetAt(lines, save, Fails))
      ensures rejected == Chosen(lines, UnreadableAt(lines) + MetAt(lines, save, RefusesForGood))
      ensures |lines| - |kept| - |rejected| == |Chosen(lines, MetAt(lines, save, Saves))|
    {
      kept, rejected := [], [];
      for i := 0 to |lines|
        invariant kept == Those(lines[..i], save, Kept) && rejected == Those(lines[..i], save, Rejected)
      {
        assert lines[..i + 1][..i] == lines[..i];
        if Parse(lines[i]).None? {
          rejected := rejected + [lines[i]];
          continue;
        }
        match save(i)
        case Saves =>
        case RefusesForGood => rejected := rejected + [lines[i]];
        case Fails => kept := kept + [lines[i]];
      }
      assert lines[..|lines|] == lines;
      EveryLineHasOneFate(lines, save);
      FatesFollowVerdicts(lines, save);
    }

    method ReplayOnce(save: nat -> Verdict, meanwhile: seq<Attempt>, between: seq<Attempt>)
      returns (saved: nat, kept: nat, rejected: nat)
      modifies this
      ensures var t := RunPass(old(View()), Pass(save, meanwhile, between, Complete));
        content == t.content && rejects == t.rejects
      ensures var lines := ReadLines(old(content));
        && saved == |Chosen(lines, MetAt(lines, save, Saves))|
        && kept == |Chosen(lines, MetAt(lines, save, Fails))|
        && rejected == |Chosen(lines, UnreadableAt(lines) + MetAt(lines, save, RefusesForGood))|
        && saved + kept + rejected == |lines|
    {
      hide ReadLines, Those, RunPass, AppendedAll, Joined, Records, Chosen, MetAt, UnreadableAt;
      ghost var d, pass := View(), Pass(save, meanwhile, between, Complete);
      var lines, size := ReadLines(content), |content|;
      var keptLines, rejectedLines := OfferLines(lines, save);
      kept, rejected := |keptLines|, |rejectedLines|;
      saved := |lines| - kept - rejected;
      AppendEach(meanwhile);
      if rejected > 0 {
        rejects := rejects + Records(rejectedLines);
      }
      AppendEach(between);
      if saved + rejected > 0 {
        content := Joined(keptLines) + content[size..];
      }
      PassWrites(d, pass);
      PassRecords(d, pass);
      AllOrSome(lines, save);
      NoRecords();
    }
  }
}

/**
 The rejects over every run of appends and passes: which of their records can be read, and that until one cannot,
 everything accepted is to be found on disk.
 */
module RejectsFile {
  import opened Options
  import opened JsonText
  import opened FailedLines
  import opened RejectedRecords
  import opened FailedInboundFile

  /** What a pass set out to write to the rejects. */
  function ToReject(d: Disk, pass: Pass): seq<string> {
    Those(ReadLines(d.content), pass.save, FailedInboundFile.Rejected)
  }

  /** How much of it was written. */
  function Wrote(d: Disk, pass: Pass): nat {
    match pass.end
    case InLines(_) => 0
    case InRejects(written) => written
    case BeforeKeeping => |Records(ToReject(d, pass))|
    case Complete => |Records(ToReject(d, pass))|
  }

  /** A pass goes on in the rejects where the one before was cut short, and either has a whole record there. */
  predicate GluesRecords(d: Disk, e: Event) {
    e.Passes? && Glues(d.rejects, ToReject(d, e.pass), Wrote(d, e.pass))
  }

  predicate NothingIsGlued(d: Disk, events: seq<Event>)
    decreases |events|
  {
    events == [] || (!GluesRecords(d, events[0]) && NothingIsGlued(Next(d, events[0]), events[1..]))
  }

  // ── The records ──────────────────────────────────────────────────

  lemma PassAppends(d: Disk, pass: Pass)
    ensures RunPass(d, pass).rejects == d.rejects + Cut(Records(ToReject(d, pass)), Wrote(d, pass))
    ensures RunPass(d, pass).recorded == d.recorded + Recorded(ToReject(d, pass), Wrote(d, pass))
  {
    hide ReadLines, Those, AppendedAll, Entries, Joined, RecordOf, Records;
    AllLand(ToReject(d, pass));
    NothingLands(ToReject(d, pass));
    assert Cut(Records(ToReject(d, pass)), 0) == "";
  }

  lemma NextKeepsRecords(d: Disk, e: Event)
    ensures var t := Next(d, e);
      && (!GluesRecords(d, e) && Readable(d.rejects) == d.recorded ==> Readable(t.rejects) == t.recorded)
      && |Readable(t.rejects)| - |t.recorded| <= |Readable(d.rejects)| - |d.recorded|
      && (GluesRecords(d, e) ==> |Readable(t.rejects)| - |t.recorded| < |Readable(d.rejects)| - |d.recorded|)
  {
    hide Readable, RunPass, ToReject, Glues, Records, Recorded;
    if e.Passes? {
      PassAppends(d, e.pass);
      AppendKeepsRecords(d.rejects, ToReject(d, e.pass), Wrote(d, e.pass));
    }
  }

  /** Once one is lost it stays lost. */
  lemma {:induction false} FewerStayFewer(d: Disk, events: seq<Event>)
    requires |Readable(d.rejects)| < |d.recorded|
    ensures |Readable(After(d, events).rejects)| < |After(d, events).recorded|
    decreases |events|
  {
    hide Readable, Next, GluesRecords;
    if events != [] {
      NextKeepsRecords(d, events[0]);
      FewerStayFewer(Next(d, events[0]), events[1..]);
    }
  }

  lemma {:induction false} RecordsAreReadFrom(d: Disk, events: seq<Event>)
    requires Readable(d.rejects) == d.recorded
    ensures Readable(After(d, events).rejects) == After(d, events).recorded <==> NothingIsGlued(d, events)
    decreases |events|
  {
    hide Readable, Next, GluesRecords;
    if events != [] {
      NextKeepsRecords(d, events[0]);
      if GluesRecords(d, events[0]) {
        FewerStayFewer(Next(d, events[0]), events[1..]);
      } else {
        RecordsAreReadFrom(Next(d, events[0]), events[1..]);
      }
    }
  }

  /**
   * Over every run, complete or cut short anywhere: the rejects hold exactly the records that got there whole, in order,
   * if and only if no pass went on in the rejects where an earlier one was cut short with a whole record on either side.
   */
  lemma RecordsCanBeRead(events: seq<Event>)
    ensures var t := After(EMPTY, events);
      Readable(t.rejects) == t.recorded <==> NothingIsGlued(EMPTY, events)
  {
    NothingIsReadable();
    hide Readable, NothingIsGlued, After;
    RecordsAreReadFrom(EMPTY, events);
  }

  // ── Everything accepted ──────────────────────────────────────────

  /** What was counted as rejected has a record that got to the rejects whole. */
  predicate RejectedAreRecorded(d: Disk) {
    d.rejected <= AllEntries(d.recorded)
  }

  lemma MoreEntries(lines: seq<string>, more: seq<string>)
    ensures AllEntries(lines + more) == AllEntries(lines) + AllEntries(more)
  {
    EntriesIn(lines, more);
  }

  lemma PassRejects(d: Disk, pass: Pass)
    ensures RunPass(d, pass).rejected ==
            d.rejected + if pass.end.InLines? || pass.end.InRejects? then multiset{} else AllEntries(ToReject(d, pass))
  {
    hide ReadLines, Those, AppendedAll, Entries, Joined, Records;
  }

  lemma NextRecordsRejected(d: Disk, e: Event)
    requires RejectedAreRecorded(d)
    ensures RejectedAreRecorded(Next(d, e))
  {
    hide RunPass, ToReject, Records, Recorded, AllEntries;
    if e.Passes? {
      PassAppends(d, e.pass);
      PassRejects(d, e.pass);
      AllLand(ToReject(d, e.pass));
      MoreEntries(d.recorded, Recorded(ToReject(d, e.pass), Wrote(d, e.pass)));
    }
  }

  lemma {:induction false} RunRecordsRejected(d: Disk, events: seq<Event>)
    requires RejectedAreRecorded(d)
    ensures RejectedAreRecorded(After(d, events))
    decreases |events|
  {
    hide RejectedAreRecorded, Next;
    if events != [] {
      NextRecordsRejected(d, events[0]);
      RunRecordsRejected(Next(d, events[0]), events[1..]);
    }
  }

  /** What is there to be read, or saved. */
  function OnDisk(d: Disk): multiset<string> {
    AllEntries(ReadLines(d.content)) + d.saved + AllEntries(Readable(d.rejects))
  }

  /**
   * For any appends and passes, complete or cut short anywhere, and until a record is glued: everything accepted can be
   * read from the file, was saved, or can be read from the rejects.
   */
  lemma EverythingAcceptedCanBeFound(events: seq<Event>)
    requires NothingIsGlued(EMPTY, events)
    ensures var t := After(EMPTY, events); t.accepted <= OnDisk(t)
  {
    hide NothingIsGlued, After, Readable, ReadLines, AllEntries;
    var t := After(EMPTY, events);
    RecordsCanBeRead(events);
    NothingAcceptedIsLost(EMPTY, events);
    RunRecordsRejected(EMPTY, events);
  }

  // ── A record that cannot be read ─────────────────────────────────

  const ENTRY := "a"

  function Refuses(): nat -> Verdict { (_: nat) => RefusesForGood }

  /** An entry is accepted, a pass dies after one character of its record, and the next pass completes. */
  function CutAndComplete(): seq<Event> {
    [Appends(Attempt(ENTRY, 4)), Passes(Pass(Refuses(), [], [], InRejects(1))), Passes(Pass(Refuses(), [], [], Complete))]
  }

  lemma EntryIsInTheFile()
    ensures ReadLines(Print(ENTRY) + "\n") == [Print(ENTRY)] && Entries([Print(ENTRY)]) == [ENTRY]
    ensures Those([Print(ENTRY)], Refuses(), FailedInboundFile.Rejected) == [Print(ENTRY)]
    ensures Those([Print(ENTRY)], Refuses(), Saved) == [] && Those([Print(ENTRY)], Refuses(), Kept) == []
  {
    hide Print, Parse, ReadLines, Blank, Those, Entries;
    var line := Print(ENTRY);
    PrintedIsOneLine(ENTRY);
    PrintedReads(ENTRY);
    PrintIsNotBlank(ENTRY);
    ReadOneLine(line);
    OneLineIsRefused(line, ENTRY);
  }

  lemma PrintIsNotBlank(text: string)
    ensures !Blank(Print(text))
  {
    assert Print(text)[0] == '"' && Print(text)[0] in Print(text);
  }

  lemma OneLineIsRefused(line: string, text: string)
    requires Parse(line) == Some(text)
    ensures Entries([line]) == [text]
    ensures Those([line], Refuses(), FailedInboundFile.Rejected) == [line]
    ensures Those([line], Refuses(), Saved) == [] && Those([line], Refuses(), Kept) == []
  {
    hide Parse;
    var lines := [line];
    assert |lines[..0]| == 0 && |lines[1..]| == 0;
    assert Entries(lines[1..]) == [];
    assert forall fate :: Those(lines[..0], Refuses(), fate) == [];
    assert FateOf(line, Refuses()(0)) == FailedInboundFile.Rejected;
  }

  lemma FirstIsAppended()
    ensures Append(EMPTY, Attempt(ENTRY, 4)) == Disk(Print(ENTRY) + "\n", "", multiset{ENTRY}, multiset{}, multiset{}, [])
  {
    assert |Print(ENTRY)| == 3;
  }

  lemma FirstPassIsCut()
    ensures RunPass(Disk(Print(ENTRY) + "\n", "", multiset{ENTRY}, multiset{}, multiset{}, []),
                    Pass(Refuses(), [], [], InRejects(1))) ==
            Disk(Print(ENTRY) + "\n", "{", multiset{ENTRY}, multiset{}, multiset{}, [])
  {
    hide ReadLines, Those, Print, RecordOf, Readable;
    EntryIsInTheFile();
    RecordStarts(Print(ENTRY));
    CutInTurn([Print(ENTRY)], 1);
    assert Cut(Records([Print(ENTRY)]), 1) == "{" && Recorded([Print(ENTRY)], 1) == [];
  }

  lemma SecondPassGlues()
    ensures var t := RunPass(Disk(Print(ENTRY) + "\n", "{", multiset{ENTRY}, multiset{}, multiset{}, []),
                             Pass(Refuses(), [], [], Complete));
      && t.content == "" && t.accepted == multiset{ENTRY} && t.saved == multiset{} && t.rejected == multiset{ENTRY}
      && Readable(t.rejects) == []
  {
    hide ReadLines, Those, Print, RecordOf, Readable;
    EntryIsInTheFile();
    RecordStarts(Print(ENTRY));
    AllLand([Print(ENTRY)]);
    assert Records([Print(ENTRY)]) != "";
    GluedCannotBeRead("{", [Print(ENTRY)], |Records([Print(ENTRY)])|);
  }

  /** Accepted, counted as rejected, and readable nowhere. */
  lemma RejectedAndUnreadable()
    ensures var t := After(EMPTY, CutAndComplete());
      && t.accepted == multiset{ENTRY} && t.rejected == multiset{ENTRY}
      && OnDisk(t) == multiset{}
  {
    hide RunPass, Readable, ReadLines;
    var events := CutAndComplete();
    FirstIsAppended();
    FirstPassIsCut();
    SecondPassGlues();
    assert events[1..][1..] == [events[2]] && events[1..][0] == events[1] && [events[2]][1..] == [];
    NothingReads();
    var t := After(EMPTY, events);
    assert t == After(RunPass(RunPass(Append(EMPTY, Attempt(ENTRY, 4)), events[1].pass), events[2].pass), []);
    assert AllEntries([]) == multiset{};
  }
}

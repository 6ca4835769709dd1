/**
 The records of the rejects, one line each: an object with the rejected line under `line`. An append to their file does
 not look at how it ends, so what a crash left of a record gets glued to the next one, and then neither can be read.
 */
module RejectedRecords {
  import opened Options
  import opened JsonText
  import opened FailedLines

  const OPENING := "{\"line\":"

  function RecordOf(line: string): string {
    OPENING + Print(line) + "}"
  }

  function ReadRecord(text: string): Option<string> {
    if |OPENING| < |text| && text[..|OPENING|] == OPENING && text[|text| - 1] == '}'
    then Parse(text[|OPENING|..|text| - 1]) else None
  }

  /** What an append to the rejects writes. */
  function Records(lines: seq<string>): string {
    if lines == [] then "" else RecordOf(lines[0]) + "\n" + Records(lines[1..])
  }

  function Cut(text: string, written: nat): string {
    if written <= |text| then text[..written] else text
  }

  /** The lines whose whole record is among the first `written` characters; its line end may not be. */
  function Recorded(lines: seq<string>, written: nat): seq<string> {
    if lines == [] || written < |RecordOf(lines[0])| then []
    else [lines[0]] + Recorded(lines[1..], if written == |RecordOf(lines[0])| then 0 else written - |RecordOf(lines[0])| - 1)
  }

  function RecordsAmong(lines: seq<string>): seq<string> {
    if lines == [] then []
    else (match ReadRecord(lines[0]) case Some(line) => [line] case None => []) + RecordsAmong(lines[1..])
  }

  /** The rejected lines that someone who looks at the file finds in it. */
  function Readable(content: string): seq<string> {
    RecordsAmong(ReadLines(content))
  }

  function Rest(lines: seq<string>): seq<string> {
    if lines == [] then [] else lines[1..]
  }

  // ── One record ───────────────────────────────────────────────────

  lemma RecordReads(line: string)
    ensures ReadRecord(RecordOf(line)) == Some(line)
  {
    var text := RecordOf(line);
    assert text[..|OPENING|] == OPENING;
    assert text[|OPENING|..|text| - 1] == Print(line);
    PrintedReads(line);
  }

  lemma CutRecordDoesNotRead(line: string, n: nat)
    requires n < |RecordOf(line)|
    ensures ReadRecord(RecordOf(line)[..n]).None?
  {
    var text := RecordOf(line)[..n];
    if |OPENING| < n {
      var k := n - 1 - |OPENING|;
      assert |RecordOf(line)| == |OPENING| + |Print(line)| + 1;
      forall i | 0 <= i < k ensures text[|OPENING|..n - 1][i] == Print(line)[..k][i] {
        assert RecordOf(line)[|OPENING| + i] == Print(line)[i];
      }
      assert text[|OPENING|..n - 1] == Print(line)[..k];
      CutPrintedDoesNotRead(line, k);
    }
  }

  lemma RecordIsOneLine(line: string, n: nat)
    requires 0 < n <= |RecordOf(line)|
    ensures var text := RecordOf(line)[..n]; '\n' !in text && !Blank(text) && text[0] == '{'
  {
    PrintedIsOneLine(line);
    var text := RecordOf(line)[..n];
    assert text[0] == '{' && text[0] in text;
    forall i | 0 <= i < n ensures text[i] != '\n' {
      assert text[i] == RecordOf(line)[i];
      if |OPENING| <= i < |OPENING| + |Print(line)| { assert text[i] == Print(line)[i - |OPENING|]; }
    }
  }

  lemma RecordStarts(line: string)
    ensures var text := RecordOf(line); |text| > 3 && text[0] == '{' && text[1] == '"' && text[2] == 'l'
  {
  }

  /** A quote right after a brace would close the string, and there is more to come. */
  lemma {:induction false} GluedIsNoString(before: string, piece: string)
    requires piece != "" && piece[0] == '{' && (|piece| > 1 ==> |piece| > 2 && piece[1] == '"')
    ensures Unquoted(before + piece).None?
    decreases |before|
  {
    var t := before + piece;
    if before == "" {
      PieceIsNoString(piece);
      assert t == piece;
    } else if before[0] == '\\' {
      if |before| == 1 {
        assert t[1] == '{';
      } else {
        assert t[2..] == before[2..] + piece;
        GluedIsNoString(before[2..], piece);
      }
    } else {
      assert t[1..] == before[1..] + piece;
      GluedIsNoString(before[1..], piece);
    }
  }

  lemma PieceIsNoString(piece: string)
    requires piece != "" && piece[0] == '{' && (|piece| > 1 ==> |piece| > 2 && piece[1] == '"')
    ensures Unquoted(piece).None?
  {
    if |piece| > 1 { assert piece[1..][0] == '"' && |piece[1..]| > 1; }
  }

  /** No text of a record has a brace where the name of its field goes on. */
  lemma BraceIsNotInTheOpening(before: string, piece: string)
    requires 0 < |before| < |OPENING| && piece != "" && piece[0] == '{'
    ensures ReadRecord(before + piece).None?
  {
    assert (before + piece)[|before|] == '{';
    OneBraceOnly(|before|);
  }

  lemma OneBraceOnly(i: nat)
    requires 0 < i < |OPENING|
    ensures OPENING[i] != '{'
  {
  }

  /** After the name, it would have to be part of a string. */
  lemma BraceIsInNoString(before: string, piece: string)
    requires |before| >= |OPENING| && piece != "" && piece[0] == '{'
    requires |piece| > 1 && piece[|piece| - 1] == '}' ==> |piece| > 3 && piece[1] == '"'
    ensures ReadRecord(before + piece).None?
  {
    var text := before + piece;
    if text[|text| - 1] == '}' {
      var start, short := before[|OPENING|..], piece[..|piece| - 1];
      assert piece[|piece| - 1] == '}' && |piece| > 1;
      assert text[|OPENING|..|text| - 1] == start + short;
      StringIsNotOver(start, short);
    }
  }

  lemma StringIsNotOver(start: string, piece: string)
    requires |piece| > 2 && piece[0] == '{' && piece[1] == '"'
    ensures Parse(start + piece).None?
  {
    if start != "" {
      assert (start + piece)[1..] == start[1..] + piece;
      GluedIsNoString(start[1..], piece);
    } else {
      assert (start + piece)[0] == '{';
    }
  }

  /** Whatever an unfinished line is, with a record or a part of one glued to it, it is no record. */
  lemma GluedDoesNotRead(before: string, line: string, n: nat)
    requires before != "" && 0 < n <= |RecordOf(line)|
    ensures ReadRecord(before + RecordOf(line)[..n]).None?
  {
    hide RecordOf, ReadRecord;
    var piece := RecordOf(line)[..n];
    RecordStarts(line);
    if |before| < |OPENING| {
      BraceIsNotInTheOpening(before, piece);
    } else {
      if n > 1 { assert piece[1] == '"'; }
      if n > 2 { assert piece[2] == 'l'; }
      BraceIsInNoString(before, piece);
    }
  }

  // ── The file ─────────────────────────────────────────────────────

  lemma {:induction false} RecordsAmongIn(a: seq<string>, b: seq<string>)
    ensures RecordsAmong(a + b) == RecordsAmong(a) + RecordsAmong(b)
    decreases |a|
  {
    hide ReadRecord;
    if a == [] {
      assert a + b == b;
    } else {
      RecordsAmongIn(a[1..], b);
      assert (a + b)[1..] == a[1..] + b && (a + b)[0] == a[0];
    }
  }

  lemma ReadableAfterWholeLines(a: string, b: string)
    requires !EndsCutShort(a)
    ensures Readable(a + b) == Readable(a) + Readable(b)
  {
    hide ReadLines, RecordsAmong;
    ReadAfterWholeLines(a, b);
    RecordsAmongIn(ReadLines(a), ReadLines(b));
  }

  lemma ReadableAtLineEnd(a: string, b: string)
    ensures Readable(a + "\n" + b) == Readable(a) + Readable(b)
  {
    hide ReadLines, RecordsAmong;
    ReadAtLineEnd(a, b);
    RecordsAmongIn(ReadLines(a), ReadLines(b));
  }

  lemma OneLineReadable(line: string)
    requires '\n' !in line
    ensures Readable(line) == if Blank(line) then [] else match ReadRecord(line) case Some(r) => [r] case None => []
  {
    hide Blank, ReadRecord, ReadLines;
    ReadOneLine(line);
    assert [line][1..] == [] && [line][0] == line;
    assert RecordsAmong([]) == [];
  }

  lemma NothingIsReadable()
    ensures Readable("") == []
  {
  }

  /** The first record is cut, or the rest is. */
  lemma CutInTurn(lines: seq<string>, written: nat)
    requires lines != []
    ensures var first := RecordOf(lines[0]);
      Cut(Records(lines), written) ==
      if written <= |first| then first[..written] else first + "\n" + Cut(Records(lines[1..]), written - |first| - 1)
  {
    var first, rest := RecordOf(lines[0]), Records(lines[1..]);
    assert Records(lines) == first + "\n" + rest;
    if written <= |first| {
      assert (first + "\n" + rest)[..written] == first[..written];
    } else if written <= |first| + 1 + |rest| {
      assert (first + "\n" + rest)[..written] == first + "\n" + rest[..written - |first| - 1];
    }
  }

  /** From a line end on, exactly the records that landed can be read. */
  lemma {:induction false} LandedCanBeRead(lines: seq<string>, written: nat)
    ensures Readable(Cut(Records(lines), written)) == Recorded(lines, written)
    decreases |lines|
  {
    hide RecordOf, Readable, ReadRecord, Blank, Records;
    NothingIsReadable();
    if lines == [] {
      NoRecords();
      assert Cut("", written) == "";
    } else {
      var first := RecordOf(lines[0]);
      CutInTurn(lines, written);
      if written > |first| {
        WholeRecordIsReadable(lines[0]);
        LandedCanBeRead(lines[1..], written - |first| - 1);
        ReadableAtLineEnd(first, Cut(Records(lines[1..]), written - |first| - 1));
      } else if written > 0 {
        PartOfARecord(lines[0], written);
        NothingLands(lines[1..]);
      } else {
        assert first[..0] == "";
        NothingLands(lines);
      }
    }
  }

  lemma NoRecords()
    ensures Records([]) == ""
  {
  }

  lemma RecordIsLong(line: string)
    ensures |RecordOf(line)| > 2
  {
  }

  lemma NothingLands(lines: seq<string>)
    ensures Recorded(lines, 0) == []
  {
  }

  lemma PartOfARecord(line: string, n: nat)
    requires 0 < n <= |RecordOf(line)|
    ensures Readable(RecordOf(line)[..n]) == if n == |RecordOf(line)| then [line] else []
  {
    hide RecordOf, Blank, ReadRecord, Readable;
    RecordIsOneLine(line, n);
    OneLineReadable(RecordOf(line)[..n]);
    if n == |RecordOf(line)| {
      assert RecordOf(line)[..n] == RecordOf(line);
      RecordReads(line);
    } else {
      CutRecordDoesNotRead(line, n);
    }
  }

  lemma WholeRecordIsReadable(line: string)
    ensures Readable(RecordOf(line)) == [line]
  {
    hide RecordOf, Readable;
    RecordIsLong(line);
    PartOfARecord(line, |RecordOf(line)|);
    assert RecordOf(line)[..|RecordOf(line)|] == RecordOf(line);
  }

  /** In the middle of a line, the first of them cannot, nor what was there of it. */
  lemma GluedCannotBeRead(before: string, lines: seq<string>, written: nat)
    requires before != "" && '\n' !in before && lines != [] && written > 0
    ensures Readable(before + Cut(Records(lines), written)) == Rest(Recorded(lines, written))
  {
    hide RecordOf, Readable, ReadRecord, Blank, Records;
    var first := RecordOf(lines[0]);
    CutInTurn(lines, written);
    if written > |first| {
      var more := Cut(Records(lines[1..]), written - |first| - 1);
      RecordIsLong(lines[0]);
      GluedLine(before, lines[0], |first|);
      assert first[..|first|] == first;
      assert before + (first + "\n" + more) == before + first + "\n" + more;
      ReadableAtLineEnd(before + first, more);
      LandedCanBeRead(lines[1..], written - |first| - 1);
    } else {
      GluedLine(before, lines[0], written);
      NothingLands(lines[1..]);
    }
  }

  lemma GluedLine(before: string, line: string, n: nat)
    requires before != "" && '\n' !in before && 0 < n <= |RecordOf(line)|
    ensures Readable(before + RecordOf(line)[..n]) == []
  {
    hide RecordOf, Readable, ReadRecord;
    RecordIsOneLine(line, n);
    OneLineReadable(before + RecordOf(line)[..n]);
    GluedDoesNotRead(before, line, n);
  }

  /** The last line of a file that is cut short, and the whole lines before it. */
  function LastLine(content: string): (last: (string, string))
    requires EndsCutShort(content)
    ensures content == last.0 + last.1 && !EndsCutShort(last.0) && last.1 != "" && '\n' !in last.1
    decreases |content|
  {
    var n := |content| - 1;
    assert content == content[..n] + [content[n]];
    if n == 0 || content[n - 1] == '\n' then (content[..n], content[n..])
    else (LastLine(content[..n]).0, LastLine(content[..n]).1 + [content[n]])
  }

  /** The file ends in a whole record without its line end. */
  predicate EndsInARecord(content: string) {
    EndsCutShort(content) && Readable(LastLine(content).1) != []
  }

  /** An append that goes on where the one before was cut short, when either has a whole record there. */
  predicate Glues(content: string, lines: seq<string>, written: nat) {
    EndsCutShort(content) && lines != [] && written > 0 && (Recorded(lines, written) != [] || EndsInARecord(content))
  }

  /** An append loses no record, or at least one. */
  lemma AppendKeepsRecords(content: string, lines: seq<string>, written: nat)
    ensures var t, landed := content + Cut(Records(lines), written), Recorded(lines, written);
      && (!Glues(content, lines, written) ==> Readable(t) == Readable(content) + landed)
      && (Glues(content, lines, written) ==> |Readable(t)| < |Readable(content)| + |landed|)
  {
    hide RecordOf, Readable, Records, LastLine;
    var text := Cut(Records(lines), written);
    if lines == [] || written == 0 {
      NothingLands(lines);
      NoRecords();
      assert content + text == content;
    } else if !EndsCutShort(content) {
      LandedCanBeRead(lines, written);
      ReadableAfterWholeLines(content, text);
    } else {
      var (before, line) := LastLine(content);
      GluedCannotBeRead(line, lines, written);
      ReadableAfterWholeLines(before, line);
      ReadableAfterWholeLines(before, line + text);
      assert content + text == before + (line + text);
    }
  }

  lemma {:induction false} AllLand(lines: seq<string>)
    ensures Recorded(lines, |Records(lines)|) == lines && Cut(Records(lines), |Records(lines)|) == Records(lines)
    decreases |lines|
  {
    hide RecordOf;
    if lines != [] { AllLand(lines[1..]); }
  }

  /** All records of an append can be read, and all there were still, if and only if the file did not end cut short. */
  lemma RejectsReadUnlessCutShort(rejects: string, lines: seq<string>)
    requires lines != []
    ensures Readable(rejects + Records(lines)) == Readable(rejects) + lines <==> !EndsCutShort(rejects)
  {
    hide RecordOf, Readable, LastLine;
    AllLand(lines);
    assert |Records(lines)| > 0;
    AppendKeepsRecords(rejects, lines, |Records(lines)|);
  }
}

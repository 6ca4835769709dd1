/**
 The lines of the failed log's file, which an append may leave cut short anywhere. A file is its text, and no
 file is the empty one.
 */
module FailedLines {
  import opened JsonText
  import opened Whitespace

  // ── Lines ────────────────────────────────────────────────────────

  /** What `split('\n')` gives. */
  function Split(content: string): (lines: seq<string>)
    ensures |lines| >= 1
    decreases |content|
  {
    if content == "" then [""] else PutBefore(content[0], Split(content[1..]))
  }

  function PutBefore(c: char, lines: seq<string>): (more: seq<string>)
    requires |lines| >= 1
    ensures |more| >= 1
  {
    if c == '\n' then [""] + lines else [[c] + lines[0]] + lines[1..]
  }

  predicate Blank(line: string) {
    forall c :: c in line ==> IsSpace(c)
  }

  function WithoutBlank(lines: seq<string>): seq<string> {
    if lines == [] then [] else (if Blank(lines[0]) then [] else [lines[0]]) + WithoutBlank(lines[1..])
  }

  function ReadLines(content: string): seq<string> {
    WithoutBlank(Split(content))
  }

  /** The entries among some lines, in order. The rest cannot be read. */
  function Entries(lines: seq<string>): seq<string> {
    if lines == [] then []
    else (match Parse(lines[0]) case Some(text) => [text] case None => []) + Entries(lines[1..])
  }

  lemma PutBeforeIn(c: char, a: seq<string>, b: seq<string>)
    requires |a| >= 1
    ensures PutBefore(c, a + b) == PutBefore(c, a) + b
  {
    assert (a + b)[1..] == a[1..] + b;
  }

  lemma {:induction false} SplitAtLineEnd(a: string, b: string)
    ensures Split(a + "\n" + b) == Split(a) + Split(b)
    decreases |a|
  {
    hide PutBefore;
    var whole := a + "\n" + b;
    if a == "" {
      assert whole[0] == '\n' && whole[1..] == b;
      StartsALine(Split(b));
    } else {
      SplitAtLineEnd(a[1..], b);
      assert whole[0] == a[0] && whole[1..] == a[1..] + "\n" + b;
      PutBeforeIn(a[0], Split(a[1..]), Split(b));
    }
  }

  lemma StartsALine(lines: seq<string>)
    requires |lines| >= 1
    ensures PutBefore('\n', lines) == [""] + lines
  {
  }

  lemma {:induction false} SplitOneLine(line: string)
    requires '\n' !in line
    ensures Split(line) == [line]
    decreases |line|
  {
    if line == "" {
    } else {
      SplitOneLine(line[1..]);
      assert line == [line[0]] + line[1..];
    }
  }

  lemma {:induction false} WithoutBlankIn(a: seq<string>, b: seq<string>)
    ensures WithoutBlank(a + b) == WithoutBlank(a) + WithoutBlank(b)
    decreases |a|
  {
    hide Blank;
    if a == [] {
      assert a + b == b;
    } else {
      WithoutBlankIn(a[1..], b);
      assert (a + b)[1..] == a[1..] + b && (a + b)[0] == a[0];
    }
  }

  lemma {:induction false} EntriesIn(a: seq<string>, b: seq<string>)
    ensures Entries(a + b) == Entries(a) + Entries(b)
    decreases |a|
  {
    if a == [] {
      assert a + b == b;
    } else {
      hide Parse;
      EntriesIn(a[1..], b);
      assert (a + b)[1..] == a[1..] + b && (a + b)[0] == a[0];
    }
  }

  lemma ReadAtLineEnd(a: string, b: string)
    ensures ReadLines(a + "\n" + b) == ReadLines(a) + ReadLines(b)
  {
    SplitAtLineEnd(a, b);
    WithoutBlankIn(Split(a), Split(b));
  }

  function EndsCutShort(content: string): bool {
    content != "" && content[|content| - 1] != '\n'
  }

  /** After whole lines, what follows is read on its own. */
  lemma ReadAfterWholeLines(a: string, b: string)
    requires !EndsCutShort(a)
    ensures ReadLines(a + b) == ReadLines(a) + ReadLines(b)
  {
    if a == "" {
      assert a + b == b;
    } else {
      var before := a[..|a| - 1];
      assert a == before + "\n" + "" && a + b == before + "\n" + b;
      ReadAtLineEnd(before, "");
      ReadAtLineEnd(before, b);
    }
  }

  /** One line, whole or cut short, with its line end or without. */
  lemma ReadOneLine(line: string)
    requires '\n' !in line
    ensures ReadLines(line) == ReadLines(line + "\n") == if Blank(line) then [] else [line]
  {
    SplitOneLine(line);
    ReadAtLineEnd(line, "");
    assert line + "\n" + "" == line + "\n";
  }

  // ── Appending ────────────────────────────────────────────────────

  /** An append of which `written` characters reached the disk before it ended, or the process did. */
  datatype Attempt = Attempt(text: string, written: nat)

  /** What an append writes: a line, and before it the line end a crash may have left out. */
  function ToWrite(content: string, text: string): string {
    (if EndsCutShort(content) then "\n" else "") + Print(text) + "\n"
  }

  function Appended(content: string, attempt: Attempt): string {
    var line := ToWrite(content, attempt.text);
    content + (if attempt.written <= |line| then line[..attempt.written] else line)
  }

  /** Everything of the entry is on disk; its line end may not be. */
  predicate IsComplete(content: string, attempt: Attempt) {
    attempt.written + 1 >= |ToWrite(content, attempt.text)|
  }

  function AppendedAll(content: string, attempts: seq<Attempt>): string
    decreases |attempts|
  {
    if attempts == [] then content else AppendedAll(Appended(content, attempts[0]), attempts[1..])
  }

  /** The texts that are wholly on disk, in the order they were appended. */
  function CompleteOnes(content: string, attempts: seq<Attempt>): seq<string>
    decreases |attempts|
  {
    if attempts == [] then []
    else (if IsComplete(content, attempts[0]) then [attempts[0].text] else []) +
         CompleteOnes(Appended(content, attempts[0]), attempts[1..])
  }

  /** What an append adds to a file that ends at a line end: the line, or a part of it that no one can read. */
  lemma CutLineReads(text: string, n: nat)
    requires n <= |Print(text)| + 1
    ensures var lines := ReadLines((Print(text) + "\n")[..n]);
      if n >= |Print(text)| then lines == [Print(text)] else Entries(lines) == []
  {
    PrintedIsOneLine(text);
    var line := Print(text);
    assert !Blank(line) by { assert line[0] == '"' && line[0] in line; }
    if n > |line| {
      assert (line + "\n")[..n] == line + "\n";
      ReadOneLine(line);
    } else {
      assert (line + "\n")[..n] == line[..n];
      ReadOneLine(line[..n]);
      if n < |line| {
        CutPrintedDoesNotRead(text, n);
      } else {
        assert line[..n] == line;
      }
    }
  }

  /** What is on disk of the line of an append, without the line end it may have had to supply first. */
  function Landed(content: string, attempt: Attempt): string {
    var line, skipped := Print(attempt.text) + "\n", if EndsCutShort(content) then 1 else 0;
    if attempt.written <= skipped then ""
    else if attempt.written - skipped <= |line| then line[..attempt.written - skipped]
    else line
  }

  lemma AppendedIs(content: string, attempt: Attempt)
    ensures var t := Appended(content, attempt);
      t == content + Landed(content, attempt) ||
      (EndsCutShort(content) && t == content + "\n" + Landed(content, attempt))
    ensures EndsCutShort(content) ==> Appended(content, attempt) == content || Appended(content, attempt) == content + "\n" + Landed(content, attempt)
  {
    var all, line := ToWrite(content, attempt.text), Print(attempt.text) + "\n";
    if EndsCutShort(content) {
      assert all == "\n" + line;
      if 0 < attempt.written <= |all| {
        assert all[..attempt.written] == "\n" + line[..attempt.written - 1];
      }
    } else {
      assert all == line;
    }
  }

  lemma LandedReads(content: string, attempt: Attempt)
    ensures Entries(ReadLines(Landed(content, attempt))) == if IsComplete(content, attempt) then [attempt.text] else []
  {
    var line, landed := Print(attempt.text) + "\n", Landed(content, attempt);
    PrintedReads(attempt.text);
    CutLineReads(attempt.text, |landed|);
    assert landed == line[..|landed|];
  }

  /** An append adds its lines after all there were: not even what a crash left of an earlier one gets glued to it. */
  lemma AppendReads(content: string, attempt: Attempt)
    ensures var t := Appended(content, attempt);
      && content <= t
      && ReadLines(content) <= ReadLines(t)
      && Entries(ReadLines(t)) == Entries(ReadLines(content)) + (if IsComplete(content, attempt) then [attempt.text] else [])
  {
    hide ReadLines, Entries, IsComplete;
    var t, landed := Appended(content, attempt), Landed(content, attempt);
    AppendedIs(content, attempt);
    LandedReads(content, attempt);
    if t == content {
      NothingLanded(content, attempt);
    } else {
      if EndsCutShort(content) {
        ReadAtLineEnd(content, landed);
      } else {
        ReadAfterWholeLines(content, landed);
      }
      EntriesIn(ReadLines(content), ReadLines(landed));
    }
  }

  lemma NothingLanded(content: string, attempt: Attempt)
    requires Appended(content, attempt) == content
    ensures !IsComplete(content, attempt)
  {
  }

  /**
   * For any appends, each complete or cut short anywhere, reading gives what was there, then every complete entry,
   * in order, and no other.
   */
  lemma {:induction false} AppendsRead(content: string, attempts: seq<Attempt>)
    ensures var t := AppendedAll(content, attempts);
      && content <= t
      && ReadLines(content) <= ReadLines(t)
      && Entries(ReadLines(t)) == Entries(ReadLines(content)) + CompleteOnes(content, attempts)
    decreases |attempts|
  {
    hide ReadLines, Entries, IsComplete, Appended;
    if attempts == [] {
      assert CompleteOnes(content, attempts) == [];
    } else {
      var next := Appended(content, attempts[0]);
      AppendReads(content, attempts[0]);
      AppendsRead(next, attempts[1..]);
      var t := AppendedAll(next, attempts[1..]);
      InTurn(content, next, t);
      LinesInTurn(ReadLines(content), ReadLines(next), ReadLines(t));
    }
  }

  lemma InTurn(a: string, b: string, c: string)
    requires a <= b <= c
    ensures a <= c
  {
  }

  lemma LinesInTurn(a: seq<string>, b: seq<string>, c: seq<string>)
    requires a <= b <= c
    ensures a <= c
  {
  }
}

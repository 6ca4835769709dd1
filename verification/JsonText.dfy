/**
 One line per entry: the JSON text of a string. Nothing in it is a line end, and no part of it short of all
 of it reads as one, which is what lets a file tell an entry from what a crash left of one.
 */
module JsonText {
  import opened Options

  function Escaped(c: char): string {
    if c == '"' then "\\\"" else if c == '\\' then "\\\\" else if c == '\n' then "\\n" else [c]
  }

  function Unescaped(c: char): Option<char> {
    if c == '"' then Some('"') else if c == '\\' then Some('\\') else if c == 'n' then Some('\n') else None
  }

  /** The rest of a string's text, up to and with its closing quote. */
  function Quoted(text: string): string {
    if text == "" then "\"" else Escaped(text[0]) + Quoted(text[1..])
  }

  function Print(text: string): string {
    "\"" + Quoted(text)
  }

  function Prepend(c: char, rest: Option<string>): Option<string> {
    match rest
    case None => None
    case Some(text) => Some([c] + text)
  }

  function Unquoted(t: string): Option<string>
    decreases |t|
  {
    if t == "" || t[0] == '\n' then None
    else if t[0] == '"' then (if |t| == 1 then Some("") else None)
    else if t[0] != '\\' then Prepend(t[0], Unquoted(t[1..]))
    else if |t| < 2 || Unescaped(t[1]).None? then None
    else Prepend(Unescaped(t[1]).value, Unquoted(t[2..]))
  }

  function Parse(line: string): Option<string> {
    if line == "" || line[0] != '"' then None else Unquoted(line[1..])
  }

  // ── Printed text reads back, and nothing else reads as it ────────

  lemma {:induction false} QuotedReads(text: string)
    ensures Unquoted(Quoted(text)) == Some(text)
    decreases |text|
  {
    if text == "" {
    } else {
      QuotedReads(text[1..]);
      var head, rest := Escaped(text[0]), Quoted(text[1..]);
      var t := head + rest;
      assert t[|head|..] == rest;
      assert Unquoted(t) == Prepend(text[0], Unquoted(t[|head|..]));
      assert text == [text[0]] + text[1..];
    }
  }

  lemma PrintedReads(text: string)
    ensures Parse(Print(text)) == Some(text)
  {
    QuotedReads(text);
    assert Print(text)[1..] == Quoted(text);
  }

  lemma {:induction false} OnlyQuotedReads(t: string)
    requires Unquoted(t).Some?
    ensures t == Quoted(Unquoted(t).value)
    decreases |t|
  {
    if t[0] == '"' {
    } else if t[0] != '\\' {
      OnlyQuotedReads(t[1..]);
      assert t == [t[0]] + t[1..];
    } else {
      OnlyQuotedReads(t[2..]);
      assert t == Escaped(Unescaped(t[1]).value) + t[2..];
    }
  }

  /** A text has one line only, so what reads as it is that line. */
  lemma OnlyPrintedReads(line: string)
    requires Parse(line).Some?
    ensures line == Print(Parse(line).value)
  {
    OnlyQuotedReads(line[1..]);
  }

  /** Quoted text cut anywhere does not read as anything. */
  lemma {:induction false} CutQuotedDoesNotRead(text: string, n: nat)
    requires n < |Quoted(text)|
    ensures Unquoted(Quoted(text)[..n]).None?
    decreases |text|
  {
    if text == "" {
    } else {
      var head, rest := Escaped(text[0]), Quoted(text[1..]);
      var t := Quoted(text)[..n];
      if n >= |head| {
        CutQuotedDoesNotRead(text[1..], n - |head|);
        assert t == head + rest[..n - |head|];
        assert t[|head|..] == rest[..n - |head|];
      }
    }
  }

  lemma CutPrintedDoesNotRead(text: string, n: nat)
    requires n < |Print(text)|
    ensures Parse(Print(text)[..n]).None?
  {
    if n > 0 {
      CutQuotedDoesNotRead(text, n - 1);
      assert Print(text)[..n][1..] == Quoted(text)[..n - 1];
    }
  }

  lemma {:induction false} PrintedIsOneLine(text: string)
    ensures '\n' !in Quoted(text) && '\n' !in Print(text)
    decreases |text|
  {
    if text == "" {
    } else {
      PrintedIsOneLine(text[1..]);
    }
  }
}

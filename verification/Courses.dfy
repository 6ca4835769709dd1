/**
 What a pass over the failed log comes to when nothing else happens meanwhile: the verdict, the answer and the probe of
 every line are given, and the log, the outcomes and the circuit follow.
 */
module Courses {
  import opened MessageStore
  import opened MessageLedger
  import opened InboundProtocol
  import opened DuplicateSteps

  /** How it goes for a line: its verdict, what the log makes of it if it gets there, and whether a probe is written. */
  datatype Way = Way(verdict: Verdict, outcome: StoreOutcome, written: bool)

  /** How far a pass has come. With the circuit open, or while shutting down, it stores no more. */
  datatype Course = Course(ledger: Ledger, outcomes: seq<Outcome>, down: bool)

  /** The line gets as far as the log. */
  predicate IsOffered(arrivals: seq<Envelope>, lines: seq<Msg>, outcomes: seq<Outcome>, down: bool, way: Way)
    requires |outcomes| < |lines|
  {
    !HeldBack(arrivals, lines, outcomes, lines[|outcomes|]) && way.verdict == Accept && !down
  }

  /** What becomes of the line; it does not depend on what the log holds. */
  function OutcomeFor(arrivals: seq<Envelope>, lines: seq<Msg>, outcomes: seq<Outcome>, down: bool, way: Way): Outcome
    requires |outcomes| < |lines|
  {
    if HeldBack(arrivals, lines, outcomes, lines[|outcomes|]) then Kept
    else match way.verdict
      case Discard => Left
      case CannotTell => Kept
      case WaitedTooLong => Rejected
      case Accept =>
        if down then Kept
        else match way.outcome
          case CommitAnswered(_) => Left
          case CommitUnanswered(_) => Kept
          case NoCommit(permanent) => if permanent then Rejected else Kept
  }

  /** A line that fails without a reason, and a probe that fails too. */
  predicate OpensTheCircuit(way: Way) {
    !way.written && (way.outcome.CommitUnanswered? || (way.outcome.NoCommit? && !way.outcome.permanent))
  }

  predicate LinesKnown(arrivals: seq<Envelope>, lines: seq<Msg>) {
    forall i :: 0 <= i < |lines| ==> lines[i] < |arrivals| && arrivals[lines[i]].id == lines[i]
  }

  ghost function Told(arrivals: seq<Envelope>, lines: seq<Msg>, c: Course, way: Way): (t: Course)
    requires LinesKnown(arrivals, lines) && |c.outcomes| < |lines|
    ensures |t.outcomes| == |c.outcomes| + 1
  {
    var offered := IsOffered(arrivals, lines, c.outcomes, c.down, way);
    Course(if offered then AfterAttempt(c.ledger, arrivals[lines[|c.outcomes|]], way.outcome) else c.ledger,
           c.outcomes + [OutcomeFor(arrivals, lines, c.outcomes, c.down, way)],
           c.down || (offered && OpensTheCircuit(way)))
  }

  /** The first `n` lines, from the log `l` on, with the circuit taking messages. */
  ghost function Came(arrivals: seq<Envelope>, lines: seq<Msg>, l: Ledger, ways: seq<Way>, n: nat): (c: Course)
    requires LinesKnown(arrivals, lines) && n <= |ways| == |lines|
    ensures |c.outcomes| == n
  {
    if n == 0 then Course(l, [], false) else Told(arrivals, lines, Came(arrivals, lines, l, ways, n - 1), ways[n - 1])
  }

  // ── The log on the way ───────────────────────────────────────────

  /** The row is there for good: retention has no part in this. */
  lemma AttemptKeepsStored(l: Ledger, envelope: Envelope, outcome: StoreOutcome, other: Envelope)
    requires Valid(l)
    ensures Valid(AfterAttempt(l, envelope, outcome))
    ensures Stored(l.store.rows, other) ==> Stored(AfterAttempt(l, envelope, outcome).store.rows, other)
  {
    hide Valid, Commit, SameMessage;
    if !outcome.NoCommit? { CommitKeepsValid(l, envelope, outcome.now); }
    if k :| k in l.store.rows && SameMessage(l.store.rows[k], other) { AttemptsRemoveNothing(l, envelope, outcome, k); }
  }

  /** What was offered and committed once is found when it is offered again. */
  lemma AttemptIsNothingAgain(l: Ledger, envelope: Envelope, outcome: StoreOutcome)
    requires Valid(l)
    ensures !outcome.NoCommit? ==> Stored(AfterAttempt(l, envelope, outcome).store.rows, envelope)
    ensures outcome.NoCommit? || Stored(l.store.rows, envelope) ==> AfterAttempt(l, envelope, outcome) == l
  {
    hide Valid, Commit;
    if !outcome.NoCommit? {
      CommitEffect(l, envelope, outcome.now);
      var (l', result) := Commit(l, envelope, outcome.now);
      if result.Inserted? {
        assert (envelope.account, result.accountSeq) in l'.store.rows;
        assert SameMessage(l'.store.rows[(envelope.account, result.accountSeq)], envelope);
      }
    }
  }

  lemma {:induction false} CameIsValid(arrivals: seq<Envelope>, lines: seq<Msg>, l: Ledger, ways: seq<Way>, n: nat)
    requires LinesKnown(arrivals, lines) && n <= |ways| == |lines| && Valid(l)
    ensures Valid(Came(arrivals, lines, l, ways, n).ledger)
  {
    hide Valid, AfterAttempt;
    if n != 0 {
      var c := Came(arrivals, lines, l, ways, n - 1);
      CameIsValid(arrivals, lines, l, ways, n - 1);
      AttemptKeepsStored(c.ledger, arrivals[lines[n - 1]], ways[n - 1].outcome, arrivals[lines[n - 1]]);
    }
  }

  lemma OneMore(arrivals: seq<Envelope>, lines: seq<Msg>, l: Ledger, ways: seq<Way>, n: nat)
    requires LinesKnown(arrivals, lines) && 0 < n <= |ways| == |lines|
    ensures var before, after := Came(arrivals, lines, l, ways, n - 1).ledger, Came(arrivals, lines, l, ways, n).ledger;
      after == before || after == AfterAttempt(before, arrivals[lines[n - 1]], ways[n - 1].outcome)
  {
  }

  lemma {:induction false} StoredOnTheWay(arrivals: seq<Envelope>, lines: seq<Msg>, l: Ledger, ways: seq<Way>, k: nat, n: nat,
                                          envelope: Envelope)
    requires LinesKnown(arrivals, lines) && k <= n <= |ways| == |lines| && Valid(l)
    requires Stored(Came(arrivals, lines, l, ways, k).ledger.store.rows, envelope)
    ensures Stored(Came(arrivals, lines, l, ways, n).ledger.store.rows, envelope)
    decreases n
  {
    hide Valid, AfterAttempt, Stored, Came;
    if k < n {
      CameIsValid(arrivals, lines, l, ways, n - 1);
      StoredOnTheWay(arrivals, lines, l, ways, k, n - 1, envelope);
      OneMore(arrivals, lines, l, ways, n);
      AttemptKeepsStored(Came(arrivals, lines, l, ways, n - 1).ledger, arrivals[lines[n - 1]], ways[n - 1].outcome, envelope);
    }
  }

  // ── Offering again ───────────────────────────────────────────────

  /** One line, offered to a log that took it before. */
  lemma ToldAgain(arrivals: seq<Envelope>, lines: seq<Msg>, c: Course, way: Way, l: Ledger)
    requires LinesKnown(arrivals, lines) && |c.outcomes| < |lines| && Valid(l)
    requires IsOffered(arrivals, lines, c.outcomes, c.down, way) && !way.outcome.NoCommit? ==>
               Stored(l.store.rows, arrivals[lines[|c.outcomes|]])
    ensures Told(arrivals, lines, c.(ledger := l), way) == Told(arrivals, lines, c, way).(ledger := l)
  {
    hide Valid, AfterAttempt, Stored, HeldBack;
    AttemptIsNothingAgain(l, arrivals[lines[|c.outcomes|]], way.outcome);
  }

  /** Over the lines that had their turn before, the second pass goes as the first did, and leaves the log alone. */
  lemma {:induction false} FirstAgain(arrivals: seq<Envelope>, lines: seq<Msg>, l: Ledger, ways: seq<Way>, k: nat, n: nat)
    requires LinesKnown(arrivals, lines) && k <= n <= |ways| == |lines| && Valid(l)
    ensures var died := Came(arrivals, lines, l, ways, n).ledger;
      Came(arrivals, lines, died, ways, k) == Came(arrivals, lines, l, ways, k).(ledger := died)
    decreases k
  {
    hide Valid, AfterAttempt, Stored, HeldBack;
    var died := Came(arrivals, lines, l, ways, n).ledger;
    CameIsValid(arrivals, lines, l, ways, n);
    if k != 0 {
      var c := Came(arrivals, lines, l, ways, k - 1);
      FirstAgain(arrivals, lines, l, ways, k - 1, n);
      CameIsValid(arrivals, lines, l, ways, k - 1);
      AttemptIsNothingAgain(c.ledger, arrivals[lines[k - 1]], ways[k - 1].outcome);
      if IsOffered(arrivals, lines, c.outcomes, c.down, ways[k - 1]) && !ways[k - 1].outcome.NoCommit? {
        StoredOnTheWay(arrivals, lines, l, ways, k, n, arrivals[lines[k - 1]]);
      }
      ToldAgain(arrivals, lines, c, ways[k - 1], died);
    }
  }

  /** And from there on as the first would have gone. */
  lemma {:induction false} RestAgain(arrivals: seq<Envelope>, lines: seq<Msg>, l: Ledger, ways: seq<Way>, n: nat, k: nat)
    requires LinesKnown(arrivals, lines) && n <= k <= |ways| == |lines| && Valid(l)
    ensures Came(arrivals, lines, Came(arrivals, lines, l, ways, n).ledger, ways, k) == Came(arrivals, lines, l, ways, k)
    decreases k
  {
    hide Valid, Told;
    if k == n {
      FirstAgain(arrivals, lines, l, ways, n, n);
    } else {
      RestAgain(arrivals, lines, l, ways, n, k - 1);
    }
  }

  // ── Accounts of their own ────────────────────────────────────────

  /** Of one account the two logs hold the same. */
  ghost predicate AgreeOn(l: Ledger, l': Ledger, account: Account) {
    && HandedTo(l'.handed, account) == HandedTo(l.handed, account)
    && forall n: nat :: ((account, n) in l'.store.rows <==> (account, n) in l.store.rows) &&
                   ((account, n) in l.store.rows ==> l'.store.rows[(account, n)] == l.store.rows[(account, n)])
  }

  lemma StoredAlike(arrivals: seq<Envelope>, l: Ledger, l': Ledger, m: Msg)
    requires RowsAreTrue(arrivals, l.store.rows) && m < |arrivals| && arrivals[m].id == m
    requires Valid(l) && AgreeOn(l, l', arrivals[m].account) && Stored(l.store.rows, arrivals[m])
    ensures Stored(l'.store.rows, arrivals[m])
  {
    var k :| k in l.store.rows && SameMessage(l.store.rows[k], arrivals[m]);
    assert k == (arrivals[m].account, k.1);
    assert l'.store.rows[k] == l.store.rows[k];
  }

  lemma CommitAlike(arrivals: seq<Envelope>, l: Ledger, l': Ledger, m: Msg, now: int)
    requires Valid(l) && Valid(l') && RowsAreTrue(arrivals, l.store.rows) && RowsAreTrue(arrivals, l'.store.rows)
    requires m < |arrivals| && arrivals[m].id == m && AgreeOn(l, l', arrivals[m].account)
    ensures AgreeOn(Commit(l, arrivals[m], now).0, Commit(l', arrivals[m], now).0, arrivals[m].account)
  {
    hide Commit, RowsAreTrue, Stored, Valid;
    CommitEffect(l, arrivals[m], now);
    CommitEffect(l', arrivals[m], now);
    if Stored(l.store.rows, arrivals[m]) { StoredAlike(arrivals, l, l', m); }
    if Stored(l'.store.rows, arrivals[m]) { StoredAlike(arrivals, l', l, m); }
    StoredOrNot(l, arrivals[m], now);
    StoredOrNot(l', arrivals[m], now);
  }

  lemma StoredOrNot(l: Ledger, envelope: Envelope, now: int)
    requires Valid(l)
    ensures Commit(l, envelope, now).1.Duplicate? <==> Stored(l.store.rows, envelope)
    ensures Commit(l, envelope, now).1.Inserted? <==> !Stored(l.store.rows, envelope)
  {
    hide Valid;
  }

  lemma CommitElsewhere(l: Ledger, envelope: Envelope, now: int, account: Account)
    requires Valid(l) && envelope.account != account
    ensures AgreeOn(l, Commit(l, envelope, now).0, account)
  {
    hide Commit, Valid;
    CommitEffect(l, envelope, now);
  }

  lemma AttemptAlike(arrivals: seq<Envelope>, l: Ledger, l': Ledger, m: Msg, outcome: StoreOutcome)
    requires Valid(l) && Valid(l') && RowsAreTrue(arrivals, l.store.rows) && RowsAreTrue(arrivals, l'.store.rows)
    requires m < |arrivals| && arrivals[m].id == m && AgreeOn(l, l', arrivals[m].account)
    ensures AgreeOn(AfterAttempt(l, arrivals[m], outcome), AfterAttempt(l', arrivals[m], outcome), arrivals[m].account)
  {
    hide Valid, RowsAreTrue, AgreeOn, Commit;
    if !outcome.NoCommit? { CommitAlike(arrivals, l, l', m, outcome.now); }
  }

  lemma AttemptElsewhere(l: Ledger, envelope: Envelope, outcome: StoreOutcome, account: Account)
    requires Valid(l) && envelope.account != account
    ensures AgreeOn(l, AfterAttempt(l, envelope, outcome), account)
  {
    hide Valid, Commit;
    if !outcome.NoCommit? { CommitElsewhere(l, envelope, outcome.now, account); }
  }

  lemma {:induction false} CameIsTrue(arrivals: seq<Envelope>, lines: seq<Msg>, l: Ledger, ways: seq<Way>, n: nat)
    requires LinesKnown(arrivals, lines) && n <= |ways| == |lines| && Valid(l) && RowsAreTrue(arrivals, l.store.rows)
    ensures RowsAreTrue(arrivals, Came(arrivals, lines, l, ways, n).ledger.store.rows)
  {
    hide Valid, RowsAreTrue, Commit;
    if n != 0 {
      var c := Came(arrivals, lines, l, ways, n - 1);
      CameIsValid(arrivals, lines, l, ways, n - 1);
      CameIsTrue(arrivals, lines, l, ways, n - 1);
      OneMore(arrivals, lines, l, ways, n);
      if !ways[n - 1].outcome.NoCommit? { CommitKeepsRowsTrue(arrivals, c.ledger, lines[n - 1], ways[n - 1].outcome.now); }
    }
  }

  predicate OutcomesAgree(arrivals: seq<Envelope>, lines: seq<Msg>, outcomes: seq<Outcome>, others: seq<Outcome>, account: Account) {
    |outcomes| == |others| <= |lines| &&
    forall i | 0 <= i < |outcomes| && lines[i] < |arrivals| && arrivals[lines[i]].account == account :: outcomes[i] == others[i]
  }

  /** What an entry waits for is its own account's. */
  lemma HeldBackAlike(arrivals: seq<Envelope>, lines: seq<Msg>, outcomes: seq<Outcome>, others: seq<Outcome>, m: Msg)
    requires m < |arrivals| && OutcomesAgree(arrivals, lines, outcomes, others, arrivals[m].account)
    ensures HeldBack(arrivals, lines, outcomes, m) == HeldBack(arrivals, lines, others, m)
  {
  }

  /** One line of each pass, with the circuit taking messages in both. */
  lemma ToldAlike(arrivals: seq<Envelope>, lines: seq<Msg>, c: Course, d: Course, way: Way, other: Way, account: Account)
    requires LinesKnown(arrivals, lines) && |c.outcomes| < |lines| && !c.down && !d.down
    requires OutcomesAgree(arrivals, lines, c.outcomes, d.outcomes, account) && AgreeOn(c.ledger, d.ledger, account)
    requires Valid(c.ledger) && Valid(d.ledger) && RowsAreTrue(arrivals, c.ledger.store.rows) && RowsAreTrue(arrivals, d.ledger.store.rows)
    requires arrivals[lines[|c.outcomes|]].account == account ==> way == other
    ensures var c', d' := Told(arrivals, lines, c, way), Told(arrivals, lines, d, other);
      OutcomesAgree(arrivals, lines, c'.outcomes, d'.outcomes, account) && AgreeOn(c'.ledger, d'.ledger, account)
  {
    hide Valid, RowsAreTrue, AfterAttempt, HeldBack;
    var m := lines[|c.outcomes|];
    if arrivals[m].account == account {
      HeldBackAlike(arrivals, lines, c.outcomes, d.outcomes, m);
      AttemptAlike(arrivals, c.ledger, d.ledger, m, way.outcome);
    } else {
      AttemptElsewhere(c.ledger, arrivals[m], way.outcome, account);
      AttemptElsewhere(d.ledger, arrivals[m], other.outcome, account);
    }
  }

  /**
   * A stuck account holds no other back: two passes over the same lines that differ only in what other accounts' lines
   * meet give the account's the same outcomes, and the account the same numbers and rows, as long as the circuit takes
   * messages in both.
   */
  lemma {:induction false} OthersHoldNothingBack(arrivals: seq<Envelope>, lines: seq<Msg>, l: Ledger, ways: seq<Way>, others: seq<Way>,
                                                 account: Account, n: nat)
    requires LinesKnown(arrivals, lines) && n <= |ways| == |others| == |lines| && Valid(l) && RowsAreTrue(arrivals, l.store.rows)
    requires forall i :: 0 <= i < |lines| && arrivals[lines[i]].account == account ==> ways[i] == others[i]
    requires !Came(arrivals, lines, l, ways, n).down && !Came(arrivals, lines, l, others, n).down
    ensures var c, d := Came(arrivals, lines, l, ways, n), Came(arrivals, lines, l, others, n);
      OutcomesAgree(arrivals, lines, c.outcomes, d.outcomes, account) && AgreeOn(c.ledger, d.ledger, account)
  {
    hide Valid, RowsAreTrue, AfterAttempt, HeldBack, OutcomesAgree, AgreeOn;
    if n == 0 {
      AgreeWithItself(arrivals, lines, l, account);
    } else {
      OthersHoldNothingBack(arrivals, lines, l, ways, others, account, n - 1);
      CameIsValid(arrivals, lines, l, ways, n - 1);
      CameIsValid(arrivals, lines, l, others, n - 1);
      CameIsTrue(arrivals, lines, l, ways, n - 1);
      CameIsTrue(arrivals, lines, l, others, n - 1);
      ToldAlike(arrivals, lines, Came(arrivals, lines, l, ways, n - 1), Came(arrivals, lines, l, others, n - 1),
                ways[n - 1], others[n - 1], account);
    }
  }

  lemma AgreeWithItself(arrivals: seq<Envelope>, lines: seq<Msg>, l: Ledger, account: Account)
    ensures OutcomesAgree(arrivals, lines, [], [], account) && AgreeOn(l, l, account)
  {
  }

  // ── With other steps in between ──────────────────────────────────

  /** The next line has its turn, or something else happens: an attempt of a live message, or nothing that counts here. */
  datatype Beat = Line | Moves(e: Event)

  function LinesOf(beats: seq<Beat>): nat {
    if beats == [] then 0 else (if beats[0].Line? then 1 else 0) + LinesOf(beats[1..])
  }

  predicate IsLive(e: Event, arrivals: seq<Envelope>) {
    e.StoreAnswers? && e.m < |arrivals| && arrivals[e.m].id == e.m
  }

  ghost function Went(arrivals: seq<Envelope>, lines: seq<Msg>, c: Course, ways: seq<Way>, beats: seq<Beat>): Course
    requires LinesKnown(arrivals, lines) && |ways| == |lines| && |c.outcomes| + LinesOf(beats) <= |lines|
    decreases |beats|
  {
    if beats == [] then c
    else match beats[0]
      case Line => Went(arrivals, lines, Told(arrivals, lines, c, ways[|c.outcomes|]), ways, beats[1..])
      case Moves(e) => Went(arrivals, lines, Moved(arrivals, c, e), ways, beats[1..])
  }

  ghost function Moved(arrivals: seq<Envelope>, c: Course, e: Event): (t: Course)
    ensures t.outcomes == c.outcomes
  {
    if IsLive(e, arrivals) then c.(ledger := AfterAttempt(c.ledger, arrivals[e.m], e.outcome)) else c
  }

  /** The courses are equally far, and to the account their logs are the same. */
  ghost predicate Together(arrivals: seq<Envelope>, c: Course, d: Course, account: Account) {
    && d.outcomes == c.outcomes && d.down == c.down && AgreeOn(c.ledger, d.ledger, account)
    && Valid(c.ledger) && Valid(d.ledger) && RowsAreTrue(arrivals, c.ledger.store.rows) && RowsAreTrue(arrivals, d.ledger.store.rows)
  }

  lemma AttemptKeepsTrueRows(arrivals: seq<Envelope>, l: Ledger, m: Msg, outcome: StoreOutcome)
    requires Valid(l) && RowsAreTrue(arrivals, l.store.rows) && m < |arrivals| && arrivals[m].id == m
    ensures Valid(AfterAttempt(l, arrivals[m], outcome)) && RowsAreTrue(arrivals, AfterAttempt(l, arrivals[m], outcome).store.rows)
  {
    hide Valid, RowsAreTrue, Commit;
    if !outcome.NoCommit? {
      CommitKeepsValid(l, arrivals[m], outcome.now);
      CommitKeepsRowsTrue(arrivals, l, m, outcome.now);
    }
  }

  lemma ToldTogether(arrivals: seq<Envelope>, lines: seq<Msg>, c: Course, d: Course, way: Way, account: Account)
    requires LinesKnown(arrivals, lines) && |c.outcomes| < |lines| && Together(arrivals, c, d, account)
    ensures Together(arrivals, Told(arrivals, lines, c, way), Told(arrivals, lines, d, way), account)
  {
    hide Valid, RowsAreTrue, AgreeOn, AfterAttempt, HeldBack;
    var m := lines[|c.outcomes|];
    AttemptKeepsTrueRows(arrivals, c.ledger, m, way.outcome);
    AttemptKeepsTrueRows(arrivals, d.ledger, m, way.outcome);
    if arrivals[m].account == account {
      AttemptAlike(arrivals, c.ledger, d.ledger, m, way.outcome);
    } else {
      AttemptElsewhere(c.ledger, arrivals[m], way.outcome, account);
      AttemptElsewhere(d.ledger, arrivals[m], way.outcome, account);
      AgreeAcross(c.ledger, d.ledger, AfterAttempt(c.ledger, arrivals[m], way.outcome),
                  AfterAttempt(d.ledger, arrivals[m], way.outcome), account);
    }
  }

  lemma AgreeAcross(l: Ledger, k: Ledger, l': Ledger, k': Ledger, account: Account)
    requires AgreeOn(l, k, account) && AgreeOn(l, l', account) && AgreeOn(k, k', account)
    ensures AgreeOn(l', k', account) && AgreeOn(l, k', account)
  {
  }

  /** An attempt of another account's message is no matter to this one. */
  lemma MovedTogether(arrivals: seq<Envelope>, c: Course, d: Course, e: Event, account: Account)
    requires Together(arrivals, c, d, account)
    requires IsLive(e, arrivals) ==> arrivals[e.m].account != account
    ensures Together(arrivals, c, Moved(arrivals, d, e), account)
  {
    hide Valid, RowsAreTrue, AgreeOn, AfterAttempt;
    if IsLive(e, arrivals) {
      AttemptKeepsTrueRows(arrivals, d.ledger, e.m, e.outcome);
      AttemptElsewhere(d.ledger, arrivals[e.m], e.outcome, account);
      AgreesOn(c.ledger, d.ledger, AfterAttempt(d.ledger, arrivals[e.m], e.outcome), account);
    }
  }

  lemma AgreesOn(l: Ledger, k: Ledger, k': Ledger, account: Account)
    requires AgreeOn(l, k, account) && AgreeOn(k, k', account)
    ensures AgreeOn(l, k', account)
  {
  }

  /** However many such steps come between the lines, the account fares as if none had. */
  lemma {:induction false} WentTogether(arrivals: seq<Envelope>, lines: seq<Msg>, l: Ledger, ways: seq<Way>, k: nat, d: Course,
                                        beats: seq<Beat>, account: Account)
    requires LinesKnown(arrivals, lines) && |ways| == |lines| && k + LinesOf(beats) <= |lines|
    requires Together(arrivals, Came(arrivals, lines, l, ways, k), d, account)
    requires forall i :: 0 <= i < |beats| && beats[i].Moves? && IsLive(beats[i].e, arrivals) ==> arrivals[beats[i].e.m].account != account
    ensures Together(arrivals, Came(arrivals, lines, l, ways, k + LinesOf(beats)), Went(arrivals, lines, d, ways, beats), account)
    decreases |beats|
  {
    hide Together, Told, Moved, IsLive;
    if beats != [] {
      SameLength(arrivals, Came(arrivals, lines, l, ways, k), d, account);
      match beats[0] {
        case Line =>
          ToldTogether(arrivals, lines, Came(arrivals, lines, l, ways, k), d, ways[k], account);
          WentTogether(arrivals, lines, l, ways, k + 1, Told(arrivals, lines, d, ways[k]), beats[1..], account);
        case Moves(e) =>
          MovedTogether(arrivals, Came(arrivals, lines, l, ways, k), d, e, account);
          WentTogether(arrivals, lines, l, ways, k, Moved(arrivals, d, e), beats[1..], account);
      }
    }
  }

  lemma SameLength(arrivals: seq<Envelope>, c: Course, d: Course, account: Account)
    requires Together(arrivals, c, d, account)
    ensures |d.outcomes| == |c.outcomes|
  {
  }

  /** Two passes over the same lines, from logs that are the same to the account. */
  lemma {:induction false} CameTogether(arrivals: seq<Envelope>, lines: seq<Msg>, l: Ledger, k: Ledger, ways: seq<Way>, n: nat,
                                        account: Account)
    requires LinesKnown(arrivals, lines) && n <= |ways| == |lines|
    requires Together(arrivals, Course(l, [], false), Course(k, [], false), account)
    ensures Together(arrivals, Came(arrivals, lines, l, ways, n), Came(arrivals, lines, k, ways, n), account)
    decreases n
  {
    hide Together, Told;
    if n != 0 {
      CameTogether(arrivals, lines, l, k, ways, n - 1, account);
      ToldTogether(arrivals, lines, Came(arrivals, lines, l, ways, n - 1), Came(arrivals, lines, k, ways, n - 1), ways[n - 1], account);
    }
  }

  /** A pass dies with other steps in between, and the next offers all lines again: to the account, as one pass. */
  lemma DyingAmongOthers(arrivals: seq<Envelope>, lines: seq<Msg>, l: Ledger, ways: seq<Way>, beats: seq<Beat>, account: Account)
    requires LinesKnown(arrivals, lines) && |ways| == |lines| && LinesOf(beats) <= |lines|
    requires Valid(l) && RowsAreTrue(arrivals, l.store.rows)
    requires forall i :: 0 <= i < |beats| && beats[i].Moves? && IsLive(beats[i].e, arrivals) ==> arrivals[beats[i].e.m].account != account
    ensures var died := Went(arrivals, lines, Course(l, [], false), ways, beats).ledger;
      Together(arrivals, Came(arrivals, lines, l, ways, |ways|), Came(arrivals, lines, died, ways, |ways|), account)
  {
    hide Valid, RowsAreTrue, AgreeOn, Went;
    var c := Course(l, [], false);
    AgreeWithItself(arrivals, lines, l, account);
    WentTogether(arrivals, lines, l, ways, 0, c, beats, account);
    var died := Went(arrivals, lines, c, ways, beats).ledger;
    var k := Came(arrivals, lines, l, ways, LinesOf(beats)).ledger;
    CameTogether(arrivals, lines, k, died, ways, |ways|, account);
    RestAgain(arrivals, lines, l, ways, LinesOf(beats), |ways|);
  }
}

/**
 The durable inbound protocol as a step system: the pipeline, the circuit breaker, the failed log and the
 message log, over any number of accounts, outages, crashes and restarts.

 A step is what the code runs between two `await`s, or one operation of the database or of the file. A
 message is its position in the order of `handle()` calls, which also stands for its envelope id. What a step
 cannot know (an answer, a verdict of the filter, a failure) is a parameter of it, so a run is any interleaving
 of any of them. Everything after `fates` is history: the code does not keep it, the theorems are about it.
 */
module InboundProtocol {
  import opened Options
  import opened MessageStore
  import opened MessageLedger
  import opened StoreGuard

  type Msg = nat

  /** Where a message is on its way through its account's queue. */
  datatype Stage =
    | Queued
    | Enriching
    | Resolving
    | Attempting(attempt: nat)
    | Answered(result: InsertResult)
    | Failed(attempt: nat, permanent: bool)
    | Waiting(attempt: nat)
    | Refusing
    | WritingOff
    | Appended
    | Replaying
    | WrittenOff
    | Done

  /** Who started a pass over the failed log, and so what goes on when it ends. */
  datatype Caller =
    | AtStart
    | Recover(startedAt: nat)
    | Persist(m: Msg)
    | Timer

  /** What became of an entry of a pass: stored or discarded, still waiting, or given up on. */
  datatype Outcome = Left | Kept | Rejected

  datatype Line = Next | Inserting | ProbingLine

  datatype Work =
    | Turn
    | Reading
    | Running(lines: seq<Msg>, outcomes: seq<Outcome>, line: Line)
    | Rejecting(lines: seq<Msg>, outcomes: seq<Outcome>)
    | Keeping(lines: seq<Msg>, outcomes: seq<Outcome>)

  datatype Pass = Pass(caller: Caller, work: Work)

  /** A pass that ended and whose caller has not gone on yet. */
  datatype Ended = Ended(caller: Caller, kept: seq<Msg>, failed: bool)

  /** Operations on the file take turns, in the order they were asked for. */
  datatype FileOp =
    | Append(m: Msg)
    | AppendLeft(m: Msg)
    | Read
    | Reject
    | Keep

  datatype Drain = NotDraining | DrainWaiting | DrainWriting(snapshot: nat) | Drained(snapshot: nat)

  /** How a message ended other than in the log or the failed log: `duplicates` live, `repeated` when a pass offered it. */
  datatype Fates = Fates(
    rejects: set<Msg>, filtered: set<Msg>, discarded: set<Msg>, duplicates: set<Msg>, repeated: set<Msg>, lost: set<Msg>, died: set<Msg>)

  datatype Emission = Emission(m: Msg, number: Option<nat>)

  /**
   * What became of the order of numbers. `dirty` are the accounts of which this process may number an earlier message
   * after a later one; `since` tells from which arrival on the order of an account counts, what came before having been
   * left in disorder by an earlier process; `forgotten` are messages whose row retention removed while they could still
   * be stored; `given` are the numbers the pass in progress gave, with the line each went to.
   */
  datatype Past = Past(dirty: set<Account>, since: map<Account, nat>, forgotten: set<Msg>, given: seq<(nat, nat)>)

  datatype State = State(
    arrivals: seq<Envelope>,
    stage: seq<Stage>,
    unsaved: set<Msg>,
    writeOffs: nat,
    heldTimer: bool,
    drain: Drain,
    left: set<Msg>,
    busy: Option<Msg>,
    guard: Guard,
    retries: nat,
    ledger: Ledger,
    file: seq<Msg>,
    fileTurn: seq<FileOp>,
    passes: seq<Pass>,
    ended: seq<Ended>,
    starting: bool,
    resuming: nat,
    // history
    fates: Fates,
    emitted: seq<Emission>,
    past: Past,
    runStart: nat)

  /** A new installation. The start replays the failed log before it connects any account. */
  function Init(retries: nat): State {
    State([], [], {}, 0, false, NotDraining, {}, None, FRESH, retries, EMPTY, [], [],
          [Pass(AtStart, Turn)], [], true, 0,
          Fates({}, {}, {}, {}, {}, {}, {}), [], Past({}, map[], {}, []), 0)
  }

  // ── Reading a state ──────────────────────────────────────────────

  predicate SameAccount(arrivals: seq<Envelope>, m: Msg, other: Msg) {
    m < |arrivals| && other < |arrivals| && arrivals[m].account == arrivals[other].account
  }

  /** Everything before it in its account's queue is over. */
  predicate ItsTurn(s: State, m: Msg) {
    m < |s.stage| && |s.stage| == |s.arrivals| &&
    forall before :: 0 <= before < m && SameAccount(s.arrivals, before, m) ==> s.stage[before] == Done
  }

  function AccountsOf(arrivals: seq<Envelope>, messages: seq<Msg>): set<Account> {
    set i | 0 <= i < |messages| && messages[i] < |arrivals| :: arrivals[messages[i]].account
  }

  function OutcomesOf(passes: seq<Pass>): seq<Outcome> {
    if passes == [] || passes[0].work.Turn? || passes[0].work.Reading? then [] else passes[0].work.outcomes
  }

  predicate Processing(passes: seq<Pass>) {
    passes != [] && !passes[0].work.Turn? && !passes[0].work.Reading?
  }

  /** From which arrival on the order of an account's numbers counts. */
  function SinceOf(since: map<Account, nat>, a: Account): nat {
    if a in since then since[a] else 0
  }

  /** Something that came no earlier, and since the order counts, has a number already. */
  predicate IsPassed(handed: seq<Id>, since: nat, m: Msg) {
    exists k :: k in handed && since <= k && m <= k
  }

  /**
   * Accounts of which the pass let go of an entry the log has not, with a later one numbered already: read again, the
   * entry may get a number after all, and out of order.
   */
  ghost function LetGo(arrivals: seq<Envelope>, l: Ledger, since: map<Account, nat>, passes: seq<Pass>): set<Account> {
    if !Processing(passes) then {}
    else
      var w := passes[0].work;
      set i | 0 <= i < |w.outcomes| && i < |w.lines| && w.outcomes[i] != Kept && w.lines[i] < |arrivals| &&
              !HasRow(l.store.rows, w.lines[i]) &&
              IsPassed(HandedTo(l.handed, arrivals[w.lines[i]].account), SinceOf(since, arrivals[w.lines[i]].account), w.lines[i])
        :: arrivals[w.lines[i]].account
  }

  ghost function LetGoOf(s: State): set<Account> {
    LetGo(s.arrivals, s.ledger, s.past.since, s.passes)
  }

  function WithDirty(s: State, accounts: set<Account>): State {
    s.(past := s.past.(dirty := s.past.dirty + accounts))
  }

  /** An earlier entry of its account is still waiting, so this one waits too. */
  predicate HeldBack(arrivals: seq<Envelope>, lines: seq<Msg>, outcomes: seq<Outcome>, m: Msg) {
    exists j :: 0 <= j < |outcomes| && j < |lines| && SameAccount(arrivals, lines[j], m) && outcomes[j] == Kept
  }

  function LinesThat(lines: seq<Msg>, outcomes: seq<Outcome>, outcome: Outcome): seq<Msg>
    requires |outcomes| <= |lines|
    decreases |outcomes|
  {
    if outcomes == [] then []
    else
      var last := |outcomes| - 1;
      LinesThat(lines, outcomes[..last], outcome) + (if outcomes[last] == outcome then [lines[last]] else [])
  }

  function Elements(messages: seq<Msg>): set<Msg> {
    set m | m in messages
  }

  // ── Steps shared by several ──────────────────────────────────────

  function WithStage(s: State, m: Msg, stage: Stage): State
    requires m < |s.stage|
  {
    s.(stage := s.stage[m := stage])
  }

  /** Off the queue without a word to anyone. */
  function Finish(s: State, m: Msg): State
    requires m < |s.stage|
  {
    s.(stage := s.stage[m := Done], unsaved := s.unsaved - {m})
  }

  function FinishEmitting(s: State, m: Msg, number: Option<nat>): State
    requires m < |s.stage|
  {
    Finish(s, m).(emitted := s.emitted + [Emission(m, number)])
  }

  function Ask(s: State, op: FileOp): State {
    s.(fileTurn := s.fileTurn + [op])
  }

  function StartPass(s: State, caller: Caller): State {
    s.(passes := s.passes + [Pass(caller, Turn)])
  }

  function WithWork(s: State, work: Work): State
    requires s.passes != []
  {
    s.(passes := s.passes[0 := s.passes[0].(work := work)])
  }

  function WithOutcome(s: State, outcome: Outcome): State
    requires s.passes != [] && s.passes[0].work.Running?
  {
    var w := s.passes[0].work;
    WithWork(s, Running(w.lines, w.outcomes + [outcome], Next))
  }

  /** Something stays, or nothing could be told: another pass looks again later. The caller goes on in a step of its own. */
  ghost function EndPass(s: State, kept: seq<Msg>, failed: bool): State
    requires s.passes != []
  {
    var caller := s.passes[0].caller;
    WithDirty(s, (if failed then LetGoOf(s) else {}) +
                 (if s.guard.phase == Closed then AccountsOf(s.arrivals, if failed then s.file else kept) else {}))
    .(passes := s.passes[1..],
      ended := if caller == Timer then s.ended else s.ended + [Ended(caller, kept, failed)],
      heldTimer := s.heldTimer || ((failed || kept != []) && s.drain == NotDraining))
  }

  function WithoutEnded(s: State, i: nat): State
    requires i < |s.ended|
  {
    s.(ended := s.ended[..i] + s.ended[i + 1..])
  }

  // ── Live messages ────────────────────────────────────────────────

  /** `handle()`: accepted, behind whatever its account has. */
  function Handle(s: State, envelope: Envelope): State {
    s.(arrivals := s.arrivals + [envelope],
       stage := s.stage + [Queued],
       unsaved := s.unsaved + {|s.arrivals|})
  }

  /** Its turn comes; `drain` may have written it off already. */
  function Start(s: State, m: Msg): State
    requires m < |s.stage|
  {
    if m !in s.unsaved then Finish(s, m) else WithStage(s, m, Enriching)
  }

  function Enriched(s: State, m: Msg, accepted: bool): State
    requires m < |s.stage|
  {
    if m !in s.unsaved then Finish(s, m)
    else if !accepted then Finish(s, m).(fates := s.fates.(filtered := s.fates.filtered + {m}))
    else WithStage(s, m, Resolving)
  }

  /** The top of the attempt loop: with the circuit open it is refused at once. */
  function Attempt(s: State, m: Msg, attempt: nat): State
    requires m < |s.stage|
  {
    WithStage(s, m, if s.guard.phase == Closed then Attempting(attempt) else Refusing)
  }

  datatype StoreOutcome =
    | CommitAnswered(now: int)
    | CommitUnanswered(now: int)
    | NoCommit(permanent: bool)

  /** What one attempt does to the log. Refused data never commits. */
  ghost function AfterAttempt(l: Ledger, envelope: Envelope, outcome: StoreOutcome): Ledger {
    if outcome.NoCommit? then l else Commit(l, envelope, outcome.now).0
  }

  ghost function Answer(s: State, m: Msg, outcome: StoreOutcome): State
    requires m < |s.stage| && m < |s.arrivals| && s.stage[m].Attempting?
  {
    var attempt := s.stage[m].attempt;
    WithStage(s.(ledger := AfterAttempt(s.ledger, s.arrivals[m], outcome)), m,
              match outcome
              case CommitAnswered(now) => Answered(SettleRetried(m, attempt, Commit(s.ledger, s.arrivals[m], now).1))
              case CommitUnanswered(_) => Failed(attempt, false)
              case NoCommit(permanent) => Failed(attempt, permanent))
  }

  /** Refused for good, out of attempts (the circuit opens), shutting down, or another attempt later. */
  function AttemptFailed(s: State, m: Msg): State
    requires m < |s.stage| && s.stage[m].Failed?
  {
    var f := s.stage[m];
    if f.permanent then WithStage(s, m, Refusing)
    else if f.attempt >= s.retries then WithStage(s.(guard := Open(s.guard)), m, Refusing)
    else if s.guard.stopped then WithStage(s, m, Refusing)
    else WithStage(s, m, Waiting(f.attempt + 1))
  }

  /** `persist` catches the refusal: what `drain` did not take goes to the failed log. */
  function WriteOff(s: State, m: Msg): State
    requires m < |s.stage|
  {
    if m in s.unsaved
    then Ask(WithStage(s.(writeOffs := s.writeOffs + 1), m, WritingOff), Append(m))
    else AfterWriteOff(s, m)
  }

  /** While live messages are attempted at once, a later one could get ahead of it, so a pass of its own comes first. */
  function AfterWriteOff(s: State, m: Msg): State
    requires m < |s.stage|
  {
    if TakingDirectly(s.guard) then StartPass(WithStage(s, m, Replaying), Persist(m)) else WithStage(s, m, WrittenOff)
  }

  function AppendEnds(s: State, m: Msg): State
    requires m < |s.stage|
  {
    AfterWriteOff(s.(unsaved := s.unsaved - {m}), m)
  }

  /** A duplicate ends in silence; anything else is emitted, with its number if it was stored. */
  function Conclude(s: State, m: Msg): State
    requires m < |s.stage|
  {
    match s.stage[m]
    case Answered(Inserted(number)) => FinishEmitting(s, m, Some(number))
    case Answered(_) => Finish(s, m).(fates := s.fates.(duplicates := s.fates.duplicates + {m}))
    case _ => FinishEmitting(s, m, None)
  }

  // ── The file, one operation at a time ────────────────────────────

  predicate ReadyToReject(passes: seq<Pass>) {
    passes != [] && passes[0].work.Rejecting? && |passes[0].work.outcomes| == |passes[0].work.lines|
  }

  predicate ReadyToKeep(passes: seq<Pass>, file: seq<Msg>) {
    passes != [] && passes[0].work.Keeping? && |passes[0].work.outcomes| == |passes[0].work.lines| <= |file|
  }

  ghost function FileStep(s: State, ok: bool): State
    requires s.fileTurn != []
    requires s.fileTurn[0].Append? ==> s.fileTurn[0].m < |s.stage|
    requires s.fileTurn[0].Read? ==> s.passes != []
    requires s.fileTurn[0].Reject? ==> ReadyToReject(s.passes)
    requires s.fileTurn[0].Keep? ==> ReadyToKeep(s.passes, s.file)
  {
    var t := s.(fileTurn := s.fileTurn[1..]);
    match s.fileTurn[0]
    case Append(m) => WithStage(Written(t, m, ok), m, Appended)
    case AppendLeft(m) => Written(t, m, ok).(left := s.left - {m}, busy := None)
    case Read => if ok then WithWork(WithGiven(t, []), Running(s.file, [], Next)) else EndPass(t, [], true)
    case Reject => if ok then RejectedAre(t) else EndPass(t, [], true)
    case Keep => if ok then KeepOnly(t) else EndPass(t, [], true)
  }

  function WithGiven(s: State, given: seq<(nat, nat)>): State {
    s.(past := s.past.(given := given))
  }

  function Written(s: State, m: Msg, ok: bool): State {
    if ok then s.(file := s.file + [m]) else s.(fates := s.fates.(lost := s.fates.lost + {m}))
  }

  function RejectedAre(s: State): State
    requires ReadyToReject(s.passes)
  {
    var w := s.passes[0].work;
    Ask(WithWork(s.(fates := s.fates.(rejects := s.fates.rejects + Elements(LinesThat(w.lines, w.outcomes, Rejected)))),
                 Keeping(w.lines, w.outcomes)), Keep)
  }

  /** The kept lines, and whatever was appended since the pass read the file. */
  ghost function KeepOnly(s: State): State
    requires ReadyToKeep(s.passes, s.file)
  {
    var w := s.passes[0].work;
    var kept := LinesThat(w.lines, w.outcomes, Kept);
    EndPass(s.(file := kept + s.file[|w.lines|..]), kept, false)
  }

  // ── A pass ───────────────────────────────────────────────────────

  function BeginPass(s: State): State
    requires s.passes != []
  {
    Ask(WithWork(s, Reading), Read)
  }

  datatype Verdict = Accept | Discard | CannotTell | WaitedTooLong

  /** The next entry is judged, and goes to the log if nothing holds it back. */
  function Judge(s: State, verdict: Verdict): State
    requires s.passes != [] && s.passes[0].work.Running? && |s.passes[0].work.outcomes| < |s.passes[0].work.lines|
  {
    var w := s.passes[0].work;
    var m := w.lines[|w.outcomes|];
    if HeldBack(s.arrivals, w.lines, w.outcomes, m) then WithOutcome(s, Kept)
    else match verdict
      case Discard => WithOutcome(s.(fates := s.fates.(discarded := s.fates.discarded + {m})), Left)
      case CannotTell => WithOutcome(s, Kept)
      case WaitedTooLong => WithOutcome(s, Rejected)
      case Accept =>
        if s.guard.stopped || s.guard.phase == Down then WithOutcome(s, Kept)
        else WithWork(s, Running(w.lines, w.outcomes, Inserting))
  }

  /** A commit gives the line at `i` a number, or it has one already. */
  ghost function Gives(s: State, i: nat, outcome: StoreOutcome): (t: State)
    requires s.passes != [] && s.passes[0].work.Running? && i < |s.passes[0].work.lines| && s.passes[0].work.lines[i] < |s.arrivals|
    ensures t == WithGiven(s, t.past.given)
  {
    if outcome.NoCommit? then s
    else match Commit(s.ledger, s.arrivals[s.passes[0].work.lines[i]], outcome.now).1
      case Inserted(number) => WithGiven(s, s.past.given + [(i, number)])
      case _ => s
  }

  /** A single attempt. What fails without a reason is checked against a probe. */
  ghost function LineAnswer(s: State, outcome: StoreOutcome): State
    requires s.passes != [] && s.passes[0].work.Running? && |s.passes[0].work.outcomes| < |s.passes[0].work.lines|
    requires s.passes[0].work.lines[|s.passes[0].work.outcomes|] < |s.arrivals|
  {
    var w := s.passes[0].work;
    var m := w.lines[|w.outcomes|];
    var t := Gives(s, |w.outcomes|, outcome).(ledger := AfterAttempt(s.ledger, s.arrivals[m], outcome));
    match outcome
    case CommitAnswered(now) =>
      var result := Commit(s.ledger, s.arrivals[m], now).1;
      WithOutcome(if result.Duplicate? && result.storedId != m
                  then t.(fates := s.fates.(repeated := s.fates.repeated + {m})) else t, Left)
    case CommitUnanswered(_) => WithWork(t, Running(w.lines, w.outcomes, ProbingLine))
    case NoCommit(permanent) =>
      if permanent then WithOutcome(t, Rejected) else WithWork(t, Running(w.lines, w.outcomes, ProbingLine))
  }

  /** The entry stays where it is; if the probe fails too, the log is down. */
  function LineProbed(s: State, written: bool): State
    requires s.passes != [] && s.passes[0].work.Running?
  {
    WithOutcome(if written then s else s.(guard := Open(s.guard)), Kept)
  }

  ghost function EndLines(s: State): State
    requires s.passes != [] && s.passes[0].work.Running? && |s.passes[0].work.outcomes| == |s.passes[0].work.lines|
  {
    var w := s.passes[0].work;
    if Rejected in w.outcomes then Ask(WithWork(s, Rejecting(w.lines, w.outcomes)), Reject)
    else if Left in w.outcomes then Ask(WithWork(s, Keeping(w.lines, w.outcomes)), Keep)
    else EndPass(s, LinesThat(w.lines, w.outcomes, Kept), false)
  }

  // ── Whoever waited for a pass goes on ────────────────────────────

  predicate PassesAgain(s: State, i: nat)
    requires i < |s.ended| && s.ended[i].caller.Recover?
  {
    !s.ended[i].failed && IsRecovering(s.guard) && s.writeOffs != s.ended[i].caller.startedAt
  }

  /** Another pass if something may have been missed; otherwise the circuit closes, leaving what this pass kept. */
  function LoopGoesOn(s: State, i: nat): State
    requires i < |s.ended| && s.ended[i].caller.Recover?
  {
    var e := s.ended[i];
    var t := WithoutEnded(s, i);
    if PassesAgain(s, i) then StartPass(t, Recover(s.writeOffs))
    else if IsRecovering(s.guard) then
      WithDirty(t, AccountsOf(s.arrivals, if e.failed then s.file else e.kept)).(guard := FinishRecovery(s.guard))
    else t
  }

  /** With the loop over, the media of what it stored is resumed, whether or not it closed the circuit. */
  function RecoverGoesOn(s: State, i: nat, stored: bool): State
    requires i < |s.ended| && s.ended[i].caller.Recover?
  {
    var t := LoopGoesOn(s, i);
    if stored && !s.ended[i].failed && !PassesAgain(s, i) then t.(resuming := t.resuming + 1) else t
  }

  /** A recovery's resuming of media is over. If it failed, the circuit closes, be it that a later recovery is in progress. */
  function ResumeEnds(s: State, failed: bool): State
    requires s.resuming > 0
  {
    var t := s.(resuming := s.resuming - 1);
    if failed && IsRecovering(s.guard) then ClosedMeanwhile(t) else t
  }

  function ClosedMeanwhile(s: State): State {
    WithDirty(s, AccountsOf(s.arrivals, s.file)).(guard := FinishRecovery(s.guard))
  }

  function PersistGoesOn(s: State, i: nat): State
    requires i < |s.ended| && s.ended[i].caller.Persist? && s.ended[i].caller.m < |s.stage|
  {
    WithStage(WithoutEnded(s, i), s.ended[i].caller.m, WrittenOff)
  }

  /** Accounts connect from here on. */
  function StartGoesOn(s: State, i: nat): State
    requires i < |s.ended|
  {
    WithoutEnded(s, i).(starting := false)
  }

  function HeldTimerFires(s: State): State {
    StartPass(s.(heldTimer := false), Timer)
  }

  function ProbeFires(s: State): State {
    s.(guard := ProbeTimerFires(s.guard))
  }

  function ProbeAnswers(s: State, written: bool): State {
    var t := s.(guard := ProbeEnds(s.guard, written));
    if Answers(s.guard, written) then StartPass(t, Recover(s.writeOffs)) else t
  }

  // ── Shutdown ─────────────────────────────────────────────────────

  function DrainStarts(s: State): State {
    s.(guard := Stop(s.guard), drain := DrainWaiting, heldTimer := false)
  }

  /** Out of time, or the queues are empty: what is still unsaved is `drain`'s to write off. */
  function DrainTakes(s: State): State {
    s.(left := s.unsaved, unsaved := {}, drain := DrainWriting(|s.arrivals|))
  }

  function DrainNext(s: State, m: Msg, accepted: bool): State {
    if !accepted then s.(left := s.left - {m}, fates := s.fates.(filtered := s.fates.filtered + {m}))
    else Ask(s.(writeOffs := s.writeOffs + 1, busy := Some(m)), AppendLeft(m))
  }

  function DrainEnds(s: State): State
    requires s.drain.DrainWriting?
  {
    s.(drain := Drained(s.drain.snapshot))
  }

  // ── The world ────────────────────────────────────────────────────

  /** Over: nothing will try to store it again. */
  predicate Settled(s: State, m: Msg) {
    m < |s.stage| && s.stage[m] == Done && m !in s.file && m !in s.left
  }

  /** The messages whose rows go while they may still be stored. */
  function ForgottenBy(s: State, keys: set<(Account, nat)>): set<Msg> {
    set k | k in keys && k in s.ledger.store.rows && !Settled(s, s.ledger.store.rows[k].id) :: s.ledger.store.rows[k].id
  }

  /** A row goes by its age alone. Stored again, its message gets a second number, after whatever came meanwhile. */
  function Retention(s: State, keys: set<(Account, nat)>): State {
    var gone := ForgottenBy(s, keys);
    var forgetful := set m | m in gone && m < |s.arrivals| :: s.arrivals[m].account;
    s.(past := s.past.(dirty := s.past.dirty + forgetful, forgotten := s.past.forgotten + gone),
       ledger := Forget(s.ledger, keys))
  }

  /** What only memory held is gone; the log and the failed log stay. The process starts again, with a pass. */
  ghost function Crash(s: State): State {
    s.(stage := seq(|s.stage|, _ => Done),
       unsaved := {}, left := {}, busy := None, writeOffs := 0, heldTimer := false, drain := NotDraining,
       guard := FRESH, fileTurn := [], passes := [Pass(AtStart, Turn)], ended := [], starting := true, resuming := 0,
       fates := s.fates.(died := s.fates.died + s.unsaved + s.left),
       past := Restarted(s),
       runStart := |s.arrivals|)
  }

  /** Accounts of which this process leaves an order that does not count any more. */
  ghost function Spoilt(s: State): set<Account> {
    if s.guard.stopped then set i | 0 <= i < |s.arrivals| :: s.arrivals[i].account else s.past.dirty + LetGoOf(s)
  }

  /** A new process starts with no account in disorder; what an earlier one spoilt counts from here on. */
  ghost function Restarted(s: State): Past {
    s.past.(dirty := {}, since := s.past.since + (map a | a in Spoilt(s) :: |s.arrivals|), given := [])
  }

  // ── Steps and runs ───────────────────────────────────────────────

  datatype Event =
    | Handles(envelope: Envelope)
    | Starts(m: Msg)
    | EnrichEnds(m: Msg, accepted: bool)
    | ResolveEnds(m: Msg)
    | StoreAnswers(m: Msg, outcome: StoreOutcome)
    | Fails(m: Msg)
    | Wakes(m: Msg)
    | WritesOff(m: Msg)
    | AppendIsOver(m: Msg)
    | Concludes(m: Msg)
    | FileWorks(ok: bool)
    | PassBegins
    | Judges(verdict: Verdict)
    | LineAnswered(outcome: StoreOutcome)
    | LineProbes(written: bool)
    | LinesEnd
    | RecoverContinues(i: nat, stored: bool)
    | ResumeIsOver(failed: bool)
    | PersistContinues(i: nat)
    | StartContinues(i: nat)
    | HeldTimerGoesOff
    | ProbeGoesOut
    | ProbeIsAnswered(written: bool)
    | DrainBegins
    | DrainSnapshots
    | DrainWrites(m: Msg, accepted: bool)
    | DrainReturns
    | Retains(keys: set<(Account, nat)>)
    | Crashes

  predicate AtStage(s: State, m: Msg) {
    m < |s.stage| && |s.stage| == |s.arrivals|
  }

  predicate RunningLine(s: State) {
    s.passes != [] && s.passes[0].work.Running? && |s.passes[0].work.outcomes| < |s.passes[0].work.lines| &&
    s.passes[0].work.lines[|s.passes[0].work.outcomes|] < |s.arrivals|
  }

  predicate FileOpReady(s: State) {
    && s.fileTurn != []
    && (s.fileTurn[0].Append? ==> s.fileTurn[0].m < |s.stage|)
    && (s.fileTurn[0].Read? ==> s.passes != [] && s.passes[0].work.Reading?)
    && (s.fileTurn[0].Reject? ==> ReadyToReject(s.passes))
    && (s.fileTurn[0].Keep? ==> ReadyToKeep(s.passes, s.file))
  }

  predicate Enabled(s: State, e: Event) {
    match e
    case Handles(envelope) => !s.starting && envelope.id == |s.arrivals|
    case Starts(m) => AtStage(s, m) && s.stage[m] == Queued && ItsTurn(s, m)
    case EnrichEnds(m, _) => AtStage(s, m) && s.stage[m] == Enriching
    case ResolveEnds(m) => AtStage(s, m) && s.stage[m] == Resolving
    case StoreAnswers(m, _) => AtStage(s, m) && s.stage[m].Attempting?
    case Fails(m) => AtStage(s, m) && s.stage[m].Failed?
    case Wakes(m) => AtStage(s, m) && s.stage[m].Waiting?
    case WritesOff(m) => AtStage(s, m) && s.stage[m] == Refusing
    case AppendIsOver(m) => AtStage(s, m) && s.stage[m] == Appended
    case Concludes(m) => AtStage(s, m) && (s.stage[m].Answered? || s.stage[m] == WrittenOff)
    case FileWorks(_) => FileOpReady(s)
    case PassBegins => s.passes != [] && s.passes[0].work.Turn?
    case Judges(_) => RunningLine(s) && s.passes[0].work.line == Next
    case LineAnswered(_) => RunningLine(s) && s.passes[0].work.line == Inserting
    case LineProbes(_) => RunningLine(s) && s.passes[0].work.line == ProbingLine
    case LinesEnd => s.passes != [] && s.passes[0].work.Running? &&
                     |s.passes[0].work.outcomes| == |s.passes[0].work.lines|
    case RecoverContinues(i, _) => i < |s.ended| && s.ended[i].caller.Recover?
    case ResumeIsOver(_) => s.resuming > 0
    case PersistContinues(i) => i < |s.ended| && s.ended[i].caller.Persist? && AtStage(s, s.ended[i].caller.m)
    case StartContinues(i) => i < |s.ended| && s.ended[i].caller.AtStart?
    // A recovery whose pass is over goes on before any timer does.
    case HeldTimerGoesOff => s.heldTimer && forall i :: 0 <= i < |s.ended| ==> !s.ended[i].caller.Recover?
    case ProbeGoesOut => s.guard.probe == Pending
    case ProbeIsAnswered(_) => s.guard.probe == InFlight
    case DrainBegins => s.drain == NotDraining
    case DrainSnapshots => s.drain == DrainWaiting
    case DrainWrites(m, _) => s.drain.DrainWriting? && s.busy == None && m in s.left && m < |s.stage| &&
                              forall other :: other in s.left ==> m <= other
    case DrainReturns => s.drain.DrainWriting? && s.left == {}
    case Retains(_) => true
    case Crashes => true
  }

  ghost function Step(s: State, e: Event): State
    requires Enabled(s, e)
  {
    match e
    case Handles(envelope) => Handle(s, envelope)
    case Starts(m) => Start(s, m)
    case EnrichEnds(m, accepted) => Enriched(s, m, accepted)
    case ResolveEnds(m) => Attempt(s, m, 0)
    case StoreAnswers(m, outcome) => Answer(s, m, outcome)
    case Fails(m) => AttemptFailed(s, m)
    case Wakes(m) => Attempt(s, m, s.stage[m].attempt)
    case WritesOff(m) => WriteOff(s, m)
    case AppendIsOver(m) => AppendEnds(s, m)
    case Concludes(m) => Conclude(s, m)
    case FileWorks(ok) => FileStep(s, ok)
    case PassBegins => BeginPass(s)
    case Judges(verdict) => Judge(s, verdict)
    case LineAnswered(outcome) => LineAnswer(s, outcome)
    case LineProbes(written) => LineProbed(s, written)
    case LinesEnd => EndLines(s)
    case RecoverContinues(i, stored) => RecoverGoesOn(s, i, stored)
    case ResumeIsOver(failed) => ResumeEnds(s, failed)
    case PersistContinues(i) => PersistGoesOn(s, i)
    case StartContinues(i) => StartGoesOn(s, i)
    case HeldTimerGoesOff => HeldTimerFires(s)
    case ProbeGoesOut => ProbeFires(s)
    case ProbeIsAnswered(written) => ProbeAnswers(s, written)
    case DrainBegins => DrainStarts(s)
    case DrainSnapshots => DrainTakes(s)
    case DrainWrites(m, accepted) => DrainNext(s, m, accepted)
    case DrainReturns => DrainEnds(s)
    case Retains(keys) => Retention(s, keys)
    case Crashes => Crash(s)
  }

  /** The events can happen one after the other. */
  ghost predicate IsRun(s: State, events: seq<Event>)
    decreases |events|
  {
    events == [] || (Enabled(s, events[0]) && IsRun(Step(s, events[0]), events[1..]))
  }

  ghost function After(s: State, events: seq<Event>): State
    requires IsRun(s, events)
    decreases |events|
  {
    if events == [] then s else After(Step(s, events[0]), events[1..])
  }
}

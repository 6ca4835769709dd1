/**
 What every reachable state of the inbound protocol satisfies, in groups that each read only the parts of the
 state they speak of.
 */
module ProtocolInvariants {
  import opened Options
  import opened MessageStore
  import opened MessageLedger
  import opened StoreGuard
  import opened InboundProtocol

  // ── Queues ───────────────────────────────────────────────────────

  /** Ids are positions, and a message only starts once everything before it in its account is over. */
  ghost predicate Fifo(arrivals: seq<Envelope>, stage: seq<Stage>) {
    && |stage| == |arrivals|
    && (forall m :: 0 <= m < |arrivals| ==> arrivals[m].id == m)
    && (forall m, l :: 0 <= m < l < |stage| && SameAccount(arrivals, m, l) && stage[l] != Queued ==> stage[m] == Done)
  }

  /** Never offered to the log yet. */
  predicate Untried(stage: Stage) {
    stage == Queued || stage == Enriching || stage == Resolving || stage == Attempting(0)
  }

  /** In the attempt loop. */
  predicate InLoop(stage: Stage) {
    stage.Attempting? || stage.Answered? || stage.Failed? || stage.Waiting?
  }

  /** Its write-off is over. */
  predicate Late(stage: Stage) {
    stage == Appended || stage == Replaying || stage == WrittenOff || stage == Done
  }

  predicate InLog(arrivals: seq<Envelope>, handed: map<Account, seq<Id>>, m: Msg) {
    m < |arrivals| && m in HandedTo(handed, arrivals[m].account)
  }

  ghost predicate AttemptsBounded(stage: seq<Stage>, retries: nat) {
    forall m :: 0 <= m < |stage| ==>
      (stage[m].Attempting? ==> stage[m].attempt <= retries) &&
      (stage[m].Failed? ==> stage[m].attempt <= retries) &&
      (stage[m].Waiting? ==> 0 < stage[m].attempt <= retries)
  }

  /** Whatever is unsaved still has its turn to come. */
  ghost predicate UnsavedAreLive(stage: seq<Stage>, unsaved: set<Msg>) {
    forall m :: m in unsaved ==> m < |stage| && stage[m] != Done
  }

  // ── The file's turn and the passes' turn ─────────────────────────

  predicate OpMatches(stage: seq<Stage>, passes: seq<Pass>, busy: Option<Msg>, op: FileOp) {
    match op
    case Append(m) => m < |stage| && stage[m] == WritingOff
    case AppendLeft(m) => busy == Some(m)
    case Read => passes != [] && passes[0].work.Reading?
    case Reject => passes != [] && passes[0].work.Rejecting?
    case Keep => passes != [] && passes[0].work.Keeping?
  }

  ghost predicate OpsMatch(stage: seq<Stage>, fileTurn: seq<FileOp>, passes: seq<Pass>, busy: Option<Msg>) {
    && (forall op :: op in fileTurn ==> OpMatches(stage, passes, busy, op))
    && (forall i, j :: 0 <= i < j < |fileTurn| ==> fileTurn[i] != fileTurn[j])
  }

  ghost predicate OnePassAtATime(passes: seq<Pass>) {
    forall i :: 0 < i < |passes| ==> passes[i].work.Turn?
  }

  predicate IsAppend(op: FileOp) { op.Append? || op.AppendLeft? }

  ghost predicate NoAppends(fileTurn: seq<FileOp>) {
    forall op :: op in fileTurn ==> !IsAppend(op)
  }

  // ── A pass ───────────────────────────────────────────────────────

  /** In every account what stays is a suffix: nothing overtakes an entry that waits. */
  ghost predicate KeptIsSuffix(arrivals: seq<Envelope>, lines: seq<Msg>, outcomes: seq<Outcome>) {
    forall j, i | 0 <= j < i < |outcomes| && i < |lines| && SameAccount(arrivals, lines[j], lines[i]) && outcomes[j] == Kept ::
      outcomes[i] == Kept
  }

  /** A pass works on a prefix of the file, in order. */
  ghost predicate PassShape(arrivals: seq<Envelope>, file: seq<Msg>, passes: seq<Pass>) {
    Processing(passes) ==>
      var w := passes[0].work;
      && |w.outcomes| <= |w.lines| <= |file|
      && file[..|w.lines|] == w.lines
      && (!w.Running? ==> |w.outcomes| == |w.lines|)
      && KeptIsSuffix(arrivals, w.lines, w.outcomes)
      && (w.Running? && w.line != Next ==>
            |w.outcomes| < |w.lines| && !HeldBack(arrivals, w.lines, w.outcomes, w.lines[|w.outcomes|]))
  }

  /** An entry in the hands of the log is one whose message finished its write-off. */
  ghost predicate LineIsLate(stage: seq<Stage>, passes: seq<Pass>) {
    Processing(passes) && passes[0].work.Running? && passes[0].work.line == Inserting ==>
      var w := passes[0].work;
      |w.outcomes| < |w.lines| && w.lines[|w.outcomes|] < |stage| && Late(stage[w.lines[|w.outcomes|]])
  }

  /** Where what leaves the failed log is. */
  ghost predicate OutcomesHold(arrivals: seq<Envelope>, handed: map<Account, seq<Id>>, fates: Fates, passes: seq<Pass>) {
    Processing(passes) ==>
      var w := passes[0].work;
      forall j :: 0 <= j < |w.outcomes| && j < |w.lines| ==>
        && (w.outcomes[j] == Left ==>
              InLog(arrivals, handed, w.lines[j]) || w.lines[j] in fates.discarded || w.lines[j] in fates.repeated)
        && (w.Keeping? && w.outcomes[j] == Rejected ==> w.lines[j] in fates.rejects)
  }

  // ── The failed log ───────────────────────────────────────────────

  ghost predicate FileKnown(arrivals: seq<Envelope>, file: seq<Msg>) {
    forall e :: e in file ==> e < |arrivals|
  }

  ghost predicate FileLate(stage: seq<Stage>, file: seq<Msg>) {
    forall e :: e in file ==> e < |stage| && Late(stage[e])
  }

  /** In order, but for what an earlier process left in disorder, which comes first. */
  ghost predicate Sorted(arrivals: seq<Envelope>, since: map<Account, nat>, file: seq<Msg>) {
    forall i, j | 0 <= i < j < |file| && SameAccount(arrivals, file[i], file[j]) && SinceOf(since, arrivals[file[i]].account) <= file[i] ::
      file[i] < file[j]
  }

  // ── The log ──────────────────────────────────────────────────────

  ghost predicate HandedKnown(arrivals: seq<Envelope>, handed: map<Account, seq<Id>>) {
    forall a, id {:trigger id in HandedTo(handed, a)} :: id in HandedTo(handed, a) ==> id < |arrivals| && arrivals[id].account == a
  }

  /** Only what retention removed too early has two numbers. */
  ghost predicate HandedOnce(handed: map<Account, seq<Id>>, forgotten: set<Msg>) {
    forall a, i, j :: 0 <= i < j < |HandedTo(handed, a)| && HandedTo(handed, a)[i] == HandedTo(handed, a)[j] ==>
      HandedTo(handed, a)[i] in forgotten
  }

  ghost predicate LoggedWereTried(arrivals: seq<Envelope>, stage: seq<Stage>, handed: map<Account, seq<Id>>) {
    forall m :: 0 <= m < |stage| && InLog(arrivals, handed, m) ==> !Untried(stage[m])
  }

  /** What may still be offered to the log has its row there, if it was ever stored, unless retention removed it. */
  ghost predicate RowsStay(arrivals: seq<Envelope>, stage: seq<Stage>, file: seq<Msg>, left: set<Msg>, l: Ledger, forgotten: set<Msg>) {
    forall m :: 0 <= m < |stage| && InLog(arrivals, l.handed, m) && (stage[m] != Done || m in file || m in left) ==>
      m in forgotten || HasRow(l.store.rows, m)
  }

  // ── Order ────────────────────────────────────────────────────────

  /** The entry at `i` is on its way out of the failed log. */
  predicate Leaving(outcomes: seq<Outcome>, i: nat) {
    i < |outcomes| && outcomes[i] != Kept
  }

  /** May still get a number. */
  ghost predicate Candidate(stage: seq<Stage>, file: seq<Msg>, outcomes: seq<Outcome>, m: Msg) {
    (m < |stage| && stage[m] != Done) || exists i :: 0 <= i < |file| && file[i] == m && !Leaving(outcomes, i)
  }

  /** Nothing that may still get a number came before anything that has one, as far as order counts. */
  ghost predicate NoOvertaking(arrivals: seq<Envelope>, stage: seq<Stage>, file: seq<Msg>, outcomes: seq<Outcome>,
                               l: Ledger, past: Past) {
    forall m, k | 0 <= m < |arrivals| && arrivals[m].account !in past.dirty && Candidate(stage, file, outcomes, m) &&
                  !HasRow(l.store.rows, m) && k in HandedTo(l.handed, arrivals[m].account) &&
                  SinceOf(past.since, arrivals[m].account) <= k ::
      k < m
  }

  ghost predicate InOrder(handed: seq<Id>, since: nat) {
    forall i, j :: 0 <= i < j < |handed| && since <= handed[i] ==> handed[i] < handed[j]
  }

  ghost predicate LogInOrder(handed: map<Account, seq<Id>>, past: Past) {
    forall a :: a !in past.dirty ==> InOrder(HandedTo(handed, a), SinceOf(past.since, a))
  }

  /** While a message is in the attempt loop, nothing of its account is in the failed log. */
  ghost predicate LoopIsAlone(arrivals: seq<Envelope>, stage: seq<Stage>, file: seq<Msg>, dirty: set<Account>) {
    forall m, e :: 0 <= m < |stage| && InLoop(stage[m]) && e in file && SameAccount(arrivals, e, m) ==>
      arrivals[m].account in dirty
  }

  /** With the log taking messages directly, all the failed log holds of an account is the message it is waiting for. */
  ghost predicate ClosedIsClear(arrivals: seq<Envelope>, stage: seq<Stage>, file: seq<Msg>, dirty: set<Account>) {
    forall e :: e in file && e < |arrivals| && e < |stage| && arrivals[e].account !in dirty ==>
      stage[e] == Appended || stage[e] == Replaying
  }

  /** What a finished pass leaves to its caller while the circuit is closed. */
  ghost predicate EndedIsClear(arrivals: seq<Envelope>, file: seq<Msg>, ended: seq<Ended>, dirty: set<Account>) {
    && (forall i | 0 <= i < |ended| && ended[i].caller.Persist? && ended[i].caller.m in file && ended[i].caller.m < |arrivals| ::
          arrivals[ended[i].caller.m].account in dirty)
    && (forall i, e | 0 <= i < |ended| && ended[i].caller.AtStart? && e in file && e < |arrivals| ::
          arrivals[e].account in dirty)
  }

  // ── Who waits for a pass ─────────────────────────────────────────

  predicate CallerHolds(stage: seq<Stage>, starting: bool, writeOffs: nat, caller: Caller) {
    match caller
    case AtStart => starting
    case Recover(startedAt) => startedAt <= writeOffs
    case Persist(m) => m < |stage| && stage[m] == Replaying
    case Timer => true
  }

  ghost predicate CallersHold(stage: seq<Stage>, starting: bool, writeOffs: nat, passes: seq<Pass>, ended: seq<Ended>) {
    && (forall i :: 0 <= i < |passes| ==> CallerHolds(stage, starting, writeOffs, passes[i].caller))
    && (forall i :: 0 <= i < |ended| ==> CallerHolds(stage, starting, writeOffs, ended[i].caller))
  }

  predicate SameCaller(c: Caller, d: Caller) {
    (c.Persist? || c.AtStart?) && c == d
  }

  /** A message waits for one pass only, and so does a start. */
  ghost predicate WaitsOnce(passes: seq<Pass>, ended: seq<Ended>) {
    && (forall i, j :: 0 <= i < j < |passes| ==> !SameCaller(passes[i].caller, passes[j].caller))
    && (forall i, j :: 0 <= i < j < |ended| ==> !SameCaller(ended[i].caller, ended[j].caller))
    && (forall i, j :: 0 <= i < |passes| && 0 <= j < |ended| ==> !SameCaller(passes[i].caller, ended[j].caller))
  }

  /** While starting nothing is live, and the only append that could run is none. */
  ghost predicate StartIsQuiet(stage: seq<Stage>, unsaved: set<Msg>, left: set<Msg>, busy: Option<Msg>, starting: bool) {
    starting ==> (forall m :: 0 <= m < |stage| ==> stage[m] == Done) && unsaved == {} && left == {} && busy == None
  }

  /** Which entries a pass may have missed: not its own message's, and none at a start. */
  ghost predicate PassReadItsOwn(file: seq<Msg>, passes: seq<Pass>) {
    Processing(passes) ==>
      var w := passes[0].work;
      |w.lines| <= |file| &&
      (passes[0].caller.Persist? ==> passes[0].caller.m !in file[|w.lines|..]) &&
      (passes[0].caller.AtStart? ==> |w.lines| == |file|)
  }

  /** Every append asked for comes before the read. */
  ghost predicate AppendsBeforeRead(fileTurn: seq<FileOp>) {
    forall i, j :: 0 <= i < j < |fileTurn| && fileTurn[i] == Read ==> !IsAppend(fileTurn[j])
  }

  /** A recovery before and during whose pass no write-off was counted has seen all there is. */
  ghost predicate RecoverySawAll(writeOffs: nat, file: seq<Msg>, fileTurn: seq<FileOp>, passes: seq<Pass>, ended: seq<Ended>) {
    && (passes != [] && passes[0].caller == Recover(writeOffs) ==>
          && (passes[0].work.Reading? ==> AppendsBeforeRead(fileTurn))
          && (Processing(passes) ==> NoAppends(fileTurn) && |passes[0].work.lines| == |file|))
    && (forall i :: 0 <= i < |ended| && ended[i].caller == Recover(writeOffs) && !ended[i].failed ==>
          NoAppends(fileTurn) && forall e :: e in file ==> e in ended[i].kept)
  }

  /** Recovering means a recovery is under way. */
  ghost predicate RecoveryRuns(g: Guard, passes: seq<Pass>, ended: seq<Ended>) {
    IsRecovering(g) ==>
      (exists i :: 0 <= i < |passes| && passes[i].caller.Recover?) || (exists i :: 0 <= i < |ended| && ended[i].caller.Recover?)
  }

  // ── Nothing is lost ──────────────────────────────────────────────

  /** It is on disk, or what became of it was decided. */
  predicate Safe(arrivals: seq<Envelope>, handed: map<Account, seq<Id>>, file: seq<Msg>, fates: Fates, m: Msg) {
    InLog(arrivals, handed, m) || m in file || m in fates.rejects || m in fates.filtered || m in fates.discarded ||
    m in fates.duplicates || m in fates.repeated || m in fates.lost
  }

  ghost predicate NothingLost(arrivals: seq<Envelope>, unsaved: set<Msg>, left: set<Msg>,
                              handed: map<Account, seq<Id>>, file: seq<Msg>, fates: Fates) {
    forall m :: 0 <= m < |arrivals| ==>
      m in unsaved || m in left || m in fates.died || Safe(arrivals, handed, file, fates, m)
  }

  /** Once its write-off is over a message no longer depends on being remembered as unsaved. */
  ghost predicate WrittenOffAreSafe(arrivals: seq<Envelope>, stage: seq<Stage>, left: set<Msg>,
                                    handed: map<Account, seq<Id>>, file: seq<Msg>, fates: Fates) {
    forall m :: 0 <= m < |stage| && (stage[m] == Appended || stage[m] == Replaying || stage[m] == WrittenOff) ==>
      m in left || m in fates.died || Safe(arrivals, handed, file, fates, m)
  }

  /** What `drain` answers for, and what died with an earlier process. */
  ghost predicate DrainAnswers(n: nat, unsaved: set<Msg>, left: set<Msg>, busy: Option<Msg>, fates: Fates, drain: Drain, runStart: nat) {
    && (forall m :: m in unsaved || m in left ==> runStart <= m < n)
    && (forall m :: m in fates.died ==> m < runStart)
    && runStart <= n
    && (busy.Some? ==> busy.value in left)
    && (drain.NotDraining? || drain.DrainWaiting? ==> left == {})
    && (drain.DrainWriting? || drain.Drained? ==> drain.snapshot <= n && forall m :: m in unsaved ==> drain.snapshot <= m)
    && (drain.Drained? ==> left == {})
  }

  predicate DrainStops(g: Guard, drain: Drain) {
    g.stopped <==> !drain.NotDraining?
  }

  // ── What is emitted ──────────────────────────────────────────────

  /** In order of arrival, each once, and only when its turn is over. */
  ghost predicate EmittedInOrder(arrivals: seq<Envelope>, stage: seq<Stage>, emitted: seq<Emission>) {
    && (forall i :: 0 <= i < |emitted| ==> emitted[i].m < |stage| && stage[emitted[i].m] == Done)
    && (forall i, j :: 0 <= i < j < |emitted| && SameAccount(arrivals, emitted[i].m, emitted[j].m) ==>
          emitted[i].m < emitted[j].m)
  }

  predicate Numbered(arrivals: seq<Envelope>, handed: map<Account, seq<Id>>, m: Msg, number: nat) {
    m < |arrivals| && 1 <= number <= |HandedTo(handed, arrivals[m].account)| &&
    HandedTo(handed, arrivals[m].account)[number - 1] == m
  }

  /** A number is only ever emitted with the message the log has under it. */
  ghost predicate EmittedAreLogged(arrivals: seq<Envelope>, handed: map<Account, seq<Id>>, emitted: seq<Emission>) {
    forall i :: 0 <= i < |emitted| && emitted[i].number.Some? ==>
      Numbered(arrivals, handed, emitted[i].m, emitted[i].number.value)
  }

  ghost predicate NumbersIncrease(arrivals: seq<Envelope>, emitted: seq<Emission>) {
    forall i, j | 0 <= i < j < |emitted| && SameAccount(arrivals, emitted[i].m, emitted[j].m) &&
                  emitted[i].number.Some? && emitted[j].number.Some? ::
      emitted[i].number.value < emitted[j].number.value
  }

  /** Whatever a message still in its queue has in the log comes after everything its account emitted. */
  ghost predicate UnfinishedAreAhead(arrivals: seq<Envelope>, stage: seq<Stage>, handed: map<Account, seq<Id>>,
                                     emitted: seq<Emission>) {
    forall i, m, number | 0 <= i < |emitted| && emitted[i].number.Some? && 0 <= m < |stage| && stage[m] != Done &&
                          SameAccount(arrivals, emitted[i].m, m) && Numbered(arrivals, handed, m, number) ::
      emitted[i].number.value < number
  }

  ghost predicate AnswersAreTrue(arrivals: seq<Envelope>, stage: seq<Stage>, handed: map<Account, seq<Id>>) {
    forall m :: 0 <= m < |stage| && stage[m].Answered? ==>
      !stage[m].result.Refused? &&
      (stage[m].result.Inserted? ==> Numbered(arrivals, handed, m, stage[m].result.accountSeq)) &&
      (stage[m].result.Duplicate? ==> stage[m].result.storedId != m)
  }

  /** A message found to be a duplicate when its turn came is never emitted. */
  ghost predicate DuplicatesAreSilent(stage: seq<Stage>, duplicates: set<Msg>, emitted: seq<Emission>) {
    && (forall m :: m in duplicates ==> m < |stage| && stage[m] == Done)
    && (forall i :: 0 <= i < |emitted| ==> emitted[i].m !in duplicates)
  }

  // ── All of it ────────────────────────────────────────────────────

  ghost predicate QueueInv(s: State) {
    && Fifo(s.arrivals, s.stage)
    && AttemptsBounded(s.stage, s.retries)
    && UnsavedAreLive(s.stage, s.unsaved)
    && Probing(s.guard)
    && DrainStops(s.guard, s.drain)
  }

  ghost predicate PassInv(s: State) {
    && OpsMatch(s.stage, s.fileTurn, s.passes, s.busy)
    && OnePassAtATime(s.passes)
    && PassShape(s.arrivals, s.file, s.passes)
    && CallersHold(s.stage, s.starting, s.writeOffs, s.passes, s.ended)
    && WaitsOnce(s.passes, s.ended)
    && StartIsQuiet(s.stage, s.unsaved, s.left, s.busy, s.starting)
    && RecoveryRuns(s.guard, s.passes, s.ended)
  }

  ghost predicate LogInv(s: State) {
    && Valid(s.ledger)
    && HandedKnown(s.arrivals, s.ledger.handed)
    && HandedOnce(s.ledger.handed, s.past.forgotten)
    && LoggedWereTried(s.arrivals, s.stage, s.ledger.handed)
    && RowsStay(s.arrivals, s.stage, s.file, s.left, s.ledger, s.past.forgotten)
    && FileKnown(s.arrivals, s.file)
    && LineIsLate(s.stage, s.passes)
    && (!s.guard.stopped ==> FileLate(s.stage, s.file))
  }

  ghost predicate SafetyInv(s: State) {
    && OutcomesHold(s.arrivals, s.ledger.handed, s.fates, s.passes)
    && NothingLost(s.arrivals, s.unsaved, s.left, s.ledger.handed, s.file, s.fates)
    && WrittenOffAreSafe(s.arrivals, s.stage, s.left, s.ledger.handed, s.file, s.fates)
    && DrainAnswers(|s.arrivals|, s.unsaved, s.left, s.busy, s.fates, s.drain, s.runStart)
  }

  ghost predicate EmissionInv(s: State) {
    && EmittedInOrder(s.arrivals, s.stage, s.emitted)
    && EmittedAreLogged(s.arrivals, s.ledger.handed, s.emitted)
    && NumbersIncrease(s.arrivals, s.emitted)
    && UnfinishedAreAhead(s.arrivals, s.stage, s.ledger.handed, s.emitted)
    && AnswersAreTrue(s.arrivals, s.stage, s.ledger.handed)
    && DuplicatesAreSilent(s.stage, s.fates.duplicates, s.emitted)
  }

  ghost predicate OrderInv(s: State) {
    && Sorted(s.arrivals, s.past.since, s.file)
    && NoOvertaking(s.arrivals, s.stage, s.file, OutcomesOf(s.passes), s.ledger, s.past)
    && LogInOrder(s.ledger.handed, s.past)
    && LoopIsAlone(s.arrivals, s.stage, s.file, s.past.dirty)
    && PassReadItsOwn(s.file, s.passes)
    && RecoverySawAll(s.writeOffs, s.file, s.fileTurn, s.passes, s.ended)
    && (s.guard.phase == Closed && !s.starting ==> ClosedIsClear(s.arrivals, s.stage, s.file, s.past.dirty))
    && (s.guard.phase == Closed ==> EndedIsClear(s.arrivals, s.file, s.ended, s.past.dirty))
  }

  ghost predicate Inv(s: State) {
    QueueInv(s) && PassInv(s) && LogInv(s) && SafetyInv(s) && EmissionInv(s) && (!s.guard.stopped ==> OrderInv(s))
  }
}

/**
 Downloading the media of inbound messages: one worker per media, so many downloads at once, retries that hold no
 slot while they wait, and an outcome that is recorded on the message. A step is what runs between two `await`s.
 */
module MediaService {
  import opened Options
  import opened MessagePaging

  type Media = nat
  type Worker = nat

  datatype Status = Pending | Ready | Skipped

  /**
   * Where a worker is. `Looking` and `Skipping` are recording that the media was not stored, within an attempt, whose
   * failure they still are if `propagate`, or before any.
   */
  datatype Stage =
    | InLine(attempt: nat)
    | Downloading(attempt: nat)
    | Writing(attempt: nat)
    | Recording(attempt: nat)
    | Looking(during: Option<nat>, propagate: bool)
    | Skipping(during: Option<nat>, propagate: bool)
    | Sleeping(attempt: nat)

  datatype Job = Job(media: Media, stage: Stage)

  /** The slots taken, and who waits for one, first come first served. */
  datatype Slots = Slots(active: nat, waiting: seq<Worker>)

  datatype State = State(slots: Slots, inFlight: set<Media>, jobs: map<Worker, Job>, nextWorker: Worker,
                         media: map<Media, Status>, concurrency: nat, retries: nat)

  // ── Slots ────────────────────────────────────────────────────────

  function Acquired(slots: Slots, concurrency: nat, worker: Worker): (Slots, bool) {
    if slots.active < concurrency then (slots.(active := slots.active + 1), true)
    else (slots.(waiting := slots.waiting + [worker]), false)
  }

  /** Whoever waits longest has the slot next. */
  function Released(slots: Slots): (Slots, Option<Worker>) {
    if slots.waiting != [] then (slots.(waiting := slots.waiting[1..]), Some(slots.waiting[0]))
    else if slots.active > 0 then (slots.(active := slots.active - 1), None)
    else (slots, None)
  }

  class Semaphore {
    const concurrency: nat
    var active: nat
    var waiting: seq<Worker>

    ghost function View(): Slots
      reads this
    {
      Slots(active, waiting)
    }

    constructor (concurrency: nat)
      ensures this.concurrency == concurrency && View() == Slots(0, [])
    {
      this.concurrency, active, waiting := concurrency, 0, [];
    }

    method Acquire(worker: Worker) returns (granted: bool)
      modifies this
      ensures (View(), granted) == Acquired(old(View()), concurrency, worker)
    {
      granted := active < concurrency;
      if granted {
        active := active + 1;
      } else {
        waiting := waiting + [worker];
      }
    }

    method Release() returns (next: Option<Worker>)
      requires active > 0
      modifies this
      ensures (View(), next) == Released(old(View()))
    {
      if waiting != [] {
        next, waiting := Some(waiting[0]), waiting[1..];
      } else {
        next, active := None, active - 1;
      }
    }
  }

  // ── Steps ────────────────────────────────────────────────────────

  predicate HoldsSlot(stage: Stage) {
    stage.Downloading? || stage.Writing? || stage.Recording? ||
    (stage.Looking? && stage.during.Some?) || (stage.Skipping? && stage.during.Some?)
  }

  function Move(s: State, w: Worker, stage: Stage): State
    requires w in s.jobs
  {
    s.(jobs := s.jobs[w := s.jobs[w].(stage := stage)])
  }

  function TakeSlot(s: State, w: Worker, attempt: nat): State
    requires w in s.jobs
  {
    var (slots, granted) := Acquired(s.slots, s.concurrency, w);
    Move(s.(slots := slots), w, if granted then Downloading(attempt) else InLine(attempt))
  }

  function GiveSlot(s: State): State {
    var (slots, next) := Released(s.slots);
    var t := s.(slots := slots);
    if next.Some? && next.value in s.jobs && s.jobs[next.value].stage.InLine?
    then Move(t, next.value, Downloading(s.jobs[next.value].stage.attempt)) else t
  }

  /** `run`: nothing to do for a media someone is working on. */
  function Run(s: State, media: Media, restorable: bool): State {
    if media in s.inFlight then s
    else
      var w := s.nextWorker;
      var t := s.(inFlight := s.inFlight + {media}, nextWorker := w + 1,
                  jobs := s.jobs[w := Job(media, if restorable then Sleeping(0) else Looking(None, false))]);
      if restorable then TakeSlot(t, w, 0) else t
  }

  /** Whatever it held is released, and the media is free for another worker. */
  function Finish(s: State, w: Worker): State
    requires w in s.jobs
  {
    var t := s.(inFlight := s.inFlight - {s.jobs[w].media}, jobs := s.jobs - {w});
    if HoldsSlot(s.jobs[w].stage) then GiveSlot(t) else t
  }

  /** Another attempt later, holding nothing meanwhile; or, out of attempts, the failure is recorded. */
  function AttemptFails(s: State, w: Worker, attempt: nat): State
    requires w in s.jobs
  {
    if attempt < s.retries then GiveSlot(Move(s, w, Sleeping(attempt + 1)))
    else Move(s, w, Looking(Some(attempt), false))
  }

  datatype Download = Data | TooLarge | Nothing | DownloadError

  /** A write to the log: done and answered, done with its answer lost, or not done. */
  datatype Write = Answered | Unanswered | NotDone

  function WithStatus(media: map<Media, Status>, m: Media, status: Status, write: Write): map<Media, Status> {
    if write != NotDone && m in media then media[m := status] else media
  }

  function Downloaded(s: State, w: Worker, result: Download): State
    requires w in s.jobs && s.jobs[w].stage.Downloading?
  {
    var attempt := s.jobs[w].stage.attempt;
    match result
    case Data => Move(s, w, Writing(attempt))
    case TooLarge => Move(s, w, Looking(Some(attempt), true))
    case Nothing => Move(s, w, Looking(Some(attempt), true))
    case DownloadError => AttemptFails(s, w, attempt)
  }

  function Recorded(s: State, w: Worker, write: Write): State
    requires w in s.jobs && s.jobs[w].stage.Recording?
  {
    var t := s.(media := WithStatus(s.media, s.jobs[w].media, Ready, write));
    if write == Answered then Finish(t, w) else AttemptFails(t, w, s.jobs[w].stage.attempt)
  }

  /** Unless it is stored already, whoever did it. */
  function Looked(s: State, w: Worker, ok: bool): State
    requires w in s.jobs && s.jobs[w].stage.Looking?
  {
    var stage := s.jobs[w].stage;
    if !ok then GiveUp(s, w, stage.during, stage.propagate)
    else if s.jobs[w].media in s.media && s.media[s.jobs[w].media] == Ready then Finish(s, w)
    else Move(s, w, Skipping(stage.during, stage.propagate))
  }

  function GiveUp(s: State, w: Worker, during: Option<nat>, propagate: bool): State
    requires w in s.jobs
  {
    if propagate && during.Some? then AttemptFails(s, w, during.value) else Finish(s, w)
  }

  function SkipRecorded(s: State, w: Worker, write: Write): State
    requires w in s.jobs && s.jobs[w].stage.Skipping?
  {
    var t := s.(media := WithStatus(s.media, s.jobs[w].media, Skipped, write));
    if write == Answered then Finish(t, w) else GiveUp(t, w, s.jobs[w].stage.during, s.jobs[w].stage.propagate)
  }

  datatype Event =
    | Arrives(m: Media)
    | Runs(m: Media, restorable: bool)
    | Downloads(w: Worker, result: Download)
    | Writes(w: Worker, ok: bool)
    | Records(w: Worker, write: Write)
    | Looks(w: Worker, ok: bool)
    | Skips(w: Worker, write: Write)
    | Wakes(w: Worker)

  predicate Enabled(s: State, e: Event) {
    match e
    case Arrives(m) => m !in s.media
    case Runs(_, _) => true
    case Downloads(w, _) => w in s.jobs && s.jobs[w].stage.Downloading?
    case Writes(w, _) => w in s.jobs && s.jobs[w].stage.Writing?
    case Records(w, _) => w in s.jobs && s.jobs[w].stage.Recording?
    case Looks(w, _) => w in s.jobs && s.jobs[w].stage.Looking?
    case Skips(w, _) => w in s.jobs && s.jobs[w].stage.Skipping?
    case Wakes(w) => w in s.jobs && s.jobs[w].stage.Sleeping?
  }

  function Next(s: State, e: Event): State
    requires Enabled(s, e)
  {
    match e
    case Arrives(m) => s.(media := s.media[m := Pending])
    case Runs(m, restorable) => Run(s, m, restorable)
    case Downloads(w, result) => Downloaded(s, w, result)
    case Writes(w, ok) =>
      if ok then Move(s, w, Recording(s.jobs[w].stage.attempt)) else AttemptFails(s, w, s.jobs[w].stage.attempt)
    case Records(w, write) => Recorded(s, w, write)
    case Looks(w, ok) => Looked(s, w, ok)
    case Skips(w, write) => SkipRecorded(s, w, write)
    case Wakes(w) => TakeSlot(s, w, s.jobs[w].stage.attempt)
  }

  predicate IsRun(s: State, events: seq<Event>)
    decreases |events|
  {
    events == [] || (Enabled(s, events[0]) && IsRun(Next(s, events[0]), events[1..]))
  }

  function After(s: State, events: seq<Event>): State
    requires IsRun(s, events)
    decreases |events|
  {
    if events == [] then s else After(Next(s, events[0]), events[1..])
  }

  function Init(concurrency: nat, retries: nat): State {
    State(Slots(0, []), {}, map[], 0, map[], concurrency, retries)
  }

  // ── What stays true ──────────────────────────────────────────────

  function Holders(jobs: map<Worker, Job>): set<Worker> {
    set w | w in jobs && HoldsSlot(jobs[w].stage)
  }

  /** Slots are exactly those held, no more than there are, and nobody waits while one is free. */
  ghost predicate SlotsMatch(slots: Slots, jobs: map<Worker, Job>, concurrency: nat) {
    && slots.active == |Holders(jobs)|
    && slots.active <= concurrency
    && (slots.waiting != [] ==> slots.active == concurrency)
  }

  /** The line is exactly the workers in it, each once. */
  ghost predicate LineMatches(waiting: seq<Worker>, jobs: map<Worker, Job>) {
    && (forall w :: w in waiting <==> w in jobs && jobs[w].stage.InLine?)
    && (forall i, j :: 0 <= i < j < |waiting| ==> waiting[i] != waiting[j])
  }

  /** One worker per media in flight. */
  ghost predicate OneWorkerEach(inFlight: set<Media>, jobs: map<Worker, Job>, nextWorker: Worker) {
    && (forall w :: w in jobs ==> w < nextWorker && jobs[w].media in inFlight)
    && (forall v, w :: v in jobs && w in jobs && jobs[v].media == jobs[w].media ==> v == w)
  }

  /** Nobody is about to skip a media that is stored. */
  ghost predicate SkipsAreTrue(jobs: map<Worker, Job>, media: map<Media, Status>) {
    forall w :: w in jobs && jobs[w].stage.Skipping? && jobs[w].media in media ==> media[jobs[w].media] != Ready
  }

  ghost predicate Inv(s: State) {
    && SlotsMatch(s.slots, s.jobs, s.concurrency)
    && LineMatches(s.slots.waiting, s.jobs)
    && OneWorkerEach(s.inFlight, s.jobs, s.nextWorker)
    && SkipsAreTrue(s.jobs, s.media)
  }

  // ── Each change keeps it ─────────────────────────────────────────

  /** Everything but the slots, of which one more is taken than held. */
  ghost predicate OwesSlot(s: State) {
    && s.slots.active == |Holders(s.jobs)| + 1 && s.slots.active <= s.concurrency
    && (s.slots.waiting != [] ==> s.slots.active == s.concurrency)
    && LineMatches(s.slots.waiting, s.jobs)
    && OneWorkerEach(s.inFlight, s.jobs, s.nextWorker)
    && SkipsAreTrue(s.jobs, s.media)
  }

  lemma HoldersOf(jobs: map<Worker, Job>, w: Worker, job: Job)
    ensures Holders(jobs[w := job]) == if HoldsSlot(job.stage) then Holders(jobs) + {w} else Holders(jobs) - {w}
    ensures Holders(jobs - {w}) == Holders(jobs) - {w}
    ensures w in Holders(jobs) <==> w in jobs && HoldsSlot(jobs[w].stage)
  {
  }

  /** Between stages that hold alike, neither in line. */
  lemma MoveKeeps(s: State, w: Worker, stage: Stage)
    requires Inv(s) && w in s.jobs && !s.jobs[w].stage.InLine? && !stage.InLine?
    requires HoldsSlot(stage) == HoldsSlot(s.jobs[w].stage)
    requires stage.Skipping? && s.jobs[w].media in s.media ==> s.media[s.jobs[w].media] != Ready
    ensures Inv(Move(s, w, stage))
  {
    HoldersOf(s.jobs, w, s.jobs[w].(stage := stage));
    assert Holders(s.jobs[w := s.jobs[w].(stage := stage)]) == Holders(s.jobs);
  }

  lemma GiveSlotKeeps(s: State)
    requires OwesSlot(s)
    ensures Inv(GiveSlot(s))
  {
    hide OneWorkerEach, SkipsAreTrue;
    if s.slots.waiting != [] {
      var next := s.slots.waiting[0];
      assert next in s.slots.waiting;
      var job := s.jobs[next].(stage := Downloading(s.jobs[next].stage.attempt));
      HoldersOf(s.jobs, next, job);
      LineAdvances(s.slots.waiting, s.jobs, job);
      NextWorks(s, next, job);
      assert GiveSlot(s).jobs == s.jobs[next := job];
    }
  }

  lemma LineAdvances(waiting: seq<Worker>, jobs: map<Worker, Job>, job: Job)
    requires LineMatches(waiting, jobs) && waiting != [] && !job.stage.InLine?
    ensures LineMatches(waiting[1..], jobs[waiting[0] := job])
  {
    var rest := waiting[1..];
    forall i | 0 <= i < |rest| ensures rest[i] != waiting[0] && rest[i] in waiting {
      assert rest[i] == waiting[i + 1];
    }
    assert waiting == [waiting[0]] + rest;
  }

  lemma NextWorks(s: State, w: Worker, job: Job)
    requires OneWorkerEach(s.inFlight, s.jobs, s.nextWorker) && SkipsAreTrue(s.jobs, s.media)
    requires w in s.jobs && job.media == s.jobs[w].media && !job.stage.Skipping?
    ensures OneWorkerEach(s.inFlight, s.jobs[w := job], s.nextWorker) && SkipsAreTrue(s.jobs[w := job], s.media)
  {
  }

  lemma StopHolding(s: State, w: Worker, stage: Stage)
    requires Inv(s) && w in s.jobs && HoldsSlot(s.jobs[w].stage) && stage.Sleeping?
    ensures OwesSlot(Move(s, w, stage))
  {
    HoldersOf(s.jobs, w, s.jobs[w].(stage := stage));
    NextWorks(s, w, s.jobs[w].(stage := stage));
  }

  lemma AttemptFailsKeeps(s: State, w: Worker, attempt: nat)
    requires Inv(s) && w in s.jobs && HoldsSlot(s.jobs[w].stage)
    ensures Inv(AttemptFails(s, w, attempt))
  {
    hide Inv, OwesSlot;
    if attempt < s.retries {
      StopHolding(s, w, Sleeping(attempt + 1));
      GiveSlotKeeps(Move(s, w, Sleeping(attempt + 1)));
    } else {
      MoveKeeps(s, w, Looking(Some(attempt), false));
    }
  }

  lemma Leaves(s: State, w: Worker)
    requires Inv(s) && w in s.jobs && !s.jobs[w].stage.InLine?
    ensures var t := s.(inFlight := s.inFlight - {s.jobs[w].media}, jobs := s.jobs - {w});
      if HoldsSlot(s.jobs[w].stage) then OwesSlot(t) else Inv(t)
  {
    HoldersOf(s.jobs, w, s.jobs[w]);
    var t := s.(inFlight := s.inFlight - {s.jobs[w].media}, jobs := s.jobs - {w});
    assert !HoldsSlot(s.jobs[w].stage) ==> Holders(t.jobs) == Holders(s.jobs);
  }

  lemma FinishKeeps(s: State, w: Worker)
    requires Inv(s) && w in s.jobs && !s.jobs[w].stage.InLine?
    ensures Inv(Finish(s, w))
  {
    hide Inv, OwesSlot, GiveSlot;
    Leaves(s, w);
    if HoldsSlot(s.jobs[w].stage) {
      GiveSlotKeeps(s.(inFlight := s.inFlight - {s.jobs[w].media}, jobs := s.jobs - {w}));
    }
  }

  lemma GiveUpKeeps(s: State, w: Worker, during: Option<nat>, propagate: bool)
    requires Inv(s) && w in s.jobs && !s.jobs[w].stage.InLine? && (during.Some? ==> HoldsSlot(s.jobs[w].stage))
    ensures Inv(GiveUp(s, w, during, propagate))
  {
    hide Inv;
    if propagate && during.Some? { AttemptFailsKeeps(s, w, during.value); } else { FinishKeeps(s, w); }
  }

  lemma LineGrows(waiting: seq<Worker>, jobs: map<Worker, Job>, w: Worker, job: Job)
    requires LineMatches(waiting, jobs) && (w in jobs ==> !jobs[w].stage.InLine?)
    ensures job.stage.InLine? ==> LineMatches(waiting + [w], jobs[w := job])
    ensures !job.stage.InLine? ==> LineMatches(waiting, jobs[w := job])
  {
    assert w !in waiting;
  }

  lemma TakeSlotKeeps(s: State, w: Worker, attempt: nat)
    requires Inv(s) && w in s.jobs && s.jobs[w].stage.Sleeping?
    ensures Inv(TakeSlot(s, w, attempt))
  {
    hide OneWorkerEach, SkipsAreTrue, LineMatches, Holders;
    var granted := Acquired(s.slots, s.concurrency, w).1;
    var job := s.jobs[w].(stage := if granted then Downloading(attempt) else InLine(attempt));
    HoldersOf(s.jobs, w, job);
    NextWorks(s, w, job);
    LineGrows(s.slots.waiting, s.jobs, w, job);
    if !granted { assert Holders(s.jobs) - {w} == Holders(s.jobs); }
  }

  /** A status set by the only worker of its media, who is not about to skip it. */
  lemma StatusKeeps(s: State, w: Worker, status: Status, write: Write)
    requires Inv(s) && w in s.jobs && (s.jobs[w].stage.Recording? || (s.jobs[w].stage.Skipping? && status != Ready))
    ensures Inv(s.(media := WithStatus(s.media, s.jobs[w].media, status, write)))
  {
  }

  lemma NewWorker(s: State, job: Job)
    requires OneWorkerEach(s.inFlight, s.jobs, s.nextWorker) && SkipsAreTrue(s.jobs, s.media)
    requires job.media !in s.inFlight && !job.stage.Skipping?
    ensures s.nextWorker !in s.jobs
    ensures OneWorkerEach(s.inFlight + {job.media}, s.jobs[s.nextWorker := job], s.nextWorker + 1)
    ensures SkipsAreTrue(s.jobs[s.nextWorker := job], s.media)
  {
  }

  lemma RunKeepsInv(s: State, media: Media, restorable: bool)
    requires Inv(s)
    ensures Inv(Run(s, media, restorable))
  {
    hide OneWorkerEach, SkipsAreTrue, LineMatches, Holders, TakeSlot;
    if media !in s.inFlight {
      var w := s.nextWorker;
      var job := Job(media, if restorable then Sleeping(0) else Looking(None, false));
      var t := s.(inFlight := s.inFlight + {media}, nextWorker := w + 1, jobs := s.jobs[w := job]);
      NewWorker(s, job);
      HoldersOf(s.jobs, w, job);
      assert Holders(s.jobs) - {w} == Holders(s.jobs);
      LineGrows(s.slots.waiting, s.jobs, w, job);
      if restorable { TakeSlotKeeps(t, w, 0); }
    }
  }

  lemma NextKeeps(s: State, e: Event)
    requires Inv(s) && Enabled(s, e)
    ensures Inv(Next(s, e))
  {
    hide AttemptFails, Finish, GiveUp, TakeSlot, Run, WithStatus, Holders;
    match e
    case Arrives(m) =>
    case Runs(m, restorable) => RunKeepsInv(s, m, restorable);
    case Downloads(w, result) => DownloadedKeeps(s, w, result);
    case Writes(w, ok) =>
      if ok { MoveKeeps(s, w, Recording(s.jobs[w].stage.attempt)); } else { AttemptFailsKeeps(s, w, s.jobs[w].stage.attempt); }
    case Records(w, write) => RecordedKeeps(s, w, write);
    case Looks(w, ok) => LookedKeeps(s, w, ok);
    case Skips(w, write) => SkipRecordedKeeps(s, w, write);
    case Wakes(w) => TakeSlotKeeps(s, w, s.jobs[w].stage.attempt);
  }

  lemma DownloadedKeeps(s: State, w: Worker, result: Download)
    requires Inv(s) && w in s.jobs && s.jobs[w].stage.Downloading?
    ensures Inv(Downloaded(s, w, result))
  {
    hide Inv, AttemptFails, Move;
    var attempt := s.jobs[w].stage.attempt;
    match result
    case Data => MoveKeeps(s, w, Writing(attempt));
    case TooLarge => MoveKeeps(s, w, Looking(Some(attempt), true));
    case Nothing => MoveKeeps(s, w, Looking(Some(attempt), true));
    case DownloadError => AttemptFailsKeeps(s, w, attempt);
  }

  lemma RecordedKeeps(s: State, w: Worker, write: Write)
    requires Inv(s) && w in s.jobs && s.jobs[w].stage.Recording?
    ensures Inv(Recorded(s, w, write))
  {
    hide Inv, AttemptFails, Finish, WithStatus;
    StatusKeeps(s, w, Ready, write);
    var t := s.(media := WithStatus(s.media, s.jobs[w].media, Ready, write));
    if write == Answered { FinishKeeps(t, w); } else { AttemptFailsKeeps(t, w, s.jobs[w].stage.attempt); }
  }

  lemma LookedKeeps(s: State, w: Worker, ok: bool)
    requires Inv(s) && w in s.jobs && s.jobs[w].stage.Looking?
    ensures Inv(Looked(s, w, ok))
  {
    hide Inv, GiveUp, Finish, Move;
    var stage := s.jobs[w].stage;
    if !ok {
      GiveUpKeeps(s, w, stage.during, stage.propagate);
    } else if s.jobs[w].media in s.media && s.media[s.jobs[w].media] == Ready {
      FinishKeeps(s, w);
    } else {
      MoveKeeps(s, w, Skipping(stage.during, stage.propagate));
    }
  }

  lemma SkipRecordedKeeps(s: State, w: Worker, write: Write)
    requires Inv(s) && w in s.jobs && s.jobs[w].stage.Skipping?
    ensures Inv(SkipRecorded(s, w, write))
  {
    hide Inv, GiveUp, Finish, WithStatus;
    StatusKeeps(s, w, Skipped, write);
    var t := s.(media := WithStatus(s.media, s.jobs[w].media, Skipped, write));
    if write == Answered { FinishKeeps(t, w); }
    else { GiveUpKeeps(t, w, s.jobs[w].stage.during, s.jobs[w].stage.propagate); }
  }

  lemma {:induction false} RunKeeps(s: State, events: seq<Event>)
    requires Inv(s) && IsRun(s, events)
    ensures Inv(After(s, events))
    decreases |events|
  {
    if events == [] {
    } else {
      hide Inv, Next;
      NextKeeps(s, events[0]);
      RunKeeps(Next(s, events[0]), events[1..]);
    }
  }

  lemma InitHolds(concurrency: nat, retries: nat)
    ensures Inv(Init(concurrency, retries))
  {
    assert Holders(map[]) == {};
  }

  // ── What is promised ─────────────────────────────────────────────

  /**
   * Over every interleaving of live and resumed downloads: the slots taken are the slots held, never more than there
   * are; nobody waits while one is free; and no media has two workers.
   */
  lemma SlotsAreNeverWasted(concurrency: nat, retries: nat, events: seq<Event>)
    requires IsRun(Init(concurrency, retries), events)
    ensures var t := After(Init(concurrency, retries), events);
      && t.slots.active == |Holders(t.jobs)| <= t.concurrency
      && ((exists w :: w in t.jobs && t.jobs[w].stage.InLine?) ==> t.slots.active == t.concurrency)
      && (forall v, w :: v in t.jobs && w in t.jobs && t.jobs[v].media == t.jobs[w].media ==> v == w)
  {
    InitHolds(concurrency, retries);
    RunKeeps(Init(concurrency, retries), events);
  }

  lemma StatusAfter(s: State, e: Event, m: Media)
    requires Inv(s) && Enabled(s, e) && m in s.media && s.media[m] == Ready
    ensures m in Next(s, e).media && Next(s, e).media[m] == Ready
  {
    hide Finish, AttemptFails, GiveUp, TakeSlot, Run, SlotsMatch, LineMatches, OneWorkerEach;
    match e
    case Arrives(_) =>
    case Runs(_, _) => RunIsQuiet(s, e.m, e.restorable);
    case Downloads(w, _) => FailingIsQuiet(s, w, s.jobs[w].stage.attempt);
    case Writes(w, _) => FailingIsQuiet(s, w, s.jobs[w].stage.attempt);
    case Records(w, write) =>
      var t := s.(media := WithStatus(s.media, s.jobs[w].media, Ready, write));
      FinishIsQuiet(t, w);
      FailingIsQuiet(t, w, s.jobs[w].stage.attempt);
    case Looks(w, _) =>
      FinishIsQuiet(s, w);
      GivingUpIsQuiet(s, w, s.jobs[w].stage.during, s.jobs[w].stage.propagate);
    case Skips(w, write) =>
      var t := s.(media := WithStatus(s.media, s.jobs[w].media, Skipped, write));
      FinishIsQuiet(t, w);
      GivingUpIsQuiet(t, w, s.jobs[w].stage.during, s.jobs[w].stage.propagate);
    case Wakes(w) => TakingIsQuiet(s, w, s.jobs[w].stage.attempt);
  }

  lemma FinishIsQuiet(s: State, w: Worker)
    requires w in s.jobs
    ensures Finish(s, w).media == s.media
  {
  }

  lemma FailingIsQuiet(s: State, w: Worker, attempt: nat)
    requires w in s.jobs
    ensures AttemptFails(s, w, attempt).media == s.media
  {
  }

  lemma GivingUpIsQuiet(s: State, w: Worker, during: Option<nat>, propagate: bool)
    requires w in s.jobs
    ensures GiveUp(s, w, during, propagate).media == s.media
  {
  }

  lemma TakingIsQuiet(s: State, w: Worker, attempt: nat)
    requires w in s.jobs
    ensures TakeSlot(s, w, attempt).media == s.media
  {
  }

  lemma RunIsQuiet(s: State, m: Media, restorable: bool)
    ensures Run(s, m, restorable).media == s.media
  {
  }

  /** A late failure never turns a media that is stored into one that was skipped, whatever answers are lost. */
  lemma {:induction false} ReadyStaysReady(s: State, events: seq<Event>, m: Media)
    requires Inv(s) && IsRun(s, events) && m in s.media && s.media[m] == Ready
    ensures m in After(s, events).media && After(s, events).media[m] == Ready
    decreases |events|
  {
    if events == [] {
    } else {
      hide Inv, Next;
      StatusAfter(s, events[0], m);
      NextKeeps(s, events[0]);
      ReadyStaysReady(Next(s, events[0]), events[1..], m);
    }
  }

  /** What is recorded of a media by a step: that it was stored, or that it was not, whether or not the answer gets back. */
  predicate RecordsIt(s: State, e: Event, m: Media, status: Status)
    requires Enabled(s, e)
  {
    match status
    case Ready => e.Records? && e.write != NotDone && s.jobs[e.w].media == m
    case Skipped => e.Skips? && e.write != NotDone && s.jobs[e.w].media == m
    case Pending => false
  }

  lemma StatusMoves(s: State, e: Event, m: Media)
    requires Enabled(s, e) && m in s.media
    ensures var t := Next(s, e);
      && m in t.media
      && t.media[m] == if RecordsIt(s, e, m, Ready) then Ready else if RecordsIt(s, e, m, Skipped) then Skipped else s.media[m]
  {
    hide Finish, AttemptFails, GiveUp, TakeSlot, Run;
    match e
    case Arrives(_) =>
    case Runs(_, _) => RunIsQuiet(s, e.m, e.restorable);
    case Downloads(w, _) => FailingIsQuiet(s, w, s.jobs[w].stage.attempt);
    case Writes(w, _) => FailingIsQuiet(s, w, s.jobs[w].stage.attempt);
    case Records(w, write) =>
      var t := s.(media := WithStatus(s.media, s.jobs[w].media, Ready, write));
      FinishIsQuiet(t, w);
      FailingIsQuiet(t, w, s.jobs[w].stage.attempt);
    case Looks(w, _) =>
      FinishIsQuiet(s, w);
      GivingUpIsQuiet(s, w, s.jobs[w].stage.during, s.jobs[w].stage.propagate);
    case Skips(w, write) =>
      var t := s.(media := WithStatus(s.media, s.jobs[w].media, Skipped, write));
      FinishIsQuiet(t, w);
      GivingUpIsQuiet(t, w, s.jobs[w].stage.during, s.jobs[w].stage.propagate);
    case Wakes(w) => TakingIsQuiet(s, w, s.jobs[w].stage.attempt);
  }

  predicate WasRecorded(s: State, events: seq<Event>, m: Media)
    requires IsRun(s, events)
    decreases |events|
  {
    events != [] && (RecordsIt(s, events[0], m, Ready) || WasRecorded(Next(s, events[0]), events[1..], m))
  }

  /** After any run a media is ready if and only if it was, or some worker recorded that it is stored. */
  lemma {:induction false} ReadyIfRecorded(s: State, events: seq<Event>, m: Media)
    requires Inv(s) && IsRun(s, events) && m in s.media
    ensures m in After(s, events).media && (After(s, events).media[m] == Ready <==> s.media[m] == Ready || WasRecorded(s, events, m))
    decreases |events|
  {
    hide Inv, Next, Enabled, RecordsIt;
    if events != [] {
      var t := Next(s, events[0]);
      StatusMoves(s, events[0], m);
      NextKeeps(s, events[0]);
      if s.media[m] == Ready { StatusAfter(s, events[0], m); }
      ReadyIfRecorded(t, events[1..], m);
      NotBoth(s, events[0], m);
    }
  }

  lemma NotBoth(s: State, e: Event, m: Media)
    requires Enabled(s, e)
    ensures !(RecordsIt(s, e, m, Ready) && RecordsIt(s, e, m, Skipped))
  {
  }

  /**
   * What becomes of an attempt, step by step: the bytes are written, then the media is recorded as stored and its worker is
   * done; whatever fails on the way is tried again later, as long as there are attempts left.
   */
  lemma AttemptGoesOn(s: State, w: Worker)
    requires Inv(s) && w in s.jobs
    ensures s.jobs[w].stage.Downloading? ==>
              Next(s, Downloads(w, Data)).jobs[w].stage == Writing(s.jobs[w].stage.attempt)
    ensures s.jobs[w].stage.Writing? ==>
              Next(s, Writes(w, true)).jobs[w].stage == Recording(s.jobs[w].stage.attempt)
    ensures s.jobs[w].stage.Recording? ==>
              var t := Next(s, Records(w, Answered)); w !in t.jobs && s.jobs[w].media !in t.inFlight
    ensures forall e | Fails(s, e, w) ::
              Next(s, e).jobs[w].stage == var a := s.jobs[w].stage.attempt; if a < s.retries then Sleeping(a + 1) else Looking(Some(a), false)
  {
    hide Inv, Acquired;
    forall e | Fails(s, e, w)
      ensures w in Next(s, e).jobs
      ensures Next(s, e).jobs[w].stage == var a := s.jobs[w].stage.attempt; if a < s.retries then Sleeping(a + 1) else Looking(Some(a), false)
    {
      AttemptIsOver(s, e, w);
    }
    if s.jobs[w].stage.Recording? {
      hide GiveSlot;
      GivingIsToOthers(s.(media := WithStatus(s.media, s.jobs[w].media, Ready, Answered),
                          inFlight := s.inFlight - {s.jobs[w].media}, jobs := s.jobs - {w}));
    }
  }

  /** With nothing failing, three steps of its worker make a media ready, and leave it to whoever comes. */
  lemma DownloadSucceeds(s: State, w: Worker)
    requires Inv(s) && w in s.jobs && s.jobs[w].stage.Downloading? && s.jobs[w].media in s.media
    ensures var events := [Downloads(w, Data), Writes(w, true), Records(w, Answered)];
      && IsRun(s, events)
      && var t, m := After(s, events), s.jobs[w].media; m in t.media && t.media[m] == Ready && m !in t.inFlight && w !in t.jobs
  {
    hide Inv, GiveSlot, SlotsMatch, LineMatches;
    var m, attempt := s.jobs[w].media, s.jobs[w].stage.attempt;
    var s1 := Next(s, Downloads(w, Data));
    assert s1 == Move(s, w, Writing(attempt));
    var s2 := Next(s1, Writes(w, true));
    assert s2 == Move(s1, w, Recording(attempt));
    var s3 := Next(s2, Records(w, Answered));
    var u := s2.(media := WithStatus(s2.media, m, Ready, Answered));
    FinishIsQuiet(u, w);
    GivingIsToOthers(u.(inFlight := u.inFlight - {m}, jobs := u.jobs - {w}));
    ThreeSteps(s, Downloads(w, Data), Writes(w, true), Records(w, Answered));
  }

  lemma ThreeSteps(s: State, first: Event, second: Event, third: Event)
    requires Enabled(s, first) && Enabled(Next(s, first), second) && Enabled(Next(Next(s, first), second), third)
    ensures IsRun(s, [first, second, third]) && After(s, [first, second, third]) == Next(Next(Next(s, first), second), third)
  {
    hide Next, Enabled;
    var t := Next(s, first);
    var u := Next(t, second);
    assert [third][1..] == [];
    assert IsRun(Next(u, third), []) && After(Next(u, third), []) == Next(u, third);
    assert IsRun(u, [third]) && After(u, [third]) == Next(u, third);
    assert [second, third][1..] == [third];
    assert IsRun(t, [second, third]) && After(t, [second, third]) == Next(u, third);
    assert [first, second, third][1..] == [second, third];
  }

  /** And once a worker has given up, two steps record that it is not stored, unless it is. */
  lemma FailureIsRecorded(s: State, w: Worker)
    requires w in s.jobs && s.jobs[w].stage.Looking? && s.jobs[w].media in s.media
    ensures var t, m := Next(s, Looks(w, true)), s.jobs[w].media;
      if s.media[m] == Ready then w !in t.jobs && m !in t.inFlight
      else Enabled(t, Skips(w, Answered)) &&
           var u := Next(t, Skips(w, Answered)); m in u.media && u.media[m] == Skipped && w !in u.jobs && m !in u.inFlight
  {
    hide GiveSlot;
    var m := s.jobs[w].media;
    var left := s.(inFlight := s.inFlight - {m}, jobs := s.jobs - {w});
    GivingIsToOthers(left);
    GivingIsToOthers(left.(media := WithStatus(s.media, m, Skipped, Answered)));
    if s.media[m] != Ready {
      var t := Next(s, Looks(w, true));
      var u := t.(media := WithStatus(t.media, m, Skipped, Answered));
      FinishIsQuiet(u, w);
      GivingIsToOthers(u.(inFlight := u.inFlight - {m}, jobs := u.jobs - {w}));
    }
  }

  /**
   * A media that cannot be stored, for its size or for want of bytes, is not tried again, unless that could not be recorded:
   * then its attempt has failed like any other. Of one whose attempts are over, or that cannot be restored, nothing is tried again.
   */
  lemma UnstorableIsNotRetried(s: State, w: Worker, result: Download)
    requires w in s.jobs && s.jobs[w].stage.Downloading? && s.jobs[w].media in s.media && (result.TooLarge? || result.Nothing?)
    ensures var t, a := Next(s, Downloads(w, result)), s.jobs[w].stage.attempt;
      && Enabled(t, Looks(w, true)) && t.media == s.media
      && Next(t, Looks(w, false)).jobs[w].stage == if a < s.retries then Sleeping(a + 1) else Looking(Some(a), false)
  {
    hide GiveSlot;
    var t, a := Next(s, Downloads(w, result)), s.jobs[w].stage.attempt;
    GivingIsToOthers(Move(t, w, Sleeping(a + 1)));
  }

  lemma NothingIsTriedAgain(s: State, w: Worker, write: Write)
    requires w in s.jobs && (s.jobs[w].stage.Looking? || s.jobs[w].stage.Skipping?)
    requires s.jobs[w].stage.during.None? || !s.jobs[w].stage.propagate
    ensures s.jobs[w].stage.Looking? ==> w !in Next(s, Looks(w, false)).jobs
    ensures s.jobs[w].stage.Skipping? ==> w !in Next(s, Skips(w, write)).jobs
  {
    hide GiveSlot;
    var left := s.(inFlight := s.inFlight - {s.jobs[w].media}, jobs := s.jobs - {w});
    GivingIsToOthers(left);
    GivingIsToOthers(left.(media := WithStatus(s.media, s.jobs[w].media, Skipped, write)));
  }

  /** A media nobody works on is taken on at once, by a worker that downloads if a slot is free, and gives up if it cannot be restored. */
  lemma RunTakesItOn(s: State, m: Media, restorable: bool)
    requires Inv(s)
    ensures var t, w := Next(s, Runs(m, restorable)), s.nextWorker;
      if m in s.inFlight then t == s
      else && m in t.inFlight && w in t.jobs && t.jobs[w].media == m
           && t.jobs[w].stage ==
              if !restorable then Looking(None, false) else if s.slots.active < s.concurrency then Downloading(0) else InLine(0)
  {
  }

  predicate Fails(s: State, e: Event, w: Worker) {
    Enabled(s, e) &&
    ((e == Downloads(w, DownloadError)) || e == Writes(w, false) || (e.Records? && e.w == w && e.write != Answered))
  }

  lemma GivingIsToOthers(s: State)
    ensures GiveSlot(s).jobs.Keys == s.jobs.Keys && GiveSlot(s).inFlight == s.inFlight
    ensures forall v :: v in s.jobs && !s.jobs[v].stage.InLine? ==> GiveSlot(s).jobs[v] == s.jobs[v]
  {
  }

  lemma AttemptIsOver(s: State, e: Event, w: Worker)
    requires Fails(s, e, w)
    ensures w in Next(s, e).jobs
    ensures Next(s, e).jobs[w].stage == var a := s.jobs[w].stage.attempt; if a < s.retries then Sleeping(a + 1) else Looking(Some(a), false)
  {
    hide GiveSlot;
    var a := s.jobs[w].stage.attempt;
    var t := if e.Records? then s.(media := WithStatus(s.media, s.jobs[w].media, Ready, e.write)) else s;
    GivingIsToOthers(Move(t, w, Sleeping(a + 1)));
  }

  // ── How often, and in which order ────────────────────────────────

  predicate IsDownloadBy(e: Event, w: Worker) {
    e.Downloads? && e.w == w
  }

  function DownloadsBy(events: seq<Event>, w: Worker): nat {
    if events == [] then 0 else (if IsDownloadBy(events[0], w) then 1 else 0) + DownloadsBy(events[1..], w)
  }

  function Tried(during: Option<nat>): nat {
    if during.Some? then during.value + 1 else 0
  }

  /** Where a worker is that has downloaded so many times. */
  predicate Tallies(s: State, w: Worker, n: nat) {
    if w in s.jobs then
      n <= s.retries + 1 &&
      match s.jobs[w].stage
      case InLine(a) => n == a <= s.retries
      case Downloading(a) => n == a <= s.retries
      case Sleeping(a) => n == a <= s.retries
      case Writing(a) => n == a + 1
      case Recording(a) => n == a + 1
      case Looking(during, _) => n == Tried(during)
      case Skipping(during, _) => n == Tried(during)
    else n <= s.retries + 1 && (w >= s.nextWorker ==> n == 0)
  }

  lemma GivingTallies(s: State, w: Worker, n: nat)
    requires Tallies(s, w, n)
    ensures Tallies(GiveSlot(s), w, n)
  {
  }

  lemma FinishTallies(s: State, v: Worker, w: Worker, n: nat)
    requires v in s.jobs && v < s.nextWorker && Tallies(s, w, n)
    ensures Tallies(Finish(s, v), w, n)
  {
    hide GiveSlot;
    GivingTallies(s.(inFlight := s.inFlight - {s.jobs[v].media}, jobs := s.jobs - {v}), w, n);
  }

  /** It has downloaded once more than before this attempt. */
  lemma FailingTallies(s: State, v: Worker, a: nat, w: Worker, n: nat)
    requires v in s.jobs && (if v == w then n == a + 1 <= s.retries + 1 else Tallies(s, w, n))
    ensures Tallies(AttemptFails(s, v, a), w, n)
  {
    hide GiveSlot;
    if a < s.retries { GivingTallies(Move(s, v, Sleeping(a + 1)), w, n); }
  }

  lemma GivingUpTallies(s: State, v: Worker, w: Worker, n: nat)
    requires v in s.jobs && v < s.nextWorker && Tallies(s, w, n) && (s.jobs[v].stage.Looking? || s.jobs[v].stage.Skipping?)
    ensures Tallies(GiveUp(s, v, s.jobs[v].stage.during, s.jobs[v].stage.propagate), w, n)
  {
    hide AttemptFails, Finish;
    var during := s.jobs[v].stage.during;
    FinishTallies(s, v, w, n);
    if during.Some? { FailingTallies(s, v, during.value, w, n); }
  }

  lemma RunTallies(s: State, m: Media, restorable: bool, w: Worker, n: nat)
    requires Tallies(s, w, n) && s.nextWorker !in s.jobs
    ensures Tallies(Run(s, m, restorable), w, n)
  {
  }

  lemma StatusTallies(s: State, media: map<Media, Status>, w: Worker, n: nat)
    requires Tallies(s, w, n)
    ensures Tallies(s.(media := media), w, n)
  {
  }

  lemma WorkersAreOld(s: State)
    requires Inv(s)
    ensures s.nextWorker !in s.jobs && forall w :: w in s.jobs ==> w < s.nextWorker
  {
  }

  lemma NextTallies(s: State, e: Event, w: Worker, n: nat)
    requires Inv(s) && Enabled(s, e) && Tallies(s, w, n)
    ensures Tallies(Next(s, e), w, if IsDownloadBy(e, w) then n + 1 else n)
  {
    hide Inv, Finish, AttemptFails, Run, GiveUp, WithStatus;
    WorkersAreOld(s);
    match e
    case Arrives(_) =>
    case Runs(m, restorable) => RunTallies(s, m, restorable, w, n);
    case Downloads(v, result) => DownloadTallies(s, v, result, w, n);
    case Writes(v, ok) => FailingTallies(s, v, s.jobs[v].stage.attempt, w, n);
    case Records(v, write) =>
      var t := s.(media := WithStatus(s.media, s.jobs[v].media, Ready, write));
      FinishTallies(t, v, w, n);
      FailingTallies(t, v, s.jobs[v].stage.attempt, w, n);
    case Looks(v, ok) =>
      FinishTallies(s, v, w, n);
      GivingUpTallies(s, v, w, n);
    case Skips(v, write) =>
      var t := s.(media := WithStatus(s.media, s.jobs[v].media, Skipped, write));
      FinishTallies(t, v, w, n);
      GivingUpTallies(t, v, w, n);
    case Wakes(v) => WakingTallies(s, v, w, n);
  }

  lemma WakingTallies(s: State, v: Worker, w: Worker, n: nat)
    requires v in s.jobs && s.jobs[v].stage.Sleeping? && Tallies(s, w, n)
    ensures Tallies(TakeSlot(s, v, s.jobs[v].stage.attempt), w, n)
  {
  }

  lemma DownloadTallies(s: State, v: Worker, result: Download, w: Worker, n: nat)
    requires v in s.jobs && s.jobs[v].stage.Downloading? && Tallies(s, w, n)
    ensures Tallies(Downloaded(s, v, result), w, if v == w then n + 1 else n)
  {
    hide AttemptFails;
    FailingTallies(s, v, s.jobs[v].stage.attempt, w, if v == w then n + 1 else n);
  }

  lemma {:induction false} RunTallied(s: State, events: seq<Event>, w: Worker, n: nat)
    requires Inv(s) && IsRun(s, events) && Tallies(s, w, n)
    ensures Tallies(After(s, events), w, n + DownloadsBy(events, w))
    decreases |events|
  {
    hide Inv, Next, Enabled, Tallies;
    if events != [] {
      NextTallies(s, events[0], w, n);
      NextKeeps(s, events[0]);
      RunTallied(Next(s, events[0]), events[1..], w, if IsDownloadBy(events[0], w) then n + 1 else n);
    }
  }

  /** Over every run a worker downloads once, and again for each retry, but no more; and its attempt says how often it has. */
  lemma DownloadsAreBounded(concurrency: nat, retries: nat, events: seq<Event>, w: Worker)
    requires IsRun(Init(concurrency, retries), events)
    ensures var t := After(Init(concurrency, retries), events); Tallies(t, w, DownloadsBy(events, w))
    ensures DownloadsBy(events, w) <= retries + 1
  {
    InitHolds(concurrency, retries);
    RunTallied(Init(concurrency, retries), events, w, 0);
    LimitStays(Init(concurrency, retries), events);
  }

  lemma {:induction false} LimitStays(s: State, events: seq<Event>)
    requires IsRun(s, events)
    ensures After(s, events).retries == s.retries
    decreases |events|
  {
    if events != [] {
      LimitIsFixed(s, events[0]);
      hide Next, Enabled;
      LimitStays(Next(s, events[0]), events[1..]);
    }
  }

  lemma LimitIsFixed(s: State, e: Event)
    requires Enabled(s, e)
    ensures Next(s, e).retries == s.retries
  {
    hide Released, Acquired, WithStatus;
  }

  /** The line moves from its front alone, one at a time, and whoever leaves it downloads; who joins it joins its end. */
  lemma FirstComeFirstServed(s: State, e: Event)
    requires Inv(s) && Enabled(s, e)
    ensures var line, t := s.slots.waiting, Next(s, e);
      || t.slots.waiting == line
      || (|t.slots.waiting| == |line| + 1 && t.slots.waiting[..|line|] == line)
      || (line != [] && t.slots.waiting == line[1..] && line[0] in t.jobs && t.jobs[line[0]].stage.Downloading?)
  {
    hide SlotsMatch, OneWorkerEach, SkipsAreTrue, WithStatus;
    var line := s.slots.waiting;
    if line != [] { assert line[0] in line; }
  }

  // ── Resuming ─────────────────────────────────────────────────────

  function Above(rows: set<nat>, cursor: nat): set<nat> {
    set seq' | seq' in rows && seq' > cursor
  }

  /** `seq > ? ORDER BY seq ASC LIMIT ?` over the rows that are pending. */
  function FindPendingMedia(pending: set<nat>, limit: nat, afterSeq: nat): (batch: seq<nat>)
    ensures Increasing(batch) && forall q :: q in batch ==> q in pending && q > afterSeq
    ensures forall q :: q in pending && q > afterSeq && (batch == [] || q <= batch[|batch| - 1]) && limit > 0 ==> q in batch
  {
    var all := Ascending(Above(pending, afterSeq));
    FrontIsDense(all, limit);
    Front(all, limit)
  }

  lemma FrontIsDense(all: seq<nat>, limit: nat)
    requires Increasing(all)
    ensures Increasing(Front(all, limit))
    ensures var front := Front(all, limit);
      forall q :: q in all && (front == [] || q <= front[|front| - 1]) && limit > 0 ==> q in front
  {
    var front := Front(all, limit);
    forall q | q in all && limit > 0 && (front == [] || q <= front[|front| - 1]) ensures q in front {
      var i :| 0 <= i < |all| && all[i] == q;
      if i < |front| { assert front[i] == q; }
    }
  }

  ghost predicate StaysPending(pendingAt: nat -> set<nat>, row: nat) {
    forall n :: row in pendingAt(n)
  }

  ghost predicate WasPending(pendingAt: nat -> set<nat>, row: nat) {
    exists n :: row in pendingAt(n)
  }

  lemma PicksInOrder(picked: seq<nat>, batch: seq<nat>, afterSeq: nat)
    requires Increasing(picked) && Increasing(batch)
    requires (forall q :: q in picked ==> q <= afterSeq) && (forall q :: q in batch ==> q > afterSeq)
    ensures Increasing(picked + batch)
    ensures batch != [] ==> forall q :: q in picked + batch ==> q <= batch[|batch| - 1]
  {
    assert forall i :: 0 <= i < |picked| ==> picked[i] in picked;
    assert forall i :: 0 <= i < |batch| ==> batch[i] in batch;
  }

  /**
   * Resuming by cursor, whatever is pending at each read of a log that ends somewhere: it ends, it picks no row twice,
   * and it picks every row that stays pending throughout, even if those before it never get their outcome recorded.
   */
  method ResumePendingMedia(pendingAt: nat -> set<nat>, top: nat, batchSize: nat) returns (picked: seq<nat>)
    requires batchSize > 0
    requires forall n, q :: q in pendingAt(n) ==> 1 <= q <= top
    ensures Increasing(picked)
    ensures forall q: nat :: q in picked ==> WasPending(pendingAt, q)
    ensures forall q: nat :: StaysPending(pendingAt, q) ==> q in picked
  {
    hide FindPendingMedia, Increasing;
    picked := [];
    var afterSeq: nat, round: nat, more := 0, 0, true;
    NothingYet(pendingAt, top);
    while more
      invariant Increasing(picked) && afterSeq <= top
      invariant forall q: nat :: q in picked ==> q <= afterSeq && WasPending(pendingAt, q)
      invariant forall q: nat :: StaysPending(pendingAt, q) && (q <= afterSeq || !more) ==> q in picked
      decreases more, top - afterSeq
    {
      var batch := FindPendingMedia(pendingAt(round), batchSize, afterSeq);
      PicksInOrder(picked, batch, afterSeq);
      if batch == [] {
        more := false;
      } else {
        assert batch[|batch| - 1] in batch;
        afterSeq := batch[|batch| - 1];
      }
      picked := picked + batch;
      round := round + 1;
    }
  }

  lemma NothingYet(pendingAt: nat -> set<nat>, top: nat)
    requires forall n, q :: q in pendingAt(n) ==> 1 <= q <= top
    ensures Increasing([]) && forall q: nat :: StaysPending(pendingAt, q) ==> q >= 1
  {
    assert forall q: nat :: StaysPending(pendingAt, q) ==> q in pendingAt(0);
  }
}

/** Every interleaving of API calls, beat sweeps and send workers, one committed write per step. */
module SendMachine {
  import opened Types
  import opened SendModel

  const MAX_RETRIES := 3

  datatype Task = Task(message: nat, retries: nat)

  /** A write a worker has still to commit before its task ends. */
  datatype Write =
    | FailAttempt | FailMessage
    | ConfirmMessage(id: string) | ConfirmAttempt
    | ReleaseSlot | RecordFailure | MarkFailed | Retry

  datatype Stage = Holding | Slotted | Calling | Winding(todo: seq<Write>)

  /** `ticket` is the attempt's reservation count when this worker reserved it;
      `slot` is the day whose daily slot the worker still owes an outcome for. */
  datatype Worker = Idle | Busy(task: Task, ticket: nat, slot: Option<nat>, stage: Stage)

  datatype Confirmation = Confirmation(message: nat, day: nat)

  /** `outbox` holds the send time each committed compose or promotion passes to its on-commit callback, until that
      runs. The other fields from `ledger` on are history: provider confirmations, slots lost with a crash or an
      unexpected exception, failure verdicts, messages that have been drafts, messages reserved before their time. */
  datatype Sys = Sys(
    db: Db,
    tasks: multiset<Task>,
    outbox: map<nat, Option<nat>>,
    workers: seq<Worker>,
    now: nat,
    ledger: seq<Confirmation>,
    leaks: multiset<nat>,
    verdicts: nat,
    unrecorded: nat,
    drafts: set<nat>,
    early: set<nat>)

  datatype Reply = Accepted(id: string) | NoAnswer | ServerError | ClientError

  /** `read` is the send time in the draft a promotion has loaded. */
  datatype Event =
    | Tick(seconds: nat)
    | Compose(m: nat, at: Option<nat>)
    | SaveDraft(m: nat, at: Option<nat>)
    | Promote(m: nat, read: Option<nat>)
    | Publish(m: nat)
    | Cancel(m: nat)
    | Sweep
    | Deliver(w: nat, task: Task)
    | Redeliver(w: nat)
    | Crash(w: nat)
    | Refuse(w: nat)
    | TakeSlot(w: nat, limit: Option<nat>)
    | StartCall(w: nat)
    | StorageOutage(w: nat)
    | Unexpected(w: nat)
    | Answer(w: nat, reply: Reply)
    | Commit(w: nat)
    | StatusEvent(m: nat, status: EmailStatus)

  function Init(workers: nat): Sys {
    var db := Db(map[], map[], multiset{}, multiset{});
    Sys(db, multiset{}, map[], seq(workers, _ => Idle), 0, [], multiset{}, 0, 0, {}, {})
  }

  // ---- Guards ----

  predicate BusyAt(s: Sys, w: nat) {
    w < |s.workers| && s.workers[w].Busy?
      && s.workers[w].task.message in s.db.attempts && s.workers[w].task.message in s.db.messages
  }

  predicate AtStage(s: Sys, w: nat, stage: Stage) {
    BusyAt(s, w) && s.workers[w].stage == stage
  }

  predicate Committing(s: Sys, w: nat) {
    BusyAt(s, w) && s.workers[w].stage.Winding? && s.workers[w].stage.todo != []
  }

  function MessageOf(s: Sys, w: nat): nat
    requires BusyAt(s, w)
  {
    s.workers[w].task.message
  }

  // ---- Building blocks ----

  function Put(s: Sys, w: nat, worker: Worker): Sys
    requires w < |s.workers|
  {
    s.(workers := s.workers[w := worker])
  }

  function Wind(s: Sys, w: nat, todo: seq<Write>): Sys
    requires BusyAt(s, w)
  {
    Put(s, w, s.workers[w].(stage := Winding(todo)))
  }

  function DueNow(s: Sys): set<nat> {
    set m | m in s.db.attempts && DueForSweep(s.db, m, s.now)
  }

  function FreshTasks(ms: set<nat>): multiset<Task> {
    multiset(set m | m in ms :: Task(m, 0))
  }

  // ---- API and beat steps ----

  function StepCompose(s: Sys, m: nat, at: Option<nat>): Sys {
    if m in s.db.messages || m in s.db.attempts then s
    else s.(db := Composed(s.db, m, at), outbox := s.outbox[m := at])
  }

  /** A save may land on any message that was a draft when it was loaded, whatever has become of it. */
  function StepSaveDraft(s: Sys, m: nat, at: Option<nat>): Sys {
    if m !in s.db.messages then s.(db := DraftCreated(s.db, m, at), drafts := s.drafts + {m})
    else if m in s.drafts then s.(db := DraftEdited(s.db, m, at))
    else s
  }

  /** The promotion saves the status but not the time, and its callback goes by the time it has read. */
  function StepPromote(s: Sys, m: nat, read: Option<nat>): Sys {
    if !CanPromote(s.db, m) then s
    else s.(db := Promoted(s.db, m), outbox := s.outbox[m := read])
  }

  /** _enqueue_send: a future-dated send is left to the sweep. */
  function StepPublish(s: Sys, m: nat): Sys {
    if m !in s.outbox then s
    else
      var waiting := s.(outbox := map k | k in s.outbox && k != m :: s.outbox[k]);
      if DueBy(s.outbox[m], s.now) then waiting.(tasks := waiting.tasks + multiset{Task(m, 0)}) else waiting
  }

  function StepCancel(s: Sys, m: nat): Sys {
    if CanCancel(s.db, m) then s.(db := CancelWritten(s.db, m), drafts := s.drafts + {m}) else s
  }

  function StepSweep(s: Sys): Sys {
    s.(tasks := s.tasks + FreshTasks(DueNow(s)))
  }

  // ---- Worker steps ----

  function TooSoon(s: Sys, m: nat): set<nat>
    requires m in s.db.messages
  {
    if DueBy(s.db.messages[m].scheduledAt, s.now) then {} else {m}
  }

  function StepDeliver(s: Sys, w: nat, task: Task): Sys {
    if !(w < |s.workers| && s.workers[w] == Idle && task in s.tasks) then s
    else
      var taken := s.(tasks := s.tasks - multiset{task});
      if !(CanReserve(s.db, task.message) && task.message in s.db.messages) then taken
      else
        Put(taken.(db := Reserved(s.db, task.message, s.now), early := s.early + TooSoon(s, task.message)), w,
            Busy(task, s.db.attempts[task.message].reservations + 1, None, Holding))
  }

  function StepCrash(s: Sys, w: nat): Sys {
    if !BusyAt(s, w) then s
    else
      Put(s, w, Idle).(tasks := s.tasks + multiset{s.workers[w].task},
                       leaks := s.leaks + SlotOf(s.workers[w]),
                       unrecorded := s.unrecorded + OwedRecord(s.workers[w]))
  }

  function StepRefuse(s: Sys, w: nat): Sys {
    if AtStage(s, w, Holding) then Wind(s, w, [FailAttempt, FailMessage, MarkFailed]) else s
  }

  function StepTakeSlot(s: Sys, w: nat, limit: Option<nat>): Sys {
    if !AtStage(s, w, Holding) then s
    else if SlotFree(s.db, limit, DayOf(s.now)) then
      Put(s, w, s.workers[w].(slot := Some(DayOf(s.now)), stage := Slotted)).(db := SlotReserved(s.db, DayOf(s.now)))
    else
      Wind(s, w, [RecordFailure, FailAttempt, FailMessage, MarkFailed]).(verdicts := s.verdicts + 1)
  }

  /** send_message saves SENDING on the attempt again just before the request. */
  function StepStartCall(s: Sys, w: nat): Sys {
    if !AtStage(s, w, Slotted) then s
    else Put(s, w, s.workers[w].(stage := Calling)).(db := AttemptSet(s.db, MessageOf(s, w), InFlight))
  }

  function StepStorageOutage(s: Sys, w: nat): Sys {
    if AtStage(s, w, Slotted) then Wind(s, w, [ReleaseSlot, Retry]) else s
  }

  /** An exception that is neither Transient nor Permanent, from a call or from a save, skips the release of the slot
      and reaches the task's handler; raised in that handler, or by the retry, it ends the task. */
  function Interrupted(w: Worker): Worker
    requires w.Busy?
  {
    if w.stage.Winding? && (w.stage.todo == [] || w.stage.todo[0] in {MarkFailed, Retry}) then Idle
    else w.(slot := None, stage := Winding([MarkFailed]))
  }

  function StepUnexpected(s: Sys, w: nat): Sys {
    if !BusyAt(s, w) then s
    else
      Put(s, w, Interrupted(s.workers[w]))
        .(leaks := s.leaks + SlotOf(s.workers[w]), unrecorded := s.unrecorded + OwedRecord(s.workers[w]))
  }

  function Plan(reply: Reply): seq<Write> {
    match reply
    case Accepted(id) => [ConfirmMessage(id), ConfirmAttempt]
    case NoAnswer => [FailAttempt, FailMessage, ReleaseSlot, Retry]
    case ServerError => [FailMessage, FailAttempt, ReleaseSlot, Retry]
    case ClientError => [FailMessage, FailAttempt, ReleaseSlot, RecordFailure, MarkFailed]
  }

  function StepAnswer(s: Sys, w: nat, reply: Reply): Sys {
    if !(AtStage(s, w, Calling) && s.workers[w].slot.Some?) then s
    else if reply.Accepted? then
      Put(s, w, s.workers[w].(slot := None, stage := Winding(Plan(reply))))
        .(ledger := s.ledger + [Confirmation(MessageOf(s, w), s.workers[w].slot.value)])
    else
      Wind(s, w, Plan(reply)).(verdicts := s.verdicts + if reply.ClientError? then 1 else 0)
  }

  function Written(db: Db, m: nat, write: Write, now: nat): Db
    requires m in db.attempts && m in db.messages
  {
    match write
    case FailAttempt => AttemptSet(db, m, Rejected)
    case FailMessage => MessageSet(db, m, Failed)
    case ConfirmMessage(id) => MessageConfirmed(db, m, id)
    case ConfirmAttempt => AttemptSet(db, m, Confirmed)
    case ReleaseSlot => SlotReleased(db, DayOf(now))
    case RecordFailure => FailureRecorded(db, DayOf(now))
    case MarkFailed => MarkedFailed(db, m)
    case Retry => db
  }

  /** A worker past its next write: idle once none is left, and free of its slot once that is released. */
  function MovedOn(w: Worker): Worker
    requires w.Busy? && w.stage.Winding? && w.stage.todo != []
  {
    if |w.stage.todo| == 1 then Idle
    else w.(slot := if w.stage.todo[0] == ReleaseSlot then None else w.slot, stage := Winding(w.stage.todo[1..]))
  }

  function StepCommit(s: Sys, w: nat): Sys {
    if !Committing(s, w) then s
    else
      var task := s.workers[w].task;
      var write := s.workers[w].stage.todo[0];
      Put(s, w, MovedOn(s.workers[w]))
        .(db := Written(s.db, task.message, write, s.now),
          tasks := if write == Retry && task.retries < MAX_RETRIES
                   then s.tasks + multiset{Task(task.message, task.retries + 1)} else s.tasks)
  }

  /** A delivery event reaches the message only through its provider id; its worker may have loaded any earlier status,
      so every status of an event may be written over any other. */
  function StepStatus(s: Sys, m: nat, status: EmailStatus): Sys {
    if m in s.db.messages && s.db.messages[m].providerId.Some? && Rank(status) > Rank(Sent)
    then s.(db := MessageSet(s.db, m, status))
    else s
  }

  function Step(s: Sys, e: Event): Sys {
    match e
    case Tick(seconds) => s.(now := s.now + seconds)
    case Compose(m, at) => StepCompose(s, m, at)
    case SaveDraft(m, at) => StepSaveDraft(s, m, at)
    case Promote(m, read) => StepPromote(s, m, read)
    case Publish(m) => StepPublish(s, m)
    case Cancel(m) => StepCancel(s, m)
    case Sweep => StepSweep(s)
    case Deliver(w, task) => StepDeliver(s, w, task)
    case Redeliver(w) => if BusyAt(s, w) then s.(tasks := s.tasks + multiset{s.workers[w].task}) else s
    case Crash(w) => StepCrash(s, w)
    case Refuse(w) => StepRefuse(s, w)
    case TakeSlot(w, limit) => StepTakeSlot(s, w, limit)
    case StartCall(w) => StepStartCall(s, w)
    case StorageOutage(w) => StepStorageOutage(s, w)
    case Unexpected(w) => StepUnexpected(s, w)
    case Answer(w, reply) => StepAnswer(s, w, reply)
    case Commit(w) => StepCommit(s, w)
    case StatusEvent(m, status) => StepStatus(s, m, status)
  }

  /** The state after a run: any sequence of events, a disabled event changing nothing. */
  function Run(s: Sys, es: seq<Event>): Sys
    decreases |es|
  {
    if es == [] then s else Run(Step(s, es[0]), es[1..])
  }

  lemma {:induction false} RunAppend(s: Sys, es: seq<Event>, fs: seq<Event>)
    ensures Run(s, es + fs) == Run(Run(s, es), fs)
    decreases |es|
  {
    if es == [] {
      assert es + fs == fs;
    } else {
      assert (es + fs)[1..] == es[1..] + fs;
      RunAppend(Step(s, es[0]), es[1..], fs);
    }
  }

  lemma RunTwo(s: Sys, e: Event, f: Event)
    ensures Run(s, [e, f]) == Step(Step(s, e), f)
  {
    assert [e, f][1..] == [f] && [f][1..] == [];
    assert Run(Step(s, e), [f]) == Run(Step(Step(s, e), f), []);
  }

  lemma RunThree(s: Sys, e: Event, f: Event, g: Event)
    ensures Run(s, [e, f, g]) == Step(Step(Step(s, e), f), g)
  {
    assert [e, f, g][1..] == [f, g];
    RunTwo(Step(s, e), f, g);
  }

  // ---- What a worker owes ----

  function SlotOf(w: Worker): multiset<nat> {
    if w.Busy? && w.slot.Some? then multiset{w.slot.value} else multiset{}
  }

  function OwedRecord(w: Worker): nat {
    if w.Busy? && w.stage.Winding? && RecordFailure in w.stage.todo then 1 else 0
  }

  /** A worker is between reserve and outcome until its last write of the attempt's outcome. */
  predicate Holder(w: Worker) {
    w.Busy? && match w.stage
      case Winding(todo) => FailAttempt in todo || ConfirmAttempt in todo
      case _ => true
  }

  predicate Holds(s: Sys, w: nat, m: nat) {
    w < |s.workers| && Holder(s.workers[w]) && s.workers[w].task.message == m
  }

  // ---- Frames ----

  /** Steps taken by the API and the beat, and the broker's redelivery. */
  predicate Outside(e: Event) {
    || e.Tick? || e.Compose? || e.SaveDraft? || e.Promote? || e.Publish? || e.Cancel? || e.Sweep?
    || e.Redeliver? || e.StatusEvent?
  }

  lemma OutsideFrame(s: Sys, e: Event)
    requires Outside(e)
    ensures var t := Step(s, e);
      && t.workers == s.workers && t.ledger == s.ledger && t.leaks == s.leaks
      && t.verdicts == s.verdicts && t.unrecorded == s.unrecorded
      && t.db.sent == s.db.sent && t.db.failed == s.db.failed && t.now >= s.now
  {
  }

  /** The clock and the outbox stand still, and only worker w moves; it changes its task only by taking a queued one. */
  predicate Moves(s: Sys, t: Sys, w: nat) {
    && t.now == s.now && t.outbox == s.outbox
    && (t.workers == s.workers
        || (w < |s.workers| && |t.workers| == |s.workers| && t.workers == s.workers[w := t.workers[w]]))
    && (w < |s.workers| && t.workers[w].Busy? ==>
          t.workers[w].task in s.tasks || (s.workers[w].Busy? && s.workers[w].task == t.workers[w].task))
  }

  lemma DeliverMoves(s: Sys, w: nat, task: Task)
    ensures Moves(s, StepDeliver(s, w, task), w)
  {
  }

  lemma CrashMoves(s: Sys, w: nat)
    ensures Moves(s, StepCrash(s, w), w)
  {
  }

  lemma SlotMoves(s: Sys, w: nat, limit: Option<nat>)
    ensures Moves(s, StepTakeSlot(s, w, limit), w)
    ensures Moves(s, StepStartCall(s, w), w)
  {
  }

  lemma RaiseMoves(s: Sys, w: nat)
    ensures Moves(s, StepRefuse(s, w), w)
    ensures Moves(s, StepStorageOutage(s, w), w)
    ensures Moves(s, StepUnexpected(s, w), w)
  {
  }

  lemma OutcomeMoves(s: Sys, w: nat, reply: Reply)
    ensures Moves(s, StepAnswer(s, w, reply), w)
    ensures Moves(s, StepCommit(s, w), w)
  {
  }

  lemma AnyMoves(s: Sys, e: Event)
    requires !Outside(e)
    ensures Moves(s, Step(s, e), e.w)
  {
    match e
    case Deliver(w, task) => DeliverMoves(s, w, task);
    case Crash(w) => CrashMoves(s, w);
    case TakeSlot(w, limit) => SlotMoves(s, w, limit);
    case StartCall(w) => SlotMoves(s, w, None);
    case Answer(w, reply) => OutcomeMoves(s, w, reply);
    case Commit(w) => OutcomeMoves(s, w, NoAnswer);
    case Refuse(w) => RaiseMoves(s, w);
    case StorageOutage(w) => RaiseMoves(s, w);
    case Unexpected(w) => RaiseMoves(s, w);
  }

  /** A worker's step moves that worker alone, and no clock. */
  lemma WorkerFrame(s: Sys, e: Event)
    requires !Outside(e)
    ensures var t := Step(s, e);
      && t.now == s.now && t.outbox == s.outbox && |t.workers| == |s.workers|
      && (forall i :: 0 <= i < |s.workers| && i != e.w ==> t.workers[i] == s.workers[i])
      && (t.workers == s.workers || (e.w < |s.workers| && t.workers == s.workers[e.w := t.workers[e.w]]))
  {
    AnyMoves(s, e);
  }

  lemma CallMessages(s: Sys, w: nat, limit: Option<nat>, reply: Reply)
    ensures StepTakeSlot(s, w, limit).db.messages == s.db.messages
    ensures StepStartCall(s, w).db.messages == s.db.messages
    ensures StepAnswer(s, w, reply).db.messages == s.db.messages
  {
  }

  lemma DeliverMessages(s: Sys, w: nat, task: Task)
    ensures StepDeliver(s, w, task).db.messages == s.db.messages
  {
  }

  lemma RaiseMessages(s: Sys, w: nat)
    ensures StepCrash(s, w).db.messages == s.db.messages
    ensures StepRefuse(s, w).db.messages == s.db.messages
    ensures StepStorageOutage(s, w).db.messages == s.db.messages
    ensures StepUnexpected(s, w).db.messages == s.db.messages
  {
  }

  lemma WorkerMessages(s: Sys, e: Event)
    requires !Outside(e) && !e.Commit?
    ensures Step(s, e).db.messages == s.db.messages
  {
    match e
    case Deliver(w, task) => DeliverMessages(s, w, task);
    case TakeSlot(w, limit) => CallMessages(s, w, limit, NoAnswer);
    case StartCall(w) => CallMessages(s, w, None, NoAnswer);
    case Answer(w, reply) => CallMessages(s, w, None, reply);
    case Crash(w) => RaiseMessages(s, w);
    case Refuse(w) => RaiseMessages(s, w);
    case StorageOutage(w) => RaiseMessages(s, w);
    case Unexpected(w) => RaiseMessages(s, w);
  }
}

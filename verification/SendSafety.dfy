/** How attempts, messages and workers stay coupled over every run of the send machine. */
module SendSafety {
  import opened Types
  import opened SendModel
  import opened SendMachine

  // ---- Rows ----

  /** The provider has confirmed this message and nothing has undone it. */
  predicate ConfirmedRow(row: Message) {
    row.providerId.Some? && Rank(row.status) >= Rank(Sent)
  }

  predicate Coupled(a: Attempt, row: Message) {
    && (a.reservations == 0 <==> a.status in {Pending, Withdrawn})
    && (a.reservations == 0 <==> a.startedAt.None?)
    && (a.reservations == 0 ==> row.providerId.None?)
    && (a.status == Pending ==> row.status == Queued)
    && (a.status == Withdrawn <==> row.status == EmailStatus.Draft)
    && (a.status == Confirmed ==> ConfirmedRow(row))
  }

  ghost predicate RowsOk(db: Db) {
    && (forall m :: m in db.attempts ==> m in db.messages && Coupled(db.attempts[m], db.messages[m]))
    && (forall m :: m in db.messages && m !in db.attempts ==>
          db.messages[m].status == EmailStatus.Draft && db.messages[m].providerId.None?)
  }

  /** What no transaction undoes: a row's existence, its reservations so far, its confirmation. */
  ghost predicate Evolves(db: Db, db': Db) {
    forall m :: m in db.attempts ==>
      && m in db'.attempts && db.attempts[m].reservations <= db'.attempts[m].reservations
      && (m in db.messages && ConfirmedRow(db.messages[m]) ==>
            m in db'.messages && ConfirmedRow(db'.messages[m]))
  }

  // ---- Workers ----

  predicate Settling(todo: seq<Write>) {
    || (|todo| == 1 && todo[0] == ConfirmAttempt)
    || (|todo| == 2 && todo[0].ConfirmMessage? && todo[1] == ConfirmAttempt)
  }

  /** A worker either settles or fails its attempt once, and mark_attempt_failed or the retry comes last. */
  predicate PlanOk(todo: seq<Write>) {
    && todo != []
    && (forall k :: 0 <= k < |todo| && (todo[k].ConfirmMessage? || todo[k] == ConfirmAttempt) ==> Settling(todo))
    && (forall j, k :: 0 <= j < k < |todo| && todo[j] == FailAttempt ==> todo[k] != FailAttempt)
    && (forall k :: 0 <= k < |todo| - 1 ==> todo[k] !in {MarkFailed, Retry})
  }

  /** A worker's attempt exists and was reserved by it; it confirms the message before the attempt. */
  predicate WorkerOk(db: Db, w: Worker) {
    w.Busy? ==>
      && w.task.message in db.attempts && w.task.message in db.messages
      && 1 <= w.ticket <= db.attempts[w.task.message].reservations
      && (w.stage.Winding? ==> PlanOk(w.stage.todo))
      && (w.stage.Winding? && w.stage.todo[0] == ConfirmAttempt ==> ConfirmedRow(db.messages[w.task.message]))
  }

  predicate Rivals(v: Worker, w: Worker) {
    v.Busy? && w.Busy? && v.task.message == w.task.message
  }

  ghost predicate PoolOk(db: Db, ws: seq<Worker>) {
    && (forall i :: 0 <= i < |ws| ==> WorkerOk(db, ws[i]))
    && (forall i, j :: 0 <= i < |ws| && 0 <= j < |ws| && i != j && Rivals(ws[i], ws[j]) ==>
          ws[i].ticket != ws[j].ticket)
  }

  /** Holds in every reachable state, whatever is delivered twice, crashes or is cancelled. */
  ghost predicate Basic(s: Sys) {
    RowsOk(s.db) && PoolOk(s.db, s.workers)
  }

  // ---- Framing lemmas ----

  lemma RowsPut(db: Db, m: nat, a: Attempt, row: Message, db': Db)
    requires RowsOk(db) && Coupled(a, row)
    requires db'.attempts == db.attempts[m := a] && db'.messages == db.messages[m := row]
    requires m in db.attempts ==> db.attempts[m].reservations <= a.reservations
    requires m in db.attempts && ConfirmedRow(db.messages[m]) ==> ConfirmedRow(row)
    ensures RowsOk(db') && Evolves(db, db')
  {
  }

  lemma PoolKept(db: Db, db': Db, ws: seq<Worker>)
    requires PoolOk(db, ws) && RowsOk(db') && Evolves(db, db')
    ensures PoolOk(db', ws)
  {
    forall i | 0 <= i < |ws| ensures WorkerOk(db', ws[i]) {
      assert WorkerOk(db, ws[i]);
    }
  }

  lemma PoolPut(db: Db, ws: seq<Worker>, w: nat, worker: Worker)
    requires PoolOk(db, ws) && w < |ws| && WorkerOk(db, worker)
    requires worker.Busy? ==>
      forall i :: 0 <= i < |ws| && i != w && Rivals(ws[i], worker) ==> ws[i].ticket != worker.ticket
    ensures PoolOk(db, ws[w := worker])
  {
    var ws' := ws[w := worker];
    forall i | 0 <= i < |ws'| ensures WorkerOk(db, ws'[i]) {
      if i != w { assert WorkerOk(db, ws[i]); }
    }
  }

  /** A worker that only moves on keeps its attempt and its ticket. */
  lemma PoolMove(db: Db, ws: seq<Worker>, w: nat, worker: Worker)
    requires PoolOk(db, ws) && w < |ws| && WorkerOk(db, worker)
    requires worker.Busy? ==> ws[w].Busy? && worker.task == ws[w].task && worker.ticket == ws[w].ticket
    ensures PoolOk(db, ws[w := worker])
  {
    if worker.Busy? {
      forall i | 0 <= i < |ws| && i != w && Rivals(ws[i], worker) ensures ws[i].ticket != worker.ticket {
        assert Rivals(ws[i], ws[w]);
      }
    }
    PoolPut(db, ws, w, worker);
  }

  // ---- Every step ----

  lemma BasicCompose(s: Sys, m: nat, at: Option<nat>)
    requires Basic(s)
    ensures Basic(StepCompose(s, m, at))
  {
    if !(m in s.db.messages || m in s.db.attempts) {
      var db' := Composed(s.db, m, at);
      RowsPut(s.db, m, Attempt(Pending, 0, None), Message(Queued, at, None), db');
      PoolKept(s.db, db', s.workers);
    }
  }

  lemma DraftRows(db: Db, m: nat, at: Option<nat>)
    requires RowsOk(db) && m !in db.messages
    ensures RowsOk(DraftCreated(db, m, at)) && Evolves(db, DraftCreated(db, m, at))
  {
  }

  lemma EditedRows(db: Db, m: nat, at: Option<nat>)
    requires RowsOk(db) && m in db.messages
    ensures RowsOk(DraftEdited(db, m, at)) && Evolves(db, DraftEdited(db, m, at))
  {
    if m in db.attempts {
      var db' := DraftEdited(db, m, at);
      RowsPut(db, m, db.attempts[m], db'.messages[m], db');
    }
  }

  lemma BasicSaveDraft(s: Sys, m: nat, at: Option<nat>)
    requires Basic(s)
    ensures Basic(StepSaveDraft(s, m, at))
  {
    if m !in s.db.messages {
      DraftRows(s.db, m, at);
      PoolKept(s.db, DraftCreated(s.db, m, at), s.workers);
    } else if m in s.drafts {
      EditedRows(s.db, m, at);
      PoolKept(s.db, DraftEdited(s.db, m, at), s.workers);
    }
  }

  lemma BasicPromote(s: Sys, m: nat, read: Option<nat>)
    requires Basic(s)
    ensures Basic(StepPromote(s, m, read))
  {
    if CanPromote(s.db, m) {
      var db' := Promoted(s.db, m);
      RowsPut(s.db, m, db'.attempts[m], db'.messages[m], db');
      PoolKept(s.db, db', s.workers);
    }
  }

  lemma BasicCancel(s: Sys, m: nat)
    requires Basic(s)
    ensures Basic(StepCancel(s, m))
  {
    if CanCancel(s.db, m) {
      var db' := CancelWritten(s.db, m);
      RowsPut(s.db, m, db'.attempts[m], db'.messages[m], db');
      PoolKept(s.db, db', s.workers);
    }
  }

  lemma BasicStatus(s: Sys, m: nat, status: EmailStatus)
    requires Basic(s)
    ensures Basic(StepStatus(s, m, status))
  {
    if StepStatus(s, m, status) != s {
      var db' := MessageSet(s.db, m, status);
      RowsPut(s.db, m, s.db.attempts[m], db'.messages[m], db');
      PoolKept(s.db, db', s.workers);
    }
  }

  lemma BasicDeliver(s: Sys, w: nat, task: Task)
    requires Basic(s)
    ensures Basic(StepDeliver(s, w, task))
  {
    var t := StepDeliver(s, w, task);
    if t.workers != s.workers {
      var m := task.message;
      RowsPut(s.db, m, t.db.attempts[m], s.db.messages[m], t.db);
      PoolKept(s.db, t.db, s.workers);
      forall i | 0 <= i < |s.workers| && i != w && Rivals(s.workers[i], t.workers[w])
        ensures s.workers[i].ticket != t.workers[w].ticket
      {
        assert WorkerOk(s.db, s.workers[i]);
      }
      PoolPut(t.db, s.workers, w, t.workers[w]);
    }
  }

  /** Steps of one worker that touch no attempt or message row. */
  lemma BasicQuiet(s: Sys, w: nat, worker: Worker, t: Sys)
    requires Basic(s) && BusyAt(s, w)
    requires t.workers == s.workers[w := worker]
    requires t.db.attempts == s.db.attempts && t.db.messages == s.db.messages
    requires worker.Busy? ==> worker.task == s.workers[w].task && worker.ticket == s.workers[w].ticket
    requires worker.Busy? && worker.stage.Winding? ==>
      PlanOk(worker.stage.todo) && worker.stage.todo[0] != ConfirmAttempt
    ensures Basic(t)
  {
    assert RowsOk(t.db) && Evolves(s.db, t.db);
    PoolKept(s.db, t.db, s.workers);
    assert WorkerOk(s.db, s.workers[w]);
    PoolMove(t.db, s.workers, w, worker);
  }

  lemma BasicStartCall(s: Sys, w: nat)
    requires Basic(s)
    ensures Basic(StepStartCall(s, w))
  {
    if AtStage(s, w, Slotted) {
      var t := StepStartCall(s, w);
      var m := MessageOf(s, w);
      assert WorkerOk(s.db, s.workers[w]);
      RowsPut(s.db, m, t.db.attempts[m], s.db.messages[m], t.db);
      PoolKept(s.db, t.db, s.workers);
      PoolMove(t.db, s.workers, w, t.workers[w]);
    }
  }

  /** A failing write by a worker, on a message it has reserved at least once. */
  lemma FailingRows(db: Db, m: nat, write: Write, now: nat)
    requires RowsOk(db) && m in db.attempts && m in db.messages && db.attempts[m].reservations >= 1
    requires write in {FailAttempt, FailMessage, MarkFailed}
    ensures var db' := Written(db, m, write, now); RowsOk(db') && Evolves(db, db')
  {
    var db' := Written(db, m, write, now);
    RowsPut(db, m, db'.attempts[m], db'.messages[m], db');
  }

  lemma ConfirmingRows(db: Db, m: nat, write: Write, now: nat)
    requires RowsOk(db) && m in db.attempts && m in db.messages && db.attempts[m].reservations >= 1
    requires write.ConfirmMessage? || (write == ConfirmAttempt && ConfirmedRow(db.messages[m]))
    ensures var db' := Written(db, m, write, now);
      RowsOk(db') && Evolves(db, db') && (write.ConfirmMessage? ==> ConfirmedRow(db'.messages[m]))
  {
    var db' := Written(db, m, write, now);
    RowsPut(db, m, db'.attempts[m], db'.messages[m], db');
  }

  lemma WriteRows(db: Db, m: nat, write: Write, now: nat)
    requires RowsOk(db) && m in db.attempts && m in db.messages && db.attempts[m].reservations >= 1
    requires write == ConfirmAttempt ==> ConfirmedRow(db.messages[m])
    ensures var db' := Written(db, m, write, now);
      RowsOk(db') && Evolves(db, db') && (write.ConfirmMessage? ==> ConfirmedRow(db'.messages[m]))
  {
    if write.ConfirmMessage? || write == ConfirmAttempt {
      ConfirmingRows(db, m, write, now);
    } else if write in {FailAttempt, FailMessage, MarkFailed} {
      FailingRows(db, m, write, now);
    }
  }

  lemma PlanTail(todo: seq<Write>)
    requires PlanOk(todo) && |todo| > 1
    ensures PlanOk(todo[1..])
    ensures todo[1] == ConfirmAttempt ==> todo[0].ConfirmMessage?
  {
    if todo[0].ConfirmMessage? || todo[0] == ConfirmAttempt {
      assert Settling(todo);
    }
    forall k | 0 <= k < |todo[1..]| && (todo[1..][k].ConfirmMessage? || todo[1..][k] == ConfirmAttempt)
      ensures Settling(todo[1..])
    {
      assert todo[k + 1].ConfirmMessage? || todo[k + 1] == ConfirmAttempt;
    }
  }

  lemma BasicCommit(s: Sys, w: nat)
    requires Basic(s)
    ensures Basic(StepCommit(s, w))
  {
    if Committing(s, w) {
      var worker, m := s.workers[w], MessageOf(s, w);
      assert WorkerOk(s.db, worker);
      var db' := Written(s.db, m, worker.stage.todo[0], s.now);
      WriteRows(s.db, m, worker.stage.todo[0], s.now);
      PoolKept(s.db, db', s.workers);
      assert WorkerOk(db', worker);
      if |worker.stage.todo| > 1 { PlanTail(worker.stage.todo); }
      PoolMove(db', s.workers, w, MovedOn(worker));
    }
  }

  lemma BasicAnswer(s: Sys, w: nat, reply: Reply)
    requires Basic(s)
    ensures Basic(StepAnswer(s, w, reply))
  {
    var t := StepAnswer(s, w, reply);
    if t != s {
      assert PlanOk(Plan(reply));
      BasicQuiet(s, w, t.workers[w], t);
    }
  }

  lemma BasicTakeSlot(s: Sys, w: nat, limit: Option<nat>)
    requires Basic(s)
    ensures Basic(StepTakeSlot(s, w, limit))
  {
    var t := StepTakeSlot(s, w, limit);
    if t != s { BasicQuiet(s, w, t.workers[w], t); }
  }

  lemma BasicCrash(s: Sys, w: nat)
    requires Basic(s)
    ensures Basic(StepCrash(s, w))
  {
    var t := StepCrash(s, w);
    if t != s { BasicQuiet(s, w, Idle, t); }
  }

  lemma BasicRaise(s: Sys, e: Event)
    requires Basic(s)
    requires e.Refuse? || e.StorageOutage?
    ensures Basic(Step(s, e))
  {
    var t := Step(s, e);
    if t != s { BasicQuiet(s, e.w, t.workers[e.w], t); }
  }

  lemma BasicUnexpected(s: Sys, w: nat)
    requires Basic(s)
    ensures Basic(StepUnexpected(s, w))
  {
    if BusyAt(s, w) { BasicQuiet(s, w, Interrupted(s.workers[w]), StepUnexpected(s, w)); }
  }

  lemma BasicOutside(s: Sys, e: Event)
    requires Basic(s) && Outside(e)
    ensures Basic(Step(s, e))
  {
    match e
    case Tick(_) =>
    case Compose(m, at) => BasicCompose(s, m, at);
    case SaveDraft(m, at) => BasicSaveDraft(s, m, at);
    case Promote(m, read) => BasicPromote(s, m, read);
    case Publish(_) =>
    case Cancel(m) => BasicCancel(s, m);
    case Sweep =>
    case Redeliver(_) =>
    case StatusEvent(m, status) => BasicStatus(s, m, status);
  }

  lemma BasicStep(s: Sys, e: Event)
    requires Basic(s)
    ensures Basic(Step(s, e))
  {
    if Outside(e) {
      BasicOutside(s, e);
    } else {
      match e
      case Deliver(w, task) => BasicDeliver(s, w, task);
      case StartCall(w) => BasicStartCall(s, w);
      case Commit(w) => BasicCommit(s, w);
      case Answer(w, reply) => BasicAnswer(s, w, reply);
      case TakeSlot(w, limit) => BasicTakeSlot(s, w, limit);
      case Crash(w) => BasicCrash(s, w);
      case Refuse(_) => BasicRaise(s, e);
      case StorageOutage(_) => BasicRaise(s, e);
      case Unexpected(w) => BasicUnexpected(s, w);
    }
  }

  lemma {:induction false} BasicRun(s: Sys, es: seq<Event>)
    requires Basic(s)
    ensures Basic(Run(s, es))
    decreases |es|
  {
    if es == [] {
    } else {
      BasicStep(s, es[0]);
      BasicRun(Step(s, es[0]), es[1..]);
    }
  }

  /** In every reachable state: a pending attempt's message is queued, a withdrawn one's is a draft again and never
      had a provider id, and a confirmed one's has a provider id and ranks at least SENT. */
  lemma CouplingHolds(n: nat, es: seq<Event>, m: nat)
    requires m in Run(Init(n), es).db.attempts
    ensures var db := Run(Init(n), es).db;
      && m in db.messages
      && (db.attempts[m].status == Pending ==> db.messages[m].status == Queued)
      && (db.attempts[m].status == Withdrawn <==> db.messages[m].status == EmailStatus.Draft)
      && (db.attempts[m].status == Withdrawn ==> db.messages[m].providerId.None?)
      && (db.attempts[m].status == Confirmed ==>
            db.messages[m].providerId.Some? && Rank(db.messages[m].status) >= Rank(Sent))
  {
    BasicRun(Init(n), es);
  }

  /** The writes of a cancellation that checked PENDING without a lock keep the coupling exactly when, at the time of
      the write, no worker has reserved the attempt. */
  lemma UnlockedCancelIff(s: Sys, m: nat)
    requires Basic(s) && m in s.db.attempts
    ensures Basic(s.(db := CancelWritten(s.db, m))) <==> s.db.attempts[m].status in {Pending, Withdrawn}
  {
    var db' := CancelWritten(s.db, m);
    if s.db.attempts[m].status in {Pending, Withdrawn} {
      RowsPut(s.db, m, db'.attempts[m], db'.messages[m], db');
      PoolKept(s.db, db', s.workers);
    } else {
      assert !Coupled(db'.attempts[m], db'.messages[m]);
    }
  }

  // ---- Which steps touch an attempt ----

  lemma OutsideAttempts(s: Sys, e: Event, m: nat)
    requires Outside(e) && m in s.db.attempts
    ensures m in Step(s, e).db.attempts
    ensures Step(s, e).db.attempts[m] == s.db.attempts[m] || (e == Cancel(m) && CanCancel(s.db, m))
  {
  }

  lemma DeliverAttempts(s: Sys, w: nat, task: Task, m: nat)
    requires m in s.db.attempts
    ensures m in StepDeliver(s, w, task).db.attempts
    ensures || StepDeliver(s, w, task).db.attempts[m] == s.db.attempts[m]
            || (task.message == m && CanReserve(s.db, m))
  {
  }

  lemma CommitAttempts(s: Sys, w: nat, m: nat)
    requires m in s.db.attempts
    ensures m in StepCommit(s, w).db.attempts
    ensures || StepCommit(s, w).db.attempts[m] == s.db.attempts[m]
            || (Committing(s, w) && MessageOf(s, w) == m
                && s.workers[w].stage.todo[0] in {FailAttempt, ConfirmAttempt, MarkFailed})
  {
  }

  lemma WorkerAttempts(s: Sys, e: Event, m: nat)
    requires !Outside(e) && m in s.db.attempts
    ensures m in Step(s, e).db.attempts
    ensures || Step(s, e).db.attempts[m] == s.db.attempts[m]
            || (e.Deliver? && e.task.message == m && CanReserve(s.db, m))
            || (AtStage(s, e.w, Slotted) && e.StartCall? && MessageOf(s, e.w) == m)
            || (Committing(s, e.w) && e.Commit? && MessageOf(s, e.w) == m
                && s.workers[e.w].stage.todo[0] in {FailAttempt, ConfirmAttempt, MarkFailed})
  {
    match e
    case Deliver(w, task) => DeliverAttempts(s, w, task, m);
    case Commit(w) => CommitAttempts(s, w, m);
    case _ =>
  }

  /** Cancelling is for good: no run moves the attempt again, makes the message anything but a draft, or gives it
      to a worker. Promoting the draft collides with the attempt it already has. */
  lemma {:induction false} WithdrawnForever(s: Sys, es: seq<Event>, m: nat)
    requires Basic(s) && m in s.db.attempts && s.db.attempts[m].status == Withdrawn
    ensures var t := Run(s, es);
      && m in t.db.attempts && t.db.attempts[m].status == Withdrawn
      && m in t.db.messages && t.db.messages[m].status == EmailStatus.Draft
      && !CanPromote(t.db, m)
      && forall i :: 0 <= i < |t.workers| && t.workers[i].Busy? ==> t.workers[i].task.message != m
    decreases |es|
  {
    forall i | 0 <= i < |s.workers| && s.workers[i].Busy? ensures s.workers[i].task.message != m {
      assert WorkerOk(s.db, s.workers[i]);
    }
    if es == [] {
    } else {
      BasicStep(s, es[0]);
      if Outside(es[0]) { OutsideAttempts(s, es[0], m); } else { WorkerAttempts(s, es[0], m); }
      WithdrawnForever(Step(s, es[0]), es[1..], m);
    }
  }
}

/** What a deployment gets that keeps a single copy of each message's task. */
module SendCopies {
  import opened SendModel
  import opened SendMachine
  import opened SendSafety
  import opened SendExclusive

  predicate BusyOn(s: Sys, i: nat, m: nat) {
    i < |s.workers| && s.workers[i].Busy? && s.workers[i].task.message == m
  }

  /** A task of the message is queued or with a worker. */
  ghost predicate Outstanding(s: Sys, m: nat) {
    || (exists task :: task in s.tasks && task.message == m)
    || (exists i :: BusyOn(s, i, m))
  }

  ghost predicate QueuedOnce(s: Sys) {
    forall t, u :: t in s.tasks && u in s.tasks && t.message == u.message ==> t == u && s.tasks[t] == 1
  }

  ghost predicate QueuedOrBusy(s: Sys) {
    forall t, i :: t in s.tasks ==> !BusyOn(s, i, t.message)
  }

  ghost predicate OneWorkerEach(s: Sys) {
    forall i, j, m :: BusyOn(s, i, m) && BusyOn(s, j, m) ==> i == j
  }

  /** At most one task of each message is queued or with a worker. */
  ghost predicate OneCopy(s: Sys) {
    QueuedOnce(s) && QueuedOrBusy(s) && OneWorkerEach(s)
  }

  /** A second copy appears: the broker delivers a running task again, or a callback or a sweep enqueues a message whose
      task is still outstanding. */
  ghost predicate Duplicates(s: Sys, e: Event) {
    || (e.Redeliver? && BusyAt(s, e.w))
    || (e.Publish? && e.m in s.outbox && DueBy(s.outbox[e.m], s.now) && Outstanding(s, e.m))
    || (e.Sweep? && exists m :: m in DueNow(s) && Outstanding(s, m))
  }

  // ---- Where copies come from ----

  /** Tasks only leave the queue, and workers only finish. */
  lemma FewerCopies(s: Sys, t: Sys)
    requires OneCopy(s) && (forall task :: t.tasks[task] <= s.tasks[task])
    requires forall i, m :: BusyOn(t, i, m) ==> BusyOn(s, i, m)
    ensures OneCopy(t)
  {
    assert forall task :: task in t.tasks ==> task in s.tasks;
  }

  lemma CopiesWorker(s: Sys, e: Event)
    requires OneCopy(s) && !Outside(e) && !e.Deliver? && !e.Crash? && !e.Commit?
    ensures OneCopy(Step(s, e))
  {
    WorkerFrame(s, e);
    if e.w < |s.workers| && Step(s, e).workers[e.w].Busy? && !e.StartCall? { TicketKept(s, e); }
    QueueKept(s, e);
    FewerCopies(s, Step(s, e));
  }

  lemma QueueKept(s: Sys, e: Event)
    requires !Outside(e) && !e.Deliver? && !e.Crash? && !e.Commit?
    ensures Step(s, e).tasks == s.tasks
  {
  }

  /** A task that was queued once leaves the queue, and perhaps an idle worker has it now. */
  lemma CopiesTaken(s: Sys, t: Sys, w: nat, task: Task)
    requires OneCopy(s) && task in s.tasks && t.tasks == s.tasks - multiset{task}
    requires forall i, m :: BusyOn(t, i, m) ==> BusyOn(s, i, m) || (i == w && m == task.message)
    requires w < |s.workers| && s.workers[w].Idle?
    ensures OneCopy(t)
  {
    assert s.tasks[task] == 1;
    assert forall u :: u in t.tasks ==> u in s.tasks && t.tasks[u] <= s.tasks[u] && u != task;
    assert forall i :: !BusyOn(s, i, task.message);
    assert forall m :: !BusyOn(s, w, m);
  }

  lemma CopiesDeliver(s: Sys, w: nat, task: Task)
    requires OneCopy(s)
    ensures OneCopy(StepDeliver(s, w, task))
  {
    var t := StepDeliver(s, w, task);
    if t != s { CopiesTaken(s, t, w, task); }
  }

  /** One copy of task comes back to the queue as its worker ends. */
  lemma CopiesReturn(s: Sys, t: Sys, w: nat, task: Task)
    requires OneCopy(s) && BusyOn(s, w, task.message)
    requires t.tasks == s.tasks + multiset{task} && t.workers == s.workers[w := Idle]
    ensures OneCopy(t)
  {
    assert forall i, m :: BusyOn(t, i, m) ==> BusyOn(s, i, m) && i != w;
    assert forall u :: u in t.tasks ==> u in s.tasks || u == task;
    assert task !in s.tasks;
  }

  lemma CopiesCrash(s: Sys, w: nat)
    requires OneCopy(s)
    ensures OneCopy(StepCrash(s, w))
  {
    if BusyAt(s, w) { CopiesReturn(s, StepCrash(s, w), w, s.workers[w].task); }
  }

  /** The retry is a worker's last write, so its task is the only copy again. */
  lemma CopiesCommit(s: Sys, w: nat)
    requires Basic(s) && OneCopy(s)
    ensures OneCopy(StepCommit(s, w))
  {
    if Committing(s, w) {
      var t, worker := StepCommit(s, w), s.workers[w];
      assert WorkerOk(s.db, worker);
      if worker.stage.todo[0] == Retry && worker.task.retries < MAX_RETRIES {
        CopiesReturn(s, t, w, Task(worker.task.message, worker.task.retries + 1));
      } else {
        FewerCopies(s, t);
      }
    }
  }

  lemma CopiesPublishBreaks(s: Sys, m: nat)
    requires m in s.outbox && DueBy(s.outbox[m], s.now) && Outstanding(s, m)
    ensures !OneCopy(StepPublish(s, m))
  {
    var t := StepPublish(s, m);
    assert t.tasks == s.tasks + multiset{Task(m, 0)} && Task(m, 0) in t.tasks;
    if u :| u in s.tasks && u.message == m {
      assert u in t.tasks;
      if u == Task(m, 0) { assert t.tasks[u] > 1; }
    } else {
      var i :| BusyOn(s, i, m);
      assert BusyOn(t, i, Task(m, 0).message);
    }
  }

  lemma CopiesPublishKeeps(s: Sys, m: nat)
    requires OneCopy(s) && !Duplicates(s, Publish(m))
    ensures OneCopy(StepPublish(s, m))
  {
    var t := StepPublish(s, m);
    assert forall i, k :: BusyOn(t, i, k) <==> BusyOn(s, i, k);
    if m in s.outbox && DueBy(s.outbox[m], s.now) {
      assert t.tasks == s.tasks + multiset{Task(m, 0)};
      assert forall u :: u in t.tasks ==> u in s.tasks || u == Task(m, 0);
      assert Task(m, 0) !in s.tasks && forall i :: !BusyOn(s, i, m);
    }
  }

  lemma SweptTasks(s: Sys, task: Task)
    ensures task in FreshTasks(DueNow(s)) <==> task.retries == 0 && task.message in DueNow(s)
    ensures FreshTasks(DueNow(s))[task] <= 1
  {
  }

  lemma CopiesSweepBreaks(s: Sys, m: nat)
    requires m in DueNow(s) && Outstanding(s, m)
    ensures !OneCopy(StepSweep(s))
  {
    var t := StepSweep(s);
    SweptTasks(s, Task(m, 0));
    assert Task(m, 0) in t.tasks;
    if u :| u in s.tasks && u.message == m {
      assert u in t.tasks;
      if u == Task(m, 0) { assert t.tasks[u] > 1; }
    } else {
      var i :| BusyOn(s, i, m);
      assert BusyOn(t, i, Task(m, 0).message);
    }
  }

  lemma CopiesSweepKeeps(s: Sys)
    requires OneCopy(s) && !Duplicates(s, Sweep)
    ensures OneCopy(StepSweep(s))
  {
    var t := StepSweep(s);
    forall task ensures task in t.tasks <==> task in s.tasks || (task.retries == 0 && task.message in DueNow(s)) {
      SweptTasks(s, task);
    }
    forall task | task in t.tasks ensures t.tasks[task] == 1 {
      SweptTasks(s, task);
    }
    assert forall i, m :: BusyOn(t, i, m) <==> BusyOn(s, i, m);
  }

  lemma CopiesRedeliver(s: Sys, w: nat)
    requires OneCopy(s)
    ensures OneCopy(Step(s, Redeliver(w))) <==> !Duplicates(s, Redeliver(w))
  {
    if BusyAt(s, w) {
      var t := Step(s, Redeliver(w));
      assert s.workers[w].task in t.tasks && BusyOn(t, w, s.workers[w].task.message);
    }
  }

  /** Exactly which steps bring a second copy of a message's task into the system. */
  lemma OneCopyIff(s: Sys, e: Event)
    requires Basic(s) && OneCopy(s)
    ensures OneCopy(Step(s, e)) <==> !Duplicates(s, e)
  {
    match e
    case Publish(m) => if Duplicates(s, e) { CopiesPublishBreaks(s, m); } else { CopiesPublishKeeps(s, m); }
    case Sweep =>
      if m :| m in DueNow(s) && Outstanding(s, m) { CopiesSweepBreaks(s, m); } else { CopiesSweepKeeps(s); }
    case Redeliver(w) => CopiesRedeliver(s, w);
    case Deliver(w, task) => CopiesDeliver(s, w, task);
    case Crash(w) => CopiesCrash(s, w);
    case Commit(w) => CopiesCommit(s, w);
    case _ => if Outside(e) { CopiesOutside(s, e); } else { CopiesWorker(s, e); }
  }

  lemma CopiesOutside(s: Sys, e: Event)
    requires OneCopy(s) && Outside(e) && !e.Publish? && !e.Sweep? && !e.Redeliver?
    ensures OneCopy(Step(s, e))
  {
    OutsideFrame(s, e);
    FewerCopies(s, Step(s, e));
  }

  // ---- One copy keeps every mark harmless ----

  ghost predicate AllCurrent(s: Sys) {
    forall i :: 0 <= i < |s.workers| && s.workers[i].Busy? ==> Current(s.db, s.workers[i])
  }

  predicate SettlesIfConfirmed(s: Sys, w: Worker) {
    w.Busy? && InLedger(s, w.task.message) ==> w.stage.Winding? && Settling(w.stage.todo)
  }

  /** The worker of a confirmed message is writing that down and nothing else. */
  ghost predicate Tidy(s: Sys) {
    forall i :: 0 <= i < |s.workers| ==> SettlesIfConfirmed(s, s.workers[i])
  }

  ghost predicate Orderly(s: Sys) {
    Basic(s) && Exclusive(s) && Once(s) && OneCopy(s) && AllCurrent(s) && Tidy(s)
  }

  lemma OrderlyMarks(s: Sys, e: Event)
    requires Orderly(s)
    ensures !LateMark(s, e) && !UndoingMark(s, e)
  {
    if Marking(s, e) {
      var m := MessageOf(s, e.w);
      assert SettlesIfConfirmed(s, s.workers[e.w]) && BusyOn(s, e.w, m);
      forall i: nat | Holds(s, i, m) ensures i == e.w { assert BusyOn(s, i, m); }
    }
  }

  lemma ReservationsKept(s: Sys, e: Event, m: nat)
    requires !e.Deliver? && m in s.db.attempts
    ensures m in Step(s, e).db.attempts
    ensures Step(s, e).db.attempts[m].reservations == s.db.attempts[m].reservations
  {
    if Outside(e) { OutsideAttempts(s, e, m); } else { WorkerAttempts(s, e, m); }
  }

  lemma CurrentDeliver(s: Sys, w: nat, task: Task)
    requires AllCurrent(s) && OneCopy(s)
    ensures AllCurrent(StepDeliver(s, w, task))
  {
    var t := StepDeliver(s, w, task);
    if t.workers != s.workers {
      forall i | 0 <= i < |t.workers| && t.workers[i].Busy? ensures Current(t.db, t.workers[i]) {
        if i != w {
          assert Current(s.db, s.workers[i]);
          assert !BusyOn(s, i, task.message);
        }
      }
    }
  }

  /** A worker that goes on keeps its task and its ticket. */
  lemma GoesOn(s: Sys, e: Event, i: nat)
    requires !e.Deliver? && i < |Step(s, e).workers| && Step(s, e).workers[i].Busy?
    ensures |Step(s, e).workers| == |s.workers|
    ensures var v, v' := s.workers[i], Step(s, e).workers[i];
      v.Busy? && v.task == v'.task && v.ticket == v'.ticket
  {
    if Outside(e) {
      OutsideFrame(s, e);
    } else {
      WorkerFrame(s, e);
      if i == e.w {
        if e.Commit? {
          if Committing(s, i) { assert Step(s, e).workers[i] == MovedOn(s.workers[i]); }
        } else if !e.StartCall? {
          TicketKept(s, e);
        }
      }
    }
  }

  lemma CurrentStep(s: Sys, e: Event)
    requires AllCurrent(s) && OneCopy(s)
    ensures AllCurrent(Step(s, e))
  {
    if e.Deliver? {
      CurrentDeliver(s, e.w, e.task);
    } else {
      var t := Step(s, e);
      forall i | 0 <= i < |t.workers| && t.workers[i].Busy? ensures Current(t.db, t.workers[i]) {
        GoesOn(s, e, i);
        assert Current(s.db, s.workers[i]);
        ReservationsKept(s, e, s.workers[i].task.message);
      }
    }
  }

  lemma TidyAccepted(s: Sys, w: nat, id: string)
    requires OneCopy(s) && Tidy(s)
    ensures Tidy(StepAnswer(s, w, Accepted(id)))
  {
    var t := StepAnswer(s, w, Accepted(id));
    if t != s {
      var m := MessageOf(s, w);
      assert forall k :: InLedger(t, k) ==> InLedger(s, k) || k == m;
      assert BusyOn(s, w, m);
      forall i | 0 <= i < |t.workers| ensures SettlesIfConfirmed(t, t.workers[i]) {
        if i != w {
          assert SettlesIfConfirmed(s, s.workers[i]) && !BusyOn(s, i, m);
        }
      }
    }
  }

  lemma TidyDeliver(s: Sys, w: nat, task: Task)
    requires Once(s) && Tidy(s)
    ensures Tidy(StepDeliver(s, w, task))
  {
    var t := StepDeliver(s, w, task);
    assert t.ledger == s.ledger && forall k :: InLedger(t, k) <==> InLedger(s, k);
    forall i | 0 <= i < |t.workers| ensures SettlesIfConfirmed(t, t.workers[i]) {
      if i != w { assert SettlesIfConfirmed(s, s.workers[i]); }
    }
  }

  lemma TidyCommit(s: Sys, w: nat)
    requires Tidy(s)
    ensures Tidy(StepCommit(s, w))
  {
    var t := StepCommit(s, w);
    assert t.ledger == s.ledger && forall k :: InLedger(t, k) <==> InLedger(s, k);
    forall i | 0 <= i < |t.workers| ensures SettlesIfConfirmed(t, t.workers[i]) {
      assert SettlesIfConfirmed(s, s.workers[i]);
    }
  }

  /** No other step moves a worker that is settling, except a crash. */
  lemma SettlingStays(s: Sys, e: Event)
    requires !Outside(e) && !e.Commit? && !e.Deliver? && !SaveFails(s, e)
    requires e.w < |s.workers| == |Step(s, e).workers|
    requires s.workers[e.w].Busy? && s.workers[e.w].stage.Winding? && Settling(s.workers[e.w].stage.todo)
    ensures Step(s, e).workers[e.w] == s.workers[e.w] || Step(s, e).workers[e.w] == Idle
  {
  }

  lemma LedgerKept(s: Sys, e: Event)
    requires !(e.Answer? && e.reply.Accepted?)
    ensures Step(s, e).ledger == s.ledger
  {
  }

  lemma TidyOther(s: Sys, e: Event)
    requires Tidy(s) && !SaveFails(s, e) && !e.Commit? && !e.Deliver? && !(e.Answer? && e.reply.Accepted?)
    ensures Tidy(Step(s, e))
  {
    var t := Step(s, e);
    LedgerKept(s, e);
    assert forall k :: InLedger(t, k) <==> InLedger(s, k);
    forall i | 0 <= i < |t.workers| && t.workers[i].Busy? && InLedger(t, t.workers[i].task.message)
      ensures SettlesIfConfirmed(t, t.workers[i])
    {
      GoesOn(s, e, i);
      assert SettlesIfConfirmed(s, s.workers[i]);
      if Outside(e) {
        OutsideFrame(s, e);
      } else {
        WorkerFrame(s, e);
        if i == e.w { SettlingStays(s, e); }
      }
    }
  }

  lemma TidyStep(s: Sys, e: Event)
    requires Once(s) && OneCopy(s) && Tidy(s) && !SaveFails(s, e)
    ensures Tidy(Step(s, e))
  {
    match e
    case Deliver(w, task) => TidyDeliver(s, w, task);
    case Commit(w) => TidyCommit(s, w);
    case Answer(w, reply) => if reply.Accepted? { TidyAccepted(s, w, reply.id); } else { TidyOther(s, e); }
    case _ => TidyOther(s, e);
  }

  lemma OrderlyStep(s: Sys, e: Event)
    requires Orderly(s) && !Duplicates(s, e) && !SaveFails(s, e)
    ensures Orderly(Step(s, e))
  {
    OrderlyMarks(s, e);
    BasicStep(s, e);
    ExclusiveIff(s, e);
    OnceIff(s, e);
    OneCopyIff(s, e);
    CurrentStep(s, e);
    TidyStep(s, e);
  }

  ghost predicate SingleCopyRun(s: Sys, es: seq<Event>)
    decreases |es|
  {
    es == [] || (!Duplicates(s, es[0]) && !SaveFails(s, es[0]) && SingleCopyRun(Step(s, es[0]), es[1..]))
  }

  lemma {:induction false} OrderlyRun(s: Sys, es: seq<Event>)
    requires Orderly(s) && SingleCopyRun(s, es)
    ensures Orderly(Run(s, es)) && NoLateMarks(s, es) && NoUndoingMarks(s, es)
    decreases |es|
  {
    if es == [] {
    } else {
      OrderlyMarks(s, es[0]);
      OrderlyStep(s, es[0]);
      OrderlyRun(Step(s, es[0]), es[1..]);
    }
  }

  /** A deployment that never has two copies of a message's task, and whose database saves every confirmation, has no
      harmful mark at all, whatever crashes, fails or is retried: each attempt has at most one worker, and each message
      is confirmed at most once and never reserved again. */
  lemma OneCopySuffices(n: nat, es: seq<Event>, i: nat, j: nat, m: nat)
    requires SingleCopyRun(Init(n), es)
    ensures NoLateMarks(Init(n), es) && NoUndoingMarks(Init(n), es)
    ensures var s := Run(Init(n), es);
      && (Holds(s, i, m) && Holds(s, j, m) ==> i == j)
      && (i < |s.ledger| && j < |s.ledger| && s.ledger[i].message == s.ledger[j].message ==> i == j)
      && (InLedger(s, m) ==> !CanReserve(s.db, m))
  {
    OrderlyRun(Init(n), es);
    var s := Run(Init(n), es);
    if Holds(s, i, m) && Holds(s, j, m) { OneHolder(s, i, j, m); }
  }
}

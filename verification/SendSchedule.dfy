/** When scheduled sends are never early, over every run of the send machine. */
module SendSchedule {
  import opened Types
  import opened SendModel
  import opened SendMachine
  import opened SendSafety

  /** A task may exist for a message only once it is due, or after its attempt has been withdrawn. */
  predicate MaySend(db: Db, m: nat, now: nat) {
    && m in db.attempts && m in db.messages
    && (db.attempts[m].status == Withdrawn || DueBy(db.messages[m].scheduledAt, now))
  }

  /** A callback that goes by the time `read` never enqueues a message before the time `stored`. */
  predicate Covered(read: Option<nat>, stored: Option<nat>, now: nat) {
    stored.Some? && stored.value > now ==> read.Some? && stored.value <= read.value
  }

  predicate Remembered(db: Db, m: nat, read: Option<nat>, now: nat) {
    && m in db.attempts && m in db.messages
    && (db.attempts[m].status == Withdrawn || Covered(read, db.messages[m].scheduledAt, now))
  }

  predicate MaySendWorker(s: Sys, w: Worker) {
    w.Busy? ==> MaySend(s.db, w.task.message, s.now)
  }

  /** No attempt has been reserved before its time, and nothing under way can still cause that. */
  ghost predicate Punctual(s: Sys) {
    && (forall task :: task in s.tasks ==> MaySend(s.db, task.message, s.now))
    && (forall i :: 0 <= i < |s.workers| ==> MaySendWorker(s, s.workers[i]))
    && (forall m :: m in s.outbox ==> Remembered(s.db, m, s.outbox[m], s.now))
    && s.early == {}
  }

  // ---- The two ways to be early ----

  /** A promotion goes by a time it has read before an edit postponed the draft. */
  predicate Hastens(s: Sys, e: Event) {
    && e.Promote? && CanPromote(s.db, e.m)
    && !Covered(e.read, s.db.messages[e.m].scheduledAt, s.now)
  }

  ghost predicate UnderWay(s: Sys, m: nat) {
    || (exists task :: task in s.tasks && task.message == m)
    || (exists i :: 0 <= i < |s.workers| && s.workers[i].Busy? && s.workers[i].task.message == m)
  }

  /** A late save of an edited draft postpones a message whose send is under way already. */
  ghost predicate Postpones(s: Sys, e: Event) {
    && e.SaveDraft? && e.m in s.drafts && e.m in s.db.attempts && e.m in s.db.messages
    && s.db.attempts[e.m].status != Withdrawn
    && ((UnderWay(s, e.m) && !DueBy(e.at, s.now)) || (e.m in s.outbox && !Covered(s.outbox[e.m], e.at, s.now)))
  }

  /** The step leaves the time of a message with an attempt alone, except to withdraw it. */
  predicate Settled(db: Db, db': Db, m: nat) {
    m in db.attempts && m in db.messages ==>
      && m in db'.attempts && m in db'.messages
      && (db.attempts[m].status == Withdrawn ==> db'.attempts[m].status == Withdrawn)
      && (db'.attempts[m].status == Withdrawn || db'.messages[m].scheduledAt == db.messages[m].scheduledAt)
  }

  lemma SettledApi(s: Sys, e: Event, m: nat)
    requires RowsOk(s.db) && (e.Compose? || e.Promote? || e.Cancel?)
    ensures Settled(s.db, Step(s, e).db, m)
  {
  }

  lemma SettledOutside(s: Sys, e: Event, m: nat)
    requires RowsOk(s.db) && Outside(e) && !e.SaveDraft?
    ensures Settled(s.db, Step(s, e).db, m)
  {
    if e.Compose? || e.Promote? || e.Cancel? { SettledApi(s, e, m); }
  }

  lemma SettledCommit(s: Sys, w: nat, m: nat)
    requires Basic(s)
    ensures Settled(s.db, StepCommit(s, w).db, m)
  {
    if Committing(s, w) { assert WorkerOk(s.db, s.workers[w]); }
  }

  lemma SettledWorker(s: Sys, e: Event, m: nat)
    requires Basic(s) && !Outside(e) && !e.Commit?
    ensures Settled(s.db, Step(s, e).db, m)
  {
    WorkerMessages(s, e);
    if m in s.db.attempts { WorkerAttempts(s, e, m); }
    if e.w < |s.workers| { assert WorkerOk(s.db, s.workers[e.w]); }
  }

  lemma SettledStep(s: Sys, e: Event, m: nat)
    requires Basic(s) && !e.SaveDraft?
    ensures Settled(s.db, Step(s, e).db, m)
  {
    if Outside(e) {
      SettledOutside(s, e, m);
    } else if e.Commit? {
      SettledCommit(s, e.w, m);
    } else {
      SettledWorker(s, e, m);
    }
  }

  // ---- Every other step ----

  /** Every task a step adds is for a message that is due, or copies one that was there. */
  lemma NewTasksOutside(s: Sys, e: Event, task: Task)
    requires Basic(s) && Punctual(s) && Outside(e) && task in Step(s, e).tasks
    ensures MaySend(s.db, task.message, s.now)
  {
    if e.Sweep? && task !in s.tasks {
      assert task in FreshTasks(DueNow(s));
    } else if e.Redeliver? && task !in s.tasks {
      assert MaySendWorker(s, s.workers[e.w]);
    } else if e.Publish? && task !in s.tasks {
      assert Remembered(s.db, e.m, s.outbox[e.m], s.now);
    }
  }

  lemma NewTasksLeft(s: Sys, w: nat, task: Task)
    requires Punctual(s) && (task in StepCrash(s, w).tasks || task in StepCommit(s, w).tasks)
    ensures MaySend(s.db, task.message, s.now)
  {
    if task !in s.tasks { assert MaySendWorker(s, s.workers[w]); }
  }

  lemma NewTasksTaken(s: Sys, w: nat, taken: Task, task: Task)
    requires Punctual(s) && task in StepDeliver(s, w, taken).tasks
    ensures MaySend(s.db, task.message, s.now)
  {
  }

  lemma QueueUnmoved(s: Sys, e: Event)
    requires !Outside(e) && !e.Deliver? && !e.Crash? && !e.Commit?
    ensures Step(s, e).tasks == s.tasks
  {
  }

  lemma NewTasksWorker(s: Sys, e: Event, task: Task)
    requires Punctual(s) && !Outside(e) && task in Step(s, e).tasks
    ensures MaySend(s.db, task.message, s.now)
  {
    if e.Crash? || e.Commit? {
      NewTasksLeft(s, e.w, task);
    } else if e.Deliver? {
      NewTasksTaken(s, e.w, e.task, task);
    } else {
      QueueUnmoved(s, e);
    }
  }

  lemma PunctualTasks(s: Sys, e: Event, task: Task)
    requires Basic(s) && Punctual(s) && !e.SaveDraft? && task in Step(s, e).tasks
    ensures MaySend(Step(s, e).db, task.message, Step(s, e).now)
  {
    if Outside(e) {
      NewTasksOutside(s, e, task);
      OutsideFrame(s, e);
    } else {
      NewTasksWorker(s, e, task);
      WorkerFrame(s, e);
    }
    SettledStep(s, e, task.message);
  }

  lemma PunctualWorker(s: Sys, e: Event, i: nat)
    requires Basic(s) && Punctual(s) && !e.SaveDraft? && i < |Step(s, e).workers|
    ensures MaySendWorker(Step(s, e), Step(s, e).workers[i])
  {
    var worker := Step(s, e).workers[i];
    if worker.Busy? {
      SettledStep(s, e, worker.task.message);
      if Outside(e) {
        OutsideFrame(s, e);
        assert MaySendWorker(s, s.workers[i]);
      } else {
        WorkerFrame(s, e);
        if i == e.w { AnyMoves(s, e); }
        assert MaySendWorker(s, s.workers[i]);
      }
    }
  }

  /** Only a compose and a promotion put a callback into the outbox. */
  lemma OutboxOutside(s: Sys, e: Event, m: nat)
    requires Outside(e) && !e.Compose? && !e.Promote? && m in Step(s, e).outbox
    ensures m in s.outbox && Step(s, e).outbox[m] == s.outbox[m]
  {
  }

  lemma OutboxComposed(s: Sys, m: nat, at: Option<nat>, k: nat)
    requires Basic(s) && Punctual(s) && k in StepCompose(s, m, at).outbox
    ensures var t := StepCompose(s, m, at); Remembered(t.db, k, t.outbox[k], t.now)
  {
    if k in s.outbox { assert Remembered(s.db, k, s.outbox[k], s.now); }
  }

  lemma OutboxPromoted(s: Sys, m: nat, read: Option<nat>, k: nat)
    requires Basic(s) && Punctual(s) && !Hastens(s, Promote(m, read)) && k in StepPromote(s, m, read).outbox
    ensures var t := StepPromote(s, m, read); Remembered(t.db, k, t.outbox[k], t.now)
  {
    if k in s.outbox { assert Remembered(s.db, k, s.outbox[k], s.now); }
  }

  lemma PunctualOutbox(s: Sys, e: Event, m: nat)
    requires Basic(s) && Punctual(s) && !e.SaveDraft? && !Hastens(s, e) && m in Step(s, e).outbox
    ensures Remembered(Step(s, e).db, m, Step(s, e).outbox[m], Step(s, e).now)
  {
    if e.Compose? {
      OutboxComposed(s, e.m, e.at, m);
    } else if e.Promote? {
      OutboxPromoted(s, e.m, e.read, m);
    } else {
      if Outside(e) {
        OutsideFrame(s, e);
        OutboxOutside(s, e, m);
      } else {
        WorkerFrame(s, e);
      }
      assert Remembered(s.db, m, s.outbox[m], s.now);
      SettledStep(s, e, m);
    }
  }

  lemma EarlyDeliver(s: Sys, w: nat, task: Task)
    requires Punctual(s)
    ensures StepDeliver(s, w, task).early == {}
  {
    if task in s.tasks { assert MaySend(s.db, task.message, s.now); }
  }

  lemma EarlyKept(s: Sys, e: Event)
    requires !e.Deliver?
    ensures Step(s, e).early == s.early
  {
  }

  lemma PunctualKept(s: Sys, e: Event)
    requires Basic(s) && Punctual(s) && !e.SaveDraft? && !Hastens(s, e)
    ensures Punctual(Step(s, e))
  {
    var t := Step(s, e);
    forall task | task in t.tasks ensures MaySend(t.db, task.message, t.now) {
      PunctualTasks(s, e, task);
    }
    forall i | 0 <= i < |t.workers| ensures MaySendWorker(t, t.workers[i]) {
      PunctualWorker(s, e, i);
    }
    forall m | m in t.outbox ensures Remembered(t.db, m, t.outbox[m], t.now) {
      PunctualOutbox(s, e, m);
    }
    if e.Deliver? { EarlyDeliver(s, e.w, e.task); } else { EarlyKept(s, e); }
  }

  lemma HastyPromotion(s: Sys, e: Event)
    requires Hastens(s, e)
    ensures !Punctual(Step(s, e))
  {
    var t := Step(s, e);
    assert e.m in t.outbox && !Remembered(t.db, e.m, t.outbox[e.m], t.now);
  }

  // ---- Saves of edited drafts ----

  lemma SaveFrame(s: Sys, m: nat, at: Option<nat>)
    ensures var t := StepSaveDraft(s, m, at);
      && t.tasks == s.tasks && t.workers == s.workers && t.outbox == s.outbox && t.now == s.now && t.early == s.early
      && t.db.attempts == s.db.attempts
      && (forall k :: k in s.db.messages && k != m ==> k in t.db.messages && t.db.messages[k] == s.db.messages[k])
      && (m in s.db.messages && m !in s.drafts ==> t == s)
      && (m in s.db.messages && m in s.drafts ==> m in t.db.messages && t.db.messages[m].scheduledAt == at)
  {
  }

  lemma SaveKeeps(s: Sys, m: nat, at: Option<nat>)
    requires RowsOk(s.db) && Punctual(s) && !Postpones(s, SaveDraft(m, at))
    ensures Punctual(StepSaveDraft(s, m, at))
  {
    var t := StepSaveDraft(s, m, at);
    SaveFrame(s, m, at);
    forall task | task in t.tasks ensures MaySend(t.db, task.message, t.now) {
      assert MaySend(s.db, task.message, s.now);
    }
    forall i | 0 <= i < |t.workers| ensures MaySendWorker(t, t.workers[i]) {
      assert MaySendWorker(s, s.workers[i]);
    }
    forall k | k in t.outbox ensures Remembered(t.db, k, t.outbox[k], t.now) {
      assert Remembered(s.db, k, s.outbox[k], s.now);
    }
  }

  lemma SaveBreaks(s: Sys, m: nat, at: Option<nat>)
    requires Postpones(s, SaveDraft(m, at))
    ensures !Punctual(StepSaveDraft(s, m, at))
  {
    var t := StepSaveDraft(s, m, at);
    SaveFrame(s, m, at);
    if UnderWay(s, m) && !DueBy(at, s.now) {
      assert !MaySend(t.db, m, t.now);
      if task :| task in s.tasks && task.message == m {
        assert task in t.tasks;
      } else {
        var i :| 0 <= i < |s.workers| && s.workers[i].Busy? && s.workers[i].task.message == m;
        assert !MaySendWorker(t, t.workers[i]);
      }
    } else {
      assert m in t.outbox && !Remembered(t.db, m, t.outbox[m], t.now);
    }
  }

  /** Exactly which steps can make a send early: a promotion that has read an earlier time than the draft has by now,
      and a late save that postpones a message whose send is under way. */
  lemma PunctualIff(s: Sys, e: Event)
    requires Basic(s) && Punctual(s)
    ensures Punctual(Step(s, e)) <==> !Hastens(s, e) && !Postpones(s, e)
  {
    if e.SaveDraft? {
      if Postpones(s, e) { SaveBreaks(s, e.m, e.at); } else { SaveKeeps(s, e.m, e.at); }
    } else if Hastens(s, e) {
      HastyPromotion(s, e);
    } else {
      PunctualKept(s, e);
    }
  }

  ghost predicate Unhurried(s: Sys, es: seq<Event>)
    decreases |es|
  {
    es == [] || (!Hastens(s, es[0]) && !Postpones(s, es[0]) && Unhurried(Step(s, es[0]), es[1..]))
  }

  lemma {:induction false} PunctualRun(s: Sys, es: seq<Event>)
    requires Basic(s) && Punctual(s) && Unhurried(s, es)
    ensures Basic(Run(s, es)) && Punctual(Run(s, es))
    decreases |es|
  {
    if es == [] {
    } else {
      BasicStep(s, es[0]);
      PunctualIff(s, es[0]);
      PunctualRun(Step(s, es[0]), es[1..]);
    }
  }

  /** In every run without such a promotion or save, whatever is composed, swept, cancelled, retried and delivered: no
      attempt is ever reserved before its message's time, and a queued task is for a message that is unscheduled, due,
      or withdrawn. */
  lemma NeverEarly(n: nat, es: seq<Event>, task: Task)
    requires Unhurried(Init(n), es)
    ensures Run(Init(n), es).early == {}
    ensures var s := Run(Init(n), es); task in s.tasks ==> MaySend(s.db, task.message, s.now)
  {
    PunctualRun(Init(n), es);
  }

  predicate ReadsAfresh(s: Sys, e: Event) {
    && (e.Promote? && CanPromote(s.db, e.m) ==> e.read == s.db.messages[e.m].scheduledAt)
    && (e.SaveDraft? ==> e.m !in s.db.attempts || s.db.attempts[e.m].status == Withdrawn)
  }

  /** Promotions that read the time they promote with, and saves that land before any attempt exists, never hurry. */
  lemma FreshReadsNeverHurry(s: Sys, e: Event)
    requires ReadsAfresh(s, e)
    ensures !Hastens(s, e) && !Postpones(s, e)
  {
  }
}

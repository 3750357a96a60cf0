/** What the pipeline does, as runs from any state: sends that become due go out, cancellations in time take hold, and
    an unanswered message is tried four times. */
module SendProgress {
  import opened Types
  import opened SendModel
  import opened SendMachine
  import opened SendTask

  /** Nothing is known of the message yet. */
  predicate Unused(s: Sys, m: nat) {
    m !in s.db.messages && m !in s.db.attempts && m !in s.outbox
  }

  lemma RunFour(s: Sys, e: Event, f: Event, g: Event, h: Event)
    ensures Run(s, [e, f, g, h]) == Step(Step(Step(Step(s, e), f), g), h)
  {
    assert [e, f, g, h][1..] == [f, g, h];
    RunThree(Step(s, e), f, g, h);
  }

  /** One unit for each moment that has come. */
  function Due(at: Option<nat>, now: nat): nat {
    if at.None? || at.value <= now then 1 else 0
  }

  /** A callback runs once, and enqueues the message if its time has come by then. */
  lemma PublishedIfDue(s: Sys, m: nat)
    requires m in s.outbox
    ensures var t := Step(s, Publish(m));
      && t.tasks[Task(m, 0)] == s.tasks[Task(m, 0)] + Due(s.outbox[m], s.now) && t.db == s.db && t.now == s.now
      && t.outbox == s.outbox - {m}
  {
  }

  /** A sweep enqueues a queued message with a pending attempt exactly once its time has come, and leaves any other
      alone. */
  lemma SweptIfDue(s: Sys, m: nat)
    ensures var t := Step(s, Sweep);
      t.db == s.db && t.tasks[Task(m, 0)] == s.tasks[Task(m, 0)] +
        if m in s.db.attempts && m in s.db.messages && s.db.attempts[m].status == Pending
           && s.db.messages[m].status == Queued && s.db.messages[m].scheduledAt.Some?
        then Due(s.db.messages[m].scheduledAt, s.now) else 0
  {
    if m in DueNow(s) { assert Task(m, 0) in (set k | k in DueNow(s) :: Task(k, 0)); }
  }

  /** A scheduled send is enqueued by its callback if it is due at once, and by a sweep exactly once it is due. */
  lemma ScheduledSendGoesOut(s: Sys, m: nat, at: nat, wait: nat)
    requires Unused(s, m)
    ensures Run(s, [Compose(m, Some(at)), Publish(m), Tick(wait), Sweep]).tasks[Task(m, 0)] ==
      s.tasks[Task(m, 0)] + (if at <= s.now then 1 else 0) + (if at <= s.now + wait then 1 else 0)
  {
    RunFour(s, Compose(m, Some(at)), Publish(m), Tick(wait), Sweep);
    var composed := Step(s, Compose(m, Some(at)));
    PublishedIfDue(composed, m);
    SweptIfDue(Step(Step(composed, Publish(m)), Tick(wait)), m);
  }

  lemma PromotesDraft(s: Sys, m: nat, at: Option<nat>)
    requires Unused(s, m)
    ensures var t := Step(Step(s, SaveDraft(m, at)), Promote(m, at));
      && m in t.db.messages && t.db.messages[m] == Message(Queued, at, None)
      && m in t.db.attempts && t.db.attempts[m] == Attempt(Pending, 0, None)
      && t.tasks == s.tasks && t.now == s.now && m in t.outbox && t.outbox[m] == at
  {
  }

  /** So is a draft, by the time its promotion has read and by the time it was saved with. */
  lemma PromotedDraftGoesOut(s: Sys, m: nat, at: Option<nat>, wait: nat)
    requires Unused(s, m)
    ensures var t := Run(s, [SaveDraft(m, at), Promote(m, at), Publish(m)] + [Tick(wait), Sweep]);
      && m in t.db.messages && t.db.messages[m] == Message(Queued, at, None)
      && m in t.db.attempts && t.db.attempts[m] == Attempt(Pending, 0, None)
      && t.tasks[Task(m, 0)] == s.tasks[Task(m, 0)] + Due(at, s.now) + if at.Some? then Due(at, s.now + wait) else 0
  {
    RunAppend(s, [SaveDraft(m, at), Promote(m, at), Publish(m)], [Tick(wait), Sweep]);
    RunThree(s, SaveDraft(m, at), Promote(m, at), Publish(m));
    var promoted := Step(Step(s, SaveDraft(m, at)), Promote(m, at));
    PromotesDraft(s, m, at);
    PublishedIfDue(promoted, m);
    var t := Step(promoted, Publish(m));
    RunTwo(t, Tick(wait), Sweep);
    SweptIfDue(Step(t, Tick(wait)), m);
  }

  lemma Reserves(s: Sys, w: nat, task: Task)
    requires w < |s.workers| && s.workers[w] == Idle && task in s.tasks
    requires task.message in s.db.attempts && s.db.attempts[task.message].status in {Pending, Rejected}
    requires task.message in s.db.messages
    ensures var t := Step(s, Deliver(w, task)); var before := s.db.attempts[task.message].reservations;
      && t.db.attempts == s.db.attempts[task.message := Attempt(InFlight, before + 1, Some(s.now))]
      && t.db.messages == s.db.messages && t.workers == s.workers[w := Busy(task, before + 1, None, Holding)]
  {
  }

  /** A message enqueued and delivered to an idle worker is that worker's. */
  lemma DeliveredIsReserved(s: Sys, m: nat, w: nat)
    requires Unused(s, m) && w < |s.workers| && s.workers[w] == Idle
    ensures var t := Run(s, [Compose(m, None), Publish(m), Deliver(w, Task(m, 0))]);
      && m in t.db.attempts && t.db.attempts[m] == Attempt(InFlight, 1, Some(s.now))
      && m in t.db.messages && t.db.messages[m].status == Queued
      && |t.workers| == |s.workers| && t.workers[w] == Busy(Task(m, 0), 1, None, Holding)
  {
    RunThree(s, Compose(m, None), Publish(m), Deliver(w, Task(m, 0)));
    var composed := Step(s, Compose(m, None));
    PublishedIfDue(composed, m);
    assert Step(composed, Publish(m)).workers == s.workers;
    Reserves(Step(composed, Publish(m)), w, Task(m, 0));
  }

  /** A cancellation before any worker has the send makes the message an unscheduled draft again, and no sweep will
      enqueue it; */
  lemma CancelledInTime(s: Sys, m: nat, at: Option<nat>, before: nat, after: nat)
    requires Unused(s, m)
    ensures var t := Run(s, [Compose(m, at), Tick(before), Cancel(m)]);
      && m in t.db.messages && t.db.messages[m] == Message(EmailStatus.Draft, None, None)
      && m in t.db.attempts && t.db.attempts[m] == Attempt(Withdrawn, 0, None)
      && Run(t, [Tick(after), Sweep]).tasks[Task(m, 0)] == s.tasks[Task(m, 0)]
  {
    RunThree(s, Compose(m, at), Tick(before), Cancel(m));
    var t := Run(s, [Compose(m, at), Tick(before), Cancel(m)]);
    RunTwo(t, Tick(after), Sweep);
    SweptIfDue(Step(t, Tick(after)), m);
  }

  /** one after a worker has reserved the attempt changes nothing. */
  lemma CancelledTooLate(s: Sys, m: nat, w: nat)
    requires Unused(s, m) && w < |s.workers| && s.workers[w] == Idle
    ensures var t := Run(s, [Compose(m, None), Publish(m), Deliver(w, Task(m, 0))]); Step(t, Cancel(m)) == t
  {
    DeliveredIsReserved(s, m, w);
  }

  /** What the history of early reservations records. */
  lemma EarlyIff(s: Sys, e: Event, m: nat)
    requires m !in s.early
    ensures m in Step(s, e).early <==>
      && e.Deliver? && e.task.message == m && e.task in s.tasks && e.w < |s.workers| && s.workers[e.w] == Idle
      && m in s.db.attempts && s.db.attempts[m].status in {Pending, Rejected}
      && m in s.db.messages && s.db.messages[m].scheduledAt.Some? && s.now < s.db.messages[m].scheduledAt.value
  {
    assert e.Sweep? ==> Step(s, e).early == s.early;
  }

  /** A crashed worker is free again, and the broker redelivers its task. */
  lemma CrashReturnsTask(s: Sys, w: nat)
    requires BusyAt(s, w)
    ensures var t := Step(s, Crash(w));
      t.tasks == s.tasks + multiset{s.workers[w].task} && t.workers == s.workers[w := Idle] && t.db == s.db
  {
  }

  /** A delivery event writes its status on a message the provider has confirmed, and on no other message. */
  lemma EventWritesStatus(s: Sys, m: nat, status: EmailStatus)
    requires m in s.db.messages && status in {Queued, Sending, Sent, Delivered, Opened, Clicked, Bounced, Spam, Failed}
    ensures var was := s.db.messages[m];
      Step(s, StatusEvent(m, status)) ==
        if was.providerId.Some? && status !in {Queued, Sending, Sent}
        then s.(db := s.db.(messages := s.db.messages[m := Message(status, was.scheduledAt, was.providerId)])) else s
  {
  }

  // ---- Retries ----

  /** Nothing goes wrong but the provider's answer. */
  function Unanswered(): Course {
    Course(true, None, Stored, NoAnswer, 0)
  }

  /** The message has one task, for this try, and its attempt can be reserved. */
  predicate Awaits(s: Sys, w: nat, task: Task, reservations: nat) {
    && w < |s.workers| && s.workers[w] == Idle && s.tasks == multiset{task}
    && task.message in s.db.attempts && task.message in s.db.messages
    && s.db.attempts[task.message].status in {Pending, Rejected}
    && s.db.attempts[task.message].reservations == reservations
  }

  /** Attempt and message say that the send has failed, after this many reservations. */
  predicate Failing(db: Db, m: nat, reservations: nat) {
    && m in db.attempts && db.attempts[m].status == Rejected && db.attempts[m].reservations == reservations
    && m in db.messages && db.messages[m].status == Failed
  }

  lemma UnansweredTask(db: Db, m: nat, now: nat)
    requires m in db.attempts && m in db.messages && db.attempts[m].status in {Pending, Rejected}
    ensures var (after, result) := Tasked(db, m, now, Unanswered());
      result == WillRetry && Failing(after, m, db.attempts[m].reservations + 1)
  {
  }

  lemma NextTask(task: Task)
    ensures multiset{task} - multiset{task} + Requeued(task, WillRetry) ==
      if task.retries < 3 then multiset{Task(task.message, task.retries + 1)} else multiset{}
  {
  }

  /** One unanswered try leaves a task for the next, up to the fourth. */
  lemma OneTry(s: Sys, w: nat, task: Task, reservations: nat) returns (es: seq<Event>, t: Sys)
    requires Awaits(s, w, task, reservations)
    ensures t == Run(s, es) && Failing(t.db, task.message, reservations + 1) && t.workers == s.workers
    ensures t.tasks == if task.retries < 3 then multiset{Task(task.message, task.retries + 1)} else multiset{}
  {
    es := Script(s.db, w, task, s.now, Unanswered());
    t := Run(s, es);
    MachineAgrees(s, w, task, Unanswered());
    UnansweredTask(s.db, task.message, s.now);
    NextTask(task);
  }

  /** A message whose provider never answers is reserved and tried four times in all; then its task is gone, and attempt
      and message say that it failed. */
  lemma UnansweredFourTimes(s: Sys, w: nat, m: nat, reservations: nat) returns (t: Sys, es: seq<Event>)
    requires Awaits(s, w, Task(m, 0), reservations)
    ensures t == Run(s, es) && t.tasks == multiset{}
    ensures Failing(t.db, m, reservations + 4)
  {
    t, es := s, [];
    for retries := 0 to 4
      invariant t == Run(s, es)
      invariant retries < 4 ==> Awaits(t, w, Task(m, retries), reservations + retries)
      invariant retries > 0 ==> Failing(t.db, m, reservations + retries)
      invariant retries == 4 ==> t.tasks == multiset{}
    {
      var more, next := OneTry(t, w, Task(m, retries), reservations + retries);
      RunAppend(s, es, more);
      t, es := next, es + more;
    }
  }
}

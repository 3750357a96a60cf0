/** One send task run to its end by a worker alone: what it leaves, and that the machine's steps leave the same. */
module SendTask {
  import opened Types
  import opened SendModel
  import opened SendMachine

  /** How a call into the provider layer ends: the exception it raises, if any. */
  datatype Raised = Nothing | Transient | Permanent | Unforeseen

  datatype Result = Skipped | SentOut | GaveUp | WillRetry | Broke

  /** Whether the attachments could be stored; `Breaks` is any exception that is not a TransientSendError. */
  datatype Storage = Stored | Down | Breaks

  /** What the surroundings decide: sending allowed, the day's limit, the storage, the provider's answer, and how many
      of the two saves of a confirmation get through. */
  datatype Course = Course(allowed: bool, limit: Option<nat>, storage: Storage, reply: Reply, saves: nat)

  // ---- What the calls leave ----

  function BothFailed(db: Db, m: nat): Db
    requires m in db.attempts && m in db.messages
  {
    MessageSet(AttemptSet(db, m, Rejected), m, Failed)
  }

  function Called(db: Db, m: nat, reply: Reply, saves: nat): Db
    requires m in db.attempts && m in db.messages
  {
    if !reply.Accepted? then BothFailed(db, m)
    else
      var started := AttemptSet(db, m, InFlight);
      if saves == 0 then started
      else if saves == 1 then MessageConfirmed(started, m, reply.id)
      else AttemptSet(MessageConfirmed(started, m, reply.id), m, Confirmed)
  }

  function CallRaises(reply: Reply, saves: nat): Raised {
    match reply
    case Accepted(_) => if saves < 2 then Unforeseen else Nothing
    case ClientError => Permanent
    case _ => Transient
  }

  /** Storing the attachments and calling the provider. */
  function Tried(db: Db, m: nat, c: Course): (r: (Db, Raised))
    requires m in db.attempts && m in db.messages
    ensures m in r.0.attempts && m in r.0.messages && r.0.sent == db.sent && r.0.failed == db.failed
  {
    match c.storage
    case Down => (db, Transient)
    case Breaks => (db, Unforeseen)
    case Stored => (Called(db, m, c.reply, c.saves), CallRaises(c.reply, c.saves))
  }

  /** What the handlers of send_with_provider do to the day's counters. */
  function Settled(db: Db, day: nat, raised: Raised): Db {
    match raised
    case Transient => SlotReleased(db, day)
    case Permanent => FailureRecorded(SlotReleased(db, day), day)
    case _ => db
  }

  /** send_with_provider once it holds a slot. */
  function Reached(db: Db, m: nat, day: nat, c: Course): (r: (Db, Raised))
    requires m in db.attempts && m in db.messages
    ensures m in r.0.attempts && m in r.0.messages
  {
    var (after, raised) := Tried(db, m, c);
    (Settled(after, day, raised), raised)
  }

  function Provided(db: Db, m: nat, day: nat, c: Course): (r: (Db, Raised))
    requires m in db.attempts && m in db.messages
    ensures m in r.0.attempts && m in r.0.messages
  {
    if !c.allowed then (BothFailed(db, m), Permanent)
    else if !SlotFree(db, c.limit, day) then (BothFailed(FailureRecorded(db, day), m), Permanent)
    else Reached(SlotReserved(db, day), m, day, c)
  }

  /** What the task's handlers make of it. */
  function Handled(db: Db, m: nat, raised: Raised): (Db, Result)
    requires m in db.attempts && m in db.messages
  {
    match raised
    case Nothing => (db, SentOut)
    case Transient => (db, WillRetry)
    case Permanent => (MarkedFailed(db, m), GaveUp)
    case Unforeseen => (MarkedFailed(db, m), Broke)
  }

  function Tasked(db: Db, m: nat, now: nat, c: Course): (Db, Result)
    requires m in db.attempts && m in db.messages
  {
    if !CanReserve(db, m) then (db, Skipped)
    else AfterProvided(Reserved(db, m, now), m, DayOf(now), c)
  }

  function AfterProvided(db: Db, m: nat, day: nat, c: Course): (Db, Result)
    requires m in db.attempts && m in db.messages
  {
    var (after, raised) := Provided(db, m, day, c);
    Handled(after, m, raised)
  }

  function AfterReached(db: Db, m: nat, day: nat, c: Course): (Db, Result)
    requires m in db.attempts && m in db.messages
  {
    var (after, raised) := Reached(db, m, day, c);
    Handled(after, m, raised)
  }

  predicate OthersUntouched(db: Db, after: Db, m: nat) {
    && (forall k :: k in db.attempts && k != m ==> k in after.attempts && after.attempts[k] == db.attempts[k])
    && (forall k :: k in db.messages && k != m ==> k in after.messages && after.messages[k] == db.messages[k])
  }

  /** What a task leaves of its own message, by its result; no other message is touched. An exception nobody foresaw
      leaves FAILED even where the provider has accepted. */
  ghost predicate TaskOutcome(db: Db, after: Db, m: nat, c: Course, result: Result)
    requires m in db.attempts && m in db.messages
  {
    && m in after.attempts && m in after.messages && OthersUntouched(db, after, m)
    && (result == Skipped <==> !CanReserve(db, m))
    && match result
       case Skipped => after == db
       case SentOut => c.reply.Accepted? && after.attempts[m].status == Confirmed
         && after.messages[m].status == Sent && after.messages[m].providerId == Some(c.reply.id)
       case WillRetry => after.attempts[m].status == if c.storage == Down then InFlight else Rejected
       case _ => after.attempts[m].status == Rejected && after.messages[m].status == Failed
  }

  predicate CallOutcome(db: Db, after: Db, m: nat, c: Course, raised: Raised) {
    && m in after.attempts && m in after.messages && OthersUntouched(db, after, m)
    && match raised
       case Nothing => c.reply.Accepted? && after.attempts[m].status == Confirmed
         && after.messages[m].status == Sent && after.messages[m].providerId == Some(c.reply.id)
       case Transient => after.attempts[m].status == if c.storage == Down then InFlight else Rejected
       case Permanent => after.attempts[m].status == Rejected
       case Unforeseen => after.attempts[m].status == InFlight
  }

  lemma CalledOutcome(db: Db, m: nat, c: Course)
    requires m in db.attempts && m in db.messages && c.storage == Stored
    ensures CallOutcome(db, Called(db, m, c.reply, c.saves), m, c, CallRaises(c.reply, c.saves))
  {
  }

  lemma ReachedOutcome(db: Db, m: nat, day: nat, c: Course)
    requires m in db.attempts && m in db.messages && db.attempts[m].status == InFlight
    ensures var (after, raised) := Reached(db, m, day, c); CallOutcome(db, after, m, c, raised)
  {
    if c.storage == Stored { CalledOutcome(db, m, c); }
  }

  lemma ProvidedOutcome(db: Db, m: nat, day: nat, c: Course)
    requires m in db.attempts && m in db.messages && db.attempts[m].status == InFlight
    ensures var (after, raised) := Provided(db, m, day, c); CallOutcome(db, after, m, c, raised)
  {
    if c.allowed && SlotFree(db, c.limit, day) { ReachedOutcome(SlotReserved(db, day), m, day, c); }
  }

  /** The counters after a call that holds a slot: a Transient or Permanent error gives it back, nothing else does. */
  lemma ReachedCounts(db: Db, m: nat, day: nat, c: Course)
    requires m in db.attempts && m in db.messages
    ensures var (after, raised) := Reached(db, m, day, c);
      && after.sent == (if raised in {Transient, Permanent} then db.sent - multiset{day} else db.sent)
      && after.failed == db.failed + if raised == Permanent then multiset{day} else multiset{}
  {
    assert db.failed + multiset{} == db.failed;
  }

  /** The day's counter grows exactly by a confirmed send and by an exception nobody foresaw, failed_count exactly by a
      limit rejection and a permanent refusal. */
  lemma ProvidedCounts(db: Db, m: nat, day: nat, c: Course)
    requires m in db.attempts && m in db.messages
    ensures var (after, raised) := Provided(db, m, day, c);
      && after.sent == (db.sent + if raised in {Nothing, Unforeseen} then multiset{day} else multiset{})
      && after.failed == db.failed + if c.allowed && raised == Permanent then multiset{day} else multiset{}
  {
    ReachedCounts(SlotReserved(db, day), m, day, c);
    assert db.sent + multiset{day} - multiset{day} == db.sent;
  }

  predicate TaskCounted(db: Db, after: Db, day: nat, c: Course, result: Result) {
    && after.sent == (db.sent + if result in {SentOut, Broke} then multiset{day} else multiset{})
    && after.failed == db.failed + if c.allowed && result == GaveUp then multiset{day} else multiset{}
  }

  lemma TaskCounts(db: Db, m: nat, now: nat, c: Course)
    requires m in db.attempts && m in db.messages
    ensures var (after, result) := Tasked(db, m, now, c); TaskCounted(db, after, DayOf(now), c, result)
  {
    if CanReserve(db, m) { ProvidedCounts(Reserved(db, m, now), m, DayOf(now), c); }
  }

  lemma TaskOutcomes(db: Db, m: nat, now: nat, c: Course)
    requires m in db.attempts && m in db.messages
    ensures var (after, result) := Tasked(db, m, now, c); TaskOutcome(db, after, m, c, result)
  {
    if CanReserve(db, m) { ProvidedOutcome(Reserved(db, m, now), m, DayOf(now), c); }
  }

  /** Sending is allowed and a slot of the day is left. */
  predicate MayCall(db: Db, day: nat, c: Course) {
    c.allowed && (c.limit.None? || db.sent[day] < c.limit.value)
  }

  lemma ProvidedRaises(db: Db, m: nat, day: nat, c: Course)
    requires m in db.attempts && m in db.messages
    ensures var raised := Provided(db, m, day, c).1;
      if !MayCall(db, day, c) then raised == Permanent
      else match c.storage
           case Down => raised == Transient
           case Breaks => raised == Unforeseen
           case Stored =>
             match c.reply
             case Accepted(_) => raised == if c.saves >= 2 then Nothing else Unforeseen
             case NoAnswer => raised == Transient
             case ServerError => raised == Transient
             case ClientError => raised == Permanent
  {
  }

  /** Which result occurs when: the attempt decides whether anything is done at all; then the permission and the day's
      count against the limit, the storage, the provider's answer and the saves, in this order. */
  lemma TaskResults(db: Db, m: nat, now: nat, c: Course)
    requires m in db.attempts && m in db.messages
    ensures var result := Tasked(db, m, now, c).1;
      if db.attempts[m].status !in {Pending, Rejected} then result == Skipped
      else if !MayCall(db, now / 86400, c) then result == GaveUp
      else match c.storage
           case Down => result == WillRetry
           case Breaks => result == Broke
           case Stored =>
             match c.reply
             case Accepted(_) => result == if c.saves >= 2 then SentOut else Broke
             case NoAnswer => result == WillRetry
             case ServerError => result == WillRetry
             case ClientError => result == GaveUp
  {
    if CanReserve(db, m) { ProvidedRaises(Reserved(db, m, now), m, DayOf(now), c); }
  }

  function Requeued(task: Task, result: Result): multiset<Task> {
    if result == WillRetry && task.retries < MAX_RETRIES then multiset{Task(task.message, task.retries + 1)}
    else multiset{}
  }

  // ---- The machine's steps for it ----

  function Commits(w: nat, n: nat): seq<Event> {
    if n == 0 then [] else [Commit(w)] + Commits(w, n - 1)
  }

  function CallScript(w: nat, c: Course): seq<Event> {
    [StartCall(w), Answer(w, c.reply)] + AnswerScript(w, c)
  }

  function AnswerScript(w: nat, c: Course): seq<Event> {
    if c.reply.Accepted? && c.saves < 2 then Commits(w, c.saves) + ([Unexpected(w)] + Commits(w, 1))
    else Commits(w, |Plan(c.reply)|)
  }

  function SlotScript(w: nat, c: Course): seq<Event> {
    match c.storage
    case Down => [StorageOutage(w)] + Commits(w, 2)
    case Breaks => [Unexpected(w)] + Commits(w, 1)
    case Stored => CallScript(w, c)
  }

  /** The steps of one delivery that nothing interrupts, on these rows. */
  function Script(db: Db, w: nat, task: Task, now: nat, c: Course): seq<Event> {
    if !CanReserve(db, task.message) then [Deliver(w, task)]
    else [Deliver(w, task)] + HeldScript(SlotFree(db, c.limit, DayOf(now)), w, c)
  }

  function HeldScript(free: bool, w: nat, c: Course): seq<Event> {
    if !c.allowed then [Refuse(w)] + Commits(w, 3)
    else if !free then [TakeSlot(w, c.limit)] + Commits(w, 4)
    else [TakeSlot(w, c.limit)] + SlotScript(w, c)
  }

  // ---- Writing down an outcome ----

  function WrittenAll(db: Db, m: nat, todo: seq<Write>, now: nat): (r: Db)
    requires m in db.attempts && m in db.messages
    ensures m in r.attempts && m in r.messages
    decreases |todo|
  {
    if todo == [] then db else WrittenAll(Written(db, m, todo[0], now), m, todo[1..], now)
  }

  predicate RetryLast(todo: seq<Write>) {
    forall k :: 0 <= k < |todo| - 1 ==> todo[k] != Retry
  }

  function Requeue(task: Task, todo: seq<Write>): multiset<Task> {
    if todo != [] && todo[|todo| - 1] == Retry && task.retries < MAX_RETRIES
    then multiset{Task(task.message, task.retries + 1)} else multiset{}
  }

  /** The worker has moved on to this plan; its writes so far have left these rows. */
  predicate Winds(s: Sys, t: Sys, w: nat, todo: seq<Write>, db: Db)
    requires BusyAt(s, w)
  {
    && t.db == db && t.tasks == s.tasks && t.now == s.now
    && BusyAt(t, w) && t.workers[w].task == s.workers[w].task && t.workers[w].stage == Winding(todo)
    && t.workers == s.workers[w := t.workers[w]]
  }

  lemma CommitOne(s: Sys, w: nat)
    requires BusyAt(s, w) && s.workers[w].stage.Winding?
    requires |s.workers[w].stage.todo| > 1 && s.workers[w].stage.todo[0] != Retry
    ensures var todo := s.workers[w].stage.todo;
      Winds(s, Step(s, Commit(w)), w, todo[1..], Written(s.db, MessageOf(s, w), todo[0], s.now))
  {
  }

  lemma WindsOn(s: Sys, s1: Sys, t: Sys, w: nat, todo: seq<Write>, db: Db)
    requires BusyAt(s, w) && BusyAt(s1, w) && s1.workers[w].task == s.workers[w].task
    requires s1.workers == s.workers[w := s1.workers[w]] && s1.tasks == s.tasks && s1.now == s.now
    requires Winds(s1, t, w, todo, db)
    ensures Winds(s, t, w, todo, db)
  {
  }

  lemma PrefixTail(todo: seq<Write>, n: nat)
    requires 0 < n < |todo|
    ensures todo[..n][1..] == todo[1..][..n - 1] && todo[1..][n - 1..] == todo[n..]
    ensures todo[..n] != [] && todo[..n][0] == todo[0]
  {
    var a, b := todo[..n][1..], todo[1..][..n - 1];
    forall k | 0 <= k < n - 1 ensures a[k] == b[k] { assert a[k] == todo[k + 1]; }
  }

  lemma AfterCommit(s: Sys, w: nat, n: nat) returns (s1: Sys)
    requires BusyAt(s, w) && s.workers[w].stage.Winding?
    requires 0 < n < |s.workers[w].stage.todo| && RetryLast(s.workers[w].stage.todo)
    ensures var todo := s.workers[w].stage.todo;
      && Winds(s, s1, w, todo[1..], Written(s.db, MessageOf(s, w), todo[0], s.now)) && RetryLast(todo[1..])
      && Run(s, Commits(w, n)) == Run(s1, Commits(w, n - 1))
  {
    s1 := Step(s, Commit(w));
    CommitOne(s, w);
    assert Commits(w, n)[1..] == Commits(w, n - 1);
  }

  /** n commits of a worker that has still more to write. */
  lemma {:induction false} CommitSome(s: Sys, w: nat, n: nat)
    requires BusyAt(s, w) && s.workers[w].stage.Winding?
    requires n < |s.workers[w].stage.todo| && RetryLast(s.workers[w].stage.todo)
    ensures var todo := s.workers[w].stage.todo;
      Winds(s, Run(s, Commits(w, n)), w, todo[n..], WrittenAll(s.db, MessageOf(s, w), todo[..n], s.now))
    decreases n
  {
    var todo := s.workers[w].stage.todo;
    if n == 0 {
      assert todo[0..] == todo;
    } else {
      var s1 := AfterCommit(s, w, n);
      PrefixTail(todo, n);
      CommitSome(s1, w, n - 1);
      WindsOn(s, s1, Run(s, Commits(w, n)), w, todo[n..], WrittenAll(s.db, MessageOf(s, w), todo[..n], s.now));
    }
  }

  lemma CommitsEnd(s: Sys, w: nat, n: nat)
    ensures Run(s, Commits(w, n + 1)) == Step(Run(s, Commits(w, n)), Commit(w))
  {
    CommitsSplit(w, n, 1);
    RunAppend(s, Commits(w, n), Commits(w, 1));
    RunSingle(Run(s, Commits(w, n)), Commit(w));
    assert Commits(w, 1) == [Commit(w)];
  }

  lemma RunSingle(s: Sys, e: Event)
    ensures Run(s, [e]) == Step(s, e)
  {
    assert [e][1..] == [];
  }

  /** All commits of a worker that is writing down an outcome. */
  lemma CommitAll(s: Sys, w: nat)
    requires BusyAt(s, w) && s.workers[w].stage.Winding?
    requires s.workers[w].stage.todo != [] && RetryLast(s.workers[w].stage.todo)
    ensures var t, todo := Run(s, Commits(w, |s.workers[w].stage.todo|)), s.workers[w].stage.todo;
      && t.db == WrittenAll(s.db, MessageOf(s, w), todo, s.now)
      && t.tasks == s.tasks + Requeue(s.workers[w].task, todo)
      && t.workers == s.workers[w := Idle]
  {
    var todo := s.workers[w].stage.todo;
    var n := |todo| - 1;
    CommitSome(s, w, n);
    CommitsEnd(s, w, n);
    assert todo[n..] == [todo[n]] && todo == todo[..n] + [todo[n]];
    var db := WrittenAll(s.db, MessageOf(s, w), todo[..n], s.now);
    WrittenSplit(s.db, MessageOf(s, w), todo[..n], [todo[n]], s.now);
    WrittenOne(db, MessageOf(s, w), todo[n], s.now);
    LastCommit(Run(s, Commits(w, n)), w, todo[n]);
  }

  lemma LastCommit(s: Sys, w: nat, write: Write)
    requires BusyAt(s, w) && s.workers[w].stage == Winding([write])
    ensures var t := Step(s, Commit(w));
      && t.db == Written(s.db, MessageOf(s, w), write, s.now)
      && t.tasks == s.tasks + Requeue(s.workers[w].task, [write])
      && t.workers == s.workers[w := Idle]
  {
    LastRows(s, w, write);
    LastTasks(s, w, write);
  }

  lemma LastRows(s: Sys, w: nat, write: Write)
    requires BusyAt(s, w) && s.workers[w].stage == Winding([write])
    ensures StepCommit(s, w).db == Written(s.db, MessageOf(s, w), write, s.now)
    ensures StepCommit(s, w).workers == s.workers[w := Idle]
  {
    assert MovedOn(s.workers[w]) == Idle;
  }

  lemma LastTasks(s: Sys, w: nat, write: Write)
    requires BusyAt(s, w) && s.workers[w].stage == Winding([write])
    ensures StepCommit(s, w).tasks == s.tasks + Requeue(s.workers[w].task, [write])
  {
    assert s.tasks + multiset{} == s.tasks;
  }

  lemma {:induction false} CommitsSplit(w: nat, a: nat, b: nat)
    ensures Commits(w, a + b) == Commits(w, a) + Commits(w, b) && |Commits(w, a)| == a
    decreases a
  {
    if a == 0 {
    } else {
      CommitsSplit(w, a - 1, b);
    }
  }

  lemma {:induction false} WrittenSplit(db: Db, m: nat, a: seq<Write>, b: seq<Write>, now: nat)
    requires m in db.attempts && m in db.messages
    ensures WrittenAll(db, m, a + b, now) == WrittenAll(WrittenAll(db, m, a, now), m, b, now)
    decreases |a|
  {
    if a == [] {
      assert a + b == b;
    } else {
      assert (a + b)[1..] == a[1..] + b;
      WrittenSplit(Written(db, m, a[0], now), m, a[1..], b, now);
    }
  }

  // ---- What each outcome amounts to ----

  lemma WrittenTwo(db: Db, m: nat, x: Write, y: Write, now: nat)
    requires m in db.attempts && m in db.messages
    ensures WrittenAll(db, m, [x, y], now) == Written(Written(db, m, x, now), m, y, now)
  {
    assert [x, y][1..] == [y];
    WrittenOne(Written(db, m, x, now), m, y, now);
  }

  lemma WrittenOne(db: Db, m: nat, x: Write, now: nat)
    requires m in db.attempts && m in db.messages
    ensures WrittenAll(db, m, [x], now) == Written(db, m, x, now)
  {
    assert [x][1..] == [];
  }

  lemma WrittenThree(db: Db, m: nat, x: Write, y: Write, z: Write, now: nat)
    requires m in db.attempts && m in db.messages
    ensures WrittenAll(db, m, [x, y, z], now) == Written(Written(Written(db, m, x, now), m, y, now), m, z, now)
  {
    assert [x, y, z][1..] == [y, z];
    WrittenTwo(Written(db, m, x, now), m, y, z, now);
  }

  lemma EitherOrder(db: Db, m: nat)
    requires m in db.attempts && m in db.messages
    ensures AttemptSet(MessageSet(db, m, Failed), m, Rejected) == BothFailed(db, m)
  {
  }

  lemma FailurePlan(db: Db, m: nat, now: nat)
    requires m in db.attempts && m in db.messages
    ensures WrittenAll(db, m, [FailAttempt, FailMessage, MarkFailed], now) == MarkedFailed(BothFailed(db, m), m)
  {
    WrittenThree(db, m, FailAttempt, FailMessage, MarkFailed, now);
  }

  lemma LimitPlan(db: Db, m: nat, now: nat)
    requires m in db.attempts && m in db.messages
    ensures WrittenAll(db, m, [RecordFailure, FailAttempt, FailMessage, MarkFailed], now)
      == MarkedFailed(BothFailed(FailureRecorded(db, DayOf(now)), m), m)
  {
    assert [RecordFailure, FailAttempt, FailMessage, MarkFailed][1..] == [FailAttempt, FailMessage, MarkFailed];
    FailurePlan(FailureRecorded(db, DayOf(now)), m, now);
  }

  lemma TransientPlans(db: Db, m: nat, now: nat)
    requires m in db.attempts && m in db.messages
    ensures WrittenAll(db, m, Plan(NoAnswer), now) == SlotReleased(BothFailed(db, m), DayOf(now))
    ensures WrittenAll(db, m, Plan(ServerError), now) == SlotReleased(BothFailed(db, m), DayOf(now))
  {
    assert Plan(NoAnswer) == [FailAttempt, FailMessage] + [ReleaseSlot, Retry];
    assert Plan(ServerError) == [FailMessage, FailAttempt] + [ReleaseSlot, Retry];
    WrittenSplit(db, m, [FailAttempt, FailMessage], [ReleaseSlot, Retry], now);
    WrittenSplit(db, m, [FailMessage, FailAttempt], [ReleaseSlot, Retry], now);
    FailedFirst(db, m, now);
    WrittenTwo(BothFailed(db, m), m, ReleaseSlot, Retry, now);
  }

  lemma RefusalPlan(db: Db, m: nat, now: nat)
    requires m in db.attempts && m in db.messages
    ensures WrittenAll(db, m, Plan(ClientError), now)
      == MarkedFailed(FailureRecorded(SlotReleased(BothFailed(db, m), DayOf(now)), DayOf(now)), m)
  {
    assert Plan(ClientError) == [FailMessage, FailAttempt] + [ReleaseSlot, RecordFailure, MarkFailed];
    WrittenSplit(db, m, [FailMessage, FailAttempt], [ReleaseSlot, RecordFailure, MarkFailed], now);
    FailedFirst(db, m, now);
    RefusalEnd(BothFailed(db, m), m, now);
  }

  lemma FailedFirst(db: Db, m: nat, now: nat)
    requires m in db.attempts && m in db.messages
    ensures WrittenAll(db, m, [FailMessage, FailAttempt], now) == BothFailed(db, m)
    ensures WrittenAll(db, m, [FailAttempt, FailMessage], now) == BothFailed(db, m)
  {
    WrittenTwo(db, m, FailMessage, FailAttempt, now);
    WrittenTwo(db, m, FailAttempt, FailMessage, now);
    EitherOrder(db, m);
  }

  lemma RefusalEnd(db: Db, m: nat, now: nat)
    requires m in db.attempts && m in db.messages
    ensures WrittenAll(db, m, [ReleaseSlot, RecordFailure, MarkFailed], now)
      == MarkedFailed(FailureRecorded(SlotReleased(db, DayOf(now)), DayOf(now)), m)
  {
    WrittenThree(db, m, ReleaseSlot, RecordFailure, MarkFailed, now);
  }

  lemma PlansRetryLast(reply: Reply)
    ensures RetryLast(Plan(reply)) && Plan(reply) != []
    ensures Plan(reply)[|Plan(reply)| - 1] == Retry <==> reply.NoAnswer? || reply.ServerError?
  {
  }

  // ---- The two agree ----

  /** The worker is done and idle again, the rows are these, and so many tasks have been added. */
  predicate Ended(s: Sys, t: Sys, w: nat, db: Db, added: multiset<Task>)
    requires w < |s.workers|
  {
    t.db == db && t.tasks == s.tasks + added && t.workers == s.workers[w := Idle]
  }

  lemma RunOne(s: Sys, e: Event, es: seq<Event>)
    ensures Run(s, [e] + es) == Run(Step(s, e), es)
  {
    assert ([e] + es)[1..] == es;
  }

  predicate Ready(s: Sys, w: nat, stage: Stage) {
    AtStage(s, w, stage) && (s.workers[w].slot.Some? <==> stage != Holding)
  }

  /** From a worker that winds up with a given plan: its commits end the task. */
  lemma WoundUp(s: Sys, s1: Sys, w: nat, todo: seq<Write>)
    requires BusyAt(s, w) && w < |s1.workers| && s1.workers == s.workers[w := s1.workers[w]]
    requires BusyAt(s1, w) && s1.workers[w].task == s.workers[w].task && s1.workers[w].stage == Winding(todo)
    requires todo != [] && RetryLast(todo) && s1.tasks == s.tasks
    ensures Ended(s, Run(s1, Commits(w, |todo|)), w, WrittenAll(s1.db, MessageOf(s, w), todo, s1.now),
                  Requeue(s.workers[w].task, todo))
  {
    CommitAll(s1, w);
  }

  lemma RefusedAgrees(s: Sys, w: nat)
    requires Ready(s, w, Holding)
    ensures Ended(s, Run(s, [Refuse(w)] + Commits(w, 3)), w,
                  MarkedFailed(BothFailed(s.db, MessageOf(s, w)), MessageOf(s, w)), multiset{})
  {
    RunOne(s, Refuse(w), Commits(w, 3));
    WoundUp(s, Step(s, Refuse(w)), w, [FailAttempt, FailMessage, MarkFailed]);
    FailurePlan(s.db, MessageOf(s, w), s.now);
  }

  lemma LimitAgrees(s: Sys, w: nat, limit: Option<nat>)
    requires Ready(s, w, Holding) && !SlotFree(s.db, limit, DayOf(s.now))
    ensures Ended(s, Run(s, [TakeSlot(w, limit)] + Commits(w, 4)), w,
                  MarkedFailed(BothFailed(FailureRecorded(s.db, DayOf(s.now)), MessageOf(s, w)), MessageOf(s, w)),
                  multiset{})
  {
    RunOne(s, TakeSlot(w, limit), Commits(w, 4));
    WoundUp(s, Step(s, TakeSlot(w, limit)), w, [RecordFailure, FailAttempt, FailMessage, MarkFailed]);
    LimitPlan(s.db, MessageOf(s, w), s.now);
  }

  lemma OutageAgrees(s: Sys, w: nat)
    requires Ready(s, w, Slotted)
    ensures Ended(s, Run(s, [StorageOutage(w)] + Commits(w, 2)), w, SlotReleased(s.db, DayOf(s.now)),
                  Requeued(s.workers[w].task, WillRetry))
  {
    RunOne(s, StorageOutage(w), Commits(w, 2));
    WoundUp(s, Step(s, StorageOutage(w)), w, [ReleaseSlot, Retry]);
    WrittenTwo(s.db, MessageOf(s, w), ReleaseSlot, Retry, s.now);
  }

  /** An unexpected exception at any point before the task's handler. */
  lemma UnexpectedAgrees(s: Sys, w: nat)
    requires BusyAt(s, w) && (s.workers[w].stage.Winding? ==>
      s.workers[w].stage.todo != [] && s.workers[w].stage.todo[0] !in {MarkFailed, Retry})
    ensures Ended(s, Run(s, [Unexpected(w)] + Commits(w, 1)), w, MarkedFailed(s.db, MessageOf(s, w)), multiset{})
  {
    RunOne(s, Unexpected(w), Commits(w, 1));
    WoundUp(s, Step(s, Unexpected(w)), w, [MarkFailed]);
    WrittenOne(s.db, MessageOf(s, w), MarkFailed, s.now);
  }

  // ---- After the provider's answer ----

  /** The answer ends the call; the slot of a confirmed send is spent. */
  lemma AnswerWinds(s: Sys, w: nat, reply: Reply)
    requires Ready(s, w, Calling)
    ensures Winds(s, StepAnswer(s, w, reply), w, Plan(reply), s.db)
  {
  }

  lemma SavedAgrees(s: Sys, w: nat, reply: Reply)
    requires Ready(s, w, Calling)
    ensures Ended(s, Run(s, [Answer(w, reply)] + Commits(w, |Plan(reply)|)), w,
                  WrittenAll(s.db, MessageOf(s, w), Plan(reply), s.now), Requeue(s.workers[w].task, Plan(reply)))
  {
    PlansRetryLast(reply);
    AnswerWinds(s, w, reply);
    RunOne(s, Answer(w, reply), Commits(w, |Plan(reply)|));
    WoundUp(s, StepAnswer(s, w, reply), w, Plan(reply));
  }

  lemma EndedThen(s: Sys, s1: Sys, t: Sys, w: nat, db: Db, added: multiset<Task>)
    requires w < |s.workers| && w < |s1.workers| && s1.workers == s.workers[w := s1.workers[w]] && s1.tasks == s.tasks
    requires Ended(s1, t, w, db, added)
    ensures Ended(s, t, w, db, added)
  {
  }

  /** Some of the saves of a confirmation. */
  lemma SomeSaved(s: Sys, w: nat, id: string, saves: nat)
    requires Ready(s, w, Calling) && saves < 2
    ensures var plan := Plan(Accepted(id));
      Winds(s, Run(s, [Answer(w, Accepted(id))] + Commits(w, saves)), w, plan[saves..],
            WrittenAll(s.db, MessageOf(s, w), plan[..saves], s.now))
  {
    var reply := Accepted(id);
    var s1 := StepAnswer(s, w, reply);
    PlansRetryLast(reply);
    AnswerWinds(s, w, reply);
    RunOne(s, Answer(w, reply), Commits(w, saves));
    CommitSome(s1, w, saves);
    WindsOn(s, s1, Run(s1, Commits(w, saves)), w, Plan(reply)[saves..],
            WrittenAll(s.db, MessageOf(s, w), Plan(reply)[..saves], s.now));
  }

  /** Some of the saves of a confirmation, then the exception. */
  lemma UnsavedAgrees(s: Sys, w: nat, id: string, saves: nat)
    requires Ready(s, w, Calling) && saves < 2
    ensures Ended(s, Run(s, [Answer(w, Accepted(id))] + (Commits(w, saves) + ([Unexpected(w)] + Commits(w, 1)))), w,
      MarkedFailed(WrittenAll(s.db, MessageOf(s, w), Plan(Accepted(id))[..saves], s.now), MessageOf(s, w)), multiset{})
  {
    var first, rest := [Answer(w, Accepted(id))] + Commits(w, saves), [Unexpected(w)] + Commits(w, 1);
    assert [Answer(w, Accepted(id))] + (Commits(w, saves) + rest) == first + rest;
    RunAppend(s, first, rest);
    SomeSaved(s, w, id, saves);
    UnexpectedFrom(s, Run(s, first), w, Plan(Accepted(id))[saves..]);
  }

  lemma UnexpectedFrom(s: Sys, s1: Sys, w: nat, todo: seq<Write>)
    requires BusyAt(s, w) && Winds(s, s1, w, todo, s1.db) && todo != [] && todo[0] !in {MarkFailed, Retry}
    ensures Ended(s, Run(s1, [Unexpected(w)] + Commits(w, 1)), w, MarkedFailed(s1.db, MessageOf(s, w)), multiset{})
  {
    UnexpectedAgrees(s1, w);
    EndedThen(s, s1, Run(s1, [Unexpected(w)] + Commits(w, 1)), w, MarkedFailed(s1.db, MessageOf(s, w)), multiset{});
  }

  // ---- The whole task ----

  lemma ConfirmedRows(db: Db, m: nat, id: string, now: nat)
    requires m in db.attempts && m in db.messages
    ensures var plan, started := Plan(Accepted(id)), AttemptSet(db, m, InFlight);
      && WrittenAll(started, m, plan[..0], now) == Called(db, m, Accepted(id), 0)
      && WrittenAll(started, m, plan[..1], now) == Called(db, m, Accepted(id), 1)
      && (forall saves: nat :: saves >= 2 ==> WrittenAll(started, m, plan, now) == Called(db, m, Accepted(id), saves))
  {
    var started := AttemptSet(db, m, InFlight);
    assert Plan(Accepted(id))[..1] == [ConfirmMessage(id)];
    WrittenOne(started, m, ConfirmMessage(id), now);
    WrittenTwo(started, m, ConfirmMessage(id), ConfirmAttempt, now);
  }

  /** That the call was started leaves no trace in an attempt that then fails. */
  lemma StartForgotten(db: Db, m: nat)
    requires m in db.attempts && m in db.messages
    ensures BothFailed(AttemptSet(db, m, InFlight), m) == BothFailed(db, m)
  {
  }

  lemma FailedRows(db: Db, m: nat, c: Course, now: nat)
    requires m in db.attempts && m in db.messages && !c.reply.Accepted? && c.storage == Stored
    ensures WrittenAll(AttemptSet(db, m, InFlight), m, Plan(c.reply), now) == AfterReached(db, m, DayOf(now), c).0
    ensures AfterReached(db, m, DayOf(now), c).1 == if c.reply.ClientError? then GaveUp else WillRetry
  {
    StartForgotten(db, m);
    TransientPlans(AttemptSet(db, m, InFlight), m, now);
    RefusalPlan(AttemptSet(db, m, InFlight), m, now);
  }

  lemma AcceptedRows(db: Db, m: nat, c: Course, now: nat)
    requires m in db.attempts && m in db.messages && c.reply.Accepted? && c.storage == Stored
    ensures var after := Called(db, m, c.reply, c.saves);
      AfterReached(db, m, DayOf(now), c) == if c.saves < 2 then (MarkedFailed(after, m), Broke) else (after, SentOut)
  {
  }

  lemma DialsOut(s: Sys, w: nat)
    requires Ready(s, w, Slotted)
    ensures var t := StepStartCall(s, w);
      && Ready(t, w, Calling) && t.db == AttemptSet(s.db, MessageOf(s, w), InFlight) && t.tasks == s.tasks
      && t.now == s.now && t.workers[w].task == s.workers[w].task && t.workers == s.workers[w := t.workers[w]]
  {
  }

  lemma AnswerSaved(s: Sys, w: nat, c: Course, day: nat, db: Db)
    requires Ready(s, w, Calling) && c.reply.Accepted? && c.saves >= 2 && c.storage == Stored && day == DayOf(s.now)
    requires MessageOf(s, w) in db.attempts && MessageOf(s, w) in db.messages
    requires s.db == AttemptSet(db, MessageOf(s, w), InFlight)
    ensures Ended(s, Run(s, [Answer(w, c.reply)] + AnswerScript(w, c)), w,
                  AfterReached(db, MessageOf(s, w), day, c).0, multiset{})
  {
    AcceptedRows(db, MessageOf(s, w), c, s.now);
    ConfirmedRows(db, MessageOf(s, w), c.reply.id, s.now);
    PlansRetryLast(c.reply);
    SavedAgrees(s, w, c.reply);
  }

  lemma AnswerUnsaved(s: Sys, w: nat, c: Course, day: nat, db: Db)
    requires Ready(s, w, Calling) && c.reply.Accepted? && c.saves < 2 && c.storage == Stored && day == DayOf(s.now)
    requires MessageOf(s, w) in db.attempts && MessageOf(s, w) in db.messages
    requires s.db == AttemptSet(db, MessageOf(s, w), InFlight)
    ensures Ended(s, Run(s, [Answer(w, c.reply)] + AnswerScript(w, c)), w,
                  AfterReached(db, MessageOf(s, w), day, c).0, multiset{})
  {
    AcceptedRows(db, MessageOf(s, w), c, s.now);
    ConfirmedRows(db, MessageOf(s, w), c.reply.id, s.now);
    UnsavedAgrees(s, w, c.reply.id, c.saves);
  }

  lemma AnswerFailed(s: Sys, w: nat, c: Course, day: nat, db: Db)
    requires Ready(s, w, Calling) && !c.reply.Accepted? && c.storage == Stored && day == DayOf(s.now)
    requires MessageOf(s, w) in db.attempts && MessageOf(s, w) in db.messages
    requires s.db == AttemptSet(db, MessageOf(s, w), InFlight)
    ensures Ended(s, Run(s, [Answer(w, c.reply)] + AnswerScript(w, c)), w,
                  AfterReached(db, MessageOf(s, w), day, c).0,
                  Requeued(s.workers[w].task, AfterReached(db, MessageOf(s, w), day, c).1))
  {
    FailedRows(db, MessageOf(s, w), c, s.now);
    PlansRetryLast(c.reply);
    SavedAgrees(s, w, c.reply);
  }

  lemma AnswerAgrees(s: Sys, w: nat, c: Course, day: nat, db: Db)
    requires Ready(s, w, Calling) && c.storage == Stored && day == DayOf(s.now)
    requires MessageOf(s, w) in db.attempts && MessageOf(s, w) in db.messages
    requires s.db == AttemptSet(db, MessageOf(s, w), InFlight)
    ensures Ended(s, Run(s, [Answer(w, c.reply)] + AnswerScript(w, c)), w,
                  AfterReached(db, MessageOf(s, w), day, c).0,
                  Requeued(s.workers[w].task, AfterReached(db, MessageOf(s, w), day, c).1))
  {
    if !c.reply.Accepted? {
      AnswerFailed(s, w, c, day, db);
    } else {
      AcceptedRows(db, MessageOf(s, w), c, s.now);
      if c.saves < 2 { AnswerUnsaved(s, w, c, day, db); } else { AnswerSaved(s, w, c, day, db); }
    }
  }

  lemma AfterStart(s: Sys, w: nat, c: Course) returns (s1: Sys)
    requires Ready(s, w, Slotted)
    ensures Ready(s1, w, Calling) && s1.db == AttemptSet(s.db, MessageOf(s, w), InFlight) && s1.tasks == s.tasks
    ensures s1.now == s.now && s1.workers[w].task == s.workers[w].task
    ensures s1.workers == s.workers[w := s1.workers[w]]
    ensures Run(s, CallScript(w, c)) == Run(s1, [Answer(w, c.reply)] + AnswerScript(w, c))
  {
    s1 := StepStartCall(s, w);
    DialsOut(s, w);
    assert CallScript(w, c) == [StartCall(w)] + ([Answer(w, c.reply)] + AnswerScript(w, c));
    RunOne(s, StartCall(w), [Answer(w, c.reply)] + AnswerScript(w, c));
  }

  lemma CallAgrees(s: Sys, w: nat, c: Course)
    requires Ready(s, w, Slotted) && c.storage == Stored
    ensures var (db, result) := AfterReached(s.db, MessageOf(s, w), DayOf(s.now), c);
      Ended(s, Run(s, CallScript(w, c)), w, db, Requeued(s.workers[w].task, result))
  {
    var s1 := AfterStart(s, w, c);
    AnswerAgrees(s1, w, c, DayOf(s.now), s.db);
    var (db, result) := AfterReached(s.db, MessageOf(s, w), DayOf(s.now), c);
    EndedThen(s, s1, Run(s, CallScript(w, c)), w, db, Requeued(s.workers[w].task, result));
  }

  lemma SlotAgrees(s: Sys, w: nat, c: Course)
    requires Ready(s, w, Slotted)
    ensures var (db, result) := AfterReached(s.db, MessageOf(s, w), DayOf(s.now), c);
      Ended(s, Run(s, SlotScript(w, c)), w, db, Requeued(s.workers[w].task, result))
  {
    match c.storage
    case Down => OutageAgrees(s, w);
    case Breaks => UnexpectedAgrees(s, w);
    case Stored => CallAgrees(s, w, c);
  }

  lemma TakesIt(s: Sys, w: nat, limit: Option<nat>)
    requires Ready(s, w, Holding) && SlotFree(s.db, limit, DayOf(s.now))
    ensures var t := StepTakeSlot(s, w, limit);
      && Ready(t, w, Slotted) && t.db == SlotReserved(s.db, DayOf(s.now)) && t.tasks == s.tasks
      && t.now == s.now && t.workers[w].task == s.workers[w].task && t.workers == s.workers[w := t.workers[w]]
  {
  }

  lemma AfterSlot(s: Sys, w: nat, c: Course) returns (s1: Sys)
    requires Ready(s, w, Holding) && SlotFree(s.db, c.limit, DayOf(s.now))
    ensures Ready(s1, w, Slotted) && s1.db == SlotReserved(s.db, DayOf(s.now)) && s1.tasks == s.tasks
    ensures s1.now == s.now && s1.workers[w].task == s.workers[w].task
    ensures s1.workers == s.workers[w := s1.workers[w]]
    ensures Run(s, [TakeSlot(w, c.limit)] + SlotScript(w, c)) == Run(s1, SlotScript(w, c))
  {
    s1 := StepTakeSlot(s, w, c.limit);
    TakesIt(s, w, c.limit);
    RunOne(s, TakeSlot(w, c.limit), SlotScript(w, c));
  }

  lemma AllowedAgrees(s: Sys, w: nat, c: Course)
    requires Ready(s, w, Holding) && c.allowed && SlotFree(s.db, c.limit, DayOf(s.now))
    ensures var (db, result) := AfterProvided(s.db, MessageOf(s, w), DayOf(s.now), c);
      Ended(s, Run(s, [TakeSlot(w, c.limit)] + SlotScript(w, c)), w, db, Requeued(s.workers[w].task, result))
  {
    var s1 := AfterSlot(s, w, c);
    SlotAgrees(s1, w, c);
    var (db, result) := AfterReached(s1.db, MessageOf(s, w), DayOf(s.now), c);
    EndedThen(s, s1, Run(s1, SlotScript(w, c)), w, db, Requeued(s.workers[w].task, result));
  }

  lemma HeldAgrees(s: Sys, w: nat, c: Course)
    requires Ready(s, w, Holding)
    ensures var (db, result) := AfterProvided(s.db, MessageOf(s, w), DayOf(s.now), c);
      Ended(s, Run(s, HeldScript(SlotFree(s.db, c.limit, DayOf(s.now)), w, c)), w, db,
            Requeued(s.workers[w].task, result))
  {
    if !c.allowed {
      RefusedAgrees(s, w);
    } else if !SlotFree(s.db, c.limit, DayOf(s.now)) {
      LimitAgrees(s, w, c.limit);
    } else {
      AllowedAgrees(s, w, c);
    }
  }

  lemma HandsOver(s: Sys, w: nat, task: Task)
    requires w < |s.workers| && s.workers[w] == Idle && task in s.tasks
    requires task.message in s.db.messages && CanReserve(s.db, task.message)
    ensures var t := StepDeliver(s, w, task);
      && Ready(t, w, Holding) && t.db == Reserved(s.db, task.message, s.now) && t.tasks == s.tasks - multiset{task}
      && t.now == s.now && t.workers[w].task == task && t.workers == s.workers[w := t.workers[w]]
  {
  }

  lemma SkipAgrees(s: Sys, w: nat, task: Task)
    requires w < |s.workers| && s.workers[w] == Idle && task in s.tasks && !CanReserve(s.db, task.message)
    ensures Run(s, [Deliver(w, task)]) == s.(tasks := s.tasks - multiset{task})
  {
    SkipStep(s, w, task);
    RunInto(s, Deliver(w, task), s.(tasks := s.tasks - multiset{task}));
  }

  lemma RunInto(s: Sys, e: Event, t: Sys)
    requires Step(s, e) == t
    ensures Run(s, [e]) == t
  {
    RunSingle(s, e);
  }

  lemma SkipStep(s: Sys, w: nat, task: Task)
    requires w < |s.workers| && s.workers[w] == Idle && task in s.tasks && !CanReserve(s.db, task.message)
    ensures Step(s, Deliver(w, task)) == s.(tasks := s.tasks - multiset{task})
  {
  }

  lemma HeldRun(s: Sys, s1: Sys, w: nat, task: Task, c: Course, es: seq<Event>)
    requires w < |s.workers| && s.workers[w] == Idle && Ready(s1, w, Holding) && s1.workers[w].task == task
    requires s1.workers == s.workers[w := s1.workers[w]]
    requires es == HeldScript(SlotFree(s1.db, c.limit, DayOf(s1.now)), w, c)
    ensures var t, (db, result) := Run(s1, es), AfterProvided(s1.db, task.message, DayOf(s1.now), c);
      t.db == db && t.workers == s.workers && t.tasks == s1.tasks + Requeued(task, result)
  {
    HeldAgrees(s1, w, c);
    assert s1.workers[w := Idle] == s.workers;
  }

  lemma ScriptStarts(db: Db, m: nat, w: nat, task: Task, now: nat, c: Course)
    requires CanReserve(db, m) && task.message == m
    ensures Script(db, w, task, now, c)
      == [Deliver(w, task)] + HeldScript(SlotFree(Reserved(db, m, now), c.limit, DayOf(now)), w, c)
  {
  }

  lemma ScriptRuns(s: Sys, w: nat, task: Task, c: Course)
    requires CanReserve(s.db, task.message)
    ensures var free := SlotFree(Reserved(s.db, task.message, s.now), c.limit, DayOf(s.now));
      Run(s, Script(s.db, w, task, s.now, c)) == Run(Step(s, Deliver(w, task)), HeldScript(free, w, c))
  {
    ScriptStarts(s.db, task.message, w, task, s.now, c);
    RunOne(s, Deliver(w, task), HeldScript(SlotFree(Reserved(s.db, task.message, s.now), c.limit, DayOf(s.now)), w, c));
  }

  lemma AfterDelivery(s: Sys, w: nat, task: Task, c: Course) returns (s1: Sys)
    requires w < |s.workers| && s.workers[w] == Idle && task in s.tasks
    requires task.message in s.db.messages && CanReserve(s.db, task.message)
    ensures Ready(s1, w, Holding) && s1.workers[w].task == task && s1.workers == s.workers[w := s1.workers[w]]
    ensures s1.db == Reserved(s.db, task.message, s.now) && s1.tasks == s.tasks - multiset{task} && s1.now == s.now
    ensures Run(s, Script(s.db, w, task, s.now, c))
      == Run(s1, HeldScript(SlotFree(s1.db, c.limit, DayOf(s1.now)), w, c))
  {
    s1 := StepDeliver(s, w, task);
    HandsOver(s, w, task);
    ScriptRuns(s, w, task, c);
  }

  lemma ReservedAgrees(s: Sys, w: nat, task: Task, c: Course)
    requires w < |s.workers| && s.workers[w] == Idle && task in s.tasks
    requires task.message in s.db.messages && CanReserve(s.db, task.message)
    ensures var t, (db, result) := Run(s, Script(s.db, w, task, s.now, c)), Tasked(s.db, task.message, s.now, c);
      t.db == db && t.workers == s.workers && t.tasks == s.tasks - multiset{task} + Requeued(task, result)
  {
    var s1 := AfterDelivery(s, w, task, c);
    HeldRun(s, s1, w, task, c, HeldScript(SlotFree(s1.db, c.limit, DayOf(s1.now)), w, c));
  }

  /** A delivery that nothing interrupts leaves the rows and the queue that the task run alone leaves, and its worker
      idle again, whatever the surroundings decide. */
  lemma MachineAgrees(s: Sys, w: nat, task: Task, c: Course)
    requires w < |s.workers| && s.workers[w] == Idle && task in s.tasks
    requires task.message in s.db.attempts && task.message in s.db.messages
    ensures var t, (db, result) := Run(s, Script(s.db, w, task, s.now, c)), Tasked(s.db, task.message, s.now, c);
      && t.db == db && t.workers == s.workers
      && t.tasks == s.tasks - multiset{task} + Requeued(task, result)
  {
    if CanReserve(s.db, task.message) {
      ReservedAgrees(s, w, task, c);
    } else {
      SkipAgrees(s, w, task);
    }
  }
}

/** Concrete runs showing that the conditions found for the send machine cannot be dropped. */
module SendWitnesses {
  import opened Types
  import opened SendModel
  import opened SendMachine
  import opened SendSafety
  import opened SendExclusive
  import opened SendStranded
  import opened SendSlots
  import opened SendSchedule

  const T := Task(0, 0)

  /** Message 0 has an attempt in this status, `queued` copies of its task wait, and the pool looks like this. */
  predicate Scene(s: Sys, status: AttemptStatus, reservations: nat, queued: nat, pool: seq<Worker>) {
    && s.now == 0 && 0 in s.db.messages && 0 in s.db.attempts
    && s.db.attempts[0].status == status && s.db.attempts[0].reservations == reservations
    && s.tasks[T] == queued && s.workers == pool
  }

  predicate NothingSent(s: Sys) {
    s.db.sent == multiset{} && s.ledger == [] && s.leaks == multiset{}
  }

  lemma Opens(n: nat) returns (es: seq<Event>)
    ensures Scene(Run(Init(n), es), Pending, 0, 1, seq(n, _ => Idle)) && NothingSent(Run(Init(n), es))
    ensures es == [Compose(0, None), Publish(0)]
  {
    es := [Compose(0, None), Publish(0)];
    RunTwo(Init(n), Compose(0, None), Publish(0));
  }

  // ---- One step of a worker ----

  lemma Reserves(s: Sys, w: nat, status: AttemptStatus, reservations: nat, queued: nat, pool: seq<Worker>)
    requires Scene(s, status, reservations, queued, pool) && status in {Pending, Rejected}
    requires queued >= 1 && w < |pool| && pool[w] == Idle
    ensures var t := Step(s, Deliver(w, T));
      && Scene(t, InFlight, reservations + 1, queued - 1, pool[w := Busy(T, reservations + 1, None, Holding)])
      && t.db.sent == s.db.sent && t.ledger == s.ledger && t.leaks == s.leaks
  {
  }

  lemma Copied(s: Sys, w: nat, status: AttemptStatus, reservations: nat, queued: nat, pool: seq<Worker>)
    requires Scene(s, status, reservations, queued, pool) && w < |pool| && pool[w].Busy? && pool[w].task == T
    ensures Scene(Step(s, Redeliver(w)), status, reservations, queued + 1, pool)
    ensures Step(s, Redeliver(w)).ledger == s.ledger
  {
  }

  lemma TakesSlot(s: Sys, w: nat, reservations: nat, queued: nat, pool: seq<Worker>)
    requires Scene(s, InFlight, reservations, queued, pool)
    requires w < |pool| && pool[w] == Busy(T, reservations, None, Holding)
    ensures var t := Step(s, TakeSlot(w, None));
      && Scene(t, InFlight, reservations, queued, pool[w := Busy(T, reservations, Some(0), Slotted)])
      && t.db.sent == s.db.sent + multiset{0} && t.ledger == s.ledger && t.leaks == s.leaks
  {
  }

  lemma Dials(s: Sys, w: nat, reservations: nat, queued: nat, pool: seq<Worker>)
    requires Scene(s, InFlight, reservations, queued, pool)
    requires w < |pool| && pool[w] == Busy(T, reservations, Some(0), Slotted)
    ensures Scene(Step(s, StartCall(w)), InFlight, reservations, queued, pool[w := OnTheLine(reservations)])
    ensures Step(s, StartCall(w)).ledger == s.ledger
  {
  }

  // ---- Two workers at once ----

  const FIRST := Busy(T, 1, None, Holding)
  const FIRST_LATE := Busy(T, 1, None, Winding([FailMessage, MarkFailed]))

  function OnTheLine(ticket: nat): Worker {
    Busy(T, ticket, Some(0), Calling)
  }

  /** Worker 0 takes the task and the broker hands out two more copies of it. */
  lemma HandsOut(s: Sys) returns (es: seq<Event>)
    requires Scene(s, Pending, 0, 1, [Idle, Idle, Idle])
    ensures Scene(Run(s, es), InFlight, 1, 2, [FIRST, Idle, Idle])
  {
    es := [Deliver(0, T), Redeliver(0), Redeliver(0)];
    RunThree(s, es[0], es[1], es[2]);
    Reserves(s, 0, Pending, 0, 1, [Idle, Idle, Idle]);
    var s1 := Step(s, Deliver(0, T));
    Copied(s1, 0, InFlight, 1, 0, [FIRST, Idle, Idle]);
    Copied(Step(s1, Redeliver(0)), 0, InFlight, 1, 1, [FIRST, Idle, Idle]);
  }

  /** Worker 0 finds a suppressed recipient and starts failing the attempt. */
  lemma Refuses(s: Sys) returns (es: seq<Event>)
    requires Scene(s, InFlight, 1, 2, [FIRST, Idle, Idle])
    ensures Scene(Run(s, es), Rejected, 1, 2, [FIRST_LATE, Idle, Idle])
  {
    es := [Refuse(0), Commit(0)];
    RunTwo(s, es[0], es[1]);
    assert Step(s, Refuse(0)).workers[0].stage.todo[1..] == [FailMessage, MarkFailed];
  }

  /** A free worker reserves a rejected attempt and reaches the provider. */
  lemma Calls(s: Sys, w: nat, reservations: nat, queued: nat, pool: seq<Worker>) returns (es: seq<Event>)
    requires Scene(s, Rejected, reservations, queued, pool) && queued >= 1 && w < |pool| && pool[w] == Idle
    ensures Scene(Run(s, es), InFlight, reservations + 1, queued - 1, pool[w := OnTheLine(reservations + 1)])
    ensures Run(s, es).ledger == s.ledger
  {
    es := [Deliver(w, T), TakeSlot(w, None), StartCall(w)];
    RunThree(s, es[0], es[1], es[2]);
    Reserves(s, w, Rejected, reservations, queued, pool);
    var s1 := Step(s, Deliver(w, T));
    TakesSlot(s1, w, reservations + 1, queued - 1, s1.workers);
    var s2 := Step(s1, TakeSlot(w, None));
    Dials(s2, w, reservations + 1, queued - 1, s2.workers);
    assert Step(s2, StartCall(w)).workers == pool[w := OnTheLine(reservations + 1)];
  }

  /** Worker 0's last two writes: the second is mark_attempt_failed, on an attempt worker 1 now holds. */
  lemma WritesLate(s: Sys) returns (es: seq<Event>)
    requires Scene(s, InFlight, 2, 1, [FIRST_LATE, OnTheLine(2), Idle])
    ensures Scene(Run(s, es), Rejected, 2, 1, [Idle, OnTheLine(2), Idle]) && !NoLateMarks(s, es)
  {
    es := [Commit(0), Commit(0)];
    RunTwo(s, es[0], es[1]);
    var s1 := Step(s, Commit(0));
    assert [FailMessage, MarkFailed][1..] == [MarkFailed];
    assert Scene(s1, InFlight, 2, 1, [Busy(T, 1, None, Winding([MarkFailed])), OnTheLine(2), Idle]);
    assert Holds(s1, 1, MessageOf(s1, 0));
    assert es[1..] == [Commit(0)];
  }

  lemma BothCall() returns (es: seq<Event>)
    ensures Scene(Run(Init(3), es), InFlight, 3, 0, [Idle, OnTheLine(2), OnTheLine(3)])
  {
    es := Opens(3);
    var more := HandsOut(Run(Init(3), es));
    RunAppend(Init(3), es, more);
    es := es + more;
    more := Refuses(Run(Init(3), es));
    RunAppend(Init(3), es, more);
    es := es + more;
    more := Calls(Run(Init(3), es), 1, 1, 2, [FIRST_LATE, Idle, Idle]);
    RunAppend(Init(3), es, more);
    es := es + more;
    more := WritesLate(Run(Init(3), es));
    RunAppend(Init(3), es, more);
    es := es + more;
    more := Calls(Run(Init(3), es), 2, 2, 1, [Idle, OnTheLine(2), Idle]);
    RunAppend(Init(3), es, more);
    es := es + more;
  }

  /** Two further copies of one task suffice for two workers to be in the provider call for the same attempt. */
  lemma TwoWorkersAtOnce() returns (es: seq<Event>)
    ensures Holds(Run(Init(3), es), 1, 0) && Run(Init(3), es).workers[1].stage == Calling
    ensures Holds(Run(Init(3), es), 2, 0) && Run(Init(3), es).workers[2].stage == Calling
  {
    es := BothCall();
  }

  /** And when the provider accepts both calls, one message has gone out twice. */
  lemma SentTwice() returns (es: seq<Event>)
    ensures var ledger := Run(Init(3), es).ledger;
      |ledger| >= 2 && ledger[|ledger| - 2].message == ledger[|ledger| - 1].message
  {
    es := BothCall();
    var s := Run(Init(3), es);
    var more := [Answer(1, Accepted("first")), Answer(2, Accepted("second"))];
    RunTwo(s, more[0], more[1]);
    assert BusyAt(s, 1) && MessageOf(s, 1) == 0 && BusyAt(Step(s, more[0]), 2);
    RunAppend(Init(3), es, more);
    es := es + more;
  }

  // ---- One worker whose confirmation is not saved ----

  /** The provider accepts. */
  lemma Accepts(s: Sys)
    requires Scene(s, InFlight, 1, 1, [OnTheLine(1)]) && s.ledger == []
    ensures var t := Step(s, Answer(0, Accepted("first")));
      && Scene(t, InFlight, 1, 1, [Busy(T, 1, None, Winding(Plan(Accepted("first"))))])
      && t.ledger == [Confirmation(0, 0)]
  {
    assert BusyAt(s, 0) && MessageOf(s, 0) == 0;
  }

  /** Saving that raises. */
  lemma FailsToSave(s: Sys)
    requires Scene(s, InFlight, 1, 1, [Busy(T, 1, None, Winding(Plan(Accepted("first"))))])
    ensures Scene(Step(s, Unexpected(0)), InFlight, 1, 1, [Busy(T, 1, None, Winding([MarkFailed]))])
    ensures Step(s, Unexpected(0)).ledger == s.ledger
  {
    assert BusyAt(s, 0);
  }

  /** The task's own handler marks the attempt failed. */
  lemma MarksOwn(s: Sys)
    requires Scene(s, InFlight, 1, 1, [Busy(T, 1, None, Winding([MarkFailed]))])
    requires s.ledger == [Confirmation(0, 0)]
    ensures Scene(Step(s, Commit(0)), Rejected, 1, 1, [Idle]) && Step(s, Commit(0)).ledger == s.ledger
    ensures UndoingMark(s, Commit(0)) && CanReserve(Step(s, Commit(0)).db, 0)
  {
    assert s.ledger[0].message == 0 && InLedger(s, 0);
    assert [MarkFailed][1..] == [];
  }

  /** A worker whose confirmation is not saved marks its attempt failed. */
  lemma LosesConfirmation(s: Sys) returns (es: seq<Event>)
    requires Scene(s, InFlight, 1, 1, [OnTheLine(1)]) && s.ledger == []
    ensures Scene(Run(s, es), Rejected, 1, 1, [Idle]) && Run(s, es).ledger == [Confirmation(0, 0)]
    ensures !NoUndoingMarks(s, es) && CanReserve(Run(s, es).db, 0)
  {
    es := [Answer(0, Accepted("first")), Unexpected(0), Commit(0)];
    RunThree(s, es[0], es[1], es[2]);
    Accepts(s);
    var s1 := Step(s, es[0]);
    FailsToSave(s1);
    var s2 := Step(s1, es[1]);
    MarksOwn(s2);
    assert es[1..] == [es[1], es[2]] && es[1..][1..] == [es[2]];
    assert !NoUndoingMarks(s2, [es[2]]);
  }

  lemma TakesCopied(s: Sys) returns (es: seq<Event>)
    requires Scene(s, Pending, 0, 1, [Idle])
    ensures Scene(Run(s, es), InFlight, 1, 1, [FIRST]) && Run(s, es).ledger == s.ledger
  {
    es := [Deliver(0, T), Redeliver(0)];
    RunTwo(s, es[0], es[1]);
    Reserves(s, 0, Pending, 0, 1, [Idle]);
    assert Step(s, es[0]).workers == [FIRST];
    Copied(Step(s, es[0]), 0, InFlight, 1, 0, [FIRST]);
  }

  lemma GetsThrough(s: Sys) returns (es: seq<Event>)
    requires Scene(s, InFlight, 1, 1, [FIRST])
    ensures Scene(Run(s, es), InFlight, 1, 1, [OnTheLine(1)]) && Run(s, es).ledger == s.ledger
  {
    es := [TakeSlot(0, None), StartCall(0)];
    RunTwo(s, es[0], es[1]);
    TakesSlot(s, 0, 1, 1, [FIRST]);
    assert Step(s, es[0]).workers == [Busy(T, 1, Some(0), Slotted)];
    Dials(Step(s, es[0]), 0, 1, 1, [Busy(T, 1, Some(0), Slotted)]);
    assert Run(s, es).workers == [OnTheLine(1)];
  }

  lemma SecondAnswer(s: Sys)
    requires Scene(s, InFlight, 2, 0, [OnTheLine(2)])
    ensures Run(s, [Answer(0, Accepted("second"))]).ledger == s.ledger + [Confirmation(0, 0)]
  {
    assert [Answer(0, Accepted("second"))][1..] == [];
    assert AtStage(s, 0, Calling) && MessageOf(s, 0) == 0;
    assert Run(s, [Answer(0, Accepted("second"))]) == Run(Step(s, Answer(0, Accepted("second"))), []);
  }

  /** The worker has called once, the provider has accepted, and the attempt can be reserved again. */
  lemma ConfirmedButFailed() returns (es: seq<Event>)
    ensures Scene(Run(Init(1), es), Rejected, 1, 1, [Idle]) && Run(Init(1), es).ledger == [Confirmation(0, 0)]
  {
    es := Opens(1);
    assert seq(1, _ => Idle) == [Idle];
    var more := TakesCopied(Run(Init(1), es));
    RunAppend(Init(1), es, more);
    es := es + more;
    more := GetsThrough(Run(Init(1), es));
    RunAppend(Init(1), es, more);
    es := es + more;
    more := LosesConfirmation(Run(Init(1), es));
    RunAppend(Init(1), es, more);
    es := es + more;
  }

  /** A single worker, and a second copy of the task, send one message twice if a confirmation cannot be saved. */
  lemma OneWorkerSendsTwice() returns (es: seq<Event>)
    ensures Run(Init(1), es).ledger == [Confirmation(0, 0), Confirmation(0, 0)]
  {
    es := ConfirmedButFailed();
    var more := Calls(Run(Init(1), es), 0, 1, 1, [Idle]);
    RunAppend(Init(1), es, more);
    es := es + more;
    assert [Idle][0 := OnTheLine(2)] == [OnTheLine(2)];
    SecondAnswer(Run(Init(1), es));
    RunAppend(Init(1), es, [Answer(0, Accepted("second"))]);
    es := es + [Answer(0, Accepted("second"))];
  }

  // ---- A cancellation that lands late ----

  /** A worker reserves the attempt between the cancellation's read of PENDING and its write: the attempt is then
      withdrawn while the worker holds it. */
  lemma CancelLandsLate() returns (es: seq<Event>)
    ensures CanCancel(Run(Init(1), es).db, 0)
    ensures var t := Step(Run(Init(1), es), Deliver(0, T));
      && 0 in t.db.attempts && 0 in t.db.messages
      && var u := t.(db := CancelWritten(t.db, 0));
         Holds(u, 0, 0) && u.db.attempts[0].status == Withdrawn && !Basic(u)
  {
    es := Opens(1);
    var s := Run(Init(1), es);
    BasicRun(Init(1), es);
    assert seq(1, _ => Idle) == [Idle];
    Reserves(s, 0, Pending, 0, 1, [Idle]);
    var t := Step(s, Deliver(0, T));
    BasicStep(s, Deliver(0, T));
    UnlockedCancelIff(t, 0);
  }

  // ---- Sends before their time ----

  lemma RunFive(s: Sys, es: seq<Event>)
    requires |es| == 5
    ensures Run(s, es) == Step(Step(Step(Step(Step(s, es[0]), es[1]), es[2]), es[3]), es[4])
  {
    var a, b := [es[0], es[1]], [es[2], es[3], es[4]];
    assert es == a + b;
    RunAppend(s, a, b);
    RunTwo(s, es[0], es[1]);
    RunThree(Run(s, a), es[2], es[3], es[4]);
  }

  /** Message 0 has this time, its attempt is pending if it has one, and so many tasks of it are queued. */
  predicate Early(s: Sys, at: Option<nat>, attempted: bool, queued: nat) {
    && s.now == 0 && s.workers == [Idle] && s.early == {} && s.tasks[T] == queued && 0 in s.drafts
    && 0 in s.db.messages && s.db.messages[0].scheduledAt == at
    && (if attempted then 0 in s.db.attempts && s.db.attempts[0].status == Pending
        else 0 !in s.db.attempts && s.db.messages[0].status == EmailStatus.Draft)
  }

  lemma DeliveredEarly(s: Sys)
    requires Early(s, Some(60), true, 1)
    ensures Step(s, Deliver(0, T)).early == {0}
  {
  }

  /** The draft is scheduled after the promotion has loaded it, and goes out at once. */
  lemma PromotedWithOldTime() returns (es: seq<Event>)
    ensures Run(Init(1), es).early == {0} && !Unhurried(Init(1), es)
  {
    es := [SaveDraft(0, None), SaveDraft(0, Some(60)), Promote(0, None), Publish(0), Deliver(0, T)];
    RunFive(Init(1), es);
    assert seq(1, _ => Idle) == [Idle];
    var s1 := Step(Init(1), es[0]);
    assert Early(s1, None, false, 0);
    var s2 := Step(s1, es[1]);
    assert Early(s2, Some(60), false, 0);
    var s3 := Step(s2, es[2]);
    assert Early(s3, Some(60), true, 0) && s3.outbox[0] == None;
    assert Early(Step(s3, es[3]), Some(60), true, 1);
    DeliveredEarly(Step(s3, es[3]));
    if Unhurried(Init(1), es) { NeverEarly(1, es, T); }
  }

  /** The save of an edit that was under way before the promotion schedules a message whose task is queued. */
  lemma ScheduledTooLate() returns (es: seq<Event>)
    ensures Run(Init(1), es).early == {0} && !Unhurried(Init(1), es)
  {
    es := [SaveDraft(0, None), Promote(0, None), Publish(0), SaveDraft(0, Some(60)), Deliver(0, T)];
    RunFive(Init(1), es);
    assert seq(1, _ => Idle) == [Idle];
    var s1 := Step(Init(1), es[0]);
    assert Early(s1, None, false, 0);
    var s2 := Step(s1, es[1]);
    assert Early(s2, None, true, 0) && s2.outbox[0] == None;
    var s3 := Step(s2, es[2]);
    assert Early(s3, None, true, 1);
    assert Early(Step(s3, es[3]), Some(60), true, 1);
    DeliveredEarly(Step(s3, es[3]));
    if Unhurried(Init(1), es) { NeverEarly(1, es, T); }
  }

  // ---- An outage, and a release after midnight ----

  const WAITING := Busy(T, 1, Some(0), Winding([ReleaseSlot, Retry]))

  lemma LosesStorage(s: Sys) returns (es: seq<Event>)
    requires Scene(s, Pending, 0, 1, [Idle]) && NothingSent(s)
    ensures Scene(Run(s, es), InFlight, 1, 0, [WAITING])
    ensures Run(s, es).db.sent[0] == 1 && Run(s, es).ledger == [] && Run(s, es).leaks == multiset{}
    ensures forall i :: 0 <= i < |es| ==> Orderly(es[i])
  {
    es := [Deliver(0, T), TakeSlot(0, None), StorageOutage(0)];
    RunThree(s, es[0], es[1], es[2]);
    Reserves(s, 0, Pending, 0, 1, [Idle]);
    var s1 := Step(s, Deliver(0, T));
    TakesSlot(s1, 0, 1, 0, s1.workers);
    LosesIt(Step(s1, TakeSlot(0, None)));
  }

  lemma LosesIt(s: Sys)
    requires Scene(s, InFlight, 1, 0, [Busy(T, 1, Some(0), Slotted)])
    ensures var t := Step(s, StorageOutage(0));
      && Scene(t, InFlight, 1, 0, [WAITING])
      && t.db.sent == s.db.sent && t.ledger == s.ledger && t.leaks == s.leaks
  {
  }

  lemma ReleasesLate(s: Sys) returns (es: seq<Event>)
    requires Scene(s, InFlight, 1, 0, [WAITING]) && s.db.sent[0] == 1 && s.ledger == [] && s.leaks == multiset{}
    ensures !Balanced(Run(s, es), 0) && forall i :: 0 <= i < |es| ==> Orderly(es[i])
  {
    es := [Tick(SECONDS_PER_DAY), Commit(0)];
    RunTwo(s, es[0], es[1]);
    var s1 := Step(s, Tick(SECONDS_PER_DAY));
    var t := Step(s1, Commit(0));
    assert DayOf(s1.now) == 1;
    assert t.workers == [MovedOn(WAITING)];
    assert SlotsHeld(t.workers, 0) == 0;
  }

  /** A slot taken before midnight and released after it stays on the first day's counter, with no crash involved. */
  lemma MidnightRelease() returns (es: seq<Event>)
    ensures (forall i :: 0 <= i < |es| ==> Orderly(es[i])) && !Balanced(Run(Init(1), es), 0)
  {
    es := Opens(1);
    assert seq(1, _ => Idle) == [Idle];
    var more := LosesStorage(Run(Init(1), es));
    RunAppend(Init(1), es, more);
    es := es + more;
    more := ReleasesLate(Run(Init(1), es));
    RunAppend(Init(1), es, more);
    es := es + more;
  }

  lemma Releases(s: Sys)
    requires Scene(s, InFlight, 1, 0, [WAITING])
    ensures Stranded(Run(s, [Commit(0)]), 0)
  {
    assert [Commit(0)][1..] == [];
    assert Run(s, [Commit(0)]) == Run(Step(s, Commit(0)), []);
    assert [ReleaseSlot, Retry][1..] == [Retry];
    assert Step(s, Commit(0)).workers == [Busy(T, 1, None, Winding([Retry]))];
  }

  /** One outage of the storage and the release of the slot, nothing else, and the message is stranded. */
  lemma StrandedByOutage() returns (es: seq<Event>)
    ensures Stranded(Run(Init(1), es), 0) && Basic(Run(Init(1), es))
  {
    es := Opens(1);
    assert seq(1, _ => Idle) == [Idle];
    var more := LosesStorage(Run(Init(1), es));
    RunAppend(Init(1), es, more);
    es := es + more;
    Releases(Run(Init(1), es));
    RunAppend(Init(1), es, [Commit(0)]);
    es := es + [Commit(0)];
    BasicRun(Init(1), es);
  }
}

/** The outbound pipeline's functions as they run, each on the shared rows; one call without interference. */
module SendStore {
  import opened Types
  import opened SendModel
  import opened SendMachine
  import opened SendTask

  class Store {
    var messages: map<nat, Message>
    var attempts: map<nat, Attempt>
    var sent: multiset<nat>
    var failed: multiset<nat>
    var queue: multiset<Task>
    var now: nat

    constructor (now: nat)
      ensures Rows() == Db(map[], map[], multiset{}, multiset{}) && queue == multiset{} && this.now == now
    {
      messages, attempts, sent, failed, queue, this.now := map[], map[], multiset{}, multiset{}, multiset{}, now;
    }

    function Rows(): Db
      reads this
    {
      Db(messages, attempts, sent, failed)
    }

    function Due(): set<nat>
      reads this
    {
      set m | m in attempts && DueForSweep(Rows(), m, now)
    }

    // ---- hedwig/manager.py and hedwig/views.py ----

    method CreateOutboundMessage(m: nat, at: Option<nat>)
      requires m !in messages && m !in attempts
      modifies this`messages, this`attempts
      ensures Rows() == Composed(old(Rows()), m, at)
    {
      messages := messages[m := Message(Queued, at, None)];
      attempts := attempts[m := Attempt(Pending, 0, None)];
    }

    /** Promoting a draft that already has an attempt fails on the unique attempt number and is rolled back. */
    method PromoteDraftToSend(m: nat) returns (ok: bool)
      requires m in messages && messages[m].status == EmailStatus.Draft
      modifies this`messages, this`attempts
      ensures ok <==> m !in old(attempts)
      ensures ok ==> CanPromote(old(Rows()), m) && Rows() == Promoted(old(Rows()), m)
      ensures !ok ==> Rows() == old(Rows())
    {
      var before := messages;
      messages := messages[m := messages[m].(status := Queued)];
      if m in attempts {
        messages := before;
        return false;
      }
      attempts := attempts[m := Attempt(Pending, 0, None)];
      ok := true;
    }

    method EnqueueSend(m: nat, scheduledAt: Option<nat>)
      modifies this`queue
      ensures queue == old(queue) + if DueBy(scheduledAt, now) then multiset{Task(m, 0)} else multiset{}
    {
      if scheduledAt.Some? && scheduledAt.value > now {
        return;
      }
      queue := queue + multiset{Task(m, 0)};
    }

    method CancelScheduledSend(m: nat) returns (ok: bool)
      requires m in messages
      modifies this`messages, this`attempts
      ensures ok <==> CanCancel(old(Rows()), m)
      ensures Rows() == if ok then CancelWritten(old(Rows()), m) else old(Rows())
    {
      if messages[m].status != Queued {
        return false;
      }
      if !(m in attempts && attempts[m].status == Pending) {
        return false;
      }
      attempts := attempts[m := attempts[m].(status := Withdrawn)];
      messages := messages[m := messages[m].(status := EmailStatus.Draft, scheduledAt := None)];
      ok := true;
    }

    // ---- hedwig/tasks.py ----

    method ReserveAttemptForSending(m: nat) returns (ok: bool)
      requires m in attempts
      modifies this`attempts
      ensures ok <==> CanReserve(old(Rows()), m)
      ensures Rows() == if ok then Reserved(old(Rows()), m, now) else old(Rows())
    {
      if attempts[m].status.InFlight? || attempts[m].status.Confirmed? || attempts[m].status.Withdrawn? {
        return false;
      }
      attempts := attempts[m := attempts[m].(status := InFlight, reservations := attempts[m].reservations + 1,
                                             startedAt := Some(now))];
      ok := true;
    }

    method MarkAttemptFailed(m: nat)
      requires m in attempts ==> m in messages
      modifies this`messages, this`attempts
      ensures Rows() == if m in old(attempts) then MarkedFailed(old(Rows()), m) else old(Rows())
    {
      if m !in attempts || attempts[m].status == Confirmed {
        return;
      }
      attempts := attempts[m := attempts[m].(status := Rejected)];
      messages := messages[m := messages[m].(status := Failed)];
    }

    /** One task per due attempt, and none for any other. */
    method DispatchDueScheduledSends() returns (dispatched: nat)
      modifies this`queue
      ensures forall t ::
        queue[t] == old(queue)[t] + if t.retries == 0 && DueForSweep(Rows(), t.message, now) then 1 else 0
      ensures dispatched == |Due()|
    {
      var due := Due();
      var left := due;
      dispatched := 0;
      while left != {}
        invariant left <= due
        invariant forall t ::
          queue[t] == old(queue)[t] + if t.retries == 0 && t.message in due && t.message !in left then 1 else 0
        invariant dispatched + |left| == |due|
        decreases left
      {
        var m :| m in left;
        queue := queue + multiset{Task(m, 0)};
        left := left - {m};
        dispatched := dispatched + 1;
      }
    }

    // ---- providers/manager.py and providers/sending.py ----

    /** Succeeds exactly while the day's count is below the limit; under the effective limit of a domain and its
        provider, exactly while it has reached neither of their nonzero caps. */
    method ReserveSendSlot(limit: Option<nat>) returns (ok: bool)
      modifies this`sent
      ensures ok <==> limit.None? || old(sent)[now / 86400] < limit.value
      ensures forall d, p :: limit == DailySendLimit(d, p) ==>
        (ok <==> !Reaches(old(sent)[now / 86400], d) && !Reaches(old(sent)[now / 86400], p))
      ensures Rows() == if ok then SlotReserved(old(Rows()), DayOf(now)) else old(Rows())
    {
      if limit.Some? && sent[DayOf(now)] >= limit.value {
        return false;
      }
      sent := sent[DayOf(now) := sent[DayOf(now)] + 1];
      ok := true;
    }

    method ReleaseSendSlot()
      modifies this`sent
      ensures Rows() == SlotReleased(old(Rows()), DayOf(now))
    {
      var count := sent[DayOf(now)];
      sent := sent[DayOf(now) := if count >= 1 then count - 1 else 0];
    }

    method RecordSendFailure()
      modifies this`failed
      ensures Rows() == FailureRecorded(old(Rows()), DayOf(now))
    {
      failed := failed[DayOf(now) := failed[DayOf(now)] + 1];
    }

    method MarkSendFailed(m: nat)
      requires m in attempts && m in messages
      modifies this`messages, this`attempts
      ensures Rows() == MessageSet(AttemptSet(old(Rows()), m, Rejected), m, Failed)
    {
      attempts := attempts[m := attempts[m].(status := Rejected)];
      messages := messages[m := messages[m].(status := Failed)];
    }

    /** PostmarkClient.send_message: one request, its answer decided by the provider; `saves` is how many saves of a
        confirmation the database lets through. */
    method SendMessage(m: nat, reply: Reply, saves: nat) returns (raised: Raised)
      requires m in attempts && m in messages
      modifies this`messages, this`attempts
      ensures raised == CallRaises(reply, saves) && Rows() == Called(old(Rows()), m, reply, saves)
      ensures raised == Nothing ==> attempts[m].status == Confirmed && messages[m].providerId == Some(reply.id)
      ensures raised in {Transient, Permanent} ==> attempts[m].status == Rejected && messages[m].status == Failed
      ensures raised == Unforeseen ==> attempts[m].status == InFlight
    {
      attempts := attempts[m := attempts[m].(status := InFlight)];
      match reply
      case NoAnswer =>
        MarkSendFailed(m);
        StartForgotten(old(Rows()), m);
        raised := Transient;
      case Accepted(id) =>
        if saves == 0 {
          return Unforeseen;
        }
        messages := messages[m := messages[m].(status := Sent, providerId := Some(id))];
        if saves == 1 {
          return Unforeseen;
        }
        attempts := attempts[m := attempts[m].(status := Confirmed)];
        raised := Nothing;
      case ServerError =>
        messages := messages[m := messages[m].(status := Failed)];
        attempts := attempts[m := attempts[m].(status := Rejected)];
        StartForgotten(old(Rows()), m);
        raised := Transient;
      case ClientError =>
        messages := messages[m := messages[m].(status := Failed)];
        attempts := attempts[m := attempts[m].(status := Rejected)];
        StartForgotten(old(Rows()), m);
        raised := Permanent;
    }

    /** The body of send_with_provider's try statement. */
    method TrySend(m: nat, c: Course) returns (raised: Raised)
      requires m in attempts && m in messages
      modifies this`messages, this`attempts
      ensures (Rows(), raised) == Tried(old(Rows()), m, c)
    {
      match c.storage
      case Down => raised := Transient;
      case Breaks => raised := Unforeseen;
      case Stored => raised := SendMessage(m, c.reply, c.saves);
    }

    /** The guarded part of send_with_provider: a Transient or Permanent error gives the slot of this call back, any
        other exception does not. */
    method SendReserved(m: nat, c: Course) returns (raised: Raised)
      requires m in attempts && m in messages
      modifies this`messages, this`attempts, this`sent, this`failed
      ensures (Rows(), raised) == Reached(old(Rows()), m, DayOf(now), c)
      ensures sent == if raised in {Transient, Permanent} then old(sent) - multiset{DayOf(now)} else old(sent)
      ensures failed == old(failed) + if raised == Permanent then multiset{DayOf(now)} else multiset{}
    {
      raised := TrySend(m, c);
      if raised == Transient {
        ReleaseSendSlot();
      } else if raised == Permanent {
        ReleaseSendSlot();
        RecordSendFailure();
      }
    }

    /** send_with_provider: the day's counter grows by a confirmed send and by an exception nobody foresaw, failed_count
        exactly by a limit rejection or the provider's permanent refusal. */
    method SendWithProvider(m: nat, c: Course) returns (raised: Raised)
      requires m in attempts && m in messages
      modifies this`messages, this`attempts, this`sent, this`failed
      ensures (Rows(), raised) == Provided(old(Rows()), m, DayOf(now), c)
      ensures sent == old(sent) + if raised in {Nothing, Unforeseen} then multiset{DayOf(now)} else multiset{}
      ensures failed == old(failed) + if c.allowed && raised == Permanent then multiset{DayOf(now)} else multiset{}
    {
      ProvidedCounts(Rows(), m, DayOf(now), c);
      if !c.allowed {
        MarkSendFailed(m);
        return Permanent;
      }
      var slot := ReserveSendSlot(c.limit);
      if !slot {
        RecordSendFailure();
        MarkSendFailed(m);
        return Permanent;
      }
      raised := SendReserved(m, c);
    }

    /** The task's exception handlers. */
    method Handle(task: Task, raised: Raised) returns (result: Result)
      requires task.message in attempts && task.message in messages
      modifies this`messages, this`attempts, this`queue
      ensures (Rows(), result) == Handled(old(Rows()), task.message, raised)
      ensures queue == old(queue) + Requeued(task, result)
    {
      match raised
      case Nothing =>
        result := SentOut;
      case Transient =>
        if task.retries < MAX_RETRIES {
          queue := queue + multiset{Task(task.message, task.retries + 1)};
        }
        result := WillRetry;
      case Permanent =>
        MarkAttemptFailed(task.message);
        result := GaveUp;
      case Unforeseen =>
        MarkAttemptFailed(task.message);
        result := Broke;
    }

    method Perform(task: Task, c: Course) returns (result: Result)
      requires task.message in attempts && task.message in messages
      modifies this`messages, this`attempts, this`sent, this`failed, this`queue
      ensures (Rows(), result) == Tasked(old(Rows()), task.message, now, c)
      ensures queue == old(queue) + Requeued(task, result)
    {
      var reserved := ReserveAttemptForSending(task.message);
      if !reserved {
        return Skipped;
      }
      var raised := SendWithProvider(task.message, c);
      result := Handle(task, raised);
    }

    /** send_email_message_task, run to its end by one worker alone. */
    method SendEmailMessageTask(task: Task, c: Course) returns (result: Result)
      requires task.message in attempts && task.message in messages
      modifies this`messages, this`attempts, this`sent, this`failed, this`queue
      ensures (Rows(), result) == Tasked(old(Rows()), task.message, now, c)
      ensures queue == old(queue) + Requeued(task, result)
      ensures TaskCounted(old(Rows()), Rows(), DayOf(now), c, result)
      ensures TaskOutcome(old(Rows()), Rows(), task.message, c, result)
    {
      TaskCounts(Rows(), task.message, now, c);
      TaskOutcomes(Rows(), task.message, now, c);
      result := Perform(task, c);
    }
  }

  /** The count has reached the cap; a cap that is missing or 0 is none. */
  predicate Reaches(count: nat, cap: Option<nat>) {
    match cap
    case None => false
    case Some(c) => 0 < c <= count
  }

  /** The effective limit stops a send exactly when a nonzero cap of the domain or of its provider has been reached. */
  function DailySendLimit(domainCap: Option<nat>, providerCap: Option<nat>): (limit: Option<nat>)
    ensures forall count: nat ::
      (limit.Some? && count >= limit.value) <==> Reaches(count, domainCap) || Reaches(count, providerCap)
  {
    var d := if domainCap == Some(0) then None else domainCap;
    var p := if providerCap == Some(0) then None else providerCap;
    if d.None? then p else if p.None? then d
    else if d.value <= p.value then d else p
  }
}

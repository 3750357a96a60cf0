/** The rows the outbound pipeline shares, and each of its database transactions as a function on them. */
module SendModel {
  import opened Types

  const SECONDS_PER_DAY := 86400

  function DayOf(time: nat): nat {
    time / SECONDS_PER_DAY
  }

  /** scheduledAt None is an immediate send; providerId is set when the provider has confirmed. */
  datatype Message = Message(status: EmailStatus, scheduledAt: Option<nat>, providerId: Option<string>)

  /** `reservations` counts how often a worker has set started_at; `startedAt` is the last such time. */
  datatype Attempt = Attempt(status: AttemptStatus, reservations: nat, startedAt: Option<nat>)

  /** Every attempt is created with number 1, and (message, number) is unique, so attempts are keyed by message.
      `sent` and `failed` hold one occurrence of a day per unit of that day's counter. */
  datatype Db = Db(
    messages: map<nat, Message>,
    attempts: map<nat, Attempt>,
    sent: multiset<nat>,
    failed: multiset<nat>)

  predicate DueBy(scheduledAt: Option<nat>, now: nat) {
    scheduledAt.Some? ==> scheduledAt.value <= now
  }

  // ---- hedwig/manager.py ----

  function Composed(db: Db, m: nat, at: Option<nat>): Db {
    db.(messages := db.messages[m := Message(Queued, at, None)],
        attempts := db.attempts[m := Attempt(Pending, 0, None)])
  }

  function DraftCreated(db: Db, m: nat, at: Option<nat>): Db {
    db.(messages := db.messages[m := Message(Draft, at, None)])
  }

  /** The save of an edited draft: its status was checked when it was loaded, and is not looked at again. */
  function DraftEdited(db: Db, m: nat, at: Option<nat>): Db
    requires m in db.messages
  {
    db.(messages := db.messages[m := db.messages[m].(scheduledAt := at)])
  }

  /** The attempt insert collides with any earlier attempt of the message, which rolls the promotion back. */
  predicate CanPromote(db: Db, m: nat) {
    m in db.messages && db.messages[m].status == Draft && m !in db.attempts
  }

  function Promoted(db: Db, m: nat): Db
    requires CanPromote(db, m)
  {
    db.(messages := db.messages[m := db.messages[m].(status := Queued)],
        attempts := db.attempts[m := Attempt(Pending, 0, None)])
  }

  predicate CanCancel(db: Db, m: nat) {
    && m in db.messages && db.messages[m].status == Queued
    && m in db.attempts && db.attempts[m].status == Pending
  }

  /** The two writes of a cancellation, whatever the attempt looks like by then. */
  function CancelWritten(db: Db, m: nat): Db
    requires m in db.messages && m in db.attempts
  {
    db.(messages := db.messages[m := db.messages[m].(status := Draft, scheduledAt := None)],
        attempts := db.attempts[m := db.attempts[m].(status := Withdrawn)])
  }

  // ---- hedwig/tasks.py ----

  predicate CanReserve(db: Db, m: nat) {
    m in db.attempts && (db.attempts[m].status.Pending? || db.attempts[m].status.Rejected?)
  }

  function Reserved(db: Db, m: nat, now: nat): Db
    requires CanReserve(db, m)
  {
    var a := db.attempts[m];
    db.(attempts := db.attempts[m := Attempt(InFlight, a.reservations + 1, Some(now))])
  }

  function MarkedFailed(db: Db, m: nat): Db
    requires m in db.attempts && m in db.messages
  {
    if db.attempts[m].status == Confirmed then db
    else MessageSet(AttemptSet(db, m, Rejected), m, Failed)
  }

  predicate DueForSweep(db: Db, m: nat, now: nat) {
    && m in db.attempts && db.attempts[m].status == Pending
    && m in db.messages && db.messages[m].status == Queued
    && db.messages[m].scheduledAt.Some? && db.messages[m].scheduledAt.value <= now
  }

  // ---- providers/manager.py and providers/sending.py ----

  predicate SlotFree(db: Db, limit: Option<nat>, day: nat) {
    limit.Some? ==> db.sent[day] < limit.value
  }

  function SlotReserved(db: Db, day: nat): Db {
    db.(sent := db.sent + multiset{day})
  }

  /** Multiset difference stops at zero, as GREATEST(sent_count - 1, 0) does; a missing row stays missing. */
  function SlotReleased(db: Db, day: nat): Db {
    db.(sent := db.sent - multiset{day})
  }

  function FailureRecorded(db: Db, day: nat): Db {
    db.(failed := db.failed + multiset{day})
  }

  // ---- single-row saves of providers/postmark.py ----

  function AttemptSet(db: Db, m: nat, status: AttemptStatus): Db
    requires m in db.attempts
  {
    db.(attempts := db.attempts[m := db.attempts[m].(status := status)])
  }

  function MessageSet(db: Db, m: nat, status: EmailStatus): Db
    requires m in db.messages
  {
    db.(messages := db.messages[m := db.messages[m].(status := status)])
  }

  function MessageConfirmed(db: Db, m: nat, id: string): Db
    requires m in db.messages
  {
    db.(messages := db.messages[m := db.messages[m].(status := Sent, providerId := Some(id))])
  }
}

/** When at most one worker holds an attempt, and when the provider confirms a message at most once. */
module SendExclusive {
  import opened Types
  import opened SendModel
  import opened SendMachine
  import opened SendSafety

  /** The attempt is in flight under this worker's own reservation. */
  predicate Owns(db: Db, w: Worker) {
    && w.Busy? && w.task.message in db.attempts
    && db.attempts[w.task.message].status == InFlight
    && db.attempts[w.task.message].reservations == w.ticket
  }

  ghost predicate Owned(db: Db, ws: seq<Worker>) {
    forall i :: 0 <= i < |ws| && Holder(ws[i]) ==> Owns(db, ws[i])
  }

  /** Every worker between reserve and outcome owns its attempt. */
  ghost predicate Exclusive(s: Sys) {
    Owned(s.db, s.workers)
  }

  predicate Marking(s: Sys, e: Event) {
    e.Commit? && Committing(s, e.w) && s.workers[e.w].stage.todo[0] == MarkFailed
  }

  /** mark_attempt_failed runs while another worker holds the attempt. */
  ghost predicate LateMark(s: Sys, e: Event) {
    Marking(s, e) && exists i: nat :: i != e.w && Holds(s, i, MessageOf(s, e.w))
  }

  /** mark_attempt_failed runs after the attempt has been reserved again. */
  predicate StaleMark(s: Sys, e: Event) {
    Marking(s, e) && s.workers[e.w].ticket != s.db.attempts[MessageOf(s, e.w)].reservations
  }

  lemma RivalsDiffer(s: Sys, i: nat, j: nat)
    requires Basic(s) && i < |s.workers| && j < |s.workers|
    ensures i != j && Rivals(s.workers[i], s.workers[j]) ==> s.workers[i].ticket != s.workers[j].ticket
  {
  }

  lemma OneHolder(s: Sys, i: nat, j: nat, m: nat)
    requires Basic(s) && Exclusive(s)
    requires Holds(s, i, m) && Holds(s, j, m)
    ensures i == j
  {
    RivalsDiffer(s, i, j);
  }

  lemma HolderInFlight(s: Sys, i: nat, m: nat)
    requires Exclusive(s) && Holds(s, i, m)
    ensures m in s.db.attempts && s.db.attempts[m].status == InFlight
  {
    assert Owns(s.db, s.workers[i]);
  }

  // ---- Framing ----

  lemma OwnedKept(db: Db, db': Db, ws: seq<Worker>)
    requires Owned(db, ws)
    requires forall i :: 0 <= i < |ws| && Holder(ws[i]) ==>
      Owns(db, ws[i]) && ws[i].task.message in db'.attempts
      && db'.attempts[ws[i].task.message] == db.attempts[ws[i].task.message]
    ensures Owned(db', ws)
  {
  }

  lemma OwnedMove(db: Db, ws: seq<Worker>, w: nat, worker: Worker)
    requires Owned(db, ws) && w < |ws|
    requires Holder(worker) ==> Holder(ws[w]) && worker.task == ws[w].task && worker.ticket == ws[w].ticket
    ensures Owned(db, ws[w := worker])
  {
  }

  // ---- Every step but a late mark keeps ownership ----

  lemma ExclusiveApi(s: Sys, e: Event)
    requires Basic(s) && Exclusive(s) && Outside(e)
    ensures Exclusive(Step(s, e))
  {
    OutsideFrame(s, e);
    var t := Step(s, e);
    forall i | 0 <= i < |t.workers| && Holder(t.workers[i]) ensures Owns(t.db, t.workers[i]) {
      assert Owns(s.db, s.workers[i]);
      OutsideAttempts(s, e, s.workers[i].task.message);
    }
  }

  lemma ExclusiveDeliver(s: Sys, w: nat, task: Task)
    requires Basic(s) && Exclusive(s)
    ensures Exclusive(StepDeliver(s, w, task))
  {
    var t := StepDeliver(s, w, task);
    if t.workers != s.workers {
      OwnedKept(s.db, t.db, s.workers);
      assert Owns(t.db, t.workers[w]);
    }
  }

  lemma ExclusiveMove(s: Sys, w: nat, worker: Worker, t: Sys)
    requires Exclusive(s) && BusyAt(s, w)
    requires t.workers == s.workers[w := worker] && t.db.attempts == s.db.attempts
    requires Holder(worker) ==>
      Holder(s.workers[w]) && worker.task == s.workers[w].task && worker.ticket == s.workers[w].ticket
    ensures Exclusive(t)
  {
    OwnedKept(s.db, t.db, s.workers);
    OwnedMove(t.db, s.workers, w, worker);
  }

  lemma ExclusiveWorker(s: Sys, e: Event)
    requires Basic(s) && Exclusive(s)
    requires e.Crash? || e.Refuse? || e.StorageOutage?
    ensures Exclusive(Step(s, e))
  {
    var t := Step(s, e);
    if t != s { ExclusiveMove(s, e.w, t.workers[e.w], t); }
  }

  lemma ExclusiveUnexpected(s: Sys, w: nat)
    requires Basic(s) && Exclusive(s)
    ensures Exclusive(StepUnexpected(s, w))
  {
    if BusyAt(s, w) { ExclusiveMove(s, w, Interrupted(s.workers[w]), StepUnexpected(s, w)); }
  }

  lemma ExclusiveCall(s: Sys, e: Event)
    requires Basic(s) && Exclusive(s)
    requires e.TakeSlot? || e.Answer?
    ensures Exclusive(Step(s, e))
  {
    var t := Step(s, e);
    if t != s { ExclusiveMove(s, e.w, t.workers[e.w], t); }
  }

  lemma ExclusiveStartCall(s: Sys, w: nat)
    requires Basic(s) && Exclusive(s)
    ensures Exclusive(StepStartCall(s, w))
  {
    if AtStage(s, w, Slotted) {
      var t := StepStartCall(s, w);
      assert Owns(s.db, s.workers[w]);
      OwnedKept(s.db, t.db, s.workers);
      OwnedMove(t.db, s.workers, w, t.workers[w]);
    }
  }

  lemma HolderTail(w: Worker)
    requires w.Busy? && w.stage.Winding? && PlanOk(w.stage.todo)
    ensures Holder(MovedOn(w)) ==> Holder(w)
    ensures w.stage.todo[0] in {FailAttempt, ConfirmAttempt} ==> Holder(w) && !Holder(MovedOn(w))
    ensures w.stage.todo[0] == MarkFailed ==> MovedOn(w) == Idle
  {
    var todo := w.stage.todo;
    assert forall x :: x in todo[1..] ==> x in todo;
  }

  lemma ExclusiveCommit(s: Sys, w: nat)
    requires Basic(s) && Exclusive(s) && !LateMark(s, Commit(w))
    ensures Exclusive(StepCommit(s, w))
  {
    if Committing(s, w) {
      var worker, m := s.workers[w], MessageOf(s, w);
      var db' := StepCommit(s, w).db;
      assert WorkerOk(s.db, worker);
      HolderTail(worker);
      OwnedMove(s.db, s.workers, w, MovedOn(worker));
      var ws' := s.workers[w := MovedOn(worker)];
      forall i | 0 <= i < |ws'| && Holder(ws'[i])
        ensures Owns(s.db, ws'[i]) && ws'[i].task.message in db'.attempts
        ensures db'.attempts[ws'[i].task.message] == s.db.attempts[ws'[i].task.message]
      {
        if ws'[i].task.message == m && worker.stage.todo[0] in {FailAttempt, ConfirmAttempt, MarkFailed} {
          assert Holds(s, i, m);
          if Holder(worker) && i != w { OneHolder(s, i, w, m); }
        }
      }
      OwnedKept(s.db, db', ws');
    }
  }

  lemma LateMarkBreaks(s: Sys, e: Event)
    requires Basic(s) && Exclusive(s) && LateMark(s, e)
    ensures !Exclusive(Step(s, e))
  {
    var m := MessageOf(s, e.w);
    var i: nat :| i != e.w && Holds(s, i, m);
    assert Owns(s.db, s.workers[i]);
    assert Step(s, e).workers[i] == s.workers[i];
    assert !Owns(Step(s, e).db, s.workers[i]);
  }

  /** Exactly which step lets a second worker in: a mark_attempt_failed that finds the attempt held by another. */
  lemma ExclusiveIff(s: Sys, e: Event)
    requires Basic(s) && Exclusive(s)
    ensures Exclusive(Step(s, e)) <==> !LateMark(s, e)
  {
    if LateMark(s, e) {
      LateMarkBreaks(s, e);
    } else {
      match e
      case Deliver(w, task) => ExclusiveDeliver(s, w, task);
      case StartCall(w) => ExclusiveStartCall(s, w);
      case Commit(w) => ExclusiveCommit(s, w);
      case TakeSlot(_, _) => ExclusiveCall(s, e);
      case Answer(_, _) => ExclusiveCall(s, e);
      case Crash(_) => ExclusiveWorker(s, e);
      case Refuse(_) => ExclusiveWorker(s, e);
      case StorageOutage(_) => ExclusiveWorker(s, e);
      case Unexpected(w) => ExclusiveUnexpected(s, w);
      case _ => ExclusiveApi(s, e);
    }
  }

  // ---- Runs ----

  ghost predicate NoLateMarks(s: Sys, es: seq<Event>)
    decreases |es|
  {
    es == [] || (!LateMark(s, es[0]) && NoLateMarks(Step(s, es[0]), es[1..]))
  }

  lemma {:induction false} ExclusiveRun(s: Sys, es: seq<Event>)
    requires Basic(s) && Exclusive(s) && NoLateMarks(s, es)
    ensures Basic(Run(s, es)) && Exclusive(Run(s, es))
    decreases |es|
  {
    if es == [] {
    } else {
      BasicStep(s, es[0]);
      ExclusiveIff(s, es[0]);
      ExclusiveRun(Step(s, es[0]), es[1..]);
    }
  }

  /** From an empty system: duplicates, crashes and retries never give an attempt two workers at once. */
  lemma AtMostOneWorker(n: nat, es: seq<Event>, i: nat, j: nat, m: nat)
    requires NoLateMarks(Init(n), es)
    requires Holds(Run(Init(n), es), i, m) && Holds(Run(Init(n), es), j, m)
    ensures i == j && !CanReserve(Run(Init(n), es).db, m)
  {
    ExclusiveRun(Init(n), es);
    var s := Run(Init(n), es);
    assert Owns(s.db, s.workers[i]);
    OneHolder(s, i, j, m);
  }

  // ---- Confirmed at most once ----

  predicate InLedger(s: Sys, m: nat) {
    exists k :: 0 <= k < |s.ledger| && s.ledger[k].message == m
  }

  /** The worker's reservation is the attempt's latest. */
  predicate Current(db: Db, w: Worker) {
    w.Busy? && w.task.message in db.attempts && w.ticket == db.attempts[w.task.message].reservations
  }

  /** The worker only writes down a confirmation, or an exception has cut that short. */
  predicate Writing(w: Worker) {
    w.Busy? && w.stage.Winding? && (Settling(w.stage.todo) || w.stage.todo == [MarkFailed])
  }

  ghost predicate LedgerDistinct(s: Sys) {
    forall j, k :: 0 <= j < k < |s.ledger| ==> s.ledger[j].message != s.ledger[k].message
  }

  /** A message in the ledger is in flight or confirmed, and its latest worker is past its call. */
  ghost predicate Once(s: Sys) {
    && LedgerDistinct(s)
    && (forall m :: InLedger(s, m) ==>
          m in s.db.attempts && s.db.attempts[m].status in {InFlight, Confirmed})
    && (forall i :: 0 <= i < |s.workers| && Current(s.db, s.workers[i]) ==>
          (InLedger(s, s.workers[i].task.message) ==> Writing(s.workers[i])))
  }

  /** mark_attempt_failed reaches an attempt that the provider has confirmed and that does not say so yet. */
  predicate UndoingMark(s: Sys, e: Event) {
    Marking(s, e) && InLedger(s, MessageOf(s, e.w)) && s.db.attempts[MessageOf(s, e.w)].status != Confirmed
  }

  /** A step of worker w that leaves the ledger and the attempts of ledger messages alone. */
  lemma OnceFrame(s: Sys, t: Sys, w: nat, worker: Worker)
    requires Once(s) && t.ledger == s.ledger
    requires w < |s.workers| && t.workers == s.workers[w := worker]
    requires forall m :: InLedger(s, m) ==>
      && m in s.db.attempts && m in t.db.attempts && t.db.attempts[m].status in {InFlight, Confirmed}
      && t.db.attempts[m].reservations == s.db.attempts[m].reservations
    requires worker.Busy? && InLedger(s, worker.task.message) && Current(t.db, worker) ==> Writing(worker)
    ensures Once(t)
  {
    assert forall m :: InLedger(t, m) <==> InLedger(s, m);
    forall i | 0 <= i < |t.workers| && Current(t.db, t.workers[i]) && InLedger(t, t.workers[i].task.message)
      ensures Writing(t.workers[i])
    {
      if i != w { assert Current(s.db, s.workers[i]); }
    }
  }

  lemma OnceApi(s: Sys, e: Event)
    requires Basic(s) && Once(s) && Outside(e)
    ensures Once(Step(s, e))
  {
    var t := Step(s, e);
    OutsideFrame(s, e);
    forall m | InLedger(s, m)
      ensures m in t.db.attempts && t.db.attempts[m] == s.db.attempts[m]
    {
      OutsideAttempts(s, e, m);
    }
    if s.workers != [] { OnceFrame(s, t, 0, s.workers[0]); }
  }

  lemma OnceDeliver(s: Sys, w: nat, task: Task)
    requires Basic(s) && Once(s)
    ensures Once(StepDeliver(s, w, task))
  {
    var t := StepDeliver(s, w, task);
    if t.workers == s.workers {
      assert forall m :: InLedger(t, m) <==> InLedger(s, m);
    } else {
      assert !InLedger(s, task.message);
      OnceFrame(s, t, w, t.workers[w]);
    }
  }

  lemma WorkingNotInLedger(s: Sys, w: nat)
    requires Once(s) && BusyAt(s, w) && Current(s.db, s.workers[w]) && !Writing(s.workers[w])
    ensures !InLedger(s, MessageOf(s, w))
  {
  }

  lemma OnceWorker(s: Sys, e: Event)
    requires Basic(s) && Exclusive(s) && Once(s)
    requires e.Crash? || e.Refuse? || e.StorageOutage?
    ensures Once(Step(s, e))
  {
    var t := Step(s, e);
    if t != s {
      if !e.Crash? {
        assert Owns(s.db, s.workers[e.w]);
        WorkingNotInLedger(s, e.w);
      }
      OnceFrame(s, t, e.w, t.workers[e.w]);
    }
  }

  lemma OnceUnexpected(s: Sys, w: nat)
    requires Basic(s) && Once(s)
    ensures Once(StepUnexpected(s, w))
  {
    if BusyAt(s, w) { OnceFrame(s, StepUnexpected(s, w), w, Interrupted(s.workers[w])); }
  }

  lemma OnceCall(s: Sys, e: Event)
    requires Basic(s) && Exclusive(s) && Once(s)
    requires e.TakeSlot? || e.StartCall? || (e.Answer? && !e.reply.Accepted?)
    ensures Once(Step(s, e))
  {
    var t := Step(s, e);
    if t != s {
      assert Owns(s.db, s.workers[e.w]);
      WorkingNotInLedger(s, e.w);
      OnceFrame(s, t, e.w, t.workers[e.w]);
    }
  }

  lemma OnceAccepted(s: Sys, w: nat, id: string)
    requires Basic(s) && Exclusive(s) && Once(s)
    ensures Once(StepAnswer(s, w, Accepted(id)))
  {
    var t := StepAnswer(s, w, Accepted(id));
    if t != s {
      var m := MessageOf(s, w);
      assert Owns(s.db, s.workers[w]);
      WorkingNotInLedger(s, w);
      assert t.ledger[|s.ledger|].message == m;
      assert forall k :: 0 <= k < |s.ledger| ==> t.ledger[k] == s.ledger[k];
      assert forall n :: InLedger(t, n) ==> InLedger(s, n) || n == m;
      forall i | 0 <= i < |t.workers| && Current(t.db, t.workers[i]) && InLedger(t, t.workers[i].task.message)
        ensures Writing(t.workers[i])
      {
        if i != w {
          assert Current(s.db, s.workers[i]);
          if s.workers[i].task.message == m { assert Rivals(s.workers[i], s.workers[w]); }
        }
      }
    }
  }

  lemma OnceMark(s: Sys, w: nat)
    requires Basic(s) && Once(s) && Marking(s, Commit(w))
    ensures Once(StepCommit(s, w)) <==> !UndoingMark(s, Commit(w))
  {
    var t, m := StepCommit(s, w), MessageOf(s, w);
    assert WorkerOk(s.db, s.workers[w]);
    HolderTail(s.workers[w]);
    if UndoingMark(s, Commit(w)) {
      assert t.db.attempts[m].status == Rejected;
      assert InLedger(t, m);
    } else {
      OnceFrame(s, t, w, Idle);
    }
  }

  lemma OnceCommit(s: Sys, w: nat)
    requires Basic(s) && Exclusive(s) && Once(s) && !Marking(s, Commit(w))
    ensures Once(StepCommit(s, w))
  {
    if Committing(s, w) {
      var worker, m := s.workers[w], MessageOf(s, w);
      assert WorkerOk(s.db, worker);
      HolderTail(worker);
      if worker.stage.todo[0] == FailAttempt {
        assert Owns(s.db, worker);
        WorkingNotInLedger(s, w);
      }
      OnceFrame(s, StepCommit(s, w), w, MovedOn(worker));
    }
  }

  /** Exactly which step lets the provider confirm a message twice: a mark that undoes a confirmation. */
  lemma OnceIff(s: Sys, e: Event)
    requires Basic(s) && Exclusive(s) && Once(s)
    ensures Once(Step(s, e)) <==> !UndoingMark(s, e)
  {
    match e
    case Deliver(w, task) => OnceDeliver(s, w, task);
    case Commit(w) => if Marking(s, e) { OnceMark(s, w); } else { OnceCommit(s, w); }
    case Crash(_) => OnceWorker(s, e);
    case Refuse(_) => OnceWorker(s, e);
    case StorageOutage(_) => OnceWorker(s, e);
    case Unexpected(w) => OnceUnexpected(s, w);
    case TakeSlot(_, _) => OnceCall(s, e);
    case StartCall(_) => OnceCall(s, e);
    case Answer(w, reply) => if reply.Accepted? { OnceAccepted(s, w, reply.id); } else { OnceCall(s, e); }
    case _ => OnceApi(s, e);
  }

  ghost predicate NoUndoingMarks(s: Sys, es: seq<Event>)
    decreases |es|
  {
    es == [] || (!UndoingMark(s, es[0]) && NoUndoingMarks(Step(s, es[0]), es[1..]))
  }

  lemma {:induction false} OnceRun(s: Sys, es: seq<Event>)
    requires Basic(s) && Exclusive(s) && Once(s) && NoLateMarks(s, es) && NoUndoingMarks(s, es)
    ensures Basic(Run(s, es)) && Exclusive(Run(s, es)) && Once(Run(s, es))
    decreases |es|
  {
    if es == [] {
    } else {
      BasicStep(s, es[0]);
      ExclusiveIff(s, es[0]);
      OnceIff(s, es[0]);
      OnceRun(Step(s, es[0]), es[1..]);
    }
  }

  /** Without such marks the provider confirms each message at most once, whatever is redelivered, retried or crashes,
      and a confirmed message can never be reserved for another call. */
  lemma ConfirmedAtMostOnce(n: nat, es: seq<Event>, j: nat, k: nat)
    requires NoLateMarks(Init(n), es) && NoUndoingMarks(Init(n), es)
    requires j < |Run(Init(n), es).ledger| && k < |Run(Init(n), es).ledger|
    ensures var s := Run(Init(n), es);
      && (s.ledger[j].message == s.ledger[k].message ==> j == k)
      && !CanReserve(s.db, s.ledger[j].message)
  {
    OnceRun(Init(n), es);
    var s := Run(Init(n), es);
    assert InLedger(s, s.ledger[j].message);
  }

  /** Without late marks a confirmed attempt stays confirmed, and no worker ever holds it again. */
  lemma {:induction false} ConfirmedForever(s: Sys, es: seq<Event>, m: nat)
    requires Basic(s) && Exclusive(s) && NoLateMarks(s, es)
    requires m in s.db.attempts && s.db.attempts[m].status == Confirmed
    ensures var t := Run(s, es);
      && m in t.db.attempts && t.db.attempts[m].status == Confirmed && forall i: nat :: !Holds(t, i, m)
    decreases |es|
  {
    forall i: nat ensures !Holds(s, i, m) {
      if Holds(s, i, m) { HolderInFlight(s, i, m); }
    }
    if es == [] {
    } else {
      var e := es[0];
      BasicStep(s, e);
      ExclusiveIff(s, e);
      if Outside(e) {
        OutsideAttempts(s, e, m);
      } else {
        WorkerAttempts(s, e, m);
        if e.w < |s.workers| { assert !Holds(s, e.w, m); }
      }
      ConfirmedForever(Step(s, e), es[1..], m);
    }
  }

  // ---- Marks by the latest reservation ----

  /** An attempt with a worker under its latest reservation does not say SENT yet. */
  ghost predicate Unsettled(s: Sys) {
    forall i :: 0 <= i < |s.workers| && Current(s.db, s.workers[i]) ==>
      s.db.attempts[s.workers[i].task.message].status != Confirmed
  }

  /** Only a worker's own confirmation makes an attempt SENT, and no step lowers a reservation count. */
  lemma NewlyConfirmed(s: Sys, e: Event, m: nat)
    requires m in s.db.attempts
    ensures m in Step(s, e).db.attempts
    ensures Step(s, e).db.attempts[m].reservations >= s.db.attempts[m].reservations
    ensures Step(s, e).db.attempts[m].status == Confirmed ==>
      || s.db.attempts[m] == Step(s, e).db.attempts[m]
      || (e.Commit? && Committing(s, e.w) && MessageOf(s, e.w) == m
          && s.workers[e.w].stage.todo[0] == ConfirmAttempt)
  {
    if Outside(e) { OutsideAttempts(s, e, m); } else { WorkerAttempts(s, e, m); }
  }

  lemma UnsettledOther(s: Sys, e: Event, i: nat)
    requires Basic(s) && Exclusive(s) && Unsettled(s)
    requires i < |s.workers| && (Outside(e) || i != e.w) && Current(Step(s, e).db, s.workers[i])
    ensures Step(s, e).db.attempts[s.workers[i].task.message].status != Confirmed
  {
    var m := s.workers[i].task.message;
    assert WorkerOk(s.db, s.workers[i]);
    NewlyConfirmed(s, e, m);
    assert Current(s.db, s.workers[i]);
    if !Outside(e) && e.w < |s.workers| {
      assert Holder(s.workers[e.w]) ==> Owns(s.db, s.workers[e.w]);
      RivalsDiffer(s, i, e.w);
    }
  }

  lemma UnsettledCommit(s: Sys, w: nat)
    requires Basic(s) && Unsettled(s) && Committing(s, w) && MovedOn(s.workers[w]).Busy?
    ensures Current(StepCommit(s, w).db, MovedOn(s.workers[w])) ==>
      StepCommit(s, w).db.attempts[MessageOf(s, w)].status != Confirmed
  {
    assert WorkerOk(s.db, s.workers[w]);
  }

  predicate SameTicket(s: Sys, t: Sys, w: nat) {
    t.db.attempts == s.db.attempts
    && (w < |s.workers| == |t.workers| && t.workers[w].Busy? ==>
          s.workers[w].Busy? && s.workers[w].task == t.workers[w].task && s.workers[w].ticket == t.workers[w].ticket)
  }

  lemma CallKeepsTicket(s: Sys, w: nat, limit: Option<nat>, reply: Reply)
    ensures SameTicket(s, StepTakeSlot(s, w, limit), w) && SameTicket(s, StepAnswer(s, w, reply), w)
  {
  }

  lemma RaiseKeepsTicket(s: Sys, w: nat)
    ensures SameTicket(s, StepRefuse(s, w), w) && SameTicket(s, StepStorageOutage(s, w), w)
    ensures SameTicket(s, StepCrash(s, w), w) && SameTicket(s, StepUnexpected(s, w), w)
  {
  }

  /** Steps that neither write an attempt nor reserve one keep task and ticket of a worker that goes on. */
  lemma TicketKept(s: Sys, e: Event)
    requires !Outside(e) && !e.Commit? && !e.Deliver? && !e.StartCall?
    ensures SameTicket(s, Step(s, e), e.w)
  {
    if e.TakeSlot? {
      CallKeepsTicket(s, e.w, e.limit, NoAnswer);
    } else if e.Answer? {
      CallKeepsTicket(s, e.w, None, e.reply);
    } else {
      RaiseKeepsTicket(s, e.w);
    }
  }

  lemma UnsettledOwn(s: Sys, e: Event)
    requires Basic(s) && Unsettled(s) && !Outside(e) && e.w < |s.workers|
    requires |Step(s, e).workers| == |s.workers| && Current(Step(s, e).db, Step(s, e).workers[e.w])
    ensures Step(s, e).db.attempts[Step(s, e).workers[e.w].task.message].status != Confirmed
  {
    if e.Commit? {
      assert WorkerOk(s.db, s.workers[e.w]);
      if Committing(s, e.w) { UnsettledCommit(s, e.w); }
    } else if e.Deliver? {
      UnsettledDeliver(s, e.w, e.task);
    } else if !e.StartCall? {
      TicketKept(s, e);
      assert Current(s.db, s.workers[e.w]);
    }
  }

  lemma UnsettledDeliver(s: Sys, w: nat, task: Task)
    requires Unsettled(s) && w < |s.workers| && Current(StepDeliver(s, w, task).db, StepDeliver(s, w, task).workers[w])
    ensures var t := StepDeliver(s, w, task); t.db.attempts[t.workers[w].task.message].status != Confirmed
  {
    if s.workers[w].Busy? { assert Current(s.db, s.workers[w]); }
  }

  lemma UnsettledStep(s: Sys, e: Event)
    requires Basic(s) && Exclusive(s) && Unsettled(s)
    ensures Unsettled(Step(s, e))
  {
    var t := Step(s, e);
    if Outside(e) { OutsideFrame(s, e); } else { WorkerFrame(s, e); }
    forall i | 0 <= i < |t.workers| && Current(t.db, t.workers[i])
      ensures t.db.attempts[t.workers[i].task.message].status != Confirmed
    {
      if !Outside(e) && i == e.w { UnsettledOwn(s, e); } else { UnsettledOther(s, e, i); }
    }
  }

  /** A worker that marks the attempt under its own, latest reservation does harm exactly if the provider has confirmed
      the message: an exception came between the provider's answer and the last save of it. */
  lemma OwnMarkHarmsIff(s: Sys, e: Event)
    requires Basic(s) && Exclusive(s) && Once(s) && Unsettled(s) && Marking(s, e) && !StaleMark(s, e)
    ensures LateMark(s, e) || UndoingMark(s, e) <==> InLedger(s, MessageOf(s, e.w))
  {
    assert Current(s.db, s.workers[e.w]);
    forall i: nat | Holds(s, i, MessageOf(s, e.w)) ensures i == e.w {
      assert Owns(s.db, s.workers[i]);
      RivalsDiffer(s, i, e.w);
    }
  }

  // ---- How a worker's own mark comes to do harm ----

  /** An exception while a confirmation is being saved. */
  predicate SaveFails(s: Sys, e: Event) {
    e.Unexpected? && BusyAt(s, e.w) && s.workers[e.w].stage.Winding? && Settling(s.workers[e.w].stage.todo)
  }

  /** The worker's next write marks FAILED, under its own latest reservation, what the provider has confirmed. */
  predicate Exposed(s: Sys, w: Worker) {
    Current(s.db, w) && w.stage == Winding([MarkFailed]) && InLedger(s, w.task.message)
  }

  ghost predicate AnyExposed(s: Sys) {
    exists i :: 0 <= i < |s.workers| && Exposed(s, s.workers[i])
  }

  /** A worker that saves a confirmation has one in the ledger. */
  predicate Answered(s: Sys, w: Worker) {
    w.Busy? && w.stage.Winding? && Settling(w.stage.todo) ==> InLedger(s, w.task.message)
  }

  ghost predicate AllAnswered(s: Sys) {
    forall i :: 0 <= i < |s.workers| ==> Answered(s, s.workers[i])
  }

  lemma LedgerGrows(s: Sys, e: Event, m: nat)
    ensures InLedger(s, m) ==> InLedger(Step(s, e), m)
    ensures InLedger(Step(s, e), m) ==>
      InLedger(s, m) || (e.Answer? && e.reply.Accepted? && AtStage(s, e.w, Calling) && MessageOf(s, e.w) == m)
  {
    var t := Step(s, e);
    if e.Answer? {
      assert forall k :: 0 <= k < |s.ledger| ==> t.ledger[k] == s.ledger[k];
      assert |t.ledger| > |s.ledger| ==> t.ledger == s.ledger + [t.ledger[|s.ledger|]];
    } else {
      LedgerUntouched(s, e);
    }
  }

  lemma LedgerUntouched(s: Sys, e: Event)
    requires !e.Answer?
    ensures Step(s, e).ledger == s.ledger
  {
  }

  lemma AnsweredAccepted(s: Sys, w: nat, reply: Reply)
    requires AllAnswered(s) && w < |s.workers|
    ensures Answered(StepAnswer(s, w, reply), StepAnswer(s, w, reply).workers[w])
  {
    var t := StepAnswer(s, w, reply);
    assert Answered(s, s.workers[w]);
    if t != s && reply.Accepted? { assert t.ledger[|s.ledger|].message == MessageOf(s, w); }
  }

  lemma AnsweredCommit(s: Sys, w: nat)
    requires AllAnswered(s) && Basic(s) && w < |s.workers|
    ensures Answered(StepCommit(s, w), StepCommit(s, w).workers[w])
  {
    assert Answered(s, s.workers[w]) && WorkerOk(s.db, s.workers[w]);
    LedgerGrows(s, Commit(w), if s.workers[w].Busy? then s.workers[w].task.message else 0);
  }

  lemma NotSettling(s: Sys, e: Event)
    requires !Outside(e) && !e.Commit? && !e.Answer? && e.w < |s.workers| == |Step(s, e).workers|
    ensures var v := Step(s, e).workers[e.w];
      v == s.workers[e.w] || !(v.Busy? && v.stage.Winding? && Settling(v.stage.todo))
  {
  }

  lemma AnsweredStep(s: Sys, e: Event)
    requires Basic(s) && AllAnswered(s)
    ensures AllAnswered(Step(s, e))
  {
    var t := Step(s, e);
    if Outside(e) { OutsideFrame(s, e); } else { WorkerFrame(s, e); }
    forall i | 0 <= i < |t.workers| ensures Answered(t, t.workers[i]) {
      assert Answered(s, s.workers[i]);
      if t.workers[i].Busy? { LedgerGrows(s, e, t.workers[i].task.message); }
      if !Outside(e) && i == e.w {
        if e.Answer? {
          AnsweredAccepted(s, e.w, e.reply);
        } else if e.Commit? {
          AnsweredCommit(s, e.w);
        } else {
          NotSettling(s, e);
        }
      }
    }
  }

  lemma ExposedOther(s: Sys, e: Event, i: nat)
    requires Basic(s) && Exclusive(s) && i < |s.workers| && (Outside(e) || i != e.w)
    requires Exposed(Step(s, e), s.workers[i])
    ensures Exposed(s, s.workers[i])
  {
    var m := s.workers[i].task.message;
    assert WorkerOk(s.db, s.workers[i]);
    NewlyConfirmed(s, e, m);
    LedgerGrows(s, e, m);
    if !Outside(e) && e.w < |s.workers| {
      assert Holder(s.workers[e.w]) ==> Owns(s.db, s.workers[e.w]);
      RivalsDiffer(s, i, e.w);
    }
  }

  predicate NoNewMark(v: Worker, v': Worker) {
    v'.Busy? && v'.stage == Winding([MarkFailed]) ==> v' == v
  }

  lemma CallNotMark(s: Sys, w: nat, limit: Option<nat>, reply: Reply)
    requires w < |s.workers|
    ensures NoNewMark(s.workers[w], StepTakeSlot(s, w, limit).workers[w])
    ensures NoNewMark(s.workers[w], StepStartCall(s, w).workers[w])
    ensures NoNewMark(s.workers[w], StepAnswer(s, w, reply).workers[w])
  {
    assert |Plan(reply)| > 1;
  }

  lemma RaiseNotMark(s: Sys, w: nat, task: Task)
    requires w < |s.workers|
    ensures NoNewMark(s.workers[w], StepDeliver(s, w, task).workers[w])
    ensures NoNewMark(s.workers[w], StepCrash(s, w).workers[w])
    ensures NoNewMark(s.workers[w], StepRefuse(s, w).workers[w])
    ensures NoNewMark(s.workers[w], StepStorageOutage(s, w).workers[w])
  {
  }

  /** Only a commit and an exception bring a worker to its mark. */
  lemma MarkNext(s: Sys, e: Event)
    requires !Outside(e) && !e.Commit? && !e.Unexpected? && e.w < |s.workers| == |Step(s, e).workers|
    ensures NoNewMark(s.workers[e.w], Step(s, e).workers[e.w])
  {
    match e
    case TakeSlot(w, limit) => CallNotMark(s, w, limit, NoAnswer);
    case StartCall(w) => CallNotMark(s, w, None, NoAnswer);
    case Answer(w, reply) => CallNotMark(s, w, None, reply);
    case Deliver(w, task) => RaiseNotMark(s, w, task);
    case Crash(w) => RaiseNotMark(s, w, Task(0, 0));
    case Refuse(w) => RaiseNotMark(s, w, Task(0, 0));
    case StorageOutage(w) => RaiseNotMark(s, w, Task(0, 0));
  }

  /** A worker that commits on its way to a mark is not past an accepted call. */
  lemma MarkNextCommit(s: Sys, w: nat)
    requires Basic(s) && Once(s) && Committing(s, w)
    ensures !Exposed(StepCommit(s, w), MovedOn(s.workers[w]))
  {
    var todo := s.workers[w].stage.todo;
    LedgerUntouched(s, Commit(w));
    assert forall m :: InLedger(StepCommit(s, w), m) <==> InLedger(s, m);
    assert WorkerOk(s.db, s.workers[w]);
    NewlyConfirmed(s, Commit(w), MessageOf(s, w));
    if Current(s.db, s.workers[w]) && InLedger(s, MessageOf(s, w)) { assert Writing(s.workers[w]); }
    if |todo| > 1 { assert todo[1..][0] == todo[1]; }
  }

  lemma MarkNextUnexpected(s: Sys, w: nat)
    requires Basic(s) && Exclusive(s) && Once(s) && AllAnswered(s) && BusyAt(s, w)
    ensures Exposed(StepUnexpected(s, w), Interrupted(s.workers[w])) <==> SaveFails(s, Unexpected(w))
  {
    var t, worker := StepUnexpected(s, w), s.workers[w];
    LedgerUntouched(s, Unexpected(w));
    assert forall m :: InLedger(t, m) <==> InLedger(s, m);
    assert Answered(s, worker);
    if SaveFails(s, Unexpected(w)) { assert Owns(s.db, worker); }
  }

  /** Exactly which step puts a worker in the position to undo a confirmation by its own mark. */
  lemma ExposedIff(s: Sys, e: Event)
    requires Basic(s) && Exclusive(s) && Once(s) && AllAnswered(s) && !AnyExposed(s)
    ensures AnyExposed(Step(s, e)) <==> SaveFails(s, e)
  {
    var t := Step(s, e);
    if Outside(e) { OutsideFrame(s, e); } else { WorkerFrame(s, e); }
    if e.Unexpected? && BusyAt(s, e.w) {
      MarkNextUnexpected(s, e.w);
      assert t.workers[e.w] == Interrupted(s.workers[e.w]);
    }
    forall i | 0 <= i < |t.workers| ensures Exposed(t, t.workers[i]) ==> i < |s.workers| && SaveFails(s, e) {
      if Exposed(t, t.workers[i]) { ExposedOnly(s, e, i); }
    }
  }

  lemma ExposedOnly(s: Sys, e: Event, i: nat)
    requires Basic(s) && Exclusive(s) && Once(s) && AllAnswered(s) && !AnyExposed(s)
    requires i < |Step(s, e).workers| && Exposed(Step(s, e), Step(s, e).workers[i])
    ensures i < |s.workers| && SaveFails(s, e)
  {
    if Outside(e) { OutsideFrame(s, e); } else { WorkerFrame(s, e); }
    assert !Exposed(s, s.workers[i]);
    if Outside(e) || i != e.w {
      ExposedOther(s, e, i);
    } else if e.Commit? {
      if Committing(s, i) { MarkNextCommit(s, i); }
    } else if e.Unexpected? {
      if BusyAt(s, i) { MarkNextUnexpected(s, i); }
    } else {
      ExposedUnmoved(s, e);
    }
  }

  lemma ExposedUnmoved(s: Sys, e: Event)
    requires Basic(s) && Exclusive(s) && Once(s) && !Outside(e) && !e.Commit? && !e.Unexpected?
    requires e.w < |s.workers| == |Step(s, e).workers| && Exposed(Step(s, e), Step(s, e).workers[e.w])
    ensures Exposed(s, s.workers[e.w])
  {
    MarkNext(s, e);
    var m := s.workers[e.w].task.message;
    assert WorkerOk(s.db, s.workers[e.w]);
    NewlyConfirmed(s, e, m);
    LedgerGrows(s, e, m);
  }
}

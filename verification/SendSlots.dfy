/** Conservation of the per-domain daily send counter over every run of the send machine. */
module SendSlots {
  import opened Types
  import opened SendModel
  import opened SendMachine

  // ---- What the pool and the ledger account for ----

  function HoldsSlot(w: Worker, day: nat): nat {
    if w.Busy? && w.slot == Some(day) then 1 else 0
  }

  function SlotsHeld(ws: seq<Worker>, day: nat): nat {
    if ws == [] then 0 else HoldsSlot(ws[0], day) + SlotsHeld(ws[1..], day)
  }

  function RecordsOwed(ws: seq<Worker>): nat {
    if ws == [] then 0 else OwedRecord(ws[0]) + RecordsOwed(ws[1..])
  }

  /** The sends the provider confirmed on a slot of this day. */
  function ConfirmedOn(ledger: seq<Confirmation>, day: nat): nat {
    if ledger == [] then 0
    else ConfirmedOn(ledger[..|ledger| - 1], day) + if ledger[|ledger| - 1].day == day then 1 else 0
  }

  lemma {:induction false} HeldPut(ws: seq<Worker>, w: nat, worker: Worker, day: nat)
    requires w < |ws|
    ensures SlotsHeld(ws[w := worker], day) + HoldsSlot(ws[w], day) == SlotsHeld(ws, day) + HoldsSlot(worker, day)
  {
    if w == 0 {
      assert ws[0 := worker][1..] == ws[1..];
    } else {
      HeldPut(ws[1..], w - 1, worker, day);
      assert ws[w := worker][1..] == ws[1..][w - 1 := worker];
    }
  }

  lemma {:induction false} OwedPut(ws: seq<Worker>, w: nat, worker: Worker)
    requires w < |ws|
    ensures RecordsOwed(ws[w := worker]) + OwedRecord(ws[w]) == RecordsOwed(ws) + OwedRecord(worker)
  {
    if w == 0 {
      assert ws[0 := worker][1..] == ws[1..];
    } else {
      OwedPut(ws[1..], w - 1, worker);
      assert ws[w := worker][1..] == ws[1..][w - 1 := worker];
    }
  }

  lemma {:induction false} AllIdle(ws: seq<Worker>, day: nat)
    requires forall i :: 0 <= i < |ws| ==> ws[i] == Idle
    ensures SlotsHeld(ws, day) == 0 && RecordsOwed(ws) == 0
  {
    if ws == [] {
    } else {
      AllIdle(ws[1..], day);
    }
  }

  lemma ConfirmedAppend(ledger: seq<Confirmation>, c: Confirmation, day: nat)
    ensures ConfirmedOn(ledger + [c], day) == ConfirmedOn(ledger, day) + if c.day == day then 1 else 0
  {
    assert (ledger + [c])[..|ledger|] == ledger;
  }

  /** A worker holds a slot from the moment it takes it until its release or confirmation, and owes each write once. */
  predicate SlotOk(w: Worker) {
    w.Busy? ==> match w.stage
      case Holding => w.slot.None?
      case Winding(todo) =>
        && todo != []
        && (w.slot.Some? <==> ReleaseSlot in todo)
        && (forall j, k :: 0 <= j < k < |todo| && todo[j] in {ReleaseSlot, RecordFailure} ==> todo[j] != todo[k])
      case _ => w.slot.Some?
  }

  ghost predicate SlotsOk(s: Sys) {
    forall i :: 0 <= i < |s.workers| ==> SlotOk(s.workers[i])
  }

  /** A day's sent_count is the sends confirmed on a slot of that day, plus the slots still held, plus those lost. */
  predicate Balanced(s: Sys, day: nat) {
    s.db.sent[day] == ConfirmedOn(s.ledger, day) + SlotsHeld(s.workers, day) + s.leaks[day]
  }

  /** failed_count over all days is the failure verdicts reached, less those not recorded yet or lost with a crash. */
  predicate Tallied(s: Sys) {
    |s.db.failed| + RecordsOwed(s.workers) + s.unrecorded == s.verdicts
  }

  /** release_send_slot gives back a slot of today, whichever day the slot was taken on. */
  predicate MisdatedRelease(s: Sys, e: Event) {
    && e.Commit? && Committing(s, e.w) && s.workers[e.w].stage.todo[0] == ReleaseSlot
    && s.workers[e.w].slot != Some(DayOf(s.now))
  }

  /** A misdated release leaves the slot's own day one too high, and today one too low unless it is at zero. */
  predicate Unbalances(s: Sys, e: Event, day: nat) {
    MisdatedRelease(s, e) && (s.workers[e.w].slot == Some(day) || (day == DayOf(s.now) && s.db.sent[day] > 0))
  }

  // ---- One step ----

  lemma PlanSlots(reply: Reply)
    ensures reply.Accepted? <==> ReleaseSlot !in Plan(reply)
    ensures reply.ClientError? <==> RecordFailure in Plan(reply)
    ensures forall j, k :: 0 <= j < k < |Plan(reply)| && Plan(reply)[j] in {ReleaseSlot, RecordFailure} ==>
      Plan(reply)[j] != Plan(reply)[k]
  {
    assert Plan(reply)[1] in Plan(reply);
    if reply.NoAnswer? || reply.ServerError? { assert Plan(reply)[2] in Plan(reply); }
    if reply.ClientError? { assert Plan(reply)[2] in Plan(reply) && Plan(reply)[3] in Plan(reply); }
  }

  lemma MovedOnSlot(w: Worker)
    requires w.Busy? && w.stage.Winding? && SlotOk(w)
    ensures SlotOk(MovedOn(w))
    ensures w.stage.todo[0] == ReleaseSlot ==> w.slot.Some?
    ensures forall day :: HoldsSlot(MovedOn(w), day) == if w.stage.todo[0] == ReleaseSlot then 0 else HoldsSlot(w, day)
    ensures OwedRecord(w) == OwedRecord(MovedOn(w)) + if w.stage.todo[0] == RecordFailure then 1 else 0
  {
    var todo := w.stage.todo;
    assert forall x :: x in todo <==> x == todo[0] || x in todo[1..];
    if |todo| > 1 {
      forall j, k | 0 <= j < k < |todo[1..]| && todo[1..][j] in {ReleaseSlot, RecordFailure}
        ensures todo[1..][j] != todo[1..][k]
      {
        assert todo[j + 1] != todo[k + 1];
      }
    }
  }

  lemma SlotsOkCall(s: Sys, e: Event)
    requires SlotsOk(s)
    requires e.Answer? || e.TakeSlot?
    ensures SlotsOk(Step(s, e))
  {
    if e.Answer? { PlanSlots(e.reply); }
  }

  lemma SlotsOkMove(s: Sys, e: Event)
    requires SlotsOk(s)
    requires e.Refuse? || e.StorageOutage? || e.StartCall?
    ensures SlotsOk(Step(s, e))
  {
    assert [ReleaseSlot, Retry][0] == ReleaseSlot;
  }

  lemma SlotsOkLose(s: Sys, e: Event)
    requires SlotsOk(s)
    requires e.Crash? || e.Unexpected? || e.Deliver?
    ensures SlotsOk(Step(s, e))
  {
  }

  lemma SlotsOkStep(s: Sys, e: Event)
    requires SlotsOk(s)
    ensures SlotsOk(Step(s, e))
  {
    if Outside(e) {
      OutsideFrame(s, e);
    } else {
      match e
      case Commit(w) => if Committing(s, w) { MovedOnSlot(s.workers[w]); }
      case Answer(_, _) => SlotsOkCall(s, e);
      case TakeSlot(_, _) => SlotsOkCall(s, e);
      case Refuse(_) => SlotsOkMove(s, e);
      case StorageOutage(_) => SlotsOkMove(s, e);
      case StartCall(_) => SlotsOkMove(s, e);
      case _ => SlotsOkLose(s, e);
    }
  }

  lemma BalanceMove(s: Sys, e: Event, day: nat)
    requires SlotsOk(s) && Balanced(s, day)
    requires e.Refuse? || e.StartCall? || e.StorageOutage?
    ensures Balanced(Step(s, e), day)
  {
    var t := Step(s, e);
    if t.workers != s.workers { HeldPut(s.workers, e.w, t.workers[e.w], day); }
  }

  lemma BalanceDeliver(s: Sys, w: nat, task: Task, day: nat)
    requires Balanced(s, day)
    ensures Balanced(StepDeliver(s, w, task), day)
  {
    var t := StepDeliver(s, w, task);
    if t.workers != s.workers { HeldPut(s.workers, w, t.workers[w], day); }
  }

  /** A crash and an unexpected exception turn a held slot into a lost one. */
  lemma BalanceLose(s: Sys, w: nat, day: nat)
    requires Balanced(s, day)
    ensures Balanced(StepCrash(s, w), day) && Balanced(StepUnexpected(s, w), day)
  {
    if BusyAt(s, w) {
      HeldPut(s.workers, w, Idle, day);
      HeldPut(s.workers, w, s.workers[w].(slot := None, stage := Winding([MarkFailed])), day);
    }
  }

  lemma BalanceTake(s: Sys, w: nat, limit: Option<nat>, day: nat)
    requires SlotsOk(s) && Balanced(s, day)
    ensures Balanced(StepTakeSlot(s, w, limit), day)
  {
    var t := StepTakeSlot(s, w, limit);
    if t != s { HeldPut(s.workers, w, t.workers[w], day); }
  }

  /** An accepted call turns a held slot into a confirmation. */
  lemma BalanceAccepted(s: Sys, w: nat, id: string, day: nat)
    requires Balanced(s, day) && AtStage(s, w, Calling) && s.workers[w].slot.Some?
    ensures Balanced(StepAnswer(s, w, Accepted(id)), day)
  {
    var c := Confirmation(MessageOf(s, w), s.workers[w].slot.value);
    HeldPut(s.workers, w, s.workers[w].(slot := None, stage := Winding(Plan(Accepted(id)))), day);
    ConfirmedAppend(s.ledger, c, day);
  }

  lemma BalanceAnswer(s: Sys, w: nat, reply: Reply, day: nat)
    requires SlotsOk(s) && Balanced(s, day)
    ensures Balanced(StepAnswer(s, w, reply), day)
  {
    if AtStage(s, w, Calling) && s.workers[w].slot.Some? {
      if reply.Accepted? {
        BalanceAccepted(s, w, reply.id, day);
      } else {
        HeldPut(s.workers, w, s.workers[w].(stage := Winding(Plan(reply))), day);
      }
    }
  }

  lemma BalanceRelease(s: Sys, w: nat, day: nat)
    requires SlotsOk(s) && Balanced(s, day) && Committing(s, w) && s.workers[w].stage.todo[0] == ReleaseSlot
    ensures Balanced(StepCommit(s, w), day) <==> !Unbalances(s, Commit(w), day)
  {
    MovedOnSlot(s.workers[w]);
    HeldPut(s.workers, w, MovedOn(s.workers[w]), day);
  }

  lemma BalanceWrite(s: Sys, w: nat, day: nat)
    requires SlotsOk(s) && Balanced(s, day) && Committing(s, w) && s.workers[w].stage.todo[0] != ReleaseSlot
    ensures Balanced(StepCommit(s, w), day)
  {
    MovedOnSlot(s.workers[w]);
    HeldPut(s.workers, w, MovedOn(s.workers[w]), day);
  }

  lemma BalanceCommit(s: Sys, w: nat, day: nat)
    requires SlotsOk(s) && Balanced(s, day)
    ensures Balanced(StepCommit(s, w), day) <==> !Unbalances(s, Commit(w), day)
  {
    if Committing(s, w) {
      if s.workers[w].stage.todo[0] == ReleaseSlot { BalanceRelease(s, w, day); } else { BalanceWrite(s, w, day); }
    }
  }

  /** Exactly which steps unbalance which day. */
  lemma BalanceIff(s: Sys, e: Event, day: nat)
    requires SlotsOk(s) && Balanced(s, day)
    ensures Balanced(Step(s, e), day) <==> !Unbalances(s, e, day)
  {
    if Outside(e) {
      OutsideFrame(s, e);
    } else {
      match e
      case TakeSlot(w, limit) => BalanceTake(s, w, limit, day);
      case Answer(w, reply) => BalanceAnswer(s, w, reply, day);
      case Commit(w) => BalanceCommit(s, w, day);
      case Refuse(_) => BalanceMove(s, e, day);
      case StartCall(_) => BalanceMove(s, e, day);
      case StorageOutage(_) => BalanceMove(s, e, day);
      case Deliver(w, task) => BalanceDeliver(s, w, task, day);
      case Crash(w) => BalanceLose(s, w, day);
      case Unexpected(w) => BalanceLose(s, w, day);
    }
  }

  /** In a balanced state the clamp of release_send_slot never fires on a slot of today. */
  lemma ClampNeverFires(s: Sys, w: nat)
    requires SlotsOk(s) && Balanced(s, DayOf(s.now))
    requires Committing(s, w) && s.workers[w].stage.todo[0] == ReleaseSlot && !MisdatedRelease(s, Commit(w))
    ensures s.db.sent[DayOf(s.now)] >= 1
    ensures StepCommit(s, w).db.sent[DayOf(s.now)] == s.db.sent[DayOf(s.now)] - 1
  {
    HeldPut(s.workers, w, Idle, DayOf(s.now));
  }

  lemma TallyCommit(s: Sys, w: nat)
    requires SlotsOk(s) && Tallied(s)
    ensures Tallied(StepCommit(s, w))
  {
    if Committing(s, w) {
      MovedOnSlot(s.workers[w]);
      OwedPut(s.workers, w, MovedOn(s.workers[w]));
    }
  }

  lemma TallyTake(s: Sys, w: nat, limit: Option<nat>)
    requires Tallied(s)
    ensures Tallied(StepTakeSlot(s, w, limit))
  {
    var t := StepTakeSlot(s, w, limit);
    if t.workers != s.workers {
      OwedPut(s.workers, w, t.workers[w]);
      assert [RecordFailure, FailAttempt, FailMessage, MarkFailed][0] == RecordFailure;
    }
  }

  lemma TallyAnswer(s: Sys, w: nat, reply: Reply)
    requires Tallied(s)
    ensures Tallied(StepAnswer(s, w, reply))
  {
    var t := StepAnswer(s, w, reply);
    if t.workers != s.workers {
      OwedPut(s.workers, w, t.workers[w]);
      PlanSlots(reply);
    }
  }

  lemma TallyMove(s: Sys, e: Event)
    requires SlotsOk(s) && Tallied(s)
    requires e.Refuse? || e.StartCall? || e.StorageOutage?
    ensures Tallied(Step(s, e))
  {
    var t := Step(s, e);
    if t.workers != s.workers { OwedPut(s.workers, e.w, t.workers[e.w]); }
  }

  lemma TallyDeliver(s: Sys, w: nat, task: Task)
    requires Tallied(s)
    ensures Tallied(StepDeliver(s, w, task))
  {
    var t := StepDeliver(s, w, task);
    if t.workers != s.workers { OwedPut(s.workers, w, t.workers[w]); }
  }

  lemma TallyLose(s: Sys, w: nat)
    requires Tallied(s)
    ensures Tallied(StepCrash(s, w)) && Tallied(StepUnexpected(s, w))
  {
    if BusyAt(s, w) {
      OwedPut(s.workers, w, Idle);
      OwedPut(s.workers, w, s.workers[w].(slot := None, stage := Winding([MarkFailed])));
    }
  }

  lemma TallyStep(s: Sys, e: Event)
    requires SlotsOk(s) && Tallied(s)
    ensures Tallied(Step(s, e))
  {
    if Outside(e) {
      OutsideFrame(s, e);
    } else {
      match e
      case Commit(w) => TallyCommit(s, w);
      case Answer(w, reply) => TallyAnswer(s, w, reply);
      case TakeSlot(w, limit) => TallyTake(s, w, limit);
      case Refuse(_) => TallyMove(s, e);
      case StartCall(_) => TallyMove(s, e);
      case StorageOutage(_) => TallyMove(s, e);
      case Deliver(w, task) => TallyDeliver(s, w, task);
      case Crash(w) => TallyLose(s, w);
      case Unexpected(w) => TallyLose(s, w);
    }
  }

  // ---- Runs ----

  ghost predicate NoMisdatedRelease(s: Sys, es: seq<Event>)
    decreases |es|
  {
    es == [] || (!MisdatedRelease(s, es[0]) && NoMisdatedRelease(Step(s, es[0]), es[1..]))
  }

  lemma {:induction false} BalanceRun(s: Sys, es: seq<Event>, day: nat)
    requires SlotsOk(s) && Balanced(s, day) && Tallied(s) && NoMisdatedRelease(s, es)
    ensures SlotsOk(Run(s, es)) && Balanced(Run(s, es), day) && Tallied(Run(s, es))
    decreases |es|
  {
    if es == [] {
    } else {
      SlotsOkStep(s, es[0]);
      BalanceIff(s, es[0], day);
      TallyStep(s, es[0]);
      BalanceRun(Step(s, es[0]), es[1..], day);
    }
  }

  /** From an empty system, over any run whose releases fall on the day of their reservation: every day's sent_count
      is its confirmed sends plus the calls between reserve and outcome plus the slots lost to crashes, and
      failed_count is the limit rejections and permanent refusals recorded so far. */
  lemma SlotConservation(n: nat, es: seq<Event>, day: nat)
    requires NoMisdatedRelease(Init(n), es)
    ensures Balanced(Run(Init(n), es), day) && Tallied(Run(Init(n), es))
  {
    AllIdle(Init(n).workers, day);
    BalanceRun(Init(n), es, day);
  }

  predicate Orderly(e: Event) {
    !e.Crash? && !e.Unexpected?
  }

  lemma {:induction false} NothingLeaks(s: Sys, es: seq<Event>)
    requires s.leaks == multiset{} && forall i :: 0 <= i < |es| ==> Orderly(es[i])
    ensures Run(s, es).leaks == multiset{}
    decreases |es|
  {
    if es == [] {
    } else {
      assert Orderly(es[0]);
      NothingLeaks(Step(s, es[0]), es[1..]);
    }
  }

  lemma {:induction false} TimeGrows(s: Sys, es: seq<Event>)
    ensures Run(s, es).now >= s.now
    decreases |es|
  {
    if es == [] {
    } else {
      TimeGrows(Step(s, es[0]), es[1..]);
    }
  }

  ghost predicate SlotsOfDay(s: Sys, day: nat) {
    forall i :: 0 <= i < |s.workers| && s.workers[i].Busy? && s.workers[i].slot.Some? ==> s.workers[i].slot.value == day
  }

  lemma {:induction false} OneDayNotMisdated(s: Sys, es: seq<Event>)
    requires SlotsOk(s) && SlotsOfDay(s, DayOf(s.now)) && DayOf(Run(s, es).now) == DayOf(s.now)
    ensures NoMisdatedRelease(s, es)
    decreases |es|
  {
    if es == [] {
    } else {
      var t := Step(s, es[0]);
      TimeGrows(t, es[1..]);
      SlotsOkStep(s, es[0]);
      OneDayStep(s, es[0]);
      if MisdatedRelease(s, es[0]) { MovedOnSlot(s.workers[es[0].w]); }
      OneDayNotMisdated(t, es[1..]);
    }
  }

  predicate NotBackdated(v: Worker, v': Worker, day: nat) {
    v'.Busy? && v'.slot.Some? ==> (v.Busy? && v.slot == v'.slot) || v'.slot.value == day
  }

  /** Worker w neither vanishes in the step from s to t nor takes a slot of a day other than today's. */
  predicate KeepsDay(s: Sys, t: Sys, w: nat) {
    w < |s.workers| ==> w < |t.workers| && NotBackdated(s.workers[w], t.workers[w], DayOf(s.now))
  }

  lemma CallsNotBackdated(s: Sys, w: nat, limit: Option<nat>, reply: Reply)
    ensures KeepsDay(s, StepTakeSlot(s, w, limit), w)
    ensures KeepsDay(s, StepStartCall(s, w), w)
    ensures KeepsDay(s, StepAnswer(s, w, reply), w)
  {
  }

  lemma RaisesNotBackdated(s: Sys, w: nat)
    ensures KeepsDay(s, StepCrash(s, w), w)
    ensures KeepsDay(s, StepRefuse(s, w), w)
    ensures KeepsDay(s, StepStorageOutage(s, w), w)
    ensures KeepsDay(s, StepUnexpected(s, w), w)
  {
  }

  lemma EndsNotBackdated(s: Sys, w: nat, task: Task)
    ensures KeepsDay(s, StepDeliver(s, w, task), w)
    ensures KeepsDay(s, StepCommit(s, w), w)
  {
  }

  lemma SlotNotBackdated(s: Sys, e: Event)
    requires !Outside(e)
    ensures KeepsDay(s, Step(s, e), e.w)
  {
    if e.TakeSlot? {
      CallsNotBackdated(s, e.w, e.limit, NoAnswer);
    } else if e.StartCall? {
      CallsNotBackdated(s, e.w, None, NoAnswer);
    } else if e.Answer? {
      CallsNotBackdated(s, e.w, None, e.reply);
    } else if e.Deliver? {
      EndsNotBackdated(s, e.w, e.task);
    } else if e.Commit? {
      EndsNotBackdated(s, e.w, Task(0, 0));
    } else {
      RaisesNotBackdated(s, e.w);
    }
  }

  lemma OneDayStep(s: Sys, e: Event)
    requires SlotsOfDay(s, DayOf(s.now)) && DayOf(Step(s, e).now) == DayOf(s.now)
    ensures SlotsOfDay(Step(s, e), DayOf(s.now))
  {
    if Outside(e) {
      OutsideFrame(s, e);
    } else {
      WorkerFrame(s, e);
      SlotNotBackdated(s, e);
    }
  }

  /** Starting idle at any time of any day, and with every call ending in success, Transient or Permanent before
      midnight: the day's counter is exactly the confirmed sends plus the calls still between reserve and outcome. */
  lemma OneDayConservation(n: nat, start: nat, es: seq<Event>)
    requires DayOf(Run(Init(n).(now := start), es).now) == DayOf(start)
    requires forall i :: 0 <= i < |es| ==> Orderly(es[i])
    ensures var s := Run(Init(n).(now := start), es);
      s.db.sent[DayOf(start)] == ConfirmedOn(s.ledger, DayOf(start)) + SlotsHeld(s.workers, DayOf(start))
  {
    var s := Init(n).(now := start);
    OneDayNotMisdated(s, es);
    AllIdle(s.workers, DayOf(start));
    BalanceRun(s, es, DayOf(start));
    NothingLeaks(s, es);
  }

  // ---- The daily limit ----

  /** The workers ask for a slot one after the other, under one limit. */
  function AllAsk(ws: seq<nat>, limit: Option<nat>): seq<Event> {
    if ws == [] then [] else [TakeSlot(ws[0], limit)] + AllAsk(ws[1..], limit)
  }

  predicate AllHold(s: Sys, ws: seq<nat>) {
    && (forall i :: 0 <= i < |ws| ==> AtStage(s, ws[i], Holding))
    && (forall i, j :: 0 <= i < j < |ws| ==> ws[i] != ws[j])
  }

  predicate Granted(s: Sys, w: nat, day: nat) {
    BusyAt(s, w) && s.workers[w].stage == Slotted && s.workers[w].slot == Some(day)
  }

  /** Refused for good: the attempt and its message will be failed. */
  predicate Refused(s: Sys, w: nat) {
    BusyAt(s, w) && s.workers[w].stage == Winding([RecordFailure, FailAttempt, FailMessage, MarkFailed])
  }

  lemma OneAsks(s: Sys, w: nat, limit: Option<nat>, day: nat)
    requires AtStage(s, w, Holding) && 86400 * day <= s.now < 86400 * (day + 1)
    ensures var t := Step(s, TakeSlot(w, limit)); var free := limit.None? || s.db.sent[day] < limit.value;
      && t.now == s.now && t.db.sent[day] == s.db.sent[day] + (if free then 1 else 0)
      && t.db.attempts == s.db.attempts && t.db.messages == s.db.messages
      && t.workers == s.workers[w := t.workers[w]]
      && if free then Granted(t, w, day) else Refused(t, w)
  {
  }

  lemma RestHolds(s: Sys, ws: seq<nat>, t: Sys)
    requires AllHold(s, ws) && ws != []
    requires |t.workers| == |s.workers| && t.workers == s.workers[ws[0] := t.workers[ws[0]]]
    requires t.db.attempts == s.db.attempts && t.db.messages == s.db.messages
    ensures AllHold(t, ws[1..])
  {
    forall i | 0 <= i < |ws[1..]| ensures AtStage(t, ws[1..][i], Holding) {
      assert AtStage(s, ws[i + 1], Holding) && ws[0] != ws[i + 1];
    }
  }

  lemma {:induction false} OthersStayPut(s: Sys, ws: seq<nat>, limit: Option<nat>, day: nat, v: nat)
    requires AllHold(s, ws) && v < |s.workers| && v !in ws && 86400 * day <= s.now < 86400 * (day + 1)
    ensures var t := Run(s, AllAsk(ws, limit));
      |t.workers| == |s.workers| && t.workers[v] == s.workers[v]
      && t.db.attempts == s.db.attempts && t.db.messages == s.db.messages
    decreases |ws|
  {
    if ws == [] {
    } else {
      var t := Step(s, TakeSlot(ws[0], limit));
      OneAsks(s, ws[0], limit, day);
      RestHolds(s, ws, t);
      assert AllAsk(ws, limit)[1..] == AllAsk(ws[1..], limit);
      OthersStayPut(t, ws[1..], limit, day, v);
    }
  }

  /** With `sent` used up already, of any number of waiting workers exactly the first limit - sent get a slot of the
      day, and every later one is refused; without a limit all get one. */
  lemma {:induction false} FirstComeFirstServed(s: Sys, ws: seq<nat>, limit: Option<nat>, day: nat, i: nat)
    requires AllHold(s, ws) && i < |ws| && 86400 * day <= s.now < 86400 * (day + 1)
    ensures var t := Run(s, AllAsk(ws, limit));
      if limit.None? || s.db.sent[day] + i < limit.value then Granted(t, ws[i], day) else Refused(t, ws[i])
    decreases |ws|
  {
    var t := Step(s, TakeSlot(ws[0], limit));
    OneAsks(s, ws[0], limit, day);
    assert AllAsk(ws, limit)[1..] == AllAsk(ws[1..], limit);
    RestHolds(s, ws, t);
    if i == 0 {
      OthersStayPut(t, ws[1..], limit, day, ws[0]);
    } else {
      FirstComeFirstServed(t, ws[1..], limit, day, i - 1);
    }
  }

  predicate LimitedTo(e: Event, cap: nat) {
    e.TakeSlot? ==> e.limit.Some? && e.limit.value <= cap
  }

  /** No day's sent_count ever exceeds the largest limit any reservation was checked against. */
  lemma {:induction false} WithinLimit(s: Sys, es: seq<Event>, cap: nat, day: nat)
    requires s.db.sent[day] <= cap && forall i :: 0 <= i < |es| ==> LimitedTo(es[i], cap)
    ensures Run(s, es).db.sent[day] <= cap
    decreases |es|
  {
    if es == [] {
    } else {
      assert LimitedTo(es[0], cap);
      WithinLimitStep(s, es[0], cap, day);
      WithinLimit(Step(s, es[0]), es[1..], cap, day);
    }
  }

  lemma WithinLimitStep(s: Sys, e: Event, cap: nat, day: nat)
    requires s.db.sent[day] <= cap && LimitedTo(e, cap)
    ensures Step(s, e).db.sent[day] <= cap
  {
    if Outside(e) { OutsideFrame(s, e); }
  }
}

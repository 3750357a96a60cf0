/** A storage outage before the call leaves the attempt in flight with nobody to write its outcome. */
module SendStranded {
  import opened Types
  import opened SendModel
  import opened SendMachine
  import opened SendSafety
  import opened SendExclusive

  /** A worker of the message is past all its writes and only has its retry left. */
  predicate Spent(w: Worker, m: nat) {
    w.Busy? && w.task.message == m ==> w.stage == Winding([Retry])
  }

  /** In flight, with nobody left who could write its outcome. */
  ghost predicate Stranded(s: Sys, m: nat) {
    && m in s.db.attempts && s.db.attempts[m].status == InFlight
    && forall i :: 0 <= i < |s.workers| ==> Spent(s.workers[i], m)
  }

  /** All that is left to a spent worker is to retry, to fail at that, or to crash: each leaves it idle. */
  lemma SpentEnds(s: Sys, e: Event, m: nat)
    requires !Outside(e) && BusyAt(s, e.w) && MessageOf(s, e.w) == m && Spent(s.workers[e.w], m)
    ensures Step(s, e).workers == s.workers || Step(s, e).workers == s.workers[e.w := Idle]
  {
  }

  lemma StrandedDeliver(s: Sys, w: nat, task: Task, m: nat)
    requires Stranded(s, m) && w < |s.workers|
    ensures Spent(StepDeliver(s, w, task).workers[w], m)
  {
    assert Spent(s.workers[w], m);
  }

  lemma StrandedWorker(s: Sys, e: Event, m: nat)
    requires Stranded(s, m) && !Outside(e) && e.w < |s.workers| == |Step(s, e).workers|
    ensures Spent(Step(s, e).workers[e.w], m)
  {
    assert Spent(s.workers[e.w], m);
    if e.Deliver? {
      StrandedDeliver(s, e.w, e.task, m);
    } else if BusyAt(s, e.w) && MessageOf(s, e.w) == m {
      SpentEnds(s, e, m);
    } else if Step(s, e).workers[e.w].Busy? {
      OtherTaskKept(s, e);
    }
  }

  lemma OtherTaskKept(s: Sys, e: Event)
    requires !Outside(e) && !e.Deliver?
    requires e.w < |s.workers| == |Step(s, e).workers| && Step(s, e).workers[e.w].Busy?
    ensures s.workers[e.w].Busy? && s.workers[e.w].task == Step(s, e).workers[e.w].task
    ensures BusyAt(s, e.w) || Step(s, e).workers[e.w] == s.workers[e.w]
  {
    if e.Commit? {
      if Committing(s, e.w) { assert Step(s, e).workers[e.w] == MovedOn(s.workers[e.w]); }
    } else if !e.StartCall? {
      TicketKept(s, e);
    }
  }

  lemma StrandedStep(s: Sys, e: Event, m: nat)
    requires Basic(s) && Stranded(s, m)
    ensures Stranded(Step(s, e), m)
  {
    if Outside(e) {
      OutsideFrame(s, e);
      OutsideAttempts(s, e, m);
    } else {
      WorkerFrame(s, e);
      WorkerAttempts(s, e, m);
      if e.w < |s.workers| {
        StrandedWorker(s, e, m);
        assert Spent(s.workers[e.w], m);
      }
    }
  }

  /** A stranded attempt is stranded for good: no run ever sends the message, fails it, or hands it to a worker that
      could, and every retry of it is skipped. */
  lemma {:induction false} StrandedForever(s: Sys, es: seq<Event>, m: nat)
    requires Basic(s) && Stranded(s, m)
    ensures Stranded(Run(s, es), m) && !CanReserve(Run(s, es).db, m) && forall i: nat :: !Holds(Run(s, es), i, m)
    decreases |es|
  {
    if es == [] {
      forall i: nat ensures !Holds(s, i, m) {
        if i < |s.workers| { assert Spent(s.workers[i], m); }
      }
    } else {
      BasicStep(s, es[0]);
      StrandedStep(s, es[0], m);
      StrandedForever(Step(s, es[0]), es[1..], m);
    }
  }

  /** The outage and then the release of the slot, by worker w. */
  function AfterOutage(s: Sys, w: nat): Sys {
    StepCommit(StepStorageOutage(s, w), w)
  }

  lemma OutageShape(s: Sys, w: nat)
    requires AtStage(s, w, Slotted)
    ensures AfterOutage(s, w).workers == s.workers[w := s.workers[w].(slot := None, stage := Winding([Retry]))]
    ensures AfterOutage(s, w).db.attempts == s.db.attempts
  {
    var t := StepStorageOutage(s, w);
    assert t.workers[w].stage.todo == [ReleaseSlot, Retry] && [ReleaseSlot, Retry][1..] == [Retry];
    assert AfterOutage(s, w).workers == s.workers[w := t.workers[w]][w := MovedOn(t.workers[w])];
  }

  /** If the task of the message is with one worker only, an outage always strands the attempt. */
  lemma OutageStrands(s: Sys, w: nat)
    requires Basic(s) && Exclusive(s) && AtStage(s, w, Slotted)
    requires forall i :: 0 <= i < |s.workers| && i != w ==> !Rivals(s.workers[i], s.workers[w])
    ensures Stranded(AfterOutage(s, w), MessageOf(s, w))
  {
    OutageShape(s, w);
    assert Owns(s.db, s.workers[w]);
    var ws := AfterOutage(s, w).workers;
    forall i | 0 <= i < |ws| ensures Spent(ws[i], MessageOf(s, w)) {
      if i != w { assert !Rivals(s.workers[i], s.workers[w]); }
    }
  }

  /** With more workers on the message, one that is about to mark the attempt still opens it again. */
  lemma LateMarkRescues(s: Sys, w: nat, i: nat)
    requires Basic(s) && Exclusive(s) && AtStage(s, w, Slotted)
    requires i != w && Marking(s, Commit(i)) && MessageOf(s, i) == MessageOf(s, w)
    ensures !Stranded(AfterOutage(s, w), MessageOf(s, w))
    ensures CanReserve(StepCommit(AfterOutage(s, w), i).db, MessageOf(s, w))
  {
    OutageShape(s, w);
    var t, m := AfterOutage(s, w), MessageOf(s, w);
    assert Owns(s.db, s.workers[w]);
    assert t.workers[i] == s.workers[i] && !Spent(t.workers[i], m);
    assert m in t.db.messages;
  }
}

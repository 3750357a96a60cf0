/** Delivery events handled by workers that overlap, are interrupted and retried: create_delivery_event commits its
    event row, the message, the recipients and the suppression one after the other. */
module DeliveryRuns {
  import opened Types
  import opened Delivery

  datatype Stage = Storing | Saving | Raising | Suppressing

  /** `read` is the message status the worker has loaded. */
  datatype Worker = Idle | Busy(event: Event, read: EmailStatus, stage: Stage)

  /** The other fields are history: the events a worker has looked up, those whose row it stored, those whose save of
      the message was due, in `written` the ones among them that wrote, and those whose recipients were raised and whose
      suppression was noted. */
  datatype Sys = Sys(
    log: Log,
    workers: seq<Worker>,
    seen: set<Event>,
    stored: set<Event>,
    saved: set<Event>,
    written: seq<Event>,
    raised: set<Event>,
    noted: set<Event>)

  datatype Move =
    | Read(w: nat, event: Event)
    | Store(w: nat)
    | Save(w: nat)
    | Raise(w: nat)
    | Suppress(w: nat)
    | Die(w: nat)

  function Start(log: Log, workers: nat): Sys {
    Sys(log, seq(workers, _ => Idle), {}, {}, {}, [], {}, {})
  }

  predicate At(s: Sys, w: nat, stage: Stage) {
    w < |s.workers| && s.workers[w].Busy? && s.workers[w].stage == stage
  }

  /** The worker's save writes: its event asks for more than the status it has loaded. */
  predicate Writes(w: Worker) {
    w.Busy? && StatusOf(w.event.kind).Some? && RankOf(w.event.kind) > Rank(w.read)
  }

  function Put(s: Sys, w: nat, worker: Worker): Sys
    requires w < |s.workers|
  {
    s.(workers := s.workers[w := worker])
  }

  function StepStore(s: Sys, w: nat): Sys {
    if !At(s, w, Storing) then s
    else
      var e := s.workers[w].event;
      if Known(s.log, e) then Put(s, w, Idle).(seen := s.seen + {e})
      else
        Put(s, w, s.workers[w].(stage := Saving))
          .(log := s.log.(keys := if e.id != "" then s.log.keys + {KeyOf(e)} else s.log.keys,
                          anonymous := if e.id != "" then s.log.anonymous else s.log.anonymous + [e]),
            seen := s.seen + {e}, stored := s.stored + {e})
  }

  /** The save goes by the loaded status and overwrites whatever the row says by now. */
  function StepSave(s: Sys, w: nat): Sys {
    if !At(s, w, Saving) then s
    else
      var worker := s.workers[w];
      var t := Put(s, w, worker.(stage := Raising)).(saved := s.saved + {worker.event});
      if !Writes(worker) then t
      else t.(log := s.log.(status := StatusOf(worker.event.kind).value), written := s.written + [worker.event])
  }

  function RaisedAll(rows: seq<Recipient>, e: Event): seq<Recipient> {
    seq(|rows|, i requires 0 <= i < |rows| => RaisedRow(rows[i], e))
  }

  /** One conditional UPDATE of the recipient rows. */
  function StepRaise(s: Sys, w: nat): Sys {
    if !At(s, w, Raising) then s
    else
      var e := s.workers[w].event;
      Put(s, w, s.workers[w].(stage := Suppressing))
        .(log := s.log.(recipients := RaisedAll(s.log.recipients, e)), raised := s.raised + {e})
  }

  function StepSuppress(s: Sys, w: nat): Sys {
    if !At(s, w, Suppressing) then s
    else
      var e := s.workers[w].event;
      Put(s, w, Idle)
        .(log := s.log.(suppressed := if Suppresses(e) then s.log.suppressed + {Pair(e)} else s.log.suppressed),
          noted := s.noted + {e})
  }

  /** A retry of a worker that died reads the same event again. */
  function Step(s: Sys, m: Move): Sys {
    match m
    case Read(w, event) =>
      if w < |s.workers| && s.workers[w].Idle? then Put(s, w, Busy(event, s.log.status, Storing)) else s
    case Store(w) => StepStore(s, w)
    case Save(w) => StepSave(s, w)
    case Raise(w) => StepRaise(s, w)
    case Suppress(w) => StepSuppress(s, w)
    case Die(w) => if w < |s.workers| then Put(s, w, Idle) else s
  }

  function Run(s: Sys, ms: seq<Move>): Sys
    decreases |ms|
  {
    if ms == [] then s else Run(Step(s, ms[0]), ms[1..])
  }

  // ---- What a run has done ----

  /** Each part of the log is what the steps taken have made of it. */
  ghost predicate KeysOk(start: Log, s: Sys) {
    && s.log.keys == start.keys + (set e | e in s.stored && e.id != "" :: KeyOf(e))
    && s.stored <= s.seen
    && (forall e :: e in s.seen ==> e in s.stored || Known(s.log, e))
  }

  function LastStatus(start: Log, written: seq<Event>): EmailStatus {
    if written == [] then start.status
    else
      var asked := StatusOf(written[|written| - 1].kind);
      if asked.Some? then asked.value else start.status
  }

  ghost predicate StatusOk(start: Log, s: Sys) {
    && s.log.status == LastStatus(start, s.written)
    && (forall k :: 0 <= k < |s.written| ==>
          s.written[k] in s.saved && StatusOf(s.written[k].kind).Some?
          && RankOf(s.written[k].kind) > Rank(start.status))
  }

  ghost predicate RecipientsOk(start: Log, s: Sys) {
    && |s.log.recipients| == |start.recipients|
    && forall i :: 0 <= i < |start.recipients| ==>
         && s.log.recipients[i].email == start.recipients[i].email
         && IsMaximum(Rank(s.log.recipients[i].status), Rank(start.recipients[i].status), s.raised,
                      e => Targets(e, start.recipients[i]))
  }

  ghost predicate SuppressedOk(start: Log, s: Sys) {
    s.log.suppressed == start.suppressed + (set e | e in s.noted && Suppresses(e) :: Pair(e))
  }

  predicate WorkerOk(start: Log, s: Sys, w: Worker) {
    w.Busy? ==>
      && Rank(start.status) <= Rank(w.read)
      && (w.stage != Storing ==> w.event in s.stored)
      && (w.stage in {Raising, Suppressing} ==> w.event in s.saved)
      && (w.stage == Suppressing ==> w.event in s.raised)
  }

  ghost predicate PoolOk(start: Log, s: Sys) {
    && s.noted <= s.raised <= s.saved <= s.stored
    && forall i :: 0 <= i < |s.workers| ==> WorkerOk(start, s, s.workers[i])
  }

  ghost predicate Accounted(start: Log, s: Sys) {
    && KeysOk(start, s) && StatusOk(start, s) && RecipientsOk(start, s) && SuppressedOk(start, s) && PoolOk(start, s)
  }

  lemma KeysStep(start: Log, s: Sys, m: Move)
    requires KeysOk(start, s)
    ensures KeysOk(start, Step(s, m))
  {
  }

  lemma RankStays(start: Log, s: Sys)
    requires StatusOk(start, s)
    ensures Rank(start.status) <= Rank(s.log.status)
    ensures s.written != [] ==> Rank(s.log.status) == RankOf(s.written[|s.written| - 1].kind)
  {
  }

  lemma StatusStep(start: Log, s: Sys, m: Move)
    requires StatusOk(start, s) && PoolOk(start, s)
    ensures StatusOk(start, Step(s, m))
  {
    if m.Save? && At(s, m.w, Saving) { assert WorkerOk(start, s, s.workers[m.w]); }
  }

  lemma RecipientsStep(start: Log, s: Sys, m: Move)
    requires RecipientsOk(start, s)
    ensures RecipientsOk(start, Step(s, m))
  {
    var t := Step(s, m);
    if m.Raise? && At(s, m.w, Raising) {
      var e := s.workers[m.w].event;
      forall i | 0 <= i < |start.recipients|
        ensures t.log.recipients[i].email == start.recipients[i].email
        ensures IsMaximum(Rank(t.log.recipients[i].status), Rank(start.recipients[i].status), t.raised,
                          f => Targets(f, start.recipients[i]))
      {
        RaisedRank(s.log.recipients[i].status, e.kind);
        MaximumExtends(Rank(s.log.recipients[i].status), Rank(start.recipients[i].status), s.raised,
                       f => Targets(f, start.recipients[i]), e, Rank(t.log.recipients[i].status));
      }
    }
  }

  lemma SuppressedStep(start: Log, s: Sys, m: Move)
    requires SuppressedOk(start, s)
    ensures SuppressedOk(start, Step(s, m))
  {
  }

  lemma PoolStep(start: Log, s: Sys, m: Move)
    requires PoolOk(start, s) && StatusOk(start, s)
    ensures PoolOk(start, Step(s, m))
  {
    RankStays(start, s);
    var t := Step(s, m);
    if m.w < |s.workers| { assert WorkerOk(start, s, s.workers[m.w]); }
    forall i | 0 <= i < |t.workers| ensures WorkerOk(start, t, t.workers[i]) {
      assert WorkerOk(start, s, s.workers[i]);
    }
  }

  lemma {:induction false} AccountedRun(start: Log, s: Sys, ms: seq<Move>)
    requires Accounted(start, s)
    ensures Accounted(start, Run(s, ms))
    decreases |ms|
  {
    if ms == [] {
    } else {
      KeysStep(start, s, ms[0]);
      StatusStep(start, s, ms[0]);
      RecipientsStep(start, s, ms[0]);
      SuppressedStep(start, s, ms[0]);
      PoolStep(start, s, ms[0]);
      AccountedRun(start, Step(s, ms[0]), ms[1..]);
    }
  }

  lemma StartAccounted(start: Log, workers: nat)
    ensures Accounted(start, Start(start, workers))
  {
    assert forall i :: 0 <= i < |start.recipients| ==>
      IsMaximum(Rank(start.recipients[i].status), Rank(start.recipients[i].status), {},
                e => Targets(e, start.recipients[i]));
  }

  // ---- Exactly when a run converges ----

  /** No stored event asks for more than the save that wrote last. */
  ghost predicate MessageStands(start: Log, s: Sys) {
    forall e :: e in s.stored ==>
      RankOf(e.kind) <= if s.written == [] then Rank(start.status) else RankOf(s.written[|s.written| - 1].kind)
  }

  ghost predicate RecipientStands(start: Log, s: Sys, i: nat)
    requires i < |start.recipients|
  {
    forall e :: e in s.stored && Targets(e, start.recipients[i]) ==>
      || RankOf(e.kind) <= Rank(start.recipients[i].status)
      || exists f :: f in s.raised && Targets(f, start.recipients[i]) && RankOf(e.kind) <= RankOf(f.kind)
  }

  /** Each stored event has raised its recipients, or others have at least as far. */
  ghost predicate RecipientsStand(start: Log, s: Sys) {
    forall i :: 0 <= i < |start.recipients| ==> RecipientStands(start, s, i)
  }

  /** Each stored suppressing event has put its pair on the list, or another has. */
  ghost predicate SuppressionsStand(start: Log, s: Sys) {
    forall e :: e in s.stored && Suppresses(e) ==>
      Pair(e) in start.suppressed || exists f :: f in s.noted && Suppresses(f) && Pair(f) == Pair(e)
  }

  /** A seen event has a stored twin, which asks for the same. */
  lemma StoredTwin(start: Log, s: Sys, e: Event) returns (f: Event)
    requires KeysOk(start, s) && start.keys == {} && e in s.seen
    ensures f in s.stored && f.kind == e.kind && f.recipient == e.recipient && (e.id != "" ==> KeyOf(f) == KeyOf(e))
  {
    if e in s.stored {
      f := e;
    } else {
      f :| f in s.stored && f.id != "" && KeyOf(f) == KeyOf(e);
    }
  }

  lemma MessageIff(start: Log, s: Sys)
    requires Accounted(start, s) && start.keys == {}
    ensures IsMaximum(Rank(s.log.status), Rank(start.status), s.seen, _ => true) <==> MessageStands(start, s)
  {
    RankStays(start, s);
    if MessageStands(start, s) {
      forall e | e in s.seen ensures RankOf(e.kind) <= Rank(s.log.status) {
        var f := StoredTwin(start, s, e);
      }
      if s.written != [] { assert s.written[|s.written| - 1] in s.seen; }
    }
  }

  ghost predicate RecipientIsMaximum(start: Log, s: Sys, i: nat)
    requires i < |start.recipients| == |s.log.recipients|
  {
    IsMaximum(Rank(s.log.recipients[i].status), Rank(start.recipients[i].status), s.seen,
              e => Targets(e, start.recipients[i]))
  }

  lemma RecipientIff(start: Log, s: Sys, i: nat)
    requires Accounted(start, s) && start.keys == {} && i < |start.recipients|
    ensures RecipientIsMaximum(start, s, i) <==> RecipientStands(start, s, i)
  {
    var rank := Rank(s.log.recipients[i].status);
    if RecipientStands(start, s, i) {
      forall e | e in s.seen && Targets(e, start.recipients[i]) ensures RankOf(e.kind) <= rank {
        var f := StoredTwin(start, s, e);
        assert Targets(f, start.recipients[i]);
      }
      assert s.raised <= s.seen;
    }
    if RecipientIsMaximum(start, s, i) {
      forall e | e in s.stored && Targets(e, start.recipients[i]) ensures RankOf(e.kind) <= rank {
        assert e in s.seen;
      }
    }
  }

  lemma RecipientsIff(start: Log, s: Sys)
    requires Accounted(start, s) && start.keys == {}
    ensures RecipientsStand(start, s) <==>
      forall i :: 0 <= i < |start.recipients| ==> RecipientIsMaximum(start, s, i)
  {
    forall i | 0 <= i < |start.recipients|
      ensures RecipientIsMaximum(start, s, i) <==> RecipientStands(start, s, i)
    {
      RecipientIff(start, s, i);
    }
  }

  lemma SuppressionsIff(start: Log, s: Sys)
    requires Accounted(start, s) && start.keys == {} && Settled(start, s.seen)
    ensures SuppressionsStand(start, s) <==>
      s.log.suppressed == start.suppressed + (set e | e in s.seen && Suppresses(e) :: Pair(e))
  {
    if SuppressionsStand(start, s) {
      forall e | e in s.seen && Suppresses(e) ensures Pair(e) in s.log.suppressed {
        SuppressionHolds(start, s, e);
      }
      assert s.noted <= s.seen;
    } else {
      var e :| e in s.stored && Suppresses(e) && Pair(e) !in start.suppressed
        && forall f :: f in s.noted && Suppresses(f) ==> Pair(f) != Pair(e);
      assert e in s.seen && Pair(e) !in s.log.suppressed;
    }
  }

  /** A suppressing event whose deliveries all resolve to its domain has only one to store: itself. */
  lemma StoredItself(start: Log, s: Sys, g: Event)
    requires Accounted(start, s) && start.keys == {}
    requires g in s.seen && Suppresses(g) && OneDomain(s.seen, g)
    ensures g in s.stored
  {
    var f := StoredTwin(start, s, g);
    assert f in s.seen && (g.id != "" ==> f.domain == g.domain);
  }

  lemma SuppressionHolds(start: Log, s: Sys, e: Event)
    requires Accounted(start, s) && start.keys == {} && Settled(start, s.seen) && SuppressionsStand(start, s)
    requires e in s.seen && Suppresses(e)
    ensures Pair(e) in s.log.suppressed
  {
    if Pair(e) !in start.suppressed {
      var g :| g in s.seen && Suppresses(g) && OneDomain(s.seen, g) && Pair(g) == Pair(e);
      StoredItself(start, s, g);
    }
  }

  lemma RankedTransfers(start: Log, events: set<Event>, t: Log, t': Log)
    requires Ranked(start, events, t) && Observe(t).(suppressed := {}) == Observe(t').(suppressed := {})
    ensures Ranked(start, events, t')
  {
    assert |Observe(t).(suppressed := {}).recipients| == |t.recipients|;
    assert |Observe(t').(suppressed := {}).recipients| == |t'.recipients|;
    forall i | 0 <= i < |start.recipients|
      ensures t'.recipients[i].email == t.recipients[i].email
      ensures Rank(t'.recipients[i].status) == Rank(t.recipients[i].status)
    {
      assert Observe(t).(suppressed := {}).recipients[i] == Observe(t').(suppressed := {}).recipients[i];
    }
  }

  /** A log looks like the fold of the events exactly if it is a summary of them. */
  lemma SummaryIff(start: Log, events: set<Event>, t: Log, t': Log)
    requires Summary(start, events, t)
    ensures Observe(t) == Observe(t') <==> Summary(start, events, t')
  {
    if Observe(t) == Observe(t') {
      RankedTransfers(start, events, t, t');
      assert Observe(t).suppressed == t.suppressed && Observe(t').suppressed == t'.suppressed;
    } else if Summary(start, events, t') {
      SummaryUnique(start, events, t, t');
    }
  }

  lemma RankedParts(start: Log, s: Sys)
    requires Accounted(start, s) && start.keys == {}
    ensures Ranked(start, s.seen, s.log) <==>
      && IsMaximum(Rank(s.log.status), Rank(start.status), s.seen, _ => true)
      && forall i :: 0 <= i < |start.recipients| ==> RecipientIsMaximum(start, s, i)
  {
    KeysSeen(start, s);
    forall i | 0 <= i < |start.recipients|
      ensures s.log.recipients[i].email == start.recipients[i].email
      ensures RecipientIsMaximum(start, s, i) <==>
        IsMaximum(Rank(s.log.recipients[i].status), Rank(start.recipients[i].status), s.seen,
                  e => Targets(e, start.recipients[i]))
    {
    }
  }

  lemma SummaryParts(start: Log, s: Sys)
    requires Accounted(start, s) && start.keys == {} && Settled(start, s.seen)
    ensures Summary(start, s.seen, s.log) <==>
      MessageStands(start, s) && RecipientsStand(start, s) && SuppressionsStand(start, s)
  {
    RankedParts(start, s);
    MessageIff(start, s);
    RecipientsIff(start, s);
    SuppressionsIff(start, s);
  }

  lemma KeysSeen(start: Log, s: Sys)
    requires KeysOk(start, s) && start.keys == {}
    ensures s.log.keys == start.keys + (set e | e in s.seen && e.id != "" :: KeyOf(e))
  {
  }

  /** For every run of workers that overlap, die anywhere and retry, at any moment of it: the log is what handling the
      events one at a time would leave, in any order, if and only if the save that wrote last is of an event that no
      stored one outranks, and each stored event has raised its recipients and noted its suppression itself or another
      event has done as much. A delivery that dies between its event row and the rest is in the way exactly where no
      other event makes up for it. */
  lemma RunConvergesIff(start: Log, workers: nat, ms: seq<Move>, fs: seq<Event>)
    requires start.keys == {} && Events(fs) == Run(Start(start, workers), ms).seen && Settled(start, Events(fs))
    ensures var s := Run(Start(start, workers), ms);
      Observe(s.log) == Observe(Folded(start, fs)) <==>
        MessageStands(start, s) && RecipientsStand(start, s) && SuppressionsStand(start, s)
  {
    var s := Run(Start(start, workers), ms);
    StartAccounted(start, workers);
    AccountedRun(start, Start(start, workers), ms);
    FoldSummary(start, fs);
    SummaryIff(start, s.seen, Folded(start, fs), s.log);
    SummaryParts(start, s);
  }

  // ---- Overlapping saves ----

  /** The save lowers the rank: the message has been raised further since the worker loaded it. */
  predicate Overwrites(s: Sys, m: Move) {
    && m.Save? && At(s, m.w, Saving) && Writes(s.workers[m.w])
    && RankOf(s.workers[m.w].event.kind) < Rank(s.log.status)
  }

  /** The save puts one terminal status in the place of another. */
  predicate Replaces(s: Sys, m: Move) {
    && m.Save? && At(s, m.w, Saving) && Writes(s.workers[m.w])
    && StatusOf(s.workers[m.w].event.kind).value != s.log.status
  }

  /** Exactly which steps lower the message's rank, and that none lowers a recipient's. */
  lemma RankFallsIff(s: Sys, m: Move, i: nat)
    requires i < |s.log.recipients|
    ensures Rank(Step(s, m).log.status) < Rank(s.log.status) <==> Overwrites(s, m)
    ensures |Step(s, m).log.recipients| == |s.log.recipients|
    ensures Rank(Step(s, m).log.recipients[i].status) >= Rank(s.log.recipients[i].status)
  {
    if m.Raise? && At(s, m.w, Raising) { RaisedRank(s.log.recipients[i].status, s.workers[m.w].event.kind); }
  }

  /** Exactly which steps replace a terminal status. */
  lemma TerminalFallsIff(s: Sys, m: Move)
    requires Rank(s.log.status) == 6
    ensures Step(s, m).log.status != s.log.status <==> Replaces(s, m)
  {
  }

  ghost predicate NoOverwrites(s: Sys, ms: seq<Move>)
    decreases |ms|
  {
    ms == [] || (!Overwrites(s, ms[0]) && NoOverwrites(Step(s, ms[0]), ms[1..]))
  }

  /** Nobody has loaded a higher rank than the message has, and the message has the highest of the events saved. */
  ghost predicate Rising(start: Log, s: Sys) {
    && IsMaximum(Rank(s.log.status), Rank(start.status), s.saved, _ => true)
    && (forall i :: 0 <= i < |s.workers| && s.workers[i].Busy? ==> Rank(s.workers[i].read) <= Rank(s.log.status))
  }

  lemma RisingStep(start: Log, s: Sys, m: Move)
    requires Rising(start, s) && !Overwrites(s, m)
    ensures Rising(start, Step(s, m))
  {
    var t := Step(s, m);
    if m.Save? && At(s, m.w, Saving) {
      var e := s.workers[m.w].event;
      MaximumExtends(Rank(s.log.status), Rank(start.status), s.saved, _ => true, e, Rank(t.log.status));
    }
  }

  lemma {:induction false} RisingRun(start: Log, s: Sys, ms: seq<Move>)
    requires Rising(start, s) && NoOverwrites(s, ms)
    ensures Rising(start, Run(s, ms))
    decreases |ms|
  {
    if ms == [] {
    } else {
      RisingStep(start, s, ms[0]);
      RisingRun(start, Step(s, ms[0]), ms[1..]);
    }
  }

  /** The event's save was due, or another has raised the message as far. */
  ghost predicate MessageSupplied(start: Log, s: Sys, e: Event) {
    || RankOf(e.kind) <= Rank(start.status)
    || exists f :: f in s.saved && RankOf(e.kind) <= RankOf(f.kind)
  }

  /** Where no save overwrites a higher rank, it does not matter which save came last: the run converges if and only if
      every delivery that stored its event row has gone through with its save, its recipients and its suppression, or
      other events have supplied what it left undone. */
  lemma UnoverwrittenRunConvergesIff(start: Log, workers: nat, ms: seq<Move>, fs: seq<Event>)
    requires start.keys == {} && Events(fs) == Run(Start(start, workers), ms).seen && Settled(start, Events(fs))
    requires NoOverwrites(Start(start, workers), ms)
    ensures var s := Run(Start(start, workers), ms);
      Observe(s.log) == Observe(Folded(start, fs)) <==>
        && (forall e :: e in s.stored ==> MessageSupplied(start, s, e))
        && RecipientsStand(start, s) && SuppressionsStand(start, s)
  {
    var s := Run(Start(start, workers), ms);
    RunConvergesIff(start, workers, ms, fs);
    StartAccounted(start, workers);
    AccountedRun(start, Start(start, workers), ms);
    RisingRun(start, Start(start, workers), ms);
    RankStays(start, s);
    SuppliedIff(start, s);
  }

  lemma SuppliedIff(start: Log, s: Sys)
    requires Rising(start, s) && StatusOk(start, s)
    ensures MessageStands(start, s) <==> forall e :: e in s.stored ==> MessageSupplied(start, s, e)
  {
    RankStays(start, s);
    assert Rank(s.log.status) ==
      if s.written == [] then Rank(start.status) else RankOf(s.written[|s.written| - 1].kind);
  }

  /** So a run that ends with nobody at work, in which nobody has died and no save has overwritten a higher rank, leaves
      what one call at a time leaves: overlap alone does no harm. */
  lemma UndisturbedRunConverges(start: Log, workers: nat, ms: seq<Move>, fs: seq<Event>)
    requires start.keys == {} && Events(fs) == Run(Start(start, workers), ms).seen && Settled(start, Events(fs))
    requires NoOverwrites(Start(start, workers), ms) && forall k :: 0 <= k < |ms| ==> !ms[k].Die?
    requires var s := Run(Start(start, workers), ms); forall i :: 0 <= i < |s.workers| ==> s.workers[i].Idle?
    ensures Observe(Run(Start(start, workers), ms).log) == Observe(Folded(start, fs))
  {
    UnoverwrittenRunConvergesIff(start, workers, ms, fs);
    FinishedRun(Start(start, workers), ms);
    StartAccounted(start, workers);
    AccountedRun(start, Start(start, workers), ms);
    var s := Run(Start(start, workers), ms);
    forall e | e in s.stored ensures e in s.noted {
      assert forall w: nat :: !Owes(s, w, e);
    }
    AllNotedStand(start, s);
  }

  predicate Owes(s: Sys, w: nat, e: Event) {
    w < |s.workers| && s.workers[w].Busy? && s.workers[w].stage != Storing && s.workers[w].event == e
  }

  /** Every stored event has gone through or is with a worker. */
  ghost predicate Finishing(s: Sys) {
    forall e :: e in s.stored ==> e in s.noted || exists w: nat :: Owes(s, w, e)
  }

  lemma FinishingStep(s: Sys, m: Move)
    requires Finishing(s) && !m.Die?
    ensures Finishing(Step(s, m))
  {
    var t := Step(s, m);
    forall e | e in t.stored ensures e in t.noted || exists w: nat :: Owes(t, w, e) {
      if e !in s.stored {
        assert Owes(t, m.w, e);
      } else if e !in t.noted {
        var w: nat :| Owes(s, w, e);
        assert Owes(t, w, e);
      }
    }
  }

  lemma {:induction false} FinishedRun(s: Sys, ms: seq<Move>)
    requires Finishing(s) && forall k :: 0 <= k < |ms| ==> !ms[k].Die?
    ensures Finishing(Run(s, ms))
    decreases |ms|
  {
    if ms == [] {
    } else {
      FinishingStep(s, ms[0]);
      FinishedRun(Step(s, ms[0]), ms[1..]);
    }
  }

  lemma AllNotedStand(start: Log, s: Sys)
    requires Accounted(start, s) && s.stored <= s.noted
    ensures forall e :: e in s.stored ==> MessageSupplied(start, s, e)
    ensures RecipientsStand(start, s) && SuppressionsStand(start, s)
  {
  }

  /** Where no save overwrites a higher rank, a recipient's rank stays at most the message's. */
  lemma RecipientsBelowMessage(start: Log, workers: nat, ms: seq<Move>, i: nat)
    requires i < |start.recipients| && Rank(start.recipients[i].status) <= Rank(start.status)
    requires NoOverwrites(Start(start, workers), ms)
    ensures var t := Run(Start(start, workers), ms).log;
      |t.recipients| == |start.recipients| && Rank(t.recipients[i].status) <= Rank(t.status)
  {
    StartAccounted(start, workers);
    AccountedRun(start, Start(start, workers), ms);
    RisingRun(start, Start(start, workers), ms);
    BelowMaximum(start, Run(Start(start, workers), ms), i);
  }

  lemma BelowMaximum(start: Log, s: Sys, i: nat)
    requires Accounted(start, s) && Rising(start, s) && i < |start.recipients|
    requires Rank(start.recipients[i].status) <= Rank(start.status)
    ensures Rank(s.log.recipients[i].status) <= Rank(s.log.status)
  {
    assert s.raised <= s.saved;
  }

  // ---- One call that nobody disturbs ----

  /** Reading and storing: a known event ends the call, any other has its row. */
  lemma ReadsAndStores(s: Sys, w: nat, e: Event) returns (t: Sys)
    requires w < |s.workers| && s.workers[w].Idle?
    ensures t == Step(Step(s, Read(w, e)), Store(w)) && |t.workers| == |s.workers|
    ensures Known(s.log, e) ==> t.workers == s.workers && t.log == s.log
    ensures !Known(s.log, e) ==> t.workers == s.workers[w := Busy(e, s.log.status, Saving)]
    ensures !Known(s.log, e) ==>
      t.log == Apply(s.log, e).(status := s.log.status, recipients := s.log.recipients, suppressed := s.log.suppressed)
  {
    var read := Step(s, Read(w, e));
    assert read.workers == s.workers[w := Busy(e, s.log.status, Storing)];
    t := Step(read, Store(w));
  }

  lemma Saves(s: Sys, w: nat, e: Event)
    requires w < |s.workers| && s.workers[w] == Busy(e, s.log.status, Saving)
    ensures Step(s, Save(w)).workers == s.workers[w := Busy(e, s.log.status, Raising)]
    ensures Step(s, Save(w)).log == s.log.(status := Raised(s.log.status, e.kind))
  {
  }

  /** Reading, storing and saving: of an event that is not known, half is done. */
  lemma FirstHalf(s: Sys, w: nat, e: Event)
    requires w < |s.workers| && s.workers[w].Idle?
    ensures var t := Run(s, [Read(w, e), Store(w), Save(w)]);
      && (Known(s.log, e) ==> t.workers == s.workers && t.log == s.log)
      && (!Known(s.log, e) ==>
            && t.workers == s.workers[w := Busy(e, s.log.status, Raising)]
            && t.log == Apply(s.log, e).(recipients := s.log.recipients, suppressed := s.log.suppressed))
  {
    RunThree(s, Read(w, e), Store(w), Save(w));
    var stored := ReadsAndStores(s, w, e);
    if !Known(s.log, e) {
      Saves(stored, w, e);
    }
  }

  lemma SecondHalf(s: Sys, w: nat, e: Event, read: EmailStatus)
    requires w < |s.workers| && s.workers[w] == Busy(e, read, Raising)
    ensures var t := Run(s, [Raise(w), Suppress(w)]);
      && t.workers == s.workers[w := Idle]
      && t.log.recipients == RaisedAll(s.log.recipients, e)
      && t.log == s.log.(recipients := t.log.recipients, suppressed := t.log.suppressed)
      && t.log.suppressed == if Suppresses(e) then s.log.suppressed + {Pair(e)} else s.log.suppressed
  {
    RunTwo(s, Raise(w), Suppress(w));
    assert Step(s, Raise(w)).workers[w].stage == Suppressing;
  }

  /** A worker without a task does nothing. */
  lemma IdleHalf(s: Sys, w: nat)
    requires w < |s.workers| && s.workers[w].Idle?
    ensures var t := Run(s, [Raise(w), Suppress(w)]); t.log == s.log && t.workers == s.workers
  {
    assert Step(s, Raise(w)) == s;
    RunTwo(s, Raise(w), Suppress(w));
  }

  /** All steps of a call by one worker leave what one step of the fold leaves. */
  lemma OneCallIsOneApply(s: Sys, w: nat, e: Event)
    requires w < |s.workers| && s.workers[w].Idle?
    ensures var t := Run(s, [Read(w, e), Store(w), Save(w)] + [Raise(w), Suppress(w)]);
      t.log == Apply(s.log, e) && t.workers == s.workers
  {
    RunAppend(s, [Read(w, e), Store(w), Save(w)], [Raise(w), Suppress(w)]);
    var t := Run(s, [Read(w, e), Store(w), Save(w)]);
    FirstHalf(s, w, e);
    if Known(s.log, e) {
      IdleHalf(t, w);
    } else {
      SecondHalf(t, w, e, s.log.status);
      assert s.workers[w := Busy(e, s.log.status, Raising)][w := Idle] == s.workers;
    }
  }

  // ---- Runs that do not converge ----

  lemma {:induction false} RunAppend(s: Sys, ms: seq<Move>, ns: seq<Move>)
    ensures Run(s, ms + ns) == Run(Run(s, ms), ns)
    decreases |ms|
  {
    if ms == [] {
      assert ms + ns == ns;
    } else {
      assert (ms + ns)[1..] == ms[1..] + ns;
      RunAppend(Step(s, ms[0]), ms[1..], ns);
    }
  }

  lemma RunTwo(s: Sys, m: Move, n: Move)
    ensures Run(s, [m, n]) == Step(Step(s, m), n)
  {
    assert [m, n][1..] == [n] && [n][1..] == [];
    assert Run(Step(s, m), [n]) == Run(Step(Step(s, m), n), []);
  }

  lemma RunThree(s: Sys, m: Move, n: Move, o: Move)
    ensures Run(s, [m, n, o]) == Step(Step(Step(s, m), n), o)
  {
    assert [m, n, o][1..] == [n, o] && [n, o][1..] == [o] && [o][1..] == [];
    assert Run(Step(Step(s, m), n), [o]) == Run(Step(Step(Step(s, m), n), o), []);
    assert Run(Step(s, m), [n, o]) == Run(Step(Step(s, m), n), [o]);
  }

  /** The worker looks up an event whose row is stored already. */
  predicate Repeating(s: Sys, w: Worker) {
    w.Busy? ==> w.stage == Storing && Known(s.log, w.event)
  }

  predicate Repeats(s: Sys, m: Move) {
    m.Read? ==> Known(s.log, m.event)
  }

  /** Once its row is stored, no repetition of an event, and no retry, changes anything: what an interrupted delivery
      has left undone it leaves undone for good. */
  lemma {:induction false} RepetitionsNeverHelp(s: Sys, ms: seq<Move>)
    requires forall i :: 0 <= i < |s.workers| ==> Repeating(s, s.workers[i])
    requires forall k :: 0 <= k < |ms| ==> Repeats(s, ms[k])
    ensures Run(s, ms).log == s.log
    decreases |ms|
  {
    if ms == [] {
    } else {
      var t := Step(s, ms[0]);
      if ms[0].w < |s.workers| { assert Repeating(s, s.workers[ms[0].w]); }
      assert Repeats(s, ms[0]);
      forall i | 0 <= i < |t.workers| ensures Repeating(t, t.workers[i]) { assert Repeating(s, s.workers[i]); }
      forall k | 0 <= k < |ms[1..]| ensures Repeats(t, ms[1..][k]) { assert Repeats(s, ms[k + 1]); }
      RepetitionsNeverHelp(t, ms[1..]);
    }
  }

  /** A worker dies between storing the event row and saving the message; whatever is retried, the message never gets
      the rank the event asks for. */
  lemma InterruptedForGood(start: Log, e: Event, retries: seq<Move>)
    requires start.keys == {} && e.id != "" && RankOf(e.kind) > Rank(start.status)
    requires forall k :: 0 <= k < |retries| ==> retries[k].Read? ==> retries[k].event == e
    ensures var t := Run(Start(start, 1), [Read(0, e), Store(0), Die(0)] + retries).log;
      t.status == start.status && Observe(t) != Observe(Folded(start, [e]))
  {
    var s := Start(start, 1);
    RunThree(s, Read(0, e), Store(0), Die(0));
    RunAppend(s, [Read(0, e), Store(0), Die(0)], retries);
    var t := Run(s, [Read(0, e), Store(0), Die(0)]);
    assert t.log.keys == {KeyOf(e)} && t.workers == [Idle] && t.log.status == start.status;
    RepetitionsNeverHelp(t, retries);
    assert [e][..0] == [];
    assert Folded(start, [e]) == Apply(Folded(start, []), e);
    RaisedRank(start.status, e.kind);
  }

  /** The message row is read, then saved without a lock: two workers that both read `status` and then save, e first. */
  function RacedStatus(status: EmailStatus, e: Kind, f: Kind): EmailStatus {
    if RankOf(f) > Rank(status) then Raised(status, f) else Raised(status, e)
  }

  /** The race loses the maximum exactly when the later save is a raise too, but to a lower rank than the earlier. */
  lemma RaceKeepsMaximumIff(status: EmailStatus, e: Kind, f: Kind)
    ensures Rank(RacedStatus(status, e, f)) == Rank(Raised(Raised(status, e), f)) <==>
      !(Rank(status) < RankOf(f) < RankOf(e))
  {
    RaisedRank(status, e);
    RaisedRank(status, f);
    RaisedRank(Raised(status, e), f);
  }

  /** Two workers load the message, store their event rows, and save, the one with e first. */
  lemma RaceRun(start: Log, e: Event, f: Event)
    requires start.keys == {} && (e.id == "" || f.id == "" || KeyOf(e) != KeyOf(f))
    ensures Run(Start(start, 2), [Read(0, e), Read(1, f), Store(0)] + [Store(1), Save(0), Save(1)]).log.status
      == RacedStatus(start.status, e.kind, f.kind)
  {
    var s := Start(start, 2);
    assert s.workers == [Idle, Idle];
    RunThree(s, Read(0, e), Read(1, f), Store(0));
    var t := Run(s, [Read(0, e), Read(1, f), Store(0)]);
    assert t.workers == [Busy(e, start.status, Saving), Busy(f, start.status, Storing)] && t.log.status == start.status;
    RunAppend(s, [Read(0, e), Read(1, f), Store(0)], [Store(1), Save(0), Save(1)]);
    RunThree(t, Store(1), Save(0), Save(1));
    RaceSaves(Step(t, Store(1)), e, f, start.status);
  }

  lemma RaceSaves(s: Sys, e: Event, f: Event, read: EmailStatus)
    requires s.workers == [Busy(e, read, Saving), Busy(f, read, Saving)] && s.log.status == read
    ensures Step(Step(s, Save(0)), Save(1)).log.status == RacedStatus(read, e.kind, f.kind)
  {
    var t := Step(s, Save(0));
    assert t.workers == [Busy(e, read, Raising), Busy(f, read, Saving)];
    assert t.log.status == Raised(read, e.kind);
  }

  /** Exactly which two overlapping deliveries lose the maximum: those where the later save is a raise too, but to a
      lower rank than the earlier. */
  lemma OverlapKeepsMaximumIff(start: Log, e: Event, f: Event)
    requires start.keys == {} && (e.id == "" || f.id == "" || KeyOf(e) != KeyOf(f))
    ensures var t := Run(Start(start, 2), [Read(0, e), Read(1, f), Store(0)] + [Store(1), Save(0), Save(1)]).log;
      Rank(t.status) == Rank(Folded(start, [e, f]).status) <==> !(Rank(start.status) < RankOf(f.kind) < RankOf(e.kind))
  {
    RaceRun(start, e, f);
    FoldTwo(start, e, f);
    assert Folded(start, [e, f]).status == Raised(Raised(start.status, e.kind), f.kind);
    RaceKeepsMaximumIff(start.status, e.kind, f.kind);
  }
}

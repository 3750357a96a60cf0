/** Claiming, reclaiming, replaying and redacting one stored webhook, over every interleaving of workers and sweeps. */
module Webhook {
  import opened Types

  datatype HookStatus = Waiting | Processing | Processed | Broken | Ignored

  /** `provider` is None if it could not be resolved; `eventId` is "" if the provider sent none; `redacted` says that
      payload and headers have been blanked. */
  datatype Row = Row(
    provider: Option<nat>,
    eventId: string,
    status: HookStatus,
    lockedAt: Option<nat>,
    attempts: nat,
    receivedAt: nat,
    redacted: bool)

  /** The stale window and the payload retention in seconds, and the attempts after which the sweep gives up. */
  datatype Settings = Settings(stale: nat, retention: nat, maxAttempts: nat)

  // ---- Guards ----

  predicate Retryable(status: HookStatus) {
    status.Waiting? || status.Processing? || status.Broken?
  }

  predicate Stale(c: Settings, time: nat, now: nat) {
    time + c.stale < now
  }

  predicate Claimable(c: Settings, r: Row, now: nat) {
    || r.status.Waiting? || r.status.Broken?
    || (r.status.Processing? && r.lockedAt.Some? && Stale(c, r.lockedAt.value, now))
  }

  /** What the stale sweep enqueues. */
  predicate Selected(c: Settings, r: Row, now: nat) {
    && Retryable(r.status) && r.attempts < c.maxAttempts
    && (if r.lockedAt.None? then Stale(c, r.receivedAt, now) else Stale(c, r.lockedAt.value, now))
  }

  predicate Expired(c: Settings, r: Row, now: nat) {
    r.receivedAt + c.retention < now && !Retryable(r.status) && !r.redacted
  }

  // ---- Row transactions ----

  function Claimed(r: Row, now: nat): Row {
    r.(status := Processing, lockedAt := Some(now), attempts := r.attempts + 1)
  }

  /** A row whose provider is gone is ignored without clearing locked_at. */
  function Finished(r: Row, verdict: Verdict): Row {
    match verdict
    case Done => r.(status := Processed, lockedAt := None)
    case Dropped => r.(status := Ignored, lockedAt := None)
    case NoProvider => r.(status := Ignored)
    case Raised => r.(status := Broken)
  }

  function Replayed(r: Row): Row {
    r.(status := Waiting, lockedAt := None)
  }

  datatype Verdict = Done | Dropped | NoProvider | Raised

  // ---- One row under many workers ----

  /** `holders` maps each worker inside process_webhook_log to the time of its claim; `enqueued` counts the tasks the
      row has been given so far. */
  datatype Hook = Hook(row: Row, holders: map<nat, nat>, now: nat, enqueued: nat)

  datatype Event =
    | Tick(seconds: nat)
    | Claim(w: nat)
    | Finish(w: nat, verdict: Verdict)
    | Die(w: nat)
    | Replay
    | Redact
    | Sweep

  predicate Claims(c: Settings, s: Hook, e: Event) {
    e.Claim? && e.w !in s.holders && Claimable(c, s.row, s.now)
  }

  function Without(holders: map<nat, nat>, w: nat): map<nat, nat> {
    map v | v in holders && v != w :: holders[v]
  }

  function Step(c: Settings, s: Hook, e: Event): Hook {
    match e
    case Tick(seconds) => s.(now := s.now + seconds)
    case Claim(w) =>
      if Claims(c, s, e) then s.(row := Claimed(s.row, s.now), holders := s.holders[w := s.now]) else s
    case Finish(w, verdict) =>
      if w in s.holders then s.(row := Finished(s.row, verdict), holders := Without(s.holders, w)) else s
    case Die(w) => s.(holders := Without(s.holders, w))
    case Replay => s.(row := Replayed(s.row), enqueued := s.enqueued + 1)
    case Redact => if Expired(c, s.row, s.now) then s.(row := s.row.(redacted := true)) else s
    case Sweep => if Selected(c, s.row, s.now) then s.(enqueued := s.enqueued + 1) else s
  }

  function Run(c: Settings, s: Hook, es: seq<Event>): Hook
    decreases |es|
  {
    if es == [] then s else Run(c, Step(c, s, es[0]), es[1..])
  }

  function Received(provider: nat, eventId: string, now: nat): Hook {
    Hook(Row(Some(provider), eventId, Waiting, None, 0, now, false), map[], now, 1)
  }

  // ---- A processing row is locked, so whatever the sweep selects can be claimed ----

  predicate Locked(r: Row) {
    r.status.Processing? ==> r.lockedAt.Some?
  }

  lemma {:induction false} LockedRun(c: Settings, s: Hook, es: seq<Event>)
    requires Locked(s.row)
    ensures Locked(Run(c, s, es).row)
    decreases |es|
  {
    if es == [] {
    } else {
      LockedRun(c, Step(c, s, es[0]), es[1..]);
    }
  }

  /** In every reachable state, replays included, the stale sweep only enqueues rows its task can claim. */
  lemma SweptIsClaimable(c: Settings, provider: nat, eventId: string, start: nat, es: seq<Event>)
    ensures var s := Run(c, Received(provider, eventId, start), es);
      Selected(c, s.row, s.now) ==> Claimable(c, s.row, s.now)
  {
    LockedRun(c, Received(provider, eventId, start), es);
  }

  // ---- At most one worker ----

  ghost predicate Exclusive(s: Hook) {
    && (forall v, w :: v in s.holders && w in s.holders ==> v == w)
    && (forall w :: w in s.holders ==> s.row.status.Processing? && s.row.lockedAt == Some(s.holders[w]))
  }

  /** Another worker's claim, or a manual replay, while a worker is still at it. */
  predicate Overruns(c: Settings, s: Hook, e: Event) {
    s.holders.Keys != {} && (e.Replay? || Claims(c, s, e))
  }

  /** Exactly which steps let a second worker in or take the row from under the first. */
  lemma ExclusiveIff(c: Settings, s: Hook, e: Event)
    requires Exclusive(s)
    ensures Exclusive(Step(c, s, e)) <==> !Overruns(c, s, e)
  {
    if Overruns(c, s, e) {
      var w :| w in s.holders;
      assert w in Step(c, s, e).holders;
    }
  }

  /** Every holder is still inside its stale window. */
  ghost predicate Prompt(c: Settings, s: Hook) {
    forall w :: w in s.holders ==> !Stale(c, s.holders[w], s.now)
  }

  ghost predicate PromptRun(c: Settings, s: Hook, es: seq<Event>)
    decreases |es|
  {
    Prompt(c, s) && (es == [] || (!es[0].Replay? && PromptRun(c, Step(c, s, es[0]), es[1..])))
  }

  lemma PromptNeverOverruns(c: Settings, s: Hook, e: Event)
    requires Exclusive(s) && Prompt(c, s) && !e.Replay?
    ensures !Overruns(c, s, e)
  {
    if s.holders.Keys != {} {
      var w :| w in s.holders;
      assert s.row.lockedAt == Some(s.holders[w]);
    }
  }

  // ---- Redaction ----

  /** A row that may still be processed has its payload. */
  predicate Readable(r: Row) {
    Retryable(r.status) ==> !r.redacted
  }

  /** Exactly which steps make a redacted row retryable again: a manual replay, or a failing worker that had been
      overrun. */
  lemma ReadableIff(c: Settings, s: Hook, e: Event)
    requires Readable(s.row)
    ensures Readable(Step(c, s, e).row) <==>
      !(s.row.redacted && (e.Replay? || (e.Finish? && e.w in s.holders && e.verdict.Raised?)))
  {
  }

  lemma {:induction false} RunAppend(c: Settings, s: Hook, es: seq<Event>, fs: seq<Event>)
    ensures Run(c, s, es + fs) == Run(c, Run(c, s, es), fs)
    decreases |es|
  {
    if es == [] {
      assert es + fs == fs;
    } else {
      assert (es + fs)[1..] == es[1..] + fs;
      RunAppend(c, Step(c, s, es[0]), es[1..], fs);
    }
  }

  lemma RunTwo(c: Settings, s: Hook, e: Event, f: Event)
    ensures Run(c, s, [e, f]) == Step(c, Step(c, s, e), f)
  {
    assert [e, f][1..] == [f] && [f][1..] == [];
    assert Run(c, Step(c, s, e), [f]) == Run(c, Step(c, Step(c, s, e), f), []);
  }

  /** Whatever the settings: a row processed, redacted once its retention is over, and then replayed by hand is claimed
      without its payload. */
  lemma RedactedThenReplayed(c: Settings) returns (es: seq<Event>)
    ensures var s := Run(c, Received(0, "e", 0), es);
      s.row.redacted && Claimable(c, s.row, s.now) && !Readable(s.row)
  {
    var s := Received(0, "e", 0);
    RunTwo(c, s, Claim(1), Finish(1, Done));
    var s1 := Run(c, s, [Claim(1), Finish(1, Done)]);
    assert s1.row.status == Processed && s1.row.receivedAt == 0 && !s1.row.redacted;
    RunTwo(c, s1, Tick(c.retention + 1), Redact);
    var s2 := Run(c, s1, [Tick(c.retention + 1), Redact]);
    assert s2.row.redacted;
    assert [Replay][1..] == [];
    assert Run(c, s2, [Replay]) == Run(c, Step(c, s2, Replay), []);
    RunAppend(c, s, [Claim(1), Finish(1, Done)], [Tick(c.retention + 1), Redact]);
    RunAppend(c, s, [Claim(1), Finish(1, Done)] + [Tick(c.retention + 1), Redact], [Replay]);
    es := [Claim(1), Finish(1, Done)] + [Tick(c.retention + 1), Redact] + [Replay];
  }

  /** With prompt holders and no manual replay: one worker on the row, and never a claimable row without payload. */
  lemma {:induction false} PromptRunsAreSafe(c: Settings, s: Hook, es: seq<Event>)
    requires Exclusive(s) && Readable(s.row) && PromptRun(c, s, es)
    ensures Exclusive(Run(c, s, es)) && Readable(Run(c, s, es).row)
    ensures Claimable(c, Run(c, s, es).row, Run(c, s, es).now) ==> !Run(c, s, es).row.redacted
    decreases |es|
  {
    if es == [] {
    } else {
      PromptNeverOverruns(c, s, es[0]);
      ExclusiveIff(c, s, es[0]);
      ReadableIff(c, s, es[0]);
      PromptRunsAreSafe(c, Step(c, s, es[0]), es[1..]);
    }
  }

  /** Whatever the settings, a holder that outlives its window shares the row with the next one. */
  lemma SlowWorkerIsJoined(c: Settings)
    ensures var s := Run(c, Received(0, "e", 0), [Claim(1), Tick(c.stale + 1), Claim(2)]);
      1 in s.holders && 2 in s.holders
  {
    var s1 := Step(c, Received(0, "e", 0), Claim(1));
    var s2 := Step(c, s1, Tick(c.stale + 1));
    var s3 := Step(c, s2, Claim(2));
    assert Run(c, s2, [Claim(2)]) == Run(c, s3, [Claim(2)][1..]);
    assert [Claim(1), Tick(c.stale + 1), Claim(2)][1..] == [Tick(c.stale + 1), Claim(2)];
    assert [Tick(c.stale + 1), Claim(2)][1..] == [Claim(2)];
  }

  // ---- What the sweeps must do ----

  /** Rounds of work on the row: each time a worker claims it and dies, and more than the stale window passes. */
  function LostRounds(c: Settings, w: nat, rounds: nat): seq<Event> {
    if rounds == 0 then [] else LostRounds(c, w, rounds - 1) + [Claim(w), Die(w), Tick(c.stale + 1)]
  }

  lemma RunThree(c: Settings, s: Hook, e: Event, f: Event, g: Event)
    ensures Run(c, s, [e, f, g]) == Step(c, Step(c, Step(c, s, e), f), g)
  {
    assert [e, f, g][1..] == [f, g];
    RunTwo(c, Step(c, s, e), f, g);
  }

  /** A webhook whose task the broker has lost is enqueued again exactly once the stale window is over, if the settings
      leave it any attempt. */
  lemma LostTaskIsSwept(c: Settings, provider: nat, eventId: string, start: nat, wait: nat)
    ensures Run(c, Received(provider, eventId, start), [Tick(wait), Sweep]).enqueued ==
      if wait > c.stale && c.maxAttempts > 0 then 2 else 1
  {
    RunTwo(c, Received(provider, eventId, start), Tick(wait), Sweep);
  }

  /** So is one whose worker has died after its claim, or whose processing has raised, whenever that was. */
  lemma BrokenTaskIsSwept(c: Settings, provider: nat, eventId: string, start: nat, before: nat, w: nat, wait: nat)
    ensures var s := Run(c, Received(provider, eventId, start), [Tick(before), Claim(w)]);
      var swept := if wait > c.stale && c.maxAttempts > 1 then 2 else 1;
      && w in s.holders
      && Run(c, s, [Die(w), Tick(wait), Sweep]).enqueued == swept
      && Run(c, s, [Finish(w, Raised), Tick(wait), Sweep]).enqueued == swept
  {
    RunTwo(c, Received(provider, eventId, start), Tick(before), Claim(w));
    var s := Run(c, Received(provider, eventId, start), [Tick(before), Claim(w)]);
    RunThree(c, s, Die(w), Tick(wait), Sweep);
    RunThree(c, s, Finish(w, Raised), Tick(wait), Sweep);
  }

  /** One that has been processed or ignored never is. */
  lemma FinishedIsNotSwept(c: Settings, provider: nat, eventId: string, start: nat, w: nat, verdict: Verdict, wait: nat)
    requires verdict != Raised
    ensures var es := [Claim(w), Finish(w, verdict)] + [Tick(wait), Sweep];
      Run(c, Received(provider, eventId, start), es).enqueued == 1
  {
    var s := Received(provider, eventId, start);
    RunAppend(c, s, [Claim(w), Finish(w, verdict)], [Tick(wait), Sweep]);
    RunTwo(c, s, Claim(w), Finish(w, verdict));
    RunTwo(c, Run(c, s, [Claim(w), Finish(w, verdict)]), Tick(wait), Sweep);
  }

  lemma {:induction false} AfterLostRounds(c: Settings, s: Hook, w: nat, rounds: nat)
    requires s.row.status == Waiting && s.row.lockedAt == None && s.holders == map[]
    ensures var t := Run(c, s, LostRounds(c, w, rounds));
      && t.holders == map[] && t.enqueued == s.enqueued && t.row.attempts == s.row.attempts + rounds
      && (rounds == 0 ==> t == s)
      && (rounds > 0 ==> t.row.status == Processing && t.row.lockedAt.Some? && Stale(c, t.row.lockedAt.value, t.now))
  {
    if rounds == 0 {
    } else {
      AfterLostRounds(c, s, w, rounds - 1);
      var t := Run(c, s, LostRounds(c, w, rounds - 1));
      RunAppend(c, s, LostRounds(c, w, rounds - 1), [Claim(w), Die(w), Tick(c.stale + 1)]);
      RunThree(c, t, Claim(w), Die(w), Tick(c.stale + 1));
    }
  }

  /** The sweep gives up exactly when as many claims as the settings allow have come to nothing. */
  lemma SweepGivesUp(c: Settings, provider: nat, eventId: string, start: nat, w: nat, rounds: nat)
    requires rounds > 0
    ensures Run(c, Received(provider, eventId, start), LostRounds(c, w, rounds) + [Sweep]).enqueued ==
      if rounds < c.maxAttempts then 2 else 1
  {
    var s := Received(provider, eventId, start);
    AfterLostRounds(c, s, w, rounds);
    var t := Run(c, s, LostRounds(c, w, rounds));
    RunAppend(c, s, LostRounds(c, w, rounds), [Sweep]);
    assert [Sweep][1..] == [];
    assert Run(c, t, [Sweep]) == Run(c, Step(c, t, Sweep), []);
  }

  /** A manual replay enqueues the row once more and lets any worker claim it, with the attempts it has had. */
  lemma ReplayReopens(c: Settings, s: Hook)
    ensures var t := Step(c, s, Replay);
      && t.enqueued == s.enqueued + 1 && Claimable(c, t.row, t.now) && t.row.lockedAt == None
      && t.row == s.row.(status := Waiting, lockedAt := None) && t.holders == s.holders
  {
  }

  /** The payload of a finished webhook is blanked exactly once its retention is over. */
  lemma FinishedIsRedacted(c: Settings, provider: nat, eventId: string, start: nat, w: nat, verdict: Verdict, wait: nat)
    requires verdict != Raised
    ensures var es := [Claim(w), Finish(w, verdict)] + [Tick(wait), Redact];
      Run(c, Received(provider, eventId, start), es).row.redacted <==> wait > c.retention
  {
    var s := Received(provider, eventId, start);
    RunAppend(c, s, [Claim(w), Finish(w, verdict)], [Tick(wait), Redact]);
    RunTwo(c, s, Claim(w), Finish(w, verdict));
    RunTwo(c, Run(c, s, [Claim(w), Finish(w, verdict)]), Tick(wait), Redact);
  }

  // ---- The table, its sweeps and its endpoints ----

  datatype Reply = Created(id: nat) | Duplicate(id: nat) | Unknown(id: nat) | Unresolved(id: nat)

  class Table {
    const settings: Settings
    var rows: seq<Row>
    var queue: multiset<nat>
    var now: nat

    predicate Same(r: Row, provider: Option<nat>, eventId: string) {
      r.eventId == eventId && eventId != "" && r.provider == provider && provider.Some?
    }

    /** One row for each event id of a provider. */
    ghost predicate Valid()
      reads this
    {
      forall i, j :: 0 <= i < j < |rows| ==> !Same(rows[j], rows[i].provider, rows[i].eventId)
    }

    constructor (settings: Settings)
      ensures Valid() && rows == [] && queue == multiset{}
    {
      this.settings, rows, queue, now := settings, [], multiset{}, 0;
    }

    /** An event id the provider has sent before is a duplicate: nothing is written and nothing is enqueued. */
    method Create(provider: Option<nat>, eventId: string, known: bool) returns (reply: Reply)
      requires Valid()
      modifies this`rows, this`queue
      ensures Valid()
      ensures reply.Unresolved? <==> provider.None?
      ensures reply.Duplicate? <==> exists i :: 0 <= i < |old(rows)| && Same(old(rows)[i], provider, eventId)
      ensures reply.Duplicate? ==> rows == old(rows) && reply.id < |rows| && Same(rows[reply.id], provider, eventId)
      ensures !reply.Duplicate? ==> reply.id == |old(rows)| && |rows| == |old(rows)| + 1
      ensures !reply.Duplicate? ==> rows[..reply.id] == old(rows)
      ensures !reply.Duplicate? ==>
        rows[reply.id] == Row(provider, if provider.Some? then eventId else "",
                              if reply.Created? then Waiting else Ignored, None, 0, now, false)
      ensures reply.Created? ==> known
      ensures reply.Unknown? ==> !known
      ensures queue == old(queue) + if reply.Created? then multiset{reply.id} else multiset{}
    {
      var id := |rows|;
      if provider.None? {
        rows := rows + [Row(None, "", Ignored, None, 0, now, false)];
        return Unresolved(id);
      }
      if eventId != "" {
        for i := 0 to |rows|
          invariant forall k :: 0 <= k < i ==> !Same(rows[k], provider, eventId)
        {
          if rows[i].eventId == eventId && rows[i].provider == provider {
            return Duplicate(i);
          }
        }
      }
      rows := rows + [Row(provider, eventId, Waiting, None, 0, now, false)];
      if known {
        queue := queue + multiset{id};
        reply := Created(id);
      } else {
        rows := rows[id := rows[id].(status := Ignored)];
        reply := Unknown(id);
      }
    }

    /** The conditional UPDATE of process_webhook_log_task. */
    method ClaimRow(i: nat) returns (claimed: bool)
      requires Valid() && i < |rows|
      modifies this`rows
      ensures Valid() && claimed == Claimable(settings, old(rows)[i], now)
      ensures rows == if claimed then old(rows)[i := Claimed(old(rows)[i], now)] else old(rows)
    {
      var r := rows[i];
      claimed := r.status == Waiting || r.status == Broken
        || (r.status == Processing && r.lockedAt.Some? && r.lockedAt.value + settings.stale < now);
      if claimed {
        rows := rows[i := r.(status := Processing, lockedAt := Some(now), attempts := r.attempts + 1)];
      }
    }

    method Replay(i: nat)
      requires Valid() && i < |rows|
      modifies this`rows, this`queue
      ensures Valid() && rows == old(rows)[i := Replayed(old(rows)[i])]
      ensures queue == old(queue) + multiset{i}
    {
      rows := rows[i := rows[i].(status := Waiting, lockedAt := None)];
      queue := queue + multiset{i};
    }

    ghost function SelectedRows(): set<nat>
      reads this
    {
      set i: nat | i < |rows| && Selected(settings, rows[i], now)
    }

    /** The row is neither done nor ignored, has attempts left, and nobody has touched it within the stale window. */
    predicate Overdue(r: Row)
      reads this
    {
      && r.status !in {Processed, Ignored} && r.attempts < settings.maxAttempts
      && (if r.lockedAt.Some? then r.lockedAt.value else r.receivedAt) + settings.stale < now
    }

    /** Enqueues each overdue row once, and no other. */
    method RetryStale() returns (dispatched: nat)
      modifies this`queue
      ensures forall i: nat :: queue[i] == old(queue[i]) + if i < |rows| && Overdue(rows[i]) then 1 else 0
      ensures dispatched == |SelectedRows()|
    {
      dispatched := 0;
      ghost var done: set<nat> := {};
      for i := 0 to |rows|
        invariant forall k: nat :: k in done <==> k < i && Selected(settings, rows[k], now)
        invariant dispatched == |done|
        invariant forall k: nat :: queue[k] == old(queue[k]) + if k in done then 1 else 0
      {
        if Selected(settings, rows[i], now) {
          queue := queue + multiset{i};
          dispatched := dispatched + 1;
          done := done + {i};
        }
      }
      assert done == SelectedRows();
    }

    /** Blanks every expired payload and touches nothing else. */
    method RedactOld()
      requires Valid()
      modifies this`rows
      ensures Valid() && |rows| == |old(rows)|
      ensures forall i :: 0 <= i < |rows| ==>
        rows[i] == if Expired(settings, old(rows)[i], now) then old(rows)[i].(redacted := true) else old(rows)[i]
      ensures forall i :: 0 <= i < |rows| && Retryable(rows[i].status) ==> rows[i] == old(rows)[i]
    {
      for i := 0 to |rows|
        invariant |rows| == |old(rows)|
        invariant forall k :: 0 <= k < i ==>
          rows[k] == if Expired(settings, old(rows)[k], now) then old(rows)[k].(redacted := true) else old(rows)[k]
        invariant forall k :: i <= k < |rows| ==> rows[k] == old(rows)[k]
      {
        if Expired(settings, rows[i], now) {
          rows := rows[i := rows[i].(redacted := true)];
        }
      }
    }
  }
}

/** A user's own view of messages: the batched state change against one change at a time. */
module BulkState {
  import opened Types

  /** The shared message row, with the status of its send attempt if it has one. */
  datatype Mail = Mail(
    outbound: bool,
    status: EmailStatus,
    folder: Folder,
    read: bool,
    starred: bool,
    scheduledAt: Option<nat>,
    attempt: Option<AttemptStatus>)

  datatype View = View(
    folder: Folder,
    read: bool,
    starred: bool,
    important: bool,
    archivedAt: Option<nat>,
    snoozedUntil: Option<nat>,
    deletedAt: Option<nat>)

  /** The fields a request sets; a date may be set to null. */
  datatype Patch = Patch(
    folder: Option<Folder>,
    read: Option<bool>,
    starred: Option<bool>,
    important: Option<bool>,
    archivedAt: Option<Option<nat>>,
    snoozedUntil: Option<Option<nat>>,
    deletedAt: Option<Option<nat>>)

  const NO_CHANGE := Patch(None, None, None, None, None, None, None)

  /** Each user's view rows, by message; a user without rows has the empty map. */
  datatype Db = Db(messages: map<nat, Mail>, views: map<nat, map<nat, View>>)

  /** Who asks: the messages they can see, and those in mailboxes they may write to. */
  datatype Caller = Caller(user: nat, visible: set<nat>, writable: set<nat>)

  function Or<T>(change: Option<T>, current: T): T {
    if change.Some? then change.value else current
  }

  function Patched(v: View, p: Patch): View {
    View(Or(p.folder, v.folder), Or(p.read, v.read), Or(p.starred, v.starred), Or(p.important, v.important),
         Or(p.archivedAt, v.archivedAt), Or(p.snoozedUntil, v.snoozedUntil), Or(p.deletedAt, v.deletedAt))
  }

  function Default(m: Mail): View {
    View(m.folder, m.read, m.starred, false, None, None, None)
  }

  /** cancel_scheduled_send: a queued send with a pending attempt becomes a draft again; anything else is left alone. */
  function Recalled(m: Mail): Mail {
    if m.outbound && m.status == Queued && m.attempt == Some(Pending)
    then m.(status := Draft, folder := Drafts, scheduledAt := None, attempt := Some(Withdrawn))
    else m
  }

  function Trashed(c: Caller, p: Patch, id: nat, m: Mail): Mail {
    if p.folder == Some(Trash) && id in c.writable then Recalled(m) else m
  }

  // ---- One at a time ----

  function CancelStep(db: Db, c: Caller, p: Patch, id: nat): Db
    requires id in db.messages
  {
    db.(messages := db.messages[id := Trashed(c, p, id, db.messages[id])])
  }

  function Upserted(db: Db, user: nat, p: Patch, id: nat): Db
    requires id in db.messages && user in db.views
  {
    var own := db.views[user];
    var mine: map<nat, View> := own[id := Patched(if id in own then own[id] else Default(db.messages[id]), p)];
    db.(views := db.views[user := mine])
  }

  function Single(db: Db, c: Caller, p: Patch, id: nat): Db
    requires id in db.messages && c.user in db.views
  {
    Upserted(CancelStep(db, c, p, id), c.user, p, id)
  }

  function Singles(db: Db, c: Caller, p: Patch, ids: seq<nat>): (r: Db)
    requires c.user in db.views && forall i :: 0 <= i < |ids| ==> ids[i] in db.messages
    ensures r.messages.Keys == db.messages.Keys && r.views.Keys == db.views.Keys
    decreases |ids|
  {
    if ids == [] then db else Singles(Single(db, c, p, ids[0]), c, p, ids[1..])
  }

  // ---- All at once ----

  function Members(ids: seq<nat>): set<nat> {
    set id | id in ids
  }

  function AllTrashed(messages: map<nat, Mail>, c: Caller, p: Patch, ids: set<nat>): map<nat, Mail> {
    map id | id in messages :: if id in ids then Trashed(c, p, id, messages[id]) else messages[id]
  }

  function Created(messages: map<nat, Mail>, p: Patch, ids: set<nat>): map<nat, View>
    requires ids <= messages.Keys
  {
    map id | id in ids :: Patched(Default(messages[id]), p)
  }

  /** The rows of the batch found in the database, with the patched fields overwritten. */
  function Updated(own: map<nat, View>, p: Patch, ids: set<nat>): map<nat, View> {
    map id | id in ids && id in own :: Patched(own[id], p)
  }

  /** The two statements of the batch on the caller's rows, for the ids whose rows were seen and those whose rows were
      missing. The insert fails, and the batch with it, if a missing row has appeared since. */
  function Batch(db: Db, user: nat, p: Patch, seen: set<nat>, missing: set<nat>): Option<Db>
    requires missing <= db.messages.Keys && user in db.views
  {
    var own := db.views[user];
    if exists id :: id in missing && id in own then None
    else Some(db.(views := db.views[user := own + Created(db.messages, p, missing) + Updated(own, p, seen)]))
  }

  function AllAtOnce(db: Db, c: Caller, p: Patch, ids: set<nat>): Db
    requires ids <= db.messages.Keys && c.user in db.views
  {
    var trashed, own := AllTrashed(db.messages, c, p, ids), db.views[c.user];
    var seen := ids * own.Keys;
    Db(trashed, db.views[c.user := own + Created(trashed, p, ids - seen) + Updated(own, p, seen)])
  }

  // ---- They agree ----

  lemma CancelledOnce(c: Caller, p: Patch, id: nat, m: Mail)
    ensures Trashed(c, p, id, Trashed(c, p, id, m)) == Trashed(c, p, id, m)
  {
  }

  lemma PatchedOnce(v: View, p: Patch)
    ensures Patched(Patched(v, p), p) == Patched(v, p)
  {
  }

  lemma TrashedOneMore(db: Db, c: Caller, p: Patch, id: nat, ids: set<nat>)
    requires id in db.messages && ids <= db.messages.Keys
    ensures AllTrashed(CancelStep(db, c, p, id).messages, c, p, ids) == AllTrashed(db.messages, c, p, ids + {id})
  {
    CancelledOnce(c, p, id, db.messages[id]);
  }

  lemma ViewAfter(db: Db, c: Caller, p: Patch, ids: set<nat>, m: nat)
    requires ids <= db.messages.Keys && c.user in db.views
    ensures var own, after := db.views[c.user], AllAtOnce(db, c, p, ids).views[c.user];
      && (m in after <==> m in own || m in ids)
      && (m in ids && m in own ==> after[m] == Patched(own[m], p))
      && (m in ids && m !in own ==> after[m] == Patched(Default(Trashed(c, p, m, db.messages[m])), p))
      && (m !in ids && m in own ==> after[m] == own[m])
  {
  }

  lemma ViewOneMore(db: Db, c: Caller, p: Patch, id: nat, ids: set<nat>, m: nat)
    requires id in db.messages && ids <= db.messages.Keys && c.user in db.views
    ensures var one := AllAtOnce(Single(db, c, p, id), c, p, ids).views[c.user];
      var all := AllAtOnce(db, c, p, ids + {id}).views[c.user];
      (m in one <==> m in all) && (m in one ==> one[m] == all[m])
  {
    ViewAfter(Single(db, c, p, id), c, p, ids, m);
    ViewAfter(db, c, p, ids + {id}, m);
    if m == id {
      PatchedOnce(if m in db.views[c.user] then db.views[c.user][m] else Default(Trashed(c, p, m, db.messages[m])), p);
    }
  }

  lemma OwnViewsOneMore(db: Db, c: Caller, p: Patch, id: nat, ids: set<nat>)
    requires id in db.messages && ids <= db.messages.Keys && c.user in db.views
    ensures AllAtOnce(Single(db, c, p, id), c, p, ids).views[c.user] == AllAtOnce(db, c, p, ids + {id}).views[c.user]
  {
    var one := AllAtOnce(Single(db, c, p, id), c, p, ids).views[c.user];
    var all := AllAtOnce(db, c, p, ids + {id}).views[c.user];
    forall m: nat
      ensures m in one <==> m in all
      ensures m in one ==> one[m] == all[m]
    {
      ViewOneMore(db, c, p, id, ids, m);
    }
  }

  lemma OthersViews(db: Db, c: Caller, p: Patch, ids: set<nat>)
    requires ids <= db.messages.Keys && c.user in db.views
    ensures var after := AllAtOnce(db, c, p, ids).views; after == db.views[c.user := after[c.user]]
  {
  }

  lemma OneMore(db: Db, c: Caller, p: Patch, id: nat, ids: set<nat>)
    requires id in db.messages && ids <= db.messages.Keys && c.user in db.views
    ensures AllAtOnce(Single(db, c, p, id), c, p, ids) == AllAtOnce(db, c, p, ids + {id})
  {
    TrashedOneMore(db, c, p, id, ids);
    OwnViewsOneMore(db, c, p, id, ids);
    OthersViews(Single(db, c, p, id), c, p, ids);
    OthersViews(db, c, p, ids + {id});
  }

  /** One change at a time leaves what one batch over the same set of ids leaves: the same views, messages and
      attempts, whatever the order and however often an id repeats. */
  lemma {:induction false} SinglesAreTheBatch(db: Db, c: Caller, p: Patch, ids: seq<nat>)
    requires c.user in db.views && forall i :: 0 <= i < |ids| ==> ids[i] in db.messages
    ensures Members(ids) <= db.messages.Keys
    ensures Singles(db, c, p, ids) == AllAtOnce(db, c, p, Members(ids))
    decreases |ids|
  {
    if ids == [] {
      var none := AllAtOnce(db, c, p, {});
      assert none.messages == db.messages && none.views[c.user] == db.views[c.user];
      assert none.views == db.views;
    } else {
      assert Members(ids) == Members(ids[1..]) + {ids[0]} by { assert ids == [ids[0]] + ids[1..]; }
      SinglesAreTheBatch(Single(db, c, p, ids[0]), c, p, ids[1..]);
      OneMore(db, c, p, ids[0], Members(ids[1..]));
    }
  }

  lemma OrderIrrelevant(db: Db, c: Caller, p: Patch, ids: seq<nat>, ids': seq<nat>)
    requires c.user in db.views && forall i :: 0 <= i < |ids| ==> ids[i] in db.messages
    requires Members(ids) == Members(ids') && forall i :: 0 <= i < |ids'| ==> ids'[i] in db.messages
    ensures Singles(db, c, p, ids) == Singles(db, c, p, ids')
  {
    SinglesAreTheBatch(db, c, p, ids);
    SinglesAreTheBatch(db, c, p, ids');
  }

  /** What a patch makes of a view, field by field. */
  lemma PatchedFields(v: View, p: Patch)
    ensures var w := Patched(v, p);
      && w.folder == (if p.folder.Some? then p.folder.value else v.folder)
      && w.read == (if p.read.Some? then p.read.value else v.read)
      && w.starred == (if p.starred.Some? then p.starred.value else v.starred)
      && w.important == (if p.important.Some? then p.important.value else v.important)
      && w.archivedAt == (if p.archivedAt.Some? then p.archivedAt.value else v.archivedAt)
      && w.snoozedUntil == (if p.snoozedUntil.Some? then p.snoozedUntil.value else v.snoozedUntil)
      && w.deletedAt == (if p.deletedAt.Some? then p.deletedAt.value else v.deletedAt)
  {
  }

  /** What any sequence of changes leaves of the caller's view of a message, field by field: the value set; else the
      value the view had; else that of the message itself, unimportant and without dates. */
  lemma ChangedView(db: Db, c: Caller, p: Patch, ids: seq<nat>, id: nat)
    requires c.user in db.views && forall i :: 0 <= i < |ids| ==> ids[i] in db.messages
    requires id in ids
    ensures var own, after, m := db.views[c.user], Singles(db, c, p, ids), db.messages[id];
      var v := if id in own then own[id] else View(m.folder, m.read, m.starred, false, None, None, None);
      && id in after.views[c.user]
      && var w := after.views[c.user][id];
         && w.folder == (if p.folder.Some? then p.folder.value else v.folder)
         && w.read == (if p.read.Some? then p.read.value else v.read)
         && w.starred == (if p.starred.Some? then p.starred.value else v.starred)
         && w.important == (if p.important.Some? then p.important.value else v.important)
         && w.archivedAt == (if p.archivedAt.Some? then p.archivedAt.value else v.archivedAt)
         && w.snoozedUntil == (if p.snoozedUntil.Some? then p.snoozedUntil.value else v.snoozedUntil)
         && w.deletedAt == (if p.deletedAt.Some? then p.deletedAt.value else v.deletedAt)
  {
    SinglesAreTheBatch(db, c, p, ids);
    ViewAfter(db, c, p, Members(ids), id);
    var own := db.views[c.user];
    PatchedFields(if id in own then own[id] else Default(Trashed(c, p, id, db.messages[id])), p);
  }

  /** The change trashes a queued send, with a pending attempt, that the caller may write. */
  predicate Withdraws(m: Mail, c: Caller, p: Patch, id: nat) {
    p.folder == Some(Trash) && id in c.writable && m.outbound && m.status == Queued && m.attempt == Some(Pending)
  }

  /** And of everything else: such a send is an unscheduled draft again, its attempt withdrawn; no other message, no
      other view of the caller and no view of another user has changed. */
  lemma ChangedElsewhere(db: Db, c: Caller, p: Patch, ids: seq<nat>, id: nat)
    requires c.user in db.views && forall i :: 0 <= i < |ids| ==> ids[i] in db.messages
    requires id in db.messages
    ensures var after := Singles(db, c, p, ids); var m := db.messages[id];
      && id in after.messages && after.messages[id] ==
           (if id in ids && Withdraws(m, c, p, id)
            then Mail(true, EmailStatus.Draft, Drafts, m.read, m.starred, None, Some(Withdrawn)) else m)
      && (id !in ids ==> (id in after.views[c.user] <==> id in db.views[c.user]))
      && (id !in ids && id in db.views[c.user] ==> after.views[c.user][id] == db.views[c.user][id])
      && (forall u :: u in db.views && u != c.user ==> u in after.views && after.views[u] == db.views[u])
  {
    SinglesAreTheBatch(db, c, p, ids);
    ViewAfter(db, c, p, Members(ids), id);
    OthersViews(db, c, p, Members(ids));
  }

  /** The batch reads which rows exist before its transaction, so a row can be created in between. It then fails as a
      whole exactly if such a row belongs to the batch; otherwise it still does what single changes now would do, and
      keeps the fields that others have changed meanwhile. */
  lemma LateBatch(before: Db, now: Db, c: Caller, p: Patch, ids: set<nat>)
    requires ids <= before.messages.Keys && now.messages == AllTrashed(before.messages, c, p, ids)
    requires c.user in before.views && c.user in now.views
    requires before.views[c.user].Keys <= now.views[c.user].Keys
    ensures var own, seen := before.views[c.user], ids * before.views[c.user].Keys;
      var r := Batch(now, c.user, p, seen, ids - seen);
      && (r.None? <==> exists id :: id in ids && id in now.views[c.user] && id !in own)
      && (r.Some? ==> r.value == AllAtOnce(now, c, p, ids))
  {
    var seen := ids * before.views[c.user].Keys;
    var r := Batch(now, c.user, p, seen, ids - seen);
    if r.Some? {
      assert ids * now.views[c.user].Keys == seen;
      forall m | m in now.messages ensures AllTrashed(now.messages, c, p, ids)[m] == now.messages[m] {
        CancelledOnce(c, p, m, before.messages[m]);
      }
      assert AllTrashed(now.messages, c, p, ids) == now.messages;
    }
  }

  /** What the late batch leaves behind: nothing of its own if it fails; its cancellations were committed before. */
  function LateOutcome(now: Db, user: nat, p: Patch, seen: set<nat>, missing: set<nat>): Db
    requires missing <= now.messages.Keys && user in now.views
  {
    match Batch(now, user, p, seen, missing)
    case None => now
    case Some(db) => db
  }

  /** A batch that fails has withdrawn sends all the same, without moving a view: of its messages exactly the queued
      sends with a pending attempt, where it trashes and the caller may write. */
  lemma FailedBatchWithdraws(before: Db, now: Db, c: Caller, p: Patch, ids: set<nat>, id: nat)
    requires ids <= before.messages.Keys && now.messages == AllTrashed(before.messages, c, p, ids)
    requires c.user in before.views && c.user in now.views && id in before.messages
    requires exists k :: k in ids && k in now.views[c.user] && k !in before.views[c.user]
    ensures var seen := ids * before.views[c.user].Keys; var m := before.messages[id];
      var after := LateOutcome(now, c.user, p, seen, ids - seen);
      && after.views == now.views && id in after.messages
      && (after.messages[id] != m <==>
            && id in ids && p.folder == Some(Trash) && id in c.writable
            && m.outbound && m.status == Queued && m.attempt == Some(Pending))
  {
    var seen := ids * before.views[c.user].Keys;
    var k :| k in ids && k in now.views[c.user] && k !in before.views[c.user];
    assert k in ids - seen;
  }

  lemma SplitOneMore(messages: map<nat, Mail>, existing: map<nat, View>, p: Patch, ids: set<nat>, id: nat)
    requires ids + {id} <= messages.Keys
    ensures Created(messages, p, ids + {id} - existing.Keys) ==
      if id in existing then Created(messages, p, ids - existing.Keys)
      else Created(messages, p, ids - existing.Keys)[id := Patched(Default(messages[id]), p)]
    ensures Updated(existing, p, (ids + {id}) * existing.Keys) ==
      if id in existing then Updated(existing, p, ids * existing.Keys)[id := Patched(existing[id], p)]
      else Updated(existing, p, ids * existing.Keys)
  {
  }

  // ---- The two endpoints ----

  datatype Reply = Done | Invalid | NotFound

  class Messages {
    var messages: map<nat, Mail>
    var views: map<nat, map<nat, View>>

    constructor (messages: map<nat, Mail>, users: set<nat>)
      ensures State() == Db(messages, map u | u in users :: map[])
    {
      this.messages, views := messages, map u | u in users :: map[];
    }

    function State(): Db
      reads this
    {
      Db(messages, views)
    }

    method CancelScheduledSend(id: nat) returns (ok: bool)
      requires id in messages
      modifies this`messages
      ensures messages == old(messages)[id := Recalled(old(messages)[id])]
      ensures ok <==> messages[id] != old(messages)[id]
    {
      var m := messages[id];
      ok := m.outbound && m.status == Queued && m.attempt == Some(Pending);
      if ok {
        messages := messages[id := m.(status := Draft, folder := Drafts, scheduledAt := None,
                                      attempt := Some(Withdrawn))];
      }
      assert messages == old(messages)[id := Recalled(old(messages)[id])];
    }

    /** upsert: get or create the caller's row, set the given fields, save. */
    method Upsert(user: nat, id: nat, p: Patch)
      requires id in messages && user in views
      modifies this`views
      ensures State() == Upserted(old(State()), user, p, id)
    {
      var own := views[user];
      if id !in own {
        own := own[id := Default(messages[id])];
      }
      own := own[id := Patched(own[id], p)];
      assert own == Upserted(State(), user, p, id).views[user];
      views := views[user := own];
    }

    method PatchState(c: Caller, p: Patch, id: nat) returns (reply: Reply)
      requires c.visible <= messages.Keys && c.user in views
      modifies this
      ensures reply == if id in c.visible then Done else NotFound
      ensures State() == if reply.Done? then Single(old(State()), c, p, id) else old(State())
    {
      if id !in c.visible {
        return NotFound;
      }
      if p.folder == Some(Trash) && id in c.writable {
        var cancelled := CancelScheduledSend(id);
      }
      assert messages == CancelStep(old(State()), c, p, id).messages;
      Upsert(c.user, id, p);
      reply := Done;
    }

    /** The messages a list of ids names, each once, in the order the database likes. */
    method Listed(ids: seq<nat>, visible: set<nat>) returns (found: seq<nat>)
      ensures Members(found) == Members(ids) * visible
      ensures forall i, j :: 0 <= i < j < |found| ==> found[i] != found[j]
    {
      found := [];
      var left := Members(ids) * visible;
      while left != {}
        invariant Members(found) !! left && Members(found) + left == Members(ids) * visible
        invariant forall i, j :: 0 <= i < j < |found| ==> found[i] != found[j]
        decreases left
      {
        var id :| id in left;
        assert forall i :: 0 <= i < |found| ==> found[i] in Members(found);
        assert Members(found + [id]) == Members(found) + {id};
        found, left := found + [id], left - {id};
      }
    }

    method TrashAll(c: Caller, p: Patch, found: seq<nat>)
      requires Members(found) <= messages.Keys
      modifies this`messages
      ensures messages == AllTrashed(old(messages), c, p, Members(found))
    {
      if p.folder != Some(Trash) {
        return;
      }
      for i := 0 to |found|
        invariant messages == AllTrashed(old(messages), c, p, Members(found[..i]))
      {
        assert found[i] in Members(found);
        assert Members(found[..i + 1]) == Members(found[..i]) + {found[i]};
        if found[i] in c.writable {
          var cancelled := CancelScheduledSend(found[i]);
          CancelledOnce(c, p, found[i], old(messages)[found[i]]);
        }
      }
      assert found[..|found|] == found;
    }

    method BulkState(c: Caller, p: Patch, ids: seq<nat>) returns (reply: Reply)
      requires c.visible <= messages.Keys && c.user in views
      modifies this
      ensures reply == if ids == [] || p == NO_CHANGE then Invalid
                       else if Members(ids) <= c.visible then Done else NotFound
      ensures Members(ids) <= c.visible ==> forall i :: 0 <= i < |ids| ==> ids[i] in old(messages)
      ensures State() == if reply.Done? then Singles(old(State()), c, p, ids) else old(State())
    {
      assert forall i :: 0 <= i < |ids| ==> ids[i] in Members(ids);
      if ids == [] || p == NO_CHANGE {
        return Invalid;
      }
      var found := Listed(ids, c.visible);
      Counted(found, ids, c.visible);
      if |found| != |Members(ids)| {
        return NotFound;
      }
      TrashAll(c, p, found);
      var toCreate, toUpdate := Split(views[c.user], p, found);
      views := views[c.user := views[c.user] + toCreate + toUpdate];
      SinglesAreTheBatch(old(State()), c, p, ids);
      reply := Done;
    }

    /** The rows to insert and the rows to overwrite. */
    method Split(existing: map<nat, View>, p: Patch, found: seq<nat>)
      returns (toCreate: map<nat, View>, toUpdate: map<nat, View>)
      requires Members(found) <= messages.Keys
      ensures toCreate == Created(messages, p, Members(found) - Members(found) * existing.Keys)
      ensures toUpdate == Updated(existing, p, Members(found) * existing.Keys)
    {
      toCreate, toUpdate := map[], map[];
      for i := 0 to |found|
        invariant Members(found[..i]) <= messages.Keys
        invariant toCreate == Created(messages, p, Members(found[..i]) - existing.Keys)
        invariant toUpdate == Updated(existing, p, Members(found[..i]) * existing.Keys)
      {
        var id := found[i];
        assert id in Members(found);
        assert Members(found[..i + 1]) == Members(found[..i]) + {id};
        SplitOneMore(messages, existing, p, Members(found[..i]), id);
        if id in existing {
          toUpdate := toUpdate[id := Patched(existing[id], p)];
        } else {
          toCreate := toCreate[id := Patched(Default(messages[id]), p)];
        }
      }
      assert found[..|found|] == found;
      assert Members(found) - Members(found) * existing.Keys == Members(found) - existing.Keys;
    }
  }

  lemma {:induction false} Counts(found: seq<nat>)
    requires forall i, j :: 0 <= i < j < |found| ==> found[i] != found[j]
    ensures |Members(found)| == |found|
  {
    if found == [] {
    } else {
      assert found == [found[0]] + found[1..];
      assert Members(found) == {found[0]} + Members(found[1..]);
      Counts(found[1..]);
    }
  }

  lemma SmallerSubset(a: set<nat>, b: set<nat>)
    requires a <= b && |a| == |b|
    ensures a == b
  {
    assert b == a + (b - a);
    assert |b| == |a| + |b - a|;
  }

  /** As many messages found as distinct ids asked for: all of them are visible. */
  lemma Counted(found: seq<nat>, ids: seq<nat>, visible: set<nat>)
    requires Members(found) == Members(ids) * visible
    requires forall i, j :: 0 <= i < j < |found| ==> found[i] != found[j]
    ensures |found| == |Members(ids)| <==> Members(ids) <= visible
    ensures Members(ids) <= visible ==> Members(found) == Members(ids)
  {
    Counts(found);
    if |found| == |Members(ids)| { SmallerSubset(Members(found), Members(ids)); }
    if Members(ids) <= visible { assert Members(ids) * visible == Members(ids); }
  }
}

/** Stored attachment objects, the rows that reference them, and the delayed cleanup tasks between the two. */
module AttachmentGc {
  import opened Types

  /** A row inserted by a transaction that has not committed. */
  datatype Inserted = Inserted(tx: nat, file: Option<nat>)

  /** `rows` maps committed attachment rows to the object they reference (None while staged), `open` the inserted rows
      of open transactions; `attaching` holds what each send worker has uploaded and not yet saved to its staged row.
      `outbox` holds objects whose on-commit cleanup callback has not run, `cleanups` those with a queued cleanup task,
      `deleting` those whose task found no reference and has not deleted yet; `issued` is every name ever
      generated, `staged` every row that was created without an object. */
  datatype Gc = Gc(
    objects: set<nat>,
    rows: map<nat, Option<nat>>,
    open: map<nat, Inserted>,
    attaching: map<nat, nat>,
    outbox: set<nat>,
    cleanups: set<nat>,
    deleting: set<nat>,
    issued: set<nat>,
    staged: set<nat>)

  /** An ingest stores attachments and inserts a row for each; a forward of the same message, in the same transaction,
      inserts copies of those rows. `again` says that the same callback or task is due once more. */
  datatype Event =
    | Stage(row: nat)
    | Store(tx: nat, row: nat, key: nat)
    | Insert(tx: nat, row: nat)
    | Copy(tx: nat, source: nat, row: nat)
    | Commit(tx: nat)
    | Rollback(tx: nat)
    | Upload(w: nat, key: nat)
    | Attach(w: nat, row: nat)
    | Drop(w: nat)
    | DeleteRows(ids: set<nat>)
    | Enqueue(key: nat, again: bool)
    | Lose(key: nat, again: bool)
    | Check(key: nat, again: bool)
    | Delete(key: nat, deleted: bool, again: bool)

  predicate References(rows: map<nat, Option<nat>>, key: nat) {
    exists r :: r in rows && rows[r] == Some(key)
  }

  function Keys(rows: map<nat, Option<nat>>, ids: set<nat>): set<nat> {
    set r | r in ids && r in rows && rows[r].Some? :: rows[r].value
  }

  predicate Fresh(s: Gc, row: nat) {
    row !in s.rows && row !in s.open
  }

  function Mine(open: map<nat, Inserted>, tx: nat): map<nat, Option<nat>> {
    map r | r in open && open[r].tx == tx :: open[r].file
  }

  function Others(open: map<nat, Inserted>, tx: nat): map<nat, Inserted> {
    map r | r in open && open[r].tx != tx :: open[r]
  }

  function Without(attaching: map<nat, nat>, w: nat): map<nat, nat> {
    map v | v in attaching && v != w :: attaching[v]
  }

  /** The set after one callback or task for the key is gone. */
  function Less(keys: set<nat>, key: nat, again: bool): set<nat> {
    if again then keys else keys - {key}
  }

  function StepIngest(s: Gc, e: Event): Gc
    requires e.Store? || e.Insert? || e.Copy? || e.Commit? || e.Rollback?
  {
    match e
    case Store(tx, row, key) =>
      if key in s.issued || !Fresh(s, row) then s
      else s.(objects := s.objects + {key}, issued := s.issued + {key}, open := s.open[row := Inserted(tx, Some(key))])
    case Insert(tx, row) =>
      if Fresh(s, row) then s.(open := s.open[row := Inserted(tx, None)]) else s
    case Copy(tx, source, row) =>
      if source in s.open && s.open[source].tx == tx && Fresh(s, row)
      then s.(open := s.open[row := s.open[source]]) else s
    case Commit(tx) => s.(rows := s.rows + Mine(s.open, tx), open := Others(s.open, tx))
    case Rollback(tx) => s.(open := Others(s.open, tx))
  }

  /** A worker has found the row without an object when it loaded it; its save does not look again. */
  function StepSend(s: Gc, e: Event): Gc
    requires e.Stage? || e.Upload? || e.Attach? || e.Drop?
  {
    match e
    case Stage(row) => if Fresh(s, row) then s.(rows := s.rows[row := None], staged := s.staged + {row}) else s
    case Upload(w, key) =>
      if key in s.issued || w in s.attaching then s
      else s.(objects := s.objects + {key}, issued := s.issued + {key}, attaching := s.attaching[w := key])
    case Attach(w, row) =>
      if w in s.attaching && row in s.rows && row in s.staged
      then s.(rows := s.rows[row := Some(s.attaching[w])], attaching := Without(s.attaching, w)) else s
    case Drop(w) => s.(attaching := Without(s.attaching, w))
  }

  function StepCleanup(s: Gc, e: Event): Gc
    requires e.DeleteRows? || e.Enqueue? || e.Lose? || e.Check? || e.Delete?
  {
    match e
    case DeleteRows(ids) => s.(rows := s.rows - ids, outbox := s.outbox + Keys(s.rows, ids))
    case Enqueue(key, again) =>
      if key in s.outbox then s.(outbox := Less(s.outbox, key, again), cleanups := s.cleanups + {key}) else s
    case Lose(key, again) => s.(outbox := Less(s.outbox, key, again))
    case Check(key, again) =>
      if key !in s.cleanups then s
      else
        s.(cleanups := Less(s.cleanups, key, again),
           deleting := if References(s.rows, key) then s.deleting else s.deleting + {key})
    case Delete(key, deleted, again) =>
      if key !in s.deleting then s
      else s.(objects := if deleted then s.objects - {key} else s.objects, deleting := Less(s.deleting, key, again))
  }

  function Step(s: Gc, e: Event): Gc {
    match e
    case Store(_, _, _) => StepIngest(s, e)
    case Insert(_, _) => StepIngest(s, e)
    case Copy(_, _, _) => StepIngest(s, e)
    case Commit(_) => StepIngest(s, e)
    case Rollback(_) => StepIngest(s, e)
    case Stage(_) => StepSend(s, e)
    case Upload(_, _) => StepSend(s, e)
    case Attach(_, _) => StepSend(s, e)
    case Drop(_) => StepSend(s, e)
    case _ => StepCleanup(s, e)
  }

  function Run(s: Gc, es: seq<Event>): Gc
    decreases |es|
  {
    if es == [] then s else Run(Step(s, es[0]), es[1..])
  }

  const EMPTY := Gc({}, map[], map[], map[], {}, {}, {}, {}, {})

  // ---- The invariant of every run ----

  /** The object is only known to an open transaction or a worker that is about to attach it. */
  ghost predicate Held(s: Gc, key: nat) {
    || (exists r :: r in s.open && s.open[r].file == Some(key))
    || (exists w :: w in s.attaching && s.attaching[w] == key)
  }

  /** Stored, and nobody is about to delete it. */
  predicate Kept(s: Gc, key: nat) {
    key in s.objects && key !in s.deleting
  }

  /** Stored, and no committed row, callback or task knows of it. */
  predicate Unknown(s: Gc, key: nat) {
    Kept(s, key) && key !in s.outbox && key !in s.cleanups && !References(s.rows, key)
  }

  ghost predicate Named(s: Gc) {
    s.objects <= s.issued && s.outbox <= s.issued && s.cleanups <= s.issued && s.deleting <= s.issued
  }

  /** Committed references name objects that stay; what open transactions and workers have stored is theirs alone. */
  ghost predicate Safe(s: Gc) {
    && Named(s) && s.open.Keys !! s.rows.Keys
    && (forall r :: r in s.rows && s.rows[r].Some? ==> Kept(s, s.rows[r].value))
    && (forall k :: Held(s, k) ==> Unknown(s, k))
    && (forall q, r :: q in s.open && r in s.open && s.open[q].file.Some? && s.open[q].file == s.open[r].file ==>
          s.open[q].tx == s.open[r].tx)
    && (forall r, w :: r in s.open && w in s.attaching ==> s.open[r].file != Some(s.attaching[w]))
    && (forall v, w :: v in s.attaching && w in s.attaching && s.attaching[v] == s.attaching[w] ==> v == w)
  }

  lemma SafeStore(s: Gc, tx: nat, row: nat, key: nat)
    requires Safe(s)
    ensures Safe(Step(s, Store(tx, row, key)))
  {
    var t := Step(s, Store(tx, row, key));
    if t != s {
      NotIssued(s, key);
      forall k | Held(t, k) ensures Unknown(t, k) {
        if k != key { assert Held(s, k); }
      }
    }
  }

  /** A name that was never generated occurs nowhere. */
  lemma NotIssued(s: Gc, key: nat)
    requires Safe(s) && key !in s.issued
    ensures !Held(s, key) && !References(s.rows, key)
  {
    assert Held(s, key) ==> Unknown(s, key);
    assert forall r :: r in s.rows && s.rows[r] == Some(key) ==> Kept(s, key);
  }

  lemma SafeInsert(s: Gc, e: Event)
    requires Safe(s) && (e.Insert? || e.Copy?)
    ensures Safe(Step(s, e))
  {
    var t := Step(s, e);
    forall k | Held(t, k) ensures Unknown(t, k) { assert Held(s, k); }
  }

  lemma HeldByOthers(s: Gc, tx: nat, k: nat)
    requires Held(s.(open := Others(s.open, tx)), k)
    ensures Held(s, k)
  {
  }

  lemma CommittedKept(s: Gc, tx: nat, r: nat)
    requires Safe(s) && r in Step(s, Commit(tx)).rows && Step(s, Commit(tx)).rows[r].Some?
    ensures Kept(s, Step(s, Commit(tx)).rows[r].value)
  {
    if r in s.open && s.open[r].tx == tx { assert Held(s, s.open[r].file.value); }
  }

  lemma CommittedUnknown(s: Gc, tx: nat, k: nat)
    requires Safe(s) && Held(Step(s, Commit(tx)), k)
    ensures Unknown(Step(s, Commit(tx)), k)
  {
    HeldByOthers(s, tx, k);
    assert forall r :: r in Mine(s.open, tx) ==> r in s.open && s.open[r].file == Mine(s.open, tx)[r];
  }

  lemma SafeCommit(s: Gc, tx: nat)
    requires Safe(s)
    ensures Safe(Step(s, Commit(tx)))
  {
    var t := Step(s, Commit(tx));
    forall r | r in t.rows && t.rows[r].Some? ensures Kept(t, t.rows[r].value) { CommittedKept(s, tx, r); }
    forall k | Held(t, k) ensures Unknown(t, k) { CommittedUnknown(s, tx, k); }
  }

  lemma SafeRollback(s: Gc, tx: nat)
    requires Safe(s)
    ensures Safe(Step(s, Rollback(tx)))
  {
    forall k | Held(Step(s, Rollback(tx)), k) ensures Unknown(Step(s, Rollback(tx)), k) { HeldByOthers(s, tx, k); }
  }

  lemma SafeUpload(s: Gc, w: nat, key: nat)
    requires Safe(s)
    ensures Safe(Step(s, Upload(w, key)))
  {
    var t := Step(s, Upload(w, key));
    if t != s {
      NotIssued(s, key);
      forall k | Held(t, k) ensures Unknown(t, k) {
        if k != key { assert Held(s, k); }
      }
    }
  }

  lemma SafeAttach(s: Gc, w: nat, row: nat)
    requires Safe(s)
    ensures Safe(Step(s, Attach(w, row)))
  {
    var t := Step(s, Attach(w, row));
    if t != s {
      assert Held(s, s.attaching[w]);
      forall k | Held(t, k) ensures Unknown(t, k) { assert Held(s, k); }
    }
  }

  lemma SafeSend(s: Gc, e: Event)
    requires Safe(s) && (e.Stage? || e.Drop?)
    ensures Safe(Step(s, e))
  {
    var t := Step(s, e);
    forall k | Held(t, k) ensures Unknown(t, k) { assert Held(s, k); }
  }

  lemma SafeDeleteRows(s: Gc, ids: set<nat>)
    requires Safe(s)
    ensures Safe(Step(s, DeleteRows(ids)))
  {
    var t := Step(s, DeleteRows(ids));
    forall k | k in Keys(s.rows, ids) ensures References(s.rows, k) && k in s.issued {
      var r :| r in ids && r in s.rows && s.rows[r] == Some(k);
      assert Kept(s, s.rows[r].value);
    }
    forall k | Held(t, k) ensures Unknown(t, k) {
      assert Held(s, k) && Unknown(s, k);
    }
  }

  lemma SafeTasks(s: Gc, e: Event)
    requires Safe(s) && (e.Enqueue? || e.Lose? || e.Check?)
    ensures Safe(Step(s, e))
  {
    var t := Step(s, e);
    forall k | Held(t, k) ensures Unknown(t, k) {
      assert Held(s, k) && Unknown(s, k);
    }
  }

  lemma SafeDelete(s: Gc, key: nat, deleted: bool, again: bool)
    requires Safe(s)
    ensures Safe(Step(s, Delete(key, deleted, again)))
  {
    var t := Step(s, Delete(key, deleted, again));
    forall k | Held(t, k) ensures Unknown(t, k) {
      assert Held(s, k) && Unknown(s, k);
    }
  }

  lemma SafeStep(s: Gc, e: Event)
    requires Safe(s)
    ensures Safe(Step(s, e))
  {
    match e
    case Store(tx, row, key) => SafeStore(s, tx, row, key);
    case Insert(_, _) => SafeInsert(s, e);
    case Copy(_, _, _) => SafeInsert(s, e);
    case Commit(tx) => SafeCommit(s, tx);
    case Rollback(tx) => SafeRollback(s, tx);
    case Upload(w, key) => SafeUpload(s, w, key);
    case Attach(w, row) => SafeAttach(s, w, row);
    case Stage(_) => SafeSend(s, e);
    case Drop(_) => SafeSend(s, e);
    case DeleteRows(ids) => SafeDeleteRows(s, ids);
    case Delete(key, deleted, again) => SafeDelete(s, key, deleted, again);
    case _ => SafeTasks(s, e);
  }

  lemma {:induction false} SafeRun(s: Gc, es: seq<Event>)
    requires Safe(s)
    ensures Safe(Run(s, es))
    decreases |es|
  {
    if es == [] {
    } else {
      SafeStep(s, es[0]);
      SafeRun(Step(s, es[0]), es[1..]);
    }
  }

  /** Over every run, rollbacks, lost callbacks and failed deletes included: a cleanup deletes only an object no
      committed row references, and every committed reference finds its object. */
  lemma NeverDeletesReferenced(es: seq<Event>, key: nat, row: nat)
    ensures var s := Run(EMPTY, es);
      && (key in s.deleting ==> !References(s.rows, key))
      && (row in s.rows && s.rows[row].Some? ==> s.rows[row].value in s.objects)
  {
    SafeRun(EMPTY, es);
  }

  // ---- References only come with the upload ----

  /** An object that no row references and that nobody has just stored. */
  ghost predicate Abandoned(s: Gc, key: nat) {
    key in s.issued && !References(s.rows, key) && !Held(s, key)
  }

  /** A copy references what its transaction has stored itself, so no step references an abandoned object. */
  lemma AbandonedIngest(s: Gc, e: Event, key: nat)
    requires Abandoned(s, key) && (e.Store? || e.Insert? || e.Copy? || e.Commit? || e.Rollback?)
    ensures Abandoned(Step(s, e), key)
  {
    assert forall r :: r in s.open ==> s.open[r].file != Some(key);
  }

  lemma AbandonedSend(s: Gc, e: Event, key: nat)
    requires Abandoned(s, key) && (e.Stage? || e.Upload? || e.Attach? || e.Drop?)
    ensures Abandoned(Step(s, e), key)
  {
  }

  lemma AbandonedCleanup(s: Gc, e: Event, key: nat)
    requires Abandoned(s, key) && (e.DeleteRows? || e.Enqueue? || e.Lose? || e.Check? || e.Delete?)
    ensures Abandoned(Step(s, e), key)
  {
  }

  lemma AbandonedStep(s: Gc, e: Event, key: nat)
    requires Abandoned(s, key)
    ensures Abandoned(Step(s, e), key)
  {
    match e
    case Store(_, _, _) => AbandonedIngest(s, e, key);
    case Insert(_, _) => AbandonedIngest(s, e, key);
    case Copy(_, _, _) => AbandonedIngest(s, e, key);
    case Commit(_) => AbandonedIngest(s, e, key);
    case Rollback(_) => AbandonedIngest(s, e, key);
    case Stage(_) => AbandonedSend(s, e, key);
    case Upload(_, _) => AbandonedSend(s, e, key);
    case Attach(_, _) => AbandonedSend(s, e, key);
    case Drop(_) => AbandonedSend(s, e, key);
    case _ => AbandonedCleanup(s, e, key);
  }

  /** Once nothing references an object, no run brings a reference back: an ingest inserts rows for what it stores and
      copies of those, a worker attaches what it has stored. */
  lemma {:induction false} ReferencesNeverReturn(s: Gc, es: seq<Event>, key: nat)
    requires Abandoned(s, key)
    ensures Abandoned(Run(s, es), key)
    decreases |es|
  {
    if es == [] {
    } else {
      AbandonedStep(s, es[0], key);
      ReferencesNeverReturn(Step(s, es[0]), es[1..], key);
    }
  }

  // ---- Nothing is forgotten ----

  predicate Due(s: Gc, key: nat) {
    key in s.outbox || key in s.cleanups || key in s.deleting
  }

  ghost predicate Accounted(s: Gc, key: nat) {
    References(s.rows, key) || Due(s, key) || Held(s, key)
  }

  ghost predicate NoGarbage(s: Gc) {
    forall k :: k in s.objects ==> Accounted(s, k)
  }

  /** The last callback or task for an unreferenced object goes without deleting it. */
  ghost predicate LetsGo(s: Gc, e: Event) {
    || (e.Lose? && !e.again && e.key in s.outbox && e.key in s.objects
        && e.key !in s.cleanups && e.key !in s.deleting && !References(s.rows, e.key))
    || (e.Delete? && !e.again && !e.deleted && e.key in s.deleting && e.key in s.objects
        && e.key !in s.outbox && e.key !in s.cleanups)
  }

  /** A worker's save takes the last reference of the object that another has attached to the row meanwhile. */
  ghost predicate Displaces(s: Gc, e: Event) {
    && e.Attach? && e.w in s.attaching && e.row in s.rows && e.row in s.staged && s.rows[e.row].Some?
    && !Due(s, s.rows[e.row].value)
    && forall r :: r in s.rows && r != e.row ==> s.rows[r] != s.rows[e.row]
  }

  /** A transaction rolls back after an upload, a worker ends between upload and save or saves over another's object, a
      callback is lost between commit and enqueue, or a delete fails, with nothing else due for the object. */
  ghost predicate Forgets(s: Gc, e: Event) {
    || (e.Rollback? && exists r :: r in s.open && s.open[r].tx == e.tx && s.open[r].file.Some?)
    || (e.Drop? && e.w in s.attaching)
    || Displaces(s, e)
    || LetsGo(s, e)
  }

  lemma AccountedIngest(s: Gc, e: Event, key: nat)
    requires Safe(s) && Accounted(s, key) && !Forgets(s, e)
    requires e.Store? || e.Insert? || e.Copy? || e.Commit? || e.Rollback?
    ensures Accounted(Step(s, e), key)
  {
    var t := Step(s, e);
    if r :| r in s.rows && s.rows[r] == Some(key) {
      assert t.rows[r] == Some(key);
    } else if r :| r in s.open && s.open[r].file == Some(key) {
      if r in t.open { assert t.open[r].file == Some(key); } else { assert t.rows[r] == Some(key); }
    } else if w :| w in s.attaching && s.attaching[w] == key {
      assert w in t.attaching && t.attaching[w] == key;
    }
  }

  lemma AccountedSend(s: Gc, e: Event, key: nat)
    requires Safe(s) && Accounted(s, key) && !Forgets(s, e)
    requires e.Stage? || e.Upload? || e.Drop?
    ensures Accounted(Step(s, e), key)
  {
    var t := Step(s, e);
    if r :| r in s.rows && s.rows[r] == Some(key) {
      assert t.rows[r] == Some(key);
    } else if r :| r in s.open && s.open[r].file == Some(key) {
      assert t.open[r].file == Some(key);
    } else if w :| w in s.attaching && s.attaching[w] == key {
      assert t.attaching[w] == key;
    }
  }

  lemma AccountedAttach(s: Gc, w: nat, row: nat, key: nat)
    requires Safe(s) && Accounted(s, key) && !Forgets(s, Attach(w, row))
    ensures Accounted(Step(s, Attach(w, row)), key)
  {
    var t := Step(s, Attach(w, row));
    if r :| r in s.rows && s.rows[r] == Some(key) && (t == s || r != row) {
      assert t.rows[r] == Some(key);
    } else if r :| r in s.open && s.open[r].file == Some(key) {
      assert t.open[r].file == Some(key);
    } else if v :| v in s.attaching && s.attaching[v] == key {
      if v in t.attaching { assert t.attaching[v] == key; } else { assert t.rows[row] == Some(key); }
    }
  }

  lemma AccountedCleanup(s: Gc, e: Event, key: nat)
    requires Safe(s) && key in s.objects && Accounted(s, key) && !Forgets(s, e)
    requires e.DeleteRows? || e.Enqueue? || e.Lose? || e.Check? || e.Delete?
    ensures key in Step(s, e).objects ==> Accounted(Step(s, e), key)
  {
    var t := Step(s, e);
    if r :| r in s.rows && s.rows[r] == Some(key) {
      if r in t.rows { assert t.rows[r] == Some(key); } else { assert key in Keys(s.rows, e.ids); }
    } else if Held(s, key) {
      assert Held(t, key);
    }
  }

  lemma AccountedKept(s: Gc, e: Event, key: nat)
    requires Safe(s) && key in s.objects && Accounted(s, key) && !Forgets(s, e)
    ensures key in Step(s, e).objects ==> Accounted(Step(s, e), key)
  {
    match e
    case Store(_, _, _) => AccountedIngest(s, e, key);
    case Insert(_, _) => AccountedIngest(s, e, key);
    case Copy(_, _, _) => AccountedIngest(s, e, key);
    case Commit(_) => AccountedIngest(s, e, key);
    case Rollback(_) => AccountedIngest(s, e, key);
    case Stage(_) => AccountedSend(s, e, key);
    case Upload(_, _) => AccountedSend(s, e, key);
    case Attach(w, row) => AccountedAttach(s, w, row, key);
    case Drop(_) => AccountedSend(s, e, key);
    case _ => AccountedCleanup(s, e, key);
  }

  lemma ForgottenRollback(s: Gc, tx: nat)
    requires Safe(s) && Forgets(s, Rollback(tx))
    ensures !NoGarbage(Step(s, Rollback(tx)))
  {
    var t := Step(s, Rollback(tx));
    var r :| r in s.open && s.open[r].tx == tx && s.open[r].file.Some?;
    var k := s.open[r].file.value;
    assert Held(s, k) && Unknown(s, k);
    assert forall q :: q in t.open ==> q in s.open && s.open[q].tx != tx;
    assert k in t.objects && !Accounted(t, k);
  }

  lemma ForgottenDrop(s: Gc, w: nat)
    requires Safe(s) && w in s.attaching
    ensures !NoGarbage(Step(s, Drop(w)))
  {
    var t, k := Step(s, Drop(w)), s.attaching[w];
    assert Held(s, k) && Unknown(s, k);
    assert k in t.objects && !Accounted(t, k);
  }

  lemma ForgottenAttach(s: Gc, e: Event)
    requires Safe(s) && Displaces(s, e)
    ensures !NoGarbage(Step(s, e))
  {
    var t, k := Step(s, e), s.rows[e.row].value;
    assert References(s.rows, k) && Kept(s, k);
    assert Held(s, s.attaching[e.w]) && Unknown(s, s.attaching[e.w]);
    assert Held(s, k) ==> Unknown(s, k);
    assert forall r :: r in t.rows && r != e.row ==> t.rows[r] == s.rows[r];
    assert k in t.objects && !Accounted(t, k);
  }

  lemma ForgottenTask(s: Gc, e: Event)
    requires Safe(s) && LetsGo(s, e)
    ensures !NoGarbage(Step(s, e))
  {
    var t := Step(s, e);
    assert Held(s, e.key) ==> Unknown(s, e.key);
    assert !References(s.rows, e.key);
    assert e.key in t.objects && !Accounted(t, e.key);
  }

  /** Exactly which steps leave an object that nothing will ever clean up. */
  lemma NoGarbageIff(s: Gc, e: Event)
    requires Safe(s) && NoGarbage(s)
    ensures NoGarbage(Step(s, e)) <==> !Forgets(s, e)
  {
    var t := Step(s, e);
    if Forgets(s, e) {
      if e.Rollback? {
        ForgottenRollback(s, e.tx);
      } else if e.Drop? {
        ForgottenDrop(s, e.w);
      } else if e.Attach? {
        ForgottenAttach(s, e);
      } else {
        ForgottenTask(s, e);
      }
    } else {
      forall k | k in t.objects ensures Accounted(t, k) {
        if k in s.objects { AccountedKept(s, e, k); } else { NewlyStored(s, e, k); }
      }
    }
  }

  lemma NewlyStored(s: Gc, e: Event, k: nat)
    requires k !in s.objects && k in Step(s, e).objects
    ensures Held(Step(s, e), k)
  {
    var t := Step(s, e);
    if e.Store? { assert t.open[e.row].file == Some(k); } else { assert t.attaching[e.w] == k; }
  }

  lemma RunTwo(s: Gc, e: Event, f: Event)
    ensures Run(s, [e, f]) == Step(Step(s, e), f)
  {
    assert [e, f][1..] == [f] && [f][1..] == [];
    assert Run(Step(s, e), [f]) == Run(Step(Step(s, e), f), []);
  }

  lemma {:induction false} RunAppend(s: Gc, es: seq<Event>, fs: seq<Event>)
    ensures Run(s, es + fs) == Run(Run(s, es), fs)
    decreases |es|
  {
    if es == [] {
      assert es + fs == fs;
    } else {
      assert (es + fs)[1..] == es[1..] + fs;
      RunAppend(Step(s, es[0]), es[1..], fs);
    }
  }

  lemma RunThree(s: Gc, e: Event, f: Event, g: Event)
    ensures Run(s, [e, f, g]) == Step(Step(Step(s, e), f), g)
  {
    assert [e, f, g][1..] == [f, g];
    RunTwo(Step(s, e), f, g);
  }

  lemma StoresAndCopies(s: Gc, tx: nat, row: nat, copy: nat, key: nat)
    requires s.open == map[] && row != copy && row !in s.rows && copy !in s.rows && key !in s.issued
    ensures var t := Step(Step(s, Store(tx, row, key)), Copy(tx, row, copy));
      t.open == map[row := Inserted(tx, Some(key)), copy := Inserted(tx, Some(key))]
      && t.rows == s.rows && t.objects == s.objects + {key}
  {
  }

  lemma CommitsBoth(s: Gc, tx: nat, row: nat, copy: nat, file: Option<nat>)
    requires s.open == map[row := Inserted(tx, file), copy := Inserted(tx, file)] && row != copy
    ensures var t := Step(s, Commit(tx));
      t.rows == s.rows + map[row := file, copy := file] && t.objects == s.objects && t.open == map[]
  {
    assert Mine(s.open, tx) == map[row := file, copy := file] && Others(s.open, tx) == map[];
  }

  /** An ingest that stores an attachment and forwards the message commits both rows with the one object. */
  lemma ForwardSharesTheObject(s: Gc, tx: nat, row: nat, copy: nat, key: nat)
    requires s.open == map[] && row != copy && row !in s.rows && copy !in s.rows && key !in s.issued
    ensures var t := Run(s, [Store(tx, row, key), Copy(tx, row, copy), Commit(tx)]);
      t.rows == s.rows + map[row := Some(key), copy := Some(key)] && t.objects == s.objects + {key} && t.open == map[]
  {
    RunThree(s, Store(tx, row, key), Copy(tx, row, copy), Commit(tx));
    StoresAndCopies(s, tx, row, copy, key);
    CommitsBoth(Step(Step(s, Store(tx, row, key)), Copy(tx, row, copy)), tx, row, copy, Some(key));
  }

  /** A deleted row takes its object with it, once callback and task have run, exactly if no other row references it. */
  lemma LastReferenceTakesTheObject(s: Gc, row: nat, key: nat)
    requires row in s.rows && s.rows[row] == Some(key) && !Due(s, key)
    ensures var t := Run(s, [DeleteRows({row}), Enqueue(key, false), Check(key, false)]);
      && t.rows == s.rows - {row} && t.objects == s.objects
      && Step(t, Delete(key, true, false)).objects ==
           if exists r :: r in s.rows && r != row && s.rows[r] == Some(key) then s.objects else s.objects - {key}
  {
    RunThree(s, DeleteRows({row}), Enqueue(key, false), Check(key, false));
    var deleted := Step(s, DeleteRows({row}));
    assert Keys(s.rows, {row}) == {key};
    if r :| r in s.rows && r != row && s.rows[r] == Some(key) { assert r in deleted.rows; }
  }

  const TWO_WORKERS := [Upload(1, 10), Upload(2, 20)] + [Attach(1, 0), Attach(2, 0)]

  lemma BothUpload() returns (s: Gc)
    ensures s == Run(Step(EMPTY, Stage(0)), [Upload(1, 10), Upload(2, 20)])
    ensures s == Gc({10, 20}, map[0 := None], map[], map[1 := 10, 2 := 20], {}, {}, {}, {10, 20}, {0})
  {
    var t := Step(EMPTY, Stage(0));
    RunTwo(t, Upload(1, 10), Upload(2, 20));
    s := Run(t, [Upload(1, 10), Upload(2, 20)]);
    assert t == Gc({}, map[0 := None], map[], map[], {}, {}, {}, {}, {0});
  }

  lemma BothAttach(s: Gc)
    requires s == Gc({10, 20}, map[0 := None], map[], map[1 := 10, 2 := 20], {}, {}, {}, {10, 20}, {0})
    ensures Run(s, [Attach(1, 0), Attach(2, 0)]) == s.(rows := map[0 := Some(20)], attaching := map[])
  {
    RunTwo(s, Attach(1, 0), Attach(2, 0));
    assert Step(s, Attach(1, 0)) == s.(rows := map[0 := Some(10)], attaching := map[2 := 20]);
  }

  /** Two workers of one attempt both find a staged row, upload, and save: the first object stays in storage, referenced
      by nothing, with nothing under way that could remove it. */
  lemma TwoWorkersLoseAnObject()
    ensures Run(Step(EMPTY, Stage(0)), TWO_WORKERS)
      == Gc({10, 20}, map[0 := Some(20)], map[], map[], {}, {}, {}, {10, 20}, {0})
    ensures !References(map[0 := Some(20)], 10)
  {
    var s := BothUpload();
    RunAppend(Step(EMPTY, Stage(0)), [Upload(1, 10), Upload(2, 20)], [Attach(1, 0), Attach(2, 0)]);
    BothAttach(s);
  }

  ghost predicate NothingForgotten(s: Gc, es: seq<Event>)
    decreases |es|
  {
    es == [] || (!Forgets(s, es[0]) && NothingForgotten(Step(s, es[0]), es[1..]))
  }

  lemma {:induction false} NoGarbageRun(s: Gc, es: seq<Event>)
    requires Safe(s) && NoGarbage(s) && NothingForgotten(s, es)
    ensures Safe(Run(s, es)) && NoGarbage(Run(s, es))
    decreases |es|
  {
    if es == [] {
    } else {
      SafeStep(s, es[0]);
      NoGarbageIff(s, es[0]);
      NoGarbageRun(Step(s, es[0]), es[1..]);
    }
  }

  /** Barring such losses: once no transaction is open and no callback, task or worker is under way, the stored objects
      are exactly the referenced ones. */
  lemma QuiescentMeansClean(es: seq<Event>, key: nat)
    requires NothingForgotten(EMPTY, es)
    requires var s := Run(EMPTY, es);
      s.open == map[] && s.attaching == map[] && s.outbox == {} && s.cleanups == {} && s.deleting == {}
    ensures var s := Run(EMPTY, es); key in s.objects <==> References(s.rows, key)
  {
    NoGarbageRun(EMPTY, es);
    var s := Run(EMPTY, es);
    if key in s.objects { assert Accounted(s, key); }
  }

  // ---- The handler and the task ----

  datatype Outcome = MissingUrl | StillReferenced | DeleteFailed | Deleted

  class Attachments {
    var rows: map<nat, Option<nat>>
    var objects: set<nat>
    var queue: multiset<Option<nat>>

    constructor ()
      ensures rows == map[] && objects == {} && queue == multiset{}
    {
      rows, objects, queue := map[], {}, multiset{};
    }

    /** Deleting a row enqueues the cleanup of its object, if it had one. */
    method DeleteRow(row: nat)
      requires row in rows
      modifies this`rows, this`queue
      ensures rows == old(rows) - {row}
      ensures queue == old(queue) + if old(rows)[row].Some? then multiset{old(rows)[row]} else multiset{}
    {
      var file := rows[row];
      rows := map r | r in rows && r != row :: rows[r];
      if file.None? {
        return;
      }
      queue := queue + multiset{file};
    }

    /** One cleanup task, alone: the object goes exactly if it has no reference left and storage agrees. */
    method DeleteUnreferenced(file: Option<nat>, storageAgrees: bool) returns (outcome: Outcome)
      modifies this`objects
      ensures outcome == MissingUrl <==> file.None?
      ensures outcome == StillReferenced <==> file.Some? && References(rows, file.value)
      ensures outcome == Deleted <==> file.Some? && !References(rows, file.value) && storageAgrees
      ensures objects == if outcome == Deleted then old(objects) - {file.value} else old(objects)
    {
      if file.None? {
        return MissingUrl;
      }
      var left := rows.Keys;
      while left != {}
        invariant left <= rows.Keys
        invariant forall r :: r in rows && r !in left ==> rows[r] != file
        decreases left
      {
        var r :| r in left;
        if rows[r] == file {
          return StillReferenced;
        }
        left := left - {r};
      }
      if !storageAgrees {
        return DeleteFailed;
      }
      objects := objects - {file.value};
      outcome := Deleted;
    }
  }
}

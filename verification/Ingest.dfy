/** Concurrent inbound ingestion: deduplication, quota, and the mailbox usage counter. */
module Ingest {
  import opened Types

  /** An attachment's declared size and the size of its decoded content, 0 if missing or not valid base64. */
  datatype Part = Part(declared: nat, actual: nat)

  /** A normalized inbound message; `size` is the provider's MessageSize or the estimate standing in for it. */
  datatype Mail = Mail(box: nat, provider: nat, providerId: string, rfcId: Option<string>, size: nat, parts: seq<Part>)

  /** A message row; deleted rows stay in place with `live` false. */
  datatype Row = Row(
    box: nat, provider: nat, providerId: string, rfcId: Option<string>, inbound: bool, size: nat, live: bool)

  /** quota 0 means unlimited. */
  datatype Box = Box(quota: nat, used: nat)

  datatype Store = Store(rows: seq<Row>, boxes: seq<Box>)

  // ---- Sizes ----

  function PartSize(p: Part): nat {
    if p.actual > 0 then p.actual else p.declared
  }

  function PartExcess(p: Part): nat {
    if p.actual > p.declared then p.actual - p.declared else 0
  }

  function DeclaredTotal(parts: seq<Part>): nat {
    if parts == [] then 0 else DeclaredTotal(parts[..|parts| - 1]) + parts[|parts| - 1].declared
  }

  function StoredTotal(parts: seq<Part>): nat {
    if parts == [] then 0 else StoredTotal(parts[..|parts| - 1]) + PartSize(parts[|parts| - 1])
  }

  function ExcessTotal(parts: seq<Part>): nat {
    if parts == [] then 0 else ExcessTotal(parts[..|parts| - 1]) + PartExcess(parts[|parts| - 1])
  }

  function Incoming(m: Mail): nat {
    m.size + DeclaredTotal(m.parts)
  }

  function Stored(m: Mail): nat {
    m.size + StoredTotal(m.parts)
  }

  lemma {:induction false} StoredWithinDeclared(parts: seq<Part>)
    ensures StoredTotal(parts) <= DeclaredTotal(parts) + ExcessTotal(parts)
  {
    if parts == [] {
    } else {
      StoredWithinDeclared(parts[..|parts| - 1]);
    }
  }

  // ---- One transaction ----

  function RowOf(m: Mail): Row {
    Row(m.box, m.provider, m.providerId, m.rfcId, true, Stored(m), true)
  }

  predicate SameProviderId(r: Row, provider: nat, providerId: string) {
    r.live && providerId != "" && r.provider == provider && r.providerId == providerId
  }

  predicate SameRfcId(r: Row, box: nat, rfcId: Option<string>) {
    r.live && rfcId.Some? && r.box == box && r.rfcId == rfcId
  }

  /** The dedup read made before the mailbox lock: by provider id, else by a nonempty Message-ID. */
  predicate Known(s: Store, m: Mail) {
    exists i :: 0 <= i < |s.rows| && s.rows[i].inbound &&
      if m.providerId != "" then SameProviderId(s.rows[i], m.provider, m.providerId)
      else m.rfcId != Some("") && SameRfcId(s.rows[i], m.box, m.rfcId)
  }

  /** The two unique constraints on messages. */
  predicate Conflicts(rows: seq<Row>, r: Row) {
    exists i :: 0 <= i < |rows|
      && (SameProviderId(rows[i], r.provider, r.providerId) || SameRfcId(rows[i], r.box, r.rfcId))
  }

  predicate OverQuota(s: Store, m: Mail)
    requires m.box < |s.boxes|
  {
    s.boxes[m.box].quota > 0 && s.boxes[m.box].used + Incoming(m) > s.boxes[m.box].quota
  }

  predicate Admits(s: Store, m: Mail) {
    m.box < |s.boxes| && !OverQuota(s, m) && !Conflicts(s.rows, RowOf(m))
  }

  function Charged(s: Store, box: nat, used: nat): Store
    requires box < |s.boxes|
  {
    s.(boxes := s.boxes[box := s.boxes[box].(used := used)])
  }

  /** The locked transaction: over quota or a unique-constraint conflict rolls everything back. */
  function Committed(s: Store, m: Mail): Store {
    if !Admits(s, m) then s
    else Charged(s, m.box, s.boxes[m.box].used + Stored(m)).(rows := s.rows + [RowOf(m)])
  }

  function Monus(a: nat, b: nat): nat {
    if a >= b then a - b else 0
  }

  function Deleted(s: Store, i: nat): Store {
    if !(i < |s.rows| && s.rows[i].live && s.rows[i].box < |s.boxes|) then s
    else
      var r := s.rows[i];
      Charged(s, r.box, Monus(s.boxes[r.box].used, r.size)).(rows := s.rows[i := r.(live := false)])
  }

  /** An outbound message's own size never reaches used_bytes until it is deleted. */
  function Outbound(s: Store, r: Row): Store {
    if r.inbound || !r.live || Conflicts(s.rows, r) then s else s.(rows := s.rows + [r])
  }

  /** A draft edit or a materialized attachment rewrites an outbound row's size in place. */
  function Resized(s: Store, i: nat, size: nat): Store {
    if i < |s.rows| && s.rows[i].live && !s.rows[i].inbound
    then s.(rows := s.rows[i := s.rows[i].(size := size)]) else s
  }

  predicate Clash(r: Row, q: Row) {
    SameProviderId(r, q.provider, q.providerId) || SameRfcId(r, q.box, q.rfcId)
  }

  /** A send saves the provider's id, a promotion a Message-ID, on an outbound row; a constraint may refuse it. */
  function Named(s: Store, i: nat, providerId: string, rfcId: Option<string>): Store {
    if !(i < |s.rows| && s.rows[i].live && !s.rows[i].inbound) then s
    else
      var row := s.rows[i].(providerId := providerId, rfcId := rfcId);
      if exists k :: 0 <= k < |s.rows| && k != i && Clash(s.rows[k], row) then s else s.(rows := s.rows[i := row])
  }

  function RowBytes(r: Row, box: nat): nat {
    if r.live && r.box == box then r.size else 0
  }

  /** The sum reconcile_mailbox_used_bytes_task computes for one mailbox. */
  function BoxBytes(rows: seq<Row>, box: nat): nat {
    if rows == [] then 0 else BoxBytes(rows[..|rows| - 1], box) + RowBytes(rows[|rows| - 1], box)
  }

  function Reconciled(s: Store): Store {
    s.(boxes := seq(|s.boxes|, b requires 0 <= b < |s.boxes| => s.boxes[b].(used := BoxBytes(s.rows, b))))
  }

  lemma BytesAppend(rows: seq<Row>, r: Row, box: nat)
    ensures BoxBytes(rows + [r], box) == BoxBytes(rows, box) + RowBytes(r, box)
  {
    assert (rows + [r])[..|rows|] == rows;
  }

  lemma {:induction false} BytesPut(rows: seq<Row>, i: nat, r: Row, box: nat)
    requires i < |rows|
    ensures BoxBytes(rows[i := r], box) + RowBytes(rows[i], box) == BoxBytes(rows, box) + RowBytes(r, box)
  {
    var n := |rows| - 1;
    if i < n {
      BytesPut(rows[..n], i, r, box);
      assert rows[i := r][..n] == rows[..n][i := r];
    } else {
      assert rows[i := r][..n] == rows[..n];
    }
  }

  // ---- Every interleaving ----

  /** A worker between its dedup read and its transaction holds the mail it is ingesting. */
  datatype Sys = Sys(store: Store, pending: seq<Option<Mail>>)

  datatype Event =
    | Begin(w: nat, mail: Mail)
    | Commit(w: nat)
    | Delete(i: nat)
    | Compose(row: Row)
    | Resize(i: nat, size: nat)
    | Name(i: nat, providerId: string, rfcId: Option<string>)
    | Reconcile

  function Step(s: Sys, e: Event): Sys {
    match e
    case Begin(w, mail) =>
      if w < |s.pending| && s.pending[w].None? && !Known(s.store, mail)
      then s.(pending := s.pending[w := Some(mail)]) else s
    case Commit(w) =>
      if w < |s.pending| && s.pending[w].Some?
      then Sys(Committed(s.store, s.pending[w].value), s.pending[w := None]) else s
    case Delete(i) => s.(store := Deleted(s.store, i))
    case Compose(row) => s.(store := Outbound(s.store, row))
    case Resize(i, size) => s.(store := Resized(s.store, i, size))
    case Name(i, providerId, rfcId) => s.(store := Named(s.store, i, providerId, rfcId))
    case Reconcile => s.(store := Reconciled(s.store))
  }

  function Run(s: Sys, es: seq<Event>): Sys
    decreases |es|
  {
    if es == [] then s else Run(Step(s, es[0]), es[1..])
  }

  // ---- At most one row per identity, in every run ----

  ghost predicate Distinct(rows: seq<Row>) {
    forall i, j :: 0 <= i < |rows| && 0 <= j < |rows| && i != j && rows[i].live && rows[j].live ==>
      && (rows[i].provider == rows[j].provider && rows[i].providerId == rows[j].providerId ==> rows[i].providerId == "")
      && (rows[i].box == rows[j].box && rows[i].rfcId == rows[j].rfcId ==> rows[i].rfcId == None)
  }

  lemma DistinctStep(s: Sys, e: Event)
    requires Distinct(s.store.rows)
    ensures Distinct(Step(s, e).store.rows)
  {
    var rows, rows' := s.store.rows, Step(s, e).store.rows;
    if e.Name? {
      DistinctName(s.store, e.i, e.providerId, e.rfcId);
    } else if |rows'| == |rows| + 1 {
      assert !Conflicts(rows, rows'[|rows|]);
    }
  }

  lemma DistinctName(s: Store, i: nat, providerId: string, rfcId: Option<string>)
    requires Distinct(s.rows)
    ensures Distinct(Named(s, i, providerId, rfcId).rows)
  {
    var t := Named(s, i, providerId, rfcId);
    if t != s {
      forall j, k | 0 <= j < |t.rows| && 0 <= k < |t.rows| && j != k && t.rows[j].live && t.rows[k].live
        ensures !Clash(t.rows[j], t.rows[k])
      {
        if j == i { assert !Clash(s.rows[k], t.rows[i]); } else if k == i { assert !Clash(s.rows[j], t.rows[i]); }
      }
    }
  }

  /** For any interleaving of workers: two live messages never share a provider id, nor a Message-ID in one mailbox. */
  lemma {:induction false} AtMostOneRow(s: Sys, es: seq<Event>)
    requires Distinct(s.store.rows)
    ensures Distinct(Run(s, es).store.rows)
    decreases |es|
  {
    if es == [] {
    } else {
      DistinctStep(s, es[0]);
      AtMostOneRow(Step(s, es[0]), es[1..]);
    }
  }

  // ---- What is stored, by the fields of the rows ----

  predicate IdTaken(rows: seq<Row>, provider: nat, providerId: string) {
    && providerId != ""
    && exists i :: 0 <= i < |rows| && rows[i].live && rows[i].provider == provider && rows[i].providerId == providerId
  }

  predicate MessageIdTaken(rows: seq<Row>, box: nat, rfcId: Option<string>) {
    && rfcId.Some?
    && exists i :: 0 <= i < |rows| && rows[i].live && rows[i].box == box && rows[i].rfcId == rfcId
  }

  /** An inbound row of the provider with the mail's id, or, for a mail without one, of its mailbox with its nonempty
      Message-ID. */
  predicate DeliveredBefore(rows: seq<Row>, m: Mail) {
    exists i :: 0 <= i < |rows| && rows[i].live && rows[i].inbound
      && (if m.providerId != "" then rows[i].provider == m.provider && rows[i].providerId == m.providerId
          else m.rfcId != None && m.rfcId != Some("") && rows[i].box == m.box && rows[i].rfcId == m.rfcId)
  }

  /** quota 0 means unlimited; the check goes by the declared sizes. */
  predicate Room(s: Store, m: Mail)
    requires m.box < |s.boxes|
  {
    s.boxes[m.box].quota == 0
    || s.boxes[m.box].used + m.size + DeclaredTotal(m.parts) <= s.boxes[m.box].quota
  }

  /** A mail with its parts decoded, their declared sizes standing in for what does not decode. */
  function Volume(m: Mail): nat {
    m.size + StoredTotal(m.parts)
  }

  /** The totals are sums over the parts. */
  lemma {:induction false} SizesAddUp(a: seq<Part>, b: seq<Part>)
    ensures DeclaredTotal(a + b) == DeclaredTotal(a) + DeclaredTotal(b)
    ensures StoredTotal(a + b) == StoredTotal(a) + StoredTotal(b)
    ensures |b| == 1 ==> DeclaredTotal(b) == b[0].declared
    ensures |b| == 1 ==> StoredTotal(b) == if b[0].actual > 0 then b[0].actual else b[0].declared
  {
    if b == [] {
      assert a + b == a;
    } else {
      assert (a + b)[..|a + b| - 1] == a + b[..|b| - 1];
      SizesAddUp(a, b[..|b| - 1]);
    }
  }

  lemma TakenIff(rows: seq<Row>, r: Row)
    ensures Conflicts(rows, r) <==> IdTaken(rows, r.provider, r.providerId) || MessageIdTaken(rows, r.box, r.rfcId)
  {
    if i :| 0 <= i < |rows| && SameProviderId(rows[i], r.provider, r.providerId) { assert rows[i].live; }
    if i :| 0 <= i < |rows| && SameRfcId(rows[i], r.box, r.rfcId) { assert rows[i].live; }
    if IdTaken(rows, r.provider, r.providerId) {
      var i :| 0 <= i < |rows| && rows[i].live && rows[i].provider == r.provider && rows[i].providerId == r.providerId;
      assert SameProviderId(rows[i], r.provider, r.providerId);
    }
    if MessageIdTaken(rows, r.box, r.rfcId) {
      var i :| 0 <= i < |rows| && rows[i].live && rows[i].box == r.box && rows[i].rfcId == r.rfcId;
      assert SameRfcId(rows[i], r.box, r.rfcId);
    }
  }

  /** A mail is stored and charged exactly if its mailbox has room for it and neither its provider id nor, in its
      mailbox, its Message-ID is taken; otherwise its transaction changes nothing. */
  lemma CommitStoresIff(s: Sys, w: nat)
    requires w < |s.pending| && s.pending[w].Some? && s.pending[w].value.box < |s.store.boxes|
    ensures var m := s.pending[w].value; var t := Step(s, Commit(w)).store; var box := s.store.boxes[m.box];
      if Room(s.store, m) && !IdTaken(s.store.rows, m.provider, m.providerId)
         && !MessageIdTaken(s.store.rows, m.box, m.rfcId)
      then
        && t.rows == s.store.rows + [Row(m.box, m.provider, m.providerId, m.rfcId, true, Volume(m), true)]
        && t.boxes == s.store.boxes[m.box := Box(box.quota, box.used + Volume(m))]
      else t == s.store
  {
    TakenIff(s.store.rows, RowOf(s.pending[w].value));
  }

  /** The read before the transaction turns away exactly a mail that has been delivered before. */
  lemma BeginsIff(s: Sys, w: nat, m: Mail)
    requires w < |s.pending| && s.pending[w].None?
    ensures Step(s, Begin(w, m)) ==
      if DeliveredBefore(s.store.rows, m) then s else s.(pending := s.pending[w := Some(m)])
  {
    DeliveredIff(s.store, m);
  }

  lemma DeliveredIff(s: Store, m: Mail)
    ensures Known(s, m) <==> DeliveredBefore(s.rows, m)
  {
    if Known(s, m) {
      var i :| 0 <= i < |s.rows| && s.rows[i].inbound &&
        if m.providerId != "" then SameProviderId(s.rows[i], m.provider, m.providerId)
        else m.rfcId != Some("") && SameRfcId(s.rows[i], m.box, m.rfcId);
      assert s.rows[i].live;
    }
    if DeliveredBefore(s.rows, m) {
      var i :| 0 <= i < |s.rows| && s.rows[i].live && s.rows[i].inbound
        && (if m.providerId != "" then s.rows[i].provider == m.provider && s.rows[i].providerId == m.providerId
            else m.rfcId != None && m.rfcId != Some("") && s.rows[i].box == m.box && s.rows[i].rfcId == m.rfcId);
      assert if m.providerId != "" then SameProviderId(s.rows[i], m.provider, m.providerId)
             else SameRfcId(s.rows[i], m.box, m.rfcId);
    }
  }

  /** The two orders of two workers. */
  function Order(w: nat, v: nat): seq<Event> {
    [Commit(w), Commit(v)]
  }

  /** One mail to two mailboxes, which the provider delivers under two ids: each mailbox gets its copy, whichever worker
      commits first. */
  lemma BothMailboxesGetIt(s: Sys, w: nat, v: nat, a: Mail, b: Mail)
    requires w < |s.pending| && v < |s.pending| && s.pending[w] == Some(a) && s.pending[v] == Some(b)
    requires a.box != b.box && a.box < |s.store.boxes| && b.box < |s.store.boxes|
    requires a.provider != b.provider || a.providerId != b.providerId || a.providerId == ""
    requires Room(s.store, a) && Room(s.store, b)
    requires !IdTaken(s.store.rows, a.provider, a.providerId) && !MessageIdTaken(s.store.rows, a.box, a.rfcId)
    requires !IdTaken(s.store.rows, b.provider, b.providerId) && !MessageIdTaken(s.store.rows, b.box, b.rfcId)
    ensures var t := Run(s, Order(w, v)).store;
      && t.rows == s.store.rows + [Row(a.box, a.provider, a.providerId, a.rfcId, true, Volume(a), true)]
                                + [Row(b.box, b.provider, b.providerId, b.rfcId, true, Volume(b), true)]
      && t.boxes == s.store.boxes[a.box := Box(s.store.boxes[a.box].quota, s.store.boxes[a.box].used + Volume(a))]
                                 [b.box := Box(s.store.boxes[b.box].quota, s.store.boxes[b.box].used + Volume(b))]
  {
    assert w != v;
    CommitStoresIff(s, w);
    var t := Step(s, Commit(w));
    var copy := Row(a.box, a.provider, a.providerId, a.rfcId, true, Volume(a), true);
    assert t.store.rows == s.store.rows + [copy];
    NotTaken(s.store.rows, copy, b);
    CommitStoresIff(t, v);
    assert Order(w, v)[1..] == [Commit(v)] && [Commit(v)][1..] == [];
    assert Run(t, [Commit(v)]) == Run(Step(t, Commit(v)), []);
  }

  lemma NotTaken(rows: seq<Row>, r: Row, b: Mail)
    requires !IdTaken(rows, b.provider, b.providerId) && !MessageIdTaken(rows, b.box, b.rfcId)
    requires r.box != b.box && (r.provider != b.provider || r.providerId != b.providerId || r.providerId == "")
    ensures !IdTaken(rows + [r], b.provider, b.providerId) && !MessageIdTaken(rows + [r], b.box, b.rfcId)
  {
    var more := rows + [r];
    forall i | 0 <= i < |more| && more[i].live
      ensures more[i].box == b.box && b.rfcId.Some? ==> more[i].rfcId != b.rfcId
      ensures more[i].provider == b.provider && b.providerId != "" ==> more[i].providerId != b.providerId
    {
      if i < |rows| { assert more[i] == rows[i]; } else { assert more[i] == r; }
    }
  }

  /** A sent message is stored, and an id saved on one, exactly if no other live row has taken it. */
  lemma OutboundIff(s: Store, r: Row)
    requires !r.inbound && r.live
    ensures Outbound(s, r) ==
      if IdTaken(s.rows, r.provider, r.providerId) || MessageIdTaken(s.rows, r.box, r.rfcId) then s
      else s.(rows := s.rows + [r])
  {
    TakenIff(s.rows, r);
  }

  predicate TakenByAnother(rows: seq<Row>, i: nat, providerId: string, rfcId: Option<string>)
    requires i < |rows|
  {
    exists k :: 0 <= k < |rows| && k != i && rows[k].live &&
      ((providerId != "" && rows[k].provider == rows[i].provider && rows[k].providerId == providerId)
       || (rfcId.Some? && rows[k].box == rows[i].box && rows[k].rfcId == rfcId))
  }

  lemma NamedIff(s: Store, i: nat, providerId: string, rfcId: Option<string>)
    requires i < |s.rows| && s.rows[i].live && !s.rows[i].inbound
    ensures Named(s, i, providerId, rfcId) ==
      if TakenByAnother(s.rows, i, providerId, rfcId) then s
      else s.(rows := s.rows[i := s.rows[i].(providerId := providerId, rfcId := rfcId)])
  {
    var row := s.rows[i].(providerId := providerId, rfcId := rfcId);
    if k :| 0 <= k < |s.rows| && k != i && Clash(s.rows[k], row) { assert s.rows[k].live; }
    if TakenByAnother(s.rows, i, providerId, rfcId) {
      var k :| 0 <= k < |s.rows| && k != i && s.rows[k].live &&
        ((providerId != "" && s.rows[k].provider == s.rows[i].provider && s.rows[k].providerId == providerId)
         || (rfcId.Some? && s.rows[k].box == s.rows[i].box && s.rows[k].rfcId == rfcId));
      assert Clash(s.rows[k], row);
    }
  }

  // ---- Any number of workers ingesting the same mail ----

  predicate Ingests(e: Event, m: Mail) {
    e.Commit? || (e.Begin? && e.mail == m)
  }

  ghost predicate OnlyPending(s: Sys, m: Mail) {
    forall w :: 0 <= w < |s.pending| && s.pending[w].Some? ==> s.pending[w].value == m
  }

  /** The mail carries an identity one of the unique constraints covers. */
  predicate Identified(m: Mail) {
    m.providerId != "" || m.rfcId.Some?
  }

  lemma SecondConflicts(s: Store, m: Mail)
    requires Identified(m) && Admits(s, m)
    ensures !Admits(Committed(s, m), m)
  {
    var t := Committed(s, m);
    assert t.rows[|s.rows|] == RowOf(m);
  }

  lemma {:induction false} RaceLosers(s: Sys, es: seq<Event>, m: Mail)
    requires OnlyPending(s, m) && !Admits(s.store, m)
    requires forall i :: 0 <= i < |es| ==> Ingests(es[i], m)
    ensures Run(s, es).store == s.store
    decreases |es|
  {
    if es == [] {
    } else {
      assert Ingests(es[0], m);
      RaceLosers(Step(s, es[0]), es[1..], m);
    }
  }

  /** Workers racing on one message alone, the dedup read outside the lock: either nothing is stored, or exactly one row
      is, and the mailbox is charged exactly its stored size once. */
  lemma {:induction false} RaceStoresOnce(s: Sys, es: seq<Event>, m: Mail)
    requires OnlyPending(s, m) && Identified(m)
    requires forall i :: 0 <= i < |es| ==> Ingests(es[i], m)
    ensures Run(s, es).store == s.store || (Admits(s.store, m) && Run(s, es).store == Committed(s.store, m))
    decreases |es|
  {
    if es == [] {
    } else {
      assert Ingests(es[0], m);
      var t := Step(s, es[0]);
      if t.store == s.store {
        RaceStoresOnce(t, es[1..], m);
      } else {
        SecondConflicts(s.store, m);
        RaceLosers(t, es[1..], m);
      }
    }
  }

  // ---- The same in any company ----

  /** The step commits this mail. */
  predicate Keeps(s: Sys, e: Event, m: Mail) {
    e.Commit? && e.w < |s.pending| && s.pending[e.w] == Some(m) && Admits(s.store, m)
  }

  /** The step does not delete or rename a message that carries this mail's identity. */
  predicate Spares(s: Sys, e: Event, m: Mail) {
    (e.Delete? || e.Name?) && e.i < |s.store.rows| ==> !Clash(s.store.rows[e.i], RowOf(m))
  }

  ghost predicate SparesAll(s: Sys, es: seq<Event>, m: Mail)
    decreases |es|
  {
    es == [] || (Spares(s, es[0], m) && SparesAll(Step(s, es[0]), es[1..], m))
  }

  /** How often a run commits this mail. */
  function Times(s: Sys, es: seq<Event>, m: Mail): nat
    decreases |es|
  {
    if es == [] then 0 else (if Keeps(s, es[0], m) then 1 else 0) + Times(Step(s, es[0]), es[1..], m)
  }

  lemma RowsGrow(s: Sys, e: Event, i: nat, m: Mail)
    requires i < |s.store.rows| && Clash(s.store.rows[i], RowOf(m)) && Spares(s, e, m)
    ensures i < |Step(s, e).store.rows| && Clash(Step(s, e).store.rows[i], RowOf(m))
  {
  }

  /** Once a row carries the mail's identity no run commits the mail, whatever else it ingests, sends, edits or deletes,
      and a worker that tries leaves the store as it is. */
  lemma {:induction false} LosersChangeNothing(s: Sys, es: seq<Event>, m: Mail, i: nat, w: nat)
    requires i < |s.store.rows| && Clash(s.store.rows[i], RowOf(m)) && SparesAll(s, es, m)
    ensures Times(s, es, m) == 0
    ensures var t := Run(s, es);
      w < |t.pending| && t.pending[w] == Some(m) ==> Step(t, Commit(w)).store == t.store
    decreases |es|
  {
    assert Conflicts(s.store.rows, RowOf(m));
    if es == [] {
    } else {
      RowsGrow(s, es[0], i, m);
      LosersChangeNothing(Step(s, es[0]), es[1..], m, i, w);
    }
  }

  /** Any number of workers on one message, among any other mail, sends, edits and deletions of other messages: at most
      one of them commits it. */
  lemma {:induction false} IngestedOnce(s: Sys, es: seq<Event>, m: Mail)
    requires Identified(m) && SparesAll(s, es, m)
    ensures Times(s, es, m) <= 1
    decreases |es|
  {
    if es == [] {
    } else if Keeps(s, es[0], m) {
      var t := Step(s, es[0]);
      assert t.store.rows[|s.store.rows|] == RowOf(m);
      LosersChangeNothing(t, es[1..], m, |s.store.rows|, 0);
    } else {
      IngestedOnce(Step(s, es[0]), es[1..], m);
    }
  }

  /** A mail is stored for good or never: with a row of its Message-ID already live in the mailbox (the sent copy of a
      self-addressed message, say) no delivery of it ever commits, although the lookup by provider id misses. */
  lemma TakenMessageIdBlocks(s: Store, m: Mail, i: nat)
    requires i < |s.rows| && SameRfcId(s.rows[i], m.box, m.rfcId)
    ensures Committed(s, m) == s
  {
    assert Conflicts(s.rows, RowOf(m));
  }

  // ---- used_bytes ----

  predicate Exact(s: Store, box: nat) {
    box < |s.boxes| && s.boxes[box].used == BoxBytes(s.rows, box)
  }

  predicate Bounded(s: Store, box: nat) {
    box < |s.boxes| && s.boxes[box].used <= BoxBytes(s.rows, box)
  }

  lemma NamedBytes(s: Store, i: nat, providerId: string, rfcId: Option<string>, box: nat)
    ensures BoxBytes(Named(s, i, providerId, rfcId).rows, box) == BoxBytes(s.rows, box)
    ensures Named(s, i, providerId, rfcId).boxes == s.boxes
  {
    if i < |s.rows| { BytesPut(s.rows, i, s.rows[i].(providerId := providerId, rfcId := rfcId), box); }
  }

  lemma DeleteBytes(s: Store, i: nat, box: nat)
    requires i < |s.rows| && s.rows[i].live && s.rows[i].box < |s.boxes| && box < |s.boxes|
    ensures BoxBytes(Deleted(s, i).rows, box) == BoxBytes(s.rows, box) - RowBytes(s.rows[i], box)
    ensures RowBytes(s.rows[i], box) <= BoxBytes(s.rows, box)
  {
    BytesPut(s.rows, i, s.rows[i].(live := false), box);
  }

  /** Where the counter is exact, a deletion never meets the clamp at zero. */
  lemma ClampNeverFires(s: Store, i: nat)
    requires i < |s.rows| && s.rows[i].live && Exact(s, s.rows[i].box)
    ensures s.boxes[s.rows[i].box].used >= s.rows[i].size
    ensures Deleted(s, i).boxes[s.rows[i].box].used == s.boxes[s.rows[i].box].used - s.rows[i].size
  {
    DeleteBytes(s, i, s.rows[i].box);
  }

  /** A step that changes what the outbound rows of a mailbox weigh, without its counter. */
  predicate Uncounted(s: Sys, e: Event, box: nat) {
    || (e.Compose? && e.row.box == box && e.row.size > 0 && Outbound(s.store, e.row) != s.store)
    || (e.Resize? && Resized(s.store, e.i, e.size) != s.store && s.store.rows[e.i].box == box)
  }

  lemma CommittedBytes(s: Store, m: Mail, box: nat)
    requires Admits(s, m) && box < |s.boxes|
    ensures BoxBytes(Committed(s, m).rows, box) == BoxBytes(s.rows, box) + if box == m.box then Stored(m) else 0
  {
    BytesAppend(s.rows, RowOf(m), box);
  }

  lemma ExactCommit(s: Store, m: Mail, box: nat)
    requires Exact(s, box)
    ensures Exact(Committed(s, m), box)
  {
    if Admits(s, m) { CommittedBytes(s, m, box); }
  }

  lemma ExactDelete(s: Store, i: nat, box: nat)
    requires Exact(s, box)
    ensures Exact(Deleted(s, i), box)
  {
    if i < |s.rows| && s.rows[i].live && s.rows[i].box < |s.boxes| { DeleteBytes(s, i, box); }
  }

  lemma ExactOutbound(s: Store, r: Row, box: nat)
    requires Exact(s, box)
    ensures Exact(Outbound(s, r), box) <==> !(r.box == box && r.size > 0 && Outbound(s, r) != s)
  {
    BytesAppend(s.rows, r, box);
  }

  lemma ExactResized(s: Store, i: nat, size: nat, box: nat)
    requires Exact(s, box)
    ensures Exact(Resized(s, i, size), box) <==> !(Resized(s, i, size) != s && s.rows[i].box == box)
  {
    if Resized(s, i, size) != s { BytesPut(s.rows, i, s.rows[i].(size := size), box); }
  }

  /** Exactly which steps make used_bytes differ from the stored sizes: outbound mail and its later edits. */
  lemma ExactIff(s: Sys, e: Event, box: nat)
    requires Exact(s.store, box)
    ensures Exact(Step(s, e).store, box) <==> !Uncounted(s, e, box)
  {
    match e
    case Begin(_, _) =>
    case Commit(w) => if w < |s.pending| && s.pending[w].Some? { ExactCommit(s.store, s.pending[w].value, box); }
    case Delete(i) => ExactDelete(s.store, i, box);
    case Compose(row) => ExactOutbound(s.store, row, box);
    case Resize(i, size) => ExactResized(s.store, i, size, box);
    case Name(i, providerId, rfcId) => NamedBytes(s.store, i, providerId, rfcId, box);
    case Reconcile =>
  }

  predicate InboundOnly(e: Event) {
    e.Begin? || e.Commit? || e.Delete? || e.Reconcile?
  }

  /** In inbound-only runs, any interleaving of ingests and deletes, used_bytes is the sum of the stored sizes. */
  lemma {:induction false} UsageExact(s: Sys, es: seq<Event>, box: nat)
    requires Exact(s.store, box) && forall i :: 0 <= i < |es| ==> InboundOnly(es[i])
    ensures Exact(Run(s, es).store, box)
    decreases |es|
  {
    if es == [] {
    } else {
      assert InboundOnly(es[0]);
      ExactIff(s, es[0], box);
      UsageExact(Step(s, es[0]), es[1..], box);
    }
  }

  lemma BoundedCommit(s: Store, m: Mail, box: nat)
    requires Bounded(s, box)
    ensures Bounded(Committed(s, m), box)
  {
    if Admits(s, m) { CommittedBytes(s, m, box); }
  }

  lemma BoundedDelete(s: Store, i: nat, box: nat)
    requires Bounded(s, box)
    ensures Bounded(Deleted(s, i), box)
  {
    if i < |s.rows| && s.rows[i].live && s.rows[i].box < |s.boxes| { DeleteBytes(s, i, box); }
  }

  lemma BoundedOutbound(s: Store, r: Row, box: nat)
    requires Bounded(s, box)
    ensures Bounded(Outbound(s, r), box)
  {
    BytesAppend(s.rows, r, box);
  }

  lemma BoundedStep(s: Sys, e: Event, box: nat)
    requires Bounded(s.store, box) && !e.Resize?
    ensures Bounded(Step(s, e).store, box)
  {
    match e
    case Begin(_, _) =>
    case Commit(w) => if w < |s.pending| && s.pending[w].Some? { BoundedCommit(s.store, s.pending[w].value, box); }
    case Delete(i) => BoundedDelete(s.store, i, box);
    case Compose(row) => BoundedOutbound(s.store, row, box);
    case Name(i, providerId, rfcId) => NamedBytes(s.store, i, providerId, rfcId, box);
    case Reconcile =>
  }

  /** With outbound mail but no edits used_bytes is between zero and the stored sizes; reconciling closes the gap. */
  lemma {:induction false} UsageBounded(s: Sys, es: seq<Event>, box: nat)
    requires Bounded(s.store, box) && forall i :: 0 <= i < |es| ==> !es[i].Resize?
    ensures Bounded(Run(s, es).store, box) && Exact(Reconciled(Run(s, es).store), box)
    decreases |es|
  {
    if es == [] {
    } else {
      assert !es[0].Resize?;
      BoundedStep(s, es[0], box);
      UsageBounded(Step(s, es[0]), es[1..], box);
    }
  }

  // ---- Reconciling while others work ----

  predicate CommitsTo(s: Sys, e: Event, box: nat) {
    e.Commit? && e.w < |s.pending| && s.pending[e.w].Some?
    && s.pending[e.w].value.box == box && Admits(s.store, s.pending[e.w].value)
  }

  predicate DeletesFrom(s: Sys, e: Event, box: nat) {
    e.Delete? && e.i < |s.store.rows| && s.store.rows[e.i].live && s.store.rows[e.i].box == box
    && box < |s.store.boxes|
  }

  predicate AddsOutbound(s: Sys, e: Event, box: nat) {
    e.Compose? && e.row.box == box && !e.row.inbound && e.row.live && !Conflicts(s.store.rows, e.row)
  }

  predicate Resizes(s: Sys, e: Event, box: nat) {
    e.Resize? && e.i < |s.store.rows| && s.store.rows[e.i].live && !s.store.rows[e.i].inbound
    && s.store.rows[e.i].box == box
  }

  /** What a step adds to the stored sizes of a mailbox. */
  function Weight(s: Sys, e: Event, box: nat): int {
    if CommitsTo(s, e, box) then Stored(s.pending[e.w].value)
    else if DeletesFrom(s, e, box) then var size: int := s.store.rows[e.i].size; -size
    else if AddsOutbound(s, e, box) then e.row.size
    else if Resizes(s, e, box) then e.size - s.store.rows[e.i].size
    else 0
  }

  /** What a step adds to used_bytes; another pass of the reconciling task aside. */
  function Charge(s: Sys, e: Event, box: nat): int
    requires box < |s.store.boxes|
  {
    if CommitsTo(s, e, box) then Stored(s.pending[e.w].value)
    else if DeletesFrom(s, e, box) then Monus(s.store.boxes[box].used, s.store.rows[e.i].size) - s.store.boxes[box].used
    else 0
  }

  function WeightOf(s: Sys, es: seq<Event>, box: nat): int
    decreases |es|
  {
    if es == [] then 0 else Weight(s, es[0], box) + WeightOf(Step(s, es[0]), es[1..], box)
  }

  function ChargeOf(s: Sys, es: seq<Event>, box: nat): int
    requires box < |s.store.boxes|
    decreases |es|
  {
    if es == [] then 0
    else
      BoxesKept(s, es[0]);
      Charge(s, es[0], box) + ChargeOf(Step(s, es[0]), es[1..], box)
  }

  lemma BoxesKept(s: Sys, e: Event)
    ensures |Step(s, e).store.boxes| == |s.store.boxes|
  {
  }

  lemma WeightCommit(s: Sys, w: nat, box: nat)
    requires box < |s.store.boxes|
    ensures BoxBytes(Step(s, Commit(w)).store.rows, box) == BoxBytes(s.store.rows, box) + Weight(s, Commit(w), box)
  {
    if w < |s.pending| && s.pending[w].Some? && Admits(s.store, s.pending[w].value) {
      CommittedBytes(s.store, s.pending[w].value, box);
    }
  }

  lemma WeightDelete(s: Sys, i: nat, box: nat)
    requires box < |s.store.boxes|
    ensures BoxBytes(Deleted(s.store, i).rows, box) == BoxBytes(s.store.rows, box) + Weight(s, Delete(i), box)
  {
    if i < |s.store.rows| && s.store.rows[i].live && s.store.rows[i].box < |s.store.boxes| {
      DeleteBytes(s.store, i, box);
    }
  }

  lemma WeightCompose(s: Sys, row: Row, box: nat)
    ensures BoxBytes(Outbound(s.store, row).rows, box) == BoxBytes(s.store.rows, box) + Weight(s, Compose(row), box)
  {
    BytesAppend(s.store.rows, row, box);
  }

  lemma WeightResize(s: Sys, i: nat, size: nat, box: nat)
    ensures BoxBytes(Resized(s.store, i, size).rows, box)
      == BoxBytes(s.store.rows, box) + Weight(s, Resize(i, size), box)
  {
    if i < |s.store.rows| { BytesPut(s.store.rows, i, s.store.rows[i].(size := size), box); }
  }

  lemma WeightStep(s: Sys, e: Event, box: nat)
    requires box < |s.store.boxes|
    ensures BoxBytes(Step(s, e).store.rows, box) == BoxBytes(s.store.rows, box) + Weight(s, e, box)
  {
    match e
    case Begin(_, _) =>
    case Reconcile =>
    case Commit(w) => WeightCommit(s, w, box);
    case Delete(i) => WeightDelete(s, i, box);
    case Compose(row) => WeightCompose(s, row, box);
    case Resize(i, size) => WeightResize(s, i, size, box);
    case Name(i, providerId, rfcId) => NamedBytes(s.store, i, providerId, rfcId, box);
  }

  lemma ChargeStep(s: Sys, e: Event, box: nat)
    requires box < |s.store.boxes| && !e.Reconcile?
    ensures box < |Step(s, e).store.boxes|
    ensures Step(s, e).store.boxes[box].used == s.store.boxes[box].used + Charge(s, e, box)
  {
  }

  lemma {:induction false} WeightRun(s: Sys, es: seq<Event>, box: nat)
    requires box < |s.store.boxes|
    ensures BoxBytes(Run(s, es).store.rows, box) == BoxBytes(s.store.rows, box) + WeightOf(s, es, box)
    ensures |Run(s, es).store.boxes| == |s.store.boxes|
    decreases |es|
  {
    if es == [] {
    } else {
      WeightStep(s, es[0], box);
      BoxesKept(s, es[0]);
      WeightRun(Step(s, es[0]), es[1..], box);
    }
  }

  lemma {:induction false} ChargeRun(s: Sys, es: seq<Event>, box: nat)
    requires box < |s.store.boxes| && forall i :: 0 <= i < |es| ==> !es[i].Reconcile?
    ensures box < |Run(s, es).store.boxes|
    ensures Run(s, es).store.boxes[box].used == s.store.boxes[box].used + ChargeOf(s, es, box)
    decreases |es|
  {
    if es == [] {
    } else {
      ChargeStep(s, es[0], box);
      BoxesKept(s, es[0]);
      ChargeRun(Step(s, es[0]), es[1..], box);
    }
  }

  /** The task has summed a mailbox to `total`, then read its counter as `used`, and writes only if the two differ. */
  function Recounted(s: Store, box: nat, total: nat, used: nat): Store
    requires box < |s.boxes|
  {
    if used != total then Charged(s, box, total) else s
  }

  /** The sum is taken, `first` happens, the counter is read, `second` happens, and the task writes. A counter that is
      written ends up exact exactly if the commits, deletions, sends and resizes since the sum weigh nothing on balance.
      One that is left alone does exactly if the weight since the sum is what has been charged since the reading. */
  lemma LateRecountIff(s: Sys, first: seq<Event>, second: seq<Event>, box: nat)
    requires box < |s.store.boxes| && forall i :: 0 <= i < |second| ==> !second[i].Reconcile?
    ensures |Run(s, first).store.boxes| == |Run(Run(s, first), second).store.boxes| == |s.store.boxes|
    ensures var total, read := BoxBytes(s.store.rows, box), Run(s, first).store.boxes[box].used;
      var weight := WeightOf(s, first, box) + WeightOf(Run(s, first), second, box);
      Exact(Recounted(Run(Run(s, first), second).store, box, total, read), box) <==>
        (if read != total then weight == 0 else weight == ChargeOf(Run(s, first), second, box))
  {
    var t := Run(s, first);
    WeightRun(s, first, box);
    WeightRun(t, second, box);
    ChargeRun(t, second, box);
  }

  /** Where the counter is exact when it is summed, and only inbound mail comes and goes, the task spoils it exactly if
      the steps between sum and reading weigh something and those up to the write do not make up for it: what happens
      after the reading of an exact counter is never lost. */
  lemma InboundRecountIff(s: Sys, first: seq<Event>, second: seq<Event>, box: nat)
    requires Exact(s.store, box) && forall i :: 0 <= i < |first| ==> InboundOnly(first[i])
    requires forall i :: 0 <= i < |second| ==> InboundOnly(second[i]) && !second[i].Reconcile?
    ensures box < |Run(s, first).store.boxes| && box < |Run(Run(s, first), second).store.boxes|
    ensures var total, read := BoxBytes(s.store.rows, box), Run(s, first).store.boxes[box].used;
      Exact(Recounted(Run(Run(s, first), second).store, box, total, read), box) <==>
        || WeightOf(s, first, box) == 0
        || WeightOf(s, first, box) + WeightOf(Run(s, first), second, box) == 0
  {
    var t := Run(s, first);
    LateRecountIff(s, first, second, box);
    UsageExact(s, first, box);
    UsageExact(t, second, box);
    WeightRun(s, first, box);
    WeightRun(t, second, box);
  }

  /** An ingest between the sum and the reading is forgotten, and so is one between the reading and the write of a
      counter that was off: the counter is then short by exactly the stored size of the new message. One that comes
      after the reading of an exact counter is kept. */
  lemma LateRecountForgetsIngest(s: Store, m: Mail)
    requires Admits(s, m)
    ensures var t, total, used := Committed(s, m), BoxBytes(s.rows, m.box), s.boxes[m.box].used;
      var before, after := Recounted(t, m.box, total, t.boxes[m.box].used), Recounted(t, m.box, total, used);
      && (used + Stored(m) != total ==> before.boxes[m.box].used + Stored(m) == BoxBytes(before.rows, m.box))
      && (used != total ==> after.boxes[m.box].used + Stored(m) == BoxBytes(after.rows, m.box))
      && (used == total ==> Exact(after, m.box))
  {
    CommittedBytes(s, m, m.box);
  }

  /** Two requests that delete one message both signal it, and the second takes its size off again: an exact counter
      stays exact exactly if the message weighed nothing or the mailbox is empty by then. */
  lemma SecondDeletionIff(s: Store, i: nat)
    requires i < |s.rows| && !s.rows[i].live && Exact(s, s.rows[i].box)
    ensures var r := s.rows[i]; var t := Charged(s, r.box, Monus(s.boxes[r.box].used, r.size));
      Exact(t, r.box) <==> r.size == 0 || BoxBytes(s.rows, r.box) == 0
  {
  }

  // ---- Quota ----

  predicate WithinQuota(s: Store, box: nat, slack: nat) {
    box < |s.boxes| && (s.boxes[box].quota > 0 ==> s.boxes[box].used <= s.boxes[box].quota + slack)
  }

  predicate ExcessAtMost(e: Event, slack: nat) {
    e.Begin? ==> ExcessTotal(e.mail.parts) <= slack
  }

  ghost predicate PendingExcess(s: Sys, slack: nat) {
    forall w :: 0 <= w < |s.pending| && s.pending[w].Some? ==> ExcessTotal(s.pending[w].value.parts) <= slack
  }

  /** A pass of the reconciling task finds more stored than the quota admits: outbound mail is stored unchecked. */
  predicate FindsMore(s: Sys, e: Event, box: nat, slack: nat)
    requires box < |s.store.boxes|
  {
    e.Reconcile? && s.store.boxes[box].quota > 0 && BoxBytes(s.store.rows, box) > s.store.boxes[box].quota + slack
  }

  lemma QuotaCommit(s: Sys, w: nat, box: nat, slack: nat)
    requires WithinQuota(s.store, box, slack) && PendingExcess(s, slack)
    ensures WithinQuota(Step(s, Commit(w)).store, box, slack)
  {
    if w < |s.pending| && s.pending[w].Some? { StoredWithinDeclared(s.pending[w].value.parts); }
  }

  /** Exactly which step takes used_bytes over the quota by more than the undeclared excess of a single message. */
  lemma QuotaIff(s: Sys, e: Event, box: nat, slack: nat)
    requires WithinQuota(s.store, box, slack) && PendingExcess(s, slack)
    ensures WithinQuota(Step(s, e).store, box, slack) <==> !FindsMore(s, e, box, slack)
  {
    if e.Commit? { QuotaCommit(s, e.w, box, slack); }
  }

  ghost predicate NeverFindsMore(s: Sys, es: seq<Event>, box: nat, slack: nat)
    decreases |es|
  {
    box < |s.store.boxes|
    && (es == [] || (!FindsMore(s, es[0], box, slack) && NeverFindsMore(Step(s, es[0]), es[1..], box, slack)))
  }

  lemma PendingStep(s: Sys, e: Event, slack: nat)
    requires PendingExcess(s, slack) && ExcessAtMost(e, slack)
    ensures PendingExcess(Step(s, e), slack)
  {
  }

  /** In every concurrent run of ingests, deletions, sends and edits used_bytes overshoots the quota by at most the
      undeclared excess of a single message, not at all (slack 0) where declared sizes cover the actual ones; and with
      the reconciling task too, unless it finds more stored than that. */
  lemma {:induction false} QuotaRespected(s: Sys, es: seq<Event>, box: nat, slack: nat)
    requires WithinQuota(s.store, box, slack) && PendingExcess(s, slack) && NeverFindsMore(s, es, box, slack)
    requires forall i :: 0 <= i < |es| ==> ExcessAtMost(es[i], slack)
    ensures WithinQuota(Run(s, es).store, box, slack)
    decreases |es|
  {
    if es == [] {
    } else {
      assert ExcessAtMost(es[0], slack);
      QuotaIff(s, es[0], box, slack);
      PendingStep(s, es[0], slack);
      QuotaRespected(Step(s, es[0]), es[1..], box, slack);
    }
  }

  // ---- The code, one call at a time ----

  datatype Result = Existing | Kept | QuotaExceeded | IntegrityError

  class Mailroom {
    var rows: seq<Row>
    var boxes: array<Box>

    constructor (quotas: seq<nat>)
      ensures Snapshot() == Store([], seq(|quotas|, b requires 0 <= b < |quotas| => Box(quotas[b], 0))) && fresh(boxes)
    {
      rows := [];
      boxes := new Box[|quotas|](b requires 0 <= b < |quotas| => Box(quotas[b], 0));
    }

    function Snapshot(): Store
      reads this, boxes
    {
      Store(rows, boxes[..])
    }

    method FindExisting(m: Mail) returns (found: bool)
      ensures found == Known(Snapshot(), m) && found == DeliveredBefore(rows, m)
    {
      DeliveredIff(Snapshot(), m);
      found := false;
      for i := 0 to |rows|
        invariant !found
        invariant forall k :: 0 <= k < i && rows[k].inbound ==>
          !(if m.providerId != "" then SameProviderId(rows[k], m.provider, m.providerId)
            else m.rfcId != Some("") && SameRfcId(rows[k], m.box, m.rfcId))
      {
        if rows[i].inbound {
          if m.providerId != "" {
            found := SameProviderId(rows[i], m.provider, m.providerId);
          } else if m.rfcId.Some? && m.rfcId.value != "" {
            found := SameRfcId(rows[i], m.box, m.rfcId);
          }
          if found {
            return;
          }
        }
      }
    }

    static method SumSizes(m: Mail) returns (incoming: nat, total: nat)
      ensures incoming == Incoming(m) && total == Stored(m)
    {
      incoming, total := m.size, m.size;
      for i := 0 to |m.parts|
        invariant incoming == m.size + DeclaredTotal(m.parts[..i])
        invariant total == m.size + StoredTotal(m.parts[..i])
      {
        assert m.parts[..i + 1][..i] == m.parts[..i];
        incoming := incoming + m.parts[i].declared;
        total := total + if m.parts[i].actual > 0 then m.parts[i].actual else m.parts[i].declared;
      }
      assert m.parts[..|m.parts|] == m.parts;
    }

    /** create_inbound_message: every outcome but the stored one leaves rows and counters as they were. */
    method CreateInboundMessage(m: Mail) returns (result: Result)
      requires m.box < boxes.Length
      modifies this`rows, boxes
      ensures boxes == old(boxes)
      ensures result == Existing <==> DeliveredBefore(old(rows), m)
      ensures result == Kept <==>
        && !DeliveredBefore(old(rows), m) && Room(old(Snapshot()), m)
        && !IdTaken(old(rows), m.provider, m.providerId) && !MessageIdTaken(old(rows), m.box, m.rfcId)
      ensures result == QuotaExceeded <==> !DeliveredBefore(old(rows), m) && !Room(old(Snapshot()), m)
      ensures Snapshot() == if result == Kept then Committed(old(Snapshot()), m) else old(Snapshot())
    {
      TakenIff(rows, RowOf(m));
      var known := FindExisting(m);
      if known {
        return Existing;
      }
      var incoming, total := SumSizes(m);
      var box := boxes[m.box];
      if box.quota > 0 && box.used + incoming > box.quota {
        return QuotaExceeded;
      }
      var row := RowOf(m).(size := total);
      if Conflicts(rows, row) {
        return IntegrityError;
      }
      rows := rows + [row];
      boxes[m.box] := box.(used := box.used + total);
      result := Kept;
    }

    /** The post_delete handler of a message. */
    method DeleteMessage(i: nat)
      requires i < |rows| && rows[i].live && rows[i].box < boxes.Length
      modifies this`rows, boxes
      ensures boxes == old(boxes) && Snapshot() == Deleted(old(Snapshot()), i)
    {
      var row := rows[i];
      rows := rows[i := row.(live := false)];
      if row.size == 0 {
        return;
      }
      var used := boxes[row.box].used;
      boxes[row.box] := boxes[row.box].(used := if used >= row.size then used - row.size else 0);
    }

    static method Total(rows: seq<Row>, box: nat) returns (total: nat)
      ensures total == BoxBytes(rows, box)
    {
      total := 0;
      for i := 0 to |rows|
        invariant total == BoxBytes(rows[..i], box)
      {
        assert rows[..i + 1][..i] == rows[..i];
        if rows[i].live && rows[i].box == box {
          total := total + rows[i].size;
        }
      }
      assert rows[..|rows|] == rows;
    }

    /** Every counter becomes exact; the answer is how many were not. */
    method ReconcileUsedBytes() returns (updated: nat)
      modifies boxes
      ensures Snapshot() == Reconciled(old(Snapshot()))
      ensures forall b :: 0 <= b < boxes.Length ==> Exact(Snapshot(), b)
      ensures updated == 0 <==> forall b :: 0 <= b < boxes.Length ==> Exact(old(Snapshot()), b)
    {
      updated := 0;
      for b := 0 to boxes.Length
        invariant forall k :: 0 <= k < b ==> boxes[k] == old(boxes[k]).(used := BoxBytes(rows, k))
        invariant forall k :: b <= k < boxes.Length ==> boxes[k] == old(boxes[k])
        invariant updated == 0 <==> forall k :: 0 <= k < b ==> old(boxes[k]).used == BoxBytes(rows, k)
      {
        var total := Total(rows, b);
        if boxes[b].used != total {
          boxes[b] := boxes[b].(used := total);
          updated := updated + 1;
        }
      }
      assert forall k :: 0 <= k < boxes.Length ==>
        (Exact(old(Snapshot()), k) <==> old(boxes[k]).used == BoxBytes(rows, k));
    }
  }
}

/** Attachment rows of messages: staging, draft reconciliation, forwarded copies and upload before sending. */
module OutboundSize {
  import opened Types

  /** Base64 text as it arrived: absent, well formed (section 4 of RFC 4648), or malformed; malformed text may still
      decode to some length when characters outside the alphabet are skipped. */
  datatype Content = Absent | WellFormed(length: nat) | Malformed(lenient: Option<nat>)

  /** `pending` is the content staged in the row's metadata until it has been uploaded; `file` is the stored object the
      row refers to. An object that a row uploads goes by the id of that row. */
  datatype Row = Row(id: nat, name: string, size: nat, pending: Content, file: Option<nat>)

  /** `body` is the size of the message itself, which only inbound mail accounts for. */
  datatype Message = Message(rows: seq<Row>, hasAttachments: bool, size: nat, body: nat)

  datatype Item = Item(name: string, content: Content)

  /** A draft update lists the rows to keep, by id, and the attachments to add. */
  datatype Entry = Keep(id: nat) | Add(item: Item)

  /** `next` is larger than every row id given out. */
  datatype World = World(messages: map<nat, Message>, next: nat)

  function Sum(rows: seq<Row>): nat {
    if rows == [] then 0 else Sum(rows[..|rows| - 1]) + rows[|rows| - 1].size
  }

  function DecodedLength(c: Content): nat {
    match c
    case Absent => 0
    case WellFormed(length) => length
    case Malformed(lenient) => if lenient.Some? then lenient.value else 0
  }

  // ---- The operations on one message ----

  function NewRow(item: Item, id: nat): Row {
    Row(id, if item.name == "" then "attachment" else item.name, DecodedLength(item.content), item.content, None)
  }

  function NewRows(items: seq<Item>, next: nat): (rows: seq<Row>)
    ensures |rows| == |items| && forall i :: 0 <= i < |items| ==> rows[i] == NewRow(items[i], next + i)
  {
    if items == [] then []
    else NewRows(items[..|items| - 1], next) + [NewRow(items[|items| - 1], next + |items| - 1)]
  }

  /** A new row weighs what its content decodes to, even leniently, and nothing if it does not decode or is missing. */
  lemma NewRowsDecoded(items: seq<Item>, next: nat, i: nat)
    requires i < |items|
    ensures var item, r := items[i], NewRows(items, next)[i];
      && r.id == next + i && r.pending == item.content && r.file == None
      && r.name == (if item.name == "" then "attachment" else item.name)
      && (forall n :: item.content in {WellFormed(n), Malformed(Some(n))} ==> r.size == n)
      && (item.content in {Absent, Malformed(None)} ==> r.size == 0)
  {
  }

  function Staged(m: Message, items: seq<Item>, next: nat): Message {
    if items == [] then m
    else m.(rows := m.rows + NewRows(items, next), hasAttachments := true, size := m.size + Sum(NewRows(items, next)))
  }

  function KeepIds(entries: seq<Entry>): set<nat> {
    set e | e in entries && e.Keep? :: e.id
  }

  function NewItems(entries: seq<Entry>): seq<Item> {
    if entries == [] then []
    else
      NewItems(entries[..|entries| - 1])
      + if entries[|entries| - 1].Add? then [entries[|entries| - 1].item] else []
  }

  function Kept(rows: seq<Row>, ids: set<nat>): seq<Row> {
    if rows == [] then []
    else Kept(rows[..|rows| - 1], ids) + if rows[|rows| - 1].id in ids then [rows[|rows| - 1]] else []
  }

  /** has_attachments and size_bytes are recomputed from the survivors before the new rows are staged. */
  function Reconciled(m: Message, entries: seq<Entry>, next: nat): Message {
    var kept := Kept(m.rows, KeepIds(entries));
    Staged(Message(kept, kept != [], Sum(kept), 0), NewItems(entries), next)
  }

  function CopyRow(r: Row, id: nat): Row {
    Row(id, r.name, r.size, Absent, r.file)
  }

  function CopyRows(rows: seq<Row>, next: nat): (copies: seq<Row>)
    ensures |copies| == |rows| && forall i :: 0 <= i < |rows| ==>
      copies[i] == Row(next + i, rows[i].name, rows[i].size, Absent, rows[i].file)
  {
    if rows == [] then []
    else CopyRows(rows[..|rows| - 1], next) + [CopyRow(rows[|rows| - 1], next + |rows| - 1)]
  }

  const BLANK := Message([], false, 0, 0)

  /** A forward starts blank, and copies the source's rows if the source is flagged. */
  function Forwarded(source: Message, next: nat): Message {
    if source.hasAttachments && source.rows != []
    then Message(CopyRows(source.rows, next), true, Sum(CopyRows(source.rows, next)), 0)
    else BLANK
  }

  predicate Waiting(r: Row) {
    r.pending != Absent && r.file.None?
  }

  /** An upload succeeds for well-formed content that storage does not refuse. */
  predicate Uploads(r: Row, refused: set<nat>) {
    Waiting(r) ==> r.pending.WellFormed? && r.id !in refused
  }

  function Uploaded(r: Row): Row {
    if Waiting(r) && r.pending.WellFormed?
    then r.(size := r.pending.length, pending := Absent, file := Some(r.id)) else r
  }

  /** Rows are uploaded and saved one by one; the first failure raises and leaves the rest. */
  function Materialized(rows: seq<Row>, refused: set<nat>): seq<Row> {
    if rows == [] then []
    else if !Uploads(rows[0], refused) then rows
    else [Uploaded(rows[0])] + Materialized(rows[1..], refused)
  }

  predicate AllUpload(rows: seq<Row>, refused: set<nat>) {
    forall i :: 0 <= i < |rows| ==> Uploads(rows[i], refused)
  }

  function Prepared(m: Message, refused: set<nat>): Message {
    var rows := Materialized(m.rows, refused);
    m.(rows := rows, size := if AllUpload(m.rows, refused) && rows != [] then Sum(rows) else m.size)
  }

  // ---- Every run ----

  datatype Event =
    | Receive(id: nat, body: nat, rows: seq<Row>)
    | Create(id: nat, items: seq<Item>)
    | UpdateDraft(id: nat, entries: seq<Entry>)
    | Forward(source: nat, id: nat)
    | Materialize(id: nat, refused: set<nat>)

  function Put(w: World, id: nat, m: Message, count: nat): World {
    World(w.messages[id := m], w.next + count)
  }

  function Received(body: nat, rows: seq<Row>, next: nat): Message {
    Message(CopyRows(rows, next), rows != [], body + Sum(CopyRows(rows, next)), body)
  }

  predicate Outbound(w: World, id: nat) {
    id in w.messages && w.messages[id].body == 0
  }

  function StepReceive(w: World, id: nat, body: nat, rows: seq<Row>): World {
    if id in w.messages then w else Put(w, id, Received(body, rows, w.next), |rows|)
  }

  function StepCreate(w: World, id: nat, items: seq<Item>): World {
    if id in w.messages then w else Put(w, id, Staged(BLANK, items, w.next), |items|)
  }

  function StepUpdate(w: World, id: nat, entries: seq<Entry>): World {
    if Outbound(w, id) then Put(w, id, Reconciled(w.messages[id], entries, w.next), |NewItems(entries)|) else w
  }

  function StepForward(w: World, source: nat, id: nat): World {
    if id in w.messages || source !in w.messages then w
    else Put(w, id, Forwarded(w.messages[source], w.next), |w.messages[source].rows|)
  }

  function StepMaterialize(w: World, id: nat, refused: set<nat>): World {
    if Outbound(w, id) then Put(w, id, Prepared(w.messages[id], refused), 0) else w
  }

  function Step(w: World, e: Event): World {
    match e
    case Receive(id, body, rows) => StepReceive(w, id, body, rows)
    case Create(id, items) => StepCreate(w, id, items)
    case UpdateDraft(id, entries) => StepUpdate(w, id, entries)
    case Forward(source, id) => StepForward(w, source, id)
    case Materialize(id, refused) => StepMaterialize(w, id, refused)
  }

  function Run(w: World, es: seq<Event>): World
    decreases |es|
  {
    if es == [] then w else Run(Step(w, es[0]), es[1..])
  }

  // ---- Sizes ----

  /** What was staged is worth what it decodes to. */
  predicate RowOk(r: Row) {
    Waiting(r) ==> r.size == DecodedLength(r.pending)
  }

  predicate Accurate(m: Message) {
    && m.size == m.body + Sum(m.rows)
    && (m.hasAttachments <==> m.rows != [])
    && (forall i :: 0 <= i < |m.rows| ==> RowOk(m.rows[i]))
  }

  /** Row ids are distinct within a message and below `next`. */
  predicate Numbered(rows: seq<Row>, next: nat) {
    && (forall i :: 0 <= i < |rows| ==> rows[i].id < next)
    && (forall i, j :: 0 <= i < j < |rows| ==> rows[i].id != rows[j].id)
  }

  ghost predicate AllAccurate(w: World) {
    forall id :: id in w.messages ==> Accurate(w.messages[id])
  }

  ghost predicate AllNumbered(w: World) {
    forall id :: id in w.messages ==> Numbered(w.messages[id].rows, w.next)
  }

  lemma {:induction false} SumAppend(a: seq<Row>, b: seq<Row>)
    ensures Sum(a + b) == Sum(a) + Sum(b)
  {
    if b == [] {
      assert a + b == a;
    } else {
      assert (a + b)[..|a + b| - 1] == a + b[..|b| - 1];
      SumAppend(a, b[..|b| - 1]);
    }
  }

  lemma {:induction false} KeptRows(rows: seq<Row>, ids: set<nat>)
    ensures forall r :: r in Kept(rows, ids) <==> r in rows && r.id in ids
  {
    if rows == [] {
    } else {
      assert rows == rows[..|rows| - 1] + [rows[|rows| - 1]];
      KeptRows(rows[..|rows| - 1], ids);
    }
  }

  lemma NumberedWith(kept: seq<Row>, r: Row, next: nat)
    requires Numbered(kept, next) && r.id < next && forall x :: x in kept ==> x.id != r.id
    ensures Numbered(kept + [r], next)
  {
    assert forall i :: 0 <= i < |kept| ==> kept[i] in kept;
  }

  lemma {:induction false} KeptNumbered(rows: seq<Row>, ids: set<nat>, next: nat)
    requires Numbered(rows, next)
    ensures Numbered(Kept(rows, ids), next)
  {
    if rows == [] {
    } else {
      var n := |rows| - 1;
      KeptNumbered(rows[..n], ids, next);
      KeptRows(rows[..n], ids);
      if rows[n].id in ids {
        NumberedWith(Kept(rows[..n], ids), rows[n], next);
      } else {
        assert Kept(rows, ids) == Kept(rows[..n], ids);
      }
    }
  }

  lemma NumberedOn(a: seq<Row>, b: seq<Row>, next: nat)
    requires Numbered(a, next) && forall i :: 0 <= i < |b| ==> b[i].id == next + i
    ensures Numbered(a + b, next + |b|)
  {
  }

  lemma StagedAccurate(m: Message, items: seq<Item>, next: nat)
    requires Accurate(m)
    ensures Accurate(Staged(m, items, next))
  {
    SumAppend(m.rows, NewRows(items, next));
  }

  lemma ReconciledAccurate(m: Message, entries: seq<Entry>, next: nat)
    requires Accurate(m)
    ensures Accurate(Reconciled(m, entries, next))
  {
    var kept := Kept(m.rows, KeepIds(entries));
    KeptRows(m.rows, KeepIds(entries));
    forall i | 0 <= i < |kept| ensures RowOk(kept[i]) { assert kept[i] in m.rows; }
    StagedAccurate(Message(kept, kept != [], Sum(kept), 0), NewItems(entries), next);
  }

  /** A draft update leaves exactly the referenced rows, untouched, followed by a new row for each new item. */
  lemma UpdateIsExact(m: Message, entries: seq<Entry>, next: nat, r: Row)
    requires Numbered(m.rows, next)
    ensures r.id < next ==> (r in Reconciled(m, entries, next).rows <==> r in m.rows && Keep(r.id) in entries)
    ensures r.id >= next ==>
      (r in Reconciled(m, entries, next).rows <==>
       r.id < next + |NewItems(entries)| && r == NewRow(NewItems(entries)[r.id - next], r.id))
  {
    KeptRows(m.rows, KeepIds(entries));
    NewRowsExact(NewItems(entries), next, r);
    assert Reconciled(m, entries, next).rows == Kept(m.rows, KeepIds(entries)) + NewRows(NewItems(entries), next);
  }

  lemma NewRowsExact(items: seq<Item>, next: nat, r: Row)
    ensures r in NewRows(items, next) <==>
      next <= r.id < next + |items| && r == NewRow(items[r.id - next], r.id)
  {
    var news := NewRows(items, next);
    if next <= r.id < next + |items| { assert news[r.id - next] in news; }
  }

  /** The new items of an update are those of its additions, in their order. */
  lemma {:induction false} ItemsInOrder(a: seq<Entry>, b: seq<Entry>, item: Item, id: nat)
    ensures NewItems(a + b) == NewItems(a) + NewItems(b)
    ensures NewItems([Add(item)]) == [item] && NewItems([Keep(id)]) == []
  {
    assert [Add(item)][..0] == [] && [Keep(id)][..0] == [];
    if b == [] {
      assert a + b == a;
    } else {
      assert (a + b)[..|a + b| - 1] == a + b[..|b| - 1];
      ItemsInOrder(a, b[..|b| - 1], item, id);
    }
  }

  // ---- Two updates of one draft at once ----

  /** Each update keeps the rows of a set of ids and adds rows. The second reads the rows it keeps before the first has
      committed, and writes last: the rows are what both leave, size and flag are the second's own. */
  function Overlapped(rows: seq<Row>, first: set<nat>, a: seq<Row>, second: set<nat>, b: seq<Row>): Message {
    Message(Kept(Kept(rows, first), second) + (a + b), Kept(rows, second) != [] || b != [],
            Sum(Kept(rows, second)) + Sum(b), 0)
  }

  /** The rows only the first update drops. */
  function Dropped(rows: seq<Row>, first: set<nat>, second: set<nat>): seq<Row> {
    if rows == [] then []
    else
      var r := rows[|rows| - 1];
      Dropped(rows[..|rows| - 1], first, second) + if r.id in second && r.id !in first then [r] else []
  }

  lemma {:induction false} KeptInParts(rows: seq<Row>, first: set<nat>, second: set<nat>)
    ensures Sum(Kept(rows, second)) == Sum(Kept(Kept(rows, first), second)) + Sum(Dropped(rows, first, second))
  {
    if rows == [] {
    } else {
      var before, r := rows[..|rows| - 1], rows[|rows| - 1];
      KeptInParts(before, first, second);
      KeptLast(rows, second);
      KeptLast(Kept(before, first) + [r], second);
      assert (Kept(before, first) + [r])[..|Kept(before, first)|] == Kept(before, first);
      SumLast(Dropped(before, first, second), r);
      if r.id !in first { assert Kept(rows, first) == Kept(before, first); }
      if !(r.id in second && r.id !in first) { assert Dropped(rows, first, second) == Dropped(before, first, second); }
    }
  }

  lemma SumLast(rows: seq<Row>, r: Row)
    ensures Sum(rows + [r]) == Sum(rows) + r.size
  {
    assert (rows + [r])[..|rows|] == rows;
  }

  lemma KeptLast(rows: seq<Row>, ids: set<nat>)
    requires rows != []
    ensures var before, r := rows[..|rows| - 1], rows[|rows| - 1];
      Sum(Kept(rows, ids)) == Sum(Kept(before, ids)) + if r.id in ids then r.size else 0
  {
    var before, r := rows[..|rows| - 1], rows[|rows| - 1];
    SumLast(Kept(before, ids), r);
    if r.id !in ids { assert Kept(rows, ids) == Kept(before, ids); }
  }

  /** Size and flag are what the second update writes on its own. */
  lemma SecondWritesItsOwn(m: Message, first: set<nat>, a: seq<Row>, second: seq<Entry>, next: nat)
    ensures var alone := Reconciled(m, second, next);
      var t := Overlapped(m.rows, first, a, KeepIds(second), NewRows(NewItems(second), next));
      alone.size == t.size && alone.hasAttachments == t.hasAttachments
  {
    assert NewItems(second) == [] ==> Sum(NewRows(NewItems(second), next)) == 0;
  }

  lemma SumThree(a: seq<Row>, b: seq<Row>, c: seq<Row>)
    ensures Sum(a + (b + c)) == Sum(a) + Sum(b) + Sum(c)
  {
    SumAppend(a, b + c);
    SumAppend(b, c);
  }

  /** Two overlapping updates leave the size right exactly if what the first alone drops weighs what it adds: the second
      counts the former and misses the latter. */
  lemma OverlapIff(rows: seq<Row>, first: set<nat>, a: seq<Row>, second: set<nat>, b: seq<Row>)
    ensures var t := Overlapped(rows, first, a, second, b);
      t.size == Sum(t.rows) <==> Sum(Dropped(rows, first, second)) == Sum(a)
  {
    SumThree(Kept(Kept(rows, first), second), a, b);
    KeptInParts(rows, first, second);
  }

  /** Two devices that each add an attachment to an empty draft: the size is that of the second alone. */
  lemma TwoAddsLoseASize(a: Row, b: Row)
    requires a.size > 0
    ensures var t := Overlapped([], {}, [a], {}, [b]);
      |t.rows| == 2 && t.size == b.size && t.size != Sum(t.rows)
  {
    OverlapIff([], {}, [a], {}, [b]);
    SumLast([], a);
    SumLast([], b);
    assert [] + [a] == [a] && [] + [b] == [b];
  }

  // ---- Uploading ----

  lemma FirstUploads(r: Row, rest: seq<Row>, refused: set<nat>)
    ensures AllUpload([r] + rest, refused) <==> Uploads(r, refused) && AllUpload(rest, refused)
  {
    var rows := [r] + rest;
    if AllUpload(rows, refused) {
      assert rows[0] == r;
      forall i | 0 <= i < |rest| ensures Uploads(rest[i], refused) { assert rest[i] == rows[i + 1]; }
    }
  }

  lemma {:induction false} MaterializedRows(rows: seq<Row>, refused: set<nat>, i: nat)
    requires i < |rows|
    ensures |Materialized(rows, refused)| == |rows|
    ensures Materialized(rows, refused)[i] == if AllUpload(rows[..i + 1], refused) then Uploaded(rows[i]) else rows[i]
  {
    if !Uploads(rows[0], refused) {
      assert !Uploads(rows[..i + 1][0], refused);
    } else if i == 0 {
      assert rows[..1] == [rows[0]];
      if |rows| > 1 { MaterializedRows(rows[1..], refused, 0); }
    } else {
      MaterializedRows(rows[1..], refused, i - 1);
      assert rows[..i + 1] == [rows[0]] + rows[1..][..i];
      FirstUploads(rows[0], rows[1..][..i], refused);
    }
  }

  lemma {:induction false} SameSizesSameSum(a: seq<Row>, b: seq<Row>)
    requires |a| == |b| && forall i :: 0 <= i < |a| ==> a[i].size == b[i].size
    ensures Sum(a) == Sum(b)
  {
    if a == [] {
    } else {
      SameSizesSameSum(a[..|a| - 1], b[..|b| - 1]);
    }
  }

  /** The row needs no upload, or has well-formed content that storage takes. */
  predicate Storable(r: Row, refused: set<nat>) {
    r.pending == Absent || r.file.Some? || (r.pending.WellFormed? && r.id !in refused)
  }

  /** Uploading succeeds exactly if every row can be stored; then each row that had content and no object has an object
      of its own and the size of its content. Otherwise that holds up to the first row that cannot, and the rest is as
      it was. */
  lemma UploadStores(rows: seq<Row>, refused: set<nat>, i: nat)
    requires i < |rows|
    ensures AllUpload(rows, refused) <==> forall k :: 0 <= k < |rows| ==> Storable(rows[k], refused)
    ensures |Materialized(rows, refused)| == |rows|
    ensures var r, r' := rows[i], Materialized(rows, refused)[i];
      if (forall k :: 0 <= k <= i ==> Storable(rows[k], refused)) && r.pending != Absent && r.file == None
      then r.pending.WellFormed? && r' == Row(r.id, r.name, r.pending.length, Absent, Some(r.id))
      else r' == r
  {
    MaterializedRows(rows, refused, i);
    assert forall k :: 0 <= k < |rows| ==> (Uploads(rows[k], refused) <==> Storable(rows[k], refused));
    assert forall k :: 0 <= k <= i ==> rows[..i + 1][k] == rows[k];
  }

  /** Uploading never changes a size or an id, wherever it stops. */
  lemma UploadKeepsSizes(rows: seq<Row>, refused: set<nat>)
    requires forall i :: 0 <= i < |rows| ==> RowOk(rows[i])
    ensures var rows' := Materialized(rows, refused);
      && |rows'| == |rows|
      && (forall i :: 0 <= i < |rows| ==>
            rows'[i].size == rows[i].size && rows'[i].id == rows[i].id && RowOk(rows'[i]))
  {
    forall i | 0 <= i < |rows|
      ensures |Materialized(rows, refused)| == |rows|
      ensures var r := Materialized(rows, refused)[i]; r.size == rows[i].size && r.id == rows[i].id && RowOk(r)
    {
      MaterializedRows(rows, refused, i);
    }
  }

  lemma PreparedAccurate(m: Message, refused: set<nat>)
    requires Accurate(m) && m.body == 0
    ensures Accurate(Prepared(m, refused)) && Prepared(m, refused).size == m.size
  {
    UploadKeepsSizes(m.rows, refused);
    SameSizesSameSum(m.rows, Materialized(m.rows, refused));
  }

  /** However often uploading was interrupted, a try that gets through leaves the rows one clean try would have left. */
  lemma {:induction false} RetryConverges(rows: seq<Row>, first: set<nat>, second: set<nat>)
    requires AllUpload(Materialized(rows, first), second)
    ensures Materialized(Materialized(rows, first), second) == Materialized(rows, {})
  {
    if rows == [] {
    } else {
      var once := Materialized(rows, first);
      assert Uploads(once[0], second);
      if Uploads(rows[0], first) {
        assert once[1..] == Materialized(rows[1..], first);
        TailUploads(once, second);
        RetryConverges(rows[1..], first, second);
      } else {
        CleanTry(rows, second);
      }
    }
  }

  lemma {:induction false} CleanTry(rows: seq<Row>, refused: set<nat>)
    requires AllUpload(rows, refused)
    ensures Materialized(rows, refused) == Materialized(rows, {})
  {
    if rows == [] {
    } else {
      TailUploads(rows, refused);
      CleanTry(rows[1..], refused);
    }
  }

  /** A forward of an accurate message carries all its attachments, and nothing else counts towards its size. */
  lemma ForwardCarriesAll(m: Message, next: nat)
    requires Accurate(m)
    ensures Forwarded(m, next) == Message(CopyRows(m.rows, next), m.rows != [], Sum(m.rows), 0)
    ensures var rows := Forwarded(m, next).rows;
      |rows| == |m.rows| && forall i :: 0 <= i < |rows| ==>
        && rows[i].name == m.rows[i].name && rows[i].size == m.rows[i].size && rows[i].file == m.rows[i].file
        && rows[i].id == next + i
  {
    SameSizesSameSum(m.rows, CopyRows(m.rows, next));
  }

  lemma ForwardedAccurate(m: Message, next: nat)
    requires Accurate(m)
    ensures Accurate(Forwarded(m, next))
  {
    ForwardCarriesAll(m, next);
    SameSizesSameSum(m.rows, CopyRows(m.rows, next));
  }

  lemma ReceivedAccurate(body: nat, rows: seq<Row>, next: nat)
    ensures Accurate(Received(body, rows, next))
  {
  }

  lemma PutAccurate(w: World, id: nat, m: Message, count: nat)
    requires AllAccurate(w) && Accurate(m)
    ensures AllAccurate(Put(w, id, m, count))
  {
  }

  lemma AccurateReceive(w: World, id: nat, body: nat, rows: seq<Row>)
    requires AllAccurate(w)
    ensures AllAccurate(StepReceive(w, id, body, rows))
  {
    ReceivedAccurate(body, rows, w.next);
    PutAccurate(w, id, Received(body, rows, w.next), |rows|);
  }

  lemma ComposedAccurate(items: seq<Item>, next: nat)
    ensures Accurate(Staged(BLANK, items, next))
  {
    StagedAccurate(BLANK, items, next);
  }

  lemma AccurateCreate(w: World, id: nat, items: seq<Item>)
    requires AllAccurate(w)
    ensures AllAccurate(StepCreate(w, id, items))
  {
    if id !in w.messages {
      ComposedAccurate(items, w.next);
      PutAccurate(w, id, Staged(BLANK, items, w.next), |items|);
    }
  }

  lemma AccurateUpdate(w: World, id: nat, entries: seq<Entry>)
    requires AllAccurate(w)
    ensures AllAccurate(StepUpdate(w, id, entries))
  {
    if Outbound(w, id) {
      ReconciledAccurate(w.messages[id], entries, w.next);
      PutAccurate(w, id, Reconciled(w.messages[id], entries, w.next), |NewItems(entries)|);
    }
  }

  lemma AccurateForward(w: World, source: nat, id: nat)
    requires AllAccurate(w)
    ensures AllAccurate(StepForward(w, source, id))
  {
    if source in w.messages && id !in w.messages {
      ForwardedAccurate(w.messages[source], w.next);
      PutAccurate(w, id, Forwarded(w.messages[source], w.next), |w.messages[source].rows|);
    }
  }

  lemma AccurateMaterialize(w: World, id: nat, refused: set<nat>)
    requires AllAccurate(w)
    ensures AllAccurate(StepMaterialize(w, id, refused))
  {
    if Outbound(w, id) {
      PreparedAccurate(w.messages[id], refused);
      PutAccurate(w, id, Prepared(w.messages[id], refused), 0);
    }
  }

  lemma AccurateStep(w: World, e: Event)
    requires AllAccurate(w)
    ensures AllAccurate(Step(w, e))
  {
    match e
    case Receive(id, body, rows) => AccurateReceive(w, id, body, rows);
    case Create(id, items) => AccurateCreate(w, id, items);
    case UpdateDraft(id, entries) => AccurateUpdate(w, id, entries);
    case Forward(source, id) => AccurateForward(w, source, id);
    case Materialize(id, refused) => AccurateMaterialize(w, id, refused);
  }

  lemma {:induction false} AccurateRun(w: World, es: seq<Event>)
    requires AllAccurate(w)
    ensures AllAccurate(Run(w, es))
    decreases |es|
  {
    if es == [] {
    } else {
      AccurateStep(w, es[0]);
      AccurateRun(Step(w, es[0]), es[1..]);
    }
  }

  /** In every run of receiving, composing, draft updates, forwards and uploads that may break off anywhere: a message's
      size is its own plus that of its rows, and it is flagged exactly if it has one. */
  lemma SizeIsTheSum(es: seq<Event>, id: nat)
    requires id in Run(World(map[], 0), es).messages
    ensures var m := Run(World(map[], 0), es).messages[id];
      m.size == m.body + Sum(m.rows) && (m.hasAttachments <==> m.rows != [])
  {
    AccurateRun(World(map[], 0), es);
  }

  /** A received message and its forward: each has a row for every attachment, the forward under new ids; the text
      weighs only in the first. */
  lemma ReceivedAndForwarded(body: nat, rows: seq<Row>)
    ensures var w := Run(World(map[], 0), [Receive(0, body, rows), Forward(0, 1)]);
      && w.messages.Keys == {0, 1} && w.next == 2 * |rows|
      && w.messages[0] == Message(CopyRows(rows, 0), rows != [], body + Sum(rows), body)
      && w.messages[1].size == Sum(rows) && |w.messages[1].rows| == |rows|
      && forall i :: 0 <= i < |rows| ==>
           w.messages[1].rows[i] == Row(|rows| + i, rows[i].name, rows[i].size, Absent, rows[i].file)
  {
    var es := [Receive(0, body, rows), Forward(0, 1)];
    var w := Step(World(map[], 0), es[0]);
    assert es[1..] == [es[1]] && [es[1]][1..] == [];
    assert Run(w, [es[1]]) == Run(Step(w, es[1]), []);
    SameSizesSameSum(rows, CopyRows(rows, 0));
    ReceivedAccurate(body, rows, 0);
    ForwardCarriesAll(w.messages[0], |rows|);
  }

  // ---- Row ids ----

  lemma ReconciledNumbered(m: Message, entries: seq<Entry>, next: nat)
    requires Numbered(m.rows, next)
    ensures Numbered(Reconciled(m, entries, next).rows, next + |NewItems(entries)|)
  {
    KeptNumbered(m.rows, KeepIds(entries), next);
    NumberedOn(Kept(m.rows, KeepIds(entries)), NewRows(NewItems(entries), next), next);
  }

  lemma PreparedNumbered(rows: seq<Row>, refused: set<nat>, next: nat)
    requires Numbered(rows, next)
    ensures Numbered(Materialized(rows, refused), next)
  {
    forall i | 0 <= i < |rows|
      ensures |Materialized(rows, refused)| == |rows| && Materialized(rows, refused)[i].id == rows[i].id
    {
      MaterializedRows(rows, refused, i);
    }
  }

  lemma PutNumbered(w: World, id: nat, m: Message, count: nat)
    requires AllNumbered(w) && Numbered(m.rows, w.next + count)
    ensures AllNumbered(Put(w, id, m, count))
  {
  }

  lemma NumberedNew(w: World, id: nat, body: nat, rows: seq<Row>, items: seq<Item>)
    requires AllNumbered(w)
    ensures AllNumbered(StepReceive(w, id, body, rows)) && AllNumbered(StepCreate(w, id, items))
  {
    PutNumbered(w, id, Received(body, rows, w.next), |rows|);
    PutNumbered(w, id, Staged(BLANK, items, w.next), |items|);
  }

  lemma NumberedUpdate(w: World, id: nat, entries: seq<Entry>)
    requires AllNumbered(w)
    ensures AllNumbered(StepUpdate(w, id, entries))
  {
    if Outbound(w, id) {
      ReconciledNumbered(w.messages[id], entries, w.next);
      PutNumbered(w, id, Reconciled(w.messages[id], entries, w.next), |NewItems(entries)|);
    }
  }

  lemma NumberedForward(w: World, source: nat, id: nat)
    requires AllNumbered(w)
    ensures AllNumbered(StepForward(w, source, id))
  {
    if source in w.messages && id !in w.messages {
      PutNumbered(w, id, Forwarded(w.messages[source], w.next), |w.messages[source].rows|);
    }
  }

  lemma NumberedMaterialize(w: World, id: nat, refused: set<nat>)
    requires AllNumbered(w)
    ensures AllNumbered(StepMaterialize(w, id, refused))
  {
    if Outbound(w, id) {
      PreparedNumbered(w.messages[id].rows, refused, w.next);
      PutNumbered(w, id, Prepared(w.messages[id], refused), 0);
    }
  }

  lemma NumberedStep(w: World, e: Event)
    requires AllNumbered(w)
    ensures AllNumbered(Step(w, e))
  {
    match e
    case Receive(id, body, rows) => NumberedNew(w, id, body, rows, []);
    case Create(id, items) => NumberedNew(w, id, 0, [], items);
    case UpdateDraft(id, entries) => NumberedUpdate(w, id, entries);
    case Forward(source, id) => NumberedForward(w, source, id);
    case Materialize(id, refused) => NumberedMaterialize(w, id, refused);
  }

  lemma {:induction false} NumberedRun(w: World, es: seq<Event>)
    requires AllNumbered(w)
    ensures AllNumbered(Run(w, es))
    decreases |es|
  {
    if es == [] {
    } else {
      NumberedStep(w, es[0]);
      NumberedRun(Step(w, es[0]), es[1..]);
    }
  }

  /** In every run: two rows of one message never share an id, so a referenced id keeps one row. */
  lemma IdsStayDistinct(es: seq<Event>, id: nat, i: nat, j: nat)
    requires id in Run(World(map[], 0), es).messages && i < j < |Run(World(map[], 0), es).messages[id].rows|
    ensures var rows := Run(World(map[], 0), es).messages[id].rows; rows[i].id != rows[j].id
  {
    NumberedRun(World(map[], 0), es);
  }

  lemma NewRowsOn(items: seq<Item>, i: nat, next: nat)
    requires i < |items|
    ensures NewRows(items[..i + 1], next) == NewRows(items[..i], next) + [NewRow(items[i], next + i)]
    ensures Sum(NewRows(items[..i + 1], next)) == Sum(NewRows(items[..i], next)) + DecodedLength(items[i].content)
  {
    assert items[..i + 1][..i] == items[..i];
    var rows := NewRows(items[..i], next);
    assert (rows + [NewRow(items[i], next + i)])[..i] == rows;
  }

  lemma KeptOn(rows: seq<Row>, ids: set<nat>, i: nat)
    requires i < |rows|
    ensures Kept(rows[..i + 1], ids) == Kept(rows[..i], ids) + if rows[i].id in ids then [rows[i]] else []
    ensures Sum(Kept(rows[..i + 1], ids)) == Sum(Kept(rows[..i], ids)) + if rows[i].id in ids then rows[i].size else 0
  {
    assert rows[..i + 1][..i] == rows[..i];
    var kept := Kept(rows[..i], ids);
    if rows[i].id in ids { assert (kept + [rows[i]])[..|kept|] == kept; } else { assert kept + [] == kept; }
  }

  // ---- The methods ----

  class Attachments {
    var messages: map<nat, Message>
    var next: nat

    constructor ()
      ensures State() == World(map[], 0)
    {
      messages, next := map[], 0;
    }

    function State(): World
      reads this
    {
      World(messages, next)
    }

    method CreateRows(items: seq<Item>, first: nat) returns (rows: seq<Row>, total: nat)
      ensures rows == NewRows(items, first) && total == Sum(rows)
    {
      rows, total := [], 0;
      for i := 0 to |items|
        invariant rows == NewRows(items[..i], first) && total == Sum(rows)
      {
        NewRowsOn(items, i, first);
        var name := if items[i].name == "" then "attachment" else items[i].name;
        var size := DecodedLength(items[i].content);
        rows := rows + [Row(first + i, name, size, items[i].content, None)];
        total := total + size;
      }
      assert items[..|items|] == items;
    }

    method Stage(id: nat, items: seq<Item>)
      requires id in messages
      modifies this
      ensures State() == Put(old(State()), id, Staged(old(messages)[id], items, old(next)), |items|)
    {
      if items == [] {
        assert messages == messages[id := messages[id]];
        return;
      }
      var rows, total := CreateRows(items, next);
      var m := messages[id];
      messages := messages[id := m.(rows := m.rows + rows, hasAttachments := true, size := m.size + total)];
      next := next + |items|;
    }

    method SplitEntries(entries: seq<Entry>) returns (keep: set<nat>, items: seq<Item>)
      ensures keep == KeepIds(entries) && items == NewItems(entries)
    {
      keep, items := {}, [];
      for i := 0 to |entries|
        invariant keep == KeepIds(entries[..i]) && items == NewItems(entries[..i])
      {
        assert entries[..i + 1][..i] == entries[..i];
        assert entries[..i + 1] == entries[..i] + [entries[i]];
        match entries[i]
        case Keep(row) => keep := keep + {row};
        case Add(item) => items := items + [item];
      }
      assert entries[..|entries|] == entries;
    }

    method Survivors(rows: seq<Row>, keep: set<nat>) returns (kept: seq<Row>, size: nat)
      ensures kept == Kept(rows, keep) && size == Sum(kept)
    {
      kept, size := [], 0;
      for i := 0 to |rows|
        invariant kept == Kept(rows[..i], keep) && size == Sum(kept)
      {
        KeptOn(rows, keep, i);
        if rows[i].id in keep {
          kept, size := kept + [rows[i]], size + rows[i].size;
        }
      }
      assert rows[..|rows|] == rows;
    }

    method Reconcile(id: nat, entries: seq<Entry>)
      requires id in messages
      modifies this
      ensures State() == Put(old(State()), id, Reconciled(old(messages)[id], entries, old(next)), |NewItems(entries)|)
    {
      var keep, items := SplitEntries(entries);
      var kept, size := Survivors(messages[id].rows, keep);
      messages := messages[id := Message(kept, kept != [], size, 0)];
      Stage(id, items);
    }

    method Copy(source: nat, id: nat)
      requires source in messages && id in messages && messages[id] == BLANK
      modifies this
      ensures var m := Forwarded(old(messages)[source], old(next));
        State() == Put(old(State()), id, m, |m.rows|)
    {
      if !messages[source].hasAttachments {
        assert messages == messages[id := BLANK];
        return;
      }
      var rows, m := messages[source].rows, messages[id];
      var total, copied := m.size, false;
      ghost var copies := CopyRows(rows, next);
      for i := 0 to |rows|
        invariant next == old(next) + i && messages == old(messages)
        invariant m == BLANK.(rows := copies[..i]) && total == Sum(copies[..i]) && (copied <==> i > 0)
      {
        assert copies[..i + 1][..i] == copies[..i];
        m := m.(rows := m.rows + [CopyRow(rows[i], next)]);
        next, total, copied := next + 1, total + rows[i].size, true;
      }
      assert copies[..|rows|] == copies;
      if copied {
        m := m.(hasAttachments := true, size := total);
      }
      messages := messages[id := m];
    }

    /** materialize_attachments: false is the TransientSendError raised at the first row that cannot be stored. */
    method MaterializeAll(id: nat, refused: set<nat>) returns (ok: bool)
      requires id in messages
      modifies this`messages
      ensures ok <==> AllUpload(old(messages)[id].rows, refused)
      ensures messages == old(messages)[id := Prepared(old(messages)[id], refused)]
    {
      var m := messages[id];
      var rows, total: nat := m.rows, 0;
      for i := 0 to |m.rows|
        invariant messages == old(messages)[id := m.(rows := rows)]
        invariant Progress(m.rows, refused, i, rows, total)
      {
        var r := rows[i];
        if Waiting(r) && !(r.pending.WellFormed? && r.id !in refused) {
          StopsHere(m.rows, refused, i);
          return false;
        }
        ProgressOn(m.rows, refused, i, rows, total);
        if Waiting(r) {
          r := r.(size := r.pending.length, pending := Absent, file := Some(r.id));
        }
        rows := rows[i := r];
        messages := messages[id := m.(rows := rows)];
        total := total + r.size;
      }
      assert m.rows[..|m.rows|] == m.rows && rows[..|rows|] == rows;
      if rows != [] {
        messages := messages[id := m.(rows := rows, size := total)];
      }
      ok := true;
    }
  }

  /** The first i rows have been uploaded, the others are as they were. */
  ghost predicate Progress(all: seq<Row>, refused: set<nat>, i: nat, rows: seq<Row>, total: nat) {
    && i <= |all| == |rows| && AllUpload(all[..i], refused)
    && rows == Materialized(all[..i], refused) + all[i..]
    && |Materialized(all[..i], refused)| == i
    && total == Sum(rows[..i])
  }

  lemma ProgressOn(all: seq<Row>, refused: set<nat>, i: nat, rows: seq<Row>, total: nat)
    requires i < |all| && Progress(all, refused, i, rows, total) && Uploads(rows[i], refused)
    ensures rows[i] == all[i]
    ensures Progress(all, refused, i + 1, rows[i := Uploaded(all[i])], total + Uploaded(all[i]).size)
  {
    GoesOn(all, refused, i);
    var r := Uploaded(all[i]);
    Replaced(Materialized(all[..i], refused), all[i..], r);
    assert all[i..][1..] == all[i + 1..];
    assert rows[i := r][..i + 1][..i] == rows[..i];
  }

  lemma Replaced(done: seq<Row>, rest: seq<Row>, r: Row)
    requires rest != []
    ensures (done + rest)[|done| := r] == done + [r] + rest[1..]
  {
    var a, b := (done + rest)[|done| := r], done + [r] + rest[1..];
    forall k | 0 <= k < |a| ensures a[k] == b[k] {
      if k > |done| { assert b[k] == rest[1..][k - |done| - 1]; }
    }
  }

  lemma TailOfPrefix(rows: seq<Row>, i: nat)
    requires 0 < i <= |rows|
    ensures rows[..i][1..] == rows[1..][..i - 1]
  {
    var a, b := rows[..i][1..], rows[1..][..i - 1];
    forall k | 0 <= k < i - 1 ensures a[k] == b[k] {
      assert a[k] == rows[k + 1];
    }
  }

  lemma TailUploads(rows: seq<Row>, refused: set<nat>)
    requires rows != [] && AllUpload(rows, refused)
    ensures AllUpload(rows[1..], refused)
  {
    var rest := rows[1..];
    forall k | 0 <= k < |rest| ensures Uploads(rest[k], refused) { assert rest[k] == rows[k + 1]; }
  }

  lemma {:induction false} StopsHere(rows: seq<Row>, refused: set<nat>, i: nat)
    requires i < |rows| && AllUpload(rows[..i], refused) && !Uploads(rows[i], refused)
    ensures Materialized(rows, refused) == Materialized(rows[..i], refused) + rows[i..]
  {
    if i == 0 {
    } else {
      assert Uploads(rows[..i][0], refused);
      TailOfPrefix(rows, i);
      TailUploads(rows[..i], refused);
      StopsHere(rows[1..], refused, i - 1);
    }
  }

  lemma {:induction false} GoesOn(rows: seq<Row>, refused: set<nat>, i: nat)
    requires i < |rows| && AllUpload(rows[..i], refused) && Uploads(rows[i], refused)
    ensures AllUpload(rows[..i + 1], refused)
    ensures Materialized(rows[..i + 1], refused) == Materialized(rows[..i], refused) + [Uploaded(rows[i])]
  {
    assert rows[..i + 1] == rows[..i] + [rows[i]];
    if i == 0 {
    } else {
      assert Uploads(rows[..i][0], refused);
      TailOfPrefix(rows, i);
      TailOfPrefix(rows, i + 1);
      TailUploads(rows[..i], refused);
      GoesOn(rows[1..], refused, i - 1);
    }
  }
}

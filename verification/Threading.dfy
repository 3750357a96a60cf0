/** Grouping mail into threads: a chosen thread, then header ids (section 3.6.4 of RFC 5322), then the subject. */
module Threading {
  import opened Types
  import opened Subject

  /** `references` is the set of words of the References header, `addresses` the sender and every recipient;
      an absent header is "". `thread` is the one the caller chose, if any. */
  datatype Mail = Mail(
    rfcId: string,
    inReplyTo: string,
    references: set<string>,
    subject: string,
    addresses: set<string>,
    inbound: bool,
    occurredAt: nat,
    thread: Option<nat>)

  datatype Thread = Thread(
    normalized: string,
    root: string,
    participants: set<string>,
    count: nat,
    unread: bool,
    lastAt: nat)

  datatype Post = Post(mail: Mail, thread: nat)

  /** One mailbox. A thread's id is its index. */
  datatype Box = Box(threads: seq<Thread>, posts: seq<Post>)

  function Cited(m: Mail): set<string> {
    (m.references + {m.inReplyTo}) - {""}
  }

  // ---- The lookups ----

  datatype Query = ByRoot(ids: set<string>) | ByMember(ids: set<string>) | BySubject(normalized: string)

  predicate Contains(posts: seq<Post>, t: nat, ids: set<string>) {
    exists k :: 0 <= k < |posts| && posts[k].thread == t && posts[k].mail.rfcId in ids
  }

  predicate Matches(b: Box, q: Query, t: nat)
    requires t < |b.threads|
  {
    match q
    case ByRoot(ids) => b.threads[t].root in ids
    case ByMember(ids) => Contains(b.posts, t, ids)
    case BySubject(normalized) => b.threads[t].normalized == normalized && normalized != ""
  }

  /** A matching thread with the latest last_message_at, whichever the database returns first among equals. */
  predicate Answers(b: Box, q: Query, answer: Option<nat>) {
    match answer
    case None => forall t :: 0 <= t < |b.threads| ==> !Matches(b, q, t)
    case Some(t) =>
      && t < |b.threads| && Matches(b, q, t)
      && forall u :: 0 <= u < |b.threads| && Matches(b, q, u) ==> b.threads[u].lastAt <= b.threads[t].lastAt
  }

  predicate Finds(b: Box, m: Mail, answer: Option<nat>) {
    if m.thread.Some? then answer == m.thread && m.thread.value < |b.threads|
    else if answer.Some? && Answers(b, ByRoot(Cited(m)), answer) then true
    else
      && Answers(b, ByRoot(Cited(m)), None)
      && (if answer.Some? && Answers(b, ByMember(Cited(m)), answer) then true
          else Answers(b, ByMember(Cited(m)), None) && Answers(b, BySubject(Normalize(m.subject)), answer))
  }

  predicate Cites(m: Mail, id: string) {
    id != "" && (id in m.references || id == m.inReplyTo)
  }

  /** The threads rooted at a message that m cites. */
  function CitedRoots(b: Box, m: Mail): set<nat> {
    set t: nat | t < |b.threads| && Cites(m, b.threads[t].root)
  }

  predicate HoldsCited(b: Box, m: Mail, t: nat) {
    exists k :: 0 <= k < |b.posts| && b.posts[k].thread == t && Cites(m, b.posts[k].mail.rfcId)
  }

  /** The threads that hold a message that m cites. */
  function CitedThreads(b: Box, m: Mail): set<nat> {
    set t: nat | t < |b.threads| && HoldsCited(b, m, t)
  }

  /** The threads with the nonempty normalized subject of m. */
  function SubjectThreads(b: Box, m: Mail): set<nat> {
    set t: nat | t < |b.threads| && Normalize(m.subject) != "" && b.threads[t].normalized == Normalize(m.subject)
  }

  /** The answer is one of these threads, none of them with a later message, or None if there is none. */
  predicate Latest(b: Box, candidates: set<nat>, answer: Option<nat>)
    requires forall t :: t in candidates ==> t < |b.threads|
  {
    match answer
    case None => candidates == {}
    case Some(t) => t in candidates && forall u :: u in candidates ==> b.threads[u].lastAt <= b.threads[t].lastAt
  }

  lemma AnswersIff(b: Box, q: Query, candidates: set<nat>, answer: Option<nat>)
    requires forall t: nat :: t in candidates <==> t < |b.threads| && Matches(b, q, t)
    ensures Answers(b, q, answer) <==> Latest(b, candidates, answer)
  {
    if answer.None? && Answers(b, q, answer) {
      assert forall t: nat :: t !in candidates;
    }
  }

  lemma RootsIff(b: Box, m: Mail, answer: Option<nat>)
    ensures Answers(b, ByRoot(Cited(m)), answer) <==> Latest(b, CitedRoots(b, m), answer)
  {
    AnswersIff(b, ByRoot(Cited(m)), CitedRoots(b, m), answer);
  }

  lemma MembersIff(b: Box, m: Mail, answer: Option<nat>)
    ensures Answers(b, ByMember(Cited(m)), answer) <==> Latest(b, CitedThreads(b, m), answer)
  {
    forall t: nat | t < |b.threads| ensures HoldsCited(b, m, t) <==> Matches(b, ByMember(Cited(m)), t) {
      if Matches(b, ByMember(Cited(m)), t) {
        var k :| 0 <= k < |b.posts| && b.posts[k].thread == t && b.posts[k].mail.rfcId in Cited(m);
        assert Cites(m, b.posts[k].mail.rfcId);
      }
    }
    AnswersIff(b, ByMember(Cited(m)), CitedThreads(b, m), answer);
  }

  lemma SubjectsIff(b: Box, m: Mail, answer: Option<nat>)
    ensures Answers(b, BySubject(Normalize(m.subject)), answer) <==> Latest(b, SubjectThreads(b, m), answer)
  {
    AnswersIff(b, BySubject(Normalize(m.subject)), SubjectThreads(b, m), answer);
  }

  /** Where a message goes: into the thread its sender chose; else into the latest of the threads rooted at a message it
      cites; else into the latest that holds one; else into the latest with its subject; else into a new one. */
  lemma FindsIff(b: Box, m: Mail, answer: Option<nat>)
    ensures Finds(b, m, answer) <==>
      if m.thread.Some? then answer == m.thread && m.thread.value < |b.threads|
      else Latest(b, if CitedRoots(b, m) != {} then CitedRoots(b, m)
                     else if CitedThreads(b, m) != {} then CitedThreads(b, m)
                     else SubjectThreads(b, m), answer)
  {
    RootsIff(b, m, answer);
    RootsIff(b, m, None);
    MembersIff(b, m, answer);
    MembersIff(b, m, None);
    SubjectsIff(b, m, answer);
  }

  // ---- The writes ----

  /** What a caller has read before it writes: the thread it found and the row as it was then. */
  datatype Reading = Nothing | Read(id: nat, row: Thread)

  /** A promotion gives the draft in post k its Message-ID and leaves its thread alone. */
  datatype Event = File(mail: Mail, reading: Reading) | SaveDraft(mail: Mail) | Promote(k: nat, rfcId: string)

  function Created(m: Mail): Thread {
    Thread(Normalize(m.subject), m.rfcId, m.addresses, 1, true, m.occurredAt)
  }

  /** The count is raised in the database; every other field is written back from the row that was read. */
  function Rewritten(current: Thread, read: Thread, m: Mail): Thread {
    Thread(current.normalized, if read.root == "" then m.rfcId else read.root, read.participants + m.addresses,
           current.count + 1, read.unread || m.inbound, m.occurredAt)
  }

  function Step(b: Box, e: Event): Box {
    match e
    case File(m, Nothing) => Box(b.threads + [Created(m)], b.posts + [Post(m, |b.threads|)])
    case File(m, Read(id, row)) =>
      if id >= |b.threads| then b
      else Box(b.threads[id := Rewritten(b.threads[id], row, m)], b.posts + [Post(m, id)])
    case SaveDraft(m) =>
      Box(b.threads + [Thread(Normalize(m.subject), "", m.addresses, 1, false, m.occurredAt)],
          b.posts + [Post(m.(rfcId := "", inbound := false), |b.threads|)])
    case Promote(k, rfcId) =>
      if k < |b.posts| && !b.posts[k].mail.inbound && b.posts[k].mail.rfcId == ""
      then b.(posts := b.posts[k := b.posts[k].(mail := b.posts[k].mail.(rfcId := rfcId))]) else b
  }

  function Run(b: Box, es: seq<Event>): Box
    decreases |es|
  {
    if es == [] then b else Run(Step(b, es[0]), es[1..])
  }

  const EMPTY := Box([], [])

  /** The caller reads under the mailbox lock: the row it found is the row as it is now. */
  predicate Locked(b: Box, e: Event) {
    match e
    case File(m, Nothing) => Finds(b, m, None)
    case File(m, Read(id, row)) => Finds(b, m, Some(id)) && id < |b.threads| && row == b.threads[id]
    case SaveDraft(_) => true
    case Promote(_, _) => true
  }

  ghost predicate Serial(b: Box, es: seq<Event>)
    decreases |es|
  {
    es != [] ==> Locked(b, es[0]) && Serial(Step(b, es[0]), es[1..])
  }

  // ---- Counts and participants ----

  function CountIn(posts: seq<Post>, t: nat): nat {
    if posts == [] then 0
    else CountIn(posts[..|posts| - 1], t) + if posts[|posts| - 1].thread == t then 1 else 0
  }

  function AddressesIn(posts: seq<Post>, t: nat): set<string> {
    if posts == [] then {}
    else
      AddressesIn(posts[..|posts| - 1], t)
      + if posts[|posts| - 1].thread == t then posts[|posts| - 1].mail.addresses else {}
  }

  predicate TalliedAt(b: Box, t: nat)
    requires t < |b.threads|
  {
    b.threads[t].count == CountIn(b.posts, t) && b.threads[t].participants == AddressesIn(b.posts, t)
  }

  /** Every message is in a thread, and each thread's count and participants are those of its messages. */
  ghost predicate Tallied(b: Box) {
    && (forall k :: 0 <= k < |b.posts| ==> b.posts[k].thread < |b.threads|)
    && (forall t :: 0 <= t < |b.threads| ==> TalliedAt(b, t))
  }

  /** The caller writes back a participant list that lacks someone added since it read the row. */
  predicate LosesParticipants(b: Box, e: Event) {
    e.File? && e.reading.Read? && e.reading.id < |b.threads|
    && b.threads[e.reading.id].participants + e.mail.addresses != e.reading.row.participants + e.mail.addresses
  }

  lemma Append(posts: seq<Post>, p: Post, t: nat)
    ensures CountIn(posts + [p], t) == CountIn(posts, t) + if p.thread == t then 1 else 0
    ensures AddressesIn(posts + [p], t) == AddressesIn(posts, t) + if p.thread == t then p.mail.addresses else {}
  {
    assert (posts + [p])[..|posts|] == posts;
  }

  lemma {:induction false} NewThreadIsEmpty(posts: seq<Post>, t: nat)
    requires forall k :: 0 <= k < |posts| ==> posts[k].thread < t
    ensures CountIn(posts, t) == 0 && AddressesIn(posts, t) == {}
  {
    if posts == [] {
    } else {
      NewThreadIsEmpty(posts[..|posts| - 1], t);
    }
  }

  /** Counts and participants do not depend on Message-IDs. */
  lemma {:induction false} SameTally(a: seq<Post>, b: seq<Post>, t: nat)
    requires |a| == |b|
    requires forall i :: 0 <= i < |a| ==> a[i].thread == b[i].thread && a[i].mail.addresses == b[i].mail.addresses
    ensures CountIn(a, t) == CountIn(b, t) && AddressesIn(a, t) == AddressesIn(b, t)
  {
    if a == [] {
    } else {
      SameTally(a[..|a| - 1], b[..|b| - 1], t);
    }
  }

  lemma TalliedThread(b: Box, e: Event, t: nat)
    requires Tallied(b) && t < |Step(b, e).threads|
    ensures !LosesParticipants(b, e) ==> TalliedAt(Step(b, e), t)
    ensures LosesParticipants(b, e) && t == e.reading.id ==> !TalliedAt(Step(b, e), t)
  {
    if e.Promote? {
      assert TalliedAt(b, t);
      SameTally(b.posts, Step(b, e).posts, t);
    } else if Step(b, e) != b {
      var b' := Step(b, e);
      var p := b'.posts[|b.posts|];
      assert b'.posts == b.posts + [p];
      Append(b.posts, p, t);
      if t == |b.threads| { NewThreadIsEmpty(b.posts, t); } else { assert TalliedAt(b, t); }
    }
  }

  /** Whatever rows the callers had read, a filing keeps every count and participant list right exactly if it does not
      write back a participant list that someone else has extended meanwhile. Counts are never wrong. */
  lemma TallyIff(b: Box, e: Event)
    requires Tallied(b)
    ensures Tallied(Step(b, e)) <==> !LosesParticipants(b, e)
  {
    forall t | 0 <= t < |Step(b, e).threads|
      ensures !LosesParticipants(b, e) ==> TalliedAt(Step(b, e), t)
    {
      TalliedThread(b, e, t);
    }
    if LosesParticipants(b, e) { TalliedThread(b, e, e.reading.id); }
  }

  /** The caller writes back a thread as read that an inbound message has marked unread meanwhile. */
  predicate LosesUnread(b: Box, e: Event, t: nat) {
    e.File? && e.reading.Read? && e.reading.id == t && !e.reading.row.unread && !e.mail.inbound
  }

  /** Exactly which step takes the unread mark off a thread: none does so on purpose. */
  lemma UnreadIff(b: Box, e: Event, t: nat)
    requires t < |b.threads| && b.threads[t].unread
    ensures t < |Step(b, e).threads| && (Step(b, e).threads[t].unread <==> !LosesUnread(b, e, t))
  {
  }

  /** Under the lock the mark stays. */
  lemma LockedKeepsUnread(b: Box, e: Event, t: nat)
    requires t < |b.threads| && b.threads[t].unread && Locked(b, e)
    ensures t < |Step(b, e).threads| && Step(b, e).threads[t].unread
  {
    UnreadIff(b, e, t);
  }

  // ---- What a thread shows of its messages ----

  /** The last message of the thread is post k. */
  predicate LastPost(posts: seq<Post>, t: nat, k: nat) {
    && k < |posts| && posts[k].thread == t
    && forall i :: k < i < |posts| ==> posts[i].thread != t
  }

  ghost predicate DatedAt(b: Box, t: nat)
    requires t < |b.threads|
  {
    exists k: nat :: LastPost(b.posts, t, k) && b.threads[t].lastAt == b.posts[k].mail.occurredAt
  }

  ghost predicate Dated(b: Box) {
    forall t :: 0 <= t < |b.threads| ==> DatedAt(b, t)
  }

  lemma DatedStep(b: Box, e: Event)
    requires Dated(b)
    ensures Dated(Step(b, e))
  {
    var b' := Step(b, e);
    forall t | 0 <= t < |b'.threads| ensures DatedAt(b', t) {
      if |b'.posts| > |b.posts| && b'.posts[|b.posts|].thread == t {
        assert LastPost(b'.posts, t, |b.posts|);
      } else {
        assert t < |b.threads| && DatedAt(b, t);
        var k: nat :| LastPost(b.posts, t, k) && b.threads[t].lastAt == b.posts[k].mail.occurredAt;
        assert LastPost(b'.posts, t, k);
      }
    }
  }

  /** In every run, with or without the lock, a thread is dated by the message that was filed in it last. */
  lemma {:induction false} DatedByItsLastMessage(b: Box, es: seq<Event>)
    requires Dated(b)
    ensures Dated(Run(b, es))
    decreases |es|
  {
    if es == [] {
    } else {
      DatedStep(b, es[0]);
      DatedByItsLastMessage(Step(b, es[0]), es[1..]);
    }
  }

  /** A message filed in a thread that was found makes it unread if it is inbound, roots it if it has a Message-ID and
      nothing did before, and leaves every other thread alone. */
  lemma FiledInThread(b: Box, m: Mail, id: nat)
    requires id < |b.threads| && Locked(b, File(m, Read(id, b.threads[id])))
    ensures var b' := Step(b, File(m, Read(id, b.threads[id]))); var t, t' := b.threads[id], b'.threads[id];
      && b'.posts == b.posts + [Post(m, id)] && |b'.threads| == |b.threads|
      && (t'.unread <==> t.unread || m.inbound)
      && (t.root != "" ==> t'.root == t.root) && (t.root == "" ==> t'.root == m.rfcId)
      && t'.participants == t.participants + m.addresses && t'.count == t.count + 1
      && t'.lastAt == m.occurredAt && t'.normalized == t.normalized
      && forall u :: 0 <= u < |b.threads| && u != id ==> b'.threads[u] == b.threads[u]
  {
  }

  /** One for which none was found opens a thread with its own subject, address list and Message-ID, unread at first
      even if the message is outbound. */
  lemma FiledInNewThread(b: Box, m: Mail)
    ensures var b' := Step(b, File(m, Nothing)); var t' := b'.threads[|b.threads|];
      && b'.posts == b.posts + [Post(m, |b.threads|)] && b'.threads[..|b.threads|] == b.threads
      && t' == Thread(Normalize(m.subject), m.rfcId, m.addresses, 1, true, m.occurredAt)
  {
  }

  /** A draft opens a thread of its own, read, rootless and without a Message-ID; its promotion gives the draft the id
      and the thread no root. Both are serial steps. */
  lemma DraftOpensThread(m: Mail, rfcId: string)
    ensures Serial(EMPTY, [SaveDraft(m), Promote(0, rfcId)])
    ensures Run(EMPTY, [SaveDraft(m), Promote(0, rfcId)]) ==
      Box([Thread(Normalize(m.subject), "", m.addresses, 1, false, m.occurredAt)],
          [Post(m.(rfcId := rfcId, inbound := false), 0)])
  {
    RunTwo(EMPTY, SaveDraft(m), Promote(0, rfcId));
    var b := Step(EMPTY, SaveDraft(m));
    assert b.posts == [Post(m.(rfcId := "", inbound := false), 0)];
    assert [SaveDraft(m), Promote(0, rfcId)][1..] == [Promote(0, rfcId)] && [Promote(0, rfcId)][1..] == [];
    assert Serial(b, [Promote(0, rfcId)]);
  }

  // ---- Roots, and what a citation finds ----

  predicate RootedAt(b: Box, t: nat)
    requires t < |b.threads|
  {
    b.threads[t].root != "" ==> Contains(b.posts, t, {b.threads[t].root})
  }

  /** A thread is only ever rooted at the id of one of its own messages. */
  ghost predicate Rooted(b: Box) {
    forall t :: 0 <= t < |b.threads| ==> RootedAt(b, t)
  }

  lemma ContainsMore(posts: seq<Post>, p: Post, t: nat, ids: set<string>)
    ensures Contains(posts + [p], t, ids) <==> Contains(posts, t, ids) || (p.thread == t && p.mail.rfcId in ids)
  {
    var more := posts + [p];
    if Contains(posts, t, ids) {
      var k :| 0 <= k < |posts| && posts[k].thread == t && posts[k].mail.rfcId in ids;
      assert more[k] == posts[k];
    }
    if p.thread == t && p.mail.rfcId in ids { assert more[|posts|] == p; }
  }

  lemma RootedPromote(b: Box, k: nat, rfcId: string)
    requires Rooted(b)
    ensures Rooted(Step(b, Promote(k, rfcId)))
  {
    var b' := Step(b, Promote(k, rfcId));
    forall t | 0 <= t < |b'.threads| ensures RootedAt(b', t) {
      assert RootedAt(b, t);
      if b.threads[t].root != "" {
        var i :| 0 <= i < |b.posts| && b.posts[i].thread == t && b.posts[i].mail.rfcId in {b.threads[t].root};
        assert b'.posts[i] == b.posts[i];
      }
    }
  }

  lemma RootedStep(b: Box, e: Event)
    requires Rooted(b) && Locked(b, e)
    ensures Rooted(Step(b, e))
  {
    if e.Promote? {
      RootedPromote(b, e.k, e.rfcId);
    } else {
      var b' := Step(b, e);
      var p := b'.posts[|b.posts|];
      assert b'.posts == b.posts + [p];
      forall t | 0 <= t < |b'.threads| ensures RootedAt(b', t) {
        ContainsMore(b.posts, p, t, {b'.threads[t].root});
        if t < |b.threads| { assert RootedAt(b, t); }
      }
    }
  }

  /** A message that cites mail of this mailbox, and has no thread of its own, joins a thread that holds a cited
      message; and it joins such a thread only if it cites mail of this mailbox or shares that thread's subject. */
  lemma CitationDecides(b: Box, m: Mail, answer: Option<nat>)
    requires Tallied(b) && Rooted(b) && m.thread.None? && Finds(b, m, answer)
    ensures (exists t :: 0 <= t < |b.threads| && Contains(b.posts, t, Cited(m))) ==>
              answer.Some? && answer.value < |b.threads| && Contains(b.posts, answer.value, Cited(m))
    ensures !(exists t :: 0 <= t < |b.threads| && Contains(b.posts, t, Cited(m))) ==>
              Answers(b, BySubject(Normalize(m.subject)), answer)
  {
    forall t | 0 <= t < |b.threads| && Matches(b, ByRoot(Cited(m)), t) ensures Contains(b.posts, t, Cited(m)) {
      assert RootedAt(b, t);
      var k :| 0 <= k < |b.posts| && b.posts[k].thread == t && b.posts[k].mail.rfcId in {b.threads[t].root};
      assert b.posts[k].mail.rfcId in Cited(m);
    }
    if t :| 0 <= t < |b.threads| && Contains(b.posts, t, Cited(m)) {
      assert Matches(b, ByMember(Cited(m)), t);
    }
  }

  lemma {:induction false} SerialRun(b: Box, es: seq<Event>)
    requires Tallied(b) && Rooted(b) && Serial(b, es)
    ensures Tallied(Run(b, es)) && Rooted(Run(b, es))
    decreases |es|
  {
    if es == [] {
    } else {
      TallyIff(b, es[0]);
      RootedStep(b, es[0]);
      SerialRun(Step(b, es[0]), es[1..]);
    }
  }

  /** Message-IDs are unique in a mailbox, drafts aside. */
  ghost predicate DistinctIds(posts: seq<Post>) {
    forall i, j :: 0 <= i < j < |posts| && posts[i].mail.rfcId != "" ==> posts[i].mail.rfcId != posts[j].mail.rfcId
  }

  /** In every serial run: a reply, citing one message of the mailbox, goes to the thread of that message. */
  lemma RepliesJoinTheirParent(es: seq<Event>, k: nat, m: Mail, answer: Option<nat>)
    requires Serial(EMPTY, es) && DistinctIds(Run(EMPTY, es).posts)
    requires k < |Run(EMPTY, es).posts| && m.thread.None? && Finds(Run(EMPTY, es), m, answer)
    requires var id := Run(EMPTY, es).posts[k].mail.rfcId;
      && id != "" && (m.inReplyTo == id || id in m.references)
      && m.inReplyTo in {"", id} && m.references <= {"", id}
    ensures answer == Some(Run(EMPTY, es).posts[k].thread)
  {
    SerialRun(EMPTY, es);
    var b := Run(EMPTY, es);
    assert Cited(m) == {b.posts[k].mail.rfcId};
    CitationDecides(b, m, answer);
    assert Contains(b.posts, b.posts[k].thread, Cited(m));
    var i :| 0 <= i < |b.posts| && b.posts[i].thread == answer.value && b.posts[i].mail.rfcId in Cited(m);
    assert b.posts[i].mail.rfcId == b.posts[k].mail.rfcId;
    assert i == k;
  }

  // ---- Subjects ----

  /** At most one thread per nonempty normalized subject. */
  ghost predicate Unique(b: Box) {
    forall t, u :: 0 <= t < u < |b.threads| && b.threads[t].normalized != "" ==>
      b.threads[t].normalized != b.threads[u].normalized
  }

  predicate HasThread(b: Box, subject: string) {
    subject != "" && exists t :: 0 <= t < |b.threads| && b.threads[t].normalized == subject
  }

  /** The step opens a thread with this normalized subject. */
  predicate Opens(e: Event, subject: string) {
    (e.SaveDraft? || (e.File? && e.reading.Nothing?)) && Normalize(e.mail.subject) == subject
  }

  /** A thread is opened for a subject that already has one. */
  predicate Doubles(b: Box, e: Event) {
    !e.Promote? && Opens(e, Normalize(e.mail.subject)) && HasThread(b, Normalize(e.mail.subject))
  }

  lemma UniqueIff(b: Box, e: Event)
    requires Unique(b)
    ensures Unique(Step(b, e)) <==> !Doubles(b, e)
  {
    var b' := Step(b, e);
    if Doubles(b, e) {
      var t :| 0 <= t < |b.threads| && b.threads[t].normalized == Normalize(e.mail.subject);
      assert b'.threads[t].normalized == b'.threads[|b.threads|].normalized;
    } else {
      assert forall t :: 0 <= t < |b.threads| ==> b'.threads[t].normalized == b.threads[t].normalized;
    }
  }

  /** A draft is saved for a subject that already has a thread; it gets its own all the same. */
  predicate TwinDraft(b: Box, e: Event) {
    e.SaveDraft? && HasThread(b, Normalize(e.mail.subject))
  }

  lemma LookupMisses(b: Box, m: Mail)
    requires Finds(b, m, None)
    ensures !HasThread(b, Normalize(m.subject))
  {
    forall t | 0 <= t < |b.threads|
      ensures Normalize(m.subject) != "" ==> b.threads[t].normalized != Normalize(m.subject)
    {
      assert !Matches(b, BySubject(Normalize(m.subject)), t);
    }
  }

  /** What the mailbox lock buys: of all steps taken under it, with any headers and any chosen thread, only a draft can
      open a second thread for a subject. */
  lemma LockedUniqueIff(b: Box, e: Event)
    requires Unique(b) && Locked(b, e)
    ensures Unique(Step(b, e)) <==> !TwinDraft(b, e)
  {
    UniqueIff(b, e);
    if e.File? && e.reading.Nothing? { LookupMisses(b, e.mail); }
  }

  /** Threads are never removed and keep their subject. */
  lemma SubjectsStay(b: Box, e: Event)
    ensures |b.threads| <= |Step(b, e).threads|
    ensures forall t :: 0 <= t < |b.threads| ==> Step(b, e).threads[t].normalized == b.threads[t].normalized
  {
  }

  lemma {:induction false} TwinsStay(b: Box, es: seq<Event>)
    requires !Unique(b)
    ensures !Unique(Run(b, es))
    decreases |es|
  {
    if es == [] {
    } else {
      SubjectsStay(b, es[0]);
      TwinsStay(Step(b, es[0]), es[1..]);
    }
  }

  ghost predicate NoTwinDrafts(b: Box, es: seq<Event>)
    decreases |es|
  {
    es == [] || (!TwinDraft(b, es[0]) && NoTwinDrafts(Step(b, es[0]), es[1..]))
  }

  /** A run whose every step is taken under the lock leaves one thread per nonempty subject exactly if it saved no draft
      for a subject that had one. */
  lemma {:induction false} SerialUniqueIff(b: Box, es: seq<Event>)
    requires Unique(b) && Serial(b, es)
    ensures Unique(Run(b, es)) <==> NoTwinDrafts(b, es)
    decreases |es|
  {
    if es == [] {
    } else {
      LockedUniqueIff(b, es[0]);
      if TwinDraft(b, es[0]) { TwinsStay(Step(b, es[0]), es[1..]); } else { SerialUniqueIff(Step(b, es[0]), es[1..]); }
    }
  }

  lemma HasThreadStep(b: Box, e: Event, subject: string)
    ensures HasThread(Step(b, e), subject) <==> HasThread(b, subject) || (subject != "" && Opens(e, subject))
  {
    SubjectsStay(b, e);
    var b' := Step(b, e);
    if HasThread(b, subject) {
      var t :| 0 <= t < |b.threads| && b.threads[t].normalized == subject;
      assert b'.threads[t].normalized == subject;
    }
    if subject != "" && Opens(e, subject) { assert b'.threads[|b.threads|].normalized == subject; }
  }

  lemma {:induction false} HasThreadRun(b: Box, es: seq<Event>, subject: string)
    ensures HasThread(Run(b, es), subject) <==>
      HasThread(b, subject) || (subject != "" && exists i :: 0 <= i < |es| && Opens(es[i], subject))
    decreases |es|
  {
    if es == [] {
    } else {
      HasThreadStep(b, es[0], subject);
      HasThreadRun(Step(b, es[0]), es[1..], subject);
      if i :| 0 <= i < |es| && Opens(es[i], subject) { assert i > 0 ==> Opens(es[1..][i - 1], subject); }
    }
  }

  /** Without the lock a caller files by a lookup it made before other steps. Having found no thread, it opens a second
      one for its subject exactly if one of those steps has opened the first. */
  lemma LateLookupIff(b: Box, es: seq<Event>, m: Mail)
    requires Finds(b, m, None) && Unique(Run(b, es)) && Normalize(m.subject) != ""
    ensures Unique(Step(Run(b, es), File(m, Nothing))) <==>
      !exists i :: 0 <= i < |es| && Opens(es[i], Normalize(m.subject))
  {
    LookupMisses(b, m);
    HasThreadRun(b, es, Normalize(m.subject));
    UniqueIff(Run(b, es), File(m, Nothing));
  }

  /** create_outbound_message files its message without the mailbox lock, so two sends of one new conversation can each
      find no thread and open their own. */
  lemma UnlockedSendsDouble(m: Mail, n: Mail)
    requires m.thread.None? && n.thread.None? && Normalize(m.subject) == Normalize(n.subject) != ""
    ensures Finds(EMPTY, m, None) && Finds(EMPTY, n, None)
    ensures !Unique(Run(EMPTY, [File(m, Nothing), File(n, Nothing)]))
  {
    var b := Step(EMPTY, File(m, Nothing));
    assert b.threads[0].normalized == Normalize(n.subject);
    assert Unique(b) && Doubles(b, File(n, Nothing));
    UniqueIff(b, File(n, Nothing));
    RunTwo(EMPTY, File(m, Nothing), File(n, Nothing));
  }

  lemma RunTwo(b: Box, e: Event, f: Event)
    ensures Run(b, [e, f]) == Step(Step(b, e), f)
  {
    assert [e, f][1..] == [f] && [f][1..] == [];
    assert Run(Step(b, e), [f]) == Run(Step(Step(b, e), f), []);
  }

  /** Two callers that have read one thread both write its participants back: whoever only the first of them adds is
      lost. */
  lemma SecondWriteLoses(b: Box, t: nat, x: Mail, y: Mail, who: string)
    requires t < |b.threads| && who in x.addresses && who !in y.addresses && who !in b.threads[t].participants
    ensures var after := Step(Step(b, File(x, Read(t, b.threads[t]))), File(y, Read(t, b.threads[t])));
      t < |after.threads| && who !in after.threads[t].participants && who in AddressesIn(after.posts, t)
  {
    var posts := b.posts + [Post(x, t)];
    Append(b.posts, Post(x, t), t);
    Append(posts, Post(y, t), t);
    assert Step(Step(b, File(x, Read(t, b.threads[t]))), File(y, Read(t, b.threads[t]))).posts == posts + [Post(y, t)];
  }

  lemma SubjectFinds(m: Mail, x: Mail)
    requires m.thread.None? && x.thread.None? && Cited(x) == {} && Normalize(m.subject) == Normalize(x.subject) != ""
    ensures Locked(EMPTY, File(m, Nothing))
    ensures var b := Step(EMPTY, File(m, Nothing)); |b.threads| == 1 && Locked(b, File(x, Read(0, b.threads[0])))
  {
    assert Matches(Step(EMPTY, File(m, Nothing)), BySubject(Normalize(x.subject)), 0);
  }

  /** So a message and two unlocked answers by subject, each filing by a correct reading, leave a thread whose
      participants are not those of its messages. */
  lemma UnlockedSendsLoseParticipants(m: Mail, x: Mail, y: Mail, who: string)
    requires m.thread.None? && x.thread.None? && y.thread.None? && Cited(x) == {} && Cited(y) == {}
    requires Normalize(m.subject) == Normalize(x.subject) == Normalize(y.subject) != ""
    requires who in x.addresses && who !in m.addresses && who !in y.addresses
    ensures var b := Step(EMPTY, File(m, Nothing));
      && |b.threads| == 1 && Locked(EMPTY, File(m, Nothing))
      && Locked(b, File(x, Read(0, b.threads[0]))) && Locked(b, File(y, Read(0, b.threads[0])))
      && !Tallied(Run(b, [File(x, Read(0, b.threads[0])), File(y, Read(0, b.threads[0]))]))
  {
    SubjectFinds(m, x);
    SubjectFinds(m, y);
    var b := Step(EMPTY, File(m, Nothing));
    RunTwo(b, File(x, Read(0, b.threads[0])), File(y, Read(0, b.threads[0])));
    SecondWriteLoses(b, 0, x, y, who);
    assert !TalliedAt(Run(b, [File(x, Read(0, b.threads[0])), File(y, Read(0, b.threads[0]))]), 0);
  }

  /** No header ids, no chosen thread, no draft. */
  predicate Plain(e: Event) {
    e.File? && e.mail.thread.None? && Cited(e.mail) == {}
  }

  /** Each message carries its thread's subject, and a thread without a subject holds one message. */
  ghost predicate Grouped(b: Box) {
    && (forall k :: 0 <= k < |b.posts| ==>
          b.posts[k].thread < |b.threads|
          && Normalize(b.posts[k].mail.subject) == b.threads[b.posts[k].thread].normalized)
    && (forall i, j :: 0 <= i < j < |b.posts| && b.posts[i].thread == b.posts[j].thread ==>
          Normalize(b.posts[i].mail.subject) != "")
  }

  lemma PlainFinds(b: Box, m: Mail, answer: Option<nat>)
    requires m.thread.None? && Cited(m) == {} && Finds(b, m, answer)
    ensures Answers(b, BySubject(Normalize(m.subject)), answer)
  {
  }

  lemma GroupedStep(b: Box, e: Event)
    requires Grouped(b) && Plain(e) && Locked(b, e)
    ensures Grouped(Step(b, e))
  {
    if e.reading.Read? { PlainFinds(b, e.mail, Some(e.reading.id)); }
    var b' := Step(b, e);
    assert b'.posts == b.posts + [Post(e.mail, b'.posts[|b.posts|].thread)];
    assert forall k :: 0 <= k < |b.posts| ==> b'.posts[k] == b.posts[k];
    assert forall t :: 0 <= t < |b.threads| ==> b'.threads[t].normalized == b.threads[t].normalized;
  }

  lemma {:induction false} GroupedRun(b: Box, es: seq<Event>)
    requires Unique(b) && Grouped(b) && Serial(b, es) && (forall i :: 0 <= i < |es| ==> Plain(es[i]))
    ensures Unique(Run(b, es)) && Grouped(Run(b, es))
    decreases |es|
  {
    if es == [] {
    } else {
      LockedUniqueIff(b, es[0]);
      GroupedStep(b, es[0]);
      GroupedRun(Step(b, es[0]), es[1..]);
    }
  }

  /** Without header ids, chosen threads and drafts, filing under the lock partitions the mailbox by subject: two
      messages share a thread exactly if their normalized subjects are equal and not empty. */
  lemma SameThreadIff(es: seq<Event>, i: nat, j: nat)
    requires Serial(EMPTY, es) && (forall k :: 0 <= k < |es| ==> Plain(es[k]))
    requires i < j < |Run(EMPTY, es).posts|
    ensures var p, q := Run(EMPTY, es).posts[i], Run(EMPTY, es).posts[j];
      p.thread == q.thread <==> Normalize(p.mail.subject) == Normalize(q.mail.subject) != ""
  {
    GroupedRun(EMPTY, es);
  }

  // ---- update_thread_for_message ----

  class Mailbox {
    var threads: seq<Thread>
    var posts: seq<Post>

    constructor ()
      ensures State() == EMPTY
    {
      threads, posts := [], [];
    }

    function State(): Box
      reads this
    {
      Box(threads, posts)
    }

    method HasMember(t: nat, ids: set<string>) returns (found: bool)
      ensures found <==> Contains(posts, t, ids)
    {
      for k := 0 to |posts|
        invariant !Contains(posts[..k], t, ids)
      {
        assert posts[..k + 1] == posts[..k] + [posts[k]];
        ContainsMore(posts[..k], posts[k], t, ids);
        if posts[k].thread == t && posts[k].mail.rfcId in ids {
          return true;
        }
      }
      assert posts[..|posts|] == posts;
      found := false;
    }

    method Filter(q: Query, t: nat) returns (matches: bool)
      requires t < |threads|
      ensures matches <==> Matches(State(), q, t)
    {
      match q
      case ByRoot(ids) => matches := threads[t].root in ids;
      case ByMember(ids) => matches := HasMember(t, ids);
      case BySubject(normalized) => matches := threads[t].normalized == normalized && normalized != "";
    }

    method First(q: Query) returns (answer: Option<nat>)
      ensures Answers(State(), q, answer)
      ensures answer.Some? ==> answer.value < |threads| && forall u :: 0 <= u < |threads| && Matches(State(), q, u) ==>
        threads[u].lastAt <= threads[answer.value].lastAt
    {
      answer := None;
      for t := 0 to |threads|
        invariant answer.Some? ==> answer.value < t && Matches(State(), q, answer.value)
        invariant forall u :: 0 <= u < t && Matches(State(), q, u) ==>
          answer.Some? && threads[u].lastAt <= threads[answer.value].lastAt
      {
        var matches := Filter(q, t);
        if matches && (answer.None? || threads[answer.value].lastAt < threads[t].lastAt) {
          answer := Some(t);
        }
      }
    }

    method Find(m: Mail) returns (answer: Option<nat>)
      requires m.thread.Some? ==> m.thread.value < |threads|
      ensures Finds(State(), m, answer)
    {
      answer := m.thread;
      if answer.None? {
        answer := First(ByRoot(Cited(m)));
        if answer.None? {
          answer := First(ByMember(Cited(m)));
        }
      }
      if answer.None? {
        answer := First(BySubject(Normalize(m.subject)));
      }
    }

    /** Called under the mailbox lock, the method is one locked step. */
    method UpdateThreadForMessage(m: Mail) returns (e: Event)
      requires m.thread.Some? ==> m.thread.value < |threads|
      modifies this
      ensures e.File? && e.mail == m && Locked(old(State()), e)
      ensures State() == Step(old(State()), e)
    {
      var answer := Find(m);
      var reading := Nothing;
      if answer.Some? {
        reading := Read(answer.value, threads[answer.value]);
      } else {
        threads := threads + [Thread(Normalize(m.subject), m.rfcId, m.addresses, 0, true, m.occurredAt)];
        answer := Some(|threads| - 1);
      }
      var thread := threads[answer.value];
      thread := thread.(participants := thread.participants + m.addresses, count := thread.count + 1);
      if m.inbound {
        thread := thread.(unread := true);
      }
      thread := thread.(lastAt := m.occurredAt);
      if thread.root == "" && m.rfcId != "" {
        thread := thread.(root := m.rfcId);
      }
      threads := threads[answer.value := thread];
      assert m.addresses + m.addresses == m.addresses;
      assert reading.Nothing? ==> threads == old(threads) + [Created(m)];
      posts := posts + [Post(m, answer.value)];
      e := File(m, reading);
    }
  }
}

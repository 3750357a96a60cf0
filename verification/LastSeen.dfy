/** The per-process last-seen cache: throttled database writes with least-recently-used eviction. */
module LastSeen {
  import opened Types

  const INTERVAL: nat := 300
  const MAX_SIZE: nat := 4096

  datatype Entry = Entry(user: nat, time: nat)

  datatype Request = Request(user: nat, time: nat)

  /** `entries` is the OrderedDict from least to most recently used; `db` holds each user's last_seen_at. */
  datatype Seen = Seen(entries: seq<Entry>, db: map<nat, nat>)

  function Users(es: seq<Entry>): set<nat> {
    set e | e in es :: e.user
  }

  function Without(es: seq<Entry>, u: nat): seq<Entry> {
    if es == [] then [] else if es[0].user == u then es[1..] else [es[0]] + Without(es[1..], u)
  }

  function Cached(es: seq<Entry>, u: nat): Option<nat> {
    if es == [] then None else if es[0].user == u then Some(es[0].time) else Cached(es[1..], u)
  }

  /** Whether a request is served from the cache without a database write. */
  predicate Fresh(s: Seen, r: Request) {
    Cached(s.entries, r.user).Some? && r.time - Cached(s.entries, r.user).value < INTERVAL
  }

  function Evicted(es: seq<Entry>): seq<Entry> {
    if |es| > MAX_SIZE then es[|es| - MAX_SIZE..] else es
  }

  function Touch(s: Seen, r: Request): Seen {
    if Fresh(s, r) then
      s.(entries := Without(s.entries, r.user) + [Entry(r.user, Cached(s.entries, r.user).value)])
    else
      Seen(Evicted(Without(s.entries, r.user) + [Entry(r.user, r.time)]), s.db[r.user := r.time])
  }

  function After(trace: seq<Request>): Seen {
    if trace == [] then Seen([], map[]) else Touch(After(trace[..|trace| - 1]), trace[|trace| - 1])
  }

  // ---- Recency ----

  function Touched(trace: seq<Request>): set<nat> {
    set r | r in trace :: r.user
  }

  /** trace[j] is its user's last request in the trace. */
  predicate LastTouch(trace: seq<Request>, j: nat) {
    j < |trace| && forall k :: j < k < |trace| ==> trace[k].user != trace[j].user
  }

  /** The users cached behind u, that is, more recently used. */
  function Behind(es: seq<Entry>, u: nat): set<nat> {
    if es == [] then {} else if es[0].user == u then Users(es[1..]) else Behind(es[1..], u)
  }

  predicate DistinctUsers(es: seq<Entry>) {
    forall i, j :: 0 <= i < j < |es| ==> es[i].user != es[j].user
  }

  predicate Monotone(trace: seq<Request>) {
    forall i, j :: 0 <= i <= j < |trace| ==> trace[i].time <= trace[j].time
  }

  /** The cache after a trace: bounded, in step with the database, and ordered by recency; a user that was touched but
      is not cached has been overtaken by MAX_SIZE others. */
  ghost predicate CacheOk(trace: seq<Request>, s: Seen) {
    && DistinctUsers(s.entries) && |s.entries| <= MAX_SIZE
    && (forall e :: e in s.entries ==> e.user in s.db && s.db[e.user] == e.time)
    && Users(s.entries) <= Touched(trace) && s.db.Keys == Touched(trace)
    && (forall j :: LastTouch(trace, j) ==> Recency(trace, s, j))
  }

  ghost predicate Recency(trace: seq<Request>, s: Seen, j: nat)
    requires j < |trace|
  {
    var u, since := trace[j].user, Touched(trace[j + 1..]);
    && u in s.db && s.db[u] <= trace[j].time < s.db[u] + INTERVAL
    && (if u in Users(s.entries) then Behind(s.entries, u) == since else |since| >= MAX_SIZE)
  }

  // ---- Removing and appending entries ----

  lemma {:induction false} CachedMeansIn(es: seq<Entry>, u: nat)
    requires DistinctUsers(es)
    ensures Cached(es, u).Some? <==> u in Users(es)
    ensures Cached(es, u).Some? ==> Entry(u, Cached(es, u).value) in es
  {
    if es == [] {
    } else {
      assert Users(es) == {es[0].user} + Users(es[1..]);
      CachedMeansIn(es[1..], u);
    }
  }

  lemma {:induction false} WithoutMembers(es: seq<Entry>, u: nat)
    requires DistinctUsers(es)
    ensures forall e :: e in Without(es, u) <==> e in es && e.user != u
  {
    if es == [] {
    } else {
      assert es == [es[0]] + es[1..];
      if es[0].user != u { WithoutMembers(es[1..], u); }
    }
  }

  /** What dropping the user's entry does to the entries from the i-th on. */
  lemma WithoutFrom(es: seq<Entry>, i: nat, u: nat)
    requires i < |es|
    ensures es[i].user == u ==> Without(es[i..], u) == es[i + 1..]
    ensures es[i].user != u ==> es[..i] + Without(es[i..], u) == es[..i + 1] + Without(es[i + 1..], u)
  {
    assert es[i..][1..] == es[i + 1..] && es[..i + 1] == es[..i] + [es[i]];
    var rest := Without(es[i + 1..], u);
    assert es[..i] + ([es[i]] + rest) == es[..i] + [es[i]] + rest;
  }

  lemma {:induction false} WithoutDistinct(es: seq<Entry>, u: nat)
    requires DistinctUsers(es)
    ensures DistinctUsers(Without(es, u))
  {
    if es == [] || es[0].user == u {
    } else {
      var rest := Without(es[1..], u);
      WithoutDistinct(es[1..], u);
      WithoutMembers(es[1..], u);
      forall i | 0 <= i < |rest| ensures rest[i].user != es[0].user {
        assert rest[i] in es[1..];
      }
    }
  }

  lemma {:induction false} WithoutShape(es: seq<Entry>, u: nat)
    requires DistinctUsers(es)
    ensures Users(Without(es, u)) == Users(es) - {u}
    ensures |Without(es, u)| == |es| - if u in Users(es) then 1 else 0
  {
    if es == [] {
    } else {
      assert Users(es) == {es[0].user} + Users(es[1..]);
      if es[0].user != u {
        WithoutShape(es[1..], u);
        assert Users([es[0]] + Without(es[1..], u)) == {es[0].user} + Users(Without(es[1..], u));
      }
    }
  }

  lemma {:induction false} BehindMoved(es: seq<Entry>, u: nat, e: Entry, v: nat)
    requires DistinctUsers(es) && e.user == u && v != u && v in Users(es)
    ensures Behind(Without(es, u) + [e], v) == Behind(es, v) + {u}
  {
    assert es == [es[0]] + es[1..];
    if es[0].user == v {
      WithoutShape(es[1..], u);
      assert (Without(es, u) + [e])[1..] == Without(es[1..], u) + [e];
      assert Users(Without(es[1..], u) + [e]) == Users(Without(es[1..], u)) + {u};
    } else if es[0].user == u {
      BehindAppend(es[1..], e, v);
    } else {
      assert (Without(es, u) + [e])[1..] == Without(es[1..], u) + [e];
      BehindMoved(es[1..], u, e, v);
    }
  }

  lemma {:induction false} BehindAppend(es: seq<Entry>, e: Entry, v: nat)
    requires v in Users(es)
    ensures Behind(es + [e], v) == Behind(es, v) + {e.user}
  {
    assert es == [es[0]] + es[1..];
    assert (es + [e])[1..] == es[1..] + [e];
    if es[0].user == v {
      assert Users(es[1..] + [e]) == Users(es[1..]) + {e.user};
    } else {
      BehindAppend(es[1..], e, v);
    }
  }

  lemma {:induction false} BehindLast(es: seq<Entry>, e: Entry)
    requires e.user !in Users(es)
    ensures Behind(es + [e], e.user) == {}
  {
    if es == [] {
    } else {
      assert (es + [e])[1..] == es[1..] + [e];
      assert es[0] in es;
      BehindLast(es[1..], e);
    }
  }

  lemma {:induction false} UsersCount(es: seq<Entry>)
    requires DistinctUsers(es)
    ensures |Users(es)| == |es|
  {
    if es == [] {
    } else {
      assert Users(es) == {es[0].user} + Users(es[1..]);
      UsersCount(es[1..]);
    }
  }

  // ---- One request ----

  lemma TouchedAppend(trace: seq<Request>, r: Request, j: nat)
    requires j <= |trace|
    ensures Touched((trace + [r])[j..]) == Touched(trace[j..]) + {r.user}
  {
    assert (trace + [r])[j..] == trace[j..] + [r];
  }

  lemma {:induction false} LastTouchExists(trace: seq<Request>, u: nat) returns (j: nat)
    requires u in Touched(trace)
    ensures LastTouch(trace, j) && trace[j].user == u
  {
    var n := |trace| - 1;
    if trace[n].user == u {
      j := n;
    } else {
      assert trace == trace[..n] + [trace[n]];
      j := LastTouchExists(trace[..n], u);
    }
  }

  /** The request's own entry goes to the most recent end with the time of the user's last write. */
  function Renewed(s: Seen, r: Request): Entry {
    Entry(r.user, if Fresh(s, r) then Cached(s.entries, r.user).value else r.time)
  }

  function Moved(s: Seen, r: Request): seq<Entry> {
    Without(s.entries, r.user) + [Renewed(s, r)]
  }

  lemma MovedMembers(s: Seen, r: Request)
    requires DistinctUsers(s.entries)
    ensures DistinctUsers(Moved(s, r))
    ensures forall e :: e in Moved(s, r) <==> e == Renewed(s, r) || (e in s.entries && e.user != r.user)
  {
    WithoutDistinct(s.entries, r.user);
    WithoutMembers(s.entries, r.user);
    var es := Without(s.entries, r.user);
    assert forall i :: 0 <= i < |es| ==> es[i] in es;
  }

  lemma MovedShape(s: Seen, r: Request)
    requires DistinctUsers(s.entries)
    ensures Users(Moved(s, r)) == Users(s.entries) + {r.user} && |Moved(s, r)| <= |s.entries| + 1
    ensures Fresh(s, r) ==> |Moved(s, r)| == |s.entries|
  {
    WithoutShape(s.entries, r.user);
    CachedMeansIn(s.entries, r.user);
    assert Users(Moved(s, r)) == Users(Without(s.entries, r.user)) + {r.user};
  }

  /** Dropping the least recently used entry of a full cache: its user has been overtaken by MAX_SIZE others. */
  lemma EvictFront(es: seq<Entry>, v: nat)
    requires DistinctUsers(es) && |es| == MAX_SIZE + 1 && v in Users(es)
    ensures Evicted(es) == es[1..]
    ensures if v in Users(es[1..]) then Behind(es[1..], v) == Behind(es, v) else |Behind(es, v)| == MAX_SIZE
  {
    assert es == [es[0]] + es[1..];
    assert es[0].user !in Users(es[1..]);
    if v == es[0].user { UsersCount(es[1..]); }
  }

  lemma OwnRecency(trace: seq<Request>, s: Seen, r: Request)
    requires CacheOk(trace, s) && Monotone(trace + [r])
    ensures Recency(trace + [r], Touch(s, r), |trace|)
  {
    var t := trace + [r];
    assert Touched(t[|trace| + 1..]) == {};
    MovedMembers(s, r);
    MovedShape(s, r);
    CachedMeansIn(s.entries, r.user);
    WithoutShape(s.entries, r.user);
    BehindLast(Without(s.entries, r.user), Renewed(s, r));
    if Fresh(s, r) {
      var j := LastTouchExists(trace, r.user);
      assert Recency(trace, s, j);
      assert t[j].time <= t[|trace|].time;
    } else if |Moved(s, r)| > MAX_SIZE {
      EvictFront(Moved(s, r), r.user);
      var es := Moved(s, r)[1..];
      assert es[|es| - 1] == Renewed(s, r) && es[|es| - 1] in es;
    }
  }

  /** The cache seen from another user v: who is behind v, or whether v is cached at all. */
  lemma MovedPast(s: Seen, r: Request, v: nat)
    requires DistinctUsers(s.entries) && |s.entries| <= MAX_SIZE && v != r.user && v in Users(s.entries)
    ensures var es, behind := Touch(s, r).entries, Behind(s.entries, v) + {r.user};
      if v in Users(es) then Behind(es, v) == behind else |behind| >= MAX_SIZE
  {
    MovedMembers(s, r);
    MovedShape(s, r);
    BehindMoved(s.entries, r.user, Renewed(s, r), v);
    if |Moved(s, r)| > MAX_SIZE { EvictFront(Moved(s, r), v); }
  }

  lemma StaysOut(s: Seen, r: Request, v: nat)
    requires DistinctUsers(s.entries) && v != r.user && v !in Users(s.entries)
    ensures v !in Users(Touch(s, r).entries)
  {
    MovedMembers(s, r);
    MovedShape(s, r);
    assert forall e :: e in Touch(s, r).entries ==> e in Moved(s, r);
  }

  lemma StillLast(trace: seq<Request>, r: Request, j: nat)
    requires LastTouch(trace + [r], j) && j < |trace|
    ensures LastTouch(trace, j) && trace[j].user != r.user && (trace + [r])[j] == trace[j]
  {
    var t := trace + [r];
    assert t[|trace|] == r;
    forall k | j < k < |trace| ensures trace[k].user != trace[j].user { assert t[k] == trace[k]; }
  }

  lemma OtherRecency(trace: seq<Request>, s: Seen, r: Request, j: nat)
    requires DistinctUsers(s.entries) && |s.entries| <= MAX_SIZE && j < |trace| && trace[j].user != r.user
    requires Recency(trace, s, j)
    ensures Recency(trace + [r], Touch(s, r), j)
  {
    TouchedAppend(trace, r, j + 1);
    GrowsBy(Touched(trace[j + 1..]), r.user);
    if trace[j].user in Users(s.entries) {
      MovedPast(s, r, trace[j].user);
    } else {
      StaysOut(s, r, trace[j].user);
    }
  }

  lemma GrowsBy(a: set<nat>, u: nat)
    ensures |a + {u}| >= |a|
  {
    if u in a { assert a + {u} == a; }
  }

  lemma TouchKeepsEntries(s: Seen, r: Request)
    requires DistinctUsers(s.entries) && |s.entries| <= MAX_SIZE
    ensures var s' := Touch(s, r);
      && DistinctUsers(s'.entries) && |s'.entries| <= MAX_SIZE
      && (forall e :: e in s'.entries ==> e == Renewed(s, r) || (e in s.entries && e.user != r.user))
  {
    MovedMembers(s, r);
    MovedShape(s, r);
  }

  lemma TouchKeepsCache(trace: seq<Request>, s: Seen, r: Request)
    requires CacheOk(trace, s) && Monotone(trace + [r])
    ensures CacheOk(trace + [r], Touch(s, r))
  {
    TouchKeepsEntries(s, r);
    CachedMeansIn(s.entries, r.user);
    TouchedAppend(trace, r, 0);
    assert trace[0..] == trace && (trace + [r])[0..] == trace + [r];
    forall j | LastTouch(trace + [r], j) ensures Recency(trace + [r], Touch(s, r), j) {
      if j == |trace| {
        OwnRecency(trace, s, r);
      } else {
        StillLast(trace, r, j);
        OtherRecency(trace, s, r, j);
      }
    }
  }

  // ---- Every trace ----

  lemma {:induction false} CacheAlwaysOk(trace: seq<Request>)
    requires Monotone(trace)
    ensures CacheOk(trace, After(trace))
  {
    if trace == [] {
    } else {
      var n := |trace| - 1;
      assert trace == trace[..n] + [trace[n]];
      CacheAlwaysOk(trace[..n]);
      TouchKeepsCache(trace[..n], After(trace[..n]), trace[n]);
    }
  }

  /** After any requests in time order: the cache holds at most MAX_SIZE entries, a cached time is the user's last
      database write, and that write lags the user's latest request by less than the interval. */
  lemma BoundedAndCurrent(trace: seq<Request>, j: nat)
    requires Monotone(trace) && LastTouch(trace, j)
    ensures var s := After(trace);
      && |s.entries| <= 4096
      && (forall e :: e in s.entries ==> e.user in s.db && s.db[e.user] == e.time)
      && trace[j].user in s.db && s.db[trace[j].user] <= trace[j].time < s.db[trace[j].user] + 300
  {
    CacheAlwaysOk(trace);
    assert Recency(trace, After(trace), j);
  }

  /** If a request writes although the user's last write is less than the interval old, then at least MAX_SIZE other
      users have been touched since this user's last request. */
  lemma EarlyWriteMeansEviction(trace: seq<Request>, j: nat, r: Request)
    requires Monotone(trace + [r]) && LastTouch(trace, j) && trace[j].user == r.user
    requires !Fresh(After(trace), r) && r.user in After(trace).db && r.time < After(trace).db[r.user] + 300
    ensures |Touched(trace[j + 1..])| >= 4096 && r.user !in Touched(trace[j + 1..])
  {
    assert trace == (trace + [r])[..|trace|];
    assert Monotone(trace) by {
      assert forall i :: 0 <= i < |trace| ==> trace[i] == (trace + [r])[i];
    }
    CacheAlwaysOk(trace);
    assert Recency(trace, After(trace), j);
    CachedMeansIn(After(trace).entries, r.user);
  }

  // ---- The middleware ----

  class Middleware {
    var entries: seq<Entry>
    var db: map<nat, nat>

    constructor ()
      ensures State() == After([])
    {
      entries, db := [], map[];
    }

    function State(): Seen
      reads this
    {
      Seen(entries, db)
    }

    method Get(user: nat) returns (time: Option<nat>)
      ensures time == Cached(entries, user)
    {
      var i := 0;
      while i < |entries|
        invariant i <= |entries|
        invariant Cached(entries, user) == Cached(entries[i..], user)
      {
        if entries[i].user == user {
          return Some(entries[i].time);
        }
        assert entries[i..][1..] == entries[i + 1..];
        i := i + 1;
      }
      time := None;
    }

    /** Sets the user's entry and moves it to the most recent end. */
    method MoveToEnd(entry: Entry)
      modifies this`entries
      ensures entries == Without(old(entries), entry.user) + [entry]
    {
      var i, kept := 0, [];
      while i < |entries| && entries[i].user != entry.user
        invariant entries == old(entries) && i <= |entries| && kept == entries[..i]
        invariant Without(entries, entry.user) == kept + Without(entries[i..], entry.user)
      {
        WithoutFrom(entries, i, entry.user);
        kept := kept + [entries[i]];
        i := i + 1;
      }
      if i < |entries| {
        WithoutFrom(entries, i, entry.user);
        kept := kept + entries[i + 1..];
      } else {
        assert kept + [] == kept;
      }
      entries := kept + [entry];
    }

    method Evict()
      modifies this`entries
      ensures entries == Evicted(old(entries))
    {
      while |entries| > MAX_SIZE
        invariant Evicted(entries) == Evicted(old(entries))
      {
        entries := entries[1..];
      }
    }

    method TouchLastSeen(user: nat, now: nat, authenticated: bool)
      modifies this
      ensures State() == if authenticated then Touch(old(State()), Request(user, now)) else old(State())
    {
      if !authenticated {
        return;
      }
      var time := Get(user);
      if time.Some? && now - time.value < INTERVAL {
        MoveToEnd(Entry(user, time.value));
        return;
      }
      db := db[user := now];
      MoveToEnd(Entry(user, now));
      Evict();
    }
  }
}

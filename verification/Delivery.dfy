/** Delivery events folded into a message, one call at a time and each to its end: the answer depends on which events
    arrived, not on order or repetition. DeliveryRuns has the calls that overlap or are interrupted. */
module Delivery {
  import opened Types

  datatype Kind = Delivery | Bounce | Open | Click | Complaint | Unsubscribe | Failure | OtherKind

  /** `id` is the provider's event id ("" when it sent none); `domain` is the domain the webhook resolved to. */
  datatype Event = Event(kind: Kind, recipient: string, id: string, domain: nat)

  datatype Key = Key(kind: Kind, recipient: string, id: string)

  datatype Recipient = Recipient(email: string, status: EmailStatus)

  /** One outbound message with its recipient rows, its id-carrying events, its other events, and the domain-wide
      suppression list. */
  datatype Log = Log(
    status: EmailStatus,
    recipients: seq<Recipient>,
    keys: set<Key>,
    anonymous: seq<Event>,
    suppressed: set<(nat, string)>)

  function KeyOf(e: Event): Key {
    Key(e.kind, e.recipient, e.id)
  }

  function StatusOf(kind: Kind): Option<EmailStatus> {
    match kind
    case Delivery => Some(Delivered)
    case Bounce => Some(Bounced)
    case Open => Some(Opened)
    case Click => Some(Clicked)
    case Complaint => Some(Spam)
    case Failure => Some(Failed)
    case Unsubscribe => None
    case OtherKind => None
  }

  /** The rank an event asks for; one that maps to no status asks for nothing. */
  function RankOf(kind: Kind): nat {
    if StatusOf(kind).Some? then Rank(StatusOf(kind).value) else 0
  }

  predicate Suppresses(e: Event) {
    (e.kind == Bounce || e.kind == Complaint || e.kind == Unsubscribe) && e.recipient != ""
  }

  predicate Targets(e: Event, r: Recipient) {
    e.recipient != "" && StatusOf(e.kind).Some? && r.email == e.recipient
  }

  function Raised(status: EmailStatus, kind: Kind): EmailStatus {
    if StatusOf(kind).Some? && RankOf(kind) > Rank(status) then StatusOf(kind).value else status
  }

  function RaisedRow(r: Recipient, e: Event): Recipient {
    if Targets(e, r) then r.(status := Raised(r.status, e.kind)) else r
  }

  /** The event carries an id, and its row is stored already. */
  predicate Known(s: Log, e: Event) {
    e.id != "" && KeyOf(e) in s.keys
  }

  /** A whole call of create_delivery_event: a known event changes nothing at all. */
  function Apply(s: Log, e: Event): Log {
    if Known(s, e) then s
    else Log(
      Raised(s.status, e.kind),
      seq(|s.recipients|, i requires 0 <= i < |s.recipients| => RaisedRow(s.recipients[i], e)),
      if e.id != "" then s.keys + {KeyOf(e)} else s.keys,
      if e.id != "" then s.anonymous else s.anonymous + [e],
      if Suppresses(e) then s.suppressed + {(e.domain, e.recipient)} else s.suppressed)
  }

  function Folded(s: Log, es: seq<Event>): Log {
    if es == [] then s else Apply(Folded(s, es[..|es| - 1]), es[|es| - 1])
  }

  // ---- What the fold amounts to ----

  ghost function Events(es: seq<Event>): set<Event> {
    set e | e in es
  }

  /** `rank` is the larger of `base` and every rank the chosen events ask for. */
  ghost predicate IsMaximum(rank: nat, base: nat, events: set<Event>, chosen: Event -> bool) {
    && base <= rank
    && (forall e :: e in events && chosen(e) ==> RankOf(e.kind) <= rank)
    && (rank == base || exists e :: e in events && chosen(e) && RankOf(e.kind) == rank)
  }

  /** Ranks are maxima, and the keys those of the events. */
  ghost predicate Ranked(s: Log, events: set<Event>, t: Log) {
    && IsMaximum(Rank(t.status), Rank(s.status), events, _ => true)
    && |t.recipients| == |s.recipients|
    && (forall i :: 0 <= i < |s.recipients| ==>
          && t.recipients[i].email == s.recipients[i].email
          && IsMaximum(Rank(t.recipients[i].status), Rank(s.recipients[i].status), events,
                       e => Targets(e, s.recipients[i])))
    && t.keys == s.keys + (set e | e in events && e.id != "" :: KeyOf(e))
  }

  ghost predicate Summary(s: Log, events: set<Event>, t: Log) {
    && Ranked(s, events, t)
    && t.suppressed == s.suppressed + (set e | e in events && Suppresses(e) :: Pair(e))
  }

  function Pair(e: Event): (nat, string) {
    (e.domain, e.recipient)
  }

  /** The parts of the outcome that are promised; a status is observed by its rank. */
  datatype View = View(rank: nat, recipients: seq<(string, nat)>, suppressed: set<(nat, string)>, keys: set<Key>)

  function Observe(s: Log): View {
    View(Rank(s.status),
         seq(|s.recipients|, i requires 0 <= i < |s.recipients| =>
           (s.recipients[i].email, Rank(s.recipients[i].status))),
         s.suppressed, s.keys)
  }

  /** The event carries no id, or all deliveries of it resolve to one domain. */
  ghost predicate OneDomain(events: set<Event>, e: Event) {
    e.id != "" ==> forall f :: f in events && KeyOf(f) == KeyOf(e) ==> f.domain == e.domain
  }

  /** The pairs that end up suppressed in whatever order the events arrive. */
  ghost function Certain(s: Log, events: set<Event>): set<(nat, string)> {
    s.suppressed + (set e | e in events && Suppresses(e) && OneDomain(events, e) :: Pair(e))
  }

  /** Where deliveries of one suppressing event resolve to several domains, each of those pairs is suppressed anyway. */
  ghost predicate Settled(s: Log, events: set<Event>) {
    forall e :: e in events && Suppresses(e) ==> Pair(e) in Certain(s, events)
  }

  lemma RaisedRank(status: EmailStatus, kind: Kind)
    ensures Rank(Raised(status, kind)) == if RankOf(kind) > Rank(status) then RankOf(kind) else Rank(status)
  {
  }

  lemma MaximumExtends(rank: nat, base: nat, events: set<Event>, chosen: Event -> bool, e: Event, rank': nat)
    requires IsMaximum(rank, base, events, chosen)
    requires rank' == if chosen(e) && RankOf(e.kind) > rank then RankOf(e.kind) else rank
    ensures IsMaximum(rank', base, events + {e}, chosen)
  {
  }

  lemma MaximumUnique(r: nat, r': nat, base: nat, events: set<Event>, chosen: Event -> bool)
    requires IsMaximum(r, base, events, chosen) && IsMaximum(r', base, events, chosen)
    ensures r == r'
  {
  }

  lemma NewEventRanked(s: Log, es: seq<Event>, t: Log, e: Event)
    requires Ranked(s, Events(es), t)
    requires !(e.id != "" && KeyOf(e) in t.keys)
    ensures Ranked(s, Events(es) + {e}, Apply(t, e))
  {
    var t', E := Apply(t, e), Events(es);
    RaisedRank(t.status, e.kind);
    MaximumExtends(Rank(t.status), Rank(s.status), E, _ => true, e, Rank(t'.status));
    forall i | 0 <= i < |s.recipients|
      ensures t'.recipients[i].email == s.recipients[i].email
      ensures IsMaximum(Rank(t'.recipients[i].status), Rank(s.recipients[i].status), E + {e},
                        f => Targets(f, s.recipients[i]))
    {
      RaisedRank(t.recipients[i].status, e.kind);
      MaximumExtends(Rank(t.recipients[i].status), Rank(s.recipients[i].status), E,
                     f => Targets(f, s.recipients[i]), e, Rank(t'.recipients[i].status));
    }
  }

  /** A repeated id-carrying event asks for no rank its first delivery did not. */
  lemma RepeatRanked(s: Log, es: seq<Event>, t: Log, e: Event)
    requires Ranked(s, Events(es), t) && s.keys == {}
    requires e.id != "" && KeyOf(e) in t.keys
    ensures Ranked(s, Events(es) + {e}, t)
  {
    var E := Events(es);
    var f :| f in E && f.id != "" && KeyOf(f) == KeyOf(e);
    MaximumExtends(Rank(t.status), Rank(s.status), E, _ => true, e, Rank(t.status));
    forall i | 0 <= i < |s.recipients|
      ensures IsMaximum(Rank(t.recipients[i].status), Rank(s.recipients[i].status), E + {e},
                        g => Targets(g, s.recipients[i]))
    {
      assert Targets(f, s.recipients[i]) == Targets(e, s.recipients[i]);
      MaximumExtends(Rank(t.recipients[i].status), Rank(s.recipients[i].status), E,
                     g => Targets(g, s.recipients[i]), e, Rank(t.recipients[i].status));
    }
  }

  lemma {:induction false} FoldRanked(s: Log, es: seq<Event>)
    requires s.keys == {}
    ensures Ranked(s, Events(es), Folded(s, es))
  {
    if es == [] {
      assert Folded(s, es) == s;
    } else {
      var before, e := es[..|es| - 1], es[|es| - 1];
      assert es == before + [e];
      FoldRanked(s, before);
      var t := Folded(s, before);
      assert Events(es) == Events(before) + {e};
      if e.id != "" && KeyOf(e) in t.keys { RepeatRanked(s, before, t, e); } else { NewEventRanked(s, before, t, e); }
    }
  }

  // ---- The suppression list ----

  /** Whichever delivery of an id-carrying event came first has put its pair on the list. */
  lemma {:induction false} FirstDelivery(s: Log, es: seq<Event>, k: Key) returns (e: Event)
    requires k in Folded(s, es).keys && k !in s.keys
    ensures e in es && e.id != "" && KeyOf(e) == k && (Suppresses(e) ==> Pair(e) in Folded(s, es).suppressed)
  {
    if es == [] {
    } else {
      var before := es[..|es| - 1];
      assert es == before + [es[|es| - 1]];
      if k in Folded(s, before).keys { e := FirstDelivery(s, before, k); } else { e := es[|es| - 1]; }
    }
  }

  lemma {:induction false} AnonymousSuppress(s: Log, es: seq<Event>, e: Event)
    requires e in es && e.id == "" && Suppresses(e)
    ensures Pair(e) in Folded(s, es).suppressed
  {
    var before := es[..|es| - 1];
    assert es == before + [es[|es| - 1]];
    if e == es[|es| - 1] {
    } else {
      AnonymousSuppress(s, before, e);
    }
  }

  lemma {:induction false} OnlyPairs(s: Log, es: seq<Event>, p: (nat, string))
    requires p in Folded(s, es).suppressed
    ensures p in s.suppressed || exists e :: e in es && Suppresses(e) && Pair(e) == p
  {
    if es == [] {
    } else {
      var before := es[..|es| - 1];
      assert es == before + [es[|es| - 1]];
      if p in Folded(s, before).suppressed { OnlyPairs(s, before, p); }
    }
  }

  lemma {:induction false} SuppressedStays(s: Log, es: seq<Event>)
    ensures s.suppressed <= Folded(s, es).suppressed && s.keys <= Folded(s, es).keys
  {
    if es == [] {
    } else {
      SuppressedStays(s, es[..|es| - 1]);
    }
  }

  lemma CertainlySuppressed(s: Log, es: seq<Event>, e: Event)
    requires s.keys == {} && e in es && Suppresses(e) && OneDomain(Events(es), e)
    ensures Pair(e) in Folded(s, es).suppressed
  {
    if e.id == "" {
      AnonymousSuppress(s, es, e);
    } else {
      FoldRanked(s, es);
      assert e in Events(es);
      var f := FirstDelivery(s, es, KeyOf(e));
      assert f in Events(es);
    }
  }

  /** Where no domain is in doubt, the list grows by exactly the pairs of the suppressing events. */
  lemma FoldSummary(s: Log, es: seq<Event>)
    requires s.keys == {} && Settled(s, Events(es))
    ensures Summary(s, Events(es), Folded(s, es))
  {
    FoldRanked(s, es);
    SuppressedStays(s, es);
    var t := Folded(s, es);
    forall e | e in Events(es) && Suppresses(e) ensures Pair(e) in t.suppressed {
      if Pair(e) !in s.suppressed {
        var f :| f in Events(es) && Suppresses(f) && OneDomain(Events(es), f) && Pair(f) == Pair(e);
        CertainlySuppressed(s, es, f);
      }
    }
    forall p | p in t.suppressed
      ensures p in s.suppressed || exists e :: e in Events(es) && Suppresses(e) && Pair(e) == p
    {
      OnlyPairs(s, es, p);
    }
  }

  lemma RankedUnique(s: Log, events: set<Event>, t: Log, t': Log)
    requires Ranked(s, events, t) && Ranked(s, events, t')
    ensures Observe(t).(suppressed := {}) == Observe(t').(suppressed := {})
  {
    MaximumUnique(Rank(t.status), Rank(t'.status), Rank(s.status), events, _ => true);
    forall i | 0 <= i < |s.recipients| ensures Rank(t.recipients[i].status) == Rank(t'.recipients[i].status) {
      MaximumUnique(Rank(t.recipients[i].status), Rank(t'.recipients[i].status), Rank(s.recipients[i].status),
                    events, e => Targets(e, s.recipients[i]));
    }
    assert Observe(t).recipients == Observe(t').recipients;
  }

  lemma SummaryUnique(s: Log, events: set<Event>, t: Log, t': Log)
    requires Summary(s, events, t) && Summary(s, events, t')
    ensures Observe(t) == Observe(t')
  {
    RankedUnique(s, events, t, t');
    assert Observe(t).(suppressed := {}).recipients == Observe(t').recipients;
  }

  /** Two logs of the same events, in any order and with any repetitions, leave the same message rank, recipient
      ranks, suppressed addresses and id-carrying events. */
  lemma EventsConverge(s: Log, es: seq<Event>, fs: seq<Event>)
    requires s.keys == {} && Settled(s, Events(es)) && Events(es) == Events(fs)
    ensures Observe(Folded(s, es)) == Observe(Folded(s, fs))
  {
    FoldSummary(s, es);
    FoldSummary(s, fs);
    SummaryUnique(s, Events(es), Folded(s, es), Folded(s, fs));
  }

  /** Ranks and keys agree even where domains are in doubt. */
  lemma RanksConverge(s: Log, es: seq<Event>, fs: seq<Event>)
    requires s.keys == {} && Events(es) == Events(fs)
    ensures Observe(Folded(s, es)).(suppressed := {}) == Observe(Folded(s, fs)).(suppressed := {})
  {
    FoldRanked(s, es);
    FoldRanked(s, fs);
    RankedUnique(s, Events(es), Folded(s, es), Folded(s, fs));
  }

  // ---- Exactly when all orders agree ----

  ghost predicate AllOrdersAgree(s: Log, events: set<Event>) {
    forall es, fs :: Events(es) == events && Events(fs) == events ==> Observe(Folded(s, es)) == Observe(Folded(s, fs))
  }

  lemma {:induction false} Listing(events: set<Event>) returns (es: seq<Event>)
    ensures Events(es) == events
    decreases |events|
  {
    if events == {} {
      es := [];
    } else {
      var e :| e in events;
      var rest := Listing(events - {e});
      es := [e] + rest;
      assert Events(es) == Events(rest) + {e};
    }
  }

  /** A pair stays off the list if every event that asks for it repeats one that is known. */
  lemma {:induction false} NeverAdded(t: Log, es: seq<Event>, p: (nat, string))
    requires p !in t.suppressed
    requires forall g :: g in es && Suppresses(g) && Pair(g) == p ==> g.id != "" && KeyOf(g) in t.keys
    ensures p !in Folded(t, es).suppressed
  {
    if es == [] {
    } else {
      var before := es[..|es| - 1];
      assert es == before + [es[|es| - 1]];
      NeverAdded(t, before, p);
      SuppressedStays(t, before);
    }
  }

  lemma AddedFirst(s: Log, e: Event, es: seq<Event>)
    requires s.keys == {} && Suppresses(e)
    ensures Pair(e) in Folded(s, [e] + es).suppressed
  {
    FoldAppend(s, [e], es);
    assert [e][..0] == [];
    assert Folded(s, [e]) == Apply(Folded(s, []), e);
    SuppressedStays(Folded(s, [e]), es);
  }

  /** The events of other domains first: a pair that is not certain stays off the list. */
  lemma OtherDomainsFirst(s: Log, events: set<Event>, e: Event) returns (es: seq<Event>)
    requires s.keys == {} && e in events && Suppresses(e) && Pair(e) !in Certain(s, events)
    ensures Events(es) == events && Pair(e) !in Folded(s, es).suppressed
  {
    var others := set f | f in events && f.domain != e.domain;
    var first := Listing(others);
    var second := Listing(events - others);
    es := first + second;
    assert Events(es) == Events(first) + Events(second);
    FoldAppend(s, first, second);
    forall g | g in first ensures Pair(g) != Pair(e) { assert g in Events(first); }
    NeverAdded(s, first, Pair(e));
    FoldRanked(s, first);
    var t := Folded(s, first);
    forall g | g in second && Suppresses(g) && Pair(g) == Pair(e) ensures g.id != "" && KeyOf(g) in t.keys {
      assert g in Events(second);
      assert !OneDomain(events, g);
      var h :| h in events && KeyOf(h) == KeyOf(g) && h.domain != g.domain;
      assert h in Events(first) && h.id != "";
    }
    NeverAdded(t, second, Pair(e));
  }

  lemma EventsWith(e: Event, rest: seq<Event>)
    ensures Events([e] + rest) == Events(rest) + {e}
  {
  }

  lemma OrdersDisagree(s: Log, events: set<Event>, es: seq<Event>, fs: seq<Event>)
    requires Events(es) == events && Events(fs) == events
    requires Folded(s, es).suppressed != Folded(s, fs).suppressed
    ensures !AllOrdersAgree(s, events)
  {
    assert Observe(Folded(s, es)).suppressed != Observe(Folded(s, fs)).suppressed;
  }

  lemma UnsettledDisagree(s: Log, events: set<Event>)
    requires s.keys == {} && !Settled(s, events)
    ensures !AllOrdersAgree(s, events)
  {
    var e :| e in events && Suppresses(e) && Pair(e) !in Certain(s, events);
    var fs := OtherDomainsFirst(s, events, e);
    var rest := Listing(events);
    EventsWith(e, rest);
    AddedFirst(s, e, rest);
    OrdersDisagree(s, events, [e] + rest, fs);
  }

  /** Exactly when the outcome of calls one at a time is independent of order and repetition: when, of each suppressing
      event whose deliveries resolve to several domains, all pairs are on the list already or are put there by other
      events. */
  lemma ConvergeIff(s: Log, events: set<Event>)
    requires s.keys == {}
    ensures AllOrdersAgree(s, events) <==> Settled(s, events)
  {
    if Settled(s, events) {
      forall es, fs | Events(es) == events && Events(fs) == events
        ensures Observe(Folded(s, es)) == Observe(Folded(s, fs))
      {
        EventsConverge(s, es, fs);
      }
    } else {
      UnsettledDisagree(s, events);
    }
  }

  /** The final rank is the largest asked for, so it never falls; a recipient's is bounded by the message's. */
  lemma {:induction false} RanksRise(s: Log, es: seq<Event>, i: nat)
    requires i < |s.recipients|
    ensures var t := Folded(s, es);
      && Rank(t.status) >= Rank(s.status)
      && |t.recipients| == |s.recipients|
      && Rank(t.recipients[i].status) >= Rank(s.recipients[i].status)
      && (Rank(s.recipients[i].status) <= Rank(s.status) ==> Rank(t.recipients[i].status) <= Rank(t.status))
  {
    if es == [] {
    } else {
      RanksRise(s, es[..|es| - 1], i);
      var t, e := Folded(s, es[..|es| - 1]), es[|es| - 1];
      RaisedRank(t.status, e.kind);
      RaisedRank(t.recipients[i].status, e.kind);
    }
  }

  /** A terminal status is never replaced. */
  lemma {:induction false} TerminalStays(s: Log, es: seq<Event>)
    requires Rank(s.status) == 6
    ensures Folded(s, es).status == s.status
  {
    if es == [] {
    } else {
      TerminalStays(s, es[..|es| - 1]);
    }
  }

  lemma {:induction false} FoldAppend(s: Log, es: seq<Event>, fs: seq<Event>)
    ensures Folded(s, es + fs) == Folded(Folded(s, es), fs)
  {
    if fs == [] {
      assert es + fs == es;
    } else {
      assert (es + fs)[..|es + fs| - 1] == es + fs[..|fs| - 1];
      FoldAppend(s, es, fs[..|fs| - 1]);
    }
  }

  lemma {:induction false} KeysComeFromEvents(s: Log, es: seq<Event>)
    requires s.keys == {}
    ensures forall k :: k in Folded(s, es).keys ==> exists e :: e in es && KeyOf(e) == k
  {
    if es == [] {
    } else {
      KeysComeFromEvents(s, es[..|es| - 1]);
      assert es[|es| - 1] in es;
      assert forall e :: e in es[..|es| - 1] ==> e in es;
    }
  }

  /** Among the terminal ranks the first event to arrive decides the status, whatever follows. */
  lemma FirstTerminalDecides(s: Log, es: seq<Event>, e: Event, fs: seq<Event>)
    requires s.keys == {} && Rank(s.status) < 6
    requires RankOf(e.kind) == 6 && forall f :: f in es ==> RankOf(f.kind) < 6
    ensures Folded(s, es + [e] + fs).status == StatusOf(e.kind).value
  {
    KeysComeFromEvents(s, es);
    assert KeyOf(e) !in Folded(s, es).keys;
    BelowTerminal(s, es);
    FoldAppend(s, es, [e]);
    assert Folded(Folded(s, es), [e]) == Apply(Folded(Folded(s, es), []), e);
    FoldAppend(s, es + [e], fs);
    TerminalStays(Folded(s, es + [e]), fs);
  }

  lemma {:induction false} BelowTerminal(s: Log, es: seq<Event>)
    requires Rank(s.status) < 6 && forall e :: e in es ==> RankOf(e.kind) < 6
    ensures Rank(Folded(s, es).status) < 6
  {
    if es == [] {
    } else {
      assert forall e :: e in es[..|es| - 1] ==> e in es;
      BelowTerminal(s, es[..|es| - 1]);
      assert es[|es| - 1] in es;
    }
  }

  // ---- What the log says, by the kinds of its events ----

  function AnyEvent(): Event -> bool {
    (e: Event) => true
  }

  function Naming(address: string): Event -> bool {
    (e: Event) => address != "" && e.recipient == address
  }

  /** The chosen events are told in order; `at` is the place of the first bounce, complaint or failure among them. */
  ghost predicate FirstEnd(es: seq<Event>, chosen: Event -> bool, at: nat) {
    && at < |es| && chosen(es[at]) && es[at].kind in {Bounce, Complaint, Failure}
    && forall j :: 0 <= j < at && chosen(es[j]) ==> es[j].kind !in {Bounce, Complaint, Failure}
  }

  ghost predicate Has(es: seq<Event>, chosen: Event -> bool, kinds: set<Kind>) {
    exists i :: 0 <= i < |es| && chosen(es[i]) && es[i].kind in kinds
  }

  /** The status a reader expects: the first bounce, complaint or failure is final; else a click tells more than an
      open, an open more than a delivery, and a delivery more than the status before. */
  ghost predicate Tells(es: seq<Event>, chosen: Event -> bool, before: EmailStatus, status: EmailStatus) {
    if Has(es, chosen, {Bounce, Complaint, Failure}) then
      exists at: nat :: FirstEnd(es, chosen, at) &&
        match es[at].kind
        case Bounce => status == Bounced
        case Complaint => status == Spam
        case _ => status == Failed
    else
      status == if Has(es, chosen, {Click}) then Clicked
                else if Has(es, chosen, {Open}) then Opened
                else if Has(es, chosen, {Kind.Delivery}) then Delivered
                else before
  }

  lemma HasMore(es: seq<Event>, e: Event, chosen: Event -> bool, kinds: set<Kind>)
    ensures Has(es + [e], chosen, kinds) <==> Has(es, chosen, kinds) || (chosen(e) && e.kind in kinds)
  {
    if i :| 0 <= i < |es| && chosen(es[i]) && es[i].kind in kinds { assert (es + [e])[i] == es[i]; }
    if chosen(e) && e.kind in kinds { assert (es + [e])[|es|] == e; }
  }

  lemma EndStays(es: seq<Event>, e: Event, chosen: Event -> bool, at: nat)
    requires FirstEnd(es, chosen, at)
    ensures FirstEnd(es + [e], chosen, at) && (es + [e])[at] == es[at]
  {
    assert forall j :: 0 <= j < |es| ==> (es + [e])[j] == es[j];
  }

  lemma KindsMore(es: seq<Event>, e: Event, chosen: Event -> bool)
    ensures Has(es + [e], chosen, {Bounce, Complaint, Failure}) <==>
      Has(es, chosen, {Bounce, Complaint, Failure}) || (chosen(e) && e.kind in {Bounce, Complaint, Failure})
    ensures Has(es + [e], chosen, {Click}) <==> Has(es, chosen, {Click}) || (chosen(e) && e.kind == Click)
    ensures Has(es + [e], chosen, {Open}) <==> Has(es, chosen, {Open}) || (chosen(e) && e.kind == Open)
    ensures Has(es + [e], chosen, {Kind.Delivery}) <==>
      Has(es, chosen, {Kind.Delivery}) || (chosen(e) && e.kind == Kind.Delivery)
  {
    HasMore(es, e, chosen, {Bounce, Complaint, Failure});
    HasMore(es, e, chosen, {Click});
    HasMore(es, e, chosen, {Open});
    HasMore(es, e, chosen, {Kind.Delivery});
  }

  /** The end of a story is not told twice. */
  lemma EndTold(es: seq<Event>, e: Event, chosen: Event -> bool, before: EmailStatus, status: EmailStatus)
    requires Tells(es, chosen, before, status) && Has(es, chosen, {Bounce, Complaint, Failure})
    ensures Tells(es + [e], chosen, before, status) && status in {Bounced, Spam, Failed}
  {
    var at: nat :| FirstEnd(es, chosen, at) &&
      match es[at].kind
      case Bounce => status == Bounced
      case Complaint => status == Spam
      case _ => status == Failed;
    EndStays(es, e, chosen, at);
    KindsMore(es, e, chosen);
  }

  /** The next event raises the status as a reader expects. */
  lemma TellsOn(es: seq<Event>, e: Event, chosen: Event -> bool, before: EmailStatus, status: EmailStatus)
    requires before in {Queued, Sending, Sent} && Tells(es, chosen, before, status)
    ensures Tells(es + [e], chosen, before, if chosen(e) then Raised(status, e.kind) else status)
  {
    if Has(es, chosen, {Bounce, Complaint, Failure}) {
      EndTold(es, e, chosen, before, status);
    } else {
      KindsMore(es, e, chosen);
      if chosen(e) && e.kind in {Bounce, Complaint, Failure} {
        assert forall j :: 0 <= j < |es| ==> (es + [e])[j] == es[j];
        assert FirstEnd(es + [e], chosen, |es|);
      }
    }
  }

  /** An event told before adds nothing. */
  lemma TellsAgain(es: seq<Event>, e: Event, chosen: Event -> bool, before: EmailStatus, status: EmailStatus)
    requires Tells(es, chosen, before, status)
    requires exists i :: 0 <= i < |es| && es[i].kind == e.kind && (chosen(e) ==> chosen(es[i]))
    ensures Tells(es + [e], chosen, before, status)
  {
    if Has(es, chosen, {Bounce, Complaint, Failure}) {
      EndTold(es, e, chosen, before, status);
    } else {
      KindsMore(es, e, chosen);
    }
  }

  lemma TwinTold(s: Log, es: seq<Event>, e: Event) returns (i: nat)
    requires s.keys == {} && Known(Folded(s, es), e)
    ensures i < |es| && es[i].kind == e.kind && es[i].recipient == e.recipient
  {
    KeysComeFromEvents(s, es);
    var f :| f in es && KeyOf(f) == KeyOf(e);
    i :| 0 <= i < |es| && es[i] == f;
  }

  /** The status of a message that was on its way, by the kinds of the events that have reached it. */
  lemma {:induction false} MessageTold(s: Log, es: seq<Event>)
    requires s.keys == {} && s.status in {Queued, Sending, Sent}
    ensures Tells(es, AnyEvent(), s.status, Folded(s, es).status)
  {
    if es == [] {
    } else {
      var before, e := es[..|es| - 1], es[|es| - 1];
      assert es == before + [e];
      MessageTold(s, before);
      if Known(Folded(s, before), e) {
        var i := TwinTold(s, before, e);
        TellsAgain(before, e, AnyEvent(), s.status, Folded(s, before).status);
      } else {
        TellsOn(before, e, AnyEvent(), s.status, Folded(s, before).status);
      }
    }
  }

  /** And of each recipient, by the kinds of the events that name the address. */
  lemma {:induction false} RecipientTold(s: Log, es: seq<Event>, i: nat)
    requires s.keys == {} && i < |s.recipients| && s.recipients[i].status in {Queued, Sending, Sent}
    ensures |Folded(s, es).recipients| == |s.recipients|
    ensures Folded(s, es).recipients[i].email == s.recipients[i].email
    ensures Tells(es, Naming(s.recipients[i].email), s.recipients[i].status,
                  Folded(s, es).recipients[i].status)
  {
    if es == [] {
    } else {
      var before, e := es[..|es| - 1], es[|es| - 1];
      var t := Folded(s, before);
      assert es == before + [e];
      RecipientTold(s, before, i);
      if Known(t, e) {
        var k := TwinTold(s, before, e);
        TellsAgain(before, e, Naming(s.recipients[i].email), s.recipients[i].status, t.recipients[i].status);
      } else {
        TellsOn(before, e, Naming(s.recipients[i].email), s.recipients[i].status, t.recipients[i].status);
      }
    }
  }

  /** An address is put on the list, for some domain, exactly by a bounce, a complaint or an unsubscription of its
      own. */
  lemma {:induction false} AddressSuppressedIff(s: Log, es: seq<Event>, address: string)
    requires s.keys == {}
    ensures (exists d: nat :: (d, address) in Folded(s, es).suppressed) <==>
      || (exists d: nat :: (d, address) in s.suppressed)
      || Has(es, Naming(address), {Bounce, Complaint, Unsubscribe})
  {
    if es == [] {
    } else {
      var before, e := es[..|es| - 1], es[|es| - 1];
      var t := Folded(s, before);
      assert es == before + [e];
      AddressSuppressedIff(s, before, address);
      HasMore(before, e, Naming(address), {Bounce, Complaint, Unsubscribe});
      if Known(t, e) {
        var i := TwinTold(s, before, e);
      } else if Suppresses(e) && e.recipient == address {
        assert (e.domain, address) in Folded(s, es).suppressed;
      }
    }
  }

  // ---- Where the promise ends ----

  lemma FoldTwo(s: Log, e: Event, f: Event)
    ensures Folded(s, [e, f]) == Apply(Apply(s, e), f)
  {
    assert [e, f][..1] == [e] && [e][..0] == [];
    assert Folded(s, [e]) == Apply(Folded(s, []), e);
  }

  /** Two deliveries of one id-carrying suppressing event: the order shows in the suppression list exactly when they
      resolved to different domains and neither pair was on the list already. */
  lemma RepeatOrderIff(s: Log, e: Event, f: Event)
    requires s.keys == {} && e.id != "" && KeyOf(e) == KeyOf(f) && Suppresses(e)
    ensures Observe(Folded(s, [e, f])) == Observe(Folded(s, [f, e])) <==>
      e.domain == f.domain || {(e.domain, e.recipient), (f.domain, e.recipient)} <= s.suppressed
  {
    assert Events([e, f]) == {e, f} == Events([f, e]);
    if e.domain == f.domain || {Pair(e), Pair(f)} <= s.suppressed {
      assert Settled(s, {e, f});
      EventsConverge(s, [e, f], [f, e]);
    } else {
      FoldTwo(s, e, f);
      FoldTwo(s, f, e);
      assert Observe(Apply(s, e)).suppressed == s.suppressed + {Pair(e)};
      assert Observe(Apply(s, f)).suppressed == s.suppressed + {Pair(f)};
    }
  }

  // ---- The message's rows, updated in place ----

  class Ledger {
    var status: EmailStatus
    var recipients: array<Recipient>
    var keys: set<Key>
    var anonymous: seq<Event>
    var suppressed: set<(nat, string)>

    constructor (status: EmailStatus, rows: seq<Recipient>)
      ensures State() == Log(status, rows, {}, [], {}) && fresh(recipients)
    {
      this.status, keys, anonymous, suppressed := status, {}, [], {};
      recipients := new Recipient[|rows|](i requires 0 <= i < |rows| => rows[i]);
    }

    function State(): Log
      reads this, recipients
    {
      Log(status, recipients[..], keys, anonymous, suppressed)
    }

    /** Answers whether a new event row was stored. */
    method CreateDeliveryEvent(e: Event) returns (created: bool)
      modifies this, recipients
      ensures recipients == old(recipients)
      ensures State() == Apply(old(State()), e)
      ensures created <==> e.id == "" || KeyOf(e) !in old(keys)
    {
      if e.id != "" {
        if KeyOf(e) in keys {
          return false;
        }
        keys := keys + {KeyOf(e)};
      } else {
        anonymous := anonymous + [e];
      }
      status := Raised(status, e.kind);
      for i := 0 to recipients.Length
        modifies recipients
        invariant forall k :: 0 <= k < i ==> recipients[k] == RaisedRow(old(recipients[k]), e)
        invariant forall k :: i <= k < recipients.Length ==> recipients[k] == old(recipients[k])
      {
        recipients[i] := RaisedRow(recipients[i], e);
      }
      if Suppresses(e) {
        suppressed := suppressed + {(e.domain, e.recipient)};
      }
      created := true;
    }
  }
}

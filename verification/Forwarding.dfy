/** Forwarding between mailboxes: the depth header on the wire, and why a network of forwards always dies out. */
module Forwarding {
  import opened Types
  import opened Text

  const MAX_FORWARD_DEPTH: nat := 3
  const DEPTH_HEADER := "X-Hedwig-Forward-Depth"

  // ---- str() and int() ----

  function Digit(d: nat): char
    requires d < 10
  {
    (('0' as int) + d) as char
  }

  predicate IsDigit(c: char) {
    '0' <= c <= '9'
  }

  function Value(c: char): nat
    requires IsDigit(c)
  {
    (c as int) - ('0' as int)
  }

  /** str(n) of a natural number. */
  function Print(n: nat): string {
    if n < 10 then [Digit(n)] else Print(n / 10) + [Digit(n % 10)]
  }

  /** The digits of an int() literal: single underscores may stand between digits. */
  function Number(s: string): Option<nat> {
    if s == [] || !IsDigit(s[|s| - 1]) then None
    else if |s| == 1 then Some(Value(s[0]))
    else
      var front := if s[|s| - 2] == '_' then s[..|s| - 2] else s[..|s| - 1];
      var high := Number(front);
      if high.None? then None else Some(10 * high.value + Value(s[|s| - 1]))
  }

  /** int(s), None where it raises ValueError. */
  function ParseInt(s: string): Option<int> {
    var t := Strip(s);
    var signed := t != [] && (t[0] == '-' || t[0] == '+');
    var n := Number(if signed then t[1..] else t);
    if n.None? then None
    else
      var magnitude: int := n.value;
      Some(if signed && t[0] == '-' then -magnitude else magnitude)
  }

  lemma {:induction false} PrintShape(n: nat)
    ensures Print(n) != [] && forall i :: 0 <= i < |Print(n)| ==> IsDigit(Print(n)[i])
  {
    if n < 10 {
    } else {
      PrintShape(n / 10);
    }
  }

  lemma {:induction false} NumberPrint(n: nat)
    ensures Number(Print(n)) == Some(n)
  {
    PrintShape(n);
    if n < 10 {
    } else {
      NumberPrint(n / 10);
      PrintShape(n / 10);
      var s := Print(n);
      assert s[..|s| - 1] == Print(n / 10);
      assert s[|s| - 2] == Print(n / 10)[|s| - 2];
    }
  }

  lemma PrintParses(n: nat)
    ensures ParseInt(Print(n)) == Some(n)
  {
    PrintShape(n);
    NumberPrint(n);
    var s := Print(n);
    assert IsDigit(s[0]) && IsDigit(s[|s| - 1]);
    assert Strip(s) == s;
  }

  lemma StripPadded(before: string, x: string, after: string)
    requires Blank(before) && Blank(after) && x != [] && !IsSpace(x[0]) && !IsSpace(x[|x| - 1])
    ensures Strip(before + x + after) == x
  {
    assert before + x + after == before + (x + after);
    StripLeftBlank(before, x + after);
    assert (x + after)[0] == x[0];
    StripRightKeeps(x, after);
    StripRightBlank(after);
  }

  /** int() takes a sign and blanks around a number. */
  lemma PaddedParses(before: string, sign: string, n: nat, after: string)
    requires Blank(before) && Blank(after) && sign in {"", "+", "-"}
    ensures var i := ParseInt(before + (sign + Print(n)) + after);
      i.Some? && (sign == "-" ==> i.value + n == 0) && (sign != "-" ==> i.value == n)
  {
    var x := sign + Print(n);
    PrintShape(n);
    NumberPrint(n);
    assert IsDigit(Print(n)[0]) && IsDigit(Print(n)[|Print(n)| - 1]);
    assert x[|x| - 1] == Print(n)[|Print(n)| - 1];
    StripPadded(before, x, after);
    if sign == "" { assert x == Print(n); } else { assert x[1..] == Print(n) && x[0] == sign[0]; }
  }

  /** A text with a character that is no digit, sign, underscore or blank is no number. */
  lemma {:induction false} NumberCharacters(s: string, i: nat)
    requires Number(s).Some? && i < |s|
    ensures IsDigit(s[i]) || s[i] == '_'
    decreases |s|
  {
    if |s| == 1 || i == |s| - 1 {
    } else {
      var front := if s[|s| - 2] == '_' then s[..|s| - 2] else s[..|s| - 1];
      if i < |front| { NumberCharacters(front, i); }
    }
  }

  // ---- Headers ----

  datatype Header = Header(name: string, value: string)

  /** payload_headers_to_dict: nameless entries are dropped and the last of a repeated name wins. */
  function HeadersToDict(headers: seq<Header>): map<string, string> {
    if headers == [] then map[]
    else
      var h := headers[|headers| - 1];
      var before := HeadersToDict(headers[..|headers| - 1]);
      if h.name != "" then before[h.name := h.value] else before
  }

  /** _current_forward_depth. */
  function CurrentDepth(headers: map<string, string>): nat {
    if DEPTH_HEADER !in headers then 0
    else
      var n := ParseInt(headers[DEPTH_HEADER]);
      if n.Some? && n.value > 0 then n.value else 0
  }

  /** The headers send_message puts on a forwarded message. */
  function WireHeaders(depth: nat, messageId: string): seq<Header> {
    [Header(DEPTH_HEADER, Print(depth)), Header("Message-ID", messageId)]
  }

  predicate Silent(headers: seq<Header>) {
    forall i :: 0 <= i < |headers| ==> headers[i].name != DEPTH_HEADER
  }

  lemma {:induction false} SilentAppend(a: seq<Header>, b: seq<Header>)
    requires Silent(b)
    ensures (DEPTH_HEADER in HeadersToDict(a + b)) == (DEPTH_HEADER in HeadersToDict(a))
    ensures DEPTH_HEADER in HeadersToDict(a) ==>
      HeadersToDict(a + b)[DEPTH_HEADER] == HeadersToDict(a)[DEPTH_HEADER]
  {
    if b == [] {
      assert a + b == a;
    } else {
      assert (a + b)[..|a + b| - 1] == a + b[..|b| - 1];
      SilentAppend(a, b[..|b| - 1]);
    }
  }

  /** The depth survives sending and receiving, whatever other headers the relays put around it. */
  lemma DepthSurvivesTheWire(depth: nat, messageId: string, before: seq<Header>, after: seq<Header>)
    requires Silent(after)
    ensures CurrentDepth(HeadersToDict(before + WireHeaders(depth, messageId) + after)) == depth
  {
    var own := [Header(DEPTH_HEADER, Print(depth))];
    var rest := [Header("Message-ID", messageId)] + after;
    assert "Message-ID" != DEPTH_HEADER by { assert |"Message-ID"| != |DEPTH_HEADER|; }
    assert before + WireHeaders(depth, messageId) + after == (before + own) + rest;
    assert (before + own)[..|before + own| - 1] == before;
    SilentAppend(before + own, rest);
    PrintParses(depth);
  }

  // ---- forward_message ----

  /** An inbound message as a mailbox ingests it; `hops` counts the forwards behind it. */
  datatype Mail = Mail(box: nat, sender: string, headers: map<string, string>, hops: nat)

  /** A forwarding target, and the mailbox of the network its mail arrives at, if any. */
  datatype Target = Target(address: string, arrives: Option<nat>)

  predicate Forwards(mail: Mail, address: string) {
    !(address != "" && mail.sender != "" && Lower(address) == Lower(mail.sender))
    && CurrentDepth(mail.headers) < MAX_FORWARD_DEPTH
  }

  /** A network: what each ingest tries to forward to (rules and mailbox.forward_to together), the mailboxes' own
      addresses, and what relays add around the headers of a forwarded mail. */
  datatype Network = Network(
    targets: Mail -> seq<Target>,
    addressOf: nat -> string,
    messageId: Mail -> string,
    before: Mail -> seq<Header>,
    after: Mail -> seq<Header>)

  /** One ingest forwards at most k times, and no relay forges the depth header. */
  ghost predicate FanOut(net: Network, k: nat) {
    forall m: Mail :: |net.targets(m)| <= k && Silent(net.after(m))
  }

  function ForwardedTo(net: Network, mail: Mail, box: nat): Mail {
    var wire := WireHeaders(CurrentDepth(mail.headers) + 1, net.messageId(mail));
    Mail(box, net.addressOf(mail.box), HeadersToDict(net.before(mail) + wire + net.after(mail)), mail.hops + 1)
  }

  /** How many forwards one ingest sends, and the mails of them that reach a mailbox of the network. */
  function Sent(net: Network, mail: Mail, targets: seq<Target>): (r: (nat, seq<Mail>))
    ensures |r.1| <= r.0 <= |targets|
  {
    if targets == [] then (0, [])
    else
      var (n, mails) := Sent(net, mail, targets[1..]);
      if !Forwards(mail, targets[0].address) then (n, mails)
      else if targets[0].arrives.None? then (n + 1, mails)
      else (n + 1, [ForwardedTo(net, mail, targets[0].arrives.value)] + mails)
  }

  // ---- Potential ----

  /** k + k^2 + ... : the forwards a mail at this depth can still cause. */
  function Budget(k: nat, depth: nat): nat
    decreases if depth < MAX_FORWARD_DEPTH then MAX_FORWARD_DEPTH - depth else 0
  {
    if depth >= MAX_FORWARD_DEPTH then 0 else k * (1 + Budget(k, depth + 1))
  }

  function Potential(k: nat, queue: seq<Mail>): nat {
    if queue == [] then 0 else Budget(k, CurrentDepth(queue[0].headers)) + Potential(k, queue[1..])
  }

  lemma {:induction false} PotentialAppend(k: nat, a: seq<Mail>, b: seq<Mail>)
    ensures Potential(k, a + b) == Potential(k, a) + Potential(k, b)
  {
    if a == [] {
      assert a + b == b;
    } else {
      assert (a + b)[1..] == a[1..] + b;
      PotentialAppend(k, a[1..], b);
    }
  }

  predicate Child(parent: Mail, m: Mail) {
    CurrentDepth(m.headers) == CurrentDepth(parent.headers) + 1 && m.hops == parent.hops + 1
  }

  lemma {:induction false} SentDepth(net: Network, k: nat, mail: Mail, targets: seq<Target>)
    requires FanOut(net, k)
    ensures Sent(net, mail, targets).0 > 0 ==> CurrentDepth(mail.headers) < MAX_FORWARD_DEPTH
    ensures forall i :: 0 <= i < |Sent(net, mail, targets).1| ==> Child(mail, Sent(net, mail, targets).1[i])
  {
    if targets == [] {
    } else {
      SentDepth(net, k, mail, targets[1..]);
      if targets[0].arrives.Some? {
        var m := ForwardedTo(net, mail, targets[0].arrives.value);
        DepthSurvivesTheWire(CurrentDepth(mail.headers) + 1, net.messageId(mail), net.before(mail), net.after(mail));
        assert Child(mail, m);
      }
    }
  }

  lemma MulMonotone(a: nat, b: nat, c: nat)
    requires a <= b
    ensures a * c <= b * c
  {
  }

  lemma OneMore(n: nat, each: nat)
    ensures (n + 1) * each == each + n * each
  {
  }

  lemma {:induction false} UniformPotential(k: nat, mails: seq<Mail>, depth: nat)
    requires forall i :: 0 <= i < |mails| ==> CurrentDepth(mails[i].headers) == depth
    ensures Potential(k, mails) == |mails| * Budget(k, depth)
  {
    if mails == [] {
    } else {
      UniformPotential(k, mails[1..], depth);
      OneMore(|mails[1..]|, Budget(k, depth));
    }
  }

  /** Sending n of at most k forwards, of which some arrive, costs no more than k that each go on to cause so many. */
  lemma Affordable(arriving: nat, n: nat, k: nat, each: nat)
    requires arriving <= n <= k
    ensures n + arriving * each <= k * (1 + each)
  {
    MulMonotone(arriving, n, each);
    MulMonotone(n, k, 1 + each);
    assert n * (1 + each) == n + n * each;
  }

  lemma SpendsWithin(k: nat, mail: Mail, n: nat, mails: seq<Mail>)
    requires |mails| <= n <= k && forall i :: 0 <= i < |mails| ==> Child(mail, mails[i])
    requires n > 0 ==> CurrentDepth(mail.headers) < MAX_FORWARD_DEPTH
    ensures n + Potential(k, mails) <= Budget(k, CurrentDepth(mail.headers))
  {
    if n > 0 {
      var d := CurrentDepth(mail.headers);
      forall i | 0 <= i < |mails| ensures CurrentDepth(mails[i].headers) == d + 1 {
        assert Child(mail, mails[i]);
      }
      UniformPotential(k, mails, d + 1);
      Affordable(|mails|, n, k, Budget(k, d + 1));
    }
  }

  /** Ingesting a mail spends at least as much of its budget as it forwards and passes on. */
  lemma IngestSpends(net: Network, k: nat, mail: Mail)
    requires FanOut(net, k)
    ensures var (n, mails) := Sent(net, mail, net.targets(mail));
      n + Potential(k, mails) <= Budget(k, CurrentDepth(mail.headers))
  {
    var (n, mails) := Sent(net, mail, net.targets(mail));
    SentDepth(net, k, mail, net.targets(mail));
    SpendsWithin(k, mail, n, mails);
  }

  // ---- The network at work ----

  /** Mails waiting to be ingested anywhere in the network, and the forwards sent so far. */
  datatype World = World(queue: seq<Mail>, forwards: nat)

  /** Some worker ingests the mail at this place in the queue. */
  function Ingest(net: Network, w: World, at: nat): World
    requires at < |w.queue|
  {
    var (n, mails) := Sent(net, w.queue[at], net.targets(w.queue[at]));
    World(w.queue[..at] + w.queue[at + 1..] + mails, w.forwards + n)
  }

  function Measure(k: nat, w: World): nat {
    |w.queue| + Potential(k, w.queue)
  }

  lemma IngestStep(net: Network, k: nat, w: World, at: nat)
    requires FanOut(net, k) && at < |w.queue|
    ensures var w' := Ingest(net, w, at);
      && w'.forwards + Potential(k, w'.queue) <= w.forwards + Potential(k, w.queue)
      && Measure(k, w') < Measure(k, w)
  {
    var mail := w.queue[at];
    var (n, mails) := Sent(net, mail, net.targets(mail));
    IngestSpends(net, k, mail);
    PotentialAppend(k, w.queue[..at] + w.queue[at + 1..], mails);
    PotentialAppend(k, w.queue[..at], w.queue[at + 1..]);
    PotentialAppend(k, w.queue[..at], w.queue[at..]);
    assert w.queue[..at] + w.queue[at..] == w.queue;
    assert w.queue[at..][1..] == w.queue[at + 1..];
  }

  /** A schedule: the place each ingest picks, every one of them in the queue at its turn. */
  predicate Schedule(net: Network, w: World, picks: seq<nat>)
    decreases |picks|
  {
    picks == [] || (picks[0] < |w.queue| && Schedule(net, Ingest(net, w, picks[0]), picks[1..]))
  }

  function After(net: Network, w: World, picks: seq<nat>): World
    requires Schedule(net, w, picks)
    decreases |picks|
  {
    if picks == [] then w else After(net, Ingest(net, w, picks[0]), picks[1..])
  }

  /** Whatever the order of ingestion, no schedule outlasts the measure and no run forwards more than the potential. */
  lemma {:induction false} SchedulesAreFinite(net: Network, k: nat, w: World, picks: seq<nat>)
    requires FanOut(net, k) && Schedule(net, w, picks)
    ensures |picks| + Measure(k, After(net, w, picks)) <= Measure(k, w)
    ensures After(net, w, picks).forwards <= w.forwards + Potential(k, w.queue)
    decreases |picks|
  {
    if picks == [] {
    } else {
      IngestStep(net, k, w, picks[0]);
      SchedulesAreFinite(net, k, Ingest(net, w, picks[0]), picks[1..]);
    }
  }

  lemma BudgetOfStranger(k: nat)
    ensures Budget(k, 0) == k + k * k + k * k * k
  {
    assert Budget(k, 3) == 0;
    assert Budget(k, 2) == k;
    assert Budget(k, 1) == k * (1 + k) == k + k * k;
    assert k * (1 + (k + k * k)) == k + k * k + k * (k * k);
    assert k * (k * k) == k * k * k;
  }

  lemma BudgetFalls(k: nat, depth: nat)
    ensures Budget(k, depth) <= Budget(k, 0)
  {
    BudgetOfStranger(k);
    if depth == 1 {
      assert Budget(k, 1) == k * (1 + Budget(k, 2));
      assert Budget(k, 2) == k * (1 + Budget(k, 3));
    } else if depth == 2 {
      assert Budget(k, 2) == k * (1 + Budget(k, 3));
    }
  }

  /** One mail from outside, in any graph of mailboxes with fan-out k and under any schedule: at most k + k^2 + k^3
      forwards are ever sent, and after 1 + k + k^2 + k^3 ingests nothing is left to ingest. */
  lemma ForwardingDiesOut(net: Network, k: nat, mail: Mail, picks: seq<nat>)
    requires FanOut(net, k) && Schedule(net, World([mail], 0), picks)
    ensures After(net, World([mail], 0), picks).forwards <= k + k * k + k * k * k
    ensures |picks| <= 1 + k + k * k + k * k * k
    ensures |picks| == 1 + k + k * k + k * k * k ==> After(net, World([mail], 0), picks).queue == []
  {
    var w := World([mail], 0);
    SchedulesAreFinite(net, k, w, picks);
    assert Potential(k, [mail][1..]) == 0;
    assert Potential(k, w.queue) == Budget(k, CurrentDepth(mail.headers));
    BudgetFalls(k, CurrentDepth(mail.headers));
    BudgetOfStranger(k);
  }

  // ---- Exactly what is forwarded ----

  /** The address is not the sender's, in whatever case. */
  predicate Stranger(mail: Mail, address: string) {
    address == "" || mail.sender == "" || !SameUpToCase(address, mail.sender)
  }

  function Strangers(mail: Mail, targets: seq<Target>): seq<Target> {
    if targets == [] then []
    else (if Stranger(mail, targets[0].address) then [targets[0]] else []) + Strangers(mail, targets[1..])
  }

  /** The mailboxes that mail to these targets reaches. */
  function Reached(targets: seq<Target>): seq<nat> {
    if targets == [] then []
    else (if targets[0].arrives.Some? then [targets[0].arrives.value] else []) + Reached(targets[1..])
  }

  /** What arrives at the box: a mail from the forwarding mailbox, one hop and one step of depth on. */
  predicate Arrives(net: Network, mail: Mail, box: nat, m: Mail) {
    && m.box == box && m.sender == net.addressOf(mail.box) && m.hops == mail.hops + 1
    && CurrentDepth(m.headers) == CurrentDepth(mail.headers) + 1
  }

  lemma ForwardArrives(net: Network, mail: Mail, box: nat)
    requires Silent(net.after(mail))
    ensures Arrives(net, mail, box, ForwardedTo(net, mail, box))
  {
    DepthSurvivesTheWire(CurrentDepth(mail.headers) + 1, net.messageId(mail), net.before(mail), net.after(mail));
  }

  lemma ForwardsIff(mail: Mail, address: string)
    ensures Forwards(mail, address) <==> Stranger(mail, address) && CurrentDepth(mail.headers) < 3
  {
    LowerIff(address, mail.sender);
  }

  lemma {:induction false} TooDeep(net: Network, mail: Mail, targets: seq<Target>)
    requires CurrentDepth(mail.headers) >= 3
    ensures Sent(net, mail, targets) == (0, [])
  {
    if targets == [] {
    } else {
      ForwardsIff(mail, targets[0].address);
      TooDeep(net, mail, targets[1..]);
    }
  }

  predicate AllArrive(net: Network, mail: Mail, boxes: seq<nat>, mails: seq<Mail>) {
    |mails| == |boxes| && forall i :: 0 <= i < |mails| ==> Arrives(net, mail, boxes[i], mails[i])
  }

  lemma OneMoreArrives(net: Network, mail: Mail, box: nat, boxes: seq<nat>, mails: seq<Mail>)
    requires Silent(net.after(mail)) && AllArrive(net, mail, boxes, mails)
    ensures AllArrive(net, mail, [box] + boxes, [ForwardedTo(net, mail, box)] + mails)
  {
    ForwardArrives(net, mail, box);
  }

  /** What the first target adds. */
  lemma SentFirst(net: Network, mail: Mail, targets: seq<Target>)
    requires targets != [] && CurrentDepth(mail.headers) < 3
    ensures var (n, mails) := Sent(net, mail, targets[1..]); var t := targets[0];
      Sent(net, mail, targets) ==
        if !Stranger(mail, t.address) then (n, mails)
        else if t.arrives.None? then (n + 1, mails)
        else (n + 1, [ForwardedTo(net, mail, t.arrives.value)] + mails)
    ensures Strangers(mail, targets) ==
      (if Stranger(mail, targets[0].address) then [targets[0]] else []) + Strangers(mail, targets[1..])
  {
    ForwardsIff(mail, targets[0].address);
  }

  lemma ReachedMore(t: Target, targets: seq<Target>)
    ensures Reached([t] + targets) == (if t.arrives.Some? then [t.arrives.value] else []) + Reached(targets)
  {
    assert ([t] + targets)[1..] == targets;
  }

  lemma {:induction false} ForwardsToStrangers(net: Network, mail: Mail, targets: seq<Target>)
    requires Silent(net.after(mail)) && CurrentDepth(mail.headers) < 3
    ensures Sent(net, mail, targets).0 == |Strangers(mail, targets)|
    ensures AllArrive(net, mail, Reached(Strangers(mail, targets)), Sent(net, mail, targets).1)
  {
    if targets == [] {
    } else {
      var t, rest := targets[0], Strangers(mail, targets[1..]);
      ForwardsToStrangers(net, mail, targets[1..]);
      SentFirst(net, mail, targets);
      if Stranger(mail, t.address) {
        ReachedMore(t, rest);
        if t.arrives.Some? {
          OneMoreArrives(net, mail, t.arrives.value, Reached(rest), Sent(net, mail, targets[1..]).1);
        } else {
          assert [] + Reached(rest) == Reached(rest);
        }
      } else {
        assert [] + rest == rest;
      }
    }
  }

  /** Below depth 3 an ingest forwards once to every target but the sender, and each mailbox reached gets one mail; at
      depth 3 it forwards nothing. */
  lemma ForwardsExactly(net: Network, mail: Mail)
    requires Silent(net.after(mail))
    ensures CurrentDepth(mail.headers) >= 3 ==> Sent(net, mail, net.targets(mail)) == (0, [])
    ensures CurrentDepth(mail.headers) < 3 ==>
      var (n, mails) := Sent(net, mail, net.targets(mail)); var strangers := Strangers(mail, net.targets(mail));
      n == |strangers| && AllArrive(net, mail, Reached(strangers), mails)
  {
    if CurrentDepth(mail.headers) >= 3 {
      TooDeep(net, mail, net.targets(mail));
    } else {
      ForwardsToStrangers(net, mail, net.targets(mail));
    }
  }

  /** Every ingest has k targets, none of them the sender, and every forward arrives. */
  ghost predicate Full(net: Network, k: nat) {
    forall m: Mail ::
      && |net.targets(m)| == k && Silent(net.after(m))
      && forall i :: 0 <= i < k ==> Stranger(m, net.targets(m)[i].address) && net.targets(m)[i].arrives.Some?
  }

  lemma {:induction false} AllStrangers(mail: Mail, targets: seq<Target>)
    requires forall i :: 0 <= i < |targets| ==> Stranger(mail, targets[i].address) && targets[i].arrives.Some?
    ensures Strangers(mail, targets) == targets && |Reached(targets)| == |targets|
  {
    if targets == [] {
    } else {
      AllStrangers(mail, targets[1..]);
    }
  }

  lemma FullIngestSpends(net: Network, k: nat, mail: Mail)
    requires Full(net, k)
    ensures var (n, mails) := Sent(net, mail, net.targets(mail));
      n == |mails| && n + Potential(k, mails) == Budget(k, CurrentDepth(mail.headers))
  {
    var (n, mails) := Sent(net, mail, net.targets(mail));
    ForwardsExactly(net, mail);
    AllStrangers(mail, net.targets(mail));
    if CurrentDepth(mail.headers) < 3 {
      UniformPotential(k, mails, CurrentDepth(mail.headers) + 1);
      SpentInFull(k, Budget(k, CurrentDepth(mail.headers) + 1));
    }
  }

  lemma SpentInFull(k: nat, each: nat)
    ensures k + k * each == k * (1 + each)
  {
  }

  lemma FullIngestStep(net: Network, k: nat, w: World, at: nat)
    requires Full(net, k) && at < |w.queue|
    ensures var w' := Ingest(net, w, at);
      && w'.forwards + Potential(k, w'.queue) == w.forwards + Potential(k, w.queue)
      && |w'.queue| + 1 - w'.forwards == |w.queue| - w.forwards
  {
    var mail := w.queue[at];
    var (n, mails) := Sent(net, mail, net.targets(mail));
    FullIngestSpends(net, k, mail);
    PotentialAppend(k, w.queue[..at] + w.queue[at + 1..], mails);
    PotentialAppend(k, w.queue[..at], w.queue[at + 1..]);
    PotentialAppend(k, w.queue[..at], w.queue[at..]);
    assert w.queue[..at] + w.queue[at..] == w.queue;
    assert w.queue[at..][1..] == w.queue[at + 1..];
  }

  lemma {:induction false} FullRun(net: Network, k: nat, w: World, picks: seq<nat>)
    requires Full(net, k) && Schedule(net, w, picks)
    ensures var t := After(net, w, picks);
      && t.forwards + Potential(k, t.queue) == w.forwards + Potential(k, w.queue)
      && |t.queue| + |picks| - t.forwards == |w.queue| - w.forwards
    decreases |picks|
  {
    if picks == [] {
    } else {
      FullIngestStep(net, k, w, picks[0]);
      FullRun(net, k, Ingest(net, w, picks[0]), picks[1..]);
    }
  }

  /** The bound is reached: where every ingest has k targets other than its sender and every forward arrives, a mail
      without a depth header has caused exactly k + k^2 + k^3 forwards once nothing is left to ingest. */
  lemma BoundIsReached(net: Network, k: nat, mail: Mail, picks: seq<nat>)
    requires Full(net, k) && "X-Hedwig-Forward-Depth" !in mail.headers
    requires Schedule(net, World([mail], 0), picks) && After(net, World([mail], 0), picks).queue == []
    ensures After(net, World([mail], 0), picks).forwards == k + k * k + k * k * k
    ensures |picks| == 1 + k + k * k + k * k * k
  {
    FullRun(net, k, World([mail], 0), picks);
    assert Potential(k, [mail][1..]) == 0;
    BudgetOfStranger(k);
  }

  /** And nothing is left to ingest in the end, in any network and from any queue. */
  lemma {:induction false} EveryQueueDrains(net: Network, k: nat, w: World) returns (picks: seq<nat>)
    requires FanOut(net, k)
    ensures Schedule(net, w, picks) && After(net, w, picks).queue == []
    decreases Measure(k, w)
  {
    if w.queue == [] {
      picks := [];
    } else {
      IngestStep(net, k, w, 0);
      var rest := EveryQueueDrains(net, k, Ingest(net, w, 0));
      picks := [0] + rest;
      assert picks[1..] == rest;
    }
  }

  /** There is such a network for every k, and in it such a run. */
  lemma BoundIsTight(k: nat) returns (net: Network, picks: seq<nat>)
    ensures FanOut(net, k) && Schedule(net, World([Mail(0, "a", map[], 0)], 0), picks)
    ensures After(net, World([Mail(0, "a", map[], 0)], 0), picks).forwards == k + k * k + k * k * k
  {
    net := Network((m: Mail) => seq(k, _ => Target(m.sender + "x", Some(0))), (b: nat) => "b", (m: Mail) => "",
                   (m: Mail) => [], (m: Mail) => []);
    assert Full(net, k);
    picks := EveryQueueDrains(net, k, World([Mail(0, "a", map[], 0)], 0));
    BoundIsReached(net, k, Mail(0, "a", map[], 0), picks);
  }

  // ---- Chains ----

  ghost predicate Shallow(queue: seq<Mail>) {
    forall i :: 0 <= i < |queue| ==>
      queue[i].hops <= CurrentDepth(queue[i].headers) && queue[i].hops <= MAX_FORWARD_DEPTH
  }

  /** No chain of forwards is longer than MAX_FORWARD_DEPTH, even when the first sender forged the header. */
  lemma {:induction false} ChainsAreShort(net: Network, k: nat, w: World, picks: seq<nat>)
    requires FanOut(net, k) && Schedule(net, w, picks) && Shallow(w.queue)
    ensures Shallow(After(net, w, picks).queue)
    decreases |picks|
  {
    if picks == [] {
    } else {
      var mail := w.queue[picks[0]];
      SentDepth(net, k, mail, net.targets(mail));
      var children := Sent(net, mail, net.targets(mail)).1;
      assert forall i :: 0 <= i < |children| ==> Child(mail, children[i]);
      ChainsAreShort(net, k, Ingest(net, w, picks[0]), picks[1..]);
    }
  }
}

/** Mailbox rules: a priority-ordered loop in which later conditions see what earlier actions did. */
module Rules {
  import opened Types
  import opened Text

  /** Keys of MailboxRule.conditions; None is an absent key, `others` an unsupported one that is present. */
  datatype Conditions = Conditions(
    fromContains: Option<string>,
    subjectContains: Option<string>,
    toContains: Option<string>,
    ccContains: Option<string>,
    hasAttachment: Option<bool>,
    hasLabel: Option<string>,
    others: bool)

  /** Keys of MailboxRule.actions; `stop` is its truth value, `carryOn` the value of "continue". */
  datatype Actions = Actions(
    addLabel: Option<string>,
    moveTo: Option<string>,
    forwardTo: Option<string>,
    stop: bool,
    carryOn: Option<bool>)

  datatype Rule = Rule(conditions: Conditions, actions: Actions)

  /** What conditions read and actions write; `forwards` lists the forward_message calls made so far. */
  datatype Message = Message(
    from: string,
    subject: string,
    to: seq<string>,
    cc: seq<string>,
    hasAttachments: bool,
    labels: set<string>,
    folder: Folder,
    forwards: seq<string>)

  // ---- Conditions ----

  predicate Present(o: Option<string>) {
    o.Some? && o.value != ""
  }

  predicate Contains(hay: string, needle: string) {
    needle <= hay || (hay != [] && Contains(hay[1..], needle))
  }

  predicate Mentions(text: string, wanted: Option<string>) {
    Present(wanted) ==> Contains(Lower(text), Lower(wanted.value))
  }

  predicate RowsMention(rows: seq<string>, wanted: Option<string>) {
    Present(wanted) ==> exists i :: 0 <= i < |rows| && Contains(Lower(rows[i]), Lower(wanted.value))
  }

  predicate NoConditions(c: Conditions) {
    c == Conditions(None, None, None, None, None, None, false)
  }

  /** _rule_matches: an empty condition set never matches, one with only unsupported keys always does. */
  predicate Matches(c: Conditions, m: Message) {
    && !NoConditions(c)
    && Mentions(m.from, c.fromContains)
    && Mentions(m.subject, c.subjectContains)
    && RowsMention(m.to, c.toContains)
    && RowsMention(m.cc, c.ccContains)
    && (c.hasAttachment.Some? ==> c.hasAttachment.value == m.hasAttachments)
    && (Present(c.hasLabel) ==> c.hasLabel.value in m.labels)
  }

  // ---- Actions ----

  function FolderNamed(name: string): Option<Folder> {
    if name == "inbox" then Some(Inbox)
    else if name == "sent" then Some(SentMail)
    else if name == "drafts" then Some(Drafts)
    else if name == "spam" then Some(Junk)
    else if name == "archive" then Some(Archive)
    else if name == "trash" then Some(Trash)
    else None
  }

  /** The folder a rule moves to, None for no move or one to a folder that does not exist. */
  function Move(a: Actions): Option<Folder> {
    if a.moveTo.None? then None else FolderNamed(a.moveTo.value)
  }

  function Acted(a: Actions, m: Message): Message {
    m.(labels := if Present(a.addLabel) then m.labels + {a.addLabel.value} else m.labels,
       folder := if Move(a).Some? then Move(a).value else m.folder,
       forwards := if Present(a.forwardTo) then m.forwards + [a.forwardTo.value] else m.forwards)
  }

  predicate Stops(a: Actions) {
    a.stop || a.carryOn == Some(false)
  }

  // ---- The specification of a pass over the rules ----

  /** The message after the first n rules, given which of them ran. */
  function Left(rules: seq<Rule>, ran: seq<bool>, m: Message, n: nat): Message
    requires n <= |rules| == |ran|
  {
    if n == 0 then m
    else
      var before := Left(rules, ran, m, n - 1);
      if ran[n - 1] then Acted(rules[n - 1].actions, before) else before
  }

  predicate StoppedBefore(rules: seq<Rule>, ran: seq<bool>, n: nat)
    requires n <= |rules| == |ran|
  {
    exists j :: 0 <= j < n && ran[j] && Stops(rules[j].actions)
  }

  /** A rule runs exactly if no stopping rule ran before it and it matches the message its predecessors left. */
  ghost predicate Faithful(rules: seq<Rule>, ran: seq<bool>, m: Message) {
    |ran| == |rules| && FaithfulTo(rules, ran, m, |rules|)
  }

  ghost predicate FaithfulTo(rules: seq<Rule>, ran: seq<bool>, m: Message, n: nat)
    requires n <= |rules| == |ran|
  {
    forall i :: 0 <= i < n ==>
      (ran[i] <==> !StoppedBefore(rules, ran, i) && Matches(rules[i].conditions, Left(rules, ran, m, i)))
  }

  lemma {:induction false} LeftAgrees(rules: seq<Rule>, ran: seq<bool>, ran': seq<bool>, m: Message, n: nat)
    requires n <= |rules| == |ran| == |ran'| && ran[..n] == ran'[..n]
    ensures Left(rules, ran, m, n) == Left(rules, ran', m, n)
    ensures StoppedBefore(rules, ran, n) == StoppedBefore(rules, ran', n)
  {
    assert forall j :: 0 <= j < n ==> ran[j] == ran[..n][j] == ran'[j];
    if n == 0 {
    } else {
      assert ran[..n - 1] == ran'[..n - 1];
      LeftAgrees(rules, ran, ran', m, n - 1);
    }
  }

  lemma NextAgrees(rules: seq<Rule>, ran: seq<bool>, ran': seq<bool>, m: Message, i: nat)
    requires Faithful(rules, ran, m) && Faithful(rules, ran', m) && i < |rules| && ran[..i] == ran'[..i]
    ensures ran[i] == ran'[i]
  {
    LeftAgrees(rules, ran, ran', m, i);
  }

  /** Two sequences that agree wherever they agreed so far are equal. */
  lemma {:induction false} AgreesThroughout(a: seq<bool>, b: seq<bool>, n: nat)
    requires n <= |a| == |b| && forall i :: 0 <= i < |a| && a[..i] == b[..i] ==> a[i] == b[i]
    ensures a[..n] == b[..n]
  {
    if n == 0 {
    } else {
      AgreesThroughout(a, b, n - 1);
      assert a[..n] == a[..n - 1] + [a[n - 1]];
      assert b[..n] == b[..n - 1] + [b[n - 1]];
    }
  }

  /** The specification leaves no choice. */
  lemma FaithfulUnique(rules: seq<Rule>, ran: seq<bool>, ran': seq<bool>, m: Message)
    requires Faithful(rules, ran, m) && Faithful(rules, ran', m)
    ensures ran == ran'
  {
    forall i | 0 <= i < |ran| && ran[..i] == ran'[..i]
      ensures ran[i] == ran'[i]
    {
      NextAgrees(rules, ran, ran', m, i);
    }
    AgreesThroughout(ran, ran', |rules|);
    assert ran[..|rules|] == ran && ran'[..|rules|] == ran';
  }

  // ---- What a pass amounts to ----

  /** The labels of the rules that ran are added, and none is ever removed. */
  lemma {:induction false} LabelsCollected(rules: seq<Rule>, ran: seq<bool>, m: Message, n: nat)
    requires n <= |rules| == |ran|
    ensures forall l :: l in Left(rules, ran, m, n).labels <==>
      l in m.labels || exists i :: 0 <= i < n && ran[i] && l != "" && rules[i].actions.addLabel == Some(l)
  {
    if n == 0 {
    } else {
      LabelsCollected(rules, ran, m, n - 1);
    }
  }

  predicate Moves(rules: seq<Rule>, ran: seq<bool>, i: nat)
    requires i < |rules| == |ran|
  {
    ran[i] && Move(rules[i].actions).Some?
  }

  lemma {:induction false} NoMoveKeepsFolder(rules: seq<Rule>, ran: seq<bool>, m: Message, i: nat, n: nat)
    requires i <= n <= |rules| == |ran| && forall j :: i <= j < n ==> !Moves(rules, ran, j)
    ensures Left(rules, ran, m, n).folder == Left(rules, ran, m, i).folder
  {
    if n == i {
    } else {
      NoMoveKeepsFolder(rules, ran, m, i, n - 1);
      assert !Moves(rules, ran, n - 1);
    }
  }

  /** The folder is that of the last valid move that ran, or the original one. */
  lemma LastMoveWins(rules: seq<Rule>, ran: seq<bool>, m: Message, n: nat)
    requires n <= |rules| == |ran|
    ensures (forall i :: 0 <= i < n ==> !Moves(rules, ran, i)) ==> Left(rules, ran, m, n).folder == m.folder
    ensures forall i :: 0 <= i < n && Moves(rules, ran, i) && (forall j :: i < j < n ==> !Moves(rules, ran, j)) ==>
      Left(rules, ran, m, n).folder == Move(rules[i].actions).value
  {
    if forall i :: 0 <= i < n ==> !Moves(rules, ran, i) {
      NoMoveKeepsFolder(rules, ran, m, 0, n);
    }
    forall i | 0 <= i < n && Moves(rules, ran, i) && (forall j :: i < j < n ==> !Moves(rules, ran, j))
      ensures Left(rules, ran, m, n).folder == Move(rules[i].actions).value
    {
      NoMoveKeepsFolder(rules, ran, m, i + 1, n);
    }
  }

  /** The addresses the rules that ran want the message forwarded to, in their order. */
  function Wanted(rules: seq<Rule>, ran: seq<bool>, n: nat): seq<string>
    requires n <= |rules| == |ran|
  {
    if n == 0 then []
    else
      Wanted(rules, ran, n - 1) +
      match rules[n - 1].actions.forwardTo
      case Some(address) => if ran[n - 1] && address != "" then [address] else []
      case None => []
  }

  /** A pass forwards once for each rule that ran and names an address, in the order of the rules. */
  lemma {:induction false} ForwardsPerRule(rules: seq<Rule>, ran: seq<bool>, m: Message, n: nat)
    requires n <= |rules| == |ran|
    ensures Left(rules, ran, m, n).forwards == m.forwards + Wanted(rules, ran, n) && |Wanted(rules, ran, n)| <= n
  {
    if n == 0 {
    } else {
      ForwardsPerRule(rules, ran, m, n - 1);
    }
  }

  // ---- What conditions and actions mean ----

  predicate MentionedAt(text: string, wanted: string, i: nat) {
    i + |wanted| <= |text| && SameUpToCase(text[i..i + |wanted|], wanted)
  }

  /** The text has the wanted one in it, in whatever case. */
  ghost predicate Mentioned(text: string, wanted: string) {
    exists i: nat :: MentionedAt(text, wanted, i)
  }

  predicate StartsAt(hay: string, needle: string, i: nat) {
    i + |needle| <= |hay| && hay[i..i + |needle|] == needle
  }

  lemma {:induction false} ContainsAt(hay: string, needle: string, i: nat)
    requires StartsAt(hay, needle, i)
    ensures Contains(hay, needle)
    decreases i
  {
    if i == 0 {
      assert hay[..|needle|] == needle;
    } else {
      assert hay[1..][i - 1..i - 1 + |needle|] == hay[i..i + |needle|];
      ContainsAt(hay[1..], needle, i - 1);
    }
  }

  lemma {:induction false} FoundAt(hay: string, needle: string) returns (i: nat)
    requires Contains(hay, needle)
    ensures StartsAt(hay, needle, i)
  {
    if needle <= hay {
      i := 0;
    } else {
      var k := FoundAt(hay[1..], needle);
      assert hay[k + 1..k + 1 + |needle|] == hay[1..][k..k + |needle|];
      i := k + 1;
    }
  }

  lemma LowerSlice(text: string, i: nat, n: nat)
    requires i + n <= |text|
    ensures Lower(text)[i..i + n] == Lower(text[i..i + n])
  {
  }

  lemma MentionedAtIff(text: string, wanted: string, i: nat)
    ensures StartsAt(Lower(text), Lower(wanted), i) <==> MentionedAt(text, wanted, i)
  {
    if i + |wanted| <= |text| {
      LowerSlice(text, i, |wanted|);
      LowerIff(text[i..i + |wanted|], wanted);
    }
  }

  lemma MentionedIff(text: string, wanted: string)
    ensures Contains(Lower(text), Lower(wanted)) <==> Mentioned(text, wanted)
  {
    if Contains(Lower(text), Lower(wanted)) {
      var i := FoundAt(Lower(text), Lower(wanted));
      MentionedAtIff(text, wanted, i);
    }
    if i: nat :| MentionedAt(text, wanted, i) {
      MentionedAtIff(text, wanted, i);
      ContainsAt(Lower(text), Lower(wanted), i);
    }
  }

  const NO_CONDITION := Conditions(None, None, None, None, None, None, false)

  /** The conditions but for the one that is added hold: there are none, or they match. */
  predicate OthersHold(c: Conditions, m: Message) {
    c == NO_CONDITION || Matches(c, m)
  }

  ghost predicate AnyMentions(rows: seq<string>, wanted: string) {
    exists i :: 0 <= i < |rows| && Mentioned(rows[i], wanted)
  }

  /** No condition matches nothing, an unsupported one alone everything. */
  lemma NoConditionMatchesNothing(m: Message)
    ensures !Matches(NO_CONDITION, m) && Matches(NO_CONDITION.(others := true), m)
  {
  }

  /** A supported condition, added to others, narrows the match by exactly its own test; an empty text tests nothing. */
  lemma SenderNarrows(c: Conditions, wanted: string, m: Message)
    requires c.fromContains.None?
    ensures Matches(c.(fromContains := Some(wanted)), m) <==>
      OthersHold(c, m) && (wanted == "" || Mentioned(m.from, wanted))
  {
    MentionedIff(m.from, wanted);
  }

  lemma SubjectNarrows(c: Conditions, wanted: string, m: Message)
    requires c.subjectContains.None?
    ensures Matches(c.(subjectContains := Some(wanted)), m) <==>
      OthersHold(c, m) && (wanted == "" || Mentioned(m.subject, wanted))
  {
    MentionedIff(m.subject, wanted);
  }

  lemma LabelNarrows(c: Conditions, wanted: string, m: Message)
    requires c.hasLabel.None?
    ensures Matches(c.(hasLabel := Some(wanted)), m) <==> OthersHold(c, m) && (wanted == "" || wanted in m.labels)
  {
  }

  lemma RowsMentionIff(rows: seq<string>, wanted: string)
    ensures RowsMention(rows, Some(wanted)) <==> wanted == "" || AnyMentions(rows, wanted)
  {
    forall i | 0 <= i < |rows| ensures Contains(Lower(rows[i]), Lower(wanted)) <==> Mentioned(rows[i], wanted) {
      MentionedIff(rows[i], wanted);
    }
  }

  lemma RecipientNarrows(c: Conditions, wanted: string, m: Message)
    requires c.toContains.None?
    ensures Matches(c.(toContains := Some(wanted)), m) <==>
      OthersHold(c, m) && (wanted == "" || AnyMentions(m.to, wanted))
  {
    RowsMentionIff(m.to, wanted);
  }

  lemma CopyNarrows(c: Conditions, wanted: string, m: Message)
    requires c.ccContains.None?
    ensures Matches(c.(ccContains := Some(wanted)), m) <==>
      OthersHold(c, m) && (wanted == "" || AnyMentions(m.cc, wanted))
  {
    RowsMentionIff(m.cc, wanted);
  }

  lemma AttachmentNarrows(c: Conditions, wanted: bool, m: Message)
    requires c.hasAttachment.None?
    ensures Matches(c.(hasAttachment := Some(wanted)), m) <==> OthersHold(c, m) && wanted == m.hasAttachments
  {
  }

  /** A rule runs exactly if it matches and no rule that ran before it said "stop", or "continue" with false. */
  lemma RunsIff(rules: seq<Rule>, ran: seq<bool>, m: Message, i: nat)
    requires Faithful(rules, ran, m) && i < |rules|
    ensures ran[i] <==>
      && Matches(rules[i].conditions, Left(rules, ran, m, i))
      && forall j :: 0 <= j < i && ran[j] ==> !rules[j].actions.stop && rules[j].actions.carryOn != Some(false)
  {
    if StoppedBefore(rules, ran, i) {
      var j :| 0 <= j < i && ran[j] && Stops(rules[j].actions);
      assert rules[j].actions.stop || rules[j].actions.carryOn == Some(false);
    }
  }

  /** The folders a rule can move to, by their names; no other name moves. */
  lemma FolderNames(name: string)
    ensures FolderNamed("inbox") == Some(Inbox) && FolderNamed("sent") == Some(SentMail)
    ensures FolderNamed("drafts") == Some(Drafts) && FolderNamed("spam") == Some(Junk)
    ensures FolderNamed("archive") == Some(Archive) && FolderNamed("trash") == Some(Trash)
    ensures name !in {"inbox", "sent", "drafts", "spam", "archive", "trash"} ==> FolderNamed(name) == None
  {
    assert |"inbox"| == 5 && |"sent"| == 4 && |"drafts"| == 6 && |"archive"| == 7;
    assert "spam"[0] == 's' && "spam"[1] == 'p' && "sent"[1] == 'e';
    assert "trash"[0] == 't' && "inbox"[0] == 'i';
  }

  function Nots(n: nat): seq<bool> {
    seq(n, _ => false)
  }

  lemma {:induction false} LeftPrefix(
    rules: seq<Rule>, more: seq<Rule>, ran: seq<bool>, more': seq<bool>, m: Message, n: nat)
    requires n <= |rules| == |ran| && |more| == |more'|
    ensures Left(rules + more, ran + more', m, n) == Left(rules, ran, m, n)
  {
    if n == 0 {
    } else {
      LeftPrefix(rules, more, ran, more', m, n - 1);
    }
  }

  lemma {:induction false} LeftIdle(rules: seq<Rule>, ran: seq<bool>, m: Message, from: nat, n: nat)
    requires from <= n <= |rules| == |ran| && forall i :: from <= i < n ==> !ran[i]
    ensures Left(rules, ran, m, n) == Left(rules, ran, m, from)
  {
    if n == from {
    } else {
      LeftIdle(rules, ran, m, from, n - 1);
    }
  }

  /** Rules behind a stopping rule that ran are irrelevant: none of them runs, and the message ends up the same. */
  lemma RulesAfterStopIrrelevant(rules: seq<Rule>, more: seq<Rule>, ran: seq<bool>, m: Message)
    requires Faithful(rules, ran, m) && StoppedBefore(rules, ran, |rules|)
    ensures Faithful(rules + more, ran + Nots(|more|), m)
    ensures Left(rules + more, ran + Nots(|more|), m, |rules + more|) == Left(rules, ran, m, |rules|)
  {
    var all, ran' := rules + more, ran + Nots(|more|);
    var stop :| 0 <= stop < |rules| && ran[stop] && Stops(rules[stop].actions);
    assert ran'[stop] && Stops(all[stop].actions);
    forall i | 0 <= i < |all|
      ensures ran'[i] <==> !StoppedBefore(all, ran', i) && Matches(all[i].conditions, Left(all, ran', m, i))
    {
      if i < |rules| {
        LeftPrefix(rules, more, ran, Nots(|more|), m, i);
        StoppedPrefix(rules, more, ran, Nots(|more|), i);
      }
    }
    LeftIdle(all, ran', m, |rules|, |all|);
    LeftPrefix(rules, more, ran, Nots(|more|), m, |rules|);
  }

  lemma StoppedPrefix(rules: seq<Rule>, more: seq<Rule>, ran: seq<bool>, more': seq<bool>, n: nat)
    requires n <= |rules| == |ran| && |more| == |more'|
    ensures StoppedBefore(rules + more, ran + more', n) == StoppedBefore(rules, ran, n)
  {
    assert forall j :: 0 <= j < n ==> (rules + more)[j] == rules[j] && (ran + more')[j] == ran[j];
    if StoppedBefore(rules, ran, n) {
      var j :| 0 <= j < n && ran[j] && Stops(rules[j].actions);
      assert (ran + more')[j] && Stops((rules + more)[j].actions);
    }
  }

  // ---- A second pass ----

  predicate SameInput(m: Message, m': Message) {
    && m.from == m'.from && m.subject == m'.subject && m.to == m'.to && m.cc == m'.cc
    && m.hasAttachments == m'.hasAttachments
  }

  lemma {:induction false} InputKept(rules: seq<Rule>, ran: seq<bool>, m: Message, n: nat)
    requires n <= |rules| == |ran|
    ensures SameInput(m, Left(rules, ran, m, n))
  {
    if n == 0 {
    } else {
      InputKept(rules, ran, m, n - 1);
    }
  }

  /** Without has_label conditions, running the rules again on their own result runs the same rules and leaves labels
      and folder as they were. */
  lemma SecondPassChangesNothing(rules: seq<Rule>, ran: seq<bool>, m: Message)
    requires Faithful(rules, ran, m)
    requires forall i :: 0 <= i < |rules| ==> !Present(rules[i].conditions.hasLabel)
    ensures var once := Left(rules, ran, m, |rules|); var twice := Left(rules, ran, once, |rules|);
      Faithful(rules, ran, once) && twice.labels == once.labels && twice.folder == once.folder
  {
    var once := Left(rules, ran, m, |rules|);
    InputKept(rules, ran, m, |rules|);
    forall i | 0 <= i < |rules|
      ensures Matches(rules[i].conditions, Left(rules, ran, m, i)) ==
              Matches(rules[i].conditions, Left(rules, ran, once, i))
    {
      InputKept(rules, ran, m, i);
      InputKept(rules, ran, once, i);
    }
    LabelsCollected(rules, ran, m, |rules|);
    LabelsCollected(rules, ran, once, |rules|);
    LastMoveWins(rules, ran, m, |rules|);
    LastMoveWins(rules, ran, once, |rules|);
    LastMover(rules, ran, |rules|);
  }

  /** Either no rule moves, or there is a last one that does. */
  lemma {:induction false} LastMover(rules: seq<Rule>, ran: seq<bool>, n: nat)
    requires n <= |rules| == |ran|
    ensures (forall i :: 0 <= i < n ==> !Moves(rules, ran, i))
      || exists i :: 0 <= i < n && Moves(rules, ran, i) && forall j :: i < j < n ==> !Moves(rules, ran, j)
  {
    if n == 0 || Moves(rules, ran, n - 1) {
    } else {
      LastMover(rules, ran, n - 1);
      if i :| 0 <= i < n - 1 && Moves(rules, ran, i) && forall j :: i < j < n - 1 ==> !Moves(rules, ran, j) {
        assert forall j :: i < j < n ==> !Moves(rules, ran, j);
      }
    }
  }

  // ---- The loop ----

  /** The pass has dealt with the first i rules, and none of them has stopped it. */
  ghost predicate Underway(rules: seq<Rule>, ran: seq<bool>, was: Message, m: Message, i: nat)
    requires i <= |rules| == |ran|
  {
    && m == Left(rules, ran, was, i) && FaithfulTo(rules, ran, was, i) && !StoppedBefore(rules, ran, i)
    && forall k :: i <= k < |rules| ==> !ran[k]
  }

  class Inbound {
    var message: Message

    constructor (message: Message)
      ensures this.message == message
    {
      this.message := message;
    }

    /** _apply_actions: answers whether evaluation stops here. */
    method ApplyActions(a: Actions) returns (stop: bool)
      modifies this
      ensures message == Acted(a, old(message)) && stop == Stops(a)
    {
      if a.addLabel.Some? && a.addLabel.value != "" {
        message := message.(labels := message.labels + {a.addLabel.value});
      }
      if a.moveTo.Some? && FolderNamed(a.moveTo.value).Some? && FolderNamed(a.moveTo.value).value != message.folder {
        message := message.(folder := FolderNamed(a.moveTo.value).value);
      }
      if a.forwardTo.Some? && a.forwardTo.value != "" {
        message := message.(forwards := message.forwards + [a.forwardTo.value]);
      }
      stop := a.stop || (a.carryOn.Some? && !a.carryOn.value);
    }

    /** evaluate_rules on the mailbox's active rules in priority order; `ran` says which rules were executed. */
    method EvaluateRules(rules: seq<Rule>) returns (ran: seq<bool>)
      modifies this
      ensures Faithful(rules, ran, old(message))
      ensures message == Left(rules, ran, old(message), |rules|)
    {
      ran := Nots(|rules|);
      var i := 0;
      while i < |rules|
        invariant i <= |rules| == |ran|
        invariant Underway(rules, ran, old(message), message, i)
      {
        if Matches(rules[i].conditions, message) {
          ghost var before := ran;
          ran := ran[i := true];
          RanNow(rules, before, ran, old(message), message, i);
          var stop := ApplyActions(rules[i].actions);
          if stop {
            StoppedHere(rules, ran, old(message), i);
            return;
          }
        } else {
          NotNow(rules, ran, old(message), message, i);
        }
        i := i + 1;
      }
    }
  }

  /** Nothing runs behind the first stopping rule. */
  lemma StoppedHere(rules: seq<Rule>, ran: seq<bool>, m: Message, i: nat)
    requires i < |rules| == |ran| && FaithfulTo(rules, ran, m, i + 1)
    requires ran[i] && Stops(rules[i].actions) && forall k :: i < k < |rules| ==> !ran[k]
    ensures Faithful(rules, ran, m) && Left(rules, ran, m, |rules|) == Left(rules, ran, m, i + 1)
  {
    LeftIdle(rules, ran, m, i + 1, |rules|);
  }

  /** Running a matching rule is what the specification asks for; where it does not stop the pass goes on. */
  lemma RanNow(rules: seq<Rule>, before: seq<bool>, ran: seq<bool>, was: Message, m: Message, i: nat)
    requires i < |rules| == |before| && ran == before[i := true] && Underway(rules, before, was, m, i)
    requires Matches(rules[i].conditions, m)
    ensures Acted(rules[i].actions, m) == Left(rules, ran, was, i + 1) && FaithfulTo(rules, ran, was, i + 1)
    ensures forall k :: i < k < |rules| ==> !ran[k]
    ensures !Stops(rules[i].actions) ==> Underway(rules, ran, was, Acted(rules[i].actions, m), i + 1)
  {
    forall k | 0 <= k <= i
      ensures Left(rules, ran, was, k) == Left(rules, before, was, k)
      ensures StoppedBefore(rules, ran, k) == StoppedBefore(rules, before, k)
    {
      assert ran[..k] == before[..k];
      LeftAgrees(rules, ran, before, was, k);
    }
  }

  lemma StillNotStopped(rules: seq<Rule>, ran: seq<bool>, i: nat)
    requires i < |rules| == |ran| && !StoppedBefore(rules, ran, i) && !(ran[i] && Stops(rules[i].actions))
    ensures !StoppedBefore(rules, ran, i + 1)
  {
    forall j | 0 <= j < i + 1 && ran[j] ensures !Stops(rules[j].actions) {
      if j < i { assert !(ran[j] && Stops(rules[j].actions)); }
    }
  }

  lemma PassedOver(rules: seq<Rule>, ran: seq<bool>, was: Message, i: nat)
    requires i < |rules| == |ran| && FaithfulTo(rules, ran, was, i) && !ran[i]
    requires !Matches(rules[i].conditions, Left(rules, ran, was, i))
    ensures FaithfulTo(rules, ran, was, i + 1) && Left(rules, ran, was, i + 1) == Left(rules, ran, was, i)
  {
  }

  /** So is passing over a rule that does not match. */
  lemma NotNow(rules: seq<Rule>, ran: seq<bool>, was: Message, m: Message, i: nat)
    requires i < |rules| == |ran| && Underway(rules, ran, was, m, i) && !Matches(rules[i].conditions, m)
    ensures Underway(rules, ran, was, m, i + 1)
  {
    StillNotStopped(rules, ran, i);
    PassedOver(rules, ran, was, i);
  }
}

/** Subject normalization: stripping reply and forward prefixes ("Re: " is section 3.6.5 of RFC 5322). */
module Subject {
  import opened Text

  // ---- REPLY_PREFIX_PATTERN ----

  predicate StartsWith(s: string, word: string) {
    |s| >= |word| && Lower(s[..|word|]) == word
  }

  function SkipSpaces(s: string, from: nat): (i: nat)
    requires from <= |s|
    ensures from <= i <= |s| && Blank(s[from..i]) && (i < |s| ==> !IsSpace(s[i]))
    decreases |s| - from
  {
    if from < |s| && IsSpace(s[from]) then
      assert s[from..] == [s[from]] + s[from + 1..];
      SkipSpaces(s, from + 1)
    else from
  }

  /** Where the colon of a leading prefix is, for a prefix word of this length. */
  function ColonAfter(s: string, word: nat): (c: nat)
    requires word <= |s|
    ensures c <= |s|
  {
    var i := SkipSpaces(s, word);
    if i < |s| && s[i] == ':' then i else |s|
  }

  /** The index of the colon that ends a leading prefix, |s| if there is none. At most one alternative can match. */
  function PrefixColon(s: string): (c: nat)
    ensures c <= |s|
  {
    if StartsWith(s, "re") then ColonAfter(s, 2)
    else if StartsWith(s, "fwd") then ColonAfter(s, 3)
    else if StartsWith(s, "fw") then ColonAfter(s, 2)
    else |s|
  }

  predicate HasPrefix(s: string) {
    PrefixColon(s) < |s|
  }

  /** match.end(): past the colon and the whitespace after it. */
  function PrefixEnd(s: string): (e: nat)
    requires HasPrefix(s)
    ensures 0 < e <= |s|
  {
    SkipSpaces(s, PrefixColon(s) + 1)
  }

  // ---- The loop and what it computes ----

  function Core(trimmed: string): string
    decreases |trimmed|
  {
    if !HasPrefix(trimmed) then trimmed
    else
      StripShape(trimmed[PrefixEnd(trimmed)..]);
      Core(Strip(trimmed[PrefixEnd(trimmed)..]))
  }

  function Normalize(subject: string): string {
    Core(Strip(subject))
  }

  method NormalizeSubject(subject: string) returns (r: string)
    ensures r == Normalize(subject)
  {
    r := Strip(subject);
    while HasPrefix(r)
      invariant Core(r) == Normalize(subject)
      decreases |r|
    {
      StripShape(r[PrefixEnd(r)..]);
      r := Strip(r[PrefixEnd(r)..]);
    }
  }

  lemma {:induction false} CoreShape(t: string)
    requires Trimmed(t)
    ensures !HasPrefix(Core(t)) && Trimmed(Core(t))
    decreases |t|
  {
    if !HasPrefix(t) {
    } else {
      StripShape(t[PrefixEnd(t)..]);
      CoreShape(Strip(t[PrefixEnd(t)..]));
    }
  }

  lemma TrimmedStrip(t: string)
    requires Trimmed(t)
    ensures Strip(t) == t
  {
  }

  /** The result carries no prefix and no outer whitespace, and normalizing it again changes nothing. */
  lemma NormalizedShape(s: string)
    ensures !HasPrefix(Normalize(s)) && Trimmed(Normalize(s)) && Normalize(Normalize(s)) == Normalize(s)
  {
    StripShape(s);
    CoreShape(Strip(s));
    TrimmedStrip(Normalize(s));
  }

  // ---- Prepending prefixes ----

  /** One reply or forward prefix as a mail client may write it: "Re:", " FWD : ", "fw:  ". */
  ghost predicate IsPrefix(p: string, lead: nat, word: nat, colon: nat) {
    && lead + word <= colon < |p|
    && Blank(p[..lead]) && Blank(p[lead + word..colon]) && Blank(p[colon + 1..])
    && p[colon] == ':'
    && Lower(p[lead..lead + word]) in {"re", "fw", "fwd"}
  }

  ghost predicate ReplyPrefix(p: string) {
    exists lead: nat, word: nat, colon: nat :: IsPrefix(p, lead, word, colon)
  }

  lemma {:induction false} SkipsTo(s: string, from: nat, to: nat)
    requires from <= to < |s| && Blank(s[from..to]) && !IsSpace(s[to])
    ensures SkipSpaces(s, from) == to
    decreases |s| - from
  {
    if from == to {
    } else {
      assert s[from..to][0] == s[from];
      assert s[from + 1..to] == s[from..to][1..];
      SkipsTo(s, from + 1, to);
    }
  }

  lemma LetterNotSpace(c: char)
    requires LowerChar(c) in {'r', 'f', 'w', 'd', 'e'}
    ensures !IsSpace(c) && c != ':'
  {
  }

  /** A trimmed text that starts with a prefix word, blanks and a colon is recognized up to that colon. */
  lemma ColonFound(t: string, word: nat, colon: nat)
    requires word <= colon < |t| && Lower(t[..word]) in {"re", "fw", "fwd"}
    requires Blank(t[word..colon]) && t[colon] == ':'
    ensures PrefixColon(t) == colon
  {
    SkipsTo(t, word, colon);
    assert Lower(t[..word])[0] == LowerChar(t[0]) && Lower(t[..word])[1] == LowerChar(t[1]);
    assert Lower(t[..2])[0] == LowerChar(t[0]) && Lower(t[..2])[1] == LowerChar(t[1]);
    if word == 2 && |t| >= 3 && Lower(t[..2]) == "fw" {
      assert t[2] == ':' || IsSpace(t[word..colon][0]);
      assert Lower(t[..3])[2] == LowerChar(t[2]);
      if LowerChar(t[2]) == 'd' { LetterNotSpace(t[2]); }
    }
    if word == 3 {
      assert Lower(t[..3]) == "fwd";
    }
  }

  lemma AfterColon(t: string)
    requires HasPrefix(t)
    ensures Strip(t[PrefixEnd(t)..]) == Strip(t[PrefixColon(t) + 1..])
  {
    var c, e := PrefixColon(t), PrefixEnd(t);
    StripLeftBlank(t[c + 1..e], t[e..]);
    assert t[c + 1..e] + t[e..] == t[c + 1..];
  }

  /** A prefix without its outer blanks: a word, blanks, a colon. */
  ghost predicate BarePrefix(x: string, word: nat) {
    && 2 <= word < |x| && Lower(x[..word]) in {"re", "fw", "fwd"}
    && Blank(x[word..|x| - 1]) && x[|x| - 1] == ':'
  }

  lemma SliceOfSlice(p: string, from: nat, to: nat, i: nat, j: nat)
    requires from <= to <= |p| && i <= j <= to - from
    ensures p[from..to][i..j] == p[from + i..from + j]
  {
    var a, b := p[from..to][i..j], p[from + i..from + j];
    forall k | 0 <= k < j - i ensures a[k] == b[k] {
      assert a[k] == p[from..to][i + k] == p[from + (i + k)];
    }
  }

  lemma Undress(p: string) returns (before: string, x: string, word: nat, after: string)
    requires ReplyPrefix(p)
    ensures p == before + x + after && Blank(before) && Blank(after) && BarePrefix(x, word)
  {
    var lead: nat, len: nat, colon: nat :| IsPrefix(p, lead, len, colon);
    before, x, word, after := p[..lead], p[lead..colon + 1], len, p[colon + 1..];
    assert x[..word] == p[lead..lead + word];
    assert |Lower(x[..word])| == word;
    SliceOfSlice(p, lead, colon + 1, len, colon - lead);
  }

  lemma BarePrefixFound(x: string, word: nat, rest: string)
    requires BarePrefix(x, word)
    ensures PrefixColon(x + rest) == |x| - 1 && !IsSpace(x[0]) && !IsSpace(x[|x| - 1])
  {
    var t := x + rest;
    assert t[..word] == x[..word];
    assert t[word..|x| - 1] == x[word..|x| - 1];
    assert Lower(x[..word])[0] == LowerChar(x[0]);
    LetterNotSpace(x[0]);
    ColonFound(t, word, |x| - 1);
  }

  lemma BarePrefixIgnored(x: string, word: nat, s: string)
    requires BarePrefix(x, word)
    ensures Normalize(x + s) == Normalize(s)
  {
    BarePrefixFound(x, word, s);
    assert StripLeft(x + s) == x + s;
    StripRightKeeps(x, s);
    var t := x + StripRight(s);
    BarePrefixFound(x, word, StripRight(s));
    AfterColon(t);
    assert t[|x|..] == StripRight(s);
    StripIgnoresRight(s);
  }

  lemma PrefixIgnored(p: string, s: string)
    requires ReplyPrefix(p)
    ensures Normalize(p + s) == Normalize(s)
  {
    var before, x, word, after := Undress(p);
    assert p + s == before + (x + (after + s));
    StripLeftBlank(before, x + (after + s));
    BarePrefixIgnored(x, word, after + s);
    StripLeftBlank(after, s);
  }

  ghost predicate AllPrefixes(ps: seq<string>) {
    forall i :: 0 <= i < |ps| ==> ReplyPrefix(ps[i])
  }

  function Concat(ps: seq<string>): string {
    if ps == [] then "" else ps[0] + Concat(ps[1..])
  }

  /** Any number of reply and forward prefixes before a subject leave its normal form unchanged. */
  lemma {:induction false} PrefixesIgnored(ps: seq<string>, s: string)
    requires AllPrefixes(ps)
    ensures Normalize(Concat(ps) + s) == Normalize(s)
  {
    if ps == [] {
      assert Concat(ps) + s == s;
    } else {
      assert Concat(ps) + s == ps[0] + (Concat(ps[1..]) + s);
      PrefixIgnored(ps[0], Concat(ps[1..]) + s);
      PrefixesIgnored(ps[1..], s);
    }
  }

  // ---- Nothing but prefixes goes ----

  /** Whatever is recognized is a prefix as a mail client may write it, up to the blanks behind its colon. */
  lemma RecognizedIsPrefix(t: string)
    requires HasPrefix(t)
    ensures ReplyPrefix(t[..PrefixEnd(t)])
  {
    var c, p := PrefixColon(t), t[..PrefixEnd(t)];
    var word := if StartsWith(t, "re") then 2 else if StartsWith(t, "fwd") then 3 else 2;
    assert word <= c < |p| && c == SkipSpaces(t, word);
    assert p[0..word] == t[..word];
    SliceOfSlice(t, 0, |p|, word, c);
    SliceOfSlice(t, 0, |p|, c + 1, |p|);
    assert p == t[0..|p|] && p[..0] == [];
    assert IsPrefix(p, 0, word, c);
  }

  /** One round of the loop. */
  lemma SplitPrefix(t: string) returns (p: string, rest: string)
    requires Trimmed(t) && HasPrefix(t)
    ensures t == p + rest && |rest| < |t| && ReplyPrefix(p) && Trimmed(rest) && Core(t) == Core(rest)
  {
    p, rest := t[..PrefixEnd(t)], t[PrefixEnd(t)..];
    RecognizedIsPrefix(t);
    assert rest != [] ==> rest[0] == t[PrefixEnd(t)] && rest[|rest| - 1] == t[|t| - 1];
    TrimmedStrip(rest);
  }

  lemma OneMorePrefix(t: string, p: string, rest: string, more: seq<string>, core: string) returns (ps: seq<string>)
    requires ReplyPrefix(p) && AllPrefixes(more) && t == p + rest && rest == Concat(more) + core
    ensures AllPrefixes(ps) && t == Concat(ps) + core
  {
    ps := [p] + more;
    assert ps[1..] == more;
    assert p + (Concat(more) + core) == (p + Concat(more)) + core;
  }

  /** What is left of a trimmed text is what stands behind some number of prefixes at its start. */
  lemma {:induction false} CoreIsTheRest(t: string, core: string) returns (ps: seq<string>)
    requires Trimmed(t) && core == Core(t)
    ensures AllPrefixes(ps) && t == Concat(ps) + core
    decreases |t|
  {
    if !HasPrefix(t) {
      ps := [];
    } else {
      var p, rest := SplitPrefix(t);
      var more := CoreIsTheRest(rest, core);
      ps := OneMorePrefix(t, p, rest, more, core);
    }
  }

  /** The normal form of a subject is the trimmed subject without the reply and forward prefixes at its start, all of
      them and nothing else. */
  lemma OnlyPrefixesGo(s: string) returns (ps: seq<string>)
    ensures AllPrefixes(ps) && Strip(s) == Concat(ps) + Normalize(s)
    ensures forall n: nat :: n <= |Normalize(s)| ==> !ReplyPrefix(Normalize(s)[..n])
  {
    StripShape(s);
    ps := CoreIsTheRest(Strip(s), Normalize(s));
    NormalizedShape(s);
    var r := Normalize(s);
    forall n: nat | n <= |r| ensures !ReplyPrefix(r[..n]) {
      if ReplyPrefix(r[..n]) { StartIsRecognized(r, n); }
    }
  }

  lemma BlankStart(before: string, rest: string)
    requires Blank(before) && before != []
    ensures !Trimmed(before + rest)
  {
    assert (before + rest)[0] == before[0];
  }

  lemma BarePrefixRecognized(x: string, word: nat, rest: string)
    requires BarePrefix(x, word)
    ensures HasPrefix(x + rest)
  {
    BarePrefixFound(x, word, rest);
  }

  lemma StartsBare(t: string, before: string, x: string, word: nat, rest: string)
    requires Trimmed(t) && t == before + (x + rest) && Blank(before) && BarePrefix(x, word)
    ensures HasPrefix(t)
  {
    if before == [] {
      assert t == x + rest;
      BarePrefixRecognized(x, word, rest);
    } else {
      BlankStart(before, x + rest);
    }
  }

  lemma Regrouped(before: string, x: string, after: string, rest: string)
    ensures (before + x + after) + rest == before + (x + (after + rest))
  {
  }

  lemma StartIsRecognized(t: string, n: nat)
    requires Trimmed(t) && n <= |t| && ReplyPrefix(t[..n])
    ensures HasPrefix(t)
  {
    var before, x, word, after := Undress(t[..n]);
    Regrouped(before, x, after, t[n..]);
    assert t == t[..n] + t[n..];
    StartsBare(t, before, x, word, after + t[n..]);
  }
}

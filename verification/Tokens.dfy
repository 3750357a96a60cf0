/** The search tokenizer: splitting at whitespace outside double quotes, and what survives it. */
module Tokens {
  import opened Text

  // ---- The scan ----

  /** What is still to be emitted, with `current` collected so far and `quoted` saying whether a quote is open. */
  function Scan(query: string, quoted: bool, current: string): seq<string>
    decreases |query|
  {
    if query == [] then
      if current == "" then [] else [current]
    else if query[0] == '"' then
      Scan(query[1..], !quoted, current + [query[0]])
    else if IsSpace(query[0]) && !quoted then
      (if current == "" then [] else [current]) + Scan(query[1..], quoted, "")
    else
      Scan(query[1..], quoted, current + [query[0]])
  }

  function Tokenized(query: string): seq<string> {
    Scan(query, false, "")
  }

  method SearchTokens(query: string) returns (tokens: seq<string>)
    ensures tokens == Tokenized(query)
  {
    tokens := [];
    var current := "";
    var quoted := false;
    for i := 0 to |query|
      invariant Tokenized(query) == tokens + Scan(query[i..], quoted, current)
    {
      var c := query[i];
      if c == '"' {
        quoted := !quoted;
        current := current + [c];
      } else if IsSpace(c) && !quoted {
        if current != "" {
          tokens := tokens + [current];
          current := "";
        }
      } else {
        current := current + [c];
      }
    }
    if current != "" {
      tokens := tokens + [current];
    }
  }

  // ---- What a token list is ----

  /** Whether a quote is open after s. */
  function QuotedAfter(s: string, quoted: bool): bool
    decreases |s|
  {
    if s == [] then quoted else QuotedAfter(s[1..], if s[0] == '"' then !quoted else quoted)
  }

  /** s without the whitespace outside quotes. */
  function Kept(s: string, quoted: bool): string
    decreases |s|
  {
    if s == [] then ""
    else if s[0] == '"' then [s[0]] + Kept(s[1..], !quoted)
    else if IsSpace(s[0]) && !quoted then Kept(s[1..], quoted)
    else [s[0]] + Kept(s[1..], quoted)
  }

  predicate Solid(s: string, quoted: bool)
    decreases |s|
  {
    s == [] || (if s[0] == '"' then Solid(s[1..], !quoted) else (quoted || !IsSpace(s[0])) && Solid(s[1..], quoted))
  }

  function Flatten(tokens: seq<string>): string {
    if tokens == [] then "" else tokens[0] + Flatten(tokens[1..])
  }

  function Joined(tokens: seq<string>): string {
    if tokens == [] then "" else if |tokens| == 1 then tokens[0] else tokens[0] + " " + Joined(tokens[1..])
  }

  /** Nonempty tokens without unquoted whitespace, all but the last with balanced quotes. */
  predicate TokenList(tokens: seq<string>) {
    forall i :: 0 <= i < |tokens| ==>
      tokens[i] != "" && Solid(tokens[i], false) && (i < |tokens| - 1 ==> !QuotedAfter(tokens[i], false))
  }

  // ---- Appending one character ----

  lemma {:induction false} SolidAppend(s: string, quoted: bool, c: char)
    requires Solid(s, quoted) && (c == '"' || QuotedAfter(s, quoted) || !IsSpace(c))
    ensures Solid(s + [c], quoted)
    ensures QuotedAfter(s + [c], quoted) == if c == '"' then !QuotedAfter(s, quoted) else QuotedAfter(s, quoted)
    decreases |s|
  {
    if s == [] {
      assert s + [c] == [c];
      assert QuotedAfter([c][1..], if c == '"' then !quoted else quoted) == if c == '"' then !quoted else quoted;
    } else {
      assert (s + [c])[1..] == s[1..] + [c];
      SolidAppend(s[1..], if s[0] == '"' then !quoted else quoted, c);
    }
  }

  // ---- The scan yields a token list that keeps every other character ----

  lemma {:induction false} ScanShape(query: string, quoted: bool, current: string)
    requires Solid(current, false) && QuotedAfter(current, false) == quoted
    ensures TokenList(Scan(query, quoted, current))
    ensures Flatten(Scan(query, quoted, current)) == current + Kept(query, quoted)
    decreases |query|
  {
    if query == [] {
      if current != "" { assert Flatten([current]) == current + Flatten([]); }
    } else {
      var c := query[0];
      if c != '"' && IsSpace(c) && !quoted {
        var rest := Scan(query[1..], quoted, "");
        ScanShape(query[1..], quoted, "");
        assert Scan(query, quoted, current) == if current == "" then rest else [current] + rest;
        if current != "" {
          assert ([current] + rest)[1..] == rest;
        }
      } else {
        SolidAppend(current, false, c);
        var next := if c == '"' then !quoted else quoted;
        ScanShape(query[1..], next, current + [c]);
        assert current + [c] + Kept(query[1..], next) == current + ([c] + Kept(query[1..], next));
      }
    }
  }

  /** For every query: a proper token list, whose concatenation is the query without its unquoted whitespace. */
  lemma TokensOfAnyQuery(query: string)
    ensures TokenList(Tokenized(query)) && Flatten(Tokenized(query)) == Kept(query, false)
  {
    ScanShape(query, false, "");
  }

  // ---- Where the query is split ----

  lemma {:induction false} ScanSplits(s: string, c: char, t: string, quoted: bool, current: string)
    requires IsSpace(c) && c != '"' && !QuotedAfter(s, quoted)
    ensures Scan(s + ([c] + t), quoted, current) == Scan(s, quoted, current) + Scan(t, false, "")
    decreases |s|
  {
    if s == [] {
      assert s + ([c] + t) == [c] + t && ([c] + t)[1..] == t;
    } else {
      assert (s + ([c] + t))[1..] == s[1..] + ([c] + t);
      var next := if s[0] == '"' then !quoted else quoted;
      if s[0] != '"' && IsSpace(s[0]) && !quoted {
        ScanSplits(s[1..], c, t, quoted, "");
      } else {
        ScanSplits(s[1..], c, t, next, current + [s[0]]);
      }
    }
  }

  /** Every whitespace character that no quote encloses splits the query: the tokens are those of what is before it and
      those of what is behind it. */
  lemma SplitsAtWhitespace(s: string, c: char, t: string)
    requires IsSpace(c) && !QuotedAfter(s, false)
    ensures Tokenized(s + [c] + t) == Tokenized(s) + Tokenized(t)
  {
    assert s + [c] + t == s + ([c] + t);
    ScanSplits(s, c, t, false, "");
  }

  /** And nothing else does: a text without unquoted whitespace is one token, unless it is empty. */
  lemma SolidIsOneToken(t: string)
    requires Solid(t, false)
    ensures Tokenized(t) == if t == "" then [] else [t]
  {
    assert t + [] == t && "" + t == t;
    ScanSolid(t, [], false, "");
  }

  // ---- Round trip ----

  lemma {:induction false} ScanSolid(t: string, rest: string, quoted: bool, current: string)
    requires Solid(t, quoted)
    ensures Scan(t + rest, quoted, current) == Scan(rest, QuotedAfter(t, quoted), current + t)
    decreases |t|
  {
    if t == [] {
      assert t + rest == rest && current + t == current;
    } else {
      assert (t + rest)[1..] == t[1..] + rest;
      ScanSolid(t[1..], rest, if t[0] == '"' then !quoted else quoted, current + [t[0]]);
      assert current + [t[0]] + t[1..] == current + t;
    }
  }

  lemma TailIsTokenList(tokens: seq<string>)
    requires TokenList(tokens) && tokens != []
    ensures TokenList(tokens[1..])
  {
    forall i | 0 <= i < |tokens[1..]|
      ensures tokens[1..][i] != "" && Solid(tokens[1..][i], false)
      ensures i < |tokens[1..]| - 1 ==> !QuotedAfter(tokens[1..][i], false)
    {
      assert tokens[1..][i] == tokens[i + 1];
    }
  }

  /** A first token that leaves no quote open is split off at the space behind it. */
  lemma FirstToken(t: string, rest: string)
    requires t != "" && Solid(t, false) && !QuotedAfter(t, false)
    ensures Tokenized(t + ([' '] + rest)) == [t] + Tokenized(rest)
  {
    ScanSolid(t, [' '] + rest, false, "");
    assert "" + t == t && ([' '] + rest)[1..] == rest;
  }

  /** Tokenizing is inverse to joining with spaces, on every token list. */
  lemma {:induction false} JoinedTokenizes(tokens: seq<string>)
    requires TokenList(tokens)
    ensures Tokenized(Joined(tokens)) == tokens
  {
    if tokens == [] {
    } else if |tokens| == 1 {
      assert tokens[0] + [] == tokens[0] && "" + tokens[0] == tokens[0];
      ScanSolid(tokens[0], [], false, "");
    } else {
      TailIsTokenList(tokens);
      JoinedTokenizes(tokens[1..]);
      FirstToken(tokens[0], Joined(tokens[1..]));
      assert Joined(tokens) == tokens[0] + ([' '] + Joined(tokens[1..]));
      assert tokens == [tokens[0]] + tokens[1..];
    }
  }

  /** Tokenizing the space-joined tokens of any query gives the same tokens again. */
  lemma TokensRoundTrip(query: string)
    ensures Tokenized(Joined(Tokenized(query))) == Tokenized(query)
  {
    TokensOfAnyQuery(query);
    JoinedTokenizes(Tokenized(query));
  }
}

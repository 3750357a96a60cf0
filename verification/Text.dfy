/** The string operations the mail code relies on: whitespace as str.isspace() has it, strip(), and lower() on ASCII. */
module Text {

  predicate IsSpace(c: char) {
    var n := c as int;
    || 0x09 <= n <= 0x0D || 0x1C <= n <= 0x20 || n == 0x85 || n == 0xA0 || n == 0x1680
    || 0x2000 <= n <= 0x200A || n == 0x2028 || n == 0x2029 || n == 0x202F || n == 0x205F || n == 0x3000
  }

  /** The 29 whitespace characters, by their code points. */
  lemma WhitespaceCharacters(c: char)
    ensures IsSpace(c) <==> c as int in {
      9, 10, 11, 12, 13, 28, 29, 30, 31, 32, 133, 160, 5760,
      8192, 8193, 8194, 8195, 8196, 8197, 8198, 8199, 8200, 8201, 8202, 8232, 8233, 8239, 8287, 12288}
  {
  }

  function LowerChar(c: char): char {
    if 'A' <= c <= 'Z' then ((c as int) + 32) as char else c
  }

  function Lower(s: string): string {
    seq(|s|, i requires 0 <= i < |s| => LowerChar(s[i]))
  }

  /** Equal, or the same ASCII letter in the two cases, at every place. */
  predicate SameUpToCase(s: string, t: string) {
    |s| == |t| && forall i :: 0 <= i < |s| ==>
      || s[i] == t[i]
      || ('A' <= s[i] <= 'Z' && t[i] as int == s[i] as int + 32)
      || ('A' <= t[i] <= 'Z' && s[i] as int == t[i] as int + 32)
  }

  lemma LowerIff(s: string, t: string)
    ensures Lower(s) == Lower(t) <==> SameUpToCase(s, t)
  {
    if Lower(s) == Lower(t) {
      assert |Lower(s)| == |s| && |Lower(t)| == |t|;
      forall i | 0 <= i < |s| ensures LowerChar(s[i]) == LowerChar(t[i]) {
        assert Lower(s)[i] == Lower(t)[i];
      }
    }
    if SameUpToCase(s, t) {
      assert forall i :: 0 <= i < |s| ==> Lower(s)[i] == Lower(t)[i];
    }
  }

  predicate Blank(s: string) {
    forall i :: 0 <= i < |s| ==> IsSpace(s[i])
  }

  function StripLeft(s: string): string {
    if s != [] && IsSpace(s[0]) then StripLeft(s[1..]) else s
  }

  function StripRight(s: string): string {
    if s != [] && IsSpace(s[|s| - 1]) then StripRight(s[..|s| - 1]) else s
  }

  function Strip(s: string): string {
    StripRight(StripLeft(s))
  }

  predicate Trimmed(s: string) {
    s != [] ==> !IsSpace(s[0]) && !IsSpace(s[|s| - 1])
  }

  lemma {:induction false} StripLeftShape(s: string)
    ensures |StripLeft(s)| <= |s|
    ensures StripLeft(s) != [] ==> !IsSpace(StripLeft(s)[0])
    ensures StripLeft(s) == s[|s| - |StripLeft(s)|..] && Blank(s[..|s| - |StripLeft(s)|])
  {
    if s == [] || !IsSpace(s[0]) {
    } else {
      StripLeftShape(s[1..]);
      var k := |s| - |StripLeft(s)|;
      assert s[..k][1..] == s[1..][..k - 1];
      forall i | 0 <= i < k ensures IsSpace(s[i]) {
        if i > 0 { assert s[i] == s[1..][..k - 1][i - 1]; }
      }
    }
  }

  lemma {:induction false} StripRightShape(s: string)
    ensures |StripRight(s)| <= |s|
    ensures StripRight(s) == s[..|StripRight(s)|]
    ensures StripRight(s) != [] ==> !IsSpace(StripRight(s)[|StripRight(s)| - 1])
  {
    if s == [] || !IsSpace(s[|s| - 1]) {
    } else {
      StripRightShape(s[..|s| - 1]);
    }
  }

  lemma StripShape(s: string)
    ensures |Strip(s)| <= |s| && Trimmed(Strip(s))
  {
    StripLeftShape(s);
    StripRightShape(StripLeft(s));
  }

  lemma {:induction false} StripLeftBlank(w: string, s: string)
    requires Blank(w)
    ensures StripLeft(w + s) == StripLeft(s)
  {
    if w == [] {
      assert w + s == s;
    } else {
      assert (w + s)[1..] == w[1..] + s;
      StripLeftBlank(w[1..], s);
    }
  }

  lemma {:induction false} StripRightKeeps(x: string, s: string)
    requires x != [] && !IsSpace(x[|x| - 1])
    ensures StripRight(x + s) == x + StripRight(s)
  {
    if s == [] {
      assert x + s == x;
    } else if IsSpace(s[|s| - 1]) {
      assert (x + s)[..|x + s| - 1] == x + s[..|s| - 1];
      StripRightKeeps(x, s[..|s| - 1]);
    } else {
      assert StripRight(s) == s;
    }
  }

  lemma {:induction false} StripRightBlank(w: string)
    requires Blank(w)
    ensures StripRight(w) == []
  {
    if w == [] {
    } else {
      StripRightBlank(w[..|w| - 1]);
    }
  }

  /** Stripping on the left commutes with dropping the last character, as long as something is left. */
  lemma StripLeftOfInit(s: string)
    requires StripLeft(s) != [] && IsSpace(s[|s| - 1])
    ensures StripLeft(s)[..|StripLeft(s)| - 1] == StripLeft(s[..|s| - 1])
  {
    StripLeftShape(s);
    var k := |s| - |StripLeft(s)|;
    StripLeftBlank(s[..k], s[k..|s| - 1]);
    assert s[..k] + s[k..|s| - 1] == s[..|s| - 1];
    assert StripLeft(s)[..|s| - k - 1] == s[k..|s| - 1];
    if s[k..|s| - 1] != [] {
      assert StripLeft(s[k..|s| - 1]) == s[k..|s| - 1];
    }
  }

  lemma {:induction false} StripsCommute(s: string)
    ensures StripLeft(StripRight(s)) == StripRight(StripLeft(s))
  {
    if s != [] && IsSpace(s[|s| - 1]) {
      StripsCommute(s[..|s| - 1]);
      StripLeftShape(s);
      if StripLeft(s) != [] {
        StripLeftOfInit(s);
      } else {
        assert Blank(s);
        StripRightBlank(s);
      }
    } else if s != [] {
      StripLeftShape(s);
    }
  }

  lemma {:induction false} StripRightTwice(s: string)
    ensures StripRight(StripRight(s)) == StripRight(s)
  {
    StripRightShape(s);
  }

  lemma StripIgnoresRight(s: string)
    ensures Strip(StripRight(s)) == Strip(s)
  {
    StripsCommute(s);
    StripRightTwice(StripLeft(s));
  }
}

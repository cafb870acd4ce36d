/** Blank and stripped text. */
module Texts {
  predicate Whitespace(c: char) {
    c == ' ' || c == '\t' || c == '\n' || c == '\r' || c == '\U{0B}' || c == '\U{0C}' || '\U{1C}' <= c <= '\U{1F}'
  }

  predicate Blank(s: string) {
    forall i :: 0 <= i < |s| ==> Whitespace(s[i])
  }

  function StripLeft(s: string): (r: string)
    ensures |r| <= |s| && r == s[|s| - |r|..] && Blank(s[..|s| - |r|])
    ensures r != "" ==> !Whitespace(r[0])
  {
    if s == "" || !Whitespace(s[0]) then s else StripLeft(s[1..])
  }

  function StripRight(s: string): (r: string)
    ensures |r| <= |s| && r == s[..|r|] && Blank(s[|r|..])
    ensures r != "" ==> !Whitespace(r[|r| - 1])
  {
    if s == "" || !Whitespace(s[|s| - 1]) then s else StripRight(s[..|s| - 1])
  }

  /** `r` is `s` from `i` on, without the blank text around it. */
  ghost predicate Trims(s: string, r: string, i: nat) {
    i + |r| <= |s| && r == s[i..i + |r|] && Blank(s[..i]) && Blank(s[i + |r|..])
  }

  /** `str.strip`. */
  function Strip(s: string): string {
    StripRight(StripLeft(s))
  }

  /** Blank text goes away at both ends and nowhere else. */
  lemma StripTrims(s: string)
    ensures exists i: nat :: Trims(s, Strip(s), i)
    ensures var r := Strip(s); r != "" ==> !Whitespace(r[0]) && !Whitespace(r[|r| - 1])
  {
    var left, r := StripLeft(s), Strip(s);
    var i := |s| - |left|;
    assert r == s[i..i + |r|] && s[i + |r|..] == left[|r|..];
    assert Trims(s, r, i);
    if r != "" {
      assert r[0] == left[0] && r[|r| - 1] == StripRight(left)[|r| - 1];
    }
  }

  lemma StripBlank(s: string)
    ensures Strip(s) == "" <==> Blank(s)
  {
    StripTrims(s);
    var r := Strip(s);
    var i: nat :| Trims(s, r, i);
    if r == "" {
      assert forall k: nat :: k < |s| ==> Whitespace(if k < i then s[..i][k] else s[i..][k - i]);
    } else {
      assert s[i] == r[0];
    }
  }
}

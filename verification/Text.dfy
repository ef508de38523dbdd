/** The string operations the original leans on: Python's blank-trimming. */
module Text {
  /** Characters that `strip` and `rstrip` remove (the ASCII blanks and the common Unicode ones). */
  predicate IsBlank(c: char) {
    c == ' ' || ('\t' <= c <= '\r') || ('\U{1C}' <= c <= '\U{1F}') || c == '\U{85}' || c == '\U{A0}'
    || c == '\U{1680}' || ('\U{2000}' <= c <= '\U{200A}') || c == '\U{2028}' || c == '\U{2029}'
    || c == '\U{202F}' || c == '\U{205F}' || c == '\U{3000}'
  }

  predicate AllBlank(s: string) {
    forall c :: c in s ==> IsBlank(c)
  }

  function RStrip(s: string): (r: string)
    ensures r <= s && (r != "" ==> !IsBlank(r[|r| - 1]))
    ensures AllBlank(s[|r|..])
  {
    if s == "" then s
    else if IsBlank(s[|s| - 1]) then
      var r := RStrip(s[..|s| - 1]);
      assert s[|r|..] == s[..|s| - 1][|r|..] + [s[|s| - 1]];
      r
    else s
  }

  function LStrip(s: string): (r: string)
    ensures |r| <= |s| && r == s[|s| - |r|..] && (r != "" ==> !IsBlank(r[0]))
    ensures AllBlank(s[..|s| - |r|])
  {
    if s == "" then s
    else if IsBlank(s[0]) then
      var r := LStrip(s[1..]);
      assert s[..|s| - |r|] == [s[0]] + s[1..][..|s| - 1 - |r|];
      r
    else s
  }

  function Strip(s: string): string {
    RStrip(LStrip(s))
  }

  /** Text that `strip` empties is exactly text made of blanks. */
  lemma StripEmptiesBlanks(s: string)
    ensures Strip(s) == "" <==> AllBlank(s)
  {
    hide IsBlank;
    var l := LStrip(s);
    assert s == s[..|s| - |l|] + l;
    var r := RStrip(l);
    assert l == r + l[|r|..];
    if r != "" {
      assert r[|r| - 1] in s;
    }
  }

  ghost predicate CutOut(s: string, r: string, i: nat, j: nat) {
    i <= j <= |s| && r == s[i..j] && AllBlank(s[..i]) && AllBlank(s[j..])
  }

  /** `r` is `s` without the blanks at both ends, and there are none left. */
  ghost predicate IsTrimmed(s: string, r: string) {
    && (exists i: nat, j: nat :: CutOut(s, r, i, j))
    && (r != "" ==> !IsBlank(r[0]) && !IsBlank(r[|r| - 1]))
  }

  lemma StripTrims(s: string)
    ensures IsTrimmed(s, Strip(s))
  {
    var l := LStrip(s);
    var r := RStrip(l);
    var i := |s| - |l|;
    assert s[i..] == l && r == l[..|r|] && s[i..i + |r|] == r && s[i + |r|..] == l[|r|..];
    assert CutOut(s, r, i, i + |r|);
  }

  lemma BlankAt(s: string, i: nat)
    requires i < |s| && AllBlank(s)
    ensures IsBlank(s[i])
  {
  }

  /** Blanks taken off both ends stop before any visible character. */
  lemma InsideBlanks(s: string, r: string, i: nat, j: nat, q: string, m: nat, n: nat)
    requires CutOut(s, r, i, j) && CutOut(s, q, m, n) && r != "" && !IsBlank(r[0]) && !IsBlank(r[|r| - 1])
    ensures m <= i && j <= n
  {
    hide IsBlank, AllBlank;
    if i < m {
      BlankAt(s[..m], i);
    }
    if n < j {
      BlankAt(s[n..], j - 1 - n);
    }
  }

  /** There is one way to trim a text. */
  lemma TrimmedOnce(s: string, r: string, q: string)
    requires IsTrimmed(s, r) && IsTrimmed(s, q)
    ensures r == q
  {
    var i: nat, j: nat :| CutOut(s, r, i, j);
    var m: nat, n: nat :| CutOut(s, q, m, n);
    if r != "" {
      InsideBlanks(s, r, i, j, q, m, n);
    }
    if q != "" {
      InsideBlanks(s, q, m, n, r, i, j);
    }
    hide IsBlank, AllBlank;
  }

  lemma {:induction false} BlanksTrimToNothing(s: string)
    requires AllBlank(s)
    ensures RStrip(s) == ""
  {
    if s != "" {
      assert s[|s| - 1] in s;
      BlanksTrimToNothing(s[..|s| - 1]);
    }
  }
}

/** TrimSpace, ToUpper and ToLower on the characters that the status columns use. */
module Text {
  predicate IsSpace(c: char) {
    c == ' ' || '\t' <= c <= '\r' || c == '\U{85}' || c == '\U{A0}'
  }

  function TrimLeft(s: string): (t: string)
    ensures t == [] || !IsSpace(t[0])
    ensures |t| <= |s| && t == s[|s| - |t|..]
  {
    if s == [] then [] else if IsSpace(s[0]) then TrimLeft(s[1..]) else s
  }

  function TrimRight(s: string): (t: string)
    ensures t == [] || !IsSpace(t[|t| - 1])
    ensures |t| <= |s| && t == s[..|t|]
  {
    if s == [] then [] else if IsSpace(s[|s| - 1]) then TrimRight(s[..|s| - 1]) else s
  }

  function TrimSpace(s: string): (t: string)
    ensures Trimmed(t)
  {
    TrimRight(TrimLeft(s))
  }

  predicate Blank(s: string) {
    TrimSpace(s) == ""
  }

  predicate Trimmed(s: string) {
    s == "" || (!IsSpace(s[0]) && !IsSpace(s[|s| - 1]))
  }

  function UpChar(c: char): char {
    if 'a' <= c <= 'z' then (c as int - 32) as char else c
  }

  function LowChar(c: char): char {
    if 'A' <= c <= 'Z' then (c as int + 32) as char else c
  }

  function ToUpper(s: string): (t: string)
    ensures |t| == |s| && forall i :: 0 <= i < |s| ==> t[i] == UpChar(s[i])
  {
    seq(|s|, i requires 0 <= i < |s| => UpChar(s[i]))
  }

  function ToLower(s: string): (t: string)
    ensures |t| == |s| && forall i :: 0 <= i < |s| ==> t[i] == LowChar(s[i])
  {
    seq(|s|, i requires 0 <= i < |s| => LowChar(s[i]))
  }

  lemma TrimKeepsTrimmed(s: string)
    requires Trimmed(s)
    ensures TrimSpace(s) == s
  {}

  /** A second clean-up changes nothing. */
  lemma UpperTrimTwice(s: string)
    ensures ToUpper(TrimSpace(ToUpper(TrimSpace(s)))) == ToUpper(TrimSpace(s))
  {
    var t := ToUpper(TrimSpace(s));
    assert Trimmed(t);
    TrimKeepsTrimmed(t);
    assert ToUpper(t) == t;
  }

  predicate Upright(s: string) {
    Trimmed(s) && forall i :: 0 <= i < |s| ==> UpChar(s[i]) == s[i]
  }

  lemma UprightIsClean(s: string)
    requires Upright(s)
    ensures ToUpper(TrimSpace(s)) == s
  {
    TrimKeepsTrimmed(s);
  }

  predicate Lowly(s: string) {
    Trimmed(s) && forall i :: 0 <= i < |s| ==> LowChar(s[i]) == s[i]
  }

  lemma LowlyIsClean(s: string)
    requires Lowly(s)
    ensures ToLower(TrimSpace(s)) == s
  {
    TrimKeepsTrimmed(s);
  }

  // ---- what the functions do, without them ----

  lemma SpacesAre(c: char)
    ensures IsSpace(c) <==> c in {' ', '\t', '\n', '\U{0B}', '\U{0C}', '\r', '\U{85}', '\U{A0}'}
  {
    assert '\t' as int == 9 && '\r' as int == 13;
  }

  lemma {:induction false} LeftCut(s: string)
    ensures forall i :: 0 <= i < |s| - |TrimLeft(s)| ==> IsSpace(s[i])
  {
    if s != [] && IsSpace(s[0]) {
      LeftCut(s[1..]);
      assert forall i :: 0 < i < |s| ==> s[i] == s[1..][i - 1];
    }
  }

  lemma {:induction false} RightCut(s: string)
    ensures forall i :: |TrimRight(s)| <= i < |s| ==> IsSpace(s[i])
  {
    if s != [] && IsSpace(s[|s| - 1]) {
      RightCut(s[..|s| - 1]);
      assert forall i :: 0 <= i < |s| - 1 ==> s[i] == s[..|s| - 1][i];
    }
  }

  lemma Split(s: string, t: string, k: nat)
    requires k <= |s| && t == s[k..]
    ensures s == s[..k] + t
  {}

  lemma Rejoin(s: string, t: string)
    requires |t| <= |s| && t == s[..|t|]
    ensures s == t + s[|t|..]
  {}

  /** Trimming cuts blanks off both ends, and nothing else. */
  lemma TrimSpaceCutsBlanks(s: string) returns (left: string, right: string)
    ensures s == left + TrimSpace(s) + right && Trimmed(TrimSpace(s))
    ensures forall i :: 0 <= i < |left| ==> IsSpace(left[i])
    ensures forall i :: 0 <= i < |right| ==> IsSpace(right[i])
  {
    hide TrimLeft, TrimRight, IsSpace, Trimmed;
    var t, u := TrimLeft(s), TrimSpace(s);
    left, right := s[..|s| - |t|], t[|u|..];
    LeftCut(s);
    RightCut(t);
    Split(s, t, |s| - |t|);
    Rejoin(t, u);
    assert left + (u + right) == left + u + right;
  }

  const LOWER := "abcdefghijklmnopqrstuvwxyz"
  const UPPER := "ABCDEFGHIJKLMNOPQRSTUVWXYZ"

  lemma LowerAt(i: nat)
    requires i < 26
    ensures LOWER[i] as int == 97 + i
  {}

  lemma UpperAt(i: nat)
    requires i < 26
    ensures UPPER[i] as int == 65 + i
  {}

  /** The two alphabets map to each other, letter by letter. */
  lemma LettersChangeCase(i: nat)
    requires i < 26
    ensures UpChar(LOWER[i]) == UPPER[i] && LowChar(UPPER[i]) == LOWER[i]
  {
    LowerAt(i);
    UpperAt(i);
    hide LOWER, UPPER;
  }

  /** No other character changes. */
  lemma OthersKeepCase(c: char)
    ensures c !in LOWER ==> UpChar(c) == c
    ensures c !in UPPER ==> LowChar(c) == c
  {
    if 'a' <= c <= 'z' {
      LowerAt(c as int - 97);
    }
    if 'A' <= c <= 'Z' {
      UpperAt(c as int - 65);
    }
    hide LOWER, UPPER;
  }
}

/** Optional values and the ASCII reading of Go's text helpers. */
module Basics {
  datatype Option<+T> = None | Some(value: T)

  function FoldChar(c: char): char { if 'A' <= c <= 'Z' then c - 'A' + 'a' else c }

  function Fold(s: string): (r: string)
    ensures |r| == |s|
  {
    seq(|s|, i requires 0 <= i < |s| => FoldChar(s[i]))
  }

  predicate EqualFold(a: string, b: string) { Fold(a) == Fold(b) }

  lemma PrefixFolds(p: string, s: string)
    requires p <= s
    ensures Fold(p) <= Fold(s)
  {
    assert forall i :: 0 <= i < |p| ==> Fold(s)[i] == FoldChar(s[i]) == FoldChar(p[i]) == Fold(p)[i];
    assert Fold(s)[..|p|] == Fold(p);
  }

  predicate IsSpace(c: char) { c == ' ' || '\t' <= c <= '\r' }

  predicate Blank(s: string) { forall i :: 0 <= i < |s| ==> IsSpace(s[i]) }

  function TrimStart(s: string): string { if s == "" || !IsSpace(s[0]) then s else TrimStart(s[1..]) }

  function TrimEnd(s: string): string { if s == "" || !IsSpace(s[|s| - 1]) then s else TrimEnd(s[..|s| - 1]) }

  function TrimSpace(s: string): string { TrimEnd(TrimStart(s)) }

  lemma {:induction false} TrimStartMeans(s: string)
    ensures var r := TrimStart(s); |r| <= |s| && r == s[|s| - |r|..] && (r != "" ==> !IsSpace(r[0])) && Blank(s[..|s| - |r|])
    decreases |s|
  {
    if s != "" && IsSpace(s[0]) {
      TrimStartMeans(s[1..]);
      assert forall i :: 0 < i <= |s| - |TrimStart(s)| - 1 ==> s[i] == s[1..][..|s| - 1 - |TrimStart(s)|][i - 1];
    }
  }

  lemma {:induction false} TrimEndMeans(s: string)
    ensures var r := TrimEnd(s); r <= s && (r != "" ==> !IsSpace(r[|r| - 1])) && Blank(s[|r|..])
    decreases |s|
  {
    if s != "" && IsSpace(s[|s| - 1]) {
      var front := s[..|s| - 1];
      TrimEndMeans(front);
      assert forall i :: |TrimEnd(s)| <= i < |front| ==> s[i] == front[|TrimEnd(s)|..][i - |TrimEnd(s)|];
    }
  }

  /** The six ASCII spaces. */
  lemma IsSpaceMeans(c: char)
    ensures IsSpace(c) <==> c in {' ', '\t', '\n', '\U{0b}', '\U{0c}', '\r'}
  {
  }

  /** Folding identifies each capital with its small letter and nothing else. */
  lemma FoldCharMeans(c: char, d: char)
    ensures FoldChar(c) == FoldChar(d) <==>
      c == d || ('A' <= c <= 'Z' && d as int == c as int + 32) || ('A' <= d <= 'Z' && c as int == d as int + 32)
  {
  }

  /** Trimming removes the spaces at both ends and nothing else. */
  lemma TrimSpaceMeans(s: string)
    ensures var r := TrimSpace(s);
      && (r != "" ==> !IsSpace(r[0]) && !IsSpace(r[|r| - 1]))
      && exists i, j :: 0 <= i <= j <= |s| && r == s[i..j] && Blank(s[..i]) && Blank(s[j..])
  {
    TrimStartMeans(s);
    TrimEndMeans(TrimStart(s));
    var i := |s| - |TrimStart(s)|;
    var j := i + |TrimSpace(s)|;
    assert TrimSpace(s) == s[i..j] && s[j..] == TrimStart(s)[|TrimSpace(s)|..];
  }

  function TrimRight(s: string, c: char): (r: string)
    ensures r <= s && (r != "" ==> r[|r| - 1] != c) && forall i :: |r| <= i < |s| ==> s[i] == c
  {
    if s == "" || s[|s| - 1] != c then s else TrimRight(s[..|s| - 1], c)
  }
}

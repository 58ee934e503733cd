/** Slash-separated names: their components, their ancestors, and letter case. */
module Paths {
  import opened Bytes

  /** The first slash, or the end. */
  function Cut(s: text): (k: nat)
    ensures k <= |s|
    ensures forall j :: 0 <= j < k ==> s[j] != SLASH
    ensures k < |s| ==> s[k] == SLASH
  {
    if s == [] || s[0] == SLASH then 0 else
      var k := Cut(s[1..]);
      assert forall j :: 0 <= j < k ==> s[1..][j] == s[j + 1];
      assert forall j :: 0 < j < k + 1 ==> s[j] == s[1..][j - 1];
      1 + k
  }

  function Parts(s: text): (ps: seq<text>)
    ensures |ps| > 0
    decreases |s|
  {
    var k := Cut(s);
    if k == |s| then [s] else [s[..k]] + Parts(s[k + 1..])
  }

  function Join(ps: seq<text>): text
    requires |ps| > 0
  {
    if |ps| == 1 then ps[0] else ps[0] + [SLASH] + Join(ps[1..])
  }

  /** The directory `a` is above `b`: `b` continues `a` with a slash. */
  predicate IsAncestor(a: text, b: text) {
    |a| < |b| && b[..|a|] == a && b[|a|] == SLASH
  }

  /** Under a common first component, ancestors are those of the rest. */
  lemma AncestorUnder(head: text, b: text, rest: text)
    ensures IsAncestor(head + [SLASH] + b, head + [SLASH] + rest) <==> IsAncestor(b, rest)
  {
    var a, s := head + [SLASH] + b, head + [SLASH] + rest;
    var n := |head| + 1;
    assert s[n..] == rest && a[n..] == b;
    if |b| < |rest| {
      assert s[..|a|] == head + [SLASH] + rest[..|b|];
      if s[..|a|] == a {
        assert rest[..|b|] == (head + [SLASH] + rest[..|b|])[n..];
      }
    }
  }

  /** A name with a slash: its first component, and the rest. */
  lemma CutInTwo(s: text)
    requires Cut(s) < |s|
    ensures s == s[..Cut(s)] + [SLASH] + s[Cut(s) + 1..]
    ensures Parts(s) == [s[..Cut(s)]] + Parts(s[Cut(s) + 1..])
  {
    AroundSlash(s, Cut(s));
  }

  lemma AroundSlash(s: text, k: nat)
    requires k < |s| && s[k] == SLASH
    ensures s == s[..k] + [SLASH] + s[k + 1..]
  {
  }

  /** An ancestor longer than the first component shares it. */
  lemma AncestorCut(a: text, s: text)
    requires IsAncestor(a, s) && |a| != Cut(s)
    ensures |a| > Cut(s) && a == s[..Cut(s)] + [SLASH] + a[Cut(s) + 1..]
  {
    var k := Cut(s);
    assert forall i :: 0 <= i < |a| ==> a[i] == s[..|a|][i];
    assert a[..k] == s[..k] && a[k] == SLASH;
  }

  lemma {:induction false} AncestorIsJoin(a: text, s: text) returns (i: nat)
    requires IsAncestor(a, s)
    ensures 1 <= i < |Parts(s)| && a == Join(Parts(s)[..i])
    decreases |s|
  {
    var k := Cut(s);
    CutInTwo(s);
    if |a| == k {
      i := 1;
      assert Parts(s)[..1] == [s[..k]];
    } else {
      var b, rest := a[k + 1..], s[k + 1..];
      AncestorCut(a, s);
      AncestorUnder(s[..k], b, rest);
      var j := AncestorIsJoin(b, rest);
      JoinCons(s[..k], Parts(rest), j);
      i := j + 1;
    }
  }

  lemma JoinCons(head: text, tail: seq<text>, j: nat)
    requires 1 <= j <= |tail|
    ensures Join(([head] + tail)[..j + 1]) == head + [SLASH] + Join(tail[..j])
  {
    var parts := ([head] + tail)[..j + 1];
    assert parts == [head] + tail[..j];
    assert parts[1..] == tail[..j];
  }

  lemma {:induction false} JoinIsAncestor(s: text, i: nat)
    requires 1 <= i < |Parts(s)|
    ensures IsAncestor(Join(Parts(s)[..i]), s)
    decreases |s|
  {
    var k := Cut(s);
    CutInTwo(s);
    if i == 1 {
      assert Parts(s)[..1] == [s[..k]];
    } else {
      var rest := s[k + 1..];
      JoinIsAncestor(rest, i - 1);
      JoinCons(s[..k], Parts(rest), i - 1);
      AncestorUnder(s[..k], Join(Parts(rest)[..i - 1]), rest);
    }
  }

  /** `a` is the join of the first components, fewer than `n` of them. */
  ghost predicate IsJoin(a: text, parts: seq<text>, n: nat)
    requires n <= |parts|
  {
    exists j :: 1 <= j < n && a == Join(parts[..j])
  }

  /** The ancestors of a name are the joins of its first components. */
  lemma AncestorsAreJoins(a: text, s: text)
    ensures IsAncestor(a, s) <==> IsJoin(a, Parts(s), |Parts(s)|)
  {
    if IsAncestor(a, s) {
      var j := AncestorIsJoin(a, s);
    } else if IsJoin(a, Parts(s), |Parts(s)|) {
      var j :| 1 <= j < |Parts(s)| && a == Join(Parts(s)[..j]);
      JoinIsAncestor(s, j);
    }
  }

  function LowerChar(c: int): int {
    if 65 <= c <= 90 then c + 32 else c
  }

  function Lower(s: text): (t: text)
    ensures |t| == |s| && forall i :: 0 <= i < |s| ==> t[i] == LowerChar(s[i])
  {
    seq(|s|, i requires 0 <= i < |s| => LowerChar(s[i]))
  }
}

/** Which names of input files are payload, stated on the characters of the name. */
module PayloadNames {
  import opened Bytes
  import opened Paths
  import opened Classifier
  import Release
  import Tar

  /** From `i` to `j` the name is one component: between slashes, or the ends of the name. */
  predicate Component(name: text, i: nat, j: nat) {
    && i <= j <= |name|
    && (i == 0 || name[i - 1] == 47) && (j == |name| || name[j] == 47)
    && forall p :: i <= p < j ==> name[p] != 47
  }

  /** Letters, digits, '.', '_', '@' and '-'; a dot neither first nor last. */
  predicate Spelled(part: text) {
    && part != [] && part[0] != 46 && part[|part| - 1] != 46
    && forall p :: 0 <= p < |part| ==>
         var c := part[p]; 48 <= c <= 57 || 65 <= c <= 90 || 97 <= c <= 122 || c == 46 || c == 95 || c == 64 || c == 45
  }

  /** The two texts are equal but for the case of ASCII letters. */
  predicate EqualIgnoringCase(a: text, b: text) {
    && |a| == |b|
    && forall p :: 0 <= p < |a| ==>
         || a[p] == b[p]
         || (97 <= b[p] <= 122 && a[p] == b[p] - 32)
  }

  // "package.json", "node_modules", "npm-shrinkwrap.json", "binding.gyp"
  const PACKAGE_JSON: text := [112, 97, 99, 107, 97, 103, 101, 46, 106, 115, 111, 110]
  const NODE_MODULES: text := [110, 111, 100, 101, 95, 109, 111, 100, 117, 108, 101, 115]
  const SHRINKWRAP: text :=
    [110, 112, 109, 45, 115, 104, 114, 105, 110, 107, 119, 114, 97, 112, 46, 106, 115, 111, 110]
  const BINDING_GYP: text := [98, 105, 110, 100, 105, 110, 103, 46, 103, 121, 112]

  /** A name that npm or Node treats specially, in any case. */
  predicate Special(part: text) {
    || EqualIgnoringCase(part, PACKAGE_JSON) || EqualIgnoringCase(part, NODE_MODULES)
    || EqualIgnoringCase(part, SHRINKWRAP) || EqualIgnoringCase(part, BINDING_GYP)
  }

  // "package/dist/"
  const DIST: text := [112, 97, 99, 107, 97, 103, 101, 47, 100, 105, 115, 116, 47]

  function Slashes(s: text): nat {
    if s == [] then 0 else (if s[0] == 47 then 1 else 0) + Slashes(s[1..])
  }

  /** A payload name: below package/dist, short, not deep, and every further component well spelled and not special. */
  ghost predicate IsPayloadName(name: text) {
    && DIST <= name && |name| <= 200 && Slashes(name) <= 16
    && forall i: nat, j: nat :: 0 < i && Component(name, i, j) ==>
         |name[i..j]| <= 100 && Spelled(name[i..j]) && !Special(name[i..j])
  }

  // ---- Components and parts ----

  /** Behind a first component and its slash, components are those of the rest. */
  lemma Shifted(s: text, n: nat, i: nat, j: nat)
    requires 0 < n <= |s| && s[n - 1] == 47
    ensures Component(s[n..], i, j) <==> Component(s, i + n, j + n)
    ensures i <= j <= |s| - n ==> s[n..][i..j] == s[i + n..j + n]
  {
    var rest := s[n..];
    assert forall p :: 0 <= p < |rest| ==> rest[p] == s[p + n];
    assert forall p :: n <= p < |s| ==> s[p] == rest[p - n];
  }

  lemma FirstComponent(s: text, j: nat)
    ensures Component(s, 0, j) <==> j == Cut(s)
    ensures Parts(s)[0] == s[0..Cut(s)]
  {
    if Cut(s) < |s| {
      CutInTwo(s);
    }
    assert s[..Cut(s)] == s[0..Cut(s)];
  }

  /** From `i` to `j` is the component that the `k`-th part is. */
  predicate IsPart(s: text, part: text, k: nat, i: nat, j: nat) {
    Component(s, i, j) && part == s[i..j] && (k == 0 <==> i == 0)
  }

  lemma PartShifted(s: text, n: nat, part: text, k: nat, i: nat, j: nat)
    requires 0 < n <= |s| && s[n - 1] == 47 && IsPart(s[n..], part, k, i, j)
    ensures IsPart(s, part, k + 1, i + n, j + n)
  {
    Shifted(s, n, i, j);
  }

  ghost predicate Found(s: text, part: text, k: nat) {
    exists i: nat, j: nat :: IsPart(s, part, k, i, j)
  }

  /** Every one of `ps` is a component of `s`. */
  ghost predicate AllFound(s: text, ps: seq<text>) {
    forall k: nat :: k < |ps| ==> Found(s, ps[k], k)
  }

  /** Every component of `s` is one of `ps`. */
  ghost predicate AllNamed(s: text, ps: seq<text>) {
    forall i: nat, j: nat :: Component(s, i, j) ==> exists k: nat :: k < |ps| && IsPart(s, ps[k], k, i, j)
  }

  /** One more component in front. */
  lemma OneMoreFound(s: text, c: nat, rest: text, ps: seq<text>, all: seq<text>)
    requires c < |s| && s[c] == 47 && (forall p :: 0 <= p < c ==> s[p] != 47)
    requires rest == s[c + 1..] && AllFound(rest, ps) && all == [s[0..c]] + ps
    ensures AllFound(s, all)
  {
    forall k: nat | k < |all|
      ensures Found(s, all[k], k)
    {
      if k == 0 {
        assert IsPart(s, all[0], 0, 0, c);
      } else {
        var part := ps[k - 1];
        assert Found(rest, part, k - 1);
        var i: nat, j: nat :| IsPart(rest, part, k - 1, i, j);
        PartShifted(s, c + 1, part, k - 1, i, j);
        assert IsPart(s, all[k], k, i + c + 1, j + c + 1);
      }
    }
  }

  lemma OneMoreNamed(s: text, c: nat, rest: text, ps: seq<text>, all: seq<text>)
    requires c < |s| && s[c] == 47 && (forall p :: 0 <= p < c ==> s[p] != 47)
    requires rest == s[c + 1..] && AllNamed(rest, ps) && all == [s[0..c]] + ps
    ensures AllNamed(s, all)
  {
    forall i: nat, j: nat | Component(s, i, j)
      ensures exists k: nat :: k < |all| && IsPart(s, all[k], k, i, j)
    {
      if i == 0 {
        assert j == c;
        assert IsPart(s, all[0], 0, i, j);
      } else {
        assert i > c;
        var i', j' := i - c - 1, j - c - 1;
        Shifted(s, c + 1, i', j');
        var k: nat :| k < |ps| && IsPart(rest, ps[k], k, i', j');
        PartShifted(s, c + 1, ps[k], k, i', j');
        assert all[k + 1] == ps[k];
      }
    }
  }

  lemma OnlyOne(s: text)
    requires forall p :: 0 <= p < |s| ==> s[p] != 47
    ensures AllFound(s, [s]) && AllNamed(s, [s])
  {
    assert s[0..|s|] == s;
    assert IsPart(s, [s][0], 0, 0, |s|);
    forall i: nat, j: nat | Component(s, i, j)
      ensures i == 0 && j == |s|
    {
    }
  }

  /** The parts of a name are its components. */
  lemma {:induction false} PartsFound(s: text)
    ensures AllFound(s, Parts(s))
    decreases |s|
  {
    var c := Cut(s);
    if c == |s| {
      OnlyOne(s);
    } else {
      CutInTwo(s);
      var rest := s[c + 1..];
      PartsFound(rest);
      assert s[0..c] == s[..c];
      OneMoreFound(s, c, rest, Parts(rest), Parts(s));
    }
  }

  /** The components of a name are its parts. */
  lemma {:induction false} PartsNamed(s: text)
    ensures AllNamed(s, Parts(s))
    decreases |s|
  {
    var c := Cut(s);
    if c == |s| {
      OnlyOne(s);
    } else {
      CutInTwo(s);
      var rest := s[c + 1..];
      PartsNamed(rest);
      assert s[0..c] == s[..c];
      OneMoreNamed(s, c, rest, Parts(rest), Parts(s));
    }
  }

  lemma PartIsComponent(s: text, k: nat) returns (i: nat, j: nat)
    requires k < |Parts(s)|
    ensures IsPart(s, Parts(s)[k], k, i, j)
  {
    PartsFound(s);
    assert Found(s, Parts(s)[k], k);
    i, j :| IsPart(s, Parts(s)[k], k, i, j);
  }

  lemma ComponentIsPart(s: text, i: nat, j: nat) returns (k: nat)
    requires Component(s, i, j)
    ensures k < |Parts(s)| && IsPart(s, Parts(s)[k], k, i, j)
  {
    PartsNamed(s);
    k :| k < |Parts(s)| && IsPart(s, Parts(s)[k], k, i, j);
  }

  lemma {:induction false} SlashesAfter(s: text)
    ensures Slashes(s) == if Cut(s) == |s| then 0 else 1 + Slashes(s[Cut(s) + 1..])
  {
    if s != [] && s[0] != 47 {
      var rest := s[1..];
      SlashesAfter(rest);
      if Cut(rest) < |rest| {
        assert rest[Cut(rest) + 1..] == s[Cut(s) + 1..];
      }
    }
  }

  lemma {:induction false} OneMoreThanSlashes(s: text)
    ensures |Parts(s)| == 1 + Slashes(s)
    decreases |s|
  {
    SlashesAfter(s);
    if Cut(s) < |s| {
      OneMoreThanSlashes(s[Cut(s) + 1..]);
    }
  }

  // ---- The rules for one component ----

  lemma LowerIff(part: text, word: text)
    requires forall p :: 0 <= p < |word| ==> !(65 <= word[p] <= 90)
    ensures Lower(part) == word <==> EqualIgnoringCase(part, word)
  {
    if EqualIgnoringCase(part, word) {
      assert Lower(part) == word;
    }
    if Lower(part) == word {
      forall p | 0 <= p < |part|
        ensures part[p] == word[p] || (97 <= word[p] <= 122 && part[p] == word[p] - 32)
      {
        assert Lower(part)[p] == LowerChar(part[p]);
      }
    }
  }

  lemma ForbiddenWords()
    ensures Forbidden() == {PACKAGE_JSON, NODE_MODULES, SHRINKWRAP, BINDING_GYP}
  {
    assert Str("package.json") == PACKAGE_JSON;
    assert Str("node_modules") == NODE_MODULES;
    assert Str("npm-shrinkwrap.json") == SHRINKWRAP;
    assert Str("binding.gyp") == BINDING_GYP;
  }

  lemma PermittedIff(part: text)
    ensures IsPermitted(part) <==> Spelled(part) && !Special(part)
  {
    ForbiddenWords();
    LowerIff(part, PACKAGE_JSON);
    LowerIff(part, NODE_MODULES);
    LowerIff(part, SHRINKWRAP);
    LowerIff(part, BINDING_GYP);
  }

  // ---- The whole name ----

  lemma DistIs()
    ensures Str("package/dist/") == DIST
  {
  }

  /** Every part after the first is permitted exactly when every component after the first is. */
  lemma PartsIffComponents(name: text)
    ensures (forall k :: 1 <= k < |Parts(name)| ==> IsPermitted(Parts(name)[k]))
       <==> forall i: nat, j: nat :: 0 < i && Component(name, i, j) ==> Spelled(name[i..j]) && !Special(name[i..j])
  {
    if forall k :: 1 <= k < |Parts(name)| ==> IsPermitted(Parts(name)[k]) {
      forall i: nat, j: nat | 0 < i && Component(name, i, j)
        ensures Spelled(name[i..j]) && !Special(name[i..j])
      {
        var k := ComponentIsPart(name, i, j);
        PermittedIff(name[i..j]);
      }
    }
    if forall i: nat, j: nat :: 0 < i && Component(name, i, j) ==> Spelled(name[i..j]) && !Special(name[i..j]) {
      forall k | 1 <= k < |Parts(name)|
        ensures IsPermitted(Parts(name)[k])
      {
        var i, j := PartIsComponent(name, k);
        PermittedIff(name[i..j]);
      }
    }
  }

  /** A name below package/dist with well-spelled components is ASCII. */
  lemma {:induction false} AsciiByParts(s: text)
    requires forall k :: 0 <= k < |Parts(s)| ==> Release.IsAsciiText(Parts(s)[k])
    ensures Release.IsAsciiText(s)
    decreases |s|
  {
    var c := Cut(s);
    assert Release.IsAsciiText(Parts(s)[0]);
    if c < |s| {
      CutInTwo(s);
      var rest := s[c + 1..];
      assert forall k :: 0 <= k < |Parts(rest)| ==> Parts(rest)[k] == Parts(s)[k + 1];
      AsciiByParts(rest);
      assert forall p :: c < p < |s| ==> s[p] == rest[p - c - 1];
      assert forall p :: 0 <= p < c ==> s[p] == s[..c][p];
    }
  }

  /** The first component of a name below package/dist. */
  lemma PackageIsFirst(name: text)
    requires DIST <= name
    ensures Parts(name)[0] == DIST[..7]
  {
    assert forall p :: 0 <= p < 13 ==> name[p] == DIST[p];
    assert forall p :: 0 <= p < 7 ==> DIST[p] != 47;
    assert name[7] == 47;
    assert Component(name, 0, 7);
    FirstComponent(name, 7);
  }

  lemma PayloadIsAscii(name: text)
    requires DIST <= name && forall k :: 1 <= k < |Parts(name)| ==> IsPermitted(Parts(name)[k])
    ensures Release.IsAsciiText(name) && Utf8Size(name) == |name|
    ensures forall k :: 0 <= k < |Parts(name)| ==> Utf8Size(Parts(name)[k]) == |Parts(name)[k]|
    ensures |Parts(name)[0]| == 7
  {
    PackageIsFirst(name);
    forall k | 0 <= k < |Parts(name)|
      ensures Release.IsAsciiText(Parts(name)[k]) && Utf8Size(Parts(name)[k]) == |Parts(name)[k]|
    {
      if k > 0 {
        PermittedIff(Parts(name)[k]);
      }
      Release.AsciiSize(Parts(name)[k]);
    }
    AsciiByParts(name);
    Release.AsciiSize(name);
  }

  lemma LengthsIff(name: text)
    requires |Parts(name)[0]| == 7
    ensures (forall k :: 0 <= k < |Parts(name)| ==> |Parts(name)[k]| <= 100)
       <==> forall i: nat, j: nat :: 0 < i && Component(name, i, j) ==> |name[i..j]| <= 100
  {
    if forall k :: 0 <= k < |Parts(name)| ==> |Parts(name)[k]| <= 100 {
      forall i: nat, j: nat | 0 < i && Component(name, i, j)
        ensures |name[i..j]| <= 100
      {
        var k := ComponentIsPart(name, i, j);
      }
    }
    if forall i: nat, j: nat :: 0 < i && Component(name, i, j) ==> |name[i..j]| <= 100 {
      forall k | 0 <= k < |Parts(name)|
        ensures |Parts(name)[k]| <= 100
      {
        var i, j := PartIsComponent(name, k);
      }
    }
  }

  /** A file is payload exactly under a payload name. */
  lemma PayloadIff(name: text, roots: set<text>)
    ensures RoleOf(Tar.File, name, roots) == Ok(Payload) <==> IsPayloadName(name)
  {
    DistIs();
    OneMoreThanSlashes(name);
    PartsIffComponents(name);
    if DIST <= name && forall k :: 1 <= k < |Parts(name)| ==> IsPermitted(Parts(name)[k]) {
      PayloadIsAscii(name);
      LengthsIff(name);
    }
  }

  // "package/"
  const PACKAGE: text := [112, 97, 99, 107, 97, 103, 101, 47]

  /** A root file of the package: right below package, under one of the names it ships. */
  predicate IsRootFile(name: text, roots: set<text>) {
    PACKAGE <= name && 47 !in name[8..] && name[8..] in roots && Utf8Size(name[8..]) <= 100
  }

  lemma PackageCut(name: text)
    requires PACKAGE <= name
    ensures Parts(name) == [name[..7]] + Parts(name[8..])
    ensures Utf8Size(name[..7]) == 7 && Utf8Size(name) == 8 + Utf8Size(name[8..])
  {
    assert forall p :: 0 <= p < 8 ==> name[p] == PACKAGE[p];
    assert Component(name, 0, 7);
    FirstComponent(name, 7);
    CutInTwo(name);
    Release.AsciiSize(name[..7]);
    Release.AsciiSize(PACKAGE);
    SizeOfBoth(PACKAGE, name[8..]);
    assert name == PACKAGE + name[8..];
  }

  lemma {:induction false} SizeOfBoth(a: text, b: text)
    ensures Utf8Size(a + b) == Utf8Size(a) + Utf8Size(b)
  {
    if a == [] {
      assert a + b == b;
    } else {
      assert (a + b)[1..] == a[1..] + b;
      SizeOfBoth(a[1..], b);
    }
  }

  lemma OnePartIff(s: text)
    ensures |Parts(s)| == 1 <==> 47 !in s
    ensures 47 !in s ==> Parts(s) == [s]
  {
    if 47 !in s {
      assert Cut(s) == |s|;
    }
  }

  lemma PackageIs()
    ensures Str("package/") == PACKAGE
  {
  }

  /** The two parts of a name right below package. */
  lemma RootParts(name: text)
    requires PACKAGE <= name
    ensures |Parts(name)| == 2 <==> 47 !in name[8..]
    ensures 47 !in name[8..] ==>
              Parts(name)[1] == name[8..] && (WithinCaps(name) <==> Utf8Size(name[8..]) <= 100)
  {
    PackageCut(name);
    OnePartIff(name[8..]);
    var ps, own := Parts(name), name[8..];
    if 47 !in own {
      assert ps == [name[..7], own];
      assert WithinCaps(name) <==> Utf8Size(ps[0]) <= 100 && Utf8Size(ps[1]) <= 100;
    }
  }

  lemma DistHasSlash(name: text)
    requires DIST <= name
    ensures PACKAGE <= name && 47 in name[8..]
  {
    assert DIST[..8] == PACKAGE && DIST[12] == 47;
    assert name[8..][4] == name[12] == DIST[12];
  }

  /** Below package and not below package/dist: only root files are accepted. */
  lemma RootIff(name: text, roots: set<text>)
    ensures RoleOf(Tar.File, name, roots) == Ok(Root) <==> IsRootFile(name, roots)
  {
    DistIs();
    PackageIs();
    if PACKAGE <= name {
      RootParts(name);
    }
    if DIST <= name {
      DistHasSlash(name);
    }
  }

  // "package" and "dist"
  const TOP: text := [112, 97, 99, 107, 97, 103, 101]
  const BELOW: text := [100, 105, 115, 116]

  lemma TopNames()
    ensures Str("package") == TOP && Str("package/dist") == PACKAGE + BELOW
  {
  }

  lemma OneWithin(s: text)
    requires |s| <= 100 && 47 !in s && Release.IsAsciiText(s)
    ensures WithinCaps(s)
  {
    OnePartIff(s);
    Release.AsciiSize(s);
  }

  lemma TwoWithin(own: text)
    requires |own| <= 100 && 47 !in own && Release.IsAsciiText(own)
    ensures WithinCaps(PACKAGE + own)
  {
    var name := PACKAGE + own;
    assert name[8..] == own;
    RootParts(name);
    Release.AsciiSize(own);
  }

  lemma TopsWithin()
    ensures WithinCaps(TOP) && WithinCaps(PACKAGE + BELOW)
  {
    OneWithin(TOP);
    TwoWithin(BELOW);
  }

  /** A directory is accepted exactly if it is package, package/dist or below it under a payload name. */
  lemma DirectoryIff(name: text, roots: set<text>)
    ensures RoleOf(Tar.Dir, name, roots).Ok? <==> name == TOP || name == PACKAGE + BELOW || IsPayloadName(name)
    ensures RoleOf(Tar.Dir, name, roots).Ok? ==> RoleOf(Tar.Dir, name, roots) == Ok(Neither)
  {
    TopNames();
    TopsWithin();
    PayloadIff(name, roots);
  }

  /** No payload name leaves its directory: no component is empty, "." or "..". */
  lemma PayloadStaysInside(name: text, roots: set<text>, i: nat, j: nat)
    requires RoleOf(Tar.File, name, roots) == Ok(Payload) && 0 < i && Component(name, i, j)
    ensures i < j && name[i..j] != [46] && name[i..j] != [46, 46]
  {
    PayloadIff(name, roots);
    assert Spelled(name[i..j]);
  }
}

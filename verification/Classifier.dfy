/** Which input members are accepted, and the file tree they form. */
module Classifier {
  import opened Bytes
  import opened Paths
  import Tar

  const MAX_PATH := 200
  const MAX_COMPONENT := 100
  const MAX_DEPTH := 16

  type Kind = Tar.Kind

  datatype Role = Payload | Root | Neither

  /** An accepted member: its kind and its effective name. */
  datatype Item = Item(kind: Kind, name: text, role: Role)

  function Str(s: string): (t: text)
    ensures |t| == |s| && forall i :: 0 <= i < |s| ==> t[i] == s[i] as int
  {
    seq(|s|, i requires 0 <= i < |s| => s[i] as int)
  }

  // ---- The rules for one name ----

  function Utf8Size(s: text): nat {
    if s == [] then 0 else
      (if s[0] < 0x80 then 1 else if s[0] < 0x800 then 2 else if s[0] < 0x10000 then 3 else 4) + Utf8Size(s[1..])
  }

  predicate IsAlphanumeric(c: int) {
    65 <= c <= 90 || 97 <= c <= 122 || 48 <= c <= 57
  }

  /** The characters of a component: letters, digits, '.', '_', '@' and '-'. */
  predicate IsComponent(part: text) {
    part != [] && forall i :: 0 <= i < |part| ==> IsAlphanumeric(part[i]) || part[i] in {46, 95, 64, 45}
  }

  predicate IsRootName(name: text) {
    && name != [] && IsAlphanumeric(name[0])
    && forall i :: 0 <= i < |name| ==> IsAlphanumeric(name[i]) || name[i] in {46, 95, 45}
  }

  function Forbidden(): set<text> {
    {Str("package.json"), Str("node_modules"), Str("npm-shrinkwrap.json"), Str("binding.gyp")}
  }

  predicate IsPermitted(part: text) {
    IsComponent(part) && part[0] != 46 && part[|part| - 1] != 46 && Lower(part) !in Forbidden()
  }

  function Effective(kind: Kind, name: text): text {
    if kind == Tar.Dir && name != [] && name[|name| - 1] == SLASH then name[..|name| - 1] else name
  }

  predicate WithinCaps(name: text) {
    && Utf8Size(name) <= MAX_PATH
    && (forall i :: 0 <= i < |Parts(name)| ==> Utf8Size(Parts(name)[i]) <= MAX_COMPONENT)
    && |Parts(name)| - 1 <= MAX_DEPTH
  }

  /** The role of an effective name, or a refusal, whatever came before it. */
  function RoleOf(kind: Kind, name: text, roots: set<text>): Result<Role> {
    var parts := Parts(name);
    if !WithinCaps(name) then Refused
    else if kind == Tar.Dir && (name == Str("package") || name == Str("package/dist")) then Ok(Neither)
    else if Str("package/dist/") <= name then
      if forall i :: 1 <= i < |parts| ==> IsPermitted(parts[i]) then Ok(if kind == Tar.File then Payload else Neither)
      else Refused
    else if Str("package/") <= name && |parts| == 2 then
      if kind == Tar.File && parts[1] in roots then Ok(Root) else Refused
    else Refused
  }

  // ---- The tree ----

  function Key(item: Item): text {
    Lower(item.name)
  }

  /** Names distinct ignoring case, and no file above another member. */
  ghost predicate ValidTree(items: seq<Item>) {
    && (forall i, j :: 0 <= i < j < |items| ==> Key(items[i]) != Key(items[j]))
    && forall i, j :: 0 <= i < |items| && 0 <= j < |items| && items[i].kind == Tar.File ==>
                        !IsAncestor(Key(items[i]), Key(items[j]))
  }

  /** A newcomer that collides with nothing. */
  ghost predicate Joins(items: seq<Item>, item: Item) {
    forall i :: 0 <= i < |items| ==>
      && Key(items[i]) != Key(item)
      && (items[i].kind == Tar.File ==> !IsAncestor(Key(items[i]), Key(item)))
      && (item.kind == Tar.File ==> !IsAncestor(Key(item), Key(items[i])))
  }

  lemma JoinsIffValid(items: seq<Item>, item: Item)
    requires ValidTree(items)
    ensures Joins(items, item) <==> ValidTree(items + [item])
  {
    var more := items + [item];
    assert forall i :: 0 <= i < |items| ==> more[i] == items[i];
    assert more[|items|] == item;
    if ValidTree(more) {
      forall i | 0 <= i < |items|
        ensures Key(items[i]) != Key(item)
        ensures items[i].kind == Tar.File ==> !IsAncestor(Key(items[i]), Key(item))
        ensures item.kind == Tar.File ==> !IsAncestor(Key(item), Key(items[i]))
      {
        assert more[i] == items[i];
      }
    }
  }

  /** `k` is the directory `item`, or one above it. */
  ghost predicate Above(k: text, item: Item) {
    (item.kind == Tar.Dir && Key(item) == k) || IsAncestor(k, Key(item))
  }

  /** The sets say which names were accepted, and `dirs` also holds every implied directory. */
  ghost predicate Tracks(items: seq<Item>, seen: set<text>, files: set<text>, dirs: set<text>) {
    && (forall k :: k in seen <==> exists i :: 0 <= i < |items| && Key(items[i]) == k)
    && (forall k :: k in files <==> exists i :: 0 <= i < |items| && items[i].kind == Tar.File && Key(items[i]) == k)
    && (forall k :: k in dirs <==> exists i :: 0 <= i < |items| && Above(k, items[i]))
  }

  /** The three tests on the sets are exactly the tests against every earlier member. */
  lemma {:induction false} RefusalReasons(
    items: seq<Item>, item: Item, seen: set<text>, files: set<text>, dirs: set<text>)
    requires Tracks(items, seen, files, dirs)
    ensures Joins(items, item) <==>
            && Key(item) !in seen
            && (item.kind == Tar.File ==> Key(item) !in dirs)
            && (forall a :: IsAncestor(a, Key(item)) ==> a !in files)
  {
    var key := Key(item);
    if && Key(item) !in seen && (item.kind == Tar.File ==> key !in dirs)
       && (forall a :: IsAncestor(a, key) ==> a !in files) {
      forall i | 0 <= i < |items|
        ensures Key(items[i]) != key
        ensures items[i].kind == Tar.File ==> !IsAncestor(Key(items[i]), key)
        ensures item.kind == Tar.File ==> !IsAncestor(key, Key(items[i]))
      {
        assert Key(items[i]) in seen;
        assert items[i].kind == Tar.File ==> Key(items[i]) in files;
        assert IsAncestor(key, Key(items[i])) ==> Above(key, items[i]);
      }
    }
  }

  lemma TracksGrows(items: seq<Item>, item: Item, seen: set<text>, files: set<text>, dirs: set<text>, dirs': set<text>)
    requires Tracks(items, seen, files, dirs)
    requires forall k :: k in dirs' <==> k in dirs || Above(k, item)
    ensures Tracks(items + [item], seen + {Key(item)},
                   if item.kind == Tar.File then files + {Key(item)} else files, dirs')
  {
    var more := items + [item];
    assert forall i :: 0 <= i < |items| ==> more[i] == items[i];
    assert more[|items|] == item;
    forall k
      ensures k in seen + {Key(item)} <==> exists i :: 0 <= i < |more| && Key(more[i]) == k
    {
      if k in seen {
        var i :| 0 <= i < |items| && Key(items[i]) == k;
        assert Key(more[i]) == k;
      }
    }
    forall k
      ensures (k in files || (item.kind == Tar.File && k == Key(item)))
         <==> exists i :: 0 <= i < |more| && more[i].kind == Tar.File && Key(more[i]) == k
    {
      if k in files {
        var i :| 0 <= i < |items| && items[i].kind == Tar.File && Key(items[i]) == k;
        assert Key(more[i]) == k;
      }
    }
    forall k
      ensures k in dirs' <==> exists i :: 0 <= i < |more| && Above(k, more[i])
    {
      if k in dirs {
        var i :| 0 <= i < |items| && Above(k, items[i]);
        assert Above(k, more[i]);
      }
    }
  }

  /** The classifier: what it has seen, in three sets of lower-case names. */
  class Members {
    const roots: set<text>
    var seen: set<text>
    var files: set<text>
    var dirs: set<text>
    ghost var items: seq<Item>

    ghost predicate Valid()
      reads this
    {
      Tracks(items, seen, files, dirs) && ValidTree(items)
    }

    constructor (roots: set<text>)
      ensures Valid() && items == [] && this.roots == roots
    {
      this.roots := roots;
      seen, files, dirs := {}, {}, {};
      items := [];
    }

    /** Accepts a member exactly when its name is permitted and the tree stays valid with it. */
    method Classify(kind: Kind, name: text) returns (r: Result<Item>)
      requires Valid()
      modifies this
      ensures var role := RoleOf(kind, Effective(kind, name), roots);
              r == if role.Ok? && ValidTree(old(items) + [Item(kind, Effective(kind, name), role.value)])
                   then Ok(Item(kind, Effective(kind, name), role.value)) else Refused
      ensures r.Ok? ==> Valid() && items == old(items) + [r.value]
    {
      var effective := Effective(kind, name);
      var role := RoleOf(kind, effective, roots);
      if role.Refused? {
        return Refused;
      }
      var item := Item(kind, effective, role.value);
      var admitted := Admit(item);
      return if admitted then Ok(item) else Refused;
    }

    method Admit(item: Item) returns (ok: bool)
      requires Valid()
      modifies this
      ensures ok <==> ValidTree(old(items) + [item])
      ensures ok ==> Valid() && items == old(items) + [item]
    {
      JoinsIffValid(items, item);
      RefusalReasons(items, item, seen, files, dirs);
      var key := Key(item);
      if key in seen {
        return false;
      }
      seen := seen + {key};
      if item.kind == Tar.File && key in dirs {
        return false;
      }
      var clear := AddParents(key);
      if !clear {
        return false;
      }
      if item.kind == Tar.File {
        files := files + {key};
      } else {
        dirs := dirs + {key};
      }
      TracksGrows(items, item, old(seen), old(files), old(dirs), dirs);
      items := items + [item];
      return true;
    }

    /** Marks the directories above `key`, unless one of them is a file. */
    method AddParents(key: text) returns (clear: bool)
      modifies this`dirs
      ensures clear <==> forall a :: IsAncestor(a, key) ==> a !in files
      ensures clear ==> forall a :: a in dirs <==> a in old(dirs) || IsAncestor(a, key)
    {
      var parts := Parts(key);
      var i := 1;
      while i < |parts|
        invariant 1 <= i <= |parts|
        invariant forall j :: 1 <= j < i ==> Join(parts[..j]) !in files
        invariant forall a :: a in dirs <==> a in old(dirs) || IsJoin(a, parts, i)
      {
        var parent := Join(parts[..i]);
        if parent in files {
          JoinIsAncestor(key, i);
          return false;
        }
        dirs := dirs + {parent};
        assert forall a :: IsJoin(a, parts, i + 1) <==> IsJoin(a, parts, i) || a == parent;
        i := i + 1;
      }
      forall a
        ensures IsAncestor(a, key) <==> IsJoin(a, parts, |parts|)
      {
        AncestorsAreJoins(a, key);
      }
      return true;
    }
  }

  // ---- The assembled tree ----

  /** A root file's name as given on the command line. */
  predicate IsRootSpec(name: text) {
    && IsRootName(name)
    && Lower(name) != Str("dist")
    && (Lower(name) in Forbidden() ==> name == Str("package.json"))
  }

  function RootItem(name: text): Item {
    Item(Tar.File, Str("package/") + name, Root)
  }

  function RootItems(names: seq<text>): (items: seq<Item>)
    ensures |items| == |names| && forall i :: 0 <= i < |items| ==> items[i] == RootItem(names[i])
  {
    seq(|names|, i requires 0 <= i < |names| => RootItem(names[i]))
  }

  predicate IsPayload(item: Item) {
    item.kind == Tar.File && Str("package/dist/") <= item.name
  }

  lemma PayloadKey(item: Item)
    requires IsPayload(item)
    ensures var k := Key(item); |k| > 12 && k[7] == SLASH && k[8..12] == Str("dist") && k[12] == SLASH
  {
    var p := Str("package/dist/");
    assert forall i :: 0 <= i < 13 ==> item.name[i] == p[i];
    assert Key(item)[8..12] == Str("dist");
  }

  lemma RootKey(name: text)
    requires IsRootName(name)
    ensures var k := Key(RootItem(name));
            && |k| == 8 + |name| && k[8..] == Lower(name) && (forall i :: 8 <= i < |k| ==> k[i] != SLASH)
  {
    var whole := Str("package/") + name;
    var k := Key(RootItem(name));
    assert |whole| == 8 + |name|;
    forall i | 0 <= i < |name|
      ensures k[8 + i] == LowerChar(name[i]) && name[i] != SLASH
    {
      assert whole[8 + i] == name[i];
    }
    assert k[8..] == Lower(name);
    assert forall i :: 8 <= i < |k| ==> k[i] == LowerChar(name[i - 8]);
  }

  lemma RootApartFromPayload(name: text, item: Item)
    requires IsRootSpec(name) && IsPayload(item)
    ensures Key(RootItem(name)) != Key(item)
    ensures !IsAncestor(Key(RootItem(name)), Key(item)) && !IsAncestor(Key(item), Key(RootItem(name)))
  {
    PayloadKey(item);
    RootKey(name);
    var rk, pk := Key(RootItem(name)), Key(item);
    assert |name| < 4 ==> pk[|rk|] == pk[8..12][|name|];
    assert pk[..12][8..] == pk[8..12];
    assert |name| > 4 && |rk| <= |pk| ==> pk[..|rk|][12] == SLASH;
  }

  lemma RootsApart(a: text, b: text)
    requires IsRootSpec(a) && IsRootSpec(b) && Lower(a) != Lower(b)
    ensures Key(RootItem(a)) != Key(RootItem(b)) && !IsAncestor(Key(RootItem(a)), Key(RootItem(b)))
  {
    RootKey(a);
    RootKey(b);
  }

  /** The root files, whose names are distinct ignoring case. */
  ghost predicate RootsDistinct(roots: seq<text>) {
    && (forall i :: 0 <= i < |roots| ==> IsRootSpec(roots[i]))
    && forall i, j :: 0 <= i < j < |roots| ==> Lower(roots[i]) != Lower(roots[j])
  }

  ghost predicate AllPayload(payload: seq<Item>) {
    forall i :: 0 <= i < |payload| ==> IsPayload(payload[i])
  }

  /** The root files joined one by one to an accepted payload: still a valid tree. */
  lemma {:induction false} AssembledIsValid(payload: seq<Item>, roots: seq<text>)
    requires ValidTree(payload) && AllPayload(payload) && RootsDistinct(roots)
    ensures ValidTree(payload + RootItems(roots))
    decreases |roots|
  {
    if roots == [] {
      assert payload + RootItems(roots) == payload;
    } else {
      var n := |roots| - 1;
      var before, item := payload + RootItems(roots[..n]), RootItem(roots[n]);
      AssembledIsValid(payload, roots[..n]);
      RootJoins(payload, roots);
      JoinsIffValid(before, item);
      assert payload + RootItems(roots) == before + [item];
    }
  }

  /** The last root file joins the payload and the root files before it. */
  lemma RootJoins(payload: seq<Item>, roots: seq<text>)
    requires AllPayload(payload) && RootsDistinct(roots) && roots != []
    ensures Joins(payload + RootItems(roots[..|roots| - 1]), RootItem(roots[|roots| - 1]))
  {
    var n := |roots| - 1;
    var before, item := payload + RootItems(roots[..n]), RootItem(roots[n]);
    forall i | 0 <= i < |before|
      ensures Key(before[i]) != Key(item)
      ensures !IsAncestor(Key(before[i]), Key(item)) && !IsAncestor(Key(item), Key(before[i]))
    {
      if i < |payload| {
        RootApartFromPayload(roots[n], payload[i]);
      } else {
        var j := i - |payload|;
        assert before[i] == RootItem(roots[j]);
        RootsApart(roots[j], roots[n]);
        RootsApart(roots[n], roots[j]);
      }
    }
  }

  /** Dropping members keeps a tree valid. */
  lemma {:induction false} PayloadStaysValid(items: seq<Item>)
    requires ValidTree(items)
    ensures ValidTree(PayloadOf(items))
    ensures forall item :: item in PayloadOf(items) ==> item in items && item.role == Payload
    decreases |items|
  {
    if items != [] {
      var n := |items| - 1;
      PayloadStaysValid(items[..n]);
      if items[n].role == Payload {
        LastJoins(items, PayloadOf(items[..n]));
        JoinsIffValid(PayloadOf(items[..n]), items[n]);
      }
    }
  }

  /** The last of a valid tree joins any of the others. */
  lemma LastJoins(items: seq<Item>, some: seq<Item>)
    requires ValidTree(items) && items != [] && forall i :: 0 <= i < |some| ==> some[i] in items[..|items| - 1]
    ensures Joins(some, items[|items| - 1])
  {
    var n := |items| - 1;
    forall i | 0 <= i < |some|
      ensures Key(some[i]) != Key(items[n])
      ensures some[i].kind == Tar.File ==> !IsAncestor(Key(some[i]), Key(items[n]))
      ensures items[n].kind == Tar.File ==> !IsAncestor(Key(items[n]), Key(some[i]))
    {
      var j :| 0 <= j < n && items[..n][j] == some[i];
      assert items[j] == some[i];
    }
  }

  function PayloadOf(items: seq<Item>): seq<Item> {
    if items == [] then [] else
      PayloadOf(items[..|items| - 1]) + if items[|items| - 1].role == Payload then [items[|items| - 1]] else []
  }
}

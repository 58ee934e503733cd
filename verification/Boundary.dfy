/** The default-deny boundary: what reading a name off the governed client hands out. */
module Boundary {

  type Ref = nat
  type Path = string

  /** A raw value, as the SDK's own objects answer it at the moment of a read. */
  datatype Value = Data | Function(f: nat) | Object(r: Ref)

  /** What the boundary knows: the provider's tables and the caller's list. */
  datatype Rules = Rules(
    google: bool,
    free: set<Path>,
    listed: set<Path>,
    transportMethods: set<string>, // raw transport methods of the client itself
    transportObjects: set<string>, // objects of the client itself that steer its calls
    rawMembers: set<string>,       // Google's raw clients
    liveTransports: set<string>,   // Google's transports under `live`
    inert: set<string>)            // names of Object.prototype, and `toJSON`

  /** What a function does when it is called. */
  datatype Effect =
    | Runs                 // the raw function, on its raw object
    | RunsRecorded         // the same, through the record of an ungoverned call
    | Refuses              // a refusal
    | Unwrapped            // the raw function itself

  datatype Handed =
    | Plain                                   // no object and no function
    | RawObject(r: Ref)                       // a raw object that is no resource
    | Fn(effect: Effect, at: Path, f: nat)    // a function read at a path
    | Guard(path: Path, r: Ref)               // a resource behind the boundary
    | StandIn(path: Path, r: Ref)             // a raw client, or anything under one
    | View(r: Ref)                            // a read-only view

  function At(path: Path, prop: string): Path {
    if path == "" then prop else path + "." + prop
  }

  predicate UnderLive(path: Path) {
    path == "live" || "live." <= path
  }

  /** Names whose object is a raw client or a transport. */
  predicate IsRawMember(rules: Rules, path: Path, prop: string) {
    || prop == "_client"
    || (rules.google && (prop in rules.rawMembers || (prop in rules.liveTransports && UnderLive(path))))
  }

  /** What the raw object says about one read: is the value a resource, and is it pinned and inert? */
  datatype Answer = Answer(value: Value, resource: bool, pinnedInert: bool, pinned: bool)

  /** The language's side: only an object is a resource, and inert data is no function. */
  predicate Honest(a: Answer) {
    (a.resource ==> a.value.Object?) && (a.pinnedInert ==> !a.value.Function? && a.pinned)
  }

  // ---- Without caches ----

  function Effects(rules: Rules, path: Path, prop: string): Effect {
    if path == "" && prop in rules.transportMethods then Refuses
    else if At(path, prop) in rules.free then Runs
    else if At(path, prop) in rules.listed then RunsRecorded
    else Refuses
  }

  function AsItIs(v: Value, at: Path): Handed {
    match v
    case Data => Plain
    case Object(r) => RawObject(r)
    case Function(f) => Fn(Unwrapped, at, f)
  }

  /** `guardedGet`, for a string key. Inert names, and data pinned and inert, pass as they are. */
  function GuardRead(rules: Rules, path: Path, prop: string, a: Answer): Handed {
    var at := At(path, prop);
    if prop in rules.inert || a.pinnedInert then AsItIs(a.value, at)
    else if IsRawMember(rules, path, prop) && a.value.Object? then StandIn(at, a.value.r)
    else if a.value.Function? then Fn(Effects(rules, path, prop), at, a.value.f)
    else if a.resource && a.value.Object? then Guard(at, a.value.r)
    else if path == "" && prop in rules.transportObjects && a.value.Object? then View(a.value.r)
    else AsItIs(a.value, at)
  }

  /** A stand-in's `get`: the path stays that of the raw client. */
  function StandInRead(rules: Rules, path: Path, prop: string, a: Answer): Handed {
    if prop in rules.inert || a.pinnedInert then AsItIs(a.value, path)
    else
      match a.value
      case Function(f) => Fn(Refuses, path, f)
      case Object(r) => StandIn(path, r)
      case Data => Plain
  }

  /** A read-only view's `get`: objects as further views, anything else as it is. */
  function ViewRead(prop: string, a: Answer): Handed {
    if a.pinned || !a.value.Object? then AsItIs(a.value, prop) else View(a.value.r)
  }

  predicate IsProxy(h: Handed) {
    h.Guard? || h.StandIn? || h.View?
  }

  /** One read of a string key through a proxy. */
  function Read(rules: Rules, h: Handed, prop: string, a: Answer): Handed
    requires IsProxy(h)
  {
    match h
    case Guard(path, _) => GuardRead(rules, path, prop, a)
    case StandIn(path, _) => StandInRead(rules, path, prop, a)
    case View(_) => ViewRead(prop, a)
  }

  // ---- With caches ----

  class Caches {
    const rules: Rules
    var methods: map<(Path, Ref, string), (nat, Handed)> // path, raw object and name -> raw function and its wrapper
    var resources: map<(Path, Ref), Handed>
    var standIns: map<(Path, Ref), Handed>
    var readOnly: map<Ref, Handed>

    /** Every entry is what a cold read would build. */
    ghost predicate Valid()
      reads this
    {
      && (forall k :: k in methods ==> methods[k].1 == Fn(Effects(rules, k.0, k.2), At(k.0, k.2), methods[k].0))
      && (forall k :: k in resources ==> resources[k] == Guard(k.0, k.1))
      && (forall k :: k in standIns ==> standIns[k] == StandIn(k.0, k.1))
      && (forall r :: r in readOnly ==> readOnly[r] == View(r))
    }

    constructor (rules: Rules)
      ensures Valid() && this.rules == rules
    {
      this.rules := rules;
      methods, resources, standIns, readOnly := map[], map[], map[], map[];
    }

    method MethodWrapper(target: Ref, prop: string, f: nat, path: Path) returns (h: Handed)
      requires Valid()
      modifies this`methods
      ensures Valid() && h == Fn(Effects(rules, path, prop), At(path, prop), f)
    {
      var key := (path, target, prop);
      if key in methods && methods[key].0 == f {
        return methods[key].1;
      }
      var at := At(path, prop);
      if path == "" && prop in rules.transportMethods {
        h := Fn(Refuses, at, f);
      } else if at in rules.free {
        h := Fn(Runs, at, f);
      } else if at in rules.listed {
        h := Fn(RunsRecorded, at, f);
      } else {
        h := Fn(Refuses, at, f);
      }
      methods := methods[key := (f, h)];
    }

    method GuardResource(r: Ref, path: Path) returns (h: Handed)
      requires Valid()
      modifies this`resources
      ensures Valid() && h == Guard(path, r)
    {
      if (path, r) in resources {
        return resources[(path, r)];
      }
      h := Guard(path, r);
      resources := resources[(path, r) := h];
    }

    method RawClientStandIn(r: Ref, path: Path) returns (h: Handed)
      requires Valid()
      modifies this`standIns
      ensures Valid() && h == StandIn(path, r)
    {
      if (path, r) in standIns {
        return standIns[(path, r)];
      }
      h := StandIn(path, r);
      standIns := standIns[(path, r) := h];
    }

    method ReadOnlyView(r: Ref) returns (h: Handed)
      requires Valid()
      modifies this`readOnly
      ensures Valid() && h == View(r)
    {
      if r in readOnly {
        return readOnly[r];
      }
      h := View(r);
      readOnly := readOnly[r := h];
    }

    /** `guardedGet`: warm or cold, the answer is the cold one. */
    method GuardedGet(target: Ref, path: Path, prop: string, a: Answer) returns (h: Handed)
      requires Valid()
      modifies this
      ensures Valid() && h == GuardRead(rules, path, prop, a)
    {
      var at := At(path, prop);
      if prop in rules.inert || a.pinnedInert {
        return AsItIs(a.value, at);
      }
      match a.value
      case Data =>
        return Plain;
      case Function(f) =>
        h := MethodWrapper(target, prop, f, path);
      case Object(r) =>
        if IsRawMember(rules, path, prop) {
          h := RawClientStandIn(r, at);
        } else if a.resource {
          h := GuardResource(r, at);
        } else if path == "" && prop in rules.transportObjects {
          h := ReadOnlyView(r);
        } else {
          h := RawObject(r);
        }
    }

    /** One read through any proxy handed out before. */
    method Get(proxy: Handed, prop: string, a: Answer) returns (h: Handed)
      requires Valid() && IsProxy(proxy)
      modifies this
      ensures Valid() && h == Read(rules, proxy, prop, a)
    {
      match proxy
      case Guard(path, target) =>
        h := GuardedGet(target, path, prop, a);
      case StandIn(path, _) =>
        if prop in rules.inert || a.pinnedInert {
          return AsItIs(a.value, path);
        }
        match a.value {
          case Function(f) => h := Fn(Refuses, path, f);
          case Object(r) => h := RawClientStandIn(r, path);
          case Data => h := Plain;
        }
      case View(_) =>
        if a.pinned || !a.value.Object? {
          return AsItIs(a.value, prop);
        }
        h := ReadOnlyView(a.value.r);
    }
  }

  // ---- Every sequence of reads ----

  /** A read through the `from`-th thing handed out. */
  datatype Access = Access(from: nat, prop: string, a: Answer)

  /** Everything handed out by a sequence of reads from the governed client on; reads through no proxy are skipped. */
  function HandedOut(rules: Rules, root: Ref, accesses: seq<Access>): (hs: seq<Handed>)
    ensures |hs| == |accesses| + 1 && hs[0] == Guard("", root)
  {
    if accesses == [] then [Guard("", root)] else
      var before := HandedOut(rules, root, accesses[..|accesses| - 1]);
      var access := accesses[|accesses| - 1];
      before + [if access.from < |before| && IsProxy(before[access.from])
                then Read(rules, before[access.from], access.prop, access.a) else Plain]
  }

  /** Each thing handed out is the answer to its own read, whatever is read later. */
  lemma {:induction false} HandedAt(rules: Rules, root: Ref, accesses: seq<Access>, i: nat)
    requires i < |accesses|
    ensures var hs := HandedOut(rules, root, accesses);
            var access := accesses[i];
            hs[i + 1] == if access.from <= i && IsProxy(hs[access.from])
                         then Read(rules, hs[access.from], access.prop, access.a) else Plain
    decreases |accesses|
  {
    var n := |accesses| - 1;
    if i < n {
      HandedAt(rules, root, accesses[..n], i);
    }
  }

  /** A read of an ordinary name, not one that Object.prototype or JSON gives a meaning. */
  predicate Ordinary(rules: Rules, access: Access) {
    access.prop !in rules.inert && Honest(access.a)
  }

  ghost predicate AllOrdinary(rules: Rules, accesses: seq<Access>) {
    forall i :: 0 <= i < |accesses| ==> Ordinary(rules, accesses[i])
  }

  /** Calling it runs the SDK's own code. */
  predicate ReachesRaw(h: Handed) {
    h.Fn? && h.effect != Refuses
  }

  // ---- The route of names ----

  /** The names read from the client on, to the `j`-th thing handed out. */
  function Route(accesses: seq<Access>, j: nat): seq<string>
    requires j <= |accesses|
    decreases j
  {
    if j == 0 || accesses[j - 1].from >= j then []
    else Route(accesses, accesses[j - 1].from) + [accesses[j - 1].prop]
  }

  function Dotted(route: seq<string>): Path {
    if route == [] then "" else At(Dotted(route[..|route| - 1]), route[|route| - 1])
  }

  /** The route is at the client itself: no names, or only empty ones. */
  predicate AtClient(route: seq<string>) {
    Dotted(route) == ""
  }

  lemma {:induction false} AtClientIffNoNames(route: seq<string>)
    ensures AtClient(route) <==> forall i :: 0 <= i < |route| ==> route[i] == ""
  {
    if route != [] {
      var n := |route| - 1;
      AtClientIffNoNames(route[..n]);
      assert forall i :: 0 <= i < n ==> route[..n][i] == route[i];
    }
  }

  /** The caller's rules allow a function at the end of this route: free or listed, and no transport method. */
  predicate Allowed(rules: Rules, before: seq<string>, prop: string) {
    var at := Dotted(before + [prop]);
    (at in rules.free || at in rules.listed) && !(AtClient(before) && prop in rules.transportMethods)
  }

  /** The route passes, by name, through a raw client or a transport of one. */
  predicate ThroughRawClient(rules: Rules, accesses: seq<Access>, j: nat)
    requires j <= |accesses|
    decreases j, 0
  {
    j > 0 && accesses[j - 1].from < j
    && (|| ThroughRawClient(rules, accesses, accesses[j - 1].from)
        || (&& !ThroughTransportObject(rules, accesses, accesses[j - 1].from)
            && IsRawMember(rules, Dotted(Route(accesses, accesses[j - 1].from)), accesses[j - 1].prop)))
  }

  /** The route leaves the client through one of its transport objects, by name, where that is no resource. */
  predicate ThroughTransportObject(rules: Rules, accesses: seq<Access>, j: nat)
    requires j <= |accesses|
    decreases j, 0
  {
    j > 0 && accesses[j - 1].from < j
    && (|| ThroughTransportObject(rules, accesses, accesses[j - 1].from)
        || (var from := accesses[j - 1].from;
            && !ThroughRawClient(rules, accesses, from) && AtClient(Route(accesses, from))
            && accesses[j - 1].prop in rules.transportObjects
            && !IsRawMember(rules, "", accesses[j - 1].prop) && !accesses[j - 1].a.resource))
  }

  /** What kind of proxy was handed out, and at which path, is settled by the names read and the raw answers. */
  lemma {:induction false} ProxyOfRoute(rules: Rules, root: Ref, accesses: seq<Access>, j: nat)
    requires AllOrdinary(rules, accesses) && j <= |accesses| && IsProxy(HandedOut(rules, root, accesses)[j])
    ensures var h := HandedOut(rules, root, accesses)[j];
            && (h.Guard? ==> h.path == Dotted(Route(accesses, j)))
            && (h.StandIn? <==> ThroughRawClient(rules, accesses, j))
            && (h.View? <==> ThroughTransportObject(rules, accesses, j))
    decreases j
  {
    if j > 0 {
      HandedAt(rules, root, accesses, j - 1);
      var access := accesses[j - 1];
      assert Ordinary(rules, access);
      ProxyOfRoute(rules, root, accesses, access.from);
      var before := Route(accesses, access.from);
      assert (before + [access.prop])[..|before|] == before;
    }
  }

  /** The answer to one read through a proxy, on the route that led there. */
  lemma ReadOfRoute(rules: Rules, root: Ref, accesses: seq<Access>, i: nat)
    requires AllOrdinary(rules, accesses) && i < |accesses| && accesses[i].from <= i
    requires IsProxy(HandedOut(rules, root, accesses)[accesses[i].from])
    ensures HandedOut(rules, root, accesses)[accesses[i].from].StandIn? <==>
            ThroughRawClient(rules, accesses, accesses[i].from)
    ensures var access := accesses[i];
            var before := Route(accesses, access.from);
            HandedOut(rules, root, accesses)[i + 1]
            == if ThroughTransportObject(rules, accesses, access.from) then ViewRead(access.prop, access.a)
               else if ThroughRawClient(rules, accesses, access.from)
               then StandInRead(rules, HandedOut(rules, root, accesses)[access.from].path, access.prop, access.a)
               else GuardRead(rules, Dotted(before), access.prop, access.a)
  {
    HandedAt(rules, root, accesses, i);
    ProxyOfRoute(rules, root, accesses, accesses[i].from);
  }

  /** A function comes from a read through a proxy. */
  lemma FunctionsComeFromProxies(rules: Rules, root: Ref, accesses: seq<Access>, i: nat)
    requires i < |accesses| && HandedOut(rules, root, accesses)[i + 1].Fn?
    ensures accesses[i].from <= i && IsProxy(HandedOut(rules, root, accesses)[accesses[i].from])
  {
    HandedAt(rules, root, accesses, i);
  }

  lemma DottedOne(before: seq<string>, prop: string)
    ensures Dotted(before + [prop]) == At(Dotted(before), prop)
  {
    assert (before + [prop])[..|before|] == before;
  }

  /** What a function read off a guard does, by the names that led to it. */
  lemma GuardEffect(rules: Rules, before: seq<string>, prop: string, a: Answer)
    requires prop !in rules.inert && Honest(a) && GuardRead(rules, Dotted(before), prop, a).Fn?
    ensures GuardRead(rules, Dotted(before), prop, a).effect != Unwrapped
    ensures ReachesRaw(GuardRead(rules, Dotted(before), prop, a)) <==> Allowed(rules, before, prop)
  {
    DottedOne(before, prop);
  }

  lemma StandInEffect(rules: Rules, path: Path, prop: string, a: Answer)
    requires prop !in rules.inert && Honest(a) && StandInRead(rules, path, prop, a).Fn?
    ensures StandInRead(rules, path, prop, a).effect == Refuses
  {
  }

  lemma ViewEffect(prop: string, a: Answer)
    requires ViewRead(prop, a).Fn?
    ensures ViewRead(prop, a).effect == Unwrapped
  {
  }

  /** What a function does, by the route it was read on. */
  lemma EffectOfRoute(rules: Rules, root: Ref, accesses: seq<Access>, i: nat)
    requires AllOrdinary(rules, accesses) && i < |accesses| && HandedOut(rules, root, accesses)[i + 1].Fn?
    ensures accesses[i].from <= i
    ensures var from, effect := accesses[i].from, HandedOut(rules, root, accesses)[i + 1].effect;
            if ThroughTransportObject(rules, accesses, from) then effect == Unwrapped
            else if ThroughRawClient(rules, accesses, from) then effect == Refuses
            else effect != Unwrapped && (effect != Refuses <==> Allowed(rules, Route(accesses, from), accesses[i].prop))
  {
    FunctionsComeFromProxies(rules, root, accesses, i);
    ReadOfRoute(rules, root, accesses, i);
    var access := accesses[i];
    assert Ordinary(rules, access);
    if ThroughTransportObject(rules, accesses, access.from) {
      ViewEffect(access.prop, access.a);
    } else if ThroughRawClient(rules, accesses, access.from) {
      StandInEffect(rules, HandedOut(rules, root, accesses)[access.from].path, access.prop, access.a);
    } else {
      GuardEffect(rules, Route(accesses, access.from), access.prop, access.a);
    }
  }

  /** A route never passes through both: the first of them settles it. */
  lemma {:induction false} OneWayOut(rules: Rules, accesses: seq<Access>, j: nat)
    requires j <= |accesses|
    ensures !(ThroughTransportObject(rules, accesses, j) && ThroughRawClient(rules, accesses, j))
    decreases j
  {
    if j > 0 && accesses[j - 1].from < j {
      OneWayOut(rules, accesses, accesses[j - 1].from);
    }
  }

  /**
   * Along every sequence of reads of ordinary names, a function reaches the raw SDK exactly when the route of names
   * to it is free or listed, is no transport method of the client and passes through no raw client, or when the route
   * leaves the client through one of its transport objects.
   */
  lemma {:induction false} RawIffRouteAllowed(rules: Rules, root: Ref, accesses: seq<Access>, i: nat)
    requires AllOrdinary(rules, accesses) && i < |accesses|
    requires HandedOut(rules, root, accesses)[i + 1].Fn?
    ensures var from := accesses[i].from;
            && from <= i
            && (ReachesRaw(HandedOut(rules, root, accesses)[i + 1]) <==>
                || ThroughTransportObject(rules, accesses, from)
                || (&& !ThroughRawClient(rules, accesses, from)
                    && Allowed(rules, Route(accesses, from), accesses[i].prop)))
  {
    EffectOfRoute(rules, root, accesses, i);
    OneWayOut(rules, accesses, accesses[i].from);
  }

  /** A function comes out unwrapped exactly when its route leaves through a transport object of the client. */
  lemma {:induction false} UnwrappedIffThroughTransportObject(rules: Rules, root: Ref, accesses: seq<Access>, i: nat)
    requires AllOrdinary(rules, accesses) && i < |accesses|
    requires HandedOut(rules, root, accesses)[i + 1].Fn?
    ensures accesses[i].from <= i
    ensures HandedOut(rules, root, accesses)[i + 1].effect == Unwrapped <==>
            ThroughTransportObject(rules, accesses, accesses[i].from)
  {
    EffectOfRoute(rules, root, accesses, i);
  }

  /**
   * A raw object comes out of a read through a proxy exactly when the SDK answered one and it is inert data, or it is
   * pinned on a transport object, or it is no resource, no raw client and no transport object of the client: whatever
   * functions it has are read outside the boundary.
   */
  lemma {:induction false} RawObjectIff(rules: Rules, root: Ref, accesses: seq<Access>, i: nat)
    requires AllOrdinary(rules, accesses) && i < |accesses| && accesses[i].from <= i
    requires IsProxy(HandedOut(rules, root, accesses)[accesses[i].from])
    ensures var access := accesses[i];
            var before := Route(accesses, access.from);
            HandedOut(rules, root, accesses)[i + 1].RawObject? <==>
            && access.a.value.Object?
            && if ThroughTransportObject(rules, accesses, access.from) then access.a.pinned
               else if ThroughRawClient(rules, accesses, access.from) then access.a.pinnedInert
               else || access.a.pinnedInert
                    || (&& !access.a.resource && !IsRawMember(rules, Dotted(before), access.prop)
                        && !(AtClient(before) && access.prop in rules.transportObjects))
  {
    ReadOfRoute(rules, root, accesses, i);
    ProxyOfRoute(rules, root, accesses, accesses[i].from);
  }

  // ---- Below a raw client ----

  /** The `j`-th thing handed out was reached from the `k`-th. */
  predicate Descends(accesses: seq<Access>, k: nat, j: nat)
    decreases j
  {
    j == k || (k < j <= |accesses| && accesses[j - 1].from < j && Descends(accesses, k, accesses[j - 1].from))
  }

  /** Whatever is reached from a raw client's stand-in, at any depth, is refused under the path it was reached at. */
  lemma {:induction false} BelowRawClientRefused(rules: Rules, root: Ref, accesses: seq<Access>, k: nat, j: nat)
    requires AllOrdinary(rules, accesses) && k <= |accesses| && j <= |accesses| && Descends(accesses, k, j)
    requires HandedOut(rules, root, accesses)[k].StandIn?
    ensures var hs := HandedOut(rules, root, accesses);
            && (IsProxy(hs[j]) ==> hs[j].StandIn? && hs[j].path == hs[k].path)
            && (hs[j].Fn? ==> hs[j].effect == Refuses && hs[j].at == hs[k].path)
    decreases j
  {
    if j != k {
      BelowRawClientRefused(rules, root, accesses, k, accesses[j - 1].from);
      HandedAt(rules, root, accesses, j - 1);
    }
  }

  /** `client._options.fetch`, with nothing free and nothing listed, is the raw function. */
  lemma OptionsFetchIsRaw(f: nat)
    ensures var rules := Rules(false, {}, {}, {}, {"_options"}, {}, {}, {});
            var accesses := [Access(0, "_options", Answer(Object(1), false, false, false)),
                             Access(1, "fetch", Answer(Function(f), false, false, false))];
            AllOrdinary(rules, accesses) && HandedOut(rules, 0, accesses)[2] == Fn(Unwrapped, "fetch", f)
  {
    var rules := Rules(false, {}, {}, {}, {"_options"}, {}, {}, {});
    var accesses := [Access(0, "_options", Answer(Object(1), false, false, false)),
                     Access(1, "fetch", Answer(Function(f), false, false, false))];
    HandedAt(rules, 0, accesses, 0);
    HandedAt(rules, 0, accesses, 1);
  }
}

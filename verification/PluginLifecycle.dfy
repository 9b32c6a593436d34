/**
 What every sequence of load, reload and unload keeps, and exactly when the
 builder registry is the set of active builders.
 */
module PluginLifecycle {
  import opened Wrappers
  import opened Plugins

  // ---------------------------------------------------------------------
  // Libraries, for a given number of live plugins of each
  // ---------------------------------------------------------------------

  /** dlopen's count is the live plugins of a library, and so is the Loader's
      if the library has a deinit; else the latter never falls. A library without
      live plugins is closed. */
  ghost predicate Counts(d: Disk, images: map<Path, Image>, use: multiset<Path>) {
    && (forall p :: p in images <==> p in use)
    && (forall p :: p in images ==> images[p].refs == use[p] <= images[p].count)
    && (forall p :: p in images && d.hasDeinit(p) ==> images[p].count == use[p])
  }

  /** An active library holds the builder it made, if it makes one. */
  ghost predicate Builders(d: Disk, w: World) {
    && (forall p :: p in w.images ==> (w.images[p].builder.Some? <==> d.builderName(p).Some?))
    && (forall p :: p in w.images && w.images[p].builder.Some? ==> Made(w, p, w.images[p].builder.value))
    && (forall b :: b in w.owner ==> b < w.nextBuilder)
  }

  ghost predicate Made(w: World, p: Path, b: BuilderId) {
    b < w.nextBuilder && b in w.owner && w.owner[b] == p
  }

  /** The builder of an open library. */
  ghost predicate Active(w: World, b: BuilderId) {
    b in w.owner && w.owner[b] in w.images && w.images[w.owner[b]].builder == Some(b)
  }

  /** Every registry entry has the name of its library, and none refers to a
      builder of an inactive library that has a deinit. */
  ghost predicate Entries(d: Disk, w: World) {
    forall n :: n in w.registry ==>
      && w.registry[n] in w.owner
      && d.builderName(w.owner[w.registry[n]]) == Some(n)
      && (d.hasDeinit(w.owner[w.registry[n]]) ==> Active(w, w.registry[n]))
  }

  /** do_init and do_deinit strictly alternate, beginning with do_init, and a
      library is active exactly when do_init ran last; without a deinit there is
      only do_init. */
  ghost predicate LogOk(d: Disk, p: Path, log: seq<bool>, open: bool) {
    if d.hasDeinit(p) then Alternates(log) && (open <==> Odd(|log|))
    else forall i :: 0 <= i < |log| ==> log[i]
  }

  ghost predicate Logs(d: Disk, w: World) {
    forall p :: LogOk(d, p, LogOf(w, p), p in w.images)
  }

  ghost predicate Alternates(log: seq<bool>) {
    forall i :: 0 <= i < |log| ==> log[i] == (i % 2 == 0)
  }

  ghost predicate Odd(n: nat) { n % 2 == 1 }

  ghost predicate LibInv(d: Disk, w: World, use: multiset<Path>) {
    Counts(d, w.images, use) && Builders(d, w) && Entries(d, w) && Logs(d, w)
  }

  // ---------------------------------------------------------------------
  // What a plugin's constructor and destructor come to
  // ---------------------------------------------------------------------

  function Shared(w: World, p: Path, delta: int, counted: int): World
    requires p in w.images && w.images[p].refs + delta >= 0
  {
    w.(images := w.images[p := w.images[p].(refs := w.images[p].refs + delta, count := w.images[p].count + counted)])
  }

  /** The Loader counts a plugin that goes only if there is a deinit. */
  function Uncounted(d: Disk, p: Path): int {
    if d.hasDeinit(p) then -1 else 0
  }

  function Fresh(w: World, p: Path): World {
    w.(images := w.images[p := Image(1, 1, None)])
  }

  lemma BuildIs(d: Disk, w: World, p: Path, args: seq<string>)
    requires p in w.images ==> w.images[p].refs > 0 && w.images[p].count > 0
    ensures var (v, ok) := Build(d, w, p, args);
      && (ok <==> d.opens(p) && d.hasInit(p) && (p in w.images || d.accepts(p, args)))
      && (!ok ==> v == w)
      && (ok && p in w.images ==> v == Shared(w, p, 1, 1))
      && (ok && p !in w.images ==> v == DoInit(d, Fresh(w, p), p))
  {
    hide DoInit;
    var o := Open(w, p);
    if p in w.images {
      assert o.images[p := w.images[p]] == w.images;
    } else {
      assert o.images - {p} == w.images;
      assert o.images[p := Image(1, 1, None)] - {p} == w.images;
      assert o.images[p := Image(1, 1, None)] == w.images[p := Image(1, 1, None)];
    }
  }

  /** A constructor that throws leaves no trace, a failed first do_init
      included: its count goes away with the closed image. */
  lemma FailedLoadLeavesNoTrace(d: Disk, w: World, use: multiset<Path>, name: string, path: Path, args: seq<string>)
    requires LibInv(d, w, use)
    ensures Load(d, w, name, path, args).1 != Done ==> Load(d, w, name, path, args).0 == w
  {
    BuildIs(d, w, path, args);
  }

  /** do_deinit looks at the builder alone. */
  lemma DeinitAt(d: Disk, w: World, p: Path, i: Image)
    requires p in w.images && i.builder == w.images[p].builder
    ensures DoDeinit(d, w.(images := w.images[p := i]), p)
         == DoDeinit(d, w, p).(images := w.images[p := i.(builder := None)])
  {
    assert w.images[p := i][p := i.(builder := None)] == w.images[p := i.(builder := None)];
  }

  lemma CloseLast(w: World, images: map<Path, Image>, p: Path, i: Image)
    requires i.refs == 1
    ensures Close(w.(images := images[p := i]), p) == w.(images := images - {p})
  {
    assert images[p := i] - {p} == images - {p};
  }

  lemma ReleaseIs(d: Disk, w: World, p: Path)
    requires p in w.images && w.images[p].refs > 0
    requires d.hasDeinit(p) ==> w.images[p].count == w.images[p].refs
    ensures w.images[p].refs > 1 ==> Release(d, w, p) == Shared(w, p, -1, Uncounted(d, p))
    ensures w.images[p].refs == 1 ==> Release(d, w, p) == Deinited(d, w, p)
  {
    hide DoDeinit;
    var one := w.images[p].(count := w.images[p].count - 1);
    if !d.hasDeinit(p) {
      assert w.images[p := w.images[p]] == w.images;
    } else if w.images[p].refs == 1 {
      hide Close;
      DeinitAt(d, w, p, one);
      CloseLast(DoDeinit(d, w, p), w.images, p, one.(builder := None));
    } else {
      assert w.images[p := one][p := one.(refs := one.refs - 1)] == w.images[p := one.(refs := one.refs - 1)];
    }
  }

  /** The last plugin of a library goes. */
  function Deinited(d: Disk, w: World, p: Path): World
    requires p in w.images
  {
    (if d.hasDeinit(p) then DoDeinit(d, w, p) else w).(images := w.images - {p})
  }

  // ---------------------------------------------------------------------
  // Construction and destruction keep the invariant
  // ---------------------------------------------------------------------

  lemma SharedKeeps(d: Disk, w: World, use: multiset<Path>, p: Path, delta: int, counted: int)
    requires LibInv(d, w, use) && p in w.images && w.images[p].refs + delta > 0
    requires if d.hasDeinit(p) then counted == delta else counted >= delta
    ensures LibInv(d, Shared(w, p, delta, counted), use[p := use[p] + delta])
  {
    hide Builders, Entries, Logs;
    SharedOthers(d, w, p, delta, counted);
  }

  lemma SharedOthers(d: Disk, w: World, p: Path, delta: int, counted: int)
    requires p in w.images && w.images[p].refs + delta > 0
    ensures var v := Shared(w, p, delta, counted);
      && (Builders(d, w) ==> Builders(d, v)) && (Entries(d, w) ==> Entries(d, v)) && (Logs(d, w) ==> Logs(d, v))
  {
    hide LogOk;
    var v := Shared(w, p, delta, counted);
    assert forall q :: LogOf(v, q) == LogOf(w, q);
    SharedActive(w, p, delta, counted);
    assert forall q, b :: Made(w, q, b) ==> Made(v, q, b);
    hide Active, Made;
  }

  lemma SharedActive(w: World, p: Path, delta: int, counted: int)
    requires p in w.images && w.images[p].refs + delta > 0
    ensures forall b :: Active(w, b) ==> Active(Shared(w, p, delta, counted), b)
  {
  }

  lemma InitCounts(d: Disk, w: World, use: multiset<Path>, p: Path)
    requires Counts(d, w.images, use) && p !in w.images
    ensures Counts(d, DoInit(d, Fresh(w, p), p).images, use[p := 1])
  {
  }

  lemma InitBuilders(d: Disk, w: World, p: Path)
    requires Builders(d, w) && p !in w.images
    ensures Builders(d, DoInit(d, Fresh(w, p), p))
  {
    var v := DoInit(d, Fresh(w, p), p);
    forall q | q in v.images && v.images[q].builder.Some?
      ensures Made(v, q, v.images[q].builder.value)
    {
      if q != p {
        assert Made(w, q, w.images[q].builder.value);
      }
    }
  }

  lemma InitEntries(d: Disk, w: World, p: Path)
    requires Builders(d, w) && Entries(d, w) && p !in w.images
    ensures Entries(d, DoInit(d, Fresh(w, p), p))
  {
    var v := DoInit(d, Fresh(w, p), p);
    forall n | n in v.registry
      ensures v.registry[n] in v.owner && d.builderName(v.owner[v.registry[n]]) == Some(n)
      ensures d.hasDeinit(v.owner[v.registry[n]]) ==> Active(v, v.registry[n])
    {
      if d.builderName(p) != Some(n) {
        var b := w.registry[n];
        assert n in w.registry && b in w.owner && v.owner[b] == w.owner[b];
        assert Active(w, b) ==> Active(v, b);
      }
    }
  }

  /** One more run of do_init or do_deinit, of a library that is not or is open. */
  lemma LogsGrow(d: Disk, w: World, v: World, p: Path, started: bool)
    requires Logs(d, w) && started == (p !in w.images) && (started || d.hasDeinit(p))
    requires v.log == w.log[p := LogOf(w, p) + [started]]
    requires v.images.Keys == if started then w.images.Keys + {p} else w.images.Keys - {p}
    ensures Logs(d, v)
  {
    var log := LogOf(w, p);
    assert LogOk(d, p, log + [started], started) by {
      assert LogOk(d, p, log, p in w.images);
    }
    hide LogOk;
    forall q
      ensures LogOk(d, q, LogOf(v, q), q in v.images)
    {
      assert LogOk(d, q, LogOf(w, q), q in w.images);
      assert q in v.images.Keys <==> q in v.images;
      assert LogOf(v, q) == if q == p then log + [started] else LogOf(w, q);
    }
  }

  lemma LogsStay(d: Disk, w: World, v: World, p: Path)
    requires Logs(d, w) && !d.hasDeinit(p) && v.log == w.log && v.images == w.images - {p}
    ensures Logs(d, v)
  {
    forall q
      ensures LogOk(d, q, LogOf(v, q), q in v.images)
    {
      assert LogOk(d, q, LogOf(w, q), q in w.images);
      assert LogOf(v, q) == LogOf(w, q);
    }
  }

  lemma InitLogs(d: Disk, w: World, p: Path)
    requires Logs(d, w) && p !in w.images
    ensures Logs(d, DoInit(d, Fresh(w, p), p))
  {
    hide Logs;
    LogsGrow(d, w, DoInit(d, Fresh(w, p), p), p, true);
  }

  lemma DeinitCounts(d: Disk, w: World, use: multiset<Path>, p: Path)
    requires Counts(d, w.images, use) && use[p] == 1
    ensures Counts(d, w.images - {p}, use[p := 0])
  {
  }

  lemma DeinitBuilders(d: Disk, w: World, p: Path)
    requires Builders(d, w) && p in w.images
    ensures Builders(d, Deinited(d, w, p))
  {
    var v := Deinited(d, w, p);
    forall q | q in v.images && v.images[q].builder.Some?
      ensures Made(v, q, v.images[q].builder.value)
    {
      assert Made(w, q, w.images[q].builder.value);
    }
  }

  lemma DeinitEntries(d: Disk, w: World, p: Path)
    requires Builders(d, w) && Entries(d, w) && p in w.images
    ensures Entries(d, Deinited(d, w, p))
  {
    var v := Deinited(d, w, p);
    forall n | n in v.registry
      ensures v.registry[n] in v.owner && d.builderName(v.owner[v.registry[n]]) == Some(n)
      ensures d.hasDeinit(v.owner[v.registry[n]]) ==> Active(v, v.registry[n])
    {
      assert n in w.registry && w.registry[n] == v.registry[n];
    }
  }

  lemma DeinitLogs(d: Disk, w: World, p: Path)
    requires Logs(d, w) && p in w.images
    ensures Logs(d, Deinited(d, w, p))
  {
    hide Logs;
    if d.hasDeinit(p) {
      LogsGrow(d, w, Deinited(d, w, p), p, false);
    } else {
      LogsStay(d, w, Deinited(d, w, p), p);
    }
  }

  lemma ConstructKeeps(d: Disk, w: World, use: multiset<Path>, p: Path, args: seq<string>)
    requires LibInv(d, w, use) && Construct(d, w, p, args).1
    ensures LibInv(d, Construct(d, w, p, args).0, use[p := use[p] + 1])
  {
    hide LibInv, Build;
    BuildKeeps(d, w, use, p, args);
    LibInvOnlyReads(d, Build(d, w, p, args).0, Construct(d, w, p, args).0, use[p := use[p] + 1]);
  }

  lemma BuildKeeps(d: Disk, w: World, use: multiset<Path>, p: Path, args: seq<string>)
    requires LibInv(d, w, use) && Build(d, w, p, args).1
    ensures LibInv(d, Build(d, w, p, args).0, use[p := use[p] + 1])
  {
    BuildIs(d, w, p, args);
    hide Counts, Builders, Entries, Logs, Build, DoInit, Fresh;
    if p in w.images {
      SharedKeeps(d, w, use, p, 1, 1);
    } else {
      NotUsed(d, w, use, p);
      InitCounts(d, w, use, p);
      InitBuilders(d, w, p);
      InitEntries(d, w, p);
      InitLogs(d, w, p);
    }
  }

  lemma NotUsed(d: Disk, w: World, use: multiset<Path>, p: Path)
    requires Counts(d, w.images, use)
    ensures p !in w.images ==> use[p] == 0
    ensures p in w.images ==> w.images[p].refs == use[p] > 0 && w.images[p].count > 0
    ensures p in w.images && d.hasDeinit(p) ==> w.images[p].count == use[p]
  {
  }

  lemma DestroyKeeps(d: Disk, w: World, use: multiset<Path>, p: Path)
    requires LibInv(d, w, use) && p in use
    ensures LibInv(d, Destroy(d, w, p), use[p := use[p] - 1])
  {
    hide LibInv, Release;
    ReleaseKeeps(d, w, use, p);
    LibInvOnlyReads(d, Release(d, w, p), Destroy(d, w, p), use[p := use[p] - 1]);
  }

  lemma ReleaseKeeps(d: Disk, w: World, use: multiset<Path>, p: Path)
    requires LibInv(d, w, use) && p in use
    ensures LibInv(d, Release(d, w, p), use[p := use[p] - 1])
  {
    NotUsed(d, w, use, p);
    ReleaseIs(d, w, p);
    hide Builders, Entries, Logs, Release, DoDeinit;
    if use[p] > 1 {
      SharedKeeps(d, w, use, p, -1, Uncounted(d, p));
    } else {
      DeinitCounts(d, w, use, p);
      DeinitBuilders(d, w, p);
      DeinitEntries(d, w, p);
      DeinitLogs(d, w, p);
    }
  }

  // ---------------------------------------------------------------------
  // The application
  // ---------------------------------------------------------------------

  function PathsOf(slots: seq<Plugin>): seq<Path> {
    seq(|slots|, i requires 0 <= i < |slots| => slots[i].path)
  }

  /** How many plugins each library serves. */
  function Uses(slots: seq<Plugin>): multiset<Path> { multiset(PathsOf(slots)) }

  lemma UsesWithout(slots: seq<Plugin>, i: nat)
    requires i < |slots|
    ensures slots[i].path in Uses(slots)
    ensures Uses(slots[..i] + slots[i+1..]) == Uses(slots)[slots[i].path := Uses(slots)[slots[i].path] - 1]
  {
    var a, b := PathsOf(slots[..i]), PathsOf(slots[i+1..]);
    assert PathsOf(slots) == a + [slots[i].path] + b;
    assert PathsOf(slots[..i] + slots[i+1..]) == a + b;
    assert multiset(PathsOf(slots)) == multiset(a) + multiset{slots[i].path} + multiset(b);
  }

  lemma UsesWith(slots: seq<Plugin>, i: nat, p: Plugin)
    requires i <= |slots|
    ensures Uses(slots[..i] + [p] + slots[i..]) == Uses(slots)[p.path := Uses(slots)[p.path] + 1]
  {
    var a, b := PathsOf(slots[..i]), PathsOf(slots[i..]);
    assert PathsOf(slots) == a + b;
    assert PathsOf(slots[..i] + [p] + slots[i..]) == a + [p.path] + b;
  }

  ghost predicate DistinctNames(slots: seq<Plugin>) {
    forall i, j :: 0 <= i < j < |slots| ==> slots[i].name != slots[j].name
  }

  /** Slots are ordered by the latest successful load of their names. */
  ghost predicate Ordered(w: World) {
    && (forall i :: 0 <= i < |w.slots| ==> w.slots[i].name in w.lastLoad && w.lastLoad[w.slots[i].name] < w.clock)
    && (forall i, j :: 0 <= i < j < |w.slots| ==> w.lastLoad[w.slots[i].name] < w.lastLoad[w.slots[j].name])
  }

  ghost predicate AppInv(d: Disk, w: World) {
    LibInv(d, w, Uses(w.slots)) && DistinctNames(w.slots) && Ordered(w)
  }

  /** LibInv does not look at the list of plugins. */
  lemma LibInvOnlyReads(d: Disk, v: World, w: World, use: multiset<Path>)
    requires LibInv(d, v, use)
    requires w.images == v.images && w.registry == v.registry && w.nextBuilder == v.nextBuilder
    requires w.owner == v.owner && w.log == v.log
    ensures LibInv(d, w, use)
  {
    hide LogOk;
    assert forall p :: LogOf(w, p) == LogOf(v, p);
    assert forall b :: Active(v, b) ==> Active(w, b);
    assert forall p, b :: Made(v, p, b) ==> Made(w, p, b);
  }

  lemma SlotAdded(w: World, v: World, name: string, path: Path)
    requires DistinctNames(w.slots) && Ordered(w) && Find(w.slots, name) == |w.slots|
    requires v.slots == w.slots + [Plugin(name, path)]
    requires v.clock == w.clock + 1 && v.lastLoad == w.lastLoad[name := w.clock]
    ensures DistinctNames(v.slots) && Ordered(v)
  {
  }

  lemma SlotErased(w: World, v: World, i: nat)
    requires DistinctNames(w.slots) && Ordered(w) && i < |w.slots|
    requires v.slots == w.slots[..i] + w.slots[i+1..]
    requires v.clock == w.clock && v.lastLoad == w.lastLoad
    ensures DistinctNames(v.slots) && Ordered(v)
  {
  }

  lemma SlotReplaced(w: World, v: World, i: nat, path: Path)
    requires DistinctNames(w.slots) && Ordered(w) && i < |w.slots|
    requires v.slots == w.slots[i := Plugin(w.slots[i].name, path)]
    requires v.clock == w.clock && v.lastLoad == w.lastLoad
    ensures DistinctNames(v.slots) && Ordered(v)
  {
  }

  lemma LoadKeeps(d: Disk, w: World, name: string, path: Path, args: seq<string>)
    requires AppInv(d, w)
    ensures AppInv(d, Load(d, w, name, path, args).0)
  {
    hide LibInv, Construct, Uses, DistinctNames, Ordered;
    FailedLoadLeavesNoTrace(d, w, Uses(w.slots), name, path, args);
    var (v, outcome) := Load(d, w, name, path, args);
    if outcome.Done? {
      SlotsUntouched(d, w, path, args);
      SlotAdded(w, v, name, path);
      ConstructKeeps(d, w, Uses(w.slots), path, args);
      UsesWith(w.slots, |w.slots|, Plugin(name, path));
      assert w.slots[..|w.slots|] + [Plugin(name, path)] + w.slots[|w.slots|..] == v.slots;
      LibInvOnlyReads(d, Construct(d, w, path, args).0, v, Uses(v.slots));
    }
  }

  lemma UnloadKeeps(d: Disk, w: World, name: string)
    requires AppInv(d, w)
    ensures AppInv(d, Unload(d, w, name).0)
  {
    hide LibInv, Destroy, Uses, DistinctNames, Ordered;
    var i := Find(w.slots, name);
    if i < |w.slots| {
      var v := Unload(d, w, name).0;
      SlotsUntouched(d, w, w.slots[i].path, []);
      SlotErased(w, v, i);
      UsesWithout(w.slots, i);
      DestroyKeeps(d, w, Uses(w.slots), w.slots[i].path);
      LibInvOnlyReads(d, Destroy(d, w, w.slots[i].path), v, Uses(v.slots));
    }
  }

  /** A reload is an unload of the library and a load of the other. */
  lemma ReloadKeepsLibs(d: Disk, w: World, i: nat, p: Plugin, args: seq<string>)
    requires LibInv(d, w, Uses(w.slots)) && i < |w.slots|
    requires Construct(d, Destroy(d, w, w.slots[i].path), p.path, args).1
    ensures LibInv(d, Construct(d, Destroy(d, w, w.slots[i].path), p.path, args).0, Uses(w.slots[i := p]))
  {
    hide LibInv, Destroy, Construct, Uses;
    var mid := Destroy(d, w, w.slots[i].path);
    var without := w.slots[..i] + w.slots[i+1..];
    UsesWithout(w.slots, i);
    DestroyKeeps(d, w, Uses(w.slots), w.slots[i].path);
    ConstructKeeps(d, mid, Uses(without), p.path, args);
    UsesWith(without, i, p);
    assert without[..i] + [p] + without[i..] == w.slots[i := p];
  }

  lemma ReloadKeeps(d: Disk, w: World, name: string, path: Path, args: seq<string>)
    requires AppInv(d, w) && Enabled(d, w, EvReload(name, path, args))
    ensures AppInv(d, Reload(d, w, name, path, args).0)
  {
    hide LibInv, Destroy, Construct, Uses, DistinctNames, Ordered;
    var i := Find(w.slots, name);
    if i < |w.slots| {
      var v := Reload(d, w, name, path, args).0;
      var mid := Destroy(d, w, w.slots[i].path);
      SlotsUntouched(d, w, w.slots[i].path, []);
      SlotsUntouched(d, mid, path, args);
      SlotReplaced(w, v, i, path);
      ReloadKeepsLibs(d, w, i, Plugin(name, path), args);
      LibInvOnlyReads(d, Construct(d, mid, path, args).0, v, Uses(v.slots));
    }
  }

  lemma NextKeeps(d: Disk, w: World, e: Event)
    requires AppInv(d, w) && Enabled(d, w, e)
    ensures AppInv(d, Next(d, w, e))
  {
    hide AppInv, Load, Reload, Unload;
    match e
    case EvLoad(name, path, args) => LoadKeeps(d, w, name, path, args);
    case EvReload(name, path, args) => ReloadKeeps(d, w, name, path, args);
    case EvUnload(name) => UnloadKeeps(d, w, name);
  }

  lemma EmptyInv(d: Disk)
    ensures AppInv(d, EMPTY)
  {
  }

  lemma {:induction false} RunKeeps(d: Disk, w: World, es: seq<Event>)
    requires AppInv(d, w) && Feasible(d, w, es)
    ensures AppInv(d, Exec(d, w, es))
    decreases |es|
  {
    hide AppInv, Next, Enabled;
    if es != [] {
      NextKeeps(d, w, es[0]);
      RunKeeps(d, Next(d, w, es[0]), es[1..]);
    }
  }

  // ---------------------------------------------------------------------
  // Main results
  // ---------------------------------------------------------------------

  /** Over every sequence of load, unload and reload in which no reload fails
      to construct: names stay distinct and slots keep the order of the latest
      loads; a library is open exactly while it has a live plugin, with dlopen's
      count the number of these. For libraries with a deinit the Loader's count
      is that number too, do_init and do_deinit alternate, and no registry entry
      is left when they are closed. */
  lemma Lifecycle(d: Disk, es: seq<Event>)
    requires Feasible(d, EMPTY, es)
    ensures var w := Exec(d, EMPTY, es); var use := Uses(w.slots);
      && DistinctNames(w.slots) && Ordered(w)
      && (forall p :: p in w.images <==> p in use)
      && (forall p :: p in w.images ==> w.images[p].refs == use[p])
      && (forall p :: p in w.images && d.hasDeinit(p) ==> w.images[p].count == use[p])
      && Logs(d, w) && Builders(d, w) && Entries(d, w)
  {
    EmptyInv(d);
    RunKeeps(d, EMPTY, es);
    hide DistinctNames, Ordered, Logs, Builders, Entries, Uses;
  }

  /** A load succeeds exactly if the name is free, the library opens and has an
      init, and is active already or accepts its arguments; exactly then one slot
      is appended. Reload changes one slot and the order of none; unload closes
      the gap. */
  lemma SlotChange(d: Disk, w: World, e: Event)
    requires AppInv(d, w) && Enabled(d, w, e)
    ensures var v := Next(d, w, e); var i := Find(w.slots, e.name);
      match e
      case EvLoad(name, path, args) =>
        var fits := i == |w.slots| && d.opens(path) && d.hasInit(path) && (path in w.images || d.accepts(path, args));
        && (Load(d, w, name, path, args).1.Done? <==> fits)
        && v.slots == if fits then w.slots + [Plugin(name, path)] else w.slots
      case EvReload(name, path, args) =>
        v.slots == if i < |w.slots| then w.slots[i := Plugin(name, path)] else w.slots
      case EvUnload(name) =>
        v.slots == if i < |w.slots| then w.slots[..i] + w.slots[i+1..] else w.slots
  {
    hide LibInv, Uses, DistinctNames, Ordered, Construct, Destroy, Find;
    if e.EvLoad? {
      SlotsUntouched(d, w, e.path, e.args);
      OpenIsUsed(d, w, Uses(w.slots), e.path);
      ConstructFits(d, w, e.path, e.args);
    }
  }

  lemma ConstructFits(d: Disk, w: World, p: Path, args: seq<string>)
    requires p in w.images ==> w.images[p].refs > 0 && w.images[p].count > 0
    ensures Construct(d, w, p, args).1 <==> d.opens(p) && d.hasInit(p) && (p in w.images || d.accepts(p, args))
  {
    BuildIs(d, w, p, args);
    hide Build;
  }

  lemma OpenIsUsed(d: Disk, w: World, use: multiset<Path>, p: Path)
    requires LibInv(d, w, use)
    ensures p in w.images ==> w.images[p].refs > 0 && w.images[p].count > 0
  {
    NotUsed(d, w, use, p);
    hide LibInv;
  }

  /** What each event constructs and destroys, in which order: a reload destroys
      the old plugin before it makes the new one. */
  lemma LivesOf(d: Disk, w: World, e: Event)
    requires AppInv(d, w) && Enabled(d, w, e)
    ensures var v := Next(d, w, e); var i := Find(w.slots, e.name);
      v.lives == w.lives + match e
        case EvLoad(name, path, args) => if Load(d, w, name, path, args).1.Done? then [Born(path)] else []
        case EvReload(name, path, args) => if i < |w.slots| then [Died(w.slots[i].path), Born(path)] else []
        case EvUnload(name) => if i < |w.slots| then [Died(w.slots[i].path)] else []
  {
    hide LibInv, Uses, DistinctNames, Ordered, Construct, Destroy, Find;
    var i := Find(w.slots, e.name);
    if e.EvLoad? {
      SlotsUntouched(d, w, e.path, e.args);
    } else if i < |w.slots| {
      SlotsUntouched(d, w, w.slots[i].path, []);
      if e.EvReload? {
        SlotsUntouched(d, Destroy(d, w, w.slots[i].path), e.path, e.args);
      }
    }
  }

  function CountLife(lives: seq<Life>, l: Life): nat {
    if lives == [] then 0 else CountLife(lives[..|lives|-1], l) + if lives[|lives|-1] == l then 1 else 0
  }

  lemma CountSnoc(lives: seq<Life>, last: Life, l: Life)
    ensures CountLife(lives + [last], l) == CountLife(lives, l) + if last == l then 1 else 0
  {
    assert (lives + [last])[..|lives|] == lives;
  }

  lemma CountTwo(lives: seq<Life>, a: Life, b: Life, l: Life)
    ensures CountLife(lives + [a, b], l) == CountLife(lives, l) + (if a == l then 1 else 0) + (if b == l then 1 else 0)
  {
    CountSnoc(lives, a, l);
    CountSnoc(lives + [a], b, l);
    assert lives + [a] + [b] == lives + [a, b];
  }

  /** As many plugins of `p` were made as were destroyed and are there. */
  ghost predicate LivesBalance(w: World, p: Path) {
    CountLife(w.lives, Born(p)) == CountLife(w.lives, Died(p)) + Uses(w.slots)[p]
  }

  lemma BalanceOfLoad(d: Disk, w: World, name: string, path: Path, args: seq<string>, p: Path)
    requires AppInv(d, w) && LivesBalance(w, p)
    ensures LivesBalance(Next(d, w, EvLoad(name, path, args)), p)
  {
    hide AppInv, Uses, Next, CountLife, Load;
    LivesOf(d, w, EvLoad(name, path, args));
    LoadSlots(d, w, name, path, args);
    CountSnoc(w.lives, Born(path), Born(p));
    CountSnoc(w.lives, Born(path), Died(p));
    UsesWith(w.slots, |w.slots|, Plugin(name, path));
    assert w.slots[..|w.slots|] + [Plugin(name, path)] + w.slots[|w.slots|..] == w.slots + [Plugin(name, path)];
    assert w.lives + [] == w.lives;
  }

  lemma BalanceOfReload(d: Disk, w: World, name: string, path: Path, args: seq<string>, p: Path)
    requires AppInv(d, w) && Enabled(d, w, EvReload(name, path, args)) && LivesBalance(w, p)
    ensures LivesBalance(Next(d, w, EvReload(name, path, args)), p)
  {
    hide AppInv, Uses, Next, Enabled, CountLife;
    LivesOf(d, w, EvReload(name, path, args));
    SlotChange(d, w, EvReload(name, path, args));
    var i := Find(w.slots, name);
    assert w.lives + [] == w.lives;
    if i < |w.slots| {
      CountTwo(w.lives, Died(w.slots[i].path), Born(path), Born(p));
      CountTwo(w.lives, Died(w.slots[i].path), Born(path), Died(p));
      UsesReplaced(w.slots, i, Plugin(name, path), p);
    }
  }

  lemma UsesReplaced(slots: seq<Plugin>, i: nat, q: Plugin, p: Path)
    requires i < |slots|
    ensures Uses(slots[i := q])[p] + (if slots[i].path == p then 1 else 0) == Uses(slots)[p] + if q.path == p then 1 else 0
  {
    hide Uses;
    var without := slots[..i] + slots[i+1..];
    UsesWithout(slots, i);
    UsesWith(without, i, q);
    assert without[..i] + [q] + without[i..] == slots[i := q];
  }

  lemma BalanceOfUnload(d: Disk, w: World, name: string, p: Path)
    requires AppInv(d, w) && LivesBalance(w, p)
    ensures LivesBalance(Next(d, w, EvUnload(name)), p)
  {
    hide AppInv, Uses, Next, CountLife;
    LivesOf(d, w, EvUnload(name));
    SlotChange(d, w, EvUnload(name));
    var i := Find(w.slots, name);
    assert w.lives + [] == w.lives;
    if i < |w.slots| {
      CountSnoc(w.lives, Died(w.slots[i].path), Born(p));
      CountSnoc(w.lives, Died(w.slots[i].path), Died(p));
      UsesWithout(w.slots, i);
    }
  }

  lemma BalanceStep(d: Disk, w: World, e: Event, p: Path)
    requires AppInv(d, w) && Enabled(d, w, e) && LivesBalance(w, p)
    ensures LivesBalance(Next(d, w, e), p)
  {
    hide AppInv, Next, Enabled, LivesBalance;
    match e
    case EvLoad(name, path, args) => BalanceOfLoad(d, w, name, path, args, p);
    case EvReload(name, path, args) => BalanceOfReload(d, w, name, path, args, p);
    case EvUnload(name) => BalanceOfUnload(d, w, name, p);
  }

  lemma LoadSlots(d: Disk, w: World, name: string, path: Path, args: seq<string>)
    requires AppInv(d, w)
    ensures Load(d, w, name, path, args).1.Done? ==> Next(d, w, EvLoad(name, path, args)).slots == w.slots + [Plugin(name, path)]
    ensures !Load(d, w, name, path, args).1.Done? ==> Next(d, w, EvLoad(name, path, args)).slots == w.slots
  {
    hide AppInv, Load;
    SlotChange(d, w, EvLoad(name, path, args));
  }

  lemma {:induction false} BalanceRun(d: Disk, w: World, es: seq<Event>, p: Path)
    requires AppInv(d, w) && Feasible(d, w, es) && LivesBalance(w, p)
    ensures LivesBalance(Exec(d, w, es), p)
    decreases |es|
  {
    hide AppInv, Next, Enabled, LivesBalance;
    if es != [] {
      NextKeeps(d, w, es[0]);
      BalanceStep(d, w, es[0], p);
      BalanceRun(d, Next(d, w, es[0]), es[1..], p);
    }
  }

  /** Over every run no plugin is destroyed twice, or dropped without being
      destroyed. */
  lemma EveryPluginDies(d: Disk, es: seq<Event>, p: Path)
    requires Feasible(d, EMPTY, es)
    ensures LivesBalance(Exec(d, EMPTY, es), p)
  {
    EmptyInv(d);
    BalanceRun(d, EMPTY, es, p);
  }

  function ReverseDeaths(slots: seq<Plugin>): seq<Life> {
    seq(|slots|, k requires 0 <= k < |slots| => Died(slots[|slots| - 1 - k].path))
  }

  lemma LastDiesFirst(slots: seq<Plugin>)
    requires slots != []
    ensures ReverseDeaths(slots) == [Died(slots[|slots|-1].path)] + ReverseDeaths(slots[..|slots|-1])
  {
  }

  /** The destructor destroys the plugins in exactly the reverse order of their
      slots, and does nothing else. */
  lemma {:induction false} ShutdownOrder(d: Disk, w: World)
    ensures DestroyAll(d, w).lives == w.lives + ReverseDeaths(w.slots)
    decreases |w.slots|
  {
    if w.slots != [] {
      var last := |w.slots| - 1;
      var death := Died(w.slots[last].path);
      var v := Destroy(d, w, w.slots[last].path).(slots := w.slots[..last]);
      SlotsUntouched(d, w, w.slots[last].path, []);
      LastDiesFirst(w.slots);
      ShutdownOrder(d, v);
      hide Destroy, ReverseDeaths;
      assert (w.lives + [death]) + ReverseDeaths(w.slots[..last]) == w.lives + ([death] + ReverseDeaths(w.slots[..last]));
    }
  }

  /** Unloading touches no entry of another library; loading a library for the
      first time puts its builder under its name, over any other. */
  lemma EntriesOfOthers(d: Disk, w: World, e: Event, n: string)
    requires AppInv(d, w) && Enabled(d, w, e) && e.EvUnload? && Find(w.slots, e.name) < |w.slots|
    requires n in w.registry && w.registry[n] in w.owner && w.owner[w.registry[n]] != w.slots[Find(w.slots, e.name)].path
    ensures var v := Next(d, w, e); n in v.registry && v.registry[n] == w.registry[n]
  {
    var p := w.slots[Find(w.slots, e.name)].path;
    UsesWithout(w.slots, Find(w.slots, e.name));
    NotUsed(d, w, Uses(w.slots), p);
    ReleaseIs(d, w, p);
    DeinitKeepsOthers(d, w, p, n);
    hide LibInv, Uses, DistinctNames, Ordered, Release, Find, Deinited, Shared;
    if w.images[p].refs > 1 {
      SharedRegistry(w, p, -1, Uncounted(d, p));
    }
  }

  lemma SharedRegistry(w: World, p: Path, delta: int, counted: int)
    requires p in w.images && w.images[p].refs + delta >= 0
    ensures Shared(w, p, delta, counted).registry == w.registry
  {
  }

  lemma DeinitKeepsOthers(d: Disk, w: World, p: Path, n: string)
    requires Builders(d, w) && p in w.images && n in w.registry && w.registry[n] in w.owner && w.owner[w.registry[n]] != p
    ensures n in Deinited(d, w, p).registry && Deinited(d, w, p).registry[n] == w.registry[n]
  {
    if w.images[p].builder.Some? {
      assert Made(w, p, w.images[p].builder.value);
    }
  }

  lemma LatestRegistered(d: Disk, w: World, name: string, path: Path, args: seq<string>)
    requires AppInv(d, w) && Load(d, w, name, path, args).1.Done? && path !in w.images && d.builderName(path).Some?
    ensures var v := Load(d, w, name, path, args).0; var n := d.builderName(path).value;
      && n in v.registry && path in v.images && v.images[path].builder == Some(v.registry[n])
      && v.registry[n] in v.owner && v.owner[v.registry[n]] == path && v.registry[n] !in w.owner
      && (forall m :: m in w.registry && m != n ==> m in v.registry && v.registry[m] == w.registry[m])
  {
    BuildIs(d, w, path, args);
    assert Builders(d, w);
    hide LibInv, Uses, DistinctNames, Ordered, Build, Find;
  }

  /** The slot of `a` is in front of the slot of `b`. */
  ghost predicate Before(slots: seq<Plugin>, a: string, b: string) {
    exists i, j :: 0 <= i < j < |slots| && slots[i].name == a && slots[j].name == b
  }

  lemma BeforeAppended(slots: seq<Plugin>, p: Plugin, a: string, b: string)
    requires Before(slots, a, b)
    ensures Before(slots + [p], a, b)
  {
    var i, j :| 0 <= i < j < |slots| && slots[i].name == a && slots[j].name == b;
    assert (slots + [p])[i].name == a && (slots + [p])[j].name == b;
  }

  lemma BeforeReplaced(slots: seq<Plugin>, k: nat, p: Plugin, a: string, b: string)
    requires Before(slots, a, b) && k < |slots| && p.name == slots[k].name
    ensures Before(slots[k := p], a, b)
  {
    var i, j :| 0 <= i < j < |slots| && slots[i].name == a && slots[j].name == b;
    assert slots[k := p][i].name == a && slots[k := p][j].name == b;
  }

  lemma BeforeErased(slots: seq<Plugin>, k: nat, a: string, b: string)
    requires Before(slots, a, b) && k < |slots| && slots[k].name != a && slots[k].name != b
    ensures Before(slots[..k] + slots[k+1..], a, b)
  {
    var i, j :| 0 <= i < j < |slots| && slots[i].name == a && slots[j].name == b;
    var left := slots[..k] + slots[k+1..];
    assert left[if k < i then i - 1 else i] == slots[i];
    assert left[if k < j then j - 1 else j] == slots[j];
  }

  lemma OrderStep(d: Disk, w: World, e: Event, a: string, b: string)
    requires AppInv(d, w) && Enabled(d, w, e) && Before(w.slots, a, b)
    requires e.EvUnload? ==> e.name != a && e.name != b
    ensures Before(Next(d, w, e).slots, a, b)
  {
    hide AppInv, Next, Enabled, Load, Before;
    SlotChange(d, w, e);
    var k := Find(w.slots, e.name);
    match e
    case EvLoad(name, path, args) => BeforeAppended(w.slots, Plugin(name, path), a, b);
    case EvReload(name, path, args) =>
      if k < |w.slots| {
        BeforeReplaced(w.slots, k, Plugin(name, path), a, b);
      }
    case EvUnload(name) =>
      if k < |w.slots| {
        BeforeErased(w.slots, k, a, b);
      }
  }

  /** Over every run, two plugins keep their order as long as neither of them is
      unloaded, however often they and others are loaded or reloaded, and
      whatever else is unloaded. */
  lemma {:induction false} SlotOrder(d: Disk, w: World, es: seq<Event>, a: string, b: string)
    requires AppInv(d, w) && Feasible(d, w, es) && Before(w.slots, a, b)
    requires forall e :: e in es && e.EvUnload? ==> e.name != a && e.name != b
    ensures Before(Exec(d, w, es).slots, a, b)
    decreases |es|
  {
    hide AppInv, Next, Enabled, Before;
    if es != [] {
      assert es[0] in es;
      OrderStep(d, w, es[0], a, b);
      NextKeeps(d, w, es[0]);
      SlotOrder(d, Next(d, w, es[0]), es[1..], a, b);
    }
  }

  /** The destructor leaves nothing behind of libraries with a deinit: every
      library is closed, every builder of theirs unregistered, every do_init of
      theirs matched by a do_deinit. */
  lemma {:induction false} ShutdownLeavesNothing(d: Disk, w: World)
    requires AppInv(d, w)
    ensures var v := DestroyAll(d, w);
      && v.slots == [] && v.images == map[]
      && (forall n :: n in v.registry ==> v.registry[n] in v.owner && !d.hasDeinit(v.owner[v.registry[n]]))
      && (forall p :: d.hasDeinit(p) ==> |LogOf(v, p)| % 2 == 0)
      && ((forall p :: d.builderName(p).Some? ==> d.hasDeinit(p)) ==> v.registry == map[])
    decreases |w.slots|
  {
    if w.slots == [] {
      NothingLoaded(d, w);
    } else {
      hide AppInv, Destroy, LogOf;
      var last := |w.slots| - 1;
      LastGoes(d, w, last);
      ShutdownLeavesNothing(d, Destroy(d, w, w.slots[last].path).(slots := w.slots[..last]));
    }
  }

  /** Popping the last plugin is unloading it. */
  lemma LastGoes(d: Disk, w: World, last: nat)
    requires AppInv(d, w) && |w.slots| == last + 1
    ensures AppInv(d, Destroy(d, w, w.slots[last].path).(slots := w.slots[..last]))
  {
    hide Destroy, LibInv, Ordered;
    FindLast(w.slots);
    UnloadKeeps(d, w, w.slots[last].name);
    assert w.slots[..last] + w.slots[last+1..] == w.slots[..last];
    hide AppInv;
  }

  lemma NothingLoaded(d: Disk, w: World)
    requires LibInv(d, w, Uses([]))
    ensures w.images == map[]
    ensures forall n :: n in w.registry ==> w.registry[n] in w.owner && !d.hasDeinit(w.owner[w.registry[n]])
    ensures forall p :: d.hasDeinit(p) ==> |LogOf(w, p)| % 2 == 0
    ensures (forall p :: d.builderName(p).Some? ==> d.hasDeinit(p)) ==> w.registry == map[]
  {
    hide Builders, LogOf;
    assert forall p :: p !in Uses([]);
    assert forall p :: p !in w.images;
    assert forall n :: n in w.registry ==> d.builderName(w.owner[w.registry[n]]).Some?;
    forall p | d.hasDeinit(p)
      ensures |LogOf(w, p)| % 2 == 0
    {
      assert LogOk(d, p, LogOf(w, p), p in w.images);
    }
  }

  lemma FindLast(slots: seq<Plugin>)
    requires DistinctNames(slots) && slots != []
    ensures Find(slots, slots[|slots|-1].name) == |slots| - 1
  {
  }

  // ---------------------------------------------------------------------
  // Exactly when the registry is the active builders
  // ---------------------------------------------------------------------

  /** No two open libraries register the same name. */
  ghost predicate NamesDiffer(d: Disk, w: World) {
    forall p, q | p in w.images && q in w.images && p != q ::
      d.builderName(p).Some? ==> d.builderName(p) != d.builderName(q)
  }

  /** Every open library's builder is registered under its name. */
  ghost predicate AllRegistered(d: Disk, w: World) {
    forall p :: p in w.images && d.builderName(p).Some? ==>
      && d.builderName(p).value in w.registry
      && Some(w.registry[d.builderName(p).value]) == w.images[p].builder
  }

  lemma RegisteredDiffer(d: Disk, w: World)
    requires Builders(d, w) && AllRegistered(d, w)
    ensures NamesDiffer(d, w)
  {
    forall p, q | p in w.images && q in w.images && p != q && d.builderName(p).Some?
      ensures d.builderName(p) != d.builderName(q)
    {
      assert Made(w, p, w.images[p].builder.value);
      if d.builderName(q).Some? {
        assert Made(w, q, w.images[q].builder.value);
      }
    }
  }

  lemma SharedRegisters(d: Disk, w: World, p: Path, delta: int, counted: int)
    requires AllRegistered(d, w) && p in w.images && w.images[p].refs + delta >= 0
    ensures AllRegistered(d, Shared(w, p, delta, counted))
  {
  }

  lemma InitRegisters(d: Disk, w: World, p: Path)
    requires Builders(d, w) && AllRegistered(d, w) && p !in w.images
    requires NamesDiffer(d, DoInit(d, Fresh(w, p), p))
    ensures AllRegistered(d, DoInit(d, Fresh(w, p), p))
  {
    var v := DoInit(d, Fresh(w, p), p);
    assert v.images.Keys == w.images.Keys + {p};
    assert p in v.images;
    forall q | q in v.images && d.builderName(q).Some?
      ensures d.builderName(q).value in v.registry && Some(v.registry[d.builderName(q).value]) == v.images[q].builder
    {
      assert q != p ==> q in w.images && d.builderName(q) != d.builderName(p);
    }
  }

  lemma ConstructRegisters(d: Disk, w: World, use: multiset<Path>, p: Path, args: seq<string>)
    requires LibInv(d, w, use) && AllRegistered(d, w) && NamesDiffer(d, Construct(d, w, p, args).0)
    ensures AllRegistered(d, Construct(d, w, p, args).0)
  {
    hide Build, NamesDiffer, AllRegistered, DoInit, Fresh, Shared, Builders, Entries, Logs;
    OnlyRead(d, Build(d, w, p, args).0, Construct(d, w, p, args).0);
    NotUsed(d, w, use, p);
    BuildIs(d, w, p, args);
    if p in w.images {
      SharedRegisters(d, w, p, 1, 1);
    } else if Build(d, w, p, args).1 {
      InitRegisters(d, w, p);
    }
  }

  lemma DestroyRegisters(d: Disk, w: World, use: multiset<Path>, p: Path)
    requires LibInv(d, w, use) && p in use && AllRegistered(d, w)
    ensures AllRegistered(d, Destroy(d, w, p))
  {
    NotUsed(d, w, use, p);
    ReleaseIs(d, w, p);
    RegisteredDiffer(d, w);
    hide LibInv, Release, NamesDiffer, AllRegistered, DoDeinit, Shared;
    OnlyRead(d, Release(d, w, p), Destroy(d, w, p));
    if w.images[p].refs > 1 {
      SharedRegisters(d, w, p, -1, Uncounted(d, p));
    } else {
      DeinitRegisters(d, w, p);
    }
  }

  lemma DeinitRegisters(d: Disk, w: World, p: Path)
    requires AllRegistered(d, w) && NamesDiffer(d, w) && p in w.images
    ensures AllRegistered(d, Deinited(d, w, p))
  {
  }

  /** These two look at the open libraries and the registry alone. */
  lemma OnlyRead(d: Disk, v: World, w: World)
    requires w.images == v.images && w.registry == v.registry
    ensures NamesDiffer(d, v) == NamesDiffer(d, w) && AllRegistered(d, v) == AllRegistered(d, w)
  {
  }

  lemma ReloadRegisters(d: Disk, w: World, i: nat, path: Path, args: seq<string>)
    requires LibInv(d, w, Uses(w.slots)) && i < |w.slots| && AllRegistered(d, w)
    requires NamesDiffer(d, Construct(d, Destroy(d, w, w.slots[i].path), path, args).0)
    ensures AllRegistered(d, Construct(d, Destroy(d, w, w.slots[i].path), path, args).0)
  {
    hide LibInv, Construct, Destroy, Uses, NamesDiffer, AllRegistered;
    var mid := Destroy(d, w, w.slots[i].path);
    UsesWithout(w.slots, i);
    DestroyKeeps(d, w, Uses(w.slots), w.slots[i].path);
    DestroyRegisters(d, w, Uses(w.slots), w.slots[i].path);
    ConstructRegisters(d, mid, Uses(w.slots[..i] + w.slots[i+1..]), path, args);
  }

  lemma NextRegisters(d: Disk, w: World, e: Event)
    requires AppInv(d, w) && Enabled(d, w, e) && AllRegistered(d, w) && NamesDiffer(d, Next(d, w, e))
    ensures AllRegistered(d, Next(d, w, e))
  {
    hide LibInv, Construct, Destroy, Uses, NamesDiffer, AllRegistered, DistinctNames, Ordered;
    var v := Next(d, w, e);
    var i := Find(w.slots, e.name);
    if e.EvLoad? {
      var u := Construct(d, w, e.path, e.args).0;
      if v != w {
        OnlyRead(d, v, u);
        ConstructRegisters(d, w, Uses(w.slots), e.path, e.args);
      }
    } else if i < |w.slots| {
      var mid := Destroy(d, w, w.slots[i].path);
      if e.EvReload? {
        OnlyRead(d, v, Construct(d, mid, e.path, e.args).0);
        ReloadRegisters(d, w, i, e.path, e.args);
      } else {
        OnlyRead(d, v, mid);
        UsesWithout(w.slots, i);
        DestroyRegisters(d, w, Uses(w.slots), w.slots[i].path);
      }
    }
  }

  /** Every entry is the builder of an open library. */
  ghost predicate AllActive(w: World) {
    forall n :: n in w.registry ==> Active(w, w.registry[n])
  }

  /** The registry is exactly the builders of the open libraries. */
  ghost predicate Exact(d: Disk, w: World) {
    AllRegistered(d, w) && AllActive(w)
  }

  ghost predicate NameTaken(d: Disk, w: World, n: string) {
    exists q :: q in w.images && d.builderName(q) == Some(n)
  }

  /** A library that is closed without a deinit gave its builder's name to one
      that is open. */
  ghost predicate HandedOn(d: Disk, w: World, v: World) {
    forall p | p in w.images && p !in v.images && !d.hasDeinit(p) && d.builderName(p).Some? ::
      NameTaken(d, v, d.builderName(p).value)
  }

  /** Entries are active, but for those that one library left behind. */
  ghost predicate ActiveBut(d: Disk, w: World, but: Option<Path>) {
    forall n :: n in w.registry ==>
      || Active(w, w.registry[n])
      || (but.Some? && w.registry[n] in w.owner && w.owner[w.registry[n]] == but.value
          && but.value !in w.images && !d.hasDeinit(but.value))
  }

  lemma DestroyActive(d: Disk, w: World, use: multiset<Path>, p: Path)
    requires LibInv(d, w, use) && p in use && AllActive(w)
    ensures var v := Destroy(d, w, p);
      && ActiveBut(d, v, Some(p)) && (!d.hasDeinit(p) ==> v.registry == w.registry)
      && (forall q :: q in w.images && q != p ==> q in v.images)
  {
    NotUsed(d, w, use, p);
    ReleaseIs(d, w, p);
    if w.images[p].refs > 1 {
      SharedActive(w, p, -1, Uncounted(d, p));
      hide Release, LibInv;
    } else {
      DeinitActive(d, w, p);
      hide Release, LibInv, DoDeinit;
    }
    ActiveSame(Release(d, w, p), Destroy(d, w, p));
  }

  lemma ActiveSame(v: World, w: World)
    requires w.images == v.images && w.owner == v.owner
    ensures forall b :: Active(v, b) <==> Active(w, b)
  {
  }

  lemma DeinitActive(d: Disk, w: World, p: Path)
    requires Entries(d, w) && p in w.images && AllActive(w)
    ensures var v := Deinited(d, w, p);
      && ActiveBut(d, v, Some(p)) && (!d.hasDeinit(p) ==> v.registry == w.registry)
      && (forall q :: q in w.images && q != p ==> q in v.images)
  {
    var v := Deinited(d, w, p);
    forall n | n in v.registry && !Active(v, v.registry[n])
      ensures v.registry[n] in v.owner && v.owner[v.registry[n]] == p && !d.hasDeinit(p)
    {
      assert n in w.registry && w.registry[n] == v.registry[n] && Active(w, w.registry[n]);
    }
  }

  lemma ConstructActive(d: Disk, w: World, use: multiset<Path>, but: Option<Path>, q: Path, args: seq<string>)
    requires LibInv(d, w, use) && ActiveBut(d, w, but)
    ensures var v := Construct(d, w, q, args).0;
      ActiveBut(d, v, but) && w.registry.Keys <= v.registry.Keys && w.images.Keys <= v.images.Keys
  {
    NotUsed(d, w, use, q);
    BuildIs(d, w, q, args);
    hide Build, Logs, Counts;
    ActiveSame(Build(d, w, q, args).0, Construct(d, w, q, args).0);
    if q in w.images {
      SharedActive(w, q, 1, 1);
    } else {
      InitActive(d, w, but, q);
      hide DoInit, Fresh, LibInv;
    }
  }

  lemma InitActive(d: Disk, w: World, but: Option<Path>, q: Path)
    requires Builders(d, w) && Entries(d, w) && ActiveBut(d, w, but) && q !in w.images
    ensures var v := DoInit(d, Fresh(w, q), q);
      ActiveBut(d, v, but) && w.registry.Keys <= v.registry.Keys && w.images.Keys <= v.images.Keys
  {
    var v := DoInit(d, Fresh(w, q), q);
    forall n | n in v.registry && !Active(v, v.registry[n])
      ensures but.Some? && v.registry[n] in v.owner && v.owner[v.registry[n]] == but.value
      ensures but.value !in v.images && !d.hasDeinit(but.value)
    {
      assert d.builderName(q) != Some(n);
      assert n in w.registry && w.registry[n] == v.registry[n];
      assert Active(w, w.registry[n]) ==> Active(v, v.registry[n]);
    }
  }

  /** What an event does to the registry, in one place; `closed` is the library
      whose plugin it destroys. */
  lemma NextActive(d: Disk, w: World, e: Event) returns (closed: Option<Path>)
    requires AppInv(d, w) && Enabled(d, w, e) && AllActive(w)
    ensures var v := Next(d, w, e);
      && ActiveBut(d, v, closed) && (closed.Some? ==> closed.value in w.images)
      && (forall q :: q in w.images && q !in v.images ==> closed == Some(q))
      && (closed.Some? && !d.hasDeinit(closed.value) ==> w.registry.Keys <= v.registry.Keys)
  {
    hide LibInv, Construct, Destroy, Uses, DistinctNames, Ordered, ActiveBut;
    var v := Next(d, w, e);
    var i := Find(w.slots, e.name);
    closed := None;
    AllActiveIs(d, w);
    if e.EvLoad? {
      if v != w {
        ConstructActive(d, w, Uses(w.slots), None, e.path, e.args);
        ActiveOnlyReads(d, Construct(d, w, e.path, e.args).0, v, None);
      }
    } else if i < |w.slots| {
      var p := w.slots[i].path;
      closed := Some(p);
      var mid := Destroy(d, w, p);
      UsesWithout(w.slots, i);
      UsedIsOpen(d, w, Uses(w.slots), p);
      DestroyActive(d, w, Uses(w.slots), p);
      DestroyKeeps(d, w, Uses(w.slots), p);
      if e.EvReload? {
        ConstructActive(d, mid, Uses(w.slots[..i] + w.slots[i+1..]), closed, e.path, e.args);
        ActiveOnlyReads(d, Construct(d, mid, e.path, e.args).0, v, closed);
      } else {
        ActiveOnlyReads(d, mid, v, closed);
      }
    }
  }

  lemma UsedIsOpen(d: Disk, w: World, use: multiset<Path>, p: Path)
    requires LibInv(d, w, use) && p in use
    ensures p in w.images
  {
    hide Builders, Entries, Logs;
  }

  lemma AllActiveIs(d: Disk, w: World)
    ensures AllActive(w) <==> ActiveBut(d, w, None)
  {
  }

  lemma ActiveOnlyReads(d: Disk, w: World, v: World, but: Option<Path>)
    requires ActiveBut(d, w, but) && v.images == w.images && v.registry == w.registry && v.owner == w.owner
    ensures ActiveBut(d, v, but)
  {
    assert forall b :: Active(w, b) ==> Active(v, b);
  }

  /** An entry left behind has a name that no open library registered. */
  lemma NoneLeftBehind(d: Disk, w: World, v: World, p: Path)
    requires p in w.images && Builders(d, v) && Entries(d, v) && AllRegistered(d, v)
    requires ActiveBut(d, v, Some(p)) && HandedOn(d, w, v)
    ensures AllActive(v)
  {
    forall n | n in v.registry
      ensures Active(v, v.registry[n])
    {
      assert d.builderName(v.owner[v.registry[n]]) == Some(n);
    }
  }

  lemma ActiveIsHandedOn(d: Disk, w: World, v: World, closed: Option<Path>)
    requires AllRegistered(d, w) && AllActive(v) && Entries(d, v)
    requires forall q :: q in w.images && q !in v.images ==> closed == Some(q)
    requires closed.Some? && !d.hasDeinit(closed.value) ==> w.registry.Keys <= v.registry.Keys
    ensures HandedOn(d, w, v)
  {
    forall q | q in w.images && q !in v.images && !d.hasDeinit(q) && d.builderName(q).Some?
      ensures NameTaken(d, v, d.builderName(q).value)
    {
      var n := d.builderName(q).value;
      assert n in w.registry.Keys && n in v.registry;
      assert Active(v, v.registry[n]);
      assert v.owner[v.registry[n]] in v.images;
    }
  }

  lemma ExactStep(d: Disk, w: World, e: Event)
    requires AppInv(d, w) && Enabled(d, w, e) && Exact(d, w)
    ensures var v := Next(d, w, e); Exact(d, v) <==> NamesDiffer(d, v) && HandedOn(d, w, v)
  {
    hide Next, Enabled, NamesDiffer, AllRegistered, HandedOn, AllActive, ActiveBut, Counts, Logs, Builders, Entries, DistinctNames, Ordered, Uses;
    var v := Next(d, w, e);
    NextKeeps(d, w, e);
    var closed := NextActive(d, w, e);
    if AllRegistered(d, v) {
      RegisteredDiffer(d, v);
    }
    if NamesDiffer(d, v) {
      NextRegisters(d, w, e);
    }
    if Exact(d, v) {
      ActiveIsHandedOn(d, w, v, closed);
    } else if NamesDiffer(d, v) && HandedOn(d, w, v) {
      if closed.Some? {
        NoneLeftBehind(d, w, v, closed.value);
      } else {
        AllActiveIs(d, v);
      }
    }
  }

  /** In every state the open libraries register different names, and every step
      that closes one without a deinit hands its name on. */
  ghost predicate AlwaysOrderly(d: Disk, w: World, es: seq<Event>)
    requires Feasible(d, w, es)
    decreases |es|
  {
    && NamesDiffer(d, w)
    && (es != [] ==> HandedOn(d, w, Next(d, w, es[0])) && AlwaysOrderly(d, Next(d, w, es[0]), es[1..]))
  }

  ghost predicate AlwaysNamesDiffer(d: Disk, w: World, es: seq<Event>)
    requires Feasible(d, w, es)
    decreases |es|
  {
    NamesDiffer(d, w) && (es != [] ==> AlwaysNamesDiffer(d, Next(d, w, es[0]), es[1..]))
  }

  ghost predicate AlwaysExact(d: Disk, w: World, es: seq<Event>)
    requires Feasible(d, w, es)
    decreases |es|
  {
    Exact(d, w) && (es != [] ==> AlwaysExact(d, Next(d, w, es[0]), es[1..]))
  }

  lemma {:induction false} ExactRun(d: Disk, w: World, es: seq<Event>)
    requires AppInv(d, w) && Feasible(d, w, es) && Exact(d, w)
    ensures AlwaysOrderly(d, w, es) <==> AlwaysExact(d, w, es)
    decreases |es|
  {
    assert Builders(d, w);
    RegisteredDiffer(d, w);
    hide AppInv, Next, Enabled, NamesDiffer, Exact, HandedOn, Builders;
    if es != [] {
      var v := Next(d, w, es[0]);
      NextKeeps(d, w, es[0]);
      ExactStep(d, w, es[0]);
      if Exact(d, v) {
        ExactRun(d, v, es[1..]);
      } else {
        NotOrderly(d, v, es[1..]);
      }
    }
  }

  lemma NotOrderly(d: Disk, w: World, es: seq<Event>)
    requires Feasible(d, w, es)
    ensures AlwaysOrderly(d, w, es) ==> NamesDiffer(d, w)
    ensures AlwaysExact(d, w, es) ==> Exact(d, w)
  {
    hide NamesDiffer, Exact, HandedOn, Next, Enabled;
  }

  lemma {:induction false} WithDeinit(d: Disk, w: World, es: seq<Event>)
    requires Feasible(d, w, es) && forall p :: d.builderName(p).Some? ==> d.hasDeinit(p)
    ensures AlwaysOrderly(d, w, es) <==> AlwaysNamesDiffer(d, w, es)
    decreases |es|
  {
    hide NamesDiffer, Next, Enabled;
    if es != [] {
      WithDeinit(d, Next(d, w, es[0]), es[1..]);
    }
  }

  /** In every state of a run the registry is exactly the builders of the open
      libraries, if and only if in every state of it these libraries register
      different names and every step that closes one without a deinit leaves its
      name to one that is open. When all libraries with a builder have a deinit,
      the names alone decide. */
  lemma RegistryExactIff(d: Disk, es: seq<Event>)
    requires Feasible(d, EMPTY, es)
    ensures AlwaysExact(d, EMPTY, es) <==> AlwaysOrderly(d, EMPTY, es)
    ensures (forall p :: d.builderName(p).Some? ==> d.hasDeinit(p)) ==>
      (AlwaysExact(d, EMPTY, es) <==> AlwaysNamesDiffer(d, EMPTY, es))
  {
    EmptyInv(d);
    ExactRun(d, EMPTY, es);
    if forall p :: d.builderName(p).Some? ==> d.hasDeinit(p) {
      WithDeinit(d, EMPTY, es);
    }
  }

  /** Every library can be loaded, and all register the one name. */
  const ONE_NAME := Disk(_ => true, _ => true, _ => true, (_, _) => true, _ => Some("x"))

  lemma OneLoad()
    ensures var w := Next(ONE_NAME, EMPTY, EvLoad("a", "a", []));
      && w.slots == [Plugin("a", "a")] && w.nextBuilder == 1
      && w.images == map["a" := Image(1, 1, Some(0))] && w.registry == map["x" := 0]
  {
    BuildIs(ONE_NAME, EMPTY, "a", []);
    hide Construct;
  }

  lemma SecondLoad(w: World)
    requires w.slots == [Plugin("a", "a")] && w.nextBuilder == 1
    requires w.images == map["a" := Image(1, 1, Some(0))] && w.registry == map["x" := 0]
    ensures var v := Next(ONE_NAME, w, EvLoad("b", "b", []));
      && v.slots == [Plugin("a", "a"), Plugin("b", "b")] && v.registry == map["x" := 1]
      && v.images == map["a" := Image(1, 1, Some(0)), "b" := Image(1, 1, Some(1))]
  {
    BuildIs(ONE_NAME, w, "b", []);
    hide Construct, Find, DoInit, Fresh;
    SlotsUntouched(ONE_NAME, w, "b", []);
    SecondInit(w);
    assert Find(w.slots, "b") == 1 by {
      assert w.slots[0].name == "a" != "b";
    }
  }

  lemma SecondInit(w: World)
    requires w.nextBuilder == 1 && w.images == map["a" := Image(1, 1, Some(0))] && w.registry == map["x" := 0]
    ensures var v := DoInit(ONE_NAME, Fresh(w, "b"), "b");
      && v.images == map["a" := Image(1, 1, Some(0)), "b" := Image(1, 1, Some(1))]
      && v.registry == map["x" := 1]
  {
  }

  lemma SecondGoes(w: World)
    requires w.slots == [Plugin("a", "a"), Plugin("b", "b")] && w.registry == map["x" := 1]
    requires w.images == map["a" := Image(1, 1, Some(0)), "b" := Image(1, 1, Some(1))]
    ensures var v := Next(ONE_NAME, w, EvUnload("b"));
      v.images == map["a" := Image(1, 1, Some(0))] && v.registry == map[]
  {
    ReleaseIs(ONE_NAME, w, "b");
    hide Destroy, Find;
    assert Find(w.slots, "b") == 1 by {
      assert w.slots[0].name == "a" != "b" == w.slots[1].name;
    }
  }

  lemma FirstIsLost(w: World)
    requires w.images == map["a" := Image(1, 1, Some(0))] && w.registry == map[]
    ensures NamesDiffer(ONE_NAME, w) && !AllRegistered(ONE_NAME, w)
  {
    assert "a" in w.images && ONE_NAME.builderName("a") == Some("x");
  }

  lemma ThreeSteps(d: Disk, w: World, a: Event, b: Event, c: Event)
    requires !a.EvReload? && !b.EvReload? && !c.EvReload?
    ensures Feasible(d, w, [a, b, c]) && Exec(d, w, [a, b, c]) == Next(d, Next(d, Next(d, w, a), b), c)
  {
    hide Next;
    var w1 := Next(d, w, a);
    var w2 := Next(d, w1, b);
    assert [c][1..] == [] && [b, c][1..] == [c] && [a, b, c][1..] == [b, c];
    assert Feasible(d, w2, [c]) && Exec(d, w2, [c]) == Next(d, w2, c);
    assert Feasible(d, w1, [b, c]) && Exec(d, w1, [b, c]) == Exec(d, w2, [c]);
  }

  /** The condition is about the whole run: a clash leaves its mark after the
      library that clashed is gone. */
  lemma ClashOutlivesIt()
    ensures exists es: seq<Event> | Feasible(ONE_NAME, EMPTY, es) ::
      var w := Exec(ONE_NAME, EMPTY, es); NamesDiffer(ONE_NAME, w) && !AllRegistered(ONE_NAME, w)
  {
    hide Next, NamesDiffer, AllRegistered, Exec, Feasible;
    var a, b, c := EvLoad("a", "a", []), EvLoad("b", "b", []), EvUnload("b");
    OneLoad();
    SecondLoad(Next(ONE_NAME, EMPTY, a));
    SecondGoes(Next(ONE_NAME, Next(ONE_NAME, EMPTY, a), b));
    FirstIsLost(Next(ONE_NAME, Next(ONE_NAME, Next(ONE_NAME, EMPTY, a), b), c));
    ThreeSteps(ONE_NAME, EMPTY, a, b, c);
  }
}

/**
 The plugin lifecycle: Application (src/application.cpp), Plugin
 (src/plugin.cpp), Loader (include/loader.hpp) and the registry of
 MessageBuilder (src/builder.cpp). dlopen and dlclose count references by path;
 a library's static Loader lives as long as its image is open.
 */
module Plugins {
  import opened Wrappers

  type Path = string
  type BuilderId = nat

  /** The libraries on disk: which can be opened, which have an init symbol and
      which a deinit symbol (AMP_REGISTE_PLUGIN_LOADER defines both), with which arguments do_init succeeds, and the name of the builder that
      do_init registers as its last act, if it registers one. */
  datatype Disk = Disk(
    opens: Path -> bool,
    hasInit: Path -> bool,
    hasDeinit: Path -> bool,
    accepts: (Path, seq<string>) -> bool,
    builderName: Path -> Option<string>)

  /** An open library: dlopen's reference count, the Loader's count_, and the
      builder object it holds. */
  datatype Image = Image(refs: nat, count: int, builder: Option<BuilderId>)

  datatype Plugin = Plugin(name: string, path: Path)

  /** The life of a plugin, by its library. */
  datatype Life = Born(path: Path) | Died(path: Path)

  /** `owner`, `log`, `lives`, `clock` and `lastLoad` are history: the library
      that made a builder, the successful runs of do_init (true) and do_deinit
      (false) of each library, the plugins constructed and destroyed, in order,
      and when a name was last loaded. */
  datatype World = World(
    slots: seq<Plugin>,
    images: map<Path, Image>,
    registry: map<string, BuilderId>,
    nextBuilder: BuilderId,
    owner: map<BuilderId, Path>,
    log: map<Path, seq<bool>>,
    lives: seq<Life>,
    clock: nat,
    lastLoad: map<string, nat>)

  const EMPTY := World([], map[], map[], 0, map[], map[], [], 0, map[])

  function LogOf(w: World, p: Path): seq<bool> {
    if p in w.log then w.log[p] else []
  }

  // ---------------------------------------------------------------------
  // One library
  // ---------------------------------------------------------------------

  function Open(w: World, p: Path): World {
    var i := if p in w.images then w.images[p].(refs := w.images[p].refs + 1) else Image(1, 0, None);
    w.(images := w.images[p := i])
  }

  function Close(w: World, p: Path): World {
    if p !in w.images then w
    else if w.images[p].refs <= 1 then w.(images := w.images - {p})
    else w.(images := w.images[p := w.images[p].(refs := w.images[p].refs - 1)])
  }

  /** do_init: make the builder and register it, over any entry of its name. */
  function DoInit(d: Disk, w: World, p: Path): World
    requires p in w.images
  {
    var v := w.(log := w.log[p := LogOf(w, p) + [true]]);
    match d.builderName(p)
    case None => v
    case Some(name) =>
      v.(registry := w.registry[name := w.nextBuilder],
         owner := w.owner[w.nextBuilder := p],
         images := w.images[p := w.images[p].(builder := Some(w.nextBuilder))],
         nextBuilder := w.nextBuilder + 1)
  }

  /** do_deinit: unregister, only if the entry is this very builder. */
  function DoDeinit(d: Disk, w: World, p: Path): World
    requires p in w.images
  {
    var v := w.(log := w.log[p := LogOf(w, p) + [false]],
                images := w.images[p := w.images[p].(builder := None)]);
    match (d.builderName(p), w.images[p].builder)
    case (Some(name), Some(b)) =>
      if name in w.registry && w.registry[name] == b then v.(registry := w.registry - {name}) else v
    case _ => v
  }

  /** Loader::init: the count goes up even when do_init then throws. */
  function LoaderInit(d: Disk, w: World, p: Path, args: seq<string>): (World, bool)
    requires p in w.images
  {
    var i := w.images[p];
    var v := w.(images := w.images[p := i.(count := i.count + 1)]);
    if i.count != 0 then (v, true)
    else if d.accepts(p, args) then (DoInit(d, v, p), true)
    else (v, false)
  }

  function LoaderDeinit(d: Disk, w: World, p: Path): World
    requires p in w.images
  {
    var i := w.images[p];
    var v := w.(images := w.images[p := i.(count := i.count - 1)]);
    if i.count - 1 == 0 then DoDeinit(d, v, p) else v
  }

  // ---------------------------------------------------------------------
  // One plugin
  // ---------------------------------------------------------------------

  /** The constructor of Plugin; false when it throws, its handle closed. */
  function Build(d: Disk, w: World, p: Path, args: seq<string>): (World, bool) {
    if !d.opens(p) then (w, false)
    else
      var o := Open(w, p);
      if !d.hasInit(p) then (Close(o, p), false)
      else
        var (v, ok) := LoaderInit(d, o, p, args);
        if ok then (v, true) else (Close(v, p), false)
  }

  /** The destructor of Plugin: a missing deinit symbol is passed over. */
  function Release(d: Disk, w: World, p: Path): World {
    if p in w.images then Close(if d.hasDeinit(p) then LoaderDeinit(d, w, p) else w, p) else w
  }

  function Noted(w: World, life: Life): World {
    w.(lives := w.lives + [life])
  }

  function Construct(d: Disk, w: World, p: Path, args: seq<string>): (World, bool) {
    var (v, ok) := Build(d, w, p, args);
    (if ok then Noted(v, Born(p)) else v, ok)
  }

  function Destroy(d: Disk, w: World, p: Path): World {
    Noted(Release(d, w, p), Died(p))
  }

  predicate SameList(v: World, w: World) {
    v.slots == w.slots && v.clock == w.clock && v.lastLoad == w.lastLoad && v.lives == w.lives
  }

  lemma LoaderKeepsList(d: Disk, w: World, p: Path, args: seq<string>)
    requires p in w.images
    ensures SameList(LoaderInit(d, w, p, args).0, w) && SameList(LoaderDeinit(d, w, p), w)
    ensures p in LoaderInit(d, w, p, args).0.images
  {
  }

  lemma DlKeepsList(w: World, p: Path)
    ensures SameList(Open(w, p), w) && SameList(Close(w, p), w) && p in Open(w, p).images
  {
  }

  lemma BuildKeepsList(d: Disk, w: World, p: Path, args: seq<string>)
    ensures SameList(Build(d, w, p, args).0, w) && SameList(Release(d, w, p), w)
  {
    hide LoaderInit, LoaderDeinit, Open, Close;
    var o := Open(w, p);
    DlKeepsList(w, p);
    LoaderKeepsList(d, o, p, args);
    DlKeepsList(o, p);
    DlKeepsList(LoaderInit(d, o, p, args).0, p);
    if p in w.images {
      LoaderKeepsList(d, w, p, args);
      DlKeepsList(LoaderDeinit(d, w, p), p);
      DlKeepsList(w, p);
    }
  }

  /** Neither end of a plugin's life touches the list of plugins; a successful
      construction and every destruction is noted, and nothing else. */
  lemma SlotsUntouched(d: Disk, w: World, p: Path, args: seq<string>)
    ensures var (v, ok) := Construct(d, w, p, args);
      && v.slots == w.slots && v.clock == w.clock && v.lastLoad == w.lastLoad
      && v.lives == if ok then w.lives + [Born(p)] else w.lives
    ensures var v := Destroy(d, w, p);
      && v.slots == w.slots && v.clock == w.clock && v.lastLoad == w.lastLoad
      && v.lives == w.lives + [Died(p)]
  {
    hide Build, Release;
    BuildKeepsList(d, w, p, args);
  }

  // ---------------------------------------------------------------------
  // The application
  // ---------------------------------------------------------------------

  /** get: the first slot of that name, or the end. */
  function Find(slots: seq<Plugin>, name: string): (i: nat)
    ensures i <= |slots|
    ensures forall j :: 0 <= j < i ==> slots[j].name != name
    ensures i < |slots| ==> slots[i].name == name
  {
    if slots == [] || slots[0].name == name then 0 else 1 + Find(slots[1..], name)
  }

  datatype Outcome = Done | Refused | Threw

  function Load(d: Disk, w: World, name: string, path: Path, args: seq<string>): (World, Outcome) {
    if Find(w.slots, name) < |w.slots| then (w, Refused)
    else
      var (v, ok) := Construct(d, w, path, args);
      if !ok then (v, Threw)
      else (v.(slots := v.slots + [Plugin(name, path)],
               clock := v.clock + 1,
               lastLoad := v.lastLoad[name := v.clock]), Done)
  }

  /** The old plugin goes before the new one is made. A throw would leave the
      slot null; what follows such a throw is not part of this model. */
  function Reload(d: Disk, w: World, name: string, path: Path, args: seq<string>): (World, Outcome) {
    var i := Find(w.slots, name);
    if i == |w.slots| then (w, Refused)
    else
      var (v, ok) := Construct(d, Destroy(d, w, w.slots[i].path), path, args);
      (v.(slots := w.slots[i := Plugin(name, path)]), if ok then Done else Threw)
  }

  function Unload(d: Disk, w: World, name: string): (World, Outcome) {
    var i := Find(w.slots, name);
    if i == |w.slots| then (w, Refused)
    else (Destroy(d, w, w.slots[i].path).(slots := w.slots[..i] + w.slots[i+1..]), Done)
  }

  datatype Event =
    | EvLoad(name: string, path: Path, args: seq<string>)
    | EvReload(name: string, path: Path, args: seq<string>)
    | EvUnload(name: string)

  predicate Enabled(d: Disk, w: World, e: Event) {
    e.EvReload? ==> !Reload(d, w, e.name, e.path, e.args).1.Threw?
  }

  function Next(d: Disk, w: World, e: Event): World {
    match e
    case EvLoad(name, path, args) => Load(d, w, name, path, args).0
    case EvReload(name, path, args) => Reload(d, w, name, path, args).0
    case EvUnload(name) => Unload(d, w, name).0
  }

  predicate Feasible(d: Disk, w: World, es: seq<Event>)
    decreases |es|
  {
    es == [] || (Enabled(d, w, es[0]) && Feasible(d, Next(d, w, es[0]), es[1..]))
  }

  function Exec(d: Disk, w: World, es: seq<Event>): World
    requires Feasible(d, w, es)
    decreases |es|
  {
    if es == [] then w else Exec(d, Next(d, w, es[0]), es[1..])
  }

  /** ~Application: pop from the back until empty. */
  function DestroyAll(d: Disk, w: World): World
    decreases |w.slots|
  {
    if w.slots == [] then w
    else
      var last := |w.slots| - 1;
      DestroyAll(d, Destroy(d, w, w.slots[last].path).(slots := w.slots[..last]))
  }

  // ---------------------------------------------------------------------
  // The object
  // ---------------------------------------------------------------------

  /** Application with the process-wide state its plugins share. */
  class Application {
    const disk: Disk
    var slots: seq<Plugin>
    var images: map<Path, Image>
    var registry: map<string, BuilderId>
    var nextBuilder: BuilderId
    ghost var owner: map<BuilderId, Path>
    ghost var log: map<Path, seq<bool>>
    ghost var lives: seq<Life>
    ghost var clock: nat
    ghost var lastLoad: map<string, nat>

    ghost function View(): World
      reads this
    {
      World(slots, images, registry, nextBuilder, owner, log, lives, clock, lastLoad)
    }

    constructor (disk: Disk)
      ensures View() == EMPTY && this.disk == disk
    {
      this.disk := disk;
      slots, images, registry, nextBuilder := [], map[], map[], 0;
      owner, log, lives, clock, lastLoad := map[], map[], [], 0, map[];
    }

    method DlOpen(p: Path)
      modifies this
      ensures View() == Open(old(View()), p)
    {
      var i := if p in images then images[p].(refs := images[p].refs + 1) else Image(1, 0, None);
      images := images[p := i];
    }

    method DlClose(p: Path)
      modifies this
      ensures View() == Close(old(View()), p)
    {
      if p in images {
        if images[p].refs <= 1 {
          images := images - {p};
        } else {
          images := images[p := images[p].(refs := images[p].refs - 1)];
        }
      }
    }

    /** MessageBuilder::registe. */
    method Registe(name: string, builder: BuilderId)
      modifies this`registry
      ensures registry == old(registry)[name := builder]
    {
      registry := registry[name := builder];
    }

    /** MessageBuilder::unregiste of one builder. */
    method Unregiste(name: string, builder: BuilderId)
      modifies this`registry
      ensures registry == if name in old(registry) && old(registry)[name] == builder then old(registry) - {name} else old(registry)
    {
      if name in registry && registry[name] == builder {
        registry := registry - {name};
      }
    }

    method Init(p: Path, args: seq<string>) returns (ok: bool)
      requires p in images
      modifies this
      ensures (View(), ok) == LoaderInit(disk, old(View()), p, args)
    {
      var count := images[p].count;
      images := images[p := images[p].(count := count + 1)];
      if count != 0 {
        return true;
      }
      if !disk.accepts(p, args) {
        return false;
      }
      log := log[p := (if p in log then log[p] else []) + [true]];
      if disk.builderName(p).Some? {
        var b := nextBuilder;
        nextBuilder := b + 1;
        owner := owner[b := p];
        images := images[p := images[p].(builder := Some(b))];
        Registe(disk.builderName(p).value, b);
      }
      ok := true;
    }

    method Deinit(p: Path)
      requires p in images
      modifies this
      ensures View() == LoaderDeinit(disk, old(View()), p)
    {
      var i := images[p];
      images := images[p := i.(count := i.count - 1)];
      if i.count - 1 == 0 {
        log := log[p := (if p in log then log[p] else []) + [false]];
        if disk.builderName(p).Some? && i.builder.Some? {
          Unregiste(disk.builderName(p).value, i.builder.value);
        }
        images := images[p := images[p].(builder := None)];
      }
    }

    method NewPlugin(p: Path, args: seq<string>) returns (ok: bool)
      modifies this
      ensures (View(), ok) == Construct(disk, old(View()), p, args)
    {
      ok := TryBuild(p, args);
      if ok {
        lives := lives + [Born(p)];
      }
    }

    method TryBuild(p: Path, args: seq<string>) returns (ok: bool)
      modifies this
      ensures (View(), ok) == Build(disk, old(View()), p, args)
    {
      if !disk.opens(p) {
        return false;
      }
      DlOpen(p);
      if !disk.hasInit(p) {
        DlClose(p);
        return false;
      }
      ok := Init(p, args);
      if !ok {
        DlClose(p);
      }
    }

    method DeletePlugin(p: Path)
      modifies this
      ensures View() == Destroy(disk, old(View()), p)
    {
      if p in images {
        if disk.hasDeinit(p) {
          Deinit(p);
        }
        DlClose(p);
      }
      lives := lives + [Died(p)];
    }

    method Get(name: string) returns (i: nat)
      ensures i == Find(slots, name)
    {
      i := 0;
      while i < |slots| && slots[i].name != name
        invariant i <= |slots|
        invariant Find(slots, name) == i + Find(slots[i..], name)
      {
        assert slots[i..][1..] == slots[i+1..];
        i := i + 1;
      }
    }

    method LoadPlugin(name: string, path: Path, args: seq<string>) returns (outcome: Outcome)
      modifies this
      ensures (View(), outcome) == Load(disk, old(View()), name, path, args)
    {
      var i := Get(name);
      if i != |slots| {
        return Refused;
      }
      SlotsUntouched(disk, View(), path, args);
      hide Construct, Destroy, Find;
      var ok := NewPlugin(path, args);
      if !ok {
        return Threw;
      }
      slots := slots + [Plugin(name, path)];
      lastLoad := lastLoad[name := clock];
      clock := clock + 1;
      outcome := Done;
    }

    method ReloadPlugin(name: string, path: Path, args: seq<string>) returns (outcome: Outcome)
      modifies this
      ensures (View(), outcome) == Reload(disk, old(View()), name, path, args)
    {
      var i := Get(name);
      if i == |slots| {
        return Refused;
      }
      SlotsUntouched(disk, View(), slots[i].path, args);
      SlotsUntouched(disk, Destroy(disk, View(), slots[i].path), path, args);
      hide Construct, Destroy, Find;
      DeletePlugin(slots[i].path);
      var ok := NewPlugin(path, args);
      slots := slots[i := Plugin(name, path)];
      outcome := if ok then Done else Threw;
    }

    method UnloadPlugin(name: string) returns (outcome: Outcome)
      modifies this
      ensures (View(), outcome) == Unload(disk, old(View()), name)
    {
      var i := Get(name);
      if i == |slots| {
        return Refused;
      }
      SlotsUntouched(disk, View(), slots[i].path, []);
      hide Construct, Destroy, Find;
      DeletePlugin(slots[i].path);
      slots := slots[..i] + slots[i+1..];
      outcome := Done;
    }

    /** ~Application: `released` is the order in which plugins go. */
    method Shutdown() returns (released: seq<Plugin>)
      modifies this
      ensures View() == DestroyAll(disk, old(View()))
      ensures |released| == |old(slots)|
      ensures forall k :: 0 <= k < |released| ==> released[k] == old(slots)[|released| - 1 - k]
      ensures lives == old(lives) + seq(|released|, k requires 0 <= k < |released| => Died(released[k].path))
    {
      hide Destroy, Construct;
      released := [];
      ghost var all := slots;
      while |slots| > 0
        invariant slots <= all && |released| + |slots| == |all|
        invariant forall k :: 0 <= k < |released| ==> released[k] == all[|all| - 1 - k]
        invariant lives == old(lives) + seq(|released|, k requires 0 <= k < |released| => Died(released[k].path))
        invariant DestroyAll(disk, View()) == DestroyAll(disk, old(View()))
      {
        var last := |slots| - 1;
        SlotsUntouched(disk, View(), slots[last].path, []);
        released := released + [slots[last]];
        DeletePlugin(slots[last].path);
        slots := slots[..last];
      }
    }
  }
}

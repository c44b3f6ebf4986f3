/** The watch-backed cache of `src/watch.rs`: a per-kind store that keeps small objects in full and
    large ones by key only, and the set of stores the controller maintains. */
module Watch {

  import opened Wrappers
  import opened Manifest
  import opened Kube

  datatype Event =
    | Apply(obj: DynObj)
    | Delete(obj: DynObj)
    | Init
    | InitApply(obj: DynObj)
    | InitDone

  datatype Tier = Small | Large | Absent

  /******* The abstract cache: one plain map and an optional relist buffer *******/

  type Objects = map<ObjKey, DynObj>

  datatype View = View(live: Objects, relist: Option<Objects>)

  function Step(v: View, ev: Event): View {
    match ev
    case Apply(o) => v.(live := v.live[ObjKeyOf(o) := o])
    case Delete(o) => v.(live := v.live - {ObjKeyOf(o)})
    case Init => v.(relist := Some(map[]))
    case InitApply(o) =>
      if v.relist.Some? then v.(relist := Some(v.relist.value[ObjKeyOf(o) := o])) else v
    case InitDone =>
      if v.relist.Some? then View(v.relist.value, None) else v
  }

  function Run(v: View, events: seq<Event>): View
    decreases |events|
  {
    if events == [] then v else Run(Step(v, events[0]), events[1..])
  }

  predicate IsRelistEvent(ev: Event) {
    ev.Init? || ev.InitApply? || ev.InitDone?
  }

  function WithoutRelist(events: seq<Event>): seq<Event> {
    if events == [] then []
    else (if IsRelistEvent(events[0]) then [] else [events[0]]) + WithoutRelist(events[1..])
  }

  /** The objects a relist announces, the last announcement of a key winning. */
  function Announced(events: seq<Event>): Objects {
    if events == [] then map[]
    else
      var before, last := Announced(events[..|events| - 1]), events[|events| - 1];
      if last.InitApply? then before[ObjKeyOf(last.obj) := last.obj] else before
  }

  /** Until it is done, a relist does not change what readers see. */
  lemma {:induction false} RelistInvisible(v: View, w: View, events: seq<Event>)
    requires v.live == w.live
    requires forall i | 0 <= i < |events| :: !events[i].InitDone?
    ensures Run(v, events).live == Run(w, WithoutRelist(events)).live
    decreases |events|
  {
    if events != [] {
      if IsRelistEvent(events[0]) {
        RelistInvisible(Step(v, events[0]), w, events[1..]);
        assert WithoutRelist(events) == WithoutRelist(events[1..]);
      } else {
        RelistInvisible(Step(v, events[0]), Step(w, events[0]), events[1..]);
        assert WithoutRelist(events)[1..] == WithoutRelist(events[1..]);
      }
    }
  }

  lemma {:induction false} RunConcat(v: View, xs: seq<Event>, ys: seq<Event>)
    ensures Run(v, xs + ys) == Run(Run(v, xs), ys)
    decreases |xs|
  {
    if xs == [] {
      assert xs + ys == ys;
    } else {
      assert (xs + ys)[1..] == xs[1..] + ys;
      RunConcat(Step(v, xs[0]), xs[1..], ys);
    }
  }

  lemma {:induction false} RelistBuffers(v: View, events: seq<Event>)
    requires v.relist == Some(map[])
    requires forall i | 0 <= i < |events| :: !events[i].Init? && !events[i].InitDone?
    ensures Run(v, events).relist == Some(Announced(events))
  {
    if events != [] {
      var init, last := events[..|events| - 1], events[|events| - 1];
      RelistBuffers(v, init);
      assert events == init + [last];
      RunConcat(v, init, [last]);
      assert Run(Run(v, init), [last]) == Step(Run(v, init), last);
    }
  }

  /** A finished relist replaces the whole view by what it announced: nothing of the earlier view, and
      nothing of the changes streamed meanwhile, is left. */
  lemma RelistReplaces(v: View, events: seq<Event>)
    requires forall i | 0 <= i < |events| :: !events[i].Init? && !events[i].InitDone?
    ensures Run(v, [Init] + events + [InitDone]) == View(Announced(events), None)
  {
    var open := Step(v, Init);
    RunConcat(v, [Init] + events, [InitDone]);
    RunConcat(v, [Init], events);
    assert Run(v, [Init]) == open;
    RelistBuffers(open, events);
    var filled := Run(open, events);
    assert Run(filled, [InitDone]) == Step(filled, InitDone);
  }

  /** The name and namespace of the object that an event is about, if it is about one. */
  function About(ev: Event): Option<ObjKey> {
    match ev
    case Apply(o) => Some((o.name.GetOr(""), o.namespace))
    case Delete(o) => Some((o.name.GetOr(""), o.namespace))
    case _ => None
  }

  function ReadAt(v: View, key: ObjKey): Option<DynObj> {
    if key in v.live then Some(v.live[key]) else None
  }

  lemma {:induction false} OthersUntouched(v: View, events: seq<Event>, key: ObjKey)
    requires forall i | 0 <= i < |events| :: !IsRelistEvent(events[i]) && About(events[i]) != Some(key)
    ensures ReadAt(Run(v, events), key) == ReadAt(v, key)
    decreases |events|
  {
    if events != [] {
      OthersUntouched(Step(v, events[0]), events[1..], key);
    }
  }

  /** Between relists readers see of each object what the last event about it said. */
  lemma LastEventWins(v: View, events: seq<Event>, key: ObjKey, i: nat)
    requires i < |events| && About(events[i]) == Some(key)
    requires forall j | i <= j < |events| :: !IsRelistEvent(events[j])
    requires forall j | i < j < |events| :: About(events[j]) != Some(key)
    ensures ReadAt(Run(v, events), key) == if events[i].Apply? then Some(events[i].obj) else None
  {
    var front, rest := events[..i], events[i..];
    assert events == front + rest;
    RunConcat(v, front, rest);
    OthersUntouched(Step(Run(v, front), rest[0]), rest[1..], key);
  }

  /******* The two-tier store *******/

  function SmallPart(objects: Objects, maxBytes: nat): Objects {
    map k | k in objects && objects[k].size <= maxBytes :: objects[k]
  }

  function LargePart(objects: Objects, maxBytes: nat): set<ObjKey> {
    set k | k in objects && objects[k].size > maxBytes
  }

  /** What readers see of one store: bodies of small objects, keys of large ones. */
  datatype Tiers = Tiers(small: Objects, large: set<ObjKey>) {
    function TierOf(key: ObjKey): Tier {
      if key in small then Small else if key in large then Large else Absent
    }

    function SmallGet(key: ObjKey): Option<DynObj> {
      if key in small then Some(small[key]) else None
    }
  }

  /** A set of objects split by a size threshold. */
  datatype CacheState = CacheState(live: Objects, maxBytes: nat) {
    function TierFor(key: ObjKey): Tier {
      if key !in live then Absent else if live[key].size <= maxBytes then Small else Large
    }

    function Split(): Tiers {
      Tiers(SmallPart(live, maxBytes), LargePart(live, maxBytes))
    }

    /** Small iff the object is live and at most `maxBytes` long, with its body; Large iff it is live
        and longer; Absent iff it is not live. */
    lemma SplitDecidesTier(key: ObjKey)
      ensures Split().TierOf(key) == TierFor(key)
      ensures Split().TierOf(key) == Small <==> key in live && live[key].size <= maxBytes
      ensures Split().TierOf(key) == Large <==> key in live && live[key].size > maxBytes
      ensures Split().SmallGet(key)
              == if key in live && live[key].size <= maxBytes then Some(live[key]) else None
    {
    }
  }

  lemma PartsOfPut(objects: Objects, key: ObjKey, o: DynObj, maxBytes: nat)
    ensures SmallPart(objects[key := o], maxBytes) ==
            if o.size <= maxBytes then SmallPart(objects, maxBytes)[key := o] else SmallPart(objects, maxBytes) - {key}
    ensures LargePart(objects[key := o], maxBytes) ==
            if o.size <= maxBytes then LargePart(objects, maxBytes) - {key} else LargePart(objects, maxBytes) + {key}
  {
  }

  lemma PartsOfRemove(objects: Objects, key: ObjKey, maxBytes: nat)
    ensures SmallPart(objects - {key}, maxBytes) == SmallPart(objects, maxBytes) - {key}
    ensures LargePart(objects - {key}, maxBytes) == LargePart(objects, maxBytes) - {key}
  {
  }

  lemma PartsOfEmpty(maxBytes: nat)
    ensures SmallPart(map[], maxBytes) == map[] && LargePart(map[], maxBytes) == {}
  {
  }

  class LightweightStore {
    var small: Objects
    var large: set<ObjKey>
    var bufSmall: Option<Objects>
    var bufLarge: Option<set<ObjKey>>
    const maxBytes: nat
    ghost var view: View

    /** The tiers split the visible map by size, and the buffers split the relist buffer likewise. */
    ghost predicate Valid()
      reads this
    {
      && small == SmallPart(view.live, maxBytes)
      && large == LargePart(view.live, maxBytes)
      && match view.relist
         case None => bufSmall.None? && bufLarge.None?
         case Some(b) => bufSmall == Some(SmallPart(b, maxBytes)) && bufLarge == Some(LargePart(b, maxBytes))
    }

    constructor (maxBytes: nat)
      ensures Valid() && view == View(map[], None) && this.maxBytes == maxBytes
    {
      this.maxBytes := maxBytes;
      small, large := map[], {};
      bufSmall, bufLarge := None, None;
      view := View(map[], None);
    }

    method ApplyEvent(ev: Event)
      requires Valid()
      modifies this
      ensures Valid() && view == Step(old(view), ev)
    {
      match ev {
      case Apply(o) =>
        var key := ObjKeyOf(o);
        PartsOfPut(view.live, key, o, maxBytes);
        if o.size > maxBytes {
          small := small - {key};
          large := large + {key};
        } else {
          large := large - {key};
          small := small[key := o];
        }
      case Delete(o) =>
        var key := ObjKeyOf(o);
        PartsOfRemove(view.live, key, maxBytes);
        small := small - {key};
        large := large - {key};
      case Init =>
        PartsOfEmpty(maxBytes);
        bufSmall := Some(map[]);
        bufLarge := Some({});
      case InitApply(o) =>
        var key := ObjKeyOf(o);
        if bufSmall.Some? && bufLarge.Some? {
          PartsOfPut(view.relist.value, key, o, maxBytes);
          if o.size > maxBytes {
            bufSmall := Some(bufSmall.value - {key});
            bufLarge := Some(bufLarge.value + {key});
          } else {
            bufLarge := Some(bufLarge.value - {key});
            bufSmall := Some(bufSmall.value[key := o]);
          }
        }
      case InitDone =>
        if bufSmall.Some? && bufLarge.Some? {
          small := bufSmall.value;
          large := bufLarge.value;
        }
        bufSmall, bufLarge := None, None;
      }
      view := Step(view, ev);
    }

    method ApplyEvents(events: seq<Event>)
      requires Valid()
      modifies this
      ensures Valid() && view == Run(old(view), events)
    {
      for i := 0 to |events|
        invariant Valid() && view == Run(old(view), events[..i])
      {
        ApplyEvent(events[i]);
        assert events[..i + 1] == events[..i] + [events[i]];
        RunConcat(old(view), events[..i], [events[i]]);
        assert Run(Run(old(view), events[..i]), [events[i]]) == Step(Run(old(view), events[..i]), events[i]);
      }
      assert events[..|events|] == events;
    }

    /** The store's contents as readers see them. */
    function Read(): (t: Tiers)
      requires Valid()
      reads this
      ensures t == CacheState(view.live, maxBytes).Split()
    {
      Tiers(small, large)
    }
  }

  /******* The set of watched kinds *******/

  datatype WatchMode = Off | Trigger | Cache

  function DiffWatchedSet(current: set<Gvk>, desired: set<Gvk>): (set<Gvk>, set<Gvk>) {
    (desired - current, current - desired)
  }

  class WatchSet {
    const mode: WatchMode
    const maxBytes: nat
    var handles: map<Gvk, nat>
    var stores: map<Gvk, LightweightStore>
    /** The number of drivers spawned so far; it names the next one. */
    var spawned: nat

    /** Cache mode keeps one store for each running driver; the other modes keep none. */
    ghost predicate Valid()
      reads this
    {
      && (mode == Off ==> handles == map[])
      && stores.Keys == (if mode == Cache then handles.Keys else {})
      && (forall g | g in handles :: handles[g] < spawned)
      && (forall g | g in stores :: stores[g].maxBytes == maxBytes)
    }

    constructor (mode: WatchMode, maxBytes: nat)
      ensures Valid() && handles == map[] && this.mode == mode && this.maxBytes == maxBytes
    {
      this.mode := mode;
      this.maxBytes := maxBytes;
      handles, stores, spawned := map[], map[], 0;
    }

    /** Start one driver; in cache mode with an empty store of its own. */
    method StartDriver(key: Gvk)
      requires Valid() && mode != Off && key !in handles
      modifies this
      ensures Valid() && spawned == old(spawned) + 1
      ensures handles == old(handles)[key := old(spawned)]
      ensures stores.Keys == old(stores).Keys + (if mode == Cache then {key} else {})
      ensures forall g | g in old(stores) :: g in stores && stores[g] == old(stores)[g]
      ensures mode == Cache ==>
                fresh(stores[key]) && stores[key].Valid() && stores[key].view == View(map[], None)
    {
      handles := handles[key := spawned];
      if mode == Cache {
        var store := new LightweightStore(maxBytes);
        stores := stores[key := store];
      }
      spawned := spawned + 1;
    }

    /** What a rebuild leaves alone: kinds kept from before have the same driver and the same store. */
    twostate predicate KeptUnchanged()
      reads this
    {
      && (forall g | g in old(handles) && g in handles :: handles[g] == old(handles)[g])
      && (forall g | g in old(stores) && g in stores :: stores[g] == old(stores)[g])
    }

    /** What a rebuild starts: new drivers, and new stores that are empty. */
    twostate predicate NewStarted()
      reads this, stores.Values
    {
      && old(spawned) <= spawned
      && (forall g | g in handles && g !in old(handles) :: old(spawned) <= handles[g])
      && (forall g | g in stores && g !in old(stores) ::
            fresh(stores[g]) && stores[g].Valid() && stores[g].view == View(map[], None))
    }

    /** Stop the drivers of these kinds and forget their stores. */
    method DropDrivers(toDrop: set<Gvk>)
      requires Valid()
      modifies this`handles, this`stores
      ensures Valid() && KeptUnchanged() && NewStarted()
      ensures handles == old(handles) - toDrop && stores == old(stores) - toDrop
    {
      handles := handles - toDrop;
      stores := stores - toDrop;
    }

    /** Move the watched kinds to `desired`. With working discovery and no shutdown exactly the desired
        kinds are watched afterwards; in every case no wanted kind is dropped and no other is kept. */
    method Rebuild(desired: set<Gvk>, healthy: bool)
      requires Valid()
      modifies this
      ensures Valid() && KeptUnchanged() && NewStarted()
      ensures mode == Off ==> handles == old(handles) && stores == old(stores)
      ensures mode != Off ==> old(handles).Keys * desired <= handles.Keys <= desired
      ensures mode != Off && healthy ==> handles.Keys == desired
      ensures mode != Off && desired == old(handles).Keys ==> handles == old(handles) && stores == old(stores)
    {
      if mode == Off {
        return;
      }
      var (toAdd, toDrop) := DiffWatchedSet(handles.Keys, desired);
      DropDrivers(toDrop);
      var pending := toAdd;
      while pending != {}
        invariant pending <= toAdd && Valid() && KeptUnchanged() && NewStarted()
        invariant handles.Keys !! pending
        invariant old(handles).Keys * desired <= handles.Keys <= desired
        invariant healthy ==> handles.Keys + pending == desired
        invariant desired == old(handles).Keys ==> pending == {} && handles == old(handles) && stores == old(stores)
        decreases pending
      {
        var stopping :| healthy ==> !stopping;
        if stopping {
          break;
        }
        var key :| key in pending;
        pending := pending - {key};
        var resolved :| healthy ==> resolved;
        if resolved {
          StartDriver(key);
        }
      }
    }
  }
}

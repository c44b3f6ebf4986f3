/** The cluster as the controller sees it: live objects and the persisted state behind API calls that
    may fail at any time, and the log of the calls that change something. */
module Cluster {

  import opened Wrappers
  import opened Json
  import opened Manifest
  import opened Kube
  import opened SpecSubset
  import opened Quiescence
  import opened Hooks

  datatype Scope = Namespaced | ClusterWide

  /** Where the API server keeps an object. Unlike a key it has no version, and its namespace is the one
      the request was sent to. */
  datatype Address = Address(group: string, kind: string, namespace: Option<string>, name: string)

  /** What is stored at an address; name and namespace are the address's. */
  datatype Body = Body(annotations: map<string, string>, managed: bool, deleting: bool, value: Json, size: nat)

  type Live = map<Address, Body>

  function ObjectOf(a: Address, b: Body): DynObj {
    DynObj(Some(a.name), a.namespace, b.annotations, b.managed, b.deleting, b.value, b.size)
  }

  /** The configuration, and the scope of every kind the server serves. */
  datatype Settings = Settings(
    namespace: string,
    labelKey: string,
    labelValue: string,
    scopes: map<(string, string), Scope>)
  {
    predicate Serves(group: string, kind: string) {
      (group, kind) in scopes
    }

    /** A namespaced request without a namespace goes to the configured one. */
    function AddressOf(k: ResourceKey): Address
      requires Serves(k.group, k.kind)
    {
      Address(k.group, k.kind,
              if scopes[(k.group, k.kind)] == ClusterWide then None else Some(k.namespace.GetOr(namespace)),
              k.name)
    }

    /** The key is served, and its request goes to this address. */
    predicate Addresses(k: ResourceKey, a: Address) {
      Serves(k.group, k.kind) && AddressOf(k) == a
    }

    /** The value carries the managed-by label. */
    predicate Labelled(value: Json) {
      Get(Get(Get(value, "metadata").GetOr(Null), "labels").GetOr(Null), labelKey) == Some(Str(labelValue))
    }

    /** The server may serve this after the manifest was applied. */
    ghost predicate Served(m: RawManifest, b: Body) {
      && ServedAs(InjectManagedLabel(m.data, labelKey, labelValue), b.value)
      && (forall k | k in m.annotations :: k in b.annotations && b.annotations[k] == m.annotations[k])
      && b.managed == Labelled(b.value)
    }

    /** Every object is of a served kind and has a namespace exactly when its kind is namespaced. */
    predicate Scoped(live: Live) {
      forall a | a in live :: Serves(a.group, a.kind)
          && (a.namespace.None? <==> scopes[(a.group, a.kind)] == ClusterWide)
    }
  }

  /** The key a listed object at this address gets when listed under a version. */
  function KeyAt(a: Address, version: string): ResourceKey {
    ResourceKey(a.group, version, a.kind, a.namespace, a.name)
  }

  predicate ManagedOfKind(live: Live, group: string, kind: string, a: Address) {
    a in live && a.group == group && a.kind == kind && live[a].managed
  }

  /** The list holds exactly the labelled objects of a kind. */
  ghost predicate ListsKind(items: seq<DynObj>, live: Live, group: string, kind: string) {
    && (forall i | 0 <= i < |items| ::
          exists a :: ManagedOfKind(live, group, kind, a) && items[i] == ObjectOf(a, live[a]))
    && (forall a | ManagedOfKind(live, group, kind, a) :: ObjectOf(a, live[a]) in items)
    && (forall i, j | 0 <= i < j < |items| :: items[i] != items[j])
  }

  /******* The persisted state *******/

  datatype Problem =
    | StateUnreadable | GitFailed | NoDirectories | BadManifests | LeaseFailed | StateUnwritable
    | HookProblem(phase: HookPhase)

  const MAX_U64: nat := 0xFFFF_FFFF_FFFF_FFFF

  datatype State = State(
    lastSha: Option<string>,
    syncCount: nat,
    lastError: Option<Problem>,
    driftCount: nat,
    managedCount: nat,
    applied: seq<ResourceKey>,
    applyFailures: seq<ResourceKey>)

  const DEFAULT_STATE := State(None, 0, None, 0, 0, [], [])

  function SaturatingIncrement(n: nat): nat {
    if n < MAX_U64 then n + 1 else MAX_U64
  }

  /******* Logged calls *******/

  datatype Purpose = ForHook(phase: HookPhase) | ForMain | ForPrune

  /** Every mutating call, and the warnings of prune. `ok` is what the caller learned; a failed call may
      still have taken effect. */
  datatype Event =
    | ApplyCall(purpose: Purpose, key: ResourceKey, dryRun: bool, ok: bool)
    | DeleteCall(purpose: Purpose, key: ResourceKey, ok: bool)
    | ListFailed(kind: Gvk)        // prune could not resolve or list a kind
    | Unchecked(key: ResourceKey)   // prune could not resolve or read a target
    | HookDone(phase: HookPhase, key: ResourceKey, ok: bool)
    | StateWrite(state: State, ok: bool)

  lemma Regroup(l: seq<Event>, a: seq<Event>, b: seq<Event>, c: seq<Event>, d: seq<Event>)
    ensures l + a + b + c + d == l + (a + b + c + d)
    ensures l + a + b + c == l + (a + b + c)
  {
  }

  datatype Fetched<T> = Found(value: T) | NotFound | Unavailable

  /** What the server makes of the manifest applied by the n-th logged call. */
  type Server = (RawManifest, nat) -> Body

  ghost predicate Serving(settings: Settings, server: Server) {
    forall m: RawManifest, n: nat :: settings.Served(m, server(m, n))
  }

  /** What a server makes of a manifest that stores it as it is. */
  function PlainBody(settings: Settings, m: RawManifest): Body {
    var value := InjectManagedLabel(m.data, settings.labelKey, settings.labelValue);
    Body(m.annotations, settings.Labelled(value), false, value, 0)
  }

  /** Such a server is one of those considered. */
  lemma PlainServerServes(settings: Settings)
    ensures Serving(settings, (m: RawManifest, n: nat) => PlainBody(settings, m))
  {
    forall m: RawManifest ensures settings.Served(m, PlainBody(settings, m)) {
      ServedUnchanged(InjectManagedLabel(m.data, settings.labelKey, settings.labelValue));
    }
  }

  class World {
    const settings: Settings
    const server: Server
    var live: Live
    var stored: Option<State>
    var log: seq<Event>
    /** How many calls failed so far. */
    var faults: nat

    constructor (settings: Settings, server: Server, live: Live, stored: Option<State>)
      ensures this.settings == settings && this.server == server && this.live == live && this.stored == stored
      ensures log == [] && faults == 0
    {
      this.settings := settings;
      this.server := server;
      this.live := live;
      this.stored := stored;
      log := [];
      faults := 0;
    }

    /** Whether the next call goes through. */
    method Attempt() returns (ok: bool)
      modifies this`faults
      ensures faults == old(faults) + if ok then 0 else 1
    {
      ok := *;
      faults := faults + if ok then 0 else 1;
    }

    method Resolve(group: string, kind: string) returns (ok: bool)
      modifies this`faults
      ensures ok ==> settings.Serves(group, kind)
      ensures if ok then faults == old(faults) else faults > old(faults)
    {
      ok := Attempt();
      if ok && !settings.Serves(group, kind) {
        ok := false;
        faults := faults + 1;
      }
    }

    method ListManaged(group: string, kind: string) returns (items: Option<seq<DynObj>>)
      modifies this`faults
      ensures if items.Some? then faults == old(faults) else faults > old(faults)
      ensures items.Some? ==> ListsKind(items.value, live, group, kind)
    {
      var ok := Attempt();
      if !ok {
        return None;
      }
      var pending := set a | a in live && ManagedOfKind(live, group, kind, a);
      var found: seq<DynObj> := [];
      while pending != {}
        invariant forall a | a in pending :: ManagedOfKind(live, group, kind, a)
        invariant forall i | 0 <= i < |found| ::
                    exists a :: ManagedOfKind(live, group, kind, a) && a !in pending && found[i] == ObjectOf(a, live[a])
        invariant forall a | ManagedOfKind(live, group, kind, a) :: a in pending || ObjectOf(a, live[a]) in found
        invariant forall i, j | 0 <= i < j < |found| :: found[i] != found[j]
        decreases |pending|
      {
        var a :| a in pending;
        pending := pending - {a};
        found := found + [ObjectOf(a, live[a])];
      }
      items := Some(found);
    }

    method GetObject(key: ResourceKey) returns (r: Fetched<Body>)
      requires settings.Serves(key.group, key.kind)
      modifies this`faults
      ensures if r.Unavailable? then faults > old(faults) else faults == old(faults)
      ensures r.Found? ==> settings.AddressOf(key) in live && r.value == live[settings.AddressOf(key)]
      ensures r.NotFound? ==> settings.AddressOf(key) !in live
    {
      var ok := Attempt();
      var a := settings.AddressOf(key);
      r := if !ok then Unavailable else if a in live then Fetched.Found(live[a]) else NotFound;
    }

    /** Delete by name. An error may mean that there was nothing to delete, or that the answer was lost. */
    method Delete(purpose: Purpose, key: ResourceKey) returns (ok: bool)
      requires settings.Serves(key.group, key.kind)
      modifies this`live, this`faults, this`log
      ensures log == old(log) + [DeleteCall(purpose, key, ok)]
      ensures live == old(live) || live == old(live) - {settings.AddressOf(key)}
      ensures ok ==> settings.AddressOf(key) in old(live) && settings.AddressOf(key) !in live
      ensures faults == old(faults) + (if ok || settings.AddressOf(key) !in old(live) then 0 else 1)
    {
      var a := settings.AddressOf(key);
      if a !in live {
        ok := false;
      } else {
        ok := Attempt();
        var landed: bool := *;
        if ok || landed {
          live := live - {a};
        }
      }
      log := log + [DeleteCall(purpose, key, ok)];
    }

    /** Server-side apply of a manifest with the managed-by label injected. */
    method Apply(purpose: Purpose, m: RawManifest, dryRun: bool) returns (ok: bool)
      requires settings.Serves(m.group, m.kind)
      modifies this`live, this`faults, this`log
      ensures log == old(log) + [ApplyCall(purpose, KeyOf(m), dryRun, ok)]
      ensures faults == old(faults) + if ok then 0 else 1
      ensures live == old(live)
              || (!dryRun && live == old(live)[settings.AddressOf(KeyOf(m)) := server(m, |old(log)|)])
      ensures ok && !dryRun ==> settings.AddressOf(KeyOf(m)) in live
                                && live[settings.AddressOf(KeyOf(m))] == server(m, |old(log)|)
    {
      ok := Attempt();
      var landed: bool := *;
      if !dryRun && (ok || landed) {
        live := live[settings.AddressOf(KeyOf(m)) := server(m, |log|)];
      }
      log := log + [ApplyCall(purpose, KeyOf(m), dryRun, ok)];
    }

    method ReadState() returns (r: Fetched<State>)
      modifies this`faults
      ensures if r.Unavailable? then faults > old(faults) else faults == old(faults)
      ensures r.Found? ==> stored == Some(r.value)
      ensures r.NotFound? ==> stored == None
    {
      var ok := Attempt();
      r := if !ok then Unavailable else match stored case Some(s) => Fetched.Found(s) case None => NotFound;
    }

    method WriteState(s: State) returns (ok: bool)
      modifies this`stored, this`faults, this`log
      ensures log == old(log) + [StateWrite(s, ok)]
      ensures faults == old(faults) + if ok then 0 else 1
      ensures stored == old(stored) || stored == Some(s)
      ensures ok ==> stored == Some(s)
    {
      ok := Attempt();
      var landed: bool := *;
      if ok || landed {
        stored := Some(s);
      }
      log := log + [StateWrite(s, ok)];
    }
  }
}

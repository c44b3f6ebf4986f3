/** Pruning (`src/prune.rs`): which live objects a pass deletes, and which orphans are ever recovered. */
module Prune {

  import opened Wrappers
  import opened Manifest
  import opened Kube
  import opened Hooks
  import opened Cluster

  predicate ShouldSkipDeletion(o: Body) {
    || (RESOURCE_POLICY_ANNOTATION in o.annotations
        && o.annotations[RESOURCE_POLICY_ANNOTATION] == RESOURCE_POLICY_KEEP)
    || HOOK_ANNOTATION in o.annotations
  }

  /** Kept by its resource policy, or created as a hook of any kind. */
  predicate Exempt(annotations: map<string, string>) {
    || ("helm.sh/resource-policy" in annotations && annotations["helm.sh/resource-policy"] == "keep")
    || "helm.sh/hook" in annotations
  }

  function GvksOf(keys: seq<ResourceKey>): set<Gvk> {
    set k | k in keys :: k.Gvk()
  }

  /** The keys applied before that Git no longer declares. */
  function DeletionTargets(prev: seq<ResourceKey>, current: seq<ResourceKey>): set<ResourceKey> {
    set k | k in prev && k !in current
  }

  /** Where a listed object with this key lies. */
  function ListedAt(k: ResourceKey): Address {
    Address(k.group, k.kind, k.namespace, k.name)
  }

  /** The key of a labelled live object of a kind applied before. */
  predicate InSafetyNet(prev: seq<ResourceKey>, live: Live, k: ResourceKey) {
    k.Gvk() in GvksOf(prev) && ManagedOfKind(live, k.group, k.kind, ListedAt(k))
  }

  predicate IsTarget(prev: seq<ResourceKey>, current: seq<ResourceKey>, live: Live, k: ResourceKey) {
    k !in current && (k in prev || InSafetyNet(prev, live, k))
  }

  ghost predicate Targeted(settings: Settings, prev: seq<ResourceKey>, current: seq<ResourceKey>, live: Live,
      a: Address) {
    exists k :: IsTarget(prev, current, live, k) && settings.Addresses(k, a)
  }

  /** What a prune in which no call fails deletes. */
  ghost function Doomed(settings: Settings, prev: seq<ResourceKey>, current: seq<ResourceKey>,
      live: Live): set<Address> {
    set a | a in live && !ShouldSkipDeletion(live[a]) && Targeted(settings, prev, current, live, a)
  }

  /** The key of a labelled object of this kind that Git does not declare. */
  predicate Undeclares(current: seq<ResourceKey>, live: Live, g: Gvk, k: ResourceKey) {
    k !in current && k.Gvk() == g && ManagedOfKind(live, k.group, k.kind, ListedAt(k))
  }

  /** The labelled objects of a kind whose keys Git does not declare, all of them unless a failure is logged. */
  method SafetyNet(w: World, g: Gvk, current: seq<ResourceKey>) returns (extra: set<ResourceKey>, failed: bool)
    modifies w`faults, w`log
    ensures w.faults >= old(w.faults) && (failed <==> w.faults > old(w.faults))
    ensures w.log == old(w.log) + if failed then [ListFailed(g)] else []
    ensures forall k | k in extra :: Undeclares(current, w.live, g, k)
    ensures !failed ==> forall k | Undeclares(current, w.live, g, k) :: k in extra
  {
    extra, failed := {}, true;
    var items := None;
    var resolved := w.Resolve(g.0, g.2);
    if resolved {
      items := w.ListManaged(g.0, g.2);
    }
    if items.None? {
      w.log := w.log + [ListFailed(g)];
      return;
    }
    failed := false;
    var objs := items.value;
    for i := 0 to |objs|
      invariant forall k | k in extra :: Undeclares(current, w.live, g, k)
      invariant forall j | 0 <= j < i :: KeyOfLive(objs[j], g) in current || KeyOfLive(objs[j], g) in extra
    {
      var k := KeyOfLive(objs[i], g);
      ghost var a :| ManagedOfKind(w.live, g.0, g.2, a) && objs[i] == ObjectOf(a, w.live[a]);
      assert ListedAt(k) == a;
      if k !in current {
        extra := extra + {k};
      }
    }
    forall k | Undeclares(current, w.live, g, k) ensures k in extra {
      var o := ObjectOf(ListedAt(k), w.live[ListedAt(k)]);
      assert o in objs;
      var j :| 0 <= j < |objs| && objs[j] == o;
      assert KeyOfLive(objs[j], g) == k;
    }
  }

  /** No call of this prune failed. */
  predicate PruneQuiet(events: seq<Event>) {
    forall e | e in events :: e.DeleteCall? && e.ok
  }

  /** Only deletions of targets, and warnings. */
  predicate PruneLog(events: seq<Event>, prev: seq<ResourceKey>, current: seq<ResourceKey>, live: Live) {
    forall e | e in events ::
      match e
      case DeleteCall(purpose, key, _) => purpose == ForPrune && IsTarget(prev, current, live, key)
      case ListFailed(kind) => kind in GvksOf(prev)
      case Unchecked(key) => IsTarget(prev, current, live, key)
      case _ => false
  }

  /** Both signals: every result is a target, and every target is a result unless its kind's list failed. */
  method CollectTargets(w: World, prev: seq<ResourceKey>, current: seq<ResourceKey>)
    returns (targets: set<ResourceKey>, ghost events: seq<Event>)
    modifies w`faults, w`log
    ensures w.faults >= old(w.faults) && (w.faults == old(w.faults) ==> PruneQuiet(events))
    ensures w.log == old(w.log) + events && PruneLog(events, prev, current, w.live)
    ensures forall k | k in targets :: IsTarget(prev, current, w.live, k)
    ensures forall k | IsTarget(prev, current, w.live, k) :: k in targets || ListFailed(k.Gvk()) in events
  {
    targets, events := DeletionTargets(prev, current), [];
    var pending := GvksOf(prev);
    while pending != {}
      invariant pending <= GvksOf(prev)
      invariant w.faults >= old(w.faults) && (w.faults == old(w.faults) ==> PruneQuiet(events))
      invariant w.log == old(w.log) + events && PruneLog(events, prev, current, w.live)
      invariant forall k | k in targets :: IsTarget(prev, current, w.live, k)
      invariant forall k | IsTarget(prev, current, w.live, k) ::
                  k in targets || (k !in prev && k.Gvk() in pending) || ListFailed(k.Gvk()) in events
      decreases |pending|
    {
      var g :| g in pending;
      pending := pending - {g};
      var extra, failed := SafetyNet(w, g, current);
      targets := targets + extra;
      events := events + if failed then [ListFailed(g)] else [];
    }
  }

  /** The call for this target failed. */
  predicate Failed(events: seq<Event>, key: ResourceKey) {
    Unchecked(key) in events || DeleteCall(ForPrune, key, false) in events
  }

  /** What the handling of one target may do. */
  ghost predicate PrunedOne(
    settings: Settings, before: Live, after: Live, key: ResourceKey, ok: bool, call: seq<Event>)
  {
    && (call == [] || call == [Unchecked(key)] || call == [DeleteCall(ForPrune, key, ok)])
    && (|| after == before
        || exists a :: settings.Addresses(key, a) && a in before && !ShouldSkipDeletion(before[a])
                       && after == before - {a})
    && (ok ==> exists a :: settings.Addresses(key, a) && a in before && a !in after)
    && (Failed(call, key) || forall a | settings.Addresses(key, a) && a in after :: ShouldSkipDeletion(after[a]))
  }

  /** Delete one target, unless it is gone or exempt. */
  method PruneOne(w: World, key: ResourceKey) returns (deleted: bool, ghost events: seq<Event>)
    modifies w`live, w`faults, w`log
    ensures w.faults >= old(w.faults) && (w.faults == old(w.faults) ==> PruneQuiet(events))
    ensures w.log == old(w.log) + events
    ensures PrunedOne(w.settings, old(w.live), w.live, key, deleted, events)
  {
    deleted, events := false, [];
    var found := Unavailable;
    var resolved := w.Resolve(key.group, key.kind);
    if resolved {
      found := w.GetObject(key);
    }
    match found {
      case NotFound => return;
      case Unavailable =>
        w.log := w.log + [Unchecked(key)];
        events := [Unchecked(key)];
        return;
      case Found(o) =>
        if ShouldSkipDeletion(o) {
          return;
        }
    }
    deleted := w.Delete(ForPrune, key);
    events := [DeleteCall(ForPrune, key, deleted)];
  }

  /** A failed call that concerns the object at this address: its kind's list, or a call for a key of it. */
  ghost predicate Hindered(settings: Settings, events: seq<Event>, a: Address) {
    || (exists g: Gvk :: g.0 == a.group && g.2 == a.kind && ListFailed(g) in events)
    || (exists k :: settings.Addresses(k, a) && Failed(events, k))
  }

  /** Only doomed objects are gone, and all of them but those that a failed call concerns. */
  ghost predicate PruneEffect(settings: Settings, prev: seq<ResourceKey>, current: seq<ResourceKey>,
                              before: Live, after: Live, events: seq<Event>) {
    && after == before - (before.Keys - after.Keys)
    && before.Keys - after.Keys <= Doomed(settings, prev, current, before)
    && (forall a | a in Doomed(settings, prev, current, before) && a in after :: Hindered(settings, events, a))
  }

  /** Completeness: a prune in which no call fails leaves no doomed object. */
  lemma QuietPruneIsComplete(settings: Settings, prev: seq<ResourceKey>, current: seq<ResourceKey>,
                             before: Live, after: Live, events: seq<Event>)
    requires PruneEffect(settings, prev, current, before, after, events) && PruneQuiet(events)
    ensures after == before - Doomed(settings, prev, current, before)
  {
    forall a | a in Doomed(settings, prev, current, before) ensures a !in after {
      assert !Hindered(settings, events, a);
    }
  }

  /** Targets already handled are gone, exempt, or failed. */
  ghost predicate Handled(settings: Settings, done: set<ResourceKey>, live: Live, events: seq<Event>) {
    forall k, a | k in done && settings.Addresses(k, a) && a in live :: ShouldSkipDeletion(live[a]) || Failed(events, k)
  }

  lemma HandledMore(settings: Settings, done: set<ResourceKey>, before: Live, after: Live,
                    events: seq<Event>, key: ResourceKey, call: seq<Event>)
    requires Handled(settings, done, before, events)
    requires after == before || exists a :: after == before - {a}
    requires Failed(call, key) || forall a | settings.Addresses(key, a) && a in after :: ShouldSkipDeletion(after[a])
    ensures Handled(settings, done + {key}, after, events + call)
  {
  }

  lemma AllHandled(settings: Settings, prev: seq<ResourceKey>, current: seq<ResourceKey>, targets: set<ResourceKey>,
                   before: Live, after: Live, events: seq<Event>)
    requires forall k | IsTarget(prev, current, before, k) :: k in targets || ListFailed(k.Gvk()) in events
    requires Handled(settings, targets, after, events) && after == before - (before.Keys - after.Keys)
    ensures forall a | a in Doomed(settings, prev, current, before) && a in after :: Hindered(settings, events, a)
  {
    forall a | a in Doomed(settings, prev, current, before) && a in after
      ensures Hindered(settings, events, a)
    {
      var k :| IsTarget(prev, current, before, k) && settings.Addresses(k, a);
      if k !in targets {
        assert k.Gvk().0 == a.group && k.Gvk().2 == a.kind;
      }
    }
  }

  /** The reported keys are distinct, and the object of each is gone. */
  ghost predicate Reported(settings: Settings, deleted: seq<ResourceKey>, done: set<ResourceKey>, before: Live,
      after: Live) {
    && (forall k | k in deleted ::
          k in done && settings.Serves(k.group, k.kind)
          && settings.AddressOf(k) in before && settings.AddressOf(k) !in after)
    && (forall i, j | 0 <= i < j < |deleted| :: deleted[i] != deleted[j])
  }

  /** Where the deletion stands: only doomed objects are gone, the handled targets are accounted for, and the
      log says so. */
  ghost predicate DeletedSoFar(settings: Settings, prev: seq<ResourceKey>, current: seq<ResourceKey>,
                               start: Live, live: Live, done: set<ResourceKey>, deleted: seq<ResourceKey>,
                               events: seq<Event>) {
    && live == start - (start.Keys - live.Keys)
    && start.Keys - live.Keys <= Doomed(settings, prev, current, start)
    && Handled(settings, done, live, events)
    && Reported(settings, deleted, done, start, live)
    && PruneLog(events, prev, current, start)
  }

  lemma DeleteOne(settings: Settings, prev: seq<ResourceKey>, current: seq<ResourceKey>,
                  start: Live, before: Live, after: Live, key: ResourceKey, ok: bool, call: seq<Event>)
    requires IsTarget(prev, current, start, key) && PrunedOne(settings, before, after, key, ok, call)
    requires before == start - (start.Keys - before.Keys)
    requires start.Keys - before.Keys <= Doomed(settings, prev, current, start)
    ensures after == start - (start.Keys - after.Keys)
    ensures start.Keys - after.Keys <= Doomed(settings, prev, current, start)
  {
  }

  lemma ReportOne(settings: Settings, deleted: seq<ResourceKey>, done: set<ResourceKey>,
                  start: Live, before: Live, after: Live, key: ResourceKey, ok: bool, call: seq<Event>)
    requires Reported(settings, deleted, done, start, before) && key !in done
    requires PrunedOne(settings, before, after, key, ok, call)
    requires before.Keys <= start.Keys
    ensures Reported(settings, if ok then deleted + [key] else deleted, done + {key}, start, after)
  {
  }

  lemma DeletedNext(settings: Settings, prev: seq<ResourceKey>, current: seq<ResourceKey>, start: Live, before: Live,
                    after: Live, done: set<ResourceKey>, deleted: seq<ResourceKey>, events: seq<Event>,
                    key: ResourceKey, ok: bool, call: seq<Event>)
    requires DeletedSoFar(settings, prev, current, start, before, done, deleted, events)
    requires IsTarget(prev, current, start, key) && key !in done
    requires PrunedOne(settings, before, after, key, ok, call)
    ensures DeletedSoFar(settings, prev, current, start, after, done + {key},
                         if ok then deleted + [key] else deleted, events + call)
  {
    HandledMore(settings, done, before, after, events, key, call);
    DeleteOne(settings, prev, current, start, before, after, key, ok, call);
    ReportOne(settings, deleted, done, start, before, after, key, ok, call);
  }

  /** Delete the targets one by one. */
  method DeleteTargets(w: World, prev: seq<ResourceKey>, current: seq<ResourceKey>, targets: set<ResourceKey>)
    returns (deleted: seq<ResourceKey>, ghost events: seq<Event>)
    requires forall k | k in targets :: IsTarget(prev, current, w.live, k)
    modifies w`live, w`faults, w`log
    ensures w.faults >= old(w.faults) && (w.faults == old(w.faults) ==> PruneQuiet(events))
    ensures DeletedSoFar(w.settings, prev, current, old(w.live), w.live, targets, deleted, events)
    ensures w.log == old(w.log) + events
  {
    deleted, events := [], [];
    var pending := targets;
    while pending != {}
      invariant pending <= targets
      invariant w.faults >= old(w.faults) && (w.faults == old(w.faults) ==> PruneQuiet(events))
      invariant DeletedSoFar(w.settings, prev, current, old(w.live), w.live, targets - pending, deleted, events)
      invariant w.log == old(w.log) + events
      decreases |pending|
    {
      var key :| key in pending;
      ghost var done, previous := targets - pending, w.live;
      pending := pending - {key};
      assert targets - pending == done + {key};
      var ok, call := PruneOne(w, key);
      DeletedNext(w.settings, prev, current, old(w.live), previous, w.live, done, deleted, events, key, ok, call);
      events := events + call;
      deleted := if ok then deleted + [key] else deleted;
    }
    assert targets - pending == targets;
  }

  /** Nothing outside the doomed objects is deleted, whatever fails; a doomed object stays only because a
      call that concerns it failed. Each reported key stands for a deleted object of its own. */
  method Prune(w: World, prev: seq<ResourceKey>, current: seq<ResourceKey>)
    returns (deleted: seq<ResourceKey>, ghost events: seq<Event>)
    modifies w`live, w`faults, w`log
    ensures w.faults >= old(w.faults) && (w.faults == old(w.faults) ==> PruneQuiet(events))
    ensures PruneEffect(w.settings, prev, current, old(w.live), w.live, events)
    ensures w.faults == old(w.faults) ==> w.live == old(w.live) - Doomed(w.settings, prev, current, old(w.live))
    ensures forall k | k in deleted ::
              k !in current && w.settings.Serves(k.group, k.kind)
              && w.settings.AddressOf(k) in old(w.live) && w.settings.AddressOf(k) !in w.live
    ensures forall i, j | 0 <= i < j < |deleted| :: deleted[i] != deleted[j]
    ensures w.log == old(w.log) + events && PruneLog(events, prev, current, old(w.live))
    ensures forall a | a in old(w.live) && Exempt(old(w.live)[a].annotations) ::
              a in w.live && w.live[a] == old(w.live)[a]
    ensures forall k, a | IsTarget(prev, current, old(w.live), k) && w.settings.Addresses(k, a) && a in w.live ::
              Exempt(old(w.live)[a].annotations) || Hindered(w.settings, events, a)
  {
    ghost var before := w.live;
    var targets;
    ghost var collected, calls;
    targets, collected := CollectTargets(w, prev, current);
    deleted, calls := DeleteTargets(w, prev, current, targets);
    events := collected + calls;
    AllHandled(w.settings, prev, current, targets, before, w.live, events);
    if PruneQuiet(events) {
      QuietPruneIsComplete(w.settings, prev, current, before, w.live, events);
    }
  }

  /******* Which objects are doomed *******/

  predicate SameKind(k: ResourceKey, group: string, kind: string) {
    k.group == group && k.kind == kind
  }

  /** Without reference to keys of live objects: an object is doomed when it is not exempt and either a
      key applied before and gone from Git goes to its address, or it is labelled, its kind was applied
      before under some version, and Git does not hold the key spelled out with that version. */
  lemma DoomedIff(settings: Settings, prev: seq<ResourceKey>, current: seq<ResourceKey>, live: Live, a: Address)
    requires settings.Scoped(live)
    ensures a in Doomed(settings, prev, current, live) <==>
            && a in live
            && !Exempt(live[a].annotations)
            && (|| (exists k :: k in prev && k !in current && settings.Addresses(k, a))
                || (live[a].managed
                    && exists k :: k in prev && SameKind(k, a.group, a.kind) && KeyAt(a, k.version) !in current))
  {
    if a in live {
      if Targeted(settings, prev, current, live, a) {
        var k :| IsTarget(prev, current, live, k) && settings.Addresses(k, a);
        if k !in prev {
          assert ListedAt(k) == a;
          var p :| p in prev && p.Gvk() == k.Gvk();
          assert KeyAt(a, p.version) == k;
        }
      }
      if exists k :: k in prev && k !in current && settings.Addresses(k, a) {
        var k :| k in prev && k !in current && settings.Addresses(k, a);
        assert IsTarget(prev, current, live, k);
      }
      if live[a].managed && exists k :: k in prev && SameKind(k, a.group, a.kind) && KeyAt(a, k.version) !in current {
        var p :| p in prev && SameKind(p, a.group, a.kind) && KeyAt(a, p.version) !in current;
        var k := KeyAt(a, p.version);
        assert p.Gvk() in GvksOf(prev) && k.Gvk() == p.Gvk() && ListedAt(k) == a;
        assert IsTarget(prev, current, live, k) && settings.Addresses(k, a);
      }
    }
  }

  /** Prune never deletes an exempt object, nor one that was neither applied before nor labelled. */
  lemma PruneSpares(settings: Settings, prev: seq<ResourceKey>, current: seq<ResourceKey>, live: Live, a: Address)
    requires settings.Scoped(live)
    requires a in Doomed(settings, prev, current, live)
    ensures !Exempt(live[a].annotations)
    ensures live[a].managed || exists k :: k in prev && k !in current && settings.Addresses(k, a)
  {
    DoomedIff(settings, prev, current, live, a);
  }

  /******* What Git declares *******/

  /** A key whose object prune takes for an orphan although Git declares it: another key applied before
      goes to the same address and has left Git, or the object is labelled and the key a list gives it,
      under some version its kind was applied with, is not the one Git spells. */
  ghost predicate Endangered(settings: Settings, prev: seq<ResourceKey>, current: seq<ResourceKey>, c: ResourceKey,
      managed: bool)
    requires settings.Serves(c.group, c.kind)
  {
    var a := settings.AddressOf(c);
    || (exists k :: k in prev && k !in current && settings.Addresses(k, a))
    || (managed && exists k :: k in prev && SameKind(k, c.group, c.kind) && KeyAt(a, k.version) !in current)
  }

  /** A prune in which nothing fails deletes the object of a declared key exactly when the keys endanger it. */
  lemma DeclaredPrunedIff(settings: Settings, prev: seq<ResourceKey>, current: seq<ResourceKey>, live: Live,
      c: ResourceKey)
    requires settings.Scoped(live) && settings.Serves(c.group, c.kind)
    requires c in current && settings.AddressOf(c) in live && !Exempt(live[settings.AddressOf(c)].annotations)
    ensures settings.AddressOf(c) in Doomed(settings, prev, current, live)
            <==> Endangered(settings, prev, current, c, live[settings.AddressOf(c)].managed)
  {
    DoomedIff(settings, prev, current, live, settings.AddressOf(c));
  }

  /** The key names a namespace exactly when its kind is namespaced. */
  predicate SpelledOut(settings: Settings, k: ResourceKey) {
    settings.Serves(k.group, k.kind) ==> (k.namespace.None? <==> settings.scopes[(k.group, k.kind)] == ClusterWide)
  }

  /** No kind is applied under one version and declared under another. */
  predicate OneVersion(prev: seq<ResourceKey>, current: seq<ResourceKey>) {
    forall p, c | p in prev && c in current && SameKind(p, c.group, c.kind) :: p.version == c.version
  }

  /** With every key spelled out and one version per kind, nothing Git declares is in danger. */
  lemma DeclaredAreSafe(settings: Settings, prev: seq<ResourceKey>, current: seq<ResourceKey>, c: ResourceKey,
      managed: bool)
    requires forall k | k in prev + current :: SpelledOut(settings, k)
    requires OneVersion(prev, current)
    requires c in current && settings.Serves(c.group, c.kind)
    ensures !Endangered(settings, prev, current, c, managed)
  {
    var a := settings.AddressOf(c);
    assert c in prev + current;
    assert KeyAt(a, c.version) == c;
    forall k | k in prev && settings.Addresses(k, a) ensures k == c {
      assert k in prev + current;
      assert KeyAt(a, k.version) == k;
    }
  }

  /** A namespaced manifest that leaves its namespace to the default is deleted by the pass after the
      one that applied it, unless Git also declares it spelled out. */
  lemma DefaultedNamespaceIsPruned(settings: Settings, prev: seq<ResourceKey>, current: seq<ResourceKey>,
      c: ResourceKey)
    requires settings.Serves(c.group, c.kind) && settings.scopes[(c.group, c.kind)] == Namespaced
    requires c in prev && c in current && c.namespace.None?
    requires c.(namespace := Some(settings.namespace)) !in current
    ensures Endangered(settings, prev, current, c, true)
  {
    assert KeyAt(settings.AddressOf(c), c.version) == c.(namespace := Some(settings.namespace));
  }

  /** Moving a manifest to another version of its kind deletes the object just applied. */
  lemma VersionChangeIsPruned(settings: Settings, prev: seq<ResourceKey>, current: seq<ResourceKey>,
                              c: ResourceKey, oldVersion: string, managed: bool)
    requires settings.Serves(c.group, c.kind)
    requires c.(version := oldVersion) in prev && c.(version := oldVersion) !in current && c in current
    ensures Endangered(settings, prev, current, c, managed)
  {
    var k := c.(version := oldVersion);
    assert settings.AddressOf(k) == settings.AddressOf(c);
  }

  /******* Orphans *******/

  /** A labelled object that is not exempt. */
  predicate Prunable(o: Body) {
    o.managed && !Exempt(o.annotations)
  }

  predicate KindIn(keys: seq<ResourceKey>, a: Address) {
    exists k | k in keys :: SameKind(k, a.group, a.kind)
  }

  /** Git declares the object under no version. */
  ghost predicate Undeclared(keys: seq<ResourceKey>, a: Address) {
    forall version :: KeyAt(a, version) !in keys
  }

  /** A prunable orphan is a deletion target exactly while its kind is among the keys applied before. */
  lemma OrphanDoomedIff(settings: Settings, prev: seq<ResourceKey>, current: seq<ResourceKey>, live: Live, a: Address)
    requires settings.Scoped(live)
    requires a in live && Prunable(live[a]) && Undeclared(current, a)
    ensures a in Doomed(settings, prev, current, live) <==> KindIn(prev, a)
  {
    DoomedIff(settings, prev, current, live, a);
    forall k | k in prev && SameKind(k, a.group, a.kind) ensures KeyAt(a, k.version) !in current {
    }
  }
}

/** Applying the main resources and checking them for drift against the cluster (`apply_all` of
    `src/reconcile.rs`, `detect` of `src/drift.rs`), and the hooks around an apply. */
module Sync {

  import opened Wrappers
  import opened Manifest
  import opened Kube
  import opened Hooks
  import opened Drift
  import opened Cluster
  import opened HookRunner

  /** What happened to one manifest: its kind did not resolve, or the apply was called. */
  datatype ApplyOutcome = Unresolved | Called(ok: bool)

  function OutcomeEvents(m: RawManifest, dryRun: bool, o: ApplyOutcome): seq<Event> {
    match o
    case Unresolved => []
    case Called(ok) => [ApplyCall(ForMain, KeyOf(m), dryRun, ok)]
  }

  function ApplyTrace(ms: seq<RawManifest>, dryRun: bool, outcomes: seq<ApplyOutcome>): seq<Event>
    requires |outcomes| <= |ms|
  {
    if outcomes == [] then []
    else
      var n := |outcomes| - 1;
      ApplyTrace(ms, dryRun, outcomes[..n]) + OutcomeEvents(ms[n], dryRun, outcomes[n])
  }

  /** The keys of the manifests not applied, in order. */
  function FailedKeys(ms: seq<RawManifest>, outcomes: seq<ApplyOutcome>): seq<ResourceKey>
    requires |outcomes| <= |ms|
  {
    if outcomes == [] then []
    else
      var n := |outcomes| - 1;
      FailedKeys(ms, outcomes[..n]) + (if outcomes[n] == Called(true) then [] else [KeyOf(ms[n])])
  }

  ghost function MainAddresses(settings: Settings, ms: seq<RawManifest>): set<Address> {
    set m | m in ms && settings.Serves(m.group, m.kind) :: settings.AddressOf(KeyOf(m))
  }

  /** No two manifests go to the same address. */
  predicate DistinctAddresses(settings: Settings, ms: seq<RawManifest>) {
    forall i, j | 0 <= i < j < |ms| && settings.Serves(ms[i].group, ms[i].kind) ::
      !settings.Addresses(KeyOf(ms[j]), settings.AddressOf(KeyOf(ms[i])))
  }

  /** The manifest's object is live as the server may serve it after an apply. */
  ghost predicate ServedAt(settings: Settings, m: RawManifest, live: Live) {
    && settings.Serves(m.group, m.kind)
    && settings.AddressOf(KeyOf(m)) in live
    && settings.Served(m, live[settings.AddressOf(KeyOf(m))])
  }

  ghost predicate AllServed(settings: Settings, ms: seq<RawManifest>, live: Live) {
    forall i | 0 <= i < |ms| :: ServedAt(settings, ms[i], live)
  }

  lemma OutcomesPush(ms: seq<RawManifest>, dryRun: bool, outcomes: seq<ApplyOutcome>, o: ApplyOutcome, log: seq<Event>)
    requires |outcomes| < |ms|
    ensures log + ApplyTrace(ms, dryRun, outcomes + [o])
            == log + ApplyTrace(ms, dryRun, outcomes) + OutcomeEvents(ms[|outcomes|], dryRun, o)
    ensures FailedKeys(ms, outcomes + [o])
            == FailedKeys(ms, outcomes) + if o == Called(true) then [] else [KeyOf(ms[|outcomes|])]
  {
    assert (outcomes + [o])[..|outcomes|] == outcomes;
  }

  /** The keys reported as failed are those of the manifests whose kind did not resolve or whose apply failed. */
  lemma {:induction false} FailedKeysIff(ms: seq<RawManifest>, outcomes: seq<ApplyOutcome>, k: ResourceKey)
    requires |outcomes| <= |ms|
    ensures k in FailedKeys(ms, outcomes) <==>
            exists i | 0 <= i < |outcomes| :: KeyOf(ms[i]) == k && (outcomes[i].Unresolved? || !outcomes[i].ok)
  {
    if outcomes != [] {
      FailedKeysIff(ms, outcomes[..|outcomes| - 1], k);
    }
  }

  /** Each manifest whose kind resolved was applied, and nothing else. */
  lemma {:induction false} ApplyTraceIff(ms: seq<RawManifest>, dryRun: bool, outcomes: seq<ApplyOutcome>, e: Event)
    requires |outcomes| <= |ms|
    ensures e in ApplyTrace(ms, dryRun, outcomes) <==>
            exists i | 0 <= i < |outcomes| ::
              outcomes[i].Called? && e == ApplyCall(ForMain, KeyOf(ms[i]), dryRun, outcomes[i].ok)
  {
    if outcomes != [] {
      ApplyTraceIff(ms, dryRun, outcomes[..|outcomes| - 1], e);
    }
  }

  /** If all kinds resolved, the applies follow the order of the manifests. */
  lemma {:induction false} ApplyTraceInOrder(ms: seq<RawManifest>, dryRun: bool, outcomes: seq<ApplyOutcome>)
    requires |outcomes| <= |ms| && forall i | 0 <= i < |outcomes| :: outcomes[i].Called?
    ensures |ApplyTrace(ms, dryRun, outcomes)| == |outcomes|
    ensures forall i | 0 <= i < |outcomes| ::
              ApplyTrace(ms, dryRun, outcomes)[i] == ApplyCall(ForMain, KeyOf(ms[i]), dryRun, outcomes[i].ok)
  {
    if outcomes != [] {
      ApplyTraceInOrder(ms, dryRun, outcomes[..|outcomes| - 1]);
    }
  }

  lemma ServedElsewhere(settings: Settings, m: RawManifest, live: Live, a: Address, b: Body)
    requires ServedAt(settings, m, live) && settings.AddressOf(KeyOf(m)) != a
    ensures ServedAt(settings, m, live[a := b])
  {
    var body := live[settings.AddressOf(KeyOf(m))];
    assert settings.Served(m, body);
    assert live[a := b][settings.AddressOf(KeyOf(m))] == body;
  }

  lemma ServedPut(settings: Settings, m: RawManifest, live: Live, b: Body)
    requires settings.Serves(m.group, m.kind) && settings.Served(m, b)
    ensures ServedAt(settings, m, live[settings.AddressOf(KeyOf(m)) := b])
  {
  }

  lemma EarlierServed(settings: Settings, ms: seq<RawManifest>, i: nat, j: nat, live: Live)
    requires j < i < |ms| && DistinctAddresses(settings, ms) && settings.Serves(ms[i].group, ms[i].kind)
    requires AllServed(settings, ms[..i], live)
    ensures ServedAt(settings, ms[j], live)
    ensures settings.AddressOf(KeyOf(ms[j])) != settings.AddressOf(KeyOf(ms[i]))
  {
    assert ms[..i][j] == ms[j];
  }

  /** Another manifest at an address of its own leaves the served ones alone. */
  lemma ServedPush(settings: Settings, ms: seq<RawManifest>, i: nat, before: Live, b: Body)
    requires i < |ms| && DistinctAddresses(settings, ms)
    requires AllServed(settings, ms[..i], before)
    requires settings.Serves(ms[i].group, ms[i].kind) && settings.Served(ms[i], b)
    ensures AllServed(settings, ms[..i + 1], before[settings.AddressOf(KeyOf(ms[i])) := b])
  {
    var a, done := settings.AddressOf(KeyOf(ms[i])), ms[..i + 1];
    ServedPut(settings, ms[i], before, b);
    forall j | 0 <= j < |done|
      ensures ServedAt(settings, done[j], before[a := b])
    {
      if j < i {
        EarlierServed(settings, ms, i, j, before);
        ServedElsewhere(settings, ms[j], before, a, b);
      } else {
        assert done[j] == ms[i];
      }
    }
  }

  /** Only the manifests' own addresses changed, and objects are where their kind's scope puts them. */
  ghost predicate OnlyMain(settings: Settings, ms: seq<RawManifest>, before: Live, after: Live) {
    && OnlyTouches(MainAddresses(settings, ms), before, after)
    && (settings.Scoped(before) ==> settings.Scoped(after))
  }

  lemma OnlyMainPut(settings: Settings, ms: seq<RawManifest>, m: RawManifest, start: Live, before: Live, b: Body)
    requires OnlyMain(settings, ms, start, before) && m in ms && settings.Serves(m.group, m.kind)
    ensures OnlyMain(settings, ms, start, before[settings.AddressOf(KeyOf(m)) := b])
  {
    assert settings.AddressOf(KeyOf(m)) in MainAddresses(settings, ms);
  }

  /** Apply one manifest. */
  method ApplyOne(w: World, m: RawManifest, dryRun: bool) returns (o: ApplyOutcome, ghost landed: bool)
    modifies w`live, w`faults, w`log
    ensures w.log == old(w.log) + OutcomeEvents(m, dryRun, o)
    ensures w.faults == old(w.faults) ==> o == Called(true)
    ensures w.faults >= old(w.faults)
    ensures landed ==> !dryRun && w.settings.Serves(m.group, m.kind)
    ensures o == Called(true) && !dryRun ==> landed
    ensures w.live == if landed then old(w.live)[w.settings.AddressOf(KeyOf(m)) := w.server(m, |old(w.log)|)]
              else old(w.live)
  {
    var resolved := w.Resolve(m.group, m.kind);
    if !resolved {
      return Unresolved, false;
    }
    var ok := w.Apply(ForMain, m, dryRun);
    o := Called(ok);
    landed := w.live != old(w.live) || (ok && !dryRun);
  }

  /** The first `i` manifests have been applied: nothing but main objects changed, nothing at all in a dry
      run, and if no call failed and no two share an address, all of them are served. */
  ghost predicate AppliedUpTo(settings: Settings, server: Server, ms: seq<RawManifest>, i: nat, dryRun: bool,
                              start: Live, live: Live, clean: bool)
  {
    && i <= |ms|
    && OnlyMain(settings, ms, start, live)
    && (dryRun ==> live == start)
    && (clean && !dryRun && DistinctAddresses(settings, ms) && Serving(settings, server) ==>
          AllServed(settings, ms[..i], live))
  }

  lemma AppliedNext(settings: Settings, server: Server, ms: seq<RawManifest>, i: nat, dryRun: bool,
                    start: Live, before: Live, n: nat, landed: bool, clean: bool, after: Live)
    requires i < |ms| && AppliedUpTo(settings, server, ms, i, dryRun, start, before, clean)
    requires landed ==> !dryRun && settings.Serves(ms[i].group, ms[i].kind)
    requires after == if landed then before[settings.AddressOf(KeyOf(ms[i])) := server(ms[i], n)] else before
    requires clean && !dryRun ==> landed
    ensures AppliedUpTo(settings, server, ms, i + 1, dryRun, start, after, clean)
  {
    if landed {
      OnlyMainPut(settings, ms, ms[i], start, before, server(ms[i], n));
    }
    if clean && !dryRun && DistinctAddresses(settings, ms) && Serving(settings, server) {
      ServedPush(settings, ms, i, before, server(ms[i], n));
    }
  }

  /** Apply every manifest in order; a failure is recorded and does not stop the rest. */
  method ApplyAll(w: World, ms: seq<RawManifest>, dryRun: bool)
    returns (failed: seq<ResourceKey>, ghost outcomes: seq<ApplyOutcome>)
    modifies w`live, w`faults, w`log
    ensures |outcomes| == |ms|
    ensures w.log == old(w.log) + ApplyTrace(ms, dryRun, outcomes)
    ensures failed == FailedKeys(ms, outcomes)
    ensures w.faults >= old(w.faults)
    ensures dryRun ==> w.live == old(w.live)
    ensures OnlyMain(w.settings, ms, old(w.live), w.live)
    ensures w.faults == old(w.faults) ==> failed == []
    ensures w.faults == old(w.faults) && !dryRun && DistinctAddresses(w.settings, ms)
            && Serving(w.settings, w.server) ==>
              AllServed(w.settings, ms, w.live)
  {
    failed, outcomes := [], [];
    for i := 0 to |ms|
      invariant |outcomes| == i
      invariant w.log == old(w.log) + ApplyTrace(ms, dryRun, outcomes)
      invariant failed == FailedKeys(ms, outcomes)
      invariant w.faults >= old(w.faults)
      invariant w.faults == old(w.faults) ==> failed == []
      invariant AppliedUpTo(w.settings, w.server, ms, i, dryRun, old(w.live), w.live, w.faults == old(w.faults))
    {
      var m := ms[i];
      ghost var before, n := w.live, |w.log|;
      var o, landed := ApplyOne(w, m, dryRun);
      OutcomesPush(ms, dryRun, outcomes, o, old(w.log));
      AppliedNext(w.settings, w.server, ms, i, dryRun, old(w.live), before, n, landed, w.faults == old(w.faults),
          w.live);
      if o != Called(true) {
        failed := failed + [KeyOf(m)];
      }
      outcomes := outcomes + [o];
    }
    assert ms[..|ms|] == ms;
  }

  /******* Drift *******/

  /** One list for each managed kind; a kind that cannot be resolved or listed is left out. */
  method FetchLists(w: World, ms: seq<RawManifest>) returns (lists: Lists)
    modifies w`faults
    ensures w.faults >= old(w.faults)
    ensures lists.Keys <= Kinds(ms)
    ensures forall g | g in lists :: ListsKind(lists[g], w.live, g.0, g.2)
    ensures w.faults == old(w.faults) ==> lists.Keys == Kinds(ms)
  {
    lists := map[];
    var pending := Kinds(ms);
    while pending != {}
      invariant pending <= Kinds(ms) && lists.Keys <= Kinds(ms)
      invariant w.faults >= old(w.faults)
      invariant forall g | g in lists :: ListsKind(lists[g], w.live, g.0, g.2)
      invariant w.faults == old(w.faults) ==> lists.Keys == Kinds(ms) - pending
      decreases |pending|
    {
      var g :| g in pending;
      pending := pending - {g};
      var resolved := w.Resolve(g.0, g.2);
      if resolved {
        var items := w.ListManaged(g.0, g.2);
        if items.Some? {
          lists := lists[g := items.value];
        }
      }
    }
  }

  /** The list-based drift check. */
  method Detect(w: World, ms: seq<RawManifest>) returns (drifts: seq<DriftItem>, ghost lists: Lists)
    modifies w`faults
    ensures w.faults >= old(w.faults)
    ensures drifts == Verdicts(ms, Listed(lists))
    ensures forall g | g in lists :: ListsKind(lists[g], w.live, g.0, g.2)
    ensures w.faults == old(w.faults) ==> lists.Keys == Kinds(ms)
  {
    var fetched := FetchLists(w, ms);
    lists := fetched;
    drifts := ComputeDrifts(ms, fetched);
  }

  /******* Hooks around an apply *******/

  /** PreSync hooks, then, unless one failed, the main resources, then PostSync hooks. */
  datatype SyncReport = SyncReport(pre: seq<HookReport>, outcomes: seq<ApplyOutcome>, post: seq<HookReport>)

  predicate SyncOk(c: Classified, r: SyncReport) {
    && PhaseReport(SortByWeight(c.pre), r.pre)
    && (if PhaseOk(r.pre) then |r.outcomes| == |c.main| && PhaseReport(SortByWeight(c.post), r.post)
        else r.outcomes == [] && r.post == [])
  }

  function SyncTrace(c: Classified, r: SyncReport): seq<Event>
    requires SyncOk(c, r)
  {
    PhaseTrace(PreSync, SortByWeight(c.pre), r.pre)
    + ApplyTrace(c.main, false, r.outcomes)
    + PhaseTrace(PostSync, SortByWeight(c.post), r.post)
  }

  method SyncMain(w: World, c: Classified, envs: HookInfo -> HookEnv)
    returns (preFailed: bool, postFailed: bool, failed: seq<ResourceKey>,
             ghost r: SyncReport, ghost hooked: Live, ghost applied: Live)
    modifies w`live, w`faults, w`log
    ensures SyncOk(c, r)
    ensures AllCompletedAs(SortByWeight(c.pre), envs, r.pre) && AllCompletedAs(SortByWeight(c.post), envs, r.post)
    ensures w.log == old(w.log) + SyncTrace(c, r)
    ensures w.faults >= old(w.faults)
    ensures preFailed == !PhaseOk(r.pre)
    ensures postFailed == !PhaseOk(r.post)
    ensures failed == FailedKeys(c.main, r.outcomes)
    ensures OnlyTouches(HookAddresses(w.settings, c.pre), old(w.live), hooked)
    ensures preFailed ==> applied == hooked && w.live == hooked
    ensures OnlyMain(w.settings, c.main, hooked, applied)
    ensures OnlyTouches(HookAddresses(w.settings, c.post), applied, w.live)
    ensures w.faults == old(w.faults) && !preFailed ==>
              failed == []
              && (DistinctAddresses(w.settings, c.main) && Serving(w.settings, w.server) ==>
                    AllServed(w.settings, c.main, applied))
  {
    failed, postFailed := [], false;
    var attempted, failures;
    ghost var pre, outcomes, post;
    attempted, failures, pre := RunPhase(w, PreSync, c.pre, envs);
    hooked, applied := w.live, w.live;
    preFailed := failures != [];
    if preFailed {
      r := SyncReport(pre, [], []);
      Regroup(old(w.log), PhaseTrace(PreSync, SortByWeight(c.pre), pre), [], [], []);
      return;
    }
    failed, outcomes := ApplyAll(w, c.main, false);
    applied := w.live;
    attempted, failures, post := RunPhase(w, PostSync, c.post, envs);
    postFailed := failures != [];
    r := SyncReport(pre, outcomes, post);
    Regroup(old(w.log), PhaseTrace(PreSync, SortByWeight(c.pre), pre), ApplyTrace(c.main, false, outcomes),
            PhaseTrace(PostSync, SortByWeight(c.post), post), []);
  }
}

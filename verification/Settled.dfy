/** After a clean apply: what the next pass at the same commit finds and does. */
module Settled {

  import opened Wrappers
  import opened Json
  import opened SpecSubset
  import opened SubsetOrder
  import opened ServerEdits
  import opened Quiescence
  import opened Manifest
  import opened Kube
  import opened Hooks
  import opened Drift
  import opened Cluster
  import opened HookRunner
  import opened Sync
  import opened Prune
  import opened Reconcile

  /******* The managed-by label reaches the live object *******/

  /** The label is on every object the server may serve exactly when the manifest can take it. */
  lemma LabelServedIff(settings: Settings, m: RawManifest)
    ensures TakesLabel(m.data) <==> forall b | settings.Served(m, b) :: b.managed
  {
    var key, labelValue := settings.labelKey, settings.labelValue;
    if TakesLabel(m.data) {
      forall b | settings.Served(m, b) ensures b.managed {
        var injected := InjectManagedLabel(m.data, key, labelValue);
        EditedIff(Strip(injected), Strip(b.value));
        LabelKept(m.data, key, labelValue, b.value);
      }
    } else {
      var b := UnlabelledWitness(settings, m);
    }
  }

  /** A server that stores such a manifest as it is serves it without the label. */
  lemma UnlabelledWitness(settings: Settings, m: RawManifest) returns (b: Body)
    requires !TakesLabel(m.data)
    ensures settings.Served(m, b) && !b.managed
  {
    b := PlainBody(settings, m);
    NoInjection(m.data, settings.labelKey, settings.labelValue);
    ServedUnchanged(b.value);
  }

  /******* The drift check after an apply *******/

  /** A list of a kind leads a spelled-out manifest to its own object, if that is labelled. */
  lemma MatchInList(settings: Settings, m: RawManifest, live: Live, items: seq<DynObj>)
    requires settings.Scoped(live) && ListsKind(items, live, m.group, m.kind)
    requires settings.Serves(m.group, m.kind) && SpelledOut(settings, KeyOf(m))
    ensures var a := settings.AddressOf(KeyOf(m));
            FindLiveMatch(m, items) == if a in live && live[a].managed then Some(ObjectOf(a, live[a])) else None
  {
    var a := settings.AddressOf(KeyOf(m));
    MatchIsFirst(m, items);
    if a in live && live[a].managed {
      assert ManagedOfKind(live, m.group, m.kind, a);
      var i :| 0 <= i < |items| && items[i] == ObjectOf(a, live[a]);
      assert Matches(m, items[i]);
    }
    var found := FindLiveMatch(m, items);
    if found.Some? {
      var j :| 0 <= j < |items| && items[j] == found.value && Matches(m, found.value);
      var b :| ManagedOfKind(live, m.group, m.kind, b) && items[j] == ObjectOf(b, live[b]);
      assert b == a;
    }
  }

  /** A key that is not spelled out matches no object of its kind's list. */
  lemma NoMatchInList(settings: Settings, m: RawManifest, live: Live, items: seq<DynObj>)
    requires settings.Scoped(live) && ListsKind(items, live, m.group, m.kind)
    requires settings.Serves(m.group, m.kind) && !SpelledOut(settings, KeyOf(m))
    ensures FindLiveMatch(m, items).None?
  {
    MatchIsFirst(m, items);
    forall i | 0 <= i < |items| ensures !Matches(m, items[i]) {
      var b :| ManagedOfKind(live, m.group, m.kind, b) && items[i] == ObjectOf(b, live[b]);
      assert b.namespace.None? <==> m.namespace.Some?;
    }
  }

  /** What makes the drift check report a served manifest although it was just applied: it does not carry
      the label, its zero-valued `spec` was left out, it fixes the label to another value, or one of its
      zero-valued members is back with another content. */
  ghost predicate Restless(settings: Settings, m: RawManifest, live: Json) {
    || !settings.Labelled(live)
    || SpecOmitted(m.data, live)
    || LabelConflict(m.data, settings.labelKey, settings.labelValue)
    || Refilled(Compared(m.data), Strip(live))
  }

  function LiveValue(settings: Settings, m: RawManifest, live: Live): Json
    requires settings.Serves(m.group, m.kind) && settings.AddressOf(KeyOf(m)) in live
  {
    live[settings.AddressOf(KeyOf(m))].value
  }

  /** The manifest's kind was listed. */
  ghost predicate ListedFor(m: RawManifest, live: Live, lists: Lists) {
    m.Gvk() in lists && ListsKind(lists[m.Gvk()], live, m.group, m.kind)
  }

  lemma VerdictAfterApplyIff(settings: Settings, m: RawManifest, live: Live, lists: Lists)
    requires settings.Scoped(live) && ServedAt(settings, m, live) && ListedFor(m, live, lists)
    ensures ListedVerdict(m, lists).Some? <==>
            !SpelledOut(settings, KeyOf(m)) || Restless(settings, m, LiveValue(settings, m, live))
  {
    var b := live[settings.AddressOf(KeyOf(m))];
    assert settings.Served(m, b);
    if SpelledOut(settings, KeyOf(m)) {
      MatchInList(settings, m, live, lists[m.Gvk()]);
      DriftAfterApplyIff(m.data, settings.labelKey, settings.labelValue, b.value);
    } else {
      NoMatchInList(settings, m, live, lists[m.Gvk()]);
    }
  }

  lemma {:induction false} NoVerdictsIff(ms: seq<RawManifest>, check: Check)
    ensures Verdicts(ms, check) == [] <==> forall i | 0 <= i < |ms| :: Verdict(ms[i], check).None?
  {
    if ms != [] {
      var n := |ms| - 1;
      var front, last := ms[..n], ms[n];
      NoVerdictsIff(front, check);
      assert forall i | 0 <= i < n :: front[i] == ms[i];
      assert Verdicts(ms, check) == [] <==> Verdicts(front, check) == [] && Verdict(last, check).None?;
    }
  }

  lemma {:induction false} KindsHolds(ms: seq<RawManifest>, i: nat)
    requires i < |ms|
    ensures ms[i].Gvk() in Kinds(ms)
  {
    if i < |ms| - 1 {
      KindsHolds(ms[..|ms| - 1], i);
    }
  }

  /** All manifests were applied, and the state says so for this commit. */
  ghost predicate IsSettled(settings: Settings, main: seq<RawManifest>, sha: string, live: Live,
      stored: Option<State>) {
    && settings.Scoped(live)
    && AllServed(settings, main, live)
    && stored.Some? && stored.value.lastSha == Some(sha) && stored.value.applied == KeysOf(main)
  }

  /** Keys name a namespace exactly when their kind is namespaced, and no kind changes its version. */
  ghost predicate WellKeyed(settings: Settings, prev: seq<ResourceKey>, current: seq<ResourceKey>) {
    && (forall k | k in prev + current :: SpelledOut(settings, k))
    && OneVersion(prev, current)
  }

  /******* Prune and hooks leave the applied objects alone *******/

  lemma PruneKeepsServed(settings: Settings, main: seq<RawManifest>, prev: seq<ResourceKey>,
                         before: Live, after: Live, events: seq<Event>)
    requires settings.Scoped(before) && AllServed(settings, main, before)
    requires WellKeyed(settings, prev, KeysOf(main))
    requires PruneEffect(settings, prev, KeysOf(main), before, after, events)
    ensures settings.Scoped(after) && AllServed(settings, main, after)
  {
    forall i | 0 <= i < |main|
      ensures ServedAt(settings, main[i], after)
    {
      var a := settings.AddressOf(KeyOf(main[i]));
      assert ServedAt(settings, main[i], before);
      assert KeysOf(main)[i] == KeyOf(main[i]);
      if a in Doomed(settings, prev, KeysOf(main), before) {
        DeclaredPrunedIff(settings, prev, KeysOf(main), before, KeyOf(main[i]));
        DeclaredAreSafe(settings, prev, KeysOf(main), KeyOf(main[i]), before[a].managed);
      }
      assert a in after && after[a] == before[a];
    }
  }

  /** No hook is the object of a main resource. */
  ghost predicate HooksApart(settings: Settings, hooks: seq<HookInfo>, main: seq<RawManifest>) {
    forall i | 0 <= i < |main| && settings.Serves(main[i].group, main[i].kind) ::
      settings.AddressOf(KeyOf(main[i])) !in HookAddresses(settings, hooks)
  }

  lemma HooksKeepServed(settings: Settings, hooks: seq<HookInfo>, main: seq<RawManifest>, before: Live, after: Live)
    requires AllServed(settings, main, before) && HooksApart(settings, hooks, main)
    requires OnlyTouches(HookAddresses(settings, hooks), before, after)
    ensures AllServed(settings, main, after)
  {
    forall i | 0 <= i < |main| ensures ServedAt(settings, main[i], after) {
      var a := settings.AddressOf(KeyOf(main[i]));
      assert ServedAt(settings, main[i], before);
      assert a in after && after[a] == before[a];
    }
  }

  /******* Main results *******/

  /** A pass that applied everything without a failed call leaves a settled cluster. */
  lemma CleanApplySettles(p: Pass, server: Server)
    requires p.Valid() && p.report.Synced? && PhaseOk(p.report.sync.pre) && p.clean
    requires Serving(p.settings, server) && ServedBy(p, server)
    requires p.settings.Scoped(p.start) && DistinctAddresses(p.settings, p.c.main)
    requires WellKeyed(p.settings, AppliedBefore(p.prev), p.Keys())
    requires HooksApart(p.settings, p.c.post, p.c.main)
    ensures IsSettled(p.settings, p.c.main, p.checkout.sha, p.end, Some(p.next))
  {
    HooksKeepScope(p.settings, p.c.pre, p.start, p.stages.hooked);
    HooksKeepScope(p.settings, p.c.post, p.stages.applied, p.stages.beforePrune);
    HooksKeepServed(p.settings, p.c.post, p.c.main, p.stages.applied, p.stages.beforePrune);
    PruneKeepsServed(p.settings, p.c.main, AppliedBefore(p.prev), p.stages.beforePrune, p.stages.afterPrune,
        p.Prunes());
  }

  /** Every applied manifest is spelled out, and none is restless as served. */
  ghost predicate Calm(settings: Settings, main: seq<RawManifest>, live: Live) {
    forall i | 0 <= i < |main| && ServedAt(settings, main[i], live) ::
      SpelledOut(settings, KeyOf(main[i])) && !Restless(settings, main[i], LiveValue(settings, main[i], live))
  }

  /** A manifest that no server makes restless. */
  predicate Restful(settings: Settings, m: RawManifest) {
    && TakesLabel(m.data)
    && !LabelConflict(m.data, settings.labelKey, settings.labelValue)
    && NoZeroMember(Compared(m.data))
  }

  lemma RestlessWitness(settings: Settings, m: RawManifest) returns (b: Body)
    requires !Restful(settings, m)
    ensures settings.Served(m, b) && Restless(settings, m, b.value)
  {
    if !TakesLabel(m.data) {
      b := UnlabelledWitness(settings, m);
    } else if LabelConflict(m.data, settings.labelKey, settings.labelValue) {
      b := PlainBody(settings, m);
      ServedUnchanged(b.value);
    } else {
      var live := ZeroMemberMayBeRefilled(m.data, settings.labelKey, settings.labelValue);
      b := Body(m.annotations, settings.Labelled(live), false, live, 0);
    }
  }

  lemma RestfulNotRestless(settings: Settings, m: RawManifest, b: Body)
    requires Restful(settings, m) && settings.Served(m, b)
    ensures !Restless(settings, m, b.value)
  {
    LabelServedIff(settings, m);
    assert b.managed;
    ZeroFreeNotRefilled(Compared(m.data), Strip(b.value));
    if Get(m.data, "spec").Some? {
      assert "spec" in Compared(m.data).members;
    }
  }

  /** The check a caller can make before the apply: a manifest is restful exactly when nothing the server
      may serve makes it restless. */
  lemma RestfulIff(settings: Settings, m: RawManifest)
    ensures Restful(settings, m) <==> forall b | settings.Served(m, b) :: !Restless(settings, m, b.value)
  {
    if Restful(settings, m) {
      forall b | settings.Served(m, b) ensures !Restless(settings, m, b.value) {
        RestfulNotRestless(settings, m, b);
      }
    } else {
      var b := RestlessWitness(settings, m);
    }
  }

  /** A cluster that holds the manifest's object as served, and the list of its kind. */
  ghost predicate ListedAsServed(settings: Settings, m: RawManifest, live: Live, lists: Lists) {
    settings.Scoped(live) && ServedAt(settings, m, live) && ListedFor(m, live, lists)
  }

  /** Any body the server may serve is that of some cluster. */
  lemma ServedSomewhere(settings: Settings, m: RawManifest, b: Body) returns (live: Live, lists: Lists)
    requires settings.Serves(m.group, m.kind) && settings.Served(m, b)
    ensures ListedAsServed(settings, m, live, lists) && live[settings.AddressOf(KeyOf(m))] == b
  {
    var a := settings.AddressOf(KeyOf(m));
    live := map[a := b];
    lists := map[m.Gvk() := if b.managed then [ObjectOf(a, b)] else []];
    assert b.managed ==> ManagedOfKind(live, m.group, m.kind, a);
  }

  /** A just-applied manifest is never reported, whatever the server serves and whatever else is live,
      exactly when it is spelled out and restful. */
  lemma NeverReportedIff(settings: Settings, m: RawManifest)
    requires settings.Serves(m.group, m.kind)
    ensures SpelledOut(settings, KeyOf(m)) && Restful(settings, m) <==>
            forall live, lists | ListedAsServed(settings, m, live, lists) :: ListedVerdict(m, lists).None?
  {
    if SpelledOut(settings, KeyOf(m)) && Restful(settings, m) {
      forall live, lists | ListedAsServed(settings, m, live, lists) ensures ListedVerdict(m, lists).None? {
        VerdictAfterApplyIff(settings, m, live, lists);
        RestfulNotRestless(settings, m, live[settings.AddressOf(KeyOf(m))]);
      }
    } else {
      var b := PlainBody(settings, m);
      ServedUnchanged(b.value);
      if !Restful(settings, m) {
        b := RestlessWitness(settings, m);
      }
      var live, lists := ServedSomewhere(settings, m, b);
      VerdictAfterApplyIff(settings, m, live, lists);
    }
  }

  /** A settled cluster, and the lists the drift check fetches from it. */
  ghost predicate SettledLists(settings: Settings, main: seq<RawManifest>, live: Live, lists: Lists) {
    && settings.Scoped(live) && AllServed(settings, main, live)
    && lists.Keys == Kinds(main) && (forall g | g in lists :: ListsKind(lists[g], live, g.0, g.2))
  }

  lemma SettledAt(settings: Settings, main: seq<RawManifest>, i: nat, live: Live, lists: Lists)
    requires i < |main| && SettledLists(settings, main, live, lists)
    ensures ServedAt(settings, main[i], live) && ListedFor(main[i], live, lists)
  {
    KindsHolds(main, i);
  }

  lemma SettledVerdict(settings: Settings, main: seq<RawManifest>, i: nat, live: Live, lists: Lists)
    requires i < |main| && SettledLists(settings, main, live, lists)
    ensures ServedAt(settings, main[i], live)
    ensures Verdict(main[i], Listed(lists)).Some? <==>
            !SpelledOut(settings, KeyOf(main[i]))
            || Restless(settings, main[i], LiveValue(settings, main[i], live))
  {
    SettledAt(settings, main, i, live, lists);
    VerdictAfterApplyIff(settings, main[i], live, lists);
  }

  lemma SettledVerdicts(settings: Settings, main: seq<RawManifest>, live: Live, lists: Lists)
    requires SettledLists(settings, main, live, lists)
    ensures Verdicts(main, Listed(lists)) == [] <==> Calm(settings, main, live)
  {
    NoVerdictsIff(main, Listed(lists));
    forall i | 0 <= i < |main|
      ensures ServedAt(settings, main[i], live)
      ensures Verdict(main[i], Listed(lists)).Some? <==>
              !SpelledOut(settings, KeyOf(main[i]))
              || Restless(settings, main[i], LiveValue(settings, main[i], live))
    {
      SettledVerdict(settings, main, i, live, lists);
    }
  }

  /** A pass at the settled commit in which no call fails. */
  ghost predicate ChecksSettled(p: Pass) {
    && p.Valid() && p.clean && !p.forced && !p.dryRun && !p.report.Stopped?
    && p.checkout.CheckedOut? && p.checkout.sha != ""
    && IsSettled(p.settings, p.c.main, p.checkout.sha, p.start, p.prev)
  }

  lemma SettledBranch(p: Pass)
    requires ChecksSettled(p)
    ensures AppliedBefore(p.prev) == p.Keys()
    ensures BranchOf(p.prev, p.checkout.sha, p.forced, p.dryRun, p.c.main) == DriftCheck
  {
    DriftCheckIff(p.prev, p.checkout.sha, p.forced, p.dryRun, p.c.main);
  }

  lemma CheckedVerdicts(p: Pass)
    requires p.RightBranch() && p.clean && !p.report.Stopped? && p.checkout.CheckedOut?
    requires BranchOf(p.prev, p.checkout.sha, p.forced, p.dryRun, p.c.main) == DriftCheck
    requires p.settings.Scoped(p.start) && AllServed(p.settings, p.c.main, p.start)
    ensures p.report.Untouched? <==> Calm(p.settings, p.c.main, p.start)
  {
    SettledVerdicts(p.settings, p.c.main, p.start, p.lists);
  }

  /** The next pass at the settled commit finds drift exactly when some manifest is not spelled out or is
      restless. */
  lemma SettledPassIff(p: Pass)
    requires ChecksSettled(p)
    ensures p.report.Untouched? <==> Calm(p.settings, p.c.main, p.start)
  {
    SettledBranch(p);
    CheckedVerdicts(p);
  }

  /** The calls of the pass are successful deletions of keys that Git does not declare, and the state write. */
  ghost predicate OnlyPrunes(p: Pass) {
    && p.ReportOk()
    && forall e | e in p.Trace() ::
         e.StateWrite? || (e.DeleteCall? && e.purpose == ForPrune && e.ok && e.key !in p.Keys())
  }

  /** A clean pass that found no drift runs no hook and applies nothing. */
  lemma UntouchedTrace(p: Pass)
    requires p.Valid() && p.clean && p.report.Untouched?
    ensures OnlyPrunes(p)
  {
    forall e | e in p.Trace()
      ensures e.StateWrite? || (e.DeleteCall? && e.purpose == ForPrune && e.ok && e.key !in p.Keys())
    {
      assert e in p.Prunes() || e == StateWrite(p.next, p.report.ok);
    }
  }

  lemma CalmIsWellKeyed(settings: Settings, main: seq<RawManifest>, live: Live)
    requires AllServed(settings, main, live) && Calm(settings, main, live)
    requires OneVersion(KeysOf(main), KeysOf(main))
    ensures WellKeyed(settings, KeysOf(main), KeysOf(main))
  {
    forall k | k in KeysOf(main) + KeysOf(main) ensures SpelledOut(settings, k) {
      var i :| 0 <= i < |main| && KeysOf(main)[i] == k;
      assert ServedAt(settings, main[i], live);
    }
  }

  /** Such a pass leaves the cluster settled, if no kind is declared in two versions. */
  lemma UntouchedStaysSettled(p: Pass)
    requires ChecksSettled(p) && p.report.Untouched? && OneVersion(p.Keys(), p.Keys())
    ensures IsSettled(p.settings, p.c.main, p.checkout.sha, p.end, Some(p.next))
  {
    SettledBranch(p);
    SettledPassIff(p);
    CalmIsWellKeyed(p.settings, p.c.main, p.start);
    UntouchedPrune(p);
  }

  lemma UntouchedPrune(p: Pass)
    requires p.StagesOk() && p.NextOk() && p.report.Untouched?
    requires p.settings.Scoped(p.start) && AllServed(p.settings, p.c.main, p.start)
    requires WellKeyed(p.settings, AppliedBefore(p.prev), p.Keys())
    ensures IsSettled(p.settings, p.c.main, p.checkout.sha, p.end, Some(p.next))
  {
    PruneKeepsServed(p.settings, p.c.main, AppliedBefore(p.prev), p.start, p.end, p.Prunes());
  }

  ghost predicate AllRestful(settings: Settings, main: seq<RawManifest>) {
    forall i | 0 <= i < |main| :: Restful(settings, main[i])
  }

  lemma RestfulIsCalm(settings: Settings, main: seq<RawManifest>, live: Live)
    requires AllRestful(settings, main) && WellKeyed(settings, KeysOf(main), KeysOf(main))
    ensures Calm(settings, main, live)
  {
    forall i | 0 <= i < |main| && ServedAt(settings, main[i], live)
      ensures SpelledOut(settings, KeyOf(main[i])) && !Restless(settings, main[i], LiveValue(settings, main[i], live))
    {
      assert KeyOf(main[i]) == (KeysOf(main) + KeysOf(main))[i];
      RestfulNotRestless(settings, main[i], live[settings.AddressOf(KeyOf(main[i]))]);
    }
  }

  /** `q` is the clean pass after `p` at the same commit, nobody else having touched the cluster; the
      state write of `p` was acknowledged. */
  ghost predicate Follows(p: Pass, q: Pass) {
    && q.start == p.end && q.prev == Some(p.next)
    && q.settings == p.settings && q.checkout == p.checkout
    && q.Valid() && q.clean && !q.forced && !q.dryRun && !q.report.Stopped?
  }

  ghost predicate InARow(passes: seq<Pass>) {
    forall i, j | 0 <= i < j < |passes| && j == i + 1 :: Follows(passes[i], passes[j])
  }

  /** The pass after a settled one checks a settled cluster, for the same manifests. */
  lemma FollowerChecksSettled(p: Pass, q: Pass)
    requires p.RightBranch() && !p.report.Stopped? && p.checkout.CheckedOut? && p.checkout.sha != ""
    requires IsSettled(p.settings, p.c.main, p.checkout.sha, p.end, Some(p.next))
    requires Follows(p, q)
    ensures q.c.main == p.c.main && ChecksSettled(q)
  {
    assert q.RightBranch();
    assert q.c.main == MainOf(ManifestsOf(q.checkout.tree)) == p.c.main;
  }

  ghost predicate ChecksRestful(p: Pass) {
    ChecksSettled(p) && AllRestful(p.settings, p.c.main) && WellKeyed(p.settings, p.Keys(), p.Keys())
  }

  lemma RestfulIsUntouched(p: Pass)
    requires ChecksRestful(p)
    ensures p.report.Untouched?
  {
    RestfulIsCalm(p.settings, p.c.main, p.start);
    SettledPassIff(p);
  }

  lemma RestfulStep(p: Pass, q: Pass)
    requires ChecksRestful(p) && Follows(p, q)
    ensures ChecksRestful(q)
  {
    RestfulIsUntouched(p);
    UntouchedStaysSettled(p);
    FollowerChecksSettled(p, q);
  }

  lemma {:induction false} RestfulKept(passes: seq<Pass>, i: nat)
    requires i < |passes| && InARow(passes) && ChecksRestful(passes[0])
    ensures ChecksRestful(passes[i])
  {
    if i > 0 {
      RestfulKept(passes, i - 1);
      RestfulStep(passes[i - 1], passes[i]);
    }
  }

  /** After a settled start at an unchanged commit whose manifests are restful, no pass ever applies a
      resource or runs a hook again, however many follow. */
  lemma RestfulStaysQuiet(passes: seq<Pass>, i: nat)
    requires i < |passes| && InARow(passes) && ChecksRestful(passes[0])
    ensures passes[i].report.Untouched?
    ensures OnlyPrunes(passes[i])
  {
    RestfulKept(passes, i);
    RestfulIsUntouched(passes[i]);
    UntouchedTrace(passes[i]);
  }

  /** What a repository must be like for its second pass to be quiet: manifests with addresses of their
      own, spelled-out keys, one version per kind, and nothing restless, apart from its PostSync hooks. */
  ghost predicate WellFormedRepo(settings: Settings, ms: seq<RawManifest>) {
    && DistinctAddresses(settings, MainOf(ms))
    && WellKeyed(settings, KeysOf(MainOf(ms)), KeysOf(MainOf(ms)))
    && HooksApart(settings, HooksIn(ms, PostSync), MainOf(ms))
    && AllRestful(settings, MainOf(ms))
  }

  lemma FirstPassSettles(p: Pass, server: Server)
    requires p.Valid() && p.clean && !p.forced && !p.dryRun && ProblemOf(p.report).None?
    requires p.prev.None? && p.settings.Scoped(p.start) && Serving(p.settings, server) && ServedBy(p, server)
    requires p.checkout.CheckedOut? ==> WellFormedRepo(p.settings, ManifestsOf(p.checkout.tree))
    ensures p.checkout.CheckedOut? && p.report.Synced?
    ensures IsSettled(p.settings, p.c.main, p.checkout.sha, p.end, Some(p.next))
  {
    assert p.checkout.CheckedOut?;
    assert BranchOf(p.prev, p.checkout.sha, p.forced, p.dryRun, p.c.main) == FullApply;
    assert p.c.post == p.c.Bucket(PostSync);
    forall k | k in AppliedBefore(p.prev) + p.Keys() ensures SpelledOut(p.settings, k) {
      assert k in p.Keys() + p.Keys();
    }
    CleanApplySettles(p, server);
  }

  lemma SecondPassQuiet(p: Pass, q: Pass)
    requires p.RightBranch() && !p.report.Stopped? && p.checkout.CheckedOut? && p.checkout.sha != ""
    requires IsSettled(p.settings, p.c.main, p.checkout.sha, p.end, Some(p.next))
    requires WellFormedRepo(p.settings, ManifestsOf(p.checkout.tree))
    requires Follows(p, q)
    ensures q.report.Untouched? && OnlyPrunes(q)
    ensures IsSettled(q.settings, MainOf(ManifestsOf(q.checkout.tree)), q.checkout.sha, q.end, Some(q.next))
  {
    FollowerChecksSettled(p, q);
    RestfulIsCalm(q.settings, q.c.main, q.start);
    SettledPassIff(q);
    UntouchedTrace(q);
    UntouchedStaysSettled(q);
  }

  /** What two passes over one commit from an empty state come to when no call fails and neither reports a
      problem: the first applies everything, the second only prunes, and all of the repository is live
      as the server serves it. */
  ghost predicate Converged(p: Pass, q: Pass, live: Live, stored: Option<State>) {
    && p.report.Synced? && q.report.Untouched? && OnlyPrunes(q)
    && p.checkout.CheckedOut?
    && q.prev == Some(p.next) && stored == Some(q.next)
    && IsSettled(p.settings, MainOf(ManifestsOf(p.checkout.tree)), p.checkout.sha, live, stored)
  }

  /** The commit and the cluster from which two passes converge. */
  ghost predicate Convergent(settings: Settings, server: Server, checkout: Checkout, stored: Option<State>,
      live: Live) {
    && stored.None? && settings.Scoped(live) && Serving(settings, server)
    && checkout.CheckedOut? && checkout.sha != "" && WellFormedRepo(settings, ManifestsOf(checkout.tree))
  }

  /** Two passes without a failed call or a problem, the second from where the first ended. */
  ghost predicate CleanTwice(p: Pass, q: Pass, checkout: Checkout, before: Option<State>, after: Option<State>) {
    && PassOf(p, p.settings, before, checkout, false, false, p.envs, p.start, p.end, true)
    && PassOf(q, p.settings, q.prev, checkout, false, false, q.envs, p.end, q.end, true)
    && StoredAfter(p, before, q.prev) && StoredAfter(q, q.prev, after)
    && ProblemOf(p.report).None? && ProblemOf(q.report).None?
  }

  lemma SecondFollows(p: Pass, q: Pass, checkout: Checkout, before: Option<State>, after: Option<State>)
    requires CleanTwice(p, q, checkout, before, after)
    ensures Follows(p, q) && after == Some(q.next)
  {
  }

  lemma TwoPassesConverge(p: Pass, q: Pass, server: Server, checkout: Checkout, before: Option<State>,
      after: Option<State>)
    requires CleanTwice(p, q, checkout, before, after) && ServedBy(p, server)
    requires Convergent(p.settings, server, checkout, before, p.start)
    ensures Converged(p, q, q.end, after)
  {
    SecondFollows(p, q, checkout, before, after);
    FirstPassSettles(p, server);
    SecondPassQuiet(p, q);
  }

  /** Two passes in a row, whatever fails in them. */
  method RunTwice(w: World, checkout: Checkout, envs: HookInfo -> HookEnv)
    returns (problems: (Option<Problem>, Option<Problem>), ghost first: Pass, ghost second: Pass,
             ghost middle: Option<State>)
    modifies w`live, w`stored, w`faults, w`log
    ensures w.faults >= old(w.faults)
    ensures PassOf(first, w.settings, old(w.stored), checkout, false, false, envs, old(w.live), first.end, first.clean)
    ensures PassOf(second, w.settings, middle, checkout, false, false, envs, first.end, w.live, second.clean)
    ensures StoredAfter(first, old(w.stored), middle) && StoredAfter(second, middle, w.stored)
    ensures w.faults == old(w.faults) && problems == (None, None) ==>
              CleanTwice(first, second, checkout, old(w.stored), w.stored)
    ensures w.log == old(w.log) + first.Trace() + second.Trace()
    ensures problems == (ProblemOf(first.report), ProblemOf(second.report))
    ensures ServedBy(first, w.server)
  {
    var problem, problem';
    problem, first := ReconcileInner(w, false, false, checkout, envs);
    middle := w.stored;
    problem', second := ReconcileInner(w, false, false, checkout, envs);
    problems := (problem, problem');
  }

  /** And if no call fails and neither reports a problem, from an empty state and for a well-formed
      repository, they converge. */
  method SyncTwice(w: World, checkout: Checkout, envs: HookInfo -> HookEnv)
    returns (problems: (Option<Problem>, Option<Problem>), ghost first: Pass, ghost second: Pass)
    modifies w`live, w`stored, w`faults, w`log
    ensures w.faults >= old(w.faults)
    ensures PassOf(first, w.settings, old(w.stored), checkout, false, false, envs, old(w.live), first.end, first.clean)
    ensures PassOf(second, w.settings, second.prev, checkout, false, false, envs, first.end, w.live, second.clean)
    ensures StoredAfter(first, old(w.stored), second.prev) && StoredAfter(second, second.prev, w.stored)
    ensures w.log == old(w.log) + first.Trace() + second.Trace()
    ensures problems == (ProblemOf(first.report), ProblemOf(second.report))
    ensures Convergent(w.settings, w.server, checkout, old(w.stored), old(w.live))
            && w.faults == old(w.faults) && problems == (None, None) ==>
              Converged(first, second, w.live, w.stored)
  {
    ghost var faults, stored, live, middle := w.faults, w.stored, w.live, None;
    problems, first, second, middle := RunTwice(w, checkout, envs);
    if w.faults == faults && problems == (None, None) && Convergent(w.settings, w.server, checkout, stored, live) {
      TwoPassesConverge(first, second, w.server, checkout, stored, w.stored);
    }
  }
}

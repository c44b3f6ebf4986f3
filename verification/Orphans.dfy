/** Objects that Git no longer declares, over any sequence of passes. */
module Orphans {

  import opened Wrappers
  import opened Json
  import opened Manifest
  import opened Kube
  import opened Hooks
  import opened Cluster
  import opened HookRunner
  import opened Sync
  import opened Prune
  import opened Reconcile
  import opened Passes

  function ObjectAt(live: Live, a: Address): Option<Body> {
    if a in live then Some(live[a]) else None
  }

  /** No manifest of the pass, main or hook, goes to this address. */
  ghost predicate Abandoned(p: Pass, a: Address) {
    && a !in MainAddresses(p.settings, p.c.main)
    && forall phase: HookPhase :: a !in HookAddresses(p.settings, p.c.Bucket(phase))
  }

  /** A pass that may write objects of its own manifests. */
  predicate Writes(p: Pass) {
    !p.report.Stopped? && !p.report.Validated?
  }

  lemma DeclaredHasAddress(settings: Settings, live: Live, main: seq<RawManifest>, a: Address, version: string)
    requires settings.Scoped(live) && a in live
    ensures KeyAt(a, version) in KeysOf(main) ==> a in MainAddresses(settings, main)
  {
    if KeyAt(a, version) in KeysOf(main) {
      var i :| 0 <= i < |main| && KeysOf(main)[i] == KeyAt(a, version);
      assert main[i] in main && settings.AddressOf(KeyOf(main[i])) == a;
    }
  }

  lemma AbandonedIsUndeclared(p: Pass, a: Address)
    requires p.settings.Scoped(p.start) && a in p.start && Abandoned(p, a)
    ensures Undeclared(p.Keys(), a)
  {
    forall version ensures KeyAt(a, version) !in p.Keys() {
      DeclaredHasAddress(p.settings, p.start, p.c.main, a, version);
    }
  }

  /** Between its start and its prune a pass leaves an abandoned object alone. */
  lemma UntilPrune(p: Pass, a: Address)
    requires p.StagesOk() && Completed(p.report) && p.settings.Scoped(p.start) && Abandoned(p, a)
    ensures p.settings.Scoped(p.stages.beforePrune)
    ensures ObjectAt(p.stages.beforePrune, a) == ObjectAt(p.start, a)
    ensures ObjectAt(p.end, a) == ObjectAt(p.stages.afterPrune, a)
    ensures PruneEffect(p.settings, AppliedBefore(p.prev), p.Keys(), p.stages.beforePrune, p.stages.afterPrune,
              p.Prunes())
  {
    match p.report
    case TornDown(_, _, _, _) =>
      HooksKeepScope(p.settings, p.c.preDelete, p.start, p.stages.hooked);
      assert a !in HookAddresses(p.settings, p.c.Bucket(PreDelete));
      assert a !in HookAddresses(p.settings, p.c.Bucket(PostDelete));
    case Synced(_, _, _) =>
      HooksKeepScope(p.settings, p.c.pre, p.start, p.stages.hooked);
      HooksKeepScope(p.settings, p.c.post, p.stages.applied, p.stages.beforePrune);
      assert a !in HookAddresses(p.settings, p.c.Bucket(PreSync));
      assert a !in HookAddresses(p.settings, p.c.Bucket(PostSync));
    case Untouched(_, _) =>
  }

  /** A pass that does not reach its state write leaves an abandoned object alone. */
  lemma IncompleteKeeps(p: Pass, a: Address)
    requires p.StagesOk() && !Completed(p.report) && (Writes(p) ==> Abandoned(p, a))
    ensures ObjectAt(p.end, a) == ObjectAt(p.start, a)
  {
    match p.report
    case TornDown(_, _, _, _) => assert a !in HookAddresses(p.settings, p.c.Bucket(PreDelete));
    case Synced(_, _, _) => assert a !in HookAddresses(p.settings, p.c.Bucket(PreSync));
    case Stopped(_) =>
    case Validated(_) =>
  }

  /** What a completed pass does to a prunable orphan: it is doomed exactly while its kind is among the
      stored keys, and then stays only if a call of prune that concerns it failed. */
  lemma CompletedPassOnOrphan(p: Pass, a: Address)
    requires p.StagesOk() && Completed(p.report) && p.settings.Scoped(p.start) && Abandoned(p, a)
    requires a in p.start && Prunable(p.start[a])
    ensures a in Doomed(p.settings, AppliedBefore(p.prev), p.Keys(), p.stages.beforePrune)
            <==> KindIn(AppliedBefore(p.prev), a)
    ensures KindIn(AppliedBefore(p.prev), a) && !Hindered(p.settings, p.Prunes(), a) ==> a !in p.end
    ensures !KindIn(AppliedBefore(p.prev), a) ==> a in p.end
    ensures a in p.end ==> p.end[a] == p.start[a]
  {
    UntilPrune(p, a);
    AbandonedIsUndeclared(p, a);
    OrphanDoomedIff(p.settings, AppliedBefore(p.prev), p.Keys(), p.stages.beforePrune, a);
  }

  /******* Over a run *******/

  /** The object at the address before and after one outcome; a pass that ran has no manifest for it. */
  ghost predicate Leaves(settings: Settings, o: Outcome, a: Address, before: Option<Body>, after: Option<Body>) {
    if o.Ran? then
      && o.p.settings == settings && settings.Scoped(o.p.start)
      && (Writes(o.p) ==> Abandoned(o.p, a))
      && ObjectAt(o.p.start, a) == before && ObjectAt(o.p.end, a) == after
    else after == before
  }

  /** What lies at the address before the first pass and after each: every pass finds it as the one before
      left it, and nobody else touches it. */
  ghost predicate History(settings: Settings, outcomes: seq<Outcome>, a: Address, objects: seq<Option<Body>>) {
    && |objects| == |outcomes| + 1
    && forall i | 0 <= i < |outcomes| :: Leaves(settings, outcomes[i], a, objects[i], objects[i + 1])
  }

  predicate CompletedPass(o: Outcome) {
    o.Ran? && Completed(o.p.report)
  }

  lemma AppliedAfter(before: Option<State>, o: Outcome, after: Option<State>)
    requires PassStep(before, o, after)
    ensures AppliedBefore(after) == if Landed(o) then o.p.Keys() else AppliedBefore(before)
  {
    StepProgress(before, o, after);
  }

  /** The kind stays among the stored keys, or out of them, as long as every landed pass has it so. */
  lemma {:induction false} KindStored(states: seq<Option<State>>, outcomes: seq<Outcome>, a: Address, kept: bool,
      i: nat)
    requires IsRun(states, outcomes) && i <= |outcomes|
    requires KindIn(AppliedBefore(states[0]), a) == kept
    requires forall j | 0 <= j < |outcomes| && Landed(outcomes[j]) :: KindIn(outcomes[j].p.Keys(), a) == kept
    ensures KindIn(AppliedBefore(states[i]), a) == kept
  {
    if i > 0 {
      KindStored(states, outcomes, a, kept, i - 1);
      AppliedAfter(states[i - 1], outcomes[i - 1], states[i]);
    }
  }

  /** One outcome on what lies at the address. */
  lemma OutcomeOnOrphan(settings: Settings, o: Outcome, a: Address, before: Option<Body>, after: Option<Body>)
    requires o.Ran? ==> o.p.StagesOk()
    requires Leaves(settings, o, a, before, after) && (before.Some? ==> Prunable(before.value))
    ensures after == before || (after.None? && CompletedPass(o) && KindIn(AppliedBefore(o.p.prev), a))
    ensures CompletedPass(o) && before.Some? && KindIn(AppliedBefore(o.p.prev), a) ==>
              && a in Doomed(settings, AppliedBefore(o.p.prev), o.p.Keys(), o.p.stages.beforePrune)
              && (!Hindered(settings, o.p.Prunes(), a) ==> after.None?)
  {
    if o.Ran? {
      if !Completed(o.p.report) {
        IncompleteKeeps(o.p, a);
      } else if before.Some? {
        CompletedPassOnOrphan(o.p, a);
      } else {
        UntilPrune(o.p, a);
      }
    }
  }

  /** The same at one position of a run. */
  lemma StepOnOrphan(settings: Settings, states: seq<Option<State>>, outcomes: seq<Outcome>, a: Address,
                     objects: seq<Option<Body>>, i: nat)
    requires IsRun(states, outcomes) && History(settings, outcomes, a, objects) && i < |outcomes|
    requires objects[i].Some? ==> Prunable(objects[i].value)
    ensures objects[i + 1] == objects[i] || (objects[i + 1].None? && KindIn(AppliedBefore(states[i]), a))
    ensures CompletedPass(outcomes[i]) && objects[i].Some? && KindIn(AppliedBefore(states[i]), a) ==>
              var p := outcomes[i].p;
              && a in Doomed(settings, AppliedBefore(p.prev), p.Keys(), p.stages.beforePrune)
              && (!Hindered(settings, p.Prunes(), a) ==> objects[i + 1].None?)
  {
    assert PassStep(states[i], outcomes[i], states[i + 1]);
    OutcomeOnOrphan(settings, outcomes[i], a, objects[i], objects[i + 1]);
  }

  lemma {:induction false} OrphanSame(settings: Settings, states: seq<Option<State>>, outcomes: seq<Outcome>,
      a: Address, objects: seq<Option<Body>>, i: nat, j: nat)
    requires IsRun(states, outcomes) && History(settings, outcomes, a, objects) && i <= j <= |outcomes|
    requires objects[i].Some? ==> Prunable(objects[i].value)
    ensures objects[j] == objects[i] || objects[j].None?
    decreases j
  {
    if i < j {
      OrphanSame(settings, states, outcomes, a, objects, i, j - 1);
      StepOnOrphan(settings, states, outcomes, a, objects, j - 1);
    }
  }

  /** Orphan recovery, over completed, failed, skipped, dry-run and rollback passes in any order, whether or
      not their state writes landed: as long as its kind stays in Git, a labelled orphan is a deletion
      target of every pass that prunes, and is gone for good after the first in which no call of prune
      that concerns it fails. */
  lemma OrphanRecovered(settings: Settings, states: seq<Option<State>>, outcomes: seq<Outcome>, a: Address,
                        objects: seq<Option<Body>>, i: nat)
    requires IsRun(states, outcomes) && History(settings, outcomes, a, objects) && i < |outcomes|
    requires objects[0].Some? ==> Prunable(objects[0].value)
    requires KindIn(AppliedBefore(states[0]), a)
    requires forall j | 0 <= j < |outcomes| && Landed(outcomes[j]) :: KindIn(outcomes[j].p.Keys(), a)
    requires CompletedPass(outcomes[i])
    ensures var p := outcomes[i].p;
            && (a in p.start ==> a in Doomed(settings, AppliedBefore(p.prev), p.Keys(), p.stages.beforePrune))
            && (!Hindered(settings, p.Prunes(), a) ==> forall j | i < j <= |outcomes| :: objects[j].None?)
  {
    var p := outcomes[i].p;
    OrphanSame(settings, states, outcomes, a, objects, 0, i);
    KindStored(states, outcomes, a, true, i);
    StepOnOrphan(settings, states, outcomes, a, objects, i);
    if !Hindered(settings, p.Prunes(), a) {
      forall j | i < j <= |outcomes| ensures objects[j].None? {
        OrphanSame(settings, states, outcomes, a, objects, i + 1, j);
      }
    }
  }

  /** Once its kind has left the stored keys and stays out of Git, an orphan is never deleted again. */
  lemma {:induction false} OrphanForgotten(settings: Settings, states: seq<Option<State>>, outcomes: seq<Outcome>,
                                           a: Address, objects: seq<Option<Body>>, i: nat)
    requires IsRun(states, outcomes) && History(settings, outcomes, a, objects) && i <= |outcomes|
    requires objects[0].Some? && Prunable(objects[0].value)
    requires !KindIn(AppliedBefore(states[0]), a)
    requires forall j | 0 <= j < |outcomes| && Landed(outcomes[j]) :: !KindIn(outcomes[j].p.Keys(), a)
    ensures objects[i] == objects[0]
  {
    if i > 0 {
      OrphanForgotten(settings, states, outcomes, a, objects, i - 1);
      KindStored(states, outcomes, a, false, i - 1);
      StepOnOrphan(settings, states, outcomes, a, objects, i - 1);
    }
  }

  /******* Objects kept by their resource policy *******/

  /** No pass deletes an exempt object that it has no manifest for. */
  lemma ExemptStays(settings: Settings, o: Outcome, a: Address, before: Option<Body>, after: Option<Body>)
    requires o.Ran? ==> o.p.StagesOk()
    requires Leaves(settings, o, a, before, after)
    requires before.Some? && Exempt(before.value.annotations)
    ensures after == before
  {
    if o.Ran? {
      var p := o.p;
      if Completed(p.report) {
        UntilPrune(p, a);
        if a in Doomed(p.settings, AppliedBefore(p.prev), p.Keys(), p.stages.beforePrune) {
          PruneSpares(p.settings, AppliedBefore(p.prev), p.Keys(), p.stages.beforePrune, a);
        }
      } else {
        IncompleteKeeps(p, a);
      }
    }
  }

  /** The document asks for its object to be kept. */
  predicate AsksToBeKept(doc: Json) {
    Get(Get(Get(doc, "metadata").GetOr(Null), "annotations").GetOr(Null), "helm.sh/resource-policy")
    == Some(Str("keep"))
  }

  lemma KeptIsExempt(settings: Settings, doc: Json, m: RawManifest, b: Body)
    requires ValueToManifest(doc) == Some(m) && AsksToBeKept(doc) && settings.Served(m, b)
    ensures Exempt(b.annotations)
  {
    ManifestIff(doc);
    assert "helm.sh/resource-policy" in m.annotations;
  }

  /** Once a document that asks to be kept has been applied and has left Git, its object stays as it is through
      every pass, completed or failed, teardowns included. */
  lemma {:induction false} KeptStays(settings: Settings, states: seq<Option<State>>, outcomes: seq<Outcome>,
      doc: Json, m: RawManifest, a: Address, objects: seq<Option<Body>>, i: nat)
    requires IsRun(states, outcomes) && History(settings, outcomes, a, objects) && i <= |outcomes|
    requires ValueToManifest(doc) == Some(m) && AsksToBeKept(doc)
    requires objects[0].Some? && settings.Served(m, objects[0].value)
    ensures objects[i] == objects[0]
  {
    KeptIsExempt(settings, doc, m, objects[0].value);
    if i > 0 {
      KeptStays(settings, states, outcomes, doc, m, a, objects, i - 1);
      assert PassStep(states[i - 1], outcomes[i - 1], states[i]);
      ExemptStays(settings, outcomes[i - 1], a, objects[i - 1], objects[i]);
    }
  }
}

/** One reconciliation pass (`src/reconcile.rs`). The Git checkout, the parsed documents, the outcome of
    acquiring the Lease, and what hook polls find are inputs. */
module Reconcile {

  import opened Wrappers
  import opened Json
  import opened Manifest
  import opened Kube
  import opened Hooks
  import opened Drift
  import opened Cluster
  import opened HookRunner
  import opened Sync
  import opened Prune

  /** What the sync path holds: no directory at all, something that cannot be read, or documents. */
  datatype Tree = NoRoots | Unreadable | Documents(docs: seq<Json>)

  datatype Checkout = CheckoutFailed | CheckedOut(sha: string, tree: Tree)

  function AppliedBefore(prev: Option<State>): seq<ResourceKey> {
    match prev
    case Some(s) => s.applied
    case None => []
  }

  /** The persisted commit; an empty one counts as none. */
  function PrevSha(prev: Option<State>): Option<string> {
    match prev
    case Some(s) => if s.lastSha == Some("") then None else s.lastSha
    case None => None
  }

  predicate ShouldFullApply(hasPrev: bool, changed: bool) {
    !hasPrev || changed
  }

  datatype Branch = DryRun | Teardown | FullApply | DriftCheck

  /** A forced target hides the persisted commit from the checkout. */
  function BranchOf(prev: Option<State>, sha: string, forced: bool, dryRun: bool, main: seq<RawManifest>): Branch {
    var prevSha := if forced then None else PrevSha(prev);
    var changed := match prevSha case Some(p) => p != sha case None => true;
    if dryRun then DryRun
    else if main == [] && AppliedBefore(prev) != [] then Teardown
    else if ShouldFullApply(prev.Some?, changed) then FullApply
    else DriftCheck
  }

  /** Only a pass that follows the branch at exactly the persisted commit may do less than apply all. */
  lemma DriftCheckIff(prev: Option<State>, sha: string, forced: bool, dryRun: bool, main: seq<RawManifest>)
    ensures BranchOf(prev, sha, forced, dryRun, main) == DriftCheck
            <==> !dryRun && !forced && prev.Some? && prev.value.lastSha == Some(sha) && sha != ""
                 && (main == [] ==> prev.value.applied == [])
  {
  }

  /** Why a pass ends before it changes anything, the state having been read. */
  function StopReason(prev: Option<State>, checkout: Checkout): Option<Problem> {
    match checkout
    case CheckoutFailed => Some(GitFailed)
    case CheckedOut(_, NoRoots) => if AppliedBefore(prev) == [] then Some(NoDirectories) else None
    case CheckedOut(_, Unreadable) => Some(BadManifests)
    case CheckedOut(_, Documents(_)) => None
  }

  function ManifestsOf(tree: Tree): seq<RawManifest> {
    if tree.Documents? then FlattenedAll(tree.docs) else []
  }

  ghost predicate ClassifiedAs(c: Classified, ms: seq<RawManifest>) {
    c.main == MainOf(ms) && forall p :: c.Bucket(p) == HooksIn(ms, p)
  }

  function NextState(prev: Option<State>, sha: string, problem: Option<Problem>, driftCount: nat,
                     keys: seq<ResourceKey>, failed: seq<ResourceKey>): State {
    var s := prev.GetOr(DEFAULT_STATE);
    State(Some(sha), SaturatingIncrement(s.syncCount), problem, driftCount, |keys|, keys, failed)
  }

  /******* What a pass did *******/

  /** `ok` is whether the final state write was acknowledged. */
  datatype PassReport =
    | Stopped(problem: Problem)
    | Validated(outcomes: seq<ApplyOutcome>)
    | TornDown(pre: seq<HookReport>, prunes: seq<Event>, post: seq<HookReport>, ok: bool)
    | Synced(sync: SyncReport, prunes: seq<Event>, ok: bool)
    | Untouched(prunes: seq<Event>, ok: bool)

  /** The pass reached its state write. */
  predicate Completed(r: PassReport) {
    match r
    case Stopped(_) => false
    case Validated(_) => false
    case TornDown(pre, _, _, _) => PhaseOk(pre)
    case Synced(sync, _, _) => PhaseOk(sync.pre)
    case Untouched(_, _) => true
  }

  function ProblemOf(r: PassReport): Option<Problem> {
    match r
    case Stopped(p) => Some(p)
    case Validated(_) => None
    case TornDown(pre, _, _, ok) =>
      if !PhaseOk(pre) then Some(HookProblem(PreDelete)) else if ok then None else Some(StateUnwritable)
    case Synced(sync, _, ok) =>
      if !PhaseOk(sync.pre) then Some(HookProblem(PreSync)) else if ok then None else Some(StateUnwritable)
    case Untouched(_, ok) => if ok then None else Some(StateUnwritable)
  }

  /** The objects at the points of a pass between its steps. */
  datatype Stages = Stages(hooked: Live, applied: Live, beforePrune: Live, afterPrune: Live)

  /** One pass: the inputs, what was found, and what was done. */
  datatype Pass = Pass(
    settings: Settings,
    prev: Option<State>,
    checkout: Checkout,
    forced: bool,
    dryRun: bool,
    envs: HookInfo -> HookEnv,
    c: Classified,
    drifts: seq<DriftItem>,
    lists: Lists,
    report: PassReport,
    next: State,
    start: Live,
    stages: Stages,
    end: Live,
    clean: bool)
  {
    function Keys(): seq<ResourceKey> {
      KeysOf(c.main)
    }

    /** The events of the steps that reports describe are well formed. */
    ghost predicate ReportOk() {
      match report
      case Stopped(_) => true
      case Validated(outcomes) => |outcomes| == |c.main|
      case TornDown(pre, prunes, post, _) =>
        && PhaseReport(SortByWeight(c.preDelete), pre)
        && (if PhaseOk(pre) then
              && PhaseReport(SortByWeight(c.postDelete), post)
              && PruneLog(prunes, AppliedBefore(prev), Keys(), stages.beforePrune)
            else prunes == [] && post == [])
      case Synced(sync, prunes, _) =>
        && SyncOk(c, sync)
        && (if PhaseOk(sync.pre) then PruneLog(prunes, AppliedBefore(prev), Keys(), stages.beforePrune)
            else prunes == [])
      case Untouched(prunes, _) => PruneLog(prunes, AppliedBefore(prev), Keys(), stages.beforePrune)
    }

    /** Every hook applied completed as its own polls had it. */
    ghost predicate HooksOk() {
      match report
      case TornDown(pre, _, post, _) =>
        AllCompletedAs(SortByWeight(c.preDelete), envs, pre) && AllCompletedAs(SortByWeight(c.postDelete), envs, post)
      case Synced(sync, _, _) =>
        AllCompletedAs(SortByWeight(c.pre), envs, sync.pre) && AllCompletedAs(SortByWeight(c.post), envs, sync.post)
      case _ => true
    }

    /** The report belongs to the branch the inputs call for. */
    ghost predicate RightBranch() {
      if report.Stopped? then
        (report.problem == StateUnreadable && !clean) || StopReason(prev, checkout) == Some(report.problem)
      else
        && StopReason(prev, checkout).None?
        && ClassifiedAs(c, ManifestsOf(checkout.tree))
        && (match BranchOf(prev, checkout.sha, forced, dryRun, c.main)
            case DryRun => report.Validated?
            case Teardown => report.TornDown? && drifts == []
            case FullApply => report.Synced? && drifts == []
            case DriftCheck =>
              && drifts == Verdicts(c.main, Listed(lists))
              && (forall g | g in lists :: ListsKind(lists[g], start, g.0, g.2))
              && (clean ==> lists.Keys == Kinds(c.main))
              && (if drifts == [] then report.Untouched? else report.Synced?))
    }

    /** Every mutating call of the pass, in order. */
    function Trace(): seq<Event>
      requires ReportOk()
    {
      match report
      case Stopped(_) => []
      case Validated(outcomes) => ApplyTrace(c.main, true, outcomes)
      case TornDown(pre, prunes, post, ok) =>
        TeardownTrace(c, pre, prunes, post, next, ok)
      case Synced(sync, prunes, ok) =>
        ApplyPassTrace(c, sync, prunes, next, ok)
      case Untouched(prunes, ok) => prunes + [StateWrite(next, ok)]
    }

    /** How each step changed the live objects. */
    ghost predicate StagesOk() {
      match report
      case Stopped(_) => end == start
      case Validated(_) => end == start
      case TornDown(pre, prunes, _, _) =>
        && OnlyTouches(HookAddresses(settings, c.preDelete), start, stages.hooked)
        && (if PhaseOk(pre) then
              && stages.beforePrune == stages.hooked
              && PruneEffect(settings, AppliedBefore(prev), Keys(), stages.beforePrune, stages.afterPrune, prunes)
              && OnlyTouches(HookAddresses(settings, c.postDelete), stages.afterPrune, end)
            else end == stages.hooked)
      case Synced(sync, prunes, _) =>
        && OnlyTouches(HookAddresses(settings, c.pre), start, stages.hooked)
        && OnlyMain(settings, c.main, stages.hooked, stages.applied)
        && OnlyTouches(HookAddresses(settings, c.post), stages.applied, stages.beforePrune)
        && (if PhaseOk(sync.pre) then
              && PruneEffect(settings, AppliedBefore(prev), Keys(), stages.beforePrune, stages.afterPrune, prunes)
              && end == stages.afterPrune
            else end == stages.hooked)
      case Untouched(prunes, _) =>
        && stages.beforePrune == start
        && PruneEffect(settings, AppliedBefore(prev), Keys(), stages.beforePrune, stages.afterPrune, prunes)
        && end == stages.afterPrune
    }

    /** The logged calls of prune. */
    function Prunes(): seq<Event> {
      match report
      case TornDown(_, prunes, _, _) => prunes
      case Synced(_, prunes, _) => prunes
      case Untouched(prunes, _) => prunes
      case _ => []
    }

    /** What the next state records about post hooks, drift and failed applies. */
    predicate NextOk() {
      Completed(report) ==>
        && checkout.CheckedOut?
        && next == NextState(prev, checkout.sha,
                             match report {
                               case TornDown(_, _, post, _) =>
                                 if PhaseOk(post) then None else Some(HookProblem(PostDelete))
                               case Synced(sync, _, _) =>
                                 if PhaseOk(sync.post) then None else Some(HookProblem(PostSync))
                               case _ => None
                             },
                             |drifts|, Keys(),
                             if report.Synced? && |report.sync.outcomes| <= |c.main|
                             then FailedKeys(c.main, report.sync.outcomes) else [])
    }

    ghost predicate Valid() {
      ReportOk() && HooksOk() && RightBranch() && StagesOk() && NextOk() && (clean ==> PruneQuiet(Prunes()))
    }
  }

  /******* What the inputs decide *******/

  /** The checkout failed, a file in it cannot be read, or its path matches nothing and nothing was applied. */
  predicate RejectedInput(stored: Option<State>, checkout: Checkout) {
    || checkout.CheckoutFailed?
    || checkout.tree.Unreadable?
    || (checkout.tree.NoRoots? && (stored.None? || stored.value.applied == []))
  }

  /** All manifests in the tree, if there are any, are hooks. */
  predicate OnlyHooks(tree: Tree) {
    tree.Documents? ==> forall m | m in FlattenedAll(tree.docs) :: "helm.sh/hook" in m.annotations
  }

  lemma OnlyHooksIff(tree: Tree)
    ensures MainOf(ManifestsOf(tree)) == [] <==> OnlyHooks(tree)
  {
    ClassifyConserves(ManifestsOf(tree));
    if MainOf(ManifestsOf(tree)) != [] {
      assert MainOf(ManifestsOf(tree))[0] in MainOf(ManifestsOf(tree));
    }
  }

  /** A pass on rejected input reports a problem and does nothing: a file that cannot be read never makes its
      resources look as if they had left Git. */
  lemma RejectedInputStops(p: Pass)
    requires p.Valid() && RejectedInput(p.prev, p.checkout)
    ensures p.end == p.start && p.Trace() == []
    ensures !Completed(p.report)
    ensures ProblemOf(p.report)
            == Some(if p.report.Stopped? && p.report.problem == StateUnreadable then StateUnreadable
                    else if p.checkout.CheckoutFailed? then GitFailed
                    else if p.checkout.tree.Unreadable? then BadManifests
                    else NoDirectories)
    ensures p.clean ==> ProblemOf(p.report) != Some(StateUnreadable)
  {
  }

  /** On other input a pass whose state was read goes on: it only validates in a dry run, tears down
      exactly when no main manifest is left and something was applied before, and otherwise applies
      everything unless it follows the branch at exactly the persisted commit and finds no drift. */
  lemma PassBranchIff(p: Pass)
    requires p.Valid() && !RejectedInput(p.prev, p.checkout)
    ensures p.report.Stopped? ==> p.report.problem == StateUnreadable && !p.clean
    ensures !p.report.Stopped? ==>
              && (p.report.Validated? <==> p.dryRun)
              && (p.report.TornDown? <==>
                    !p.dryRun && OnlyHooks(p.checkout.tree) && p.prev.Some? && p.prev.value.applied != [])
              && (p.report.Untouched? ==>
                    && !p.forced && p.prev.Some? && p.prev.value.lastSha == Some(p.checkout.sha) && p.checkout.sha != ""
                    && Verdicts(p.c.main, Listed(p.lists)) == [])
              && (p.report.Synced? && !p.forced && p.prev.Some? && p.prev.value.lastSha == Some(p.checkout.sha)
                  && p.checkout.sha != "" ==>
                    p.drifts == Verdicts(p.c.main, Listed(p.lists)) && p.drifts != [])
  {
    if !p.report.Stopped? {
      OnlyHooksIff(p.checkout.tree);
      DriftCheckIff(p.prev, p.checkout.sha, p.forced, p.dryRun, p.c.main);
    }
  }

  /** The number of passes after one more, in 64 bits. */
  function OneMore(stored: Option<State>): nat {
    if stored.None? then 1
    else if stored.value.syncCount < 0xFFFF_FFFF_FFFF_FFFF then stored.value.syncCount + 1
    else 0xFFFF_FFFF_FFFF_FFFF
  }

  /** Some hook of a phase that ran was not resolved, not applied, or did not succeed. */
  predicate SomeFailed(reports: seq<HookReport>) {
    exists i | 0 <= i < |reports| ::
      !reports[i].resolved || !reports[i].applied || reports[i].completion != Succeeded
  }

  /** What a completed pass writes: its commit, one more pass, the number of drifts, and the number of main
      manifests and their keys in order. */
  lemma WrittenState(p: Pass)
    requires p.Valid() && Completed(p.report)
    ensures p.checkout.CheckedOut? && p.next.lastSha == Some(p.checkout.sha) && p.next.syncCount == OneMore(p.prev)
    ensures p.next.driftCount == |p.drifts| && p.next.managedCount == |p.next.applied| == |p.c.main|
    ensures forall i | 0 <= i < |p.c.main| :: p.next.applied[i] == KeyOf(p.c.main[i])
  {
  }

  /** The error it writes: that a hook of its last phase failed, if one did. */
  lemma WrittenError(p: Pass)
    requires p.Valid() && Completed(p.report)
    ensures p.next.lastError
            == match p.report
               case TornDown(_, _, post, _) => if SomeFailed(post) then Some(HookProblem(PostDelete)) else None
               case Synced(sync, _, _) => if SomeFailed(sync.post) then Some(HookProblem(PostSync)) else None
               case _ => None
  {
    match p.report
    case TornDown(_, _, post, _) => PhaseOkIff(SortByWeight(p.c.postDelete), p.envs, post);
    case Synced(sync, _, _) => PhaseOkIff(SortByWeight(p.c.post), p.envs, sync.post);
    case Untouched(_, _) =>
  }

  /** The failures it writes: the keys of the manifests whose kind did not resolve or whose apply failed. */
  lemma WrittenFailures(p: Pass, k: ResourceKey)
    requires p.Valid() && Completed(p.report)
    ensures k in p.next.applyFailures <==>
            && p.report.Synced?
            && exists i | 0 <= i < |p.c.main| ::
                 KeyOf(p.c.main[i]) == k && (p.report.sync.outcomes[i].Unresolved? || !p.report.sync.outcomes[i].ok)
  {
    if p.report.Synced? {
      FailedKeysIff(p.c.main, p.report.sync.outcomes, k);
    }
  }

  /******* Running a pass *******/

  /** The record describes a pass with these inputs between these objects. */
  ghost predicate PassOf(p: Pass, settings: Settings, prev: Option<State>, checkout: Checkout, forced: bool,
                         dryRun: bool, envs: HookInfo -> HookEnv, start: Live, end: Live, clean: bool) {
    && p.Valid()
    && p.settings == settings && p.prev == prev && p.checkout == checkout && p.forced == forced && p.dryRun == dryRun
    && p.envs == envs
    && p.start == start && p.end == end && p.clean == clean
  }

  /** The persisted state changes only by the final write, which may take effect without being acknowledged. */
  predicate StoredAfter(p: Pass, before: Option<State>, after: Option<State>) {
    && (after == before || (Completed(p.report) && after == Some(p.next)))
    && (ProblemOf(p.report).None? && !p.report.Validated? ==> after == Some(p.next))
  }

  /** Prune, then persist: the common end of every pass that is not a teardown. */
  method PruneAndWrite(w: World, prev: Option<State>, keys: seq<ResourceKey>, next: State)
    returns (ok: bool, ghost prunes: seq<Event>)
    modifies w`live, w`stored, w`faults, w`log
    ensures w.log == old(w.log) + prunes + [StateWrite(next, ok)]
    ensures PruneLog(prunes, AppliedBefore(prev), keys, old(w.live))
    ensures PruneEffect(w.settings, AppliedBefore(prev), keys, old(w.live), w.live, prunes)
    ensures w.faults >= old(w.faults) && (w.faults == old(w.faults) ==> PruneQuiet(prunes))
    ensures w.stored == old(w.stored) || w.stored == Some(next)
    ensures ok ==> w.stored == Some(next)
  {
    var pruned;
    pruned, prunes := Prune.Prune(w, AppliedBefore(prev), keys);
    ok := w.WriteState(next);
  }

  function TeardownTrace(c: Classified, pre: seq<HookReport>, prunes: seq<Event>, post: seq<HookReport>, next: State,
      ok: bool): seq<Event>
    requires |pre| <= |SortByWeight(c.preDelete)| && |post| <= |SortByWeight(c.postDelete)|
  {
    var before := PhaseTrace(PreDelete, SortByWeight(c.preDelete), pre);
    if !PhaseOk(pre) then before
    else before + prunes + PhaseTrace(PostDelete, SortByWeight(c.postDelete), post) + [StateWrite(next, ok)]
  }

  /** PreDelete hooks, prune, PostDelete hooks, state write; nothing follows a failed PreDelete hook. */
  method TeardownSteps(w: World, prev: Option<State>, sha: string, c: Classified, envs: HookInfo -> HookEnv)
    returns (preFailed: bool, ok: bool, next: State, ghost pre: seq<HookReport>, ghost prunes: seq<Event>,
             ghost post: seq<HookReport>, ghost hooked: Live, ghost afterPrune: Live)
    modifies w`live, w`stored, w`faults, w`log
    ensures w.faults >= old(w.faults) && (w.faults == old(w.faults) ==> PruneQuiet(prunes))
    ensures PhaseReport(SortByWeight(c.preDelete), pre) && preFailed == !PhaseOk(pre)
    ensures AllCompletedAs(SortByWeight(c.preDelete), envs, pre)
            && AllCompletedAs(SortByWeight(c.postDelete), envs, post)
    ensures OnlyTouches(HookAddresses(w.settings, c.preDelete), old(w.live), hooked)
    ensures if preFailed then prunes == [] && post == [] && w.live == hooked && !ok
            else
              && PhaseReport(SortByWeight(c.postDelete), post)
              && PruneLog(prunes, AppliedBefore(prev), KeysOf(c.main), hooked)
              && PruneEffect(w.settings, AppliedBefore(prev), KeysOf(c.main), hooked, afterPrune, prunes)
              && OnlyTouches(HookAddresses(w.settings, c.postDelete), afterPrune, w.live)
              && next == NextState(prev, sha, if PhaseOk(post) then None else Some(HookProblem(PostDelete)), 0,
                  KeysOf(c.main), [])
    ensures w.log == old(w.log) + TeardownTrace(c, pre, prunes, post, next, ok)
    ensures w.stored == old(w.stored) || (!preFailed && w.stored == Some(next))
    ensures ok ==> w.stored == Some(next)
  {
    ghost var log := w.log;
    var attempted, failures;
    prunes, post, ok, next := [], [], false, DEFAULT_STATE;
    attempted, failures, pre := RunPhase(w, PreDelete, c.preDelete, envs);
    hooked, afterPrune := w.live, w.live;
    preFailed := failures != [];
    if preFailed {
      return;
    }
    var pruned;
    pruned, prunes := Prune.Prune(w, AppliedBefore(prev), KeysOf(c.main));
    afterPrune := w.live;
    attempted, failures, post := RunPhase(w, PostDelete, c.postDelete, envs);
    next := NextState(prev, sha, if failures == [] then None else Some(HookProblem(PostDelete)), 0, KeysOf(c.main), []);
    ok := w.WriteState(next);
    Regroup(log, PhaseTrace(PreDelete, SortByWeight(c.preDelete), pre), prunes,
            PhaseTrace(PostDelete, SortByWeight(c.postDelete), post), [StateWrite(next, ok)]);
  }

  method TeardownPass(w: World, prev: Option<State>, checkout: Checkout, forced: bool, c: Classified,
                      envs: HookInfo -> HookEnv, ghost clean: bool)
    returns (problem: Option<Problem>, ghost p: Pass)
    requires prev == w.stored && checkout.CheckedOut? && StopReason(prev, checkout).None?
    requires ClassifiedAs(c, ManifestsOf(checkout.tree))
    requires BranchOf(prev, checkout.sha, forced, false, c.main) == Teardown
    modifies w`live, w`stored, w`faults, w`log
    ensures w.faults >= old(w.faults)
    ensures PassOf(p, w.settings, prev, checkout, forced, false, envs, old(w.live), w.live,
                   clean && w.faults == old(w.faults))
    ensures w.log == old(w.log) + p.Trace()
    ensures problem == ProblemOf(p.report)
    ensures StoredAfter(p, old(w.stored), w.stored)
  {
    ghost var start, faults := w.live, w.faults;
    var preFailed, ok, next;
    ghost var pre, prunes, post, hooked, afterPrune;
    preFailed, ok, next, pre, prunes, post, hooked, afterPrune := TeardownSteps(w, prev, checkout.sha, c, envs);
    problem := if preFailed then Some(HookProblem(PreDelete)) else if ok then None else Some(StateUnwritable);
    p := Pass(w.settings, prev, checkout, forced, false, envs, c, [], map[], TornDown(pre, prunes, post, ok), next,
              start, Stages(hooked, hooked, hooked, afterPrune), w.live, clean && w.faults == faults);
  }

  function ApplyPassTrace(c: Classified, sync: SyncReport, prunes: seq<Event>, next: State, ok: bool): seq<Event>
    requires SyncOk(c, sync)
  {
    if !PhaseOk(sync.pre) then SyncTrace(c, sync) else SyncTrace(c, sync) + prunes + [StateWrite(next, ok)]
  }

  /** How the steps of an applying pass changed the live objects, and what they left to be written. */
  ghost predicate ApplyEffect(settings: Settings, prev: Option<State>, sha: string, c: Classified, driftCount: nat,
                              start: Live, end: Live, sync: SyncReport, prunes: seq<Event>, stages: Stages,
                              next: State) {
    && SyncOk(c, sync)
    && OnlyTouches(HookAddresses(settings, c.pre), start, stages.hooked)
    && OnlyMain(settings, c.main, stages.hooked, stages.applied)
    && OnlyTouches(HookAddresses(settings, c.post), stages.applied, stages.beforePrune)
    && (if PhaseOk(sync.pre) then
          && PruneLog(prunes, AppliedBefore(prev), KeysOf(c.main), stages.beforePrune)
          && PruneEffect(settings, AppliedBefore(prev), KeysOf(c.main), stages.beforePrune, stages.afterPrune, prunes)
          && end == stages.afterPrune
          && next == NextState(prev, sha, if PhaseOk(sync.post) then None else Some(HookProblem(PostSync)), driftCount,
                               KeysOf(c.main), FailedKeys(c.main, sync.outcomes))
        else prunes == [] && end == stages.hooked)
  }

  /** PreSync hooks, main resources, PostSync hooks, prune, state write; nothing follows a failed PreSync hook. */
  method ApplySteps(w: World, prev: Option<State>, sha: string, c: Classified, driftCount: nat,
      envs: HookInfo -> HookEnv)
    returns (preFailed: bool, ok: bool, next: State, ghost sync: SyncReport, ghost prunes: seq<Event>,
        ghost stages: Stages)
    modifies w`live, w`stored, w`faults, w`log
    ensures w.faults >= old(w.faults) && (w.faults == old(w.faults) ==> PruneQuiet(prunes))
    ensures ApplyEffect(w.settings, prev, sha, c, driftCount, old(w.live), w.live, sync, prunes, stages, next)
    ensures preFailed == !PhaseOk(sync.pre) && (preFailed ==> !ok)
    ensures AllCompletedAs(SortByWeight(c.pre), envs, sync.pre)
            && AllCompletedAs(SortByWeight(c.post), envs, sync.post)
    ensures w.faults == old(w.faults) && !preFailed && DistinctAddresses(w.settings, c.main)
            && Serving(w.settings, w.server) ==>
              AllServed(w.settings, c.main, stages.applied)
    ensures w.log == old(w.log) + ApplyPassTrace(c, sync, prunes, next, ok)
    ensures w.stored == old(w.stored) || (!preFailed && w.stored == Some(next))
    ensures ok ==> w.stored == Some(next)
  {
    ghost var log := w.log;
    var postFailed, failed;
    ghost var hooked, applied;
    prunes, ok, next := [], false, DEFAULT_STATE;
    preFailed, postFailed, failed, sync, hooked, applied := SyncMain(w, c, envs);
    stages := Stages(hooked, applied, w.live, w.live);
    if preFailed {
      return;
    }
    next := NextState(prev, sha, if postFailed then Some(HookProblem(PostSync)) else None, driftCount, KeysOf(c.main),
        failed);
    ok, prunes := PruneAndWrite(w, prev, KeysOf(c.main), next);
    stages := stages.(afterPrune := w.live);
    Regroup(log, SyncTrace(c, sync), prunes, [StateWrite(next, ok)], []);
  }

  /** The inputs call for a full apply, or a check of these objects found drift. */
  ghost predicate CallsForApply(prev: Option<State>, sha: string, forced: bool, c: Classified, drifts: seq<DriftItem>,
                                lists: Lists, live: Live, clean: bool) {
    match BranchOf(prev, sha, forced, false, c.main)
    case FullApply => drifts == []
    case DriftCheck =>
      && drifts == Verdicts(c.main, Listed(lists)) && drifts != []
      && (forall g | g in lists :: ListsKind(lists[g], live, g.0, g.2))
      && (clean ==> lists.Keys == Kinds(c.main))
    case _ => false
  }

  /** The record of an applying pass. */
  lemma AppliedPass(settings: Settings, prev: Option<State>, checkout: Checkout, forced: bool,
                    envs: HookInfo -> HookEnv, c: Classified, drifts: seq<DriftItem>, lists: Lists,
                    start: Live, end: Live, clean: bool,
                    sync: SyncReport, prunes: seq<Event>, stages: Stages, next: State, ok: bool)
    returns (p: Pass)
    requires checkout.CheckedOut? && StopReason(prev, checkout).None?
    requires ClassifiedAs(c, ManifestsOf(checkout.tree))
    requires CallsForApply(prev, checkout.sha, forced, c, drifts, lists, start, clean)
    requires ApplyEffect(settings, prev, checkout.sha, c, |drifts|, start, end, sync, prunes, stages, next)
    requires AllCompletedAs(SortByWeight(c.pre), envs, sync.pre)
             && AllCompletedAs(SortByWeight(c.post), envs, sync.post)
    requires clean ==> PruneQuiet(prunes)
    ensures PassOf(p, settings, prev, checkout, forced, false, envs, start, end, clean)
    ensures p.c == c && p.stages == stages && p.next == next && p.report == Synced(sync, prunes, ok)
    ensures p.Trace() == ApplyPassTrace(c, sync, prunes, next, ok)
    ensures Completed(p.report) == PhaseOk(sync.pre)
    ensures ProblemOf(p.report) == if !PhaseOk(sync.pre) then Some(HookProblem(PreSync))
                                   else if ok then None else Some(StateUnwritable)
  {
    p := Pass(settings, prev, checkout, forced, false, envs, c, drifts, lists, Synced(sync, prunes, ok), next,
              start, stages, end, clean);
  }

  /** A pass that applies everything: the full apply, and the re-apply after drift. */
  method ApplyPass(w: World, prev: Option<State>, checkout: Checkout, forced: bool, c: Classified,
                   drifts: seq<DriftItem>, ghost lists: Lists, envs: HookInfo -> HookEnv, ghost clean: bool)
    returns (problem: Option<Problem>, ghost p: Pass)
    requires prev == w.stored && checkout.CheckedOut? && StopReason(prev, checkout).None?
    requires ClassifiedAs(c, ManifestsOf(checkout.tree))
    requires CallsForApply(prev, checkout.sha, forced, c, drifts, lists, w.live, clean)
    modifies w`live, w`stored, w`faults, w`log
    ensures w.faults >= old(w.faults)
    ensures PassOf(p, w.settings, prev, checkout, forced, false, envs, old(w.live), w.live,
                   clean && w.faults == old(w.faults))
    ensures w.log == old(w.log) + p.Trace()
    ensures problem == ProblemOf(p.report)
    ensures StoredAfter(p, old(w.stored), w.stored)
    ensures ServedBy(p, w.server)
  {
    ghost var start, faults := w.live, w.faults;
    var preFailed, ok, next;
    ghost var sync, prunes, stages;
    preFailed, ok, next, sync, prunes, stages := ApplySteps(w, prev, checkout.sha, c, |drifts|, envs);
    problem := if preFailed then Some(HookProblem(PreSync)) else if ok then None else Some(StateUnwritable);
    p := AppliedPass(w.settings, prev, checkout, forced, envs, c, drifts, lists, start, w.live,
                     clean && w.faults == faults,
                     sync, prunes, stages, next, ok);
  }

  /** After a clean apply through this server, every main resource is live as the server serves it. */
  ghost predicate ServedBy(p: Pass, server: Server) {
    p.report.Synced? && PhaseOk(p.report.sync.pre) && p.clean && DistinctAddresses(p.settings, p.c.main)
    && Serving(p.settings, server) ==>
      AllServed(p.settings, p.c.main, p.stages.applied)
  }

  function StoppedPass(settings: Settings, prev: Option<State>, checkout: Checkout, forced: bool, dryRun: bool,
                       envs: HookInfo -> HookEnv, problem: Problem, live: Live, clean: bool): Pass {
    Pass(settings, prev, checkout, forced, dryRun, envs, Classified([], [], [], [], []), [], map[], Stopped(problem),
         DEFAULT_STATE, live, Stages(live, live, live, live), live, clean)
  }

  /** The branches of a pass once the manifests are classified. */
  method RunBranch(w: World, prev: Option<State>, checkout: Checkout, forced: bool, dryRun: bool, c: Classified,
                   envs: HookInfo -> HookEnv, ghost clean: bool)
    returns (problem: Option<Problem>, ghost p: Pass)
    requires prev == w.stored && checkout.CheckedOut? && StopReason(prev, checkout).None?
    requires ClassifiedAs(c, ManifestsOf(checkout.tree))
    modifies w`live, w`stored, w`faults, w`log
    ensures w.faults >= old(w.faults)
    ensures PassOf(p, w.settings, prev, checkout, forced, dryRun, envs, old(w.live), w.live,
                   clean && w.faults == old(w.faults))
    ensures w.log == old(w.log) + p.Trace()
    ensures problem == ProblemOf(p.report)
    ensures StoredAfter(p, old(w.stored), w.stored)
    ensures ServedBy(p, w.server)
  {
    ghost var start, faults := w.live, w.faults;
    var branch := BranchOf(prev, checkout.sha, forced, dryRun, c.main);
    if branch == DryRun {
      var failed;
      ghost var outcomes;
      failed, outcomes := ApplyAll(w, c.main, true);
      problem := None;
      p := Pass(w.settings, prev, checkout, forced, true, envs, c, [], map[], Validated(outcomes), DEFAULT_STATE,
                start, Stages(start, start, start, start), start, clean && w.faults == faults);
    } else if branch == Teardown {
      problem, p := TeardownPass(w, prev, checkout, forced, c, envs, clean);
    } else if branch == FullApply {
      problem, p := ApplyPass(w, prev, checkout, forced, c, [], map[], envs, clean);
    } else {
      problem, p := CheckPass(w, prev, checkout, forced, c, envs, clean);
    }
  }

  /** A check that found no drift: prune and persist. */
  method UntouchedPass(w: World, prev: Option<State>, checkout: Checkout, forced: bool, c: Classified,
                       ghost envs: HookInfo -> HookEnv, ghost lists: Lists, ghost clean: bool)
    returns (problem: Option<Problem>, ghost p: Pass)
    requires prev == w.stored && checkout.CheckedOut? && StopReason(prev, checkout).None?
    requires ClassifiedAs(c, ManifestsOf(checkout.tree))
    requires BranchOf(prev, checkout.sha, forced, false, c.main) == DriftCheck
    requires Verdicts(c.main, Listed(lists)) == []
    requires forall g | g in lists :: ListsKind(lists[g], w.live, g.0, g.2)
    requires clean ==> lists.Keys == Kinds(c.main)
    modifies w`live, w`stored, w`faults, w`log
    ensures w.faults >= old(w.faults)
    ensures PassOf(p, w.settings, prev, checkout, forced, false, envs, old(w.live), w.live,
                   clean && w.faults == old(w.faults))
    ensures w.log == old(w.log) + p.Trace()
    ensures problem == ProblemOf(p.report)
    ensures StoredAfter(p, old(w.stored), w.stored)
    ensures p.report.Untouched?
  {
    ghost var start, faults, log := w.live, w.faults, w.log;
    var next := NextState(prev, checkout.sha, None, 0, KeysOf(c.main), []);
    var ok;
    ghost var prunes;
    ok, prunes := PruneAndWrite(w, prev, KeysOf(c.main), next);
    problem := if ok then None else Some(StateUnwritable);
    p := Pass(w.settings, prev, checkout, forced, false, envs, c, [], lists, Untouched(prunes, ok), next,
              start, Stages(start, start, start, w.live), w.live, clean && w.faults == faults);
    assert log + prunes + [StateWrite(next, ok)] == log + (prunes + [StateWrite(next, ok)]);
  }

  /** Compare with the cluster; re-apply on drift, otherwise only prune and persist. */
  method CheckPass(w: World, prev: Option<State>, checkout: Checkout, forced: bool, c: Classified,
                   envs: HookInfo -> HookEnv, ghost clean: bool)
    returns (problem: Option<Problem>, ghost p: Pass)
    requires prev == w.stored && checkout.CheckedOut? && StopReason(prev, checkout).None?
    requires ClassifiedAs(c, ManifestsOf(checkout.tree))
    requires BranchOf(prev, checkout.sha, forced, false, c.main) == DriftCheck
    modifies w`live, w`stored, w`faults, w`log
    ensures w.faults >= old(w.faults)
    ensures PassOf(p, w.settings, prev, checkout, forced, false, envs, old(w.live), w.live,
                   clean && w.faults == old(w.faults))
    ensures w.log == old(w.log) + p.Trace()
    ensures problem == ProblemOf(p.report)
    ensures StoredAfter(p, old(w.stored), w.stored)
    ensures ServedBy(p, w.server)
  {
    ghost var faults := w.faults;
    var drifts;
    ghost var lists;
    drifts, lists := Detect(w, c.main);
    if drifts != [] {
      problem, p := ApplyPass(w, prev, checkout, forced, c, drifts, lists, envs, clean && w.faults == faults);
    } else {
      problem, p := UntouchedPass(w, prev, checkout, forced, c, envs, lists, clean && w.faults == faults);
    }
  }

  /** One pass under the Lease. */
  method ReconcileInner(w: World, forced: bool, dryRun: bool, checkout: Checkout, envs: HookInfo -> HookEnv)
    returns (problem: Option<Problem>, ghost p: Pass)
    modifies w`live, w`stored, w`faults, w`log
    ensures w.faults >= old(w.faults)
    ensures PassOf(p, w.settings, old(w.stored), checkout, forced, dryRun, envs, old(w.live), w.live,
                   w.faults == old(w.faults))
    ensures w.log == old(w.log) + p.Trace()
    ensures problem == ProblemOf(p.report)
    ensures StoredAfter(p, old(w.stored), w.stored)
    ensures ServedBy(p, w.server)
  {
    ghost var faults := w.faults;
    var read := w.ReadState();
    if read.Unavailable? {
      problem := Some(StateUnreadable);
      p := StoppedPass(w.settings, w.stored, checkout, forced, dryRun, envs, StateUnreadable, w.live, false);
      return;
    }
    var prev := if read.Found? then Some(read.value) else None;
    problem := StopReason(prev, checkout);
    if problem.Some? {
      p := StoppedPass(w.settings, prev, checkout, forced, dryRun, envs, problem.value, w.live, w.faults == faults);
      return;
    }
    var manifests := [];
    if checkout.tree.Documents? {
      manifests := ParseDocuments(checkout.tree.docs);
    }
    var c := Classify(manifests);
    problem, p := RunBranch(w, prev, checkout, forced, dryRun, c, envs, w.faults == faults);
  }
}

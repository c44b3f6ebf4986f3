/** Running the hooks of a phase against the cluster (`run_phase` and `run_one` of `src/hooks.rs`). */
module HookRunner {

  import opened Wrappers
  import opened Manifest
  import opened Kube
  import opened Hooks
  import opened Cluster

  /** What happened to one hook: whether its kind resolved, the earlier instance was deleted, the apply
      succeeded, how the wait ended, whether it ended because somebody else had removed the object, and
      whether the deletion afterwards succeeded. */
  datatype HookReport = HookReport(resolved: bool, cleared: bool, applied: bool, completion: Completion,
      vanished: bool, removed: bool) {
    predicate Ok() {
      resolved && applied && completion != Failed
    }
  }

  predicate DeletesAfter(info: HookInfo, completion: Completion) {
    match completion
    case Succeeded => HookSucceeded in info.deletePolicies
    case Failed => HookFailed in info.deletePolicies
    case Running => false
  }

  function HookKey(info: HookInfo): ResourceKey {
    KeyOf(info.manifest)
  }

  /** The calls one hook makes, in order, and the outcome the phase records. */
  function HookTrace(phase: HookPhase, info: HookInfo, r: HookReport): seq<Event> {
    var key := HookKey(info);
    if !r.resolved then [HookDone(phase, key, false)]
    else
      DeleteTrace(phase, info, BeforeHookCreation in info.deletePolicies, r.cleared)
      + [ApplyCall(ForHook(phase), key, false, r.applied)]
      + DeleteTrace(phase, info, r.applied && DeletesAfter(info, r.completion), r.removed)
      + [HookDone(phase, key, r.Ok())]
  }

  /** Where the hook's object lies, if its kind is served. */
  function HookAddress(settings: Settings, info: HookInfo): set<Address> {
    if settings.Serves(info.manifest.group, info.manifest.kind) then {settings.AddressOf(HookKey(info))} else {}
  }

  ghost function HookAddresses(settings: Settings, hooks: seq<HookInfo>): set<Address> {
    set h, a | h in hooks && a in HookAddress(settings, h) :: a
  }

  /** Nothing outside these addresses differs. */
  ghost predicate OnlyTouches(addresses: set<Address>, before: Live, after: Live) {
    forall a | a !in addresses :: (a in before <==> a in after) && (a in before ==> before[a] == after[a])
  }

  lemma TouchesGrow(small: set<Address>, large: set<Address>, before: Live, after: Live)
    requires OnlyTouches(small, before, after) && small <= large
    ensures OnlyTouches(large, before, after)
  {
  }

  /** Hooks, too, are put where their kind's scope says. */
  lemma HooksKeepScope(settings: Settings, hooks: seq<HookInfo>, before: Live, after: Live)
    requires settings.Scoped(before) && OnlyTouches(HookAddresses(settings, hooks), before, after)
    ensures settings.Scoped(after)
  {
    forall a | a in after && a in HookAddresses(settings, hooks)
      ensures settings.Serves(a.group, a.kind)
                && (a.namespace.None? <==> settings.scopes[(a.group, a.kind)] == ClusterWide)
    {
      var h :| h in hooks && a in HookAddress(settings, h);
      assert a == settings.AddressOf(HookKey(h));
    }
  }

  /** What the polls of one hook find, and how long its wait may last. */
  datatype HookEnv = HookEnv(timeout: nat, wait: WaitEnv)

  /** How the hook completed: as its wait ended if its kind is waited for, otherwise at once. Its object
      vanished if the last poll did not find it. */
  ghost predicate CompletedAs(info: HookInfo, env: HookEnv, completion: Completion, vanished: bool) {
    var m := info.manifest;
    if IsWaitable(m.group, m.kind)
    then exists last ::
           WaitEnds(m.group, m.kind, env.timeout, env.wait, completion, last) && vanished == env.wait.polls(last).Gone?
    else completion == Succeeded && !vanished
  }

  /** A completed hook succeeded or failed as its own polls say; a kind that is not waited for succeeded. */
  lemma CompletionIff(info: HookInfo, env: HookEnv, completion: Completion, vanished: bool)
    requires CompletedAs(info, env, completion, vanished)
    ensures completion == Succeeded <==> (Awaited(info.manifest) ==> EndsWell(info.manifest, env.timeout, env.wait))
    ensures completion == Failed <==> Awaited(info.manifest) && EndsBadly(info.manifest, env.timeout, env.wait)
    ensures completion != Running
  {
    var m := info.manifest;
    if IsWaitable(m.group, m.kind) {
      var last :|
        WaitEnds(m.group, m.kind, env.timeout, env.wait, completion, last) && vanished == env.wait.polls(last).Gone?;
      WaitEndsIff(m, env.timeout, env.wait, completion, last);
    }
  }

  function DeleteTrace(phase: HookPhase, info: HookInfo, wanted: bool, ok: bool): seq<Event> {
    if wanted then [DeleteCall(ForHook(phase), HookKey(info), ok)] else []
  }

  /** Delete the hook's object if a policy asks for it; a failure is ignored. */
  method DeleteIf(w: World, phase: HookPhase, info: HookInfo, wanted: bool) returns (ok: bool)
    requires w.settings.Serves(info.manifest.group, info.manifest.kind)
    modifies w`live, w`faults, w`log
    ensures w.log == old(w.log) + DeleteTrace(phase, info, wanted, ok)
    ensures w.faults >= old(w.faults)
    ensures OnlyTouches(HookAddress(w.settings, info), old(w.live), w.live)
    ensures !wanted ==> w.live == old(w.live)
    ensures wanted && w.faults == old(w.faults) ==> w.settings.AddressOf(HookKey(info)) !in w.live
  {
    ok := false;
    if wanted {
      ok := w.Delete(ForHook(phase), HookKey(info));
    }
  }

  /** Apply the hook and wait until it has completed. */
  method ApplyAndWait(w: World, phase: HookPhase, info: HookInfo, env: HookEnv)
      returns (applied: bool, completion: Completion, vanished: bool)
    requires w.settings.Serves(info.manifest.group, info.manifest.kind)
    modifies w`live, w`faults, w`log
    ensures w.log == old(w.log) + [ApplyCall(ForHook(phase), HookKey(info), false, applied)]
    ensures w.faults >= old(w.faults)
    ensures OnlyTouches(HookAddress(w.settings, info), old(w.live), w.live)
    ensures w.faults == old(w.faults) ==> applied
    ensures applied ==> if vanished then w.settings.AddressOf(HookKey(info)) !in w.live else
                          w.settings.AddressOf(HookKey(info)) in w.live
                          && w.live[w.settings.AddressOf(HookKey(info))] == w.server(info.manifest, |old(w.log)|)
    ensures completion != Running
    ensures applied ==> CompletedAs(info, env, completion, vanished)
  {
    var m := info.manifest;
    applied := w.Apply(ForHook(phase), m, false);
    completion, vanished := if applied then Succeeded else Failed, false;
    if applied && IsWaitable(m.group, m.kind) {
      var last;
      completion, last := WaitForCompletion(m.group, m.kind, env.timeout, env.wait);
      if env.wait.polls(last).Gone? {
        vanished := true;
        w.live := w.live - {w.settings.AddressOf(HookKey(info))};
      }
    }
  }

  /** One hook end to end. Unless a call failed, its object is there afterwards exactly when it did not
      vanish during the wait and no policy deletes it after the way it completed. */
  method RunOne(w: World, phase: HookPhase, info: HookInfo, env: HookEnv) returns (r: HookReport)
    modifies w`live, w`faults, w`log
    ensures w.log == old(w.log) + HookTrace(phase, info, r)
    ensures w.faults >= old(w.faults)
    ensures OnlyTouches(HookAddress(w.settings, info), old(w.live), w.live)
    ensures w.faults == old(w.faults) ==> r.resolved && r.applied
    ensures w.faults == old(w.faults) ==>
              w.settings.Serves(info.manifest.group, info.manifest.kind)
              && (w.settings.AddressOf(HookKey(info)) in w.live
                  <==> !r.vanished && !DeletesAfter(info, r.completion))
    ensures r.completion != Running
    ensures r.applied ==> CompletedAs(info, env, r.completion, r.vanished)
  {
    var key := HookKey(info);
    var resolved := w.Resolve(key.group, key.kind);
    if !resolved {
      r := HookReport(false, false, false, Failed, false, false);
      w.log := w.log + [HookDone(phase, key, false)];
      return;
    }
    var cleared := DeleteIf(w, phase, info, BeforeHookCreation in info.deletePolicies);
    var applied, completion, vanished := ApplyAndWait(w, phase, info, env);
    if !applied {
      r := HookReport(true, cleared, false, completion, false, false);
      w.log := w.log + [HookDone(phase, key, false)];
      Regroup(old(w.log), DeleteTrace(phase, info, BeforeHookCreation in info.deletePolicies, cleared),
              [ApplyCall(ForHook(phase), key, false, false)], [], [HookDone(phase, key, false)]);
      return;
    }
    var removed := DeleteIf(w, phase, info, DeletesAfter(info, completion));
    r := HookReport(true, cleared, true, completion, vanished, removed);
    w.log := w.log + [HookDone(phase, key, completion != Failed)];
    Regroup(old(w.log), DeleteTrace(phase, info, BeforeHookCreation in info.deletePolicies, cleared),
            [ApplyCall(ForHook(phase), key, false, true)],
            DeleteTrace(phase, info, DeletesAfter(info, completion), removed),
            [HookDone(phase, key, completion != Failed)]);
  }

  /** The calls of one resolved hook: a deletion first exactly if its policies ask for one before the hook is
      created, the apply, a deletion afterwards exactly if they ask for one after this completion, and last
      the outcome. */
  lemma HookCalls(phase: HookPhase, info: HookInfo, r: HookReport) returns (i: nat)
    requires r.resolved && r.completion != Running
    ensures var t, key, policies := HookTrace(phase, info, r), KeyOf(info.manifest), info.deletePolicies;
            && i < |t| - 1 && t[i] == ApplyCall(ForHook(phase), key, false, r.applied)
            && t[..i] == (if BeforeHookCreation in policies then [DeleteCall(ForHook(phase), key, r.cleared)] else [])
            && t[i + 1..|t| - 1]
               == (if r.applied && (if r.completion == Succeeded then HookSucceeded else HookFailed) in policies
                   then [DeleteCall(ForHook(phase), key, r.removed)] else [])
            && t[|t| - 1] == HookDone(phase, key, r.applied && r.completion == Succeeded)
  {
    i := if BeforeHookCreation in info.deletePolicies then 1 else 0;
  }

  /******* A phase *******/

  /** The reports of the hooks started: a prefix of the hooks in order, in which only the last may have
      failed, and which ends early only after a failure. */
  predicate PhaseReport(ordered: seq<HookInfo>, reports: seq<HookReport>) {
    && |reports| <= |ordered|
    && (forall i | 0 <= i < |reports| - 1 :: reports[i].Ok())
    && (|reports| < |ordered| ==> reports != [] && !reports[|reports| - 1].Ok())
  }

  predicate PhaseOk(reports: seq<HookReport>) {
    forall i | 0 <= i < |reports| :: reports[i].Ok()
  }

  function PhaseTrace(phase: HookPhase, ordered: seq<HookInfo>, reports: seq<HookReport>): seq<Event>
    requires |reports| <= |ordered|
  {
    if reports == [] then []
    else
      var n := |reports| - 1;
      PhaseTrace(phase, ordered, reports[..n]) + HookTrace(phase, ordered[n], reports[n])
  }

  lemma TracePush(phase: HookPhase, ordered: seq<HookInfo>, reports: seq<HookReport>, r: HookReport, log: seq<Event>)
    requires |reports| < |ordered|
    ensures log + PhaseTrace(phase, ordered, reports + [r])
            == log + PhaseTrace(phase, ordered, reports) + HookTrace(phase, ordered[|reports|], r)
  {
    var t, h := PhaseTrace(phase, ordered, reports), HookTrace(phase, ordered[|reports|], r);
    assert (reports + [r])[..|reports|] == reports;
    assert PhaseTrace(phase, ordered, reports + [r]) == t + h;
    assert log + (t + h) == log + t + h;
  }

  lemma OkPush(ordered: seq<HookInfo>, reports: seq<HookReport>, r: HookReport)
    requires |reports| < |ordered| && PhaseOk(reports)
    ensures PhaseOk(reports + [r]) <==> r.Ok()
    ensures !r.Ok() || |reports| + 1 == |ordered| ==> PhaseReport(ordered, reports + [r])
  {
    var more := reports + [r];
    assert more[|reports|] == r;
    assert forall i | 0 <= i < |reports| :: more[i] == reports[i];
  }

  /** Every hook applied completed as its environment had it. */
  ghost predicate AllCompletedAs(ordered: seq<HookInfo>, envs: HookInfo -> HookEnv, reports: seq<HookReport>) {
    forall i | 0 <= i < |reports| && i < |ordered| && reports[i].applied ::
      CompletedAs(ordered[i], envs(ordered[i]), reports[i].completion, reports[i].vanished)
  }

  /** A phase is over without failure exactly when all of its hooks were resolved, applied and succeeded. */
  lemma PhaseOkIff(ordered: seq<HookInfo>, envs: HookInfo -> HookEnv, reports: seq<HookReport>)
    requires PhaseReport(ordered, reports) && AllCompletedAs(ordered, envs, reports)
    ensures PhaseOk(reports) <==>
            |reports| == |ordered|
            && forall i | 0 <= i < |reports| ::
                 reports[i].resolved && reports[i].applied && reports[i].completion == Succeeded
    ensures forall i | 0 <= i < |reports| - 1 ::
              reports[i].resolved && reports[i].applied && reports[i].completion == Succeeded
  {
    forall i | 0 <= i < |reports|
      ensures reports[i].Ok() <==> reports[i].resolved && reports[i].applied && reports[i].completion == Succeeded
    {
      if reports[i].applied {
        CompletionIff(ordered[i], envs(ordered[i]), reports[i].completion, reports[i].vanished);
      }
    }
  }

  lemma CompletedPush(ordered: seq<HookInfo>, envs: HookInfo -> HookEnv, reports: seq<HookReport>, r: HookReport)
    requires |reports| < |ordered| && AllCompletedAs(ordered, envs, reports)
    requires r.applied ==> CompletedAs(ordered[|reports|], envs(ordered[|reports|]), r.completion, r.vanished)
    ensures AllCompletedAs(ordered, envs, reports + [r])
  {
  }

  lemma SortKeeps(hooks: seq<HookInfo>)
    ensures forall h | h in SortByWeight(hooks) :: h in hooks
  {
    SortIsStableSort(hooks);
    assert forall h | h in SortByWeight(hooks) :: h in multiset(SortByWeight(hooks));
  }

  /** Run hooks in ascending (weight, name) order until one fails. */
  method RunPhase(w: World, phase: HookPhase, hooks: seq<HookInfo>, envs: HookInfo -> HookEnv)
    returns (attempted: nat, failures: seq<ResourceKey>, ghost reports: seq<HookReport>)
    modifies w`live, w`faults, w`log
    ensures PhaseReport(SortByWeight(hooks), reports)
    ensures AllCompletedAs(SortByWeight(hooks), envs, reports)
    ensures w.log == old(w.log) + PhaseTrace(phase, SortByWeight(hooks), reports)
    ensures attempted == |reports|
    ensures failures == if PhaseOk(reports) then [] else [HookKey(SortByWeight(hooks)[attempted - 1])]
    ensures failures == [] <==>
            attempted == |SortByWeight(hooks)|
            && forall i | 0 <= i < attempted ::
                 reports[i].resolved && reports[i].applied && reports[i].completion == Succeeded
    ensures forall i | 0 <= i < attempted - 1 ::
              reports[i].resolved && reports[i].applied && reports[i].completion == Succeeded
    ensures w.faults >= old(w.faults)
    ensures OnlyTouches(HookAddresses(w.settings, hooks), old(w.live), w.live)
  {
    var ordered := SortByWeight(hooks);
    SortKeeps(hooks);
    attempted, failures, reports := 0, [], [];
    while attempted < |ordered|
      invariant |reports| == attempted <= |ordered| && PhaseOk(reports) && failures == []
      invariant attempted == |ordered| ==> PhaseReport(ordered, reports)
      invariant AllCompletedAs(ordered, envs, reports)
      invariant w.log == old(w.log) + PhaseTrace(phase, ordered, reports)
      invariant w.faults >= old(w.faults)
      invariant OnlyTouches(HookAddresses(w.settings, hooks), old(w.live), w.live)
    {
      var info := ordered[attempted];
      ghost var before := w.live;
      var r := RunOne(w, phase, info, envs(info));
      TouchesGrow(HookAddress(w.settings, info), HookAddresses(w.settings, hooks), before, w.live);
      TracePush(phase, ordered, reports, r, old(w.log));
      OkPush(ordered, reports, r);
      CompletedPush(ordered, envs, reports, r);
      attempted := attempted + 1;
      reports := reports + [r];
      if !r.Ok() {
        failures := [HookKey(info)];
        PhaseOkIff(ordered, envs, reports);
        return;
      }
    }
    PhaseOkIff(ordered, envs, reports);
  }
}

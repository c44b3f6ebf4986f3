/** The order of the mutating calls of a pass. */
module Ordering {

  import opened Wrappers
  import opened Manifest
  import opened Kube
  import opened Hooks
  import opened Cluster
  import opened HookRunner
  import opened Sync
  import opened Prune
  import opened Reconcile

  /** Hooks that gate a pass, main resources, PostSync hooks, prune, PostDelete hooks, persisted state. */
  function PhaseRank(phase: HookPhase): nat {
    match phase
    case PreSync => 0
    case PreDelete => 0
    case PostSync => 2
    case PostDelete => 4
  }

  function PurposeRank(purpose: Purpose): nat {
    match purpose
    case ForHook(phase) => PhaseRank(phase)
    case ForMain => 1
    case ForPrune => 3
  }

  function Rank(e: Event): nat {
    match e
    case ApplyCall(purpose, _, _, _) => PurposeRank(purpose)
    case DeleteCall(purpose, _, _) => PurposeRank(purpose)
    case ListFailed(_) => PurposeRank(ForPrune)
    case Unchecked(_) => PurposeRank(ForPrune)
    case HookDone(phase, _, _) => PhaseRank(phase)
    case StateWrite(_, _) => 5
  }

  /** A call of a hook of this phase, or its outcome. */
  predicate OfHook(e: Event, phase: HookPhase) {
    match e
    case ApplyCall(purpose, _, _, _) => purpose == ForHook(phase)
    case DeleteCall(purpose, _, _) => purpose == ForHook(phase)
    case HookDone(done, _, _) => done == phase
    case _ => false
  }

  predicate OfMain(e: Event) {
    (e.ApplyCall? || e.DeleteCall?) && e.purpose == ForMain
  }

  predicate OfPrune(e: Event) {
    e.ListFailed? || e.Unchecked? || ((e.ApplyCall? || e.DeleteCall?) && e.purpose == ForPrune)
  }

  /** A call of one of the hooks that gate a pass. */
  predicate IsGating(e: Event) {
    OfHook(e, PreSync) || OfHook(e, PreDelete)
  }

  lemma RankIff(e: Event)
    ensures Rank(e) == 0 <==> IsGating(e)
    ensures Rank(e) == 1 <==> OfMain(e)
    ensures Rank(e) == 2 <==> OfHook(e, PostSync)
    ensures Rank(e) == 3 <==> OfPrune(e)
    ensures Rank(e) == 4 <==> OfHook(e, PostDelete)
    ensures Rank(e) == 5 <==> e.StateWrite?
    ensures Rank(e) <= 5
  {
  }

  predicate Ordered(events: seq<Event>) {
    forall i, j | 0 <= i < j < |events| :: Rank(events[i]) <= Rank(events[j])
  }

  predicate Ranked(events: seq<Event>, low: nat, high: nat) {
    forall i | 0 <= i < |events| :: low <= Rank(events[i]) <= high
  }

  lemma OrderedConcat(a: seq<Event>, b: seq<Event>, low: nat, middle: nat, high: nat)
    requires Ordered(a) && Ordered(b) && Ranked(a, low, middle) && Ranked(b, middle, high)
    requires low <= middle <= high
    ensures Ordered(a + b) && Ranked(a + b, low, high)
  {
    var ab := a + b;
    assert forall i | 0 <= i < |ab| :: ab[i] == if i < |a| then a[i] else b[i - |a|];
  }

  lemma OneRank(events: seq<Event>, rank: nat)
    requires Ranked(events, rank, rank)
    ensures Ordered(events)
  {
  }

  lemma HookTraceRank(phase: HookPhase, info: HookInfo, r: HookReport)
    ensures Ranked(HookTrace(phase, info, r), PhaseRank(phase), PhaseRank(phase))
  {
  }

  lemma {:induction false} PhaseTraceRank(phase: HookPhase, ordered: seq<HookInfo>, reports: seq<HookReport>)
    requires |reports| <= |ordered|
    ensures Ranked(PhaseTrace(phase, ordered, reports), PhaseRank(phase), PhaseRank(phase))
  {
    if reports != [] {
      var n := |reports| - 1;
      PhaseTraceRank(phase, ordered, reports[..n]);
      HookTraceRank(phase, ordered[n], reports[n]);
    }
  }

  lemma {:induction false} ApplyTraceMain(ms: seq<RawManifest>, dryRun: bool, outcomes: seq<ApplyOutcome>)
    requires |outcomes| <= |ms|
    ensures forall e | e in ApplyTrace(ms, dryRun, outcomes) :: e.ApplyCall? && e.purpose == ForMain
              && e.dryRun == dryRun
    ensures Ranked(ApplyTrace(ms, dryRun, outcomes), 1, 1)
  {
    if outcomes != [] {
      ApplyTraceMain(ms, dryRun, outcomes[..|outcomes| - 1]);
    }
  }

  lemma PruneLogRank(events: seq<Event>, prev: seq<ResourceKey>, current: seq<ResourceKey>, live: Live)
    requires PruneLog(events, prev, current, live)
    ensures Ranked(events, 3, 3) && Ordered(events)
  {
    assert forall i | 0 <= i < |events| :: events[i] in events;
  }

  /******* Gates *******/

  function GateOf(r: PassReport): HookPhase {
    if r.TornDown? then PreDelete else PreSync
  }

  /** The hooks that must succeed before the pass changes anything else. */
  function GateHooks(p: Pass): seq<HookInfo> {
    match p.report
    case TornDown(_, _, _, _) => p.c.preDelete
    case Synced(_, _, _) => p.c.pre
    case _ => []
  }

  lemma {:induction false} PhaseTraceDone(phase: HookPhase, ordered: seq<HookInfo>, reports: seq<HookReport>, i: nat)
    requires |reports| <= |ordered| && i < |reports|
    ensures HookDone(phase, HookKey(ordered[i]), reports[i].Ok()) in PhaseTrace(phase, ordered, reports)
    decreases |reports|
  {
    var n := |reports| - 1;
    if i < n {
      PhaseTraceDone(phase, ordered, reports[..n], i);
    } else {
      var t := HookTrace(phase, ordered[n], reports[n]);
      assert t[|t| - 1] == HookDone(phase, HookKey(ordered[n]), reports[n].Ok());
    }
  }

  lemma {:induction false} PhaseTraceOk(phase: HookPhase, ordered: seq<HookInfo>, reports: seq<HookReport>, e: Event)
    requires |reports| <= |ordered| && PhaseOk(reports)
    requires e in PhaseTrace(phase, ordered, reports) && e.HookDone?
    ensures e.ok
  {
    var n := |reports| - 1;
    if e !in HookTrace(phase, ordered[n], reports[n]) {
      PhaseTraceOk(phase, ordered, reports[..n], e);
    }
  }

  lemma HookTraceApplied(phase: HookPhase, info: HookInfo, r: HookReport)
    requires r.resolved
    ensures ApplyCall(ForHook(phase), HookKey(info), false, r.applied) in HookTrace(phase, info, r)
  {
    var before := DeleteTrace(phase, info, BeforeHookCreation in info.deletePolicies, r.cleared);
    assert HookTrace(phase, info, r)[|before|] == ApplyCall(ForHook(phase), HookKey(info), false, r.applied);
  }

  lemma {:induction false} PhaseTraceApplied(phase: HookPhase, ordered: seq<HookInfo>, reports: seq<HookReport>,
      i: nat)
    requires |reports| <= |ordered| && i < |reports| && reports[i].resolved
    ensures ApplyCall(ForHook(phase), HookKey(ordered[i]), false, reports[i].applied)
            in PhaseTrace(phase, ordered, reports)
    decreases |reports|
  {
    var n := |reports| - 1;
    if i < n {
      PhaseTraceApplied(phase, ordered, reports[..n], i);
    } else {
      HookTraceApplied(phase, ordered[n], reports[n]);
    }
  }

  /** The polls of this hook show success, if it is of a kind that is waited for. */
  ghost predicate HookSucceeds(h: HookInfo, env: HookEnv) {
    Awaited(h.manifest) ==> EndsWell(h.manifest, env.timeout, env.wait)
  }

  lemma PhaseComplete(phase: HookPhase, hooks: seq<HookInfo>, envs: HookInfo -> HookEnv, reports: seq<HookReport>,
      h: HookInfo)
    requires PhaseReport(SortByWeight(hooks), reports) && PhaseOk(reports) && h in hooks
    requires AllCompletedAs(SortByWeight(hooks), envs, reports)
    ensures HookDone(phase, HookKey(h), true) in PhaseTrace(phase, SortByWeight(hooks), reports)
    ensures ApplyCall(ForHook(phase), HookKey(h), false, true) in PhaseTrace(phase, SortByWeight(hooks), reports)
    ensures HookSucceeds(h, envs(h))
  {
    var ordered := SortByWeight(hooks);
    SortIsStableSort(hooks);
    assert h in multiset(ordered);
    var i :| 0 <= i < |ordered| && ordered[i] == h;
    PhaseTraceDone(phase, ordered, reports, i);
    PhaseTraceApplied(phase, ordered, reports, i);
    PhaseOkIff(ordered, envs, reports);
    CompletionIff(h, envs(h), reports[i].completion, reports[i].vanished);
  }

  /******* The shape of a trace *******/

  function GateReports(r: PassReport): seq<HookReport> {
    match r
    case TornDown(pre, _, _, _) => pre
    case Synced(sync, _, _) => sync.pre
    case _ => []
  }

  predicate GateOk(p: Pass) {
    PhaseReport(SortByWeight(GateHooks(p)), GateReports(p.report))
  }

  function Gate(p: Pass): seq<Event>
    requires GateOk(p)
  {
    PhaseTrace(GateOf(p.report), SortByWeight(GateHooks(p)), GateReports(p.report))
  }

  /** Main applies, PostSync hooks, prune and PostDelete hooks, in order. */
  ghost predicate IsBody(body: seq<Event>) {
    Ordered(body) && Ranked(body, 1, 4)
  }

  /** A trace falls into gating hooks, a body, and the state write of a completed pass; a failed gate ends it. */
  ghost predicate Shaped(p: Pass, trace: seq<Event>, body: seq<Event>, write: seq<Event>) {
    && GateOk(p)
    && trace == Gate(p) + body + write
    && IsBody(body)
    && (if Completed(p.report) then exists ok :: write == [StateWrite(p.next, ok)] else write == [])
    && (!PhaseOk(GateReports(p.report)) ==> body == [] && !Completed(p.report))
  }

  lemma PruneThenHooks(prunes: seq<Event>, hooks: seq<Event>)
    requires Ranked(prunes, 3, 3) && Ranked(hooks, 4, 4)
    ensures IsBody(prunes + hooks)
  {
    OneRank(prunes, 3);
    OneRank(hooks, 4);
    OrderedConcat(prunes, hooks, 1, 3, 4);
  }

  lemma TeardownBody(c: Classified, prunes: seq<Event>, post: seq<HookReport>)
    requires Ranked(prunes, 3, 3) && |post| <= |SortByWeight(c.postDelete)|
    ensures IsBody(prunes + PhaseTrace(PostDelete, SortByWeight(c.postDelete), post))
  {
    var d := PhaseTrace(PostDelete, SortByWeight(c.postDelete), post);
    PhaseTraceRank(PostDelete, SortByWeight(c.postDelete), post);
    PruneThenHooks(prunes, d);
  }

  lemma Regrouped(a: seq<Event>, b: seq<Event>, c: seq<Event>, d: seq<Event>)
    ensures a + b + c + d == a + (b + c) + d
    ensures a + [] + [] == a
  {
  }

  lemma TeardownShape(p: Pass) returns (body: seq<Event>, write: seq<Event>)
    requires p.ReportOk() && p.report.TornDown?
    ensures Shaped(p, p.Trace(), body, write)
  {
    var r := p.report;
    body, write := [], [];
    if PhaseOk(r.pre) {
      var d := PhaseTrace(PostDelete, SortByWeight(p.c.postDelete), r.post);
      PruneLogRank(r.prunes, AppliedBefore(p.prev), p.Keys(), p.stages.beforePrune);
      TeardownBody(p.c, r.prunes, r.post);
      body, write := r.prunes + d, [StateWrite(p.next, r.ok)];
      Regrouped(Gate(p), r.prunes, d, write);
    } else {
      Regrouped(Gate(p), [], [], []);
    }
  }

  lemma SyncBody(c: Classified, sync: SyncReport, prunes: seq<Event>)
    requires SyncOk(c, sync) && Ranked(prunes, 3, 3)
    ensures IsBody(ApplyTrace(c.main, false, sync.outcomes) + PhaseTrace(PostSync, SortByWeight(c.post), sync.post)
              + prunes)
  {
    var b, d := ApplyTrace(c.main, false, sync.outcomes), PhaseTrace(PostSync, SortByWeight(c.post), sync.post);
    ApplyTraceMain(c.main, false, sync.outcomes);
    PhaseTraceRank(PostSync, SortByWeight(c.post), sync.post);
    OneRank(b, 1);
    OneRank(d, 2);
    OneRank(prunes, 3);
    OrderedConcat(b, d, 1, 1, 2);
    OrderedConcat(b + d, prunes, 1, 2, 4);
  }

  lemma Rebracket(a: seq<Event>, b: seq<Event>, c: seq<Event>, d: seq<Event>, e: seq<Event>)
    ensures a + b + c + d + e == a + (b + c + d) + e
  {
  }

  lemma SyncShape(p: Pass) returns (body: seq<Event>, write: seq<Event>)
    requires p.ReportOk() && p.report.Synced?
    ensures Shaped(p, p.Trace(), body, write)
  {
    var r, sync := p.report, p.report.sync;
    var b, d := ApplyTrace(p.c.main, false, sync.outcomes), PhaseTrace(PostSync, SortByWeight(p.c.post), sync.post);
    if PhaseOk(sync.pre) {
      PruneLogRank(r.prunes, AppliedBefore(p.prev), p.Keys(), p.stages.beforePrune);
      SyncBody(p.c, sync, r.prunes);
      body, write := b + d + r.prunes, [StateWrite(p.next, r.ok)];
      Rebracket(Gate(p), b, d, r.prunes, write);
    } else {
      body, write := [], [];
    }
  }

  lemma TraceShape(p: Pass) returns (body: seq<Event>, write: seq<Event>)
    requires p.ReportOk()
    ensures Shaped(p, p.Trace(), body, write)
  {
    match p.report
    case TornDown(_, _, _, _) => body, write := TeardownShape(p);
    case Synced(_, _, _) => body, write := SyncShape(p);
    case Stopped(_) => body, write := [], [];
    case Validated(outcomes) =>
      ApplyTraceMain(p.c.main, true, outcomes);
      OneRank(p.Trace(), 1);
      body, write := p.Trace(), [];
      assert p.Trace() == Gate(p) + body + write;
    case Untouched(prunes, ok) =>
      PruneLogRank(prunes, AppliedBefore(p.prev), p.Keys(), p.stages.beforePrune);
      body, write := prunes, [StateWrite(p.next, ok)];
      assert p.Trace() == Gate(p) + body + write;
  }

  /** The trace is its gate and a rest that makes no gating call. */
  lemma TraceParts(p: Pass) returns (rest: seq<Event>)
    requires p.ReportOk()
    ensures GateOk(p) && p.Trace() == Gate(p) + rest
    ensures Ordered(rest) && Ranked(rest, 1, 5)
    ensures rest != [] ==> PhaseOk(GateReports(p.report))
  {
    var body, write := TraceShape(p);
    OrderedConcat(body, write, 1, 4, 5);
    rest := body + write;
    assert Gate(p) + body + write == Gate(p) + rest;
  }

  /** A call beyond the gate has the whole gate before it. */
  lemma GateBefore(gate: seq<Event>, rest: seq<Event>, i: nat)
    requires Ranked(gate, 0, 0) && i < |gate + rest| && Rank((gate + rest)[i]) >= 1
    ensures forall e | e in gate :: e in (gate + rest)[..i]
  {
    assert i >= |gate|;
    assert (gate + rest)[..i] == gate + rest[..i - |gate|];
  }

  lemma GateOutcomes(phase: HookPhase, ordered: seq<HookInfo>, reports: seq<HookReport>, rest: seq<Event>)
    requires PhaseRank(phase) == 0 && |reports| <= |ordered| && PhaseOk(reports) && Ranked(rest, 1, 5)
    ensures forall e | e in PhaseTrace(phase, ordered, reports) + rest && e.HookDone? && e.phase == phase :: e.ok
  {
    forall e | e in PhaseTrace(phase, ordered, reports) && e.HookDone? ensures e.ok {
      PhaseTraceOk(phase, ordered, reports, e);
    }
  }

  lemma GateOfPhase(phase: HookPhase, hooks: seq<HookInfo>, envs: HookInfo -> HookEnv, reports: seq<HookReport>,
      rest: seq<Event>, i: nat)
    requires PhaseRank(phase) == 0 && PhaseReport(SortByWeight(hooks), reports) && PhaseOk(reports)
    requires AllCompletedAs(SortByWeight(hooks), envs, reports)
    requires i < |PhaseTrace(phase, SortByWeight(hooks), reports) + rest|
    requires Rank((PhaseTrace(phase, SortByWeight(hooks), reports) + rest)[i]) >= 1
    ensures forall h | h in hooks ::
              && HookDone(phase, HookKey(h), true) in (PhaseTrace(phase, SortByWeight(hooks), reports) + rest)[..i]
              && ApplyCall(ForHook(phase), HookKey(h), false, true)
                 in (PhaseTrace(phase, SortByWeight(hooks), reports) + rest)[..i]
              && HookSucceeds(h, envs(h))
  {
    PhaseTraceRank(phase, SortByWeight(hooks), reports);
    GateBefore(PhaseTrace(phase, SortByWeight(hooks), reports), rest, i);
    forall h | h in hooks
      ensures HookDone(phase, HookKey(h), true) in PhaseTrace(phase, SortByWeight(hooks), reports)
      ensures ApplyCall(ForHook(phase), HookKey(h), false, true) in PhaseTrace(phase, SortByWeight(hooks), reports)
      ensures HookSucceeds(h, envs(h))
    {
      PhaseComplete(phase, hooks, envs, reports, h);
    }
  }

  /******* Main results *******/

  /** In every pass: PreSync (or PreDelete) hooks, then main applies, then PostSync hooks, then prune,
      then PostDelete hooks, and the state write last. */
  lemma PassOrdered(p: Pass)
    requires p.Valid()
    ensures Ordered(p.Trace())
  {
    var rest := TraceParts(p);
    PhaseTraceRank(GateOf(p.report), SortByWeight(GateHooks(p)), GateReports(p.report));
    OneRank(Gate(p), 0);
    OrderedConcat(Gate(p), rest, 0, 1, 5);
  }

  /** The same, spelled out for two calls of a pass. */
  lemma PassSequence(p: Pass, i: nat, j: nat)
    requires p.Valid() && i < j < |p.Trace()|
    ensures var x, y := p.Trace()[i], p.Trace()[j];
            && (IsGating(y) ==> IsGating(x))
            && (OfMain(y) ==> IsGating(x) || OfMain(x))
            && (OfPrune(x) ==> OfPrune(y) || OfHook(y, PostDelete) || y.StateWrite?)
            && (OfHook(x, PostSync) ==> OfHook(y, PostSync) || OfPrune(y) || OfHook(y, PostDelete) || y.StateWrite?)
            && (OfHook(x, PostDelete) ==> OfHook(y, PostDelete) || y.StateWrite?)
            && !x.StateWrite?
  {
    PassOrdered(p);
    RankIff(p.Trace()[i]);
    RankIff(p.Trace()[j]);
    if p.Trace()[i].StateWrite? {
      StateWriteLast(p, i);
    }
  }

  lemma GateReportsCompleted(p: Pass)
    requires p.Valid()
    ensures AllCompletedAs(SortByWeight(GateHooks(p)), p.envs, GateReports(p.report))
  {
  }

  /** Where a pass has made a call that is not one of its gating hooks, all of those have been applied and
      have succeeded before it, as their own polls show, and none of them fails in the whole pass. */
  lemma GateHolds(p: Pass, i: nat)
    requires p.Valid() && i < |p.Trace()| && !IsGating(p.Trace()[i])
    ensures forall h | h in GateHooks(p) ::
              && HookDone(GateOf(p.report), KeyOf(h.manifest), true) in p.Trace()[..i]
              && ApplyCall(ForHook(GateOf(p.report)), KeyOf(h.manifest), false, true) in p.Trace()[..i]
              && HookSucceeds(h, p.envs(h))
    ensures forall e | e in p.Trace() && e.HookDone? && e.phase == GateOf(p.report) :: e.ok
  {
    var rest := TraceParts(p);
    PhaseTraceRank(GateOf(p.report), SortByWeight(GateHooks(p)), GateReports(p.report));
    RankIff(p.Trace()[i]);
    assert rest != [];
    GateReportsCompleted(p);
    GateOfPhase(GateOf(p.report), GateHooks(p), p.envs, GateReports(p.report), rest, i);
    GateOutcomes(GateOf(p.report), SortByWeight(GateHooks(p)), GateReports(p.report), rest);
  }

  /** A gating hook whose polls end with a failure, without its object, or past the timeout keeps the pass
      from every other call: no apply of a main resource, no prune, no other hook, and no state write. */
  lemma BadHookStops(p: Pass, h: HookInfo)
    requires p.Valid() && h in GateHooks(p)
    requires Awaited(h.manifest) && EndsBadly(h.manifest, p.envs(h).timeout, p.envs(h).wait)
    ensures forall e | e in p.Trace() :: IsGating(e)
    ensures !Completed(p.report) && ProblemOf(p.report) == Some(HookProblem(GateOf(p.report)))
  {
    if EndsWell(h.manifest, p.envs(h).timeout, p.envs(h).wait) {
      NotBoth(h.manifest, p.envs(h).timeout, p.envs(h).wait);
    }
    forall e | e in p.Trace() ensures IsGating(e) {
      var i :| 0 <= i < |p.Trace()| && p.Trace()[i] == e;
      if !IsGating(e) {
        GateHolds(p, i);
      }
    }
    GateReportsCompleted(p);
    if PhaseOk(GateReports(p.report)) {
      PhaseComplete(GateOf(p.report), GateHooks(p), p.envs, GateReports(p.report), h);
    }
    FailedGateEnds(p);
  }

  lemma FailedGateEnds(p: Pass)
    requires p.ReportOk() && !PhaseOk(GateReports(p.report))
    ensures !Completed(p.report) && ProblemOf(p.report) == Some(HookProblem(GateOf(p.report)))
  {
  }

  lemma FailedPhase(phase: HookPhase, ordered: seq<HookInfo>, reports: seq<HookReport>, rest: seq<Event>, e: Event)
    requires PhaseRank(phase) == 0 && |reports| <= |ordered|
    requires Ranked(rest, 1, 5) && (rest != [] ==> PhaseOk(reports))
    requires e in PhaseTrace(phase, ordered, reports) + rest && e.HookDone? && PhaseRank(e.phase) == 0 && !e.ok
    ensures !PhaseOk(reports)
    ensures Ranked(PhaseTrace(phase, ordered, reports) + rest, 0, 0)
  {
    var gate := PhaseTrace(phase, ordered, reports);
    PhaseTraceRank(phase, ordered, reports);
    assert forall x | x in rest :: Rank(x) >= 1;
    if PhaseOk(reports) {
      PhaseTraceOk(phase, ordered, reports, e);
    }
    assert gate + [] == gate;
  }

  /** A failed PreSync or PreDelete hook is followed by nothing but the end of the pass. */
  lemma FailedGateStops(p: Pass, e: Event)
    requires p.Valid() && e in p.Trace() && e.HookDone? && !e.ok
    requires e.phase == PreSync || e.phase == PreDelete
    ensures forall x | x in p.Trace() :: IsGating(x)
    ensures !Completed(p.report) && ProblemOf(p.report) == Some(HookProblem(GateOf(p.report)))
  {
    var rest := TraceParts(p);
    FailedPhase(GateOf(p.report), SortByWeight(GateHooks(p)), GateReports(p.report), rest, e);
    forall x | x in p.Trace() ensures IsGating(x) {
      RankIff(x);
    }
    FailedGateEnds(p);
  }

  lemma OnlyLastWrites(before: seq<Event>, write: seq<Event>, i: nat)
    requires Ranked(before, 0, 4) && |write| <= 1
    requires i < |before + write| && (before + write)[i].StateWrite?
    ensures i == |before + write| - 1 && write == [(before + write)[i]]
  {
    assert i >= |before|;
  }

  /** The state is written at most once, and nothing comes after it. */
  lemma StateWriteLast(p: Pass, i: nat)
    requires p.Valid() && i < |p.Trace()| && p.Trace()[i].StateWrite?
    ensures i == |p.Trace()| - 1 && Completed(p.report) && p.Trace()[i].state == p.next
  {
    var body, write := TraceShape(p);
    PhaseTraceRank(GateOf(p.report), SortByWeight(GateHooks(p)), GateReports(p.report));
    OneRank(Gate(p), 0);
    OrderedConcat(Gate(p), body, 0, 1, 4);
    OnlyLastWrites(Gate(p) + body, write, i);
  }

  /** A dry run makes only dry-run applies of main resources and changes nothing. */
  lemma DryRunHarmless(p: Pass)
    requires p.Valid() && p.dryRun
    ensures forall e | e in p.Trace() :: e.ApplyCall? && e.purpose == ForMain && e.dryRun
    ensures p.end == p.start && !Completed(p.report)
  {
    if p.report.Validated? {
      ApplyTraceMain(p.c.main, true, p.report.outcomes);
    }
  }
}

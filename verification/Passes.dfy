/** Sequences of passes by one process, and what they leave in the persisted state. */
module Passes {

  import opened Wrappers
  import opened Manifest
  import opened Kube
  import opened Hooks
  import opened Cluster
  import opened HookRunner
  import opened Prune
  import opened Sync
  import opened Reconcile

  /** How acquiring the reconcile Lease ended. */
  datatype Grant = Granted | HeldByOther | LeaseError

  /** What one pass came to; `landed` is whether its final state write took effect. */
  datatype Outcome = Skipped | NoLease | Ran(p: Pass, landed: bool)

  function ErrorState(stored: Option<State>, problem: Problem): State {
    var s := stored.GetOr(DEFAULT_STATE);
    s.(lastError := Some(problem), syncCount := SaturatingIncrement(s.syncCount))
  }

  /** The error was recorded, or recording it failed. */
  predicate Recorded(before: Option<State>, problem: Problem, after: Option<State>) {
    after == before || after == Some(ErrorState(before, problem))
  }

  /** What recording an error logs: at most the write of the state with the error. */
  ghost predicate ErrorLog(events: seq<Event>, before: Option<State>, problem: Problem) {
    events == [] || exists ok :: events == [StateWrite(ErrorState(before, problem), ok)]
  }

  method RecordError(w: World, problem: Problem) returns (ghost events: seq<Event>)
    modifies w`stored, w`faults, w`log
    ensures w.log == old(w.log) + events && ErrorLog(events, old(w.stored), problem)
    ensures Recorded(old(w.stored), problem, w.stored)
    ensures w.faults == old(w.faults) ==>
              w.stored == Some(ErrorState(old(w.stored), problem)) && events == [StateWrite(w.stored.value, true)]
    ensures w.stored == old(w.stored)
            || var s := old(w.stored).GetOr(State(None, 0, None, 0, 0, [], []));
               w.stored == Some(State(s.lastSha, OneMore(old(w.stored)), Some(problem), s.driftCount, s.managedCount,
                                      s.applied, s.applyFailures))
    ensures w.faults >= old(w.faults)
  {
    events := [];
    var read := w.ReadState();
    if read.Unavailable? {
      return;
    }
    var s := if read.Found? then read.value else DEFAULT_STATE;
    var next := s.(lastError := Some(problem), syncCount := SaturatingIncrement(s.syncCount));
    assert next == ErrorState(w.stored, problem);
    var ok := w.WriteState(next);
    events := [StateWrite(next, ok)];
  }

  /** What the pass proper leaves in the persisted state. */
  function AfterPass(before: Option<State>, o: Outcome): Option<State> {
    if o.Ran? && o.landed then Some(o.p.next) else before
  }

  function ProblemIn(o: Outcome): Option<Problem> {
    match o
    case Skipped => None
    case NoLease => Some(LeaseFailed)
    case Ran(p, _) => ProblemOf(p.report)
  }

  /** The effect of one recorded pass on the persisted state. Only a pass that reached its state write
      can have landed it, and one that reports no problem and is no dry run has. */
  ghost predicate PassStep(before: Option<State>, o: Outcome, after: Option<State>) {
    && (o.Ran? ==> o.p.Valid() && o.p.prev == before)
    && (o.Ran? && o.landed ==> Completed(o.p.report))
    && (o.Ran? && ProblemIn(o).None? && !o.p.report.Validated? ==> o.landed)
    && (if ProblemIn(o).Some? then Recorded(AfterPass(before, o), ProblemIn(o).value, after)
        else after == AfterPass(before, o))
  }

  /** The calls of the pass itself. */
  function TraceOf(o: Outcome): seq<Event>
    requires o.Ran? ==> o.p.ReportOk()
  {
    if o.Ran? then o.p.Trace() else []
  }

  /** One pass under the Lease. */
  method RunGranted(w: World, forced: bool, dryRun: bool, checkout: Checkout, envs: HookInfo -> HookEnv)
    returns (problem: Option<Problem>, ghost o: Outcome)
    modifies w`live, w`stored, w`faults, w`log
    ensures w.faults >= old(w.faults)
    ensures o.Ran? && w.stored == AfterPass(old(w.stored), o) && problem == ProblemIn(o)
    ensures PassOf(o.p, w.settings, old(w.stored), checkout, forced, dryRun, envs, old(w.live), w.live, o.p.clean)
    ensures (w.faults == old(w.faults) ==> o.p.clean) && ServedBy(o.p, w.server)
    ensures o.landed ==> Completed(o.p.report)
    ensures problem.None? && !o.p.report.Validated? ==> o.landed
    ensures w.log == old(w.log) + o.p.Trace()
    ensures RejectedInput(old(w.stored), checkout) ==>
              problem.Some? && !o.landed && w.live == old(w.live) && o.p.Trace() == []
  {
    ghost var p;
    problem, p := ReconcileInner(w, forced, dryRun, checkout, envs);
    o := Ran(p, Completed(p.report) && w.stored == Some(p.next));
    if RejectedInput(p.prev, checkout) {
      RejectedInputStops(p);
    }
  }

  /** One pass of the controller or of a rollback; an error is recorded after the Lease is released. */
  method RunOnce(w: World, grant: Grant, forced: bool, dryRun: bool, checkout: Checkout, envs: HookInfo -> HookEnv)
    returns (problem: Option<Problem>, ghost o: Outcome, ghost recorded: seq<Event>)
    modifies w`live, w`stored, w`faults, w`log
    ensures w.faults >= old(w.faults)
    ensures PassStep(old(w.stored), o, w.stored)
    ensures problem == ProblemIn(o)
    ensures grant.HeldByOther? <==> o.Skipped?
    ensures grant.Granted? <==> o.Ran?
    ensures o.Ran? ==>
              PassOf(o.p, w.settings, old(w.stored), checkout, forced, dryRun, envs, old(w.live), w.live,
                     o.p.clean)
              && (w.faults == old(w.faults) ==> o.p.clean) && ServedBy(o.p, w.server)
    ensures !o.Ran? ==> w.live == old(w.live)
    ensures problem.Some? && w.faults == old(w.faults) ==>
              && w.stored == Some(ErrorState(AfterPass(old(w.stored), o), problem.value))
              && w.stored.value.lastError == problem && recorded == [StateWrite(w.stored.value, true)]
    ensures RejectedInput(old(w.stored), checkout) ==>
              && w.live == old(w.live) && ProgressOf(w.stored) == ProgressOf(old(w.stored))
              && w.log == old(w.log) + recorded && (grant.Granted? ==> problem.Some?)
    ensures w.log == old(w.log) + TraceOf(o) + recorded
    ensures if problem.None? then recorded == [] else ErrorLog(recorded, AfterPass(old(w.stored), o), problem.value)
  {
    recorded := [];
    match grant {
      case HeldByOther =>
        problem, o := None, Skipped;
      case LeaseError =>
        problem, o := Some(LeaseFailed), NoLease;
        recorded := RecordError(w, LeaseFailed);
      case Granted =>
        problem, o := RunGranted(w, forced, dryRun, checkout, envs);
        if problem.Some? {
          recorded := RecordError(w, problem.value);
        }
    }
  }

  /** A dry run goes through the Lease too, but records nothing. */
  method DryRunOnce(w: World, grant: Grant, checkout: Checkout, envs: HookInfo -> HookEnv)
      returns (problem: Option<Problem>)
    modifies w`live, w`stored, w`faults, w`log
    ensures w.live == old(w.live) && w.stored == old(w.stored)
  {
    match grant {
      case HeldByOther =>
        return None;
      case LeaseError =>
        return Some(LeaseFailed);
      case Granted =>
        ghost var p;
        problem, p := ReconcileInner(w, false, true, checkout, envs);
    }
  }

  /******* Progress *******/

  /** What decides how much the next pass does. */
  datatype Progress = Progress(sha: Option<string>, applied: seq<ResourceKey>)

  function ProgressOf(s: Option<State>): Progress {
    Progress(s.GetOr(DEFAULT_STATE).lastSha, s.GetOr(DEFAULT_STATE).applied)
  }

  predicate Landed(o: Outcome) {
    o.Ran? && o.landed
  }

  /** What a landed pass leaves: its commit and its main keys. */
  function ProgressMade(o: Outcome): Progress
    requires o.Ran? && o.p.checkout.CheckedOut?
  {
    Progress(Some(o.p.checkout.sha), o.p.Keys())
  }

  lemma StepProgress(before: Option<State>, o: Outcome, after: Option<State>)
    requires PassStep(before, o, after)
    ensures Landed(o) ==> o.p.checkout.CheckedOut? && ProgressOf(after) == ProgressMade(o)
    ensures !Landed(o) ==> ProgressOf(after) == ProgressOf(before)
  {
  }

  /** The stored state before and after each of a sequence of passes. */
  ghost predicate IsRun(states: seq<Option<State>>, outcomes: seq<Outcome>) {
    && |states| == |outcomes| + 1
    && forall i | 0 <= i < |outcomes| :: PassStep(states[i], outcomes[i], states[i + 1])
  }

  /** Over passes that completed, failed, were skipped or were rollbacks, in any order: as long as no
      state write lands, progress stays what it was. */
  lemma {:induction false} ProgressKept(states: seq<Option<State>>, outcomes: seq<Outcome>, i: nat, j: nat)
    requires IsRun(states, outcomes) && i <= j <= |outcomes|
    requires forall k | i <= k < j :: !Landed(outcomes[k])
    ensures ProgressOf(states[j]) == ProgressOf(states[i])
    decreases j - i
  {
    if i < j {
      StepProgress(states[i], outcomes[i], states[i + 1]);
      ProgressKept(states, outcomes, i + 1, j);
    }
  }

  /** Progress is that of the latest pass whose state write landed. */
  lemma ProgressIsLatestLanded(states: seq<Option<State>>, outcomes: seq<Outcome>, i: nat, j: nat)
    requires IsRun(states, outcomes) && i < j <= |outcomes|
    requires Landed(outcomes[i]) && forall k | i < k < j :: !Landed(outcomes[k])
    ensures outcomes[i].p.checkout.CheckedOut? && ProgressOf(states[j]) == ProgressMade(outcomes[i])
  {
    StepProgress(states[i], outcomes[i], states[i + 1]);
    ProgressKept(states, outcomes, i + 1, j);
  }

  /** The branch pass `j` took, if it got that far. */
  predicate Took(o: Outcome, branch: Branch) {
    o.Ran? && !o.p.report.Stopped? && o.p.checkout.CheckedOut?
    && BranchOf(o.p.prev, o.p.checkout.sha, o.p.forced, o.p.dryRun, o.p.c.main) == branch
  }

  /** A pass does less than a full apply only at the commit of the latest landed pass: after a rollback,
      a failed hook or an unacknowledged write that did not land, a pass at any other commit applies all
      of it or tears everything down. */
  lemma DriftCheckOnlyAtLanded(states: seq<Option<State>>, outcomes: seq<Outcome>, i: nat, j: nat)
    requires IsRun(states, outcomes) && i < j < |outcomes|
    requires Landed(outcomes[i]) && forall k | i < k < j :: !Landed(outcomes[k])
    requires Took(outcomes[j], DriftCheck)
    ensures outcomes[i].p.checkout.CheckedOut? && outcomes[j].p.checkout.sha == outcomes[i].p.checkout.sha
    ensures outcomes[j].p.c.main == [] ==> outcomes[i].p.c.main == []
  {
    ProgressIsLatestLanded(states, outcomes, i, j);
    assert PassStep(states[j], outcomes[j], states[j + 1]);
    DriftCheckIff(states[j], outcomes[j].p.checkout.sha, outcomes[j].p.forced, outcomes[j].p.dryRun,
        outcomes[j].p.c.main);
  }

  /** Until a state write lands, a deployment that started from nothing never merely checks. */
  lemma NoDriftCheckBeforeLanding(states: seq<Option<State>>, outcomes: seq<Outcome>, j: nat)
    requires IsRun(states, outcomes) && j < |outcomes|
    requires states[0].None? && forall k | 0 <= k < j :: !Landed(outcomes[k])
    ensures !Took(outcomes[j], DriftCheck)
  {
    ProgressKept(states, outcomes, 0, j);
    assert PassStep(states[j], outcomes[j], states[j + 1]);
  }

  /** A pass that set out to apply everything and did not land its state is followed by passes that do
      the same (or tear down) at that commit until one lands. */
  lemma UnlandedIsRetried(states: seq<Option<State>>, outcomes: seq<Outcome>, i: nat, j: nat)
    requires IsRun(states, outcomes) && i < j < |outcomes|
    requires Took(outcomes[i], FullApply) && !outcomes[i].p.forced
    requires forall k | i <= k < j :: !Landed(outcomes[k])
    requires outcomes[j].Ran? && outcomes[j].p.checkout == outcomes[i].p.checkout
    ensures !Took(outcomes[j], DriftCheck)
  {
    ProgressKept(states, outcomes, i, j);
    assert PassStep(states[i], outcomes[i], states[i + 1]);
    assert PassStep(states[j], outcomes[j], states[j + 1]);
  }
}

/** The health assessment of `src/resource_health.rs`: the fold over managed resources and the Job check.
    The other per-kind checks are a parameter. */
module Health {

  import opened Wrappers
  import opened Json
  import opened Manifest
  import opened Kube
  import opened Drift

  datatype Code = Healthy | Progressing | Degraded | Suspended | Missing | Unknown

  datatype HealthStatus = HealthStatus(status: Code, message: string)

  const HEALTH_ORDER: seq<Code> := [Healthy, Suspended, Progressing, Missing, Degraded, Unknown]

  /** The position of a status in the worst-last order. */
  function Rank(c: Code): (r: nat)
    ensures r < |HEALTH_ORDER| && HEALTH_ORDER[r] == c
  {
    match c
    case Healthy => 0
    case Suspended => 1
    case Progressing => 2
    case Missing => 3
    case Degraded => 4
    case Unknown => 5
  }

  predicate IsWorse(current: Code, candidate: Code) {
    Rank(candidate) > Rank(current)
  }

  /** No two statuses share a rank, so the worst status is determined by the rank order alone. */
  lemma RankInjective(a: Code, b: Code)
    ensures Rank(a) == Rank(b) <==> a == b
  {
  }

  /** From best to worst. */
  lemma WorseChain()
    ensures IsWorse(Healthy, Suspended) && IsWorse(Suspended, Progressing) && IsWorse(Progressing, Missing)
    ensures IsWorse(Missing, Degraded) && IsWorse(Degraded, Unknown)
    ensures forall a, b, c :: IsWorse(a, b) && IsWorse(b, c) ==> IsWorse(a, c)
    ensures forall a :: !IsWorse(a, a)
  {
  }

  /******* Jobs *******/

  /** The condition is true and of this type. */
  predicate TrueOf(c: Json, conditionType: string) {
    GetStr(c, "status") == Some("True") && GetStr(c, "type").GetOr("") == conditionType
  }

  predicate Decides(c: Json) {
    TrueOf(c, "Complete") || TrueOf(c, "Failed") || TrueOf(c, "Suspended")
  }

  predicate SomeTrue(conds: seq<Json>, conditionType: string) {
    exists c | c in conds :: TrueOf(c, conditionType)
  }

  function JobConditions(o: DynObj): seq<Json> {
    match Get(Get(o.value, "status").GetOr(Null), "conditions")
    case Some(Arr(conds)) => conds
    case _ => []
  }

  /** The object has a condition of this type whose status is `True`. */
  ghost predicate Reports(o: DynObj, conditionType: string) {
    match Get(Get(o.value, "status").GetOr(Null), "conditions")
    case Some(Arr(conds)) =>
      exists i | 0 <= i < |conds| ::
        Get(conds[i], "type") == Some(Str(conditionType)) && Get(conds[i], "status") == Some(Str("True"))
    case _ => false
  }

  lemma ReportsIff(o: DynObj, conditionType: string)
    requires conditionType != ""
    ensures SomeTrue(JobConditions(o), conditionType) <==> Reports(o, conditionType)
  {
    var conds := JobConditions(o);
    forall c ensures TrueOf(c, conditionType) <==>
                       Get(c, "type") == Some(Str(conditionType)) && Get(c, "status") == Some(Str("True"))
    {
    }
    if SomeTrue(conds, conditionType) {
      var c :| c in conds && TrueOf(c, conditionType);
      var i :| 0 <= i < |conds| && conds[i] == c;
    }
  }

  /** What the conditions of a Job mean, whatever their order. */
  function JobCode(conds: seq<Json>): Code {
    if SomeTrue(conds, "Failed") then Degraded
    else if SomeTrue(conds, "Suspended") then Suspended
    else if SomeTrue(conds, "Complete") then Healthy
    else Progressing
  }

  /** The message of the last true condition of a known type. */
  function JobMessage(conds: seq<Json>): string {
    if conds == [] then ""
    else
      var last := conds[|conds| - 1];
      if Decides(last) then GetStr(last, "message").GetOr("") else JobMessage(conds[..|conds| - 1])
  }

  /** The message is that of the last condition that decides, if there is one. */
  lemma {:induction false} JobMessageIff(conds: seq<Json>)
    ensures (forall i | 0 <= i < |conds| :: !Decides(conds[i])) ==> JobMessage(conds) == ""
    ensures forall i | 0 <= i < |conds| && Decides(conds[i]) && (forall j | i < j < |conds| :: !Decides(conds[j])) ::
              JobMessage(conds) == GetStr(conds[i], "message").GetOr("")
  {
    if conds != [] {
      JobMessageIff(conds[..|conds| - 1]);
    }
  }

  function JobSpec(o: DynObj): HealthStatus {
    HealthStatus(JobCode(JobConditions(o)), JobMessage(JobConditions(o)))
  }

  lemma SomeTruePush(conds: seq<Json>, c: Json, conditionType: string)
    ensures SomeTrue(conds + [c], conditionType) <==> SomeTrue(conds, conditionType) || TrueOf(c, conditionType)
  {
    assert c in conds + [c];
    if SomeTrue(conds, conditionType) {
      var w :| w in conds && TrueOf(w, conditionType);
      assert w in conds + [c];
    }
  }

  /** What the flags of the loop stand for after some conditions. */
  predicate Flags(conds: seq<Json>, failed: bool, complete: bool, suspended: bool, message: string) {
    && failed == SomeTrue(conds, "Failed")
    && suspended == SomeTrue(conds, "Suspended")
    && complete == (SomeTrue(conds, "Complete") || failed || suspended)
    && message == JobMessage(conds)
  }

  lemma FlagsPush(conds: seq<Json>, failed: bool, complete: bool, suspended: bool, message: string, c: Json)
    requires Flags(conds, failed, complete, suspended, message)
    ensures Flags(conds + [c], failed || TrueOf(c, "Failed"), complete || Decides(c),
                  suspended || TrueOf(c, "Suspended"),
                  if Decides(c) then GetStr(c, "message").GetOr("") else message)
  {
    SomeTruePush(conds, c, "Failed");
    SomeTruePush(conds, c, "Suspended");
    SomeTruePush(conds, c, "Complete");
    assert (conds + [c])[..|conds|] == conds;
  }

  method JobHealth(o: DynObj) returns (h: HealthStatus)
    ensures h == JobSpec(o)
    ensures h.status == (if Reports(o, "Failed") then Degraded else if Reports(o, "Suspended") then Suspended
                         else if Reports(o, "Complete") then Healthy else Progressing)
  {
    var failed, complete, suspended, message := false, false, false, "";
    var conds := JobConditions(o);
    for i := 0 to |conds|
      invariant Flags(conds[..i], failed, complete, suspended, message)
    {
      var c := conds[i];
      assert conds[..i + 1] == conds[..i] + [c];
      FlagsPush(conds[..i], failed, complete, suspended, message, c);
      if GetStr(c, "status") != Some("True") {
        continue;
      }
      var t := GetStr(c, "type").GetOr("");
      if t == "Complete" {
        complete := true;
        message := GetStr(c, "message").GetOr("");
      } else if t == "Failed" {
        failed, complete := true, true;
        message := GetStr(c, "message").GetOr("");
      } else if t == "Suspended" {
        suspended, complete := true, true;
        message := GetStr(c, "message").GetOr("");
      }
    }
    assert conds[..|conds|] == conds;
    ReportsIff(o, "Failed");
    ReportsIff(o, "Suspended");
    ReportsIff(o, "Complete");
    h := HealthStatus(
      if !complete then Progressing else if failed then Degraded else if suspended then Suspended else Healthy,
      message);
  }

  /** The status of a Job does not depend on the order of its conditions. */
  lemma JobCodeOrderless(xs: seq<Json>, ys: seq<Json>)
    requires multiset(xs) == multiset(ys)
    ensures JobCode(xs) == JobCode(ys)
  {
    forall t ensures SomeTrue(xs, t) <==> SomeTrue(ys, t) {
      assert forall c :: c in xs <==> c in multiset(xs);
      assert forall c :: c in ys <==> c in multiset(ys);
    }
  }

  /******* One resource *******/

  const CHECKED_KINDS: set<(string, string)> := {
    ("apps", "Deployment"), ("apps", "StatefulSet"), ("apps", "ReplicaSet"), ("apps", "DaemonSet"),
    ("", "Pod"), ("batch", "Job"), ("", "Service"), ("networking.k8s.io", "Ingress"), ("extensions", "Ingress"),
    ("", "PersistentVolumeClaim"), ("autoscaling", "HorizontalPodAutoscaler"),
    ("apiregistration.k8s.io", "APIService"), ("argoproj.io", "Workflow")
  }

  predicate HasHealthCheck(group: string, kind: string) {
    (group, kind) in CHECKED_KINDS
  }

  /** The checks other than the one for Jobs. */
  type Checks = (string, string, DynObj) -> HealthStatus

  function ResourceHealth(group: string, kind: string, o: DynObj, checks: Checks): Option<HealthStatus> {
    if o.deleting then Some(HealthStatus(Progressing, "Pending deletion"))
    else if !HasHealthCheck(group, kind) then None
    else if (group, kind) == ("batch", "Job") then Some(JobSpec(o))
    else Some(checks(group, kind, o))
  }

  method GetResourceHealth(group: string, kind: string, o: DynObj, checks: Checks) returns (h: Option<HealthStatus>)
    ensures h == ResourceHealth(group, kind, o, checks)
  {
    if o.deleting {
      return Some(HealthStatus(Progressing, "Pending deletion"));
    }
    if !HasHealthCheck(group, kind) {
      return None;
    }
    if (group, kind) == ("batch", "Job") {
      var j := JobHealth(o);
      return Some(j);
    }
    return Some(checks(group, kind, o));
  }

  /******* The fold *******/

  datatype Summary = Summary(
    worst: Option<Code>,
    worstMessage: Option<string>,
    healthy: nat, progressing: nat, degraded: nat, suspended: nat, missing: nat, unknown: nat)
  {
    function Count(c: Code): nat {
      match c
      case Healthy => healthy
      case Progressing => progressing
      case Degraded => degraded
      case Suspended => suspended
      case Missing => missing
      case Unknown => unknown
    }

    function Bump(c: Code): Summary {
      match c
      case Healthy => this.(healthy := healthy + 1)
      case Progressing => this.(progressing := progressing + 1)
      case Degraded => this.(degraded := degraded + 1)
      case Suspended => this.(suspended := suspended + 1)
      case Missing => this.(missing := missing + 1)
      case Unknown => this.(unknown := unknown + 1)
    }
  }

  const EMPTY_SUMMARY := Summary(None, None, 0, 0, 0, 0, 0, 0)

  /** The health entry of a manifest, if it gives one. */
  function Entry(m: RawManifest, live: seq<DynObj>, checks: Checks): Option<HealthStatus> {
    match FindLiveMatch(m, live)
    case None => if HasHealthCheck(m.group, m.kind) then Some(HealthStatus(Missing, "")) else None
    case Some(o) => ResourceHealth(m.group, m.kind, o, checks)
  }

  /** The kinds with a built-in check. */
  ghost predicate Checked(group: string, kind: string) {
    match group
    case "" => kind in {"Pod", "Service", "PersistentVolumeClaim"}
    case "apps" => kind in {"Deployment", "StatefulSet", "ReplicaSet", "DaemonSet"}
    case "batch" => kind == "Job"
    case "networking.k8s.io" => kind == "Ingress"
    case "extensions" => kind == "Ingress"
    case "autoscaling" => kind == "HorizontalPodAutoscaler"
    case "apiregistration.k8s.io" => kind == "APIService"
    case "argoproj.io" => kind == "Workflow"
    case _ => false
  }

  /** A resource counts as missing exactly when its kind is checked and nothing live has its name and
      namespace, as progressing while it is being deleted, and as its check says otherwise. */
  lemma EntryIff(m: RawManifest, live: seq<DynObj>, checks: Checks)
    ensures var found := FindLiveMatch(m, live);
            && (found.None? ==> Entry(m, live, checks)
                                == if Checked(m.group, m.kind) then Some(HealthStatus(Missing, "")) else None)
            && (found.Some? && found.value.deleting ==>
                  Entry(m, live, checks) == Some(HealthStatus(Progressing, "Pending deletion")))
            && (found.Some? && !found.value.deleting ==>
                  Entry(m, live, checks)
                  == if !Checked(m.group, m.kind) then None
                     else if m.group == "batch" then Some(JobSpec(found.value))
                     else Some(checks(m.group, m.kind, found.value)))
  {
  }

  function Entries(ms: seq<RawManifest>, live: seq<DynObj>, checks: Checks): seq<HealthStatus> {
    if ms == [] then []
    else Entries(ms[..|ms| - 1], live, checks) + Singleton(Entry(ms[|ms| - 1], live, checks))
  }

  /** The entries follow the order of the manifests. */
  lemma {:induction false} EntriesSplit(ms: seq<RawManifest>, ns: seq<RawManifest>, live: seq<DynObj>, checks: Checks)
    ensures Entries(ms + ns, live, checks) == Entries(ms, live, checks) + Entries(ns, live, checks)
    decreases |ns|
  {
    if ns == [] {
      assert ms + ns == ms;
    } else {
      var n := |ns| - 1;
      EntriesSplit(ms, ns[..n], live, checks);
      AppendLast(ms, ns);
      Associative(Entries(ms, live, checks), Entries(ns[..n], live, checks), Singleton(Entry(ns[n], live, checks)));
    }
  }

  lemma EntriesOfOne(m: RawManifest, live: seq<DynObj>, checks: Checks)
    ensures Entries([m], live, checks) == Singleton(Entry(m, live, checks))
  {
    assert [m][..0] == [];
  }

  function Codes(entries: seq<HealthStatus>): multiset<Code> {
    if entries == [] then multiset{}
    else Codes(entries[..|entries| - 1]) + multiset{entries[|entries| - 1].status}
  }

  /** Entry `i` has the worst status, and is the first to have it. */
  predicate FirstWorst(entries: seq<HealthStatus>, i: nat) {
    && i < |entries|
    && (forall j | 0 <= j < |entries| :: Rank(entries[j].status) <= Rank(entries[i].status))
    && (forall j | 0 <= j < i :: Rank(entries[j].status) < Rank(entries[i].status))
  }

  /** Exact counts, and the worst status with the message of the first resource that has it. */
  predicate Summarises(s: Summary, entries: seq<HealthStatus>) {
    && (forall c: Code :: s.Count(c) == Codes(entries)[c])
    && (if entries == [] then s.worst.None? && s.worstMessage.None?
        else exists i | 0 <= i < |entries| ::
          FirstWorst(entries, i) && s.worst == Some(entries[i].status) && s.worstMessage == Some(entries[i].message))
  }

  lemma CodesPush(entries: seq<HealthStatus>, h: HealthStatus)
    ensures Codes(entries + [h]) == Codes(entries) + multiset{h.status}
  {
    assert (entries + [h])[..|entries|] == entries;
  }

  /** One more entry replaces the worst exactly when it is worse. */
  lemma FirstWorstPush(entries: seq<HealthStatus>, h: HealthStatus, i: nat)
    requires FirstWorst(entries, i)
    ensures if IsWorse(entries[i].status, h.status) then FirstWorst(entries + [h], |entries|)
            else FirstWorst(entries + [h], i)
  {
    var all := entries + [h];
    assert forall j | 0 <= j < |entries| :: all[j] == entries[j];
    assert all[|entries|] == h;
  }

  /** Where the fold stands: `s` has the counts so far, `worst` and `message` the first worst entry. */
  ghost predicate Folded(s: Summary, worst: Option<Code>, message: string, entries: seq<HealthStatus>, first: nat) {
    && s.worst.None? && s.worstMessage.None?
    && (forall c: Code :: s.Count(c) == Codes(entries)[c])
    && (worst.None? <==> entries == [])
    && (entries != [] ==>
          FirstWorst(entries, first) && worst == Some(entries[first].status) && message == entries[first].message)
  }

  lemma BumpCounts(s: Summary, h: Code, c: Code)
    ensures s.Bump(h).Count(c) == s.Count(c) + if c == h then 1 else 0
    ensures s.Bump(h).worst == s.worst && s.Bump(h).worstMessage == s.worstMessage
  {
  }

  lemma FoldedBump(s: Summary, worst: Option<Code>, message: string, entries: seq<HealthStatus>, first: nat,
      h: HealthStatus)
    requires Folded(s, worst, message, entries, first)
    ensures if worst.None? || IsWorse(worst.value, h.status)
            then Folded(s.Bump(h.status), Some(h.status), h.message, entries + [h], |entries|)
            else Folded(s.Bump(h.status), worst, message, entries + [h], first)
  {
    CodesPush(entries, h);
    var t := s.Bump(h.status);
    BumpCounts(s, h.status, h.status);
    forall c: Code ensures t.Count(c) == Codes(entries + [h])[c] {
      BumpCounts(s, h.status, c);
    }
    if entries == [] {
      assert FirstWorst([h], 0);
      assert entries + [h] == [h];
    } else {
      FirstWorstPush(entries, h, first);
    }
  }

  lemma FoldedFinish(s: Summary, worst: Option<Code>, message: string, entries: seq<HealthStatus>, first: nat)
    requires Folded(s, worst, message, entries, first)
    ensures Summarises(s.(worst := worst, worstMessage := if worst.Some? then Some(message) else None), entries)
  {
    var done := s.(worst := worst, worstMessage := if worst.Some? then Some(message) else None);
    forall c: Code ensures done.Count(c) == Codes(entries)[c] {
      assert done.Count(c) == s.Count(c);
    }
  }

  method Assess(ms: seq<RawManifest>, live: seq<DynObj>, checks: Checks) returns (s: Summary)
    ensures Summarises(s, Entries(ms, live, checks))
  {
    s := EMPTY_SUMMARY;
    var worst: Option<Code>, worstMessage := None, "";
    ghost var entries: seq<HealthStatus>, first: nat := [], 0;
    for k := 0 to |ms|
      invariant entries == Entries(ms[..k], live, checks)
      invariant Folded(s, worst, worstMessage, entries, first)
    {
      var m := ms[k];
      assert ms[..k + 1][..k] == ms[..k];
      var entry: Option<HealthStatus>;
      var found := FindLiveMatch(m, live);
      if found.None? {
        entry := if HasHealthCheck(m.group, m.kind) then Some(HealthStatus(Missing, "")) else None;
      } else {
        entry := GetResourceHealth(m.group, m.kind, found.value, checks);
      }
      if entry.Some? {
        var h := entry.value;
        FoldedBump(s, worst, worstMessage, entries, first, h);
        s := s.Bump(h.status);
        if worst.None? || IsWorse(worst.value, h.status) {
          worst, worstMessage := Some(h.status), h.message;
          first := |entries|;
        }
        entries := entries + [h];
      }
    }
    assert ms[..|ms|] == ms;
    FoldedFinish(s, worst, worstMessage, entries, first);
    s := s.(worst := worst, worstMessage := if worst.Some? then Some(worstMessage) else None);
  }

  /******* What the summary depends on *******/

  lemma {:induction false} CodesTotal(entries: seq<HealthStatus>)
    ensures |Codes(entries)| == |entries|
    ensures forall c :: c in Codes(entries) <==> exists i | 0 <= i < |entries| :: entries[i].status == c
  {
    if entries != [] {
      var last := |entries| - 1;
      CodesTotal(entries[..last]);
      assert entries == entries[..last] + [entries[last]];
    }
  }

  lemma CardinalitySplits(b: multiset<Code>)
    ensures |b| == b[Healthy] + b[Progressing] + b[Degraded] + b[Suspended] + b[Missing] + b[Unknown]
  {
    var b1 := b[Healthy := 0];
    var b2 := b1[Progressing := 0];
    var b3 := b2[Degraded := 0];
    var b4 := b3[Suspended := 0];
    var b5 := b4[Missing := 0];
    var rest := b5[Unknown := 0];
    assert |rest| == |b| - b[Healthy] - b[Progressing] - b[Degraded] - b[Suspended] - b[Missing] - b[Unknown];
    forall c: Code ensures rest[c] == 0 {
      match c
      case Healthy =>
      case Progressing =>
      case Degraded =>
      case Suspended =>
      case Missing =>
      case Unknown =>
    }
    assert rest == multiset{};
  }

  /** The counts add up to the number of resources that gave an entry. */
  lemma CountsAddUp(s: Summary, entries: seq<HealthStatus>)
    requires Summarises(s, entries)
    ensures s.healthy == Codes(entries)[Healthy] && s.progressing == Codes(entries)[Progressing]
            && s.degraded == Codes(entries)[Degraded] && s.suspended == Codes(entries)[Suspended]
            && s.missing == Codes(entries)[Missing] && s.unknown == Codes(entries)[Unknown]
    ensures s.healthy + s.progressing + s.degraded + s.suspended + s.missing + s.unknown == |entries|
  {
    CodesTotal(entries);
    CardinalitySplits(Codes(entries));
    assert s.Count(Healthy) == s.healthy && s.Count(Progressing) == s.progressing && s.Count(Degraded) == s.degraded
           && s.Count(Suspended) == s.suspended && s.Count(Missing) == s.missing && s.Count(Unknown) == s.unknown;
  }

  /** The worst status is the worst code counted: nothing else in the entries matters. */
  lemma WorstFromCodes(s: Summary, entries: seq<HealthStatus>)
    requires Summarises(s, entries)
    ensures s.worst.None? <==> Codes(entries) == multiset{}
    ensures s.worst.Some? ==> s.worst.value in Codes(entries) && forall c | c in Codes(entries) ::
              Rank(c) <= Rank(s.worst.value)
  {
    CodesTotal(entries);
  }

  function CodeBag(ms: seq<RawManifest>, live: seq<DynObj>, checks: Checks): multiset<Code> {
    Codes(Entries(ms, live, checks))
  }

  function CodeOf(m: RawManifest, live: seq<DynObj>, checks: Checks): multiset<Code> {
    match Entry(m, live, checks)
    case None => multiset{}
    case Some(h) => multiset{h.status}
  }

  lemma CodeBagPush(ms: seq<RawManifest>, m: RawManifest, live: seq<DynObj>, checks: Checks)
    ensures CodeBag(ms + [m], live, checks) == CodeBag(ms, live, checks) + CodeOf(m, live, checks)
  {
    assert (ms + [m])[..|ms|] == ms;
    match Entry(m, live, checks)
    case None =>
      assert Entries(ms, live, checks) + [] == Entries(ms, live, checks);
    case Some(h) =>
      CodesPush(Entries(ms, live, checks), h);
  }

  lemma {:induction false} CodeBagAround(
      front: seq<RawManifest>, m: RawManifest, back: seq<RawManifest>, live: seq<DynObj>, checks: Checks)
    ensures CodeBag(front + [m] + back, live, checks) == CodeBag(front + back, live, checks) + CodeOf(m, live, checks)
    decreases |back|
  {
    if back == [] {
      assert front + [m] + back == front + [m] && front + back == front;
      CodeBagPush(front, m, live, checks);
    } else {
      var less, last := back[..|back| - 1], back[|back| - 1];
      assert front + [m] + back == (front + [m] + less) + [last];
      assert front + back == (front + less) + [last];
      CodeBagAround(front, m, less, live, checks);
      CodeBagPush(front + [m] + less, last, live, checks);
      CodeBagPush(front + less, last, live, checks);
    }
  }

  /** The first element of one arrangement, found in and removed from the other. */
  lemma SameWithoutFirst(ms: seq<RawManifest>, ns: seq<RawManifest>) returns (i: nat)
    requires multiset(ms) == multiset(ns) && ms != []
    ensures i < |ns| && ns[i] == ms[0] && multiset(ms[1..]) == multiset(ns[..i] + ns[i + 1..])
  {
    assert ms[0] in multiset(ns);
    i :| 0 <= i < |ns| && ns[i] == ms[0];
    assert ms == [ms[0]] + ms[1..];
    assert ns == ns[..i] + [ns[i]] + ns[i + 1..];
    assert multiset(ms[1..]) == multiset(ms) - multiset{ms[0]};
    assert multiset(ns[..i] + ns[i + 1..]) == multiset(ns) - multiset{ms[0]};
  }

  lemma {:induction false} CodeBagOrderless(ms: seq<RawManifest>, ns: seq<RawManifest>, live: seq<DynObj>,
      checks: Checks)
    requires multiset(ms) == multiset(ns)
    ensures CodeBag(ms, live, checks) == CodeBag(ns, live, checks)
    decreases |ms|
  {
    if ms == [] {
      assert |multiset(ns)| == |ns|;
    } else {
      var i := SameWithoutFirst(ms, ns);
      assert ms == [] + [ms[0]] + ms[1..] && [] + ms[1..] == ms[1..];
      assert ns == ns[..i] + [ns[i]] + ns[i + 1..];
      CodeBagAround([], ms[0], ms[1..], live, checks);
      CodeBagAround(ns[..i], ns[i], ns[i + 1..], live, checks);
      CodeBagOrderless(ms[1..], ns[..i] + ns[i + 1..], live, checks);
    }
  }

  lemma SameCodesSameSummary(s: Summary, t: Summary, xs: seq<HealthStatus>, ys: seq<HealthStatus>)
    requires Summarises(s, xs) && Summarises(t, ys) && Codes(xs) == Codes(ys)
    ensures s.worst == t.worst && forall c: Code :: s.Count(c) == t.Count(c)
  {
    WorstFromCodes(s, xs);
    WorstFromCodes(t, ys);
    if s.worst.Some? && t.worst.Some? {
      RankInjective(s.worst.value, t.worst.value);
    }
  }

  /** Neither the counts nor the worst status depend on the order of the manifests. */
  lemma SummaryOrderless(ms: seq<RawManifest>, ns: seq<RawManifest>, live: seq<DynObj>, checks: Checks, s: Summary,
      t: Summary)
    requires multiset(ms) == multiset(ns)
    requires Summarises(s, Entries(ms, live, checks)) && Summarises(t, Entries(ns, live, checks))
    ensures s.worst == t.worst && forall c: Code :: s.Count(c) == t.Count(c)
  {
    CodeBagOrderless(ms, ns, live, checks);
    SameCodesSameSummary(s, t, Entries(ms, live, checks), Entries(ns, live, checks));
  }

  /******* The flattened live list *******/

  /** No two live objects, of whatever kinds, share a name and a namespace. */
  predicate DistinctNames(live: seq<DynObj>) {
    forall i, j | 0 <= i < j < |live| :: (live[i].name, live[i].namespace) != (live[j].name, live[j].namespace)
  }

  lemma MatchOrderless(m: RawManifest, xs: seq<DynObj>, ys: seq<DynObj>)
    requires DistinctNames(ys)
    requires multiset(xs) == multiset(ys)
    ensures FindLiveMatch(m, xs) == FindLiveMatch(m, ys)
  {
    MatchIsFirst(m, xs);
    MatchIsFirst(m, ys);
    assert forall o :: o in xs <==> o in multiset(xs);
    assert forall o :: o in ys <==> o in multiset(ys);
    var x, y := FindLiveMatch(m, xs), FindLiveMatch(m, ys);
    if x.Some? {
      assert x.value in xs;
      assert x.value in ys;
      var i :| 0 <= i < |ys| && ys[i] == x.value;
      assert Matches(m, ys[i]);
    }
    if y.Some? {
      assert y.value in xs;
    }
  }

  lemma {:induction false} EntriesOrderless(ms: seq<RawManifest>, xs: seq<DynObj>, ys: seq<DynObj>, checks: Checks)
    requires DistinctNames(ys)
    requires multiset(xs) == multiset(ys)
    ensures Entries(ms, xs, checks) == Entries(ms, ys, checks)
  {
    if ms != [] {
      EntriesOrderless(ms[..|ms| - 1], xs, ys, checks);
      MatchOrderless(ms[|ms| - 1], xs, ys);
    }
  }

  /** Without shared names the order of the live objects does not matter. */
  lemma ListOrderIrrelevant(ms: seq<RawManifest>, xs: seq<DynObj>, ys: seq<DynObj>, checks: Checks,
                            s: Summary, t: Summary)
    requires DistinctNames(ys)
    requires multiset(xs) == multiset(ys)
    requires Summarises(s, Entries(ms, xs, checks)) && Summarises(t, Entries(ms, ys, checks))
    ensures s.worst == t.worst && forall c: Code :: s.Count(c) == t.Count(c)
  {
    EntriesOrderless(ms, xs, ys, checks);
    SameCodesSameSummary(s, t, Entries(ms, xs, checks), Entries(ms, ys, checks));
  }

  /** A live object with the kind whose list it came from. The program drops the kind when it joins the lists. */
  datatype Tagged = Tagged(kind: Gvk, item: DynObj)

  function TaggedList(kind: Gvk, list: seq<DynObj>): (r: seq<Tagged>)
    ensures |r| == |list| && forall i | 0 <= i < |r| :: r[i] == Tagged(kind, list[i])
  {
    seq(|list|, i requires 0 <= i < |list| => Tagged(kind, list[i]))
  }

  /** The lists joined in some order of their kinds. */
  function Joined(lists: Lists, order: seq<Gvk>): seq<Tagged>
    requires forall g | g in order :: g in lists
  {
    if order == [] then [] else TaggedList(order[0], lists[order[0]]) + Joined(lists, order[1..])
  }

  function Objects(tagged: seq<Tagged>): (r: seq<DynObj>)
    ensures |r| == |tagged| && forall i | 0 <= i < |r| :: r[i] == tagged[i].item
  {
    seq(|tagged|, i requires 0 <= i < |tagged| => tagged[i].item)
  }

  /** Every listed kind, each once: the iteration order of a hash map. */
  ghost predicate IsOrder(lists: Lists, order: seq<Gvk>) {
    && (forall g :: g in order <==> g in lists)
    && (forall i, j | 0 <= i < j < |order| :: order[i] != order[j])
  }

  /** The first object with the manifest's name and namespace, of whatever kind. */
  function TaggedMatch(m: RawManifest, tagged: seq<Tagged>): Option<Tagged> {
    if tagged == [] then None
    else if Matches(m, tagged[0].item) then Some(tagged[0])
    else TaggedMatch(m, tagged[1..])
  }

  /** The match in the list of the manifest's own kind. */
  function OwnMatch(m: RawManifest, lists: Lists): Option<Tagged> {
    if m.Gvk() in lists && FindLiveMatch(m, lists[m.Gvk()]).Some?
    then Some(Tagged(m.Gvk(), FindLiveMatch(m, lists[m.Gvk()]).value)) else None
  }

  /** An object of another listed kind with the manifest's name and namespace. */
  ghost predicate HasNamesake(m: RawManifest, lists: Lists) {
    exists g, o :: g in lists && g != m.Gvk() && o in lists[g] && Matches(m, o)
  }

  lemma {:induction false} TaggedMatchIsMatch(m: RawManifest, tagged: seq<Tagged>)
    ensures FindLiveMatch(m, Objects(tagged))
            == match TaggedMatch(m, tagged) case Some(t) => Some(t.item) case None => None
  {
    if tagged != [] {
      TaggedMatchIsMatch(m, tagged[1..]);
      assert Objects(tagged)[1..] == Objects(tagged[1..]);
    }
  }

  lemma {:induction false} TaggedMatchConcat(m: RawManifest, xs: seq<Tagged>, ys: seq<Tagged>)
    ensures TaggedMatch(m, xs + ys) == if TaggedMatch(m, xs).Some? then TaggedMatch(m, xs) else TaggedMatch(m, ys)
  {
    if xs == [] {
      assert xs + ys == ys;
    } else {
      assert (xs + ys)[1..] == xs[1..] + ys;
      TaggedMatchConcat(m, xs[1..], ys);
    }
  }

  /** A match in one kind's list. */
  lemma {:induction false} ListMatch(m: RawManifest, kind: Gvk, list: seq<DynObj>)
    ensures TaggedMatch(m, TaggedList(kind, list))
            == match FindLiveMatch(m, list) case Some(o) => Some(Tagged(kind, o)) case None => None
  {
    if list != [] {
      assert TaggedList(kind, list)[1..] == TaggedList(kind, list[1..]);
      ListMatch(m, kind, list[1..]);
    }
  }

  /** Without a namesake only the own kind can match, wherever its list stands. */
  lemma {:induction false} JoinedMatch(m: RawManifest, lists: Lists, order: seq<Gvk>)
    requires forall g | g in order :: g in lists
    requires !HasNamesake(m, lists)
    ensures TaggedMatch(m, Joined(lists, order)) == if m.Gvk() in order then OwnMatch(m, lists) else None
  {
    if order != [] {
      var g := order[0];
      JoinedMatch(m, lists, order[1..]);
      TaggedMatchConcat(m, TaggedList(g, lists[g]), Joined(lists, order[1..]));
      ListMatch(m, g, lists[g]);
      MatchIsFirst(m, lists[g]);
      assert order == [g] + order[1..];
    }
  }

  lemma OrderWith(lists: Lists, kinds: set<Gvk>) returns (order: seq<Gvk>)
    requires kinds <= lists.Keys
    ensures forall g :: g in order <==> g in kinds
    ensures forall i, j | 0 <= i < j < |order| :: order[i] != order[j]
    decreases |kinds|
  {
    if kinds == {} {
      order := [];
    } else {
      var g :| g in kinds;
      order := OrderWith(lists, kinds - {g});
      order := order + [g];
    }
  }

  /** With a namesake there is an order in which the manifest is matched to an object of another kind. */
  lemma NamesakeMisjudged(m: RawManifest, lists: Lists) returns (order: seq<Gvk>)
    requires HasNamesake(m, lists)
    ensures IsOrder(lists, order)
    ensures TaggedMatch(m, Joined(lists, order)).Some? && TaggedMatch(m, Joined(lists, order)).value.kind != m.Gvk()
  {
    var g, o :| g in lists && g != m.Gvk() && o in lists[g] && Matches(m, o);
    var rest := OrderWith(lists, lists.Keys - {g});
    order := [g] + rest;
    assert order[1..] == rest;
    TaggedMatchConcat(m, TaggedList(g, lists[g]), Joined(lists, rest));
    ListMatch(m, g, lists[g]);
    MatchIsFirst(m, lists[g]);
  }

  /** A manifest is judged by its own kind in every order of the lists exactly when no object of another
      listed kind has its name and namespace. */
  lemma OwnMatchIff(m: RawManifest, lists: Lists)
    ensures (forall order | IsOrder(lists, order) :: TaggedMatch(m, Joined(lists, order)) == OwnMatch(m, lists))
            <==> !HasNamesake(m, lists)
  {
    if HasNamesake(m, lists) {
      var order := NamesakeMisjudged(m, lists);
    } else {
      forall order | IsOrder(lists, order)
        ensures TaggedMatch(m, Joined(lists, order)) == OwnMatch(m, lists)
      {
        JoinedMatch(m, lists, order);
      }
    }
  }

  /** The health entry of a manifest by its own kind's list. */
  function OwnEntry(m: RawManifest, lists: Lists, checks: Checks): Option<HealthStatus> {
    Entry(m, if m.Gvk() in lists then lists[m.Gvk()] else [], checks)
  }

  function OwnEntries(ms: seq<RawManifest>, lists: Lists, checks: Checks): seq<HealthStatus> {
    if ms == [] then []
    else OwnEntries(ms[..|ms| - 1], lists, checks) + Singleton(OwnEntry(ms[|ms| - 1], lists, checks))
  }

  lemma {:induction false} EntriesAreOwn(ms: seq<RawManifest>, lists: Lists, order: seq<Gvk>, checks: Checks)
    requires IsOrder(lists, order)
    requires forall m | m in ms :: !HasNamesake(m, lists)
    ensures Entries(ms, Objects(Joined(lists, order)), checks) == OwnEntries(ms, lists, checks)
  {
    if ms != [] {
      var m := ms[|ms| - 1];
      EntriesAreOwn(ms[..|ms| - 1], lists, order, checks);
      TaggedMatchIsMatch(m, Joined(lists, order));
      JoinedMatch(m, lists, order);
    }
  }

  /** Without namesakes the assessment is that of every resource by its own kind, in every order of the lists. */
  method AssessLists(ms: seq<RawManifest>, lists: Lists, order: seq<Gvk>, checks: Checks) returns (s: Summary)
    requires IsOrder(lists, order)
    ensures Summarises(s, Entries(ms, Objects(Joined(lists, order)), checks))
    ensures (forall m | m in ms :: !HasNamesake(m, lists)) ==> Summarises(s, OwnEntries(ms, lists, checks))
  {
    s := Assess(ms, Objects(Joined(lists, order)), checks);
    if forall m | m in ms :: !HasNamesake(m, lists) {
      EntriesAreOwn(ms, lists, order, checks);
    }
  }
}

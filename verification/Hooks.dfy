/** Helm hooks of `src/hooks.rs`: which manifests are hooks, in which phases they run, in which
    order, and when one is finished. */
module Hooks {

  import opened Wrappers
  import opened Text
  import opened Json
  import opened Manifest

  const HOOK_ANNOTATION := "helm.sh/hook"
  const HOOK_WEIGHT_ANNOTATION := "helm.sh/hook-weight"
  const HOOK_DELETE_POLICY_ANNOTATION := "helm.sh/hook-delete-policy"
  const RESOURCE_POLICY_ANNOTATION := "helm.sh/resource-policy"
  const RESOURCE_POLICY_KEEP := "keep"

  datatype HookPhase = PreSync | PostSync | PreDelete | PostDelete

  datatype HookDeletePolicy = BeforeHookCreation | HookSucceeded | HookFailed

  datatype HookInfo = HookInfo(manifest: RawManifest, weight: int, deletePolicies: seq<HookDeletePolicy>)

  function Annotation(m: RawManifest, key: string): Option<string> {
    if key in m.annotations then Some(m.annotations[key]) else None
  }

  /******* Phases *******/

  function PhaseOfToken(token: string): Option<HookPhase> {
    var t := ToAsciiLower(Trim(token));
    if t == "pre-install" || t == "pre-upgrade" then Some(PreSync)
    else if t == "post-install" || t == "post-upgrade" then Some(PostSync)
    else if t == "pre-delete" then Some(PreDelete)
    else if t == "post-delete" then Some(PostDelete)
    else None
  }

  /** The token is one of the words for the phase. */
  ghost predicate SaysPhase(token: string, p: HookPhase) {
    match p
    case PreSync => Says(token, "pre-install") || Says(token, "pre-upgrade")
    case PostSync => Says(token, "post-install") || Says(token, "post-upgrade")
    case PreDelete => Says(token, "pre-delete")
    case PostDelete => Says(token, "post-delete")
  }

  lemma SaysPhaseIff(token: string, p: HookPhase)
    ensures PhaseOfToken(token) == Some(p) <==> SaysPhase(token, p)
  {
    SaysIff(token, "pre-install");
    SaysIff(token, "pre-upgrade");
    SaysIff(token, "post-install");
    SaysIff(token, "post-upgrade");
    SaysIff(token, "pre-delete");
    SaysIff(token, "post-delete");
  }

  /** Some token of the comma-separated annotation value names the phase. */
  ghost predicate NamesPhase(raw: string, p: HookPhase) {
    exists i | 0 <= i < |SplitOn(raw, ',')| :: SaysPhase(SplitOn(raw, ',')[i], p)
  }

  predicate NoDuplicates<T(==)>(s: seq<T>) {
    forall i, j | 0 <= i < j < |s| :: s[i] != s[j]
  }

  /** The named phases, each once. */
  method HookPhases(raw: string) returns (out: seq<HookPhase>)
    ensures NoDuplicates(out)
    ensures forall p :: p in out <==> NamesPhase(raw, p)
  {
    var tokens := SplitOn(raw, ',');
    out := [];
    for i := 0 to |tokens|
      invariant NoDuplicates(out)
      invariant forall p :: p in out <==> exists j | 0 <= j < i :: SaysPhase(tokens[j], p)
    {
      forall p: HookPhase ensures PhaseOfToken(tokens[i]) == Some(p) <==> SaysPhase(tokens[i], p) {
        SaysPhaseIff(tokens[i], p);
      }
      var phase := PhaseOfToken(tokens[i]);
      if phase.Some? && phase.value !in out {
        out := out + [phase.value];
      }
    }
  }

  /******* Weight and delete policies *******/

  function HookWeight(m: RawManifest): int {
    match Annotation(m, HOOK_WEIGHT_ANNOTATION)
    case Some(s) => ParseI64(Trim(s)).GetOr(0)
    case None => 0
  }

  /** The text of the weight annotation, without blanks around it, denotes this 64-bit number. */
  ghost predicate WeightSays(m: RawManifest, weight: int) {
    && "helm.sh/hook-weight" in m.annotations
    && -0x8000_0000_0000_0000 <= weight <= 0x7fff_ffff_ffff_ffff
    && exists t :: TrimsTo(m.annotations["helm.sh/hook-weight"], t) && Denotes(t, weight)
  }

  /** The weight that the annotation denotes, or zero if it is missing or denotes none. */
  lemma HookWeightIff(m: RawManifest)
    ensures WeightSays(m, HookWeight(m)) || (HookWeight(m) == 0 && forall weight :: !WeightSays(m, weight))
    ensures forall weight | WeightSays(m, weight) :: HookWeight(m) == weight
  {
    if "helm.sh/hook-weight" in m.annotations {
      var raw := m.annotations["helm.sh/hook-weight"];
      TrimIff(raw, Trim(raw));
      forall weight ensures ParseI64(Trim(raw)) == Some(weight) <==> WeightSays(m, weight) {
        ParseI64Iff(Trim(raw), weight);
        if WeightSays(m, weight) {
          var t :| TrimsTo(raw, t) && Denotes(t, weight);
          TrimIff(raw, t);
        }
      }
    }
  }

  function PolicyOfToken(token: string): Option<HookDeletePolicy> {
    var t := ToAsciiLower(Trim(token));
    if t == "before-hook-creation" then Some(BeforeHookCreation)
    else if t == "hook-succeeded" then Some(HookSucceeded)
    else if t == "hook-failed" then Some(HookFailed)
    else None
  }

  function PoliciesOf(tokens: seq<string>): seq<HookDeletePolicy> {
    if tokens == [] then [] else Singleton(PolicyOfToken(tokens[0])) + PoliciesOf(tokens[1..])
  }

  function ParseDeletePolicies(m: RawManifest): seq<HookDeletePolicy> {
    match Annotation(m, HOOK_DELETE_POLICY_ANNOTATION)
    case None => [BeforeHookCreation]
    case Some(raw) =>
      var parsed := PoliciesOf(SplitOn(raw, ','));
      if parsed == [] then [BeforeHookCreation] else parsed
  }

  lemma {:induction false} PoliciesOfMembers(tokens: seq<string>, p: HookDeletePolicy)
    ensures p in PoliciesOf(tokens) <==> exists i | 0 <= i < |tokens| :: PolicyOfToken(tokens[i]) == Some(p)
  {
    if tokens != [] {
      PoliciesOfMembers(tokens[1..], p);
      assert forall i | 0 < i < |tokens| :: tokens[i] == tokens[1..][i - 1];
      if PolicyOfToken(tokens[0]) != Some(p) && exists i | 0 <= i < |tokens| :: PolicyOfToken(tokens[i]) == Some(p) {
        var i :| 0 <= i < |tokens| && PolicyOfToken(tokens[i]) == Some(p);
        assert tokens[1..][i - 1] == tokens[i];
      }
    }
  }

  /** The token is the word for the policy. */
  ghost predicate SaysPolicy(token: string, p: HookDeletePolicy) {
    match p
    case BeforeHookCreation => Says(token, "before-hook-creation")
    case HookSucceeded => Says(token, "hook-succeeded")
    case HookFailed => Says(token, "hook-failed")
  }

  lemma SaysPolicyIff(token: string, p: HookDeletePolicy)
    ensures PolicyOfToken(token) == Some(p) <==> SaysPolicy(token, p)
  {
    SaysIff(token, "before-hook-creation");
    SaysIff(token, "hook-succeeded");
    SaysIff(token, "hook-failed");
  }

  /** A token of the delete-policy annotation names the policy. */
  ghost predicate NamesPolicy(m: RawManifest, p: HookDeletePolicy) {
    && "helm.sh/hook-delete-policy" in m.annotations
    && var tokens := SplitOn(m.annotations["helm.sh/hook-delete-policy"], ',');
       exists i | 0 <= i < |tokens| :: SaysPolicy(tokens[i], p)
  }

  lemma NamedPolicies(m: RawManifest, p: HookDeletePolicy)
    requires "helm.sh/hook-delete-policy" in m.annotations
    ensures p in PoliciesOf(SplitOn(m.annotations["helm.sh/hook-delete-policy"], ',')) <==> NamesPolicy(m, p)
  {
    var tokens := SplitOn(m.annotations["helm.sh/hook-delete-policy"], ',');
    PoliciesOfMembers(tokens, p);
    forall i | 0 <= i < |tokens| ensures PolicyOfToken(tokens[i]) == Some(p) <==> SaysPolicy(tokens[i], p) {
      SaysPolicyIff(tokens[i], p);
    }
  }

  /** Exactly the policies named, or only the default when none is. */
  lemma DeletePoliciesMeaning(m: RawManifest, p: HookDeletePolicy)
    ensures p in ParseDeletePolicies(m) <==>
            NamesPolicy(m, p) || (p == BeforeHookCreation && forall q :: !NamesPolicy(m, q))
  {
    if "helm.sh/hook-delete-policy" in m.annotations {
      var named := PoliciesOf(SplitOn(m.annotations["helm.sh/hook-delete-policy"], ','));
      forall q: HookDeletePolicy ensures q in named <==> NamesPolicy(m, q) { NamedPolicies(m, q); }
      if named != [] {
        assert named[0] in named;
      }
    }
  }

  /******* Classification *******/

  datatype Classified = Classified(
    main: seq<RawManifest>,
    pre: seq<HookInfo>,
    post: seq<HookInfo>,
    preDelete: seq<HookInfo>,
    postDelete: seq<HookInfo>)
  {
    function Bucket(p: HookPhase): seq<HookInfo> {
      match p
      case PreSync => pre
      case PostSync => post
      case PreDelete => preDelete
      case PostDelete => postDelete
    }

    function Push(p: HookPhase, info: HookInfo): Classified {
      match p
      case PreSync => this.(pre := pre + [info])
      case PostSync => this.(post := post + [info])
      case PreDelete => this.(preDelete := preDelete + [info])
      case PostDelete => this.(postDelete := postDelete + [info])
    }
  }

  predicate IsHook(m: RawManifest) {
    HOOK_ANNOTATION in m.annotations
  }

  ghost predicate RunsIn(m: RawManifest, p: HookPhase) {
    IsHook(m) && NamesPhase(m.annotations[HOOK_ANNOTATION], p)
  }

  function InfoOf(m: RawManifest): HookInfo {
    HookInfo(m, HookWeight(m), ParseDeletePolicies(m))
  }

  /** The non-hooks, in order. */
  function MainOf(ms: seq<RawManifest>): seq<RawManifest> {
    if ms == [] then []
    else
      var last := ms[|ms| - 1];
      MainOf(ms[..|ms| - 1]) + (if IsHook(last) then [] else [last])
  }

  /** The hooks of a phase, in order. */
  ghost function HooksIn(ms: seq<RawManifest>, p: HookPhase): seq<HookInfo> {
    if ms == [] then []
    else
      var last := ms[|ms| - 1];
      HooksIn(ms[..|ms| - 1], p) + (if RunsIn(last, p) then [InfoOf(last)] else [])
  }

  method PushPhases(c: Classified, phases: seq<HookPhase>, info: HookInfo) returns (c': Classified)
    requires NoDuplicates(phases)
    ensures c'.main == c.main
    ensures forall p :: c'.Bucket(p) == c.Bucket(p) + if p in phases then [info] else []
  {
    c' := c;
    for i := 0 to |phases|
      invariant c'.main == c.main
      invariant forall p :: c'.Bucket(p) == c.Bucket(p) + if p in phases[..i] then [info] else []
    {
      c' := c'.Push(phases[i], info);
      assert phases[..i + 1] == phases[..i] + [phases[i]];
    }
    assert phases[..|phases|] == phases;
  }

  /** Every manifest lands in `main` iff it is no hook, and otherwise once in each phase it names;
      every bucket keeps the order of the manifests. */
  method Classify(manifests: seq<RawManifest>) returns (c: Classified)
    ensures c.main == MainOf(manifests)
    ensures forall p :: c.Bucket(p) == HooksIn(manifests, p)
  {
    c := Classified([], [], [], [], []);
    for i := 0 to |manifests|
      invariant c.main == MainOf(manifests[..i])
      invariant forall p :: c.Bucket(p) == HooksIn(manifests[..i], p)
    {
      var m := manifests[i];
      ClassifyPush(manifests[..i], m);
      assert manifests[..i + 1] == manifests[..i] + [m];
      var raw := Annotation(m, HOOK_ANNOTATION);
      if raw.None? {
        c := c.(main := c.main + [m]);
      } else {
        var phases := HookPhases(raw.value);
        c := PushPhases(c, phases, HookInfo(m, HookWeight(m), ParseDeletePolicies(m)));
      }
    }
    assert manifests[..|manifests|] == manifests;
  }

  lemma ClassifyPush(ms: seq<RawManifest>, m: RawManifest)
    ensures MainOf(ms + [m]) == MainOf(ms) + if IsHook(m) then [] else [m]
    ensures forall p :: HooksIn(ms + [m], p) == HooksIn(ms, p) + if RunsIn(m, p) then [InfoOf(m)] else []
  {
    assert (ms + [m])[..|ms|] == ms;
  }

  /** Manifests that come first land first, in every bucket. */
  lemma {:induction false} ClassifySplits(xs: seq<RawManifest>, ys: seq<RawManifest>, p: HookPhase)
    ensures MainOf(xs + ys) == MainOf(xs) + MainOf(ys)
    ensures HooksIn(xs + ys, p) == HooksIn(xs, p) + HooksIn(ys, p)
    decreases |ys|
  {
    if ys == [] {
      assert xs + ys == xs;
    } else {
      var n := |ys| - 1;
      ClassifySplits(xs, ys[..n], p);
      AppendLast(xs, ys);
      Associative(MainOf(xs), MainOf(ys[..n]), if IsHook(ys[n]) then [] else [ys[n]]);
      Associative(HooksIn(xs, p), HooksIn(ys[..n], p), if RunsIn(ys[n], p) then [InfoOf(ys[n])] else []);
    }
  }

  /** How often a manifest lands somewhere. */
  ghost function Landings(m: RawManifest): nat {
    if !IsHook(m) then 1
    else
      (if RunsIn(m, PreSync) then 1 else 0) + (if RunsIn(m, PostSync) then 1 else 0)
      + (if RunsIn(m, PreDelete) then 1 else 0) + (if RunsIn(m, PostDelete) then 1 else 0)
  }

  ghost function TotalLandings(ms: seq<RawManifest>): nat {
    if ms == [] then 0 else TotalLandings(ms[..|ms| - 1]) + Landings(ms[|ms| - 1])
  }

  /** Nothing is lost and nothing is invented between the manifests and the buckets. */
  lemma {:induction false} ClassifyConserves(ms: seq<RawManifest>)
    ensures |MainOf(ms)| + |HooksIn(ms, PreSync)| + |HooksIn(ms, PostSync)|
            + |HooksIn(ms, PreDelete)| + |HooksIn(ms, PostDelete)| == TotalLandings(ms)
    ensures forall m :: m in MainOf(ms) <==> m in ms && "helm.sh/hook" !in m.annotations
    ensures forall p, h :: h in HooksIn(ms, p) <==>
              && h.manifest in ms && "helm.sh/hook" in h.manifest.annotations
              && NamesPhase(h.manifest.annotations["helm.sh/hook"], p) && h == InfoOf(h.manifest)
  {
    if ms != [] {
      ClassifyConserves(ms[..|ms| - 1]);
      assert ms == ms[..|ms| - 1] + [ms[|ms| - 1]];
    }
  }

  /******* Execution order *******/

  predicate BeforeOrEqual(a: HookInfo, b: HookInfo) {
    a.weight < b.weight || (a.weight == b.weight && LexLeq(a.manifest.name, b.manifest.name))
  }

  /** Sort by weight, then name; equal hooks keep their order. */
  function SortByWeight(hooks: seq<HookInfo>): seq<HookInfo> {
    if hooks == [] then [] else Insert(hooks[0], SortByWeight(hooks[1..]))
  }

  function Insert(h: HookInfo, sorted: seq<HookInfo>): seq<HookInfo> {
    if sorted == [] || BeforeOrEqual(h, sorted[0]) then [h] + sorted
    else [sorted[0]] + Insert(h, sorted[1..])
  }

  predicate Sorted(hooks: seq<HookInfo>) {
    forall i, j | 0 <= i < j < |hooks| :: BeforeOrEqual(hooks[i], hooks[j])
  }

  /** The hooks with a given weight and name, in order. */
  function WithKey(hooks: seq<HookInfo>, weight: int, name: string): seq<HookInfo> {
    if hooks == [] then []
    else
      (if hooks[0].weight == weight && hooks[0].manifest.name == name then [hooks[0]] else [])
      + WithKey(hooks[1..], weight, name)
  }

  /** `t` holds the hooks of `s`, those with the same weight and name in the same order. */
  ghost predicate StablePermutation(s: seq<HookInfo>, t: seq<HookInfo>) {
    forall weight, name :: WithKey(s, weight, name) == WithKey(t, weight, name)
  }

  lemma OrderLaws(a: HookInfo, b: HookInfo, c: HookInfo)
    ensures BeforeOrEqual(a, b) || BeforeOrEqual(b, a)
    ensures BeforeOrEqual(a, b) && BeforeOrEqual(b, c) ==> BeforeOrEqual(a, c)
    ensures BeforeOrEqual(a, b) && BeforeOrEqual(b, a) ==> a.weight == b.weight && a.manifest.name == b.manifest.name
  {
    LexTotal(a.manifest.name, b.manifest.name);
    if LexLeq(a.manifest.name, b.manifest.name) && LexLeq(b.manifest.name, c.manifest.name) {
      LexTransitive(a.manifest.name, b.manifest.name, c.manifest.name);
    }
    if LexLeq(a.manifest.name, b.manifest.name) && LexLeq(b.manifest.name, a.manifest.name) {
      LexAntisymmetric(a.manifest.name, b.manifest.name);
    }
  }

  lemma {:induction false} InsertSorted(h: HookInfo, sorted: seq<HookInfo>)
    requires Sorted(sorted)
    ensures Sorted(Insert(h, sorted))
    ensures multiset(Insert(h, sorted)) == multiset(sorted) + multiset{h}
  {
    if sorted == [] {
    } else if BeforeOrEqual(h, sorted[0]) {
      forall j | 0 <= j < |sorted| ensures BeforeOrEqual(h, sorted[j]) {
        OrderLaws(h, sorted[0], sorted[j]);
      }
    } else {
      var rest := Insert(h, sorted[1..]);
      assert sorted == [sorted[0]] + sorted[1..];
      InsertSorted(h, sorted[1..]);
      OrderLaws(h, sorted[0], h);
      forall j | 0 <= j < |rest| ensures BeforeOrEqual(sorted[0], rest[j]) {
        assert rest[j] in multiset(rest);
        if rest[j] != h {
          assert rest[j] in multiset(sorted[1..]);
          var k :| 0 <= k < |sorted[1..]| && sorted[1..][k] == rest[j];
          assert sorted[k + 1] == rest[j];
        }
      }
    }
  }

  lemma {:induction false} InsertStable(h: HookInfo, sorted: seq<HookInfo>, weight: int, name: string)
    ensures WithKey(Insert(h, sorted), weight, name) == WithKey([h] + sorted, weight, name)
  {
    assert ([h] + sorted)[1..] == sorted;
    if sorted != [] && !BeforeOrEqual(h, sorted[0]) {
      InsertStable(h, sorted[1..], weight, name);
      assert ([h] + sorted[1..])[1..] == sorted[1..];
      assert ([sorted[0]] + Insert(h, sorted[1..]))[1..] == Insert(h, sorted[1..]);
      LexReflexive(h.manifest.name);
    }
  }

  lemma {:induction false} SortIsStableSort(hooks: seq<HookInfo>)
    ensures Sorted(SortByWeight(hooks))
    ensures multiset(SortByWeight(hooks)) == multiset(hooks)
    ensures StablePermutation(hooks, SortByWeight(hooks))
  {
    if hooks != [] {
      SortIsStableSort(hooks[1..]);
      InsertSorted(hooks[0], SortByWeight(hooks[1..]));
      assert hooks == [hooks[0]] + hooks[1..];
      forall weight, name
        ensures WithKey(hooks, weight, name) == WithKey(SortByWeight(hooks), weight, name)
      {
        InsertStable(hooks[0], SortByWeight(hooks[1..]), weight, name);
        assert ([hooks[0]] + SortByWeight(hooks[1..]))[1..] == SortByWeight(hooks[1..]);
      }
    }
  }

  /** The order in which hooks run: by weight, then by name, character by character. */
  lemma SortAscends(hooks: seq<HookInfo>, i: nat, j: nat)
    requires i < j < |SortByWeight(hooks)|
    ensures var a, b := SortByWeight(hooks)[i], SortByWeight(hooks)[j];
            var s, t := a.manifest.name, b.manifest.name;
            || a.weight < b.weight
            || (a.weight == b.weight
                && (s <= t || exists k | 0 <= k < |s| && k < |t| :: s[..k] == t[..k] && s[k] < t[k]))
  {
    var a, b := SortByWeight(hooks)[i], SortByWeight(hooks)[j];
    SortIsStableSort(hooks);
    assert BeforeOrEqual(a, b);
    LexLeqIff(a.manifest.name, b.manifest.name);
  }

  lemma {:induction false} WithKeyMember(hooks: seq<HookInfo>, h: HookInfo)
    ensures h in hooks <==> h in WithKey(hooks, h.weight, h.manifest.name)
    ensures WithKey(hooks, h.weight, h.manifest.name) != [] ==>
              exists g :: g in hooks && g.weight == h.weight && g.manifest.name == h.manifest.name
  {
    if hooks != [] {
      WithKeyMember(hooks[1..], h);
      assert hooks == [hooks[0]] + hooks[1..];
    }
  }

  /** The first of a sorted sequence is determined by the hooks it holds. */
  lemma SortedHead(s: seq<HookInfo>, t: seq<HookInfo>)
    requires s != [] && Sorted(s) && Sorted(t) && StablePermutation(s, t)
    ensures t != [] && s[0] == t[0]
  {
    WithKeyMember(s, s[0]);
    WithKeyMember(t, s[0]);
    assert s[0] in t;
    WithKeyMember(t, t[0]);
    WithKeyMember(s, t[0]);
    assert t[0] in s;
    assert BeforeOrEqual(s[0], t[0]) by { SortedFirst(s, t[0]); }
    assert BeforeOrEqual(t[0], s[0]) by { SortedFirst(t, s[0]); }
    OrderLaws(s[0], t[0], s[0]);
    assert WithKey(s, s[0].weight, s[0].manifest.name)[0] == s[0];
    assert WithKey(t, s[0].weight, s[0].manifest.name)[0] == t[0];
  }

  lemma SortedFirst(s: seq<HookInfo>, h: HookInfo)
    requires Sorted(s) && h in s
    ensures BeforeOrEqual(s[0], h)
  {
    OrderLaws(h, h, h);
  }

  /** Any sorted sequence holding the same hooks in the same relative order is this one. */
  lemma {:induction false} StableSortUnique(s: seq<HookInfo>, t: seq<HookInfo>)
    requires Sorted(s) && Sorted(t) && StablePermutation(s, t)
    ensures s == t
  {
    if s == [] {
      if t != [] {
        WithKeyMember(t, t[0]);
      }
    } else {
      SortedHead(s, t);
      forall weight, name
        ensures WithKey(s[1..], weight, name) == WithKey(t[1..], weight, name)
      {
        var head := if s[0].weight == weight && s[0].manifest.name == name then [s[0]] else [];
        assert WithKey(s, weight, name) == WithKey(t, weight, name);
        assert (head + WithKey(s[1..], weight, name))[|head|..] == WithKey(s[1..], weight, name);
        assert (head + WithKey(t[1..], weight, name))[|head|..] == WithKey(t[1..], weight, name);
      }
      StableSortUnique(s[1..], t[1..]);
      assert s == [s[0]] + s[1..] && t == [t[0]] + t[1..];
    }
  }

  /******* Completion *******/

  datatype Completion = Running | Succeeded | Failed

  predicate IsWaitable(group: string, kind: string) {
    (group == "batch" && kind == "Job") || (group == "" && kind == "Pod")
  }

  /** What one Job condition says on its own. */
  function ConditionOutcome(c: Json): Completion {
    if GetStr(c, "status") != Some("True") then Running
    else if GetStr(c, "type") == Some("Complete") then Succeeded
    else if GetStr(c, "type") == Some("Failed") then Failed
    else Running
  }

  function FirstTerminal(conds: seq<Json>): Completion {
    if conds == [] then Running
    else if ConditionOutcome(conds[0]) != Running then ConditionOutcome(conds[0])
    else FirstTerminal(conds[1..])
  }

  function HookCompletion(group: string, kind: string, status: Option<Json>): Completion {
    if status.None? || status.value.Null? then
      if IsWaitable(group, kind) then Running else Succeeded
    else if group == "batch" && kind == "Job" then
      (match Get(status.value, "conditions")
       case Some(Arr(conds)) => FirstTerminal(conds)
       case _ => Running)
    else if group == "" && kind == "Pod" then
      (match GetStr(status.value, "phase")
       case Some(phase) => if phase == "Succeeded" then Succeeded else if phase == "Failed" then Failed else Running
       case None => Running)
    else Succeeded
  }

  /** What one status poll of a hook resource may find. */
  datatype Poll = Found(status: Option<Json>) | Gone | PollError

  function PollOutcome(group: string, kind: string, poll: Poll): Completion {
    match poll
    case Found(status) => HookCompletion(group, kind, status)
    case Gone => Failed
    case PollError => Running
  }

  /** The kinds whose hooks are waited for. */
  predicate Awaited(m: RawManifest) {
    (m.group == "batch" && m.kind == "Job") || (m.group == "" && m.kind == "Pod")
  }

  predicate TrueCondition(c: Json, kind: string) {
    Get(c, "type") == Some(Str(kind)) && Get(c, "status") == Some(Str("True"))
  }

  predicate Undecided(c: Json) {
    !TrueCondition(c, "Complete") && !TrueCondition(c, "Failed")
  }

  /** The first true condition that ends a Job is of this type. */
  ghost predicate EndedBy(conds: seq<Json>, kind: string) {
    exists i | 0 <= i < |conds| :: TrueCondition(conds[i], kind) && forall j | 0 <= j < i :: Undecided(conds[j])
  }

  ghost predicate JobEnded(status: Json, kind: string) {
    match Get(status, "conditions")
    case Some(Arr(conds)) => EndedBy(conds, kind)
    case _ => false
  }

  /** The poll shows that the Job or Pod has completed. */
  ghost predicate ShowsSuccess(m: RawManifest, poll: Poll) {
    && poll.Found? && poll.status.Some?
    && if m.kind == "Job" then JobEnded(poll.status.value, "Complete")
       else Get(poll.status.value, "phase") == Some(Str("Succeeded"))
  }

  /** The poll shows that it has failed or is gone. */
  ghost predicate ShowsFailure(m: RawManifest, poll: Poll) {
    || poll.Gone?
    || (poll.Found? && poll.status.Some?
        && if m.kind == "Job" then JobEnded(poll.status.value, "Failed")
           else Get(poll.status.value, "phase") == Some(Str("Failed")))
  }

  lemma {:induction false} FirstTerminalIff(conds: seq<Json>)
    ensures FirstTerminal(conds) == Succeeded <==> EndedBy(conds, "Complete")
    ensures FirstTerminal(conds) == Failed <==> EndedBy(conds, "Failed")
  {
    if conds != [] {
      FirstTerminalIff(conds[1..]);
      TerminalStep(conds, "Complete");
      TerminalStep(conds, "Failed");
    }
  }

  /** The first condition decides if it can; otherwise the rest does. */
  lemma TerminalStep(conds: seq<Json>, kind: string)
    requires conds != [] && (kind == "Complete" || kind == "Failed")
    ensures EndedBy(conds, kind) <==>
            TrueCondition(conds[0], kind) || (Undecided(conds[0]) && EndedBy(conds[1..], kind))
  {
    var rest := conds[1..];
    assert forall j | 0 < j < |conds| :: conds[j] == rest[j - 1];
    if Undecided(conds[0]) && EndedBy(rest, kind) {
      var i :| 0 <= i < |rest| && TrueCondition(rest[i], kind) && forall j | 0 <= j < i :: Undecided(rest[j]);
      assert TrueCondition(conds[i + 1], kind);
    }
    if EndedBy(conds, kind) {
      var i :| 0 <= i < |conds| && TrueCondition(conds[i], kind) && forall j | 0 <= j < i :: Undecided(conds[j]);
      if i > 0 {
        assert TrueCondition(rest[i - 1], kind);
        assert forall j | 0 <= j < i - 1 :: rest[j] == conds[j + 1];
      }
    }
  }

  lemma PollOutcomeIff(m: RawManifest, poll: Poll)
    requires Awaited(m)
    ensures PollOutcome(m.group, m.kind, poll) == Succeeded <==> ShowsSuccess(m, poll)
    ensures PollOutcome(m.group, m.kind, poll) == Failed <==> ShowsFailure(m, poll)
  {
    if poll.Found? && poll.status.Some? {
      match Get(poll.status.value, "conditions")
      case Some(Arr(conds)) => FirstTerminalIff(conds);
      case _ =>
    }
  }

  /** Time between status polls, in milliseconds. */
  const POLL_INTERVAL: nat := 2000

  /** One hook wait as its environment decides it: what each poll finds, how long it takes, and how
      much longer than asked each pause lasts. */
  datatype WaitEnv = WaitEnv(polls: nat -> Poll, pollTime: nat -> nat, oversleep: nat -> nat) {
    /** Milliseconds since the start of the wait when poll `i` has returned. */
    function Elapsed(i: nat): nat {
      pollTime(i) + if i == 0 then 0 else Elapsed(i - 1) + 2000 + oversleep(i - 1)
    }

    lemma {:induction false} ElapsedGrows(i: nat)
      ensures Elapsed(i) >= 2000 * i
    {
      if i > 0 {
        ElapsedGrows(i - 1);
      }
    }

    lemma {:induction false} ElapsedMonotone(i: nat, j: nat)
      requires i <= j
      ensures Elapsed(i) <= Elapsed(j)
    {
      if i < j {
        ElapsedMonotone(i, j - 1);
      }
    }
  }

  /** The poll decides nothing and returns before the timeout. */
  ghost predicate StillWaiting(m: RawManifest, timeout: nat, env: WaitEnv, i: nat) {
    !ShowsSuccess(m, env.polls(i)) && !ShowsFailure(m, env.polls(i)) && env.Elapsed(i) < timeout
  }

  /** The first poll that decides or returns after the timeout shows success. */
  ghost predicate EndsWell(m: RawManifest, timeout: nat, env: WaitEnv) {
    exists last: nat ::
      && ShowsSuccess(m, env.polls(last))
      && forall i: nat | i < last :: StillWaiting(m, timeout, env, i)
  }

  /** It shows failure, does not find the object, or decides nothing. */
  ghost predicate EndsBadly(m: RawManifest, timeout: nat, env: WaitEnv) {
    exists last: nat ::
      && !ShowsSuccess(m, env.polls(last)) && !StillWaiting(m, timeout, env, last)
      && forall i: nat | i < last :: StillWaiting(m, timeout, env, i)
  }

  lemma NotBoth(m: RawManifest, timeout: nat, env: WaitEnv)
    requires Awaited(m) && EndsWell(m, timeout, env)
    ensures !EndsBadly(m, timeout, env)
  {
    var i: nat :| ShowsSuccess(m, env.polls(i)) && forall k: nat | k < i :: StillWaiting(m, timeout, env, k);
    forall j: nat | !ShowsSuccess(m, env.polls(j)) && !StillWaiting(m, timeout, env, j)
      ensures exists k: nat | k < j :: !StillWaiting(m, timeout, env, k)
    {
      assert !StillWaiting(m, timeout, env, i);
      assert i != j && !(j < i);
    }
  }

  /** How a wait ends: at a terminal state, or at the first unfinished poll that returns at or after the
      timeout. All polls before the last are unfinished and in time, and the last has an index of at most
      ceil(timeout / 2 s). */
  ghost predicate WaitEnds(group: string, kind: string, timeout: nat, env: WaitEnv, result: Completion, last: nat) {
    && 2000 * last < timeout + 2000
    && (forall i | 0 <= i < last :: PollOutcome(group, kind, env.polls(i)) == Running)
    && (last > 0 ==> env.Elapsed(last - 1) < timeout)
    && var outcome := PollOutcome(group, kind, env.polls(last));
       if outcome != Running then result == outcome else result == Failed && env.Elapsed(last) >= timeout
  }

  lemma WaitEndsIff(m: RawManifest, timeout: nat, env: WaitEnv, result: Completion, last: nat)
    requires Awaited(m) && WaitEnds(m.group, m.kind, timeout, env, result, last)
    ensures result == Succeeded <==> EndsWell(m, timeout, env)
    ensures result == Failed <==> EndsBadly(m, timeout, env)
  {
    forall i: nat | i < last ensures StillWaiting(m, timeout, env, i) {
      env.ElapsedMonotone(i, last - 1);
      PollOutcomeIff(m, env.polls(i));
    }
    PollOutcomeIff(m, env.polls(last));
    if result == Succeeded {
      assert EndsWell(m, timeout, env);
      NotBoth(m, timeout, env);
    } else {
      assert EndsBadly(m, timeout, env);
      if EndsWell(m, timeout, env) {
        NotBoth(m, timeout, env);
      }
    }
  }

  method WaitForCompletion(group: string, kind: string, timeout: nat, env: WaitEnv)
    returns (result: Completion, last: nat)
    ensures WaitEnds(group, kind, timeout, env, result, last)
    ensures result != Running
  {
    var i: nat := 0;
    var now: nat := 0;
    while true
      invariant now == if i == 0 then 0 else env.Elapsed(i - 1) + POLL_INTERVAL + env.oversleep(i - 1)
      invariant i > 0 ==> env.Elapsed(i - 1) < timeout
      invariant forall j | 0 <= j < i :: PollOutcome(group, kind, env.polls(j)) == Running
      invariant 2000 * i < timeout + 2000
      decreases timeout + 2000 - 2000 * i
    {
      now := now + env.pollTime(i);
      last := i;
      result := PollOutcome(group, kind, env.polls(i));
      if result != Running {
        return;
      }
      if now >= timeout {
        result := Failed;
        return;
      }
      env.ElapsedGrows(i);
      now := now + POLL_INTERVAL + env.oversleep(i);
      i := i + 1;
    }
  }
}

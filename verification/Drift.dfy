/** Drift detection of `src/drift.rs`: the check against listed objects, and the check against the
    watch-backed cache that must agree with it. */
module Drift {

  import opened Wrappers
  import opened Json
  import opened Manifest
  import opened Kube
  import opened SpecSubset
  import opened Watch

  datatype Reason = MissingInCluster | SpecDiffers

  datatype DriftItem = DriftItem(key: ResourceKey, reason: Reason)

  type Lists = map<Gvk, seq<DynObj>>

  predicate Matches(m: RawManifest, o: DynObj) {
    o.name == Some(m.name) && o.namespace == m.namespace
  }

  /** The first live object with the manifest's name and namespace. */
  function FindLiveMatch(m: RawManifest, live: seq<DynObj>): Option<DynObj> {
    if live == [] then None
    else if Matches(m, live[0]) then Some(live[0])
    else FindLiveMatch(m, live[1..])
  }

  function Compare(m: RawManifest, live: Option<DynObj>): Option<DriftItem> {
    match live
    case None => Some(DriftItem(KeyOf(m), MissingInCluster))
    case Some(o) => if SpecsDiffer(m.data, o.value) then Some(DriftItem(KeyOf(m), SpecDiffers)) else None
  }

  /******* The caches as values *******/

  type Caches = map<Gvk, CacheState>

  ghost function CachesOf(stores: map<Gvk, LightweightStore>): Caches
    reads stores.Values
  {
    map g | g in stores :: CacheState(stores[g].view.live, stores[g].maxBytes)
  }

  function SplitAll(caches: Caches): map<Gvk, Tiers> {
    map g | g in caches :: caches[g].Split()
  }

  function TierIn(m: RawManifest, caches: Caches): Tier {
    if m.Gvk() in caches then caches[m.Gvk()].TierFor(ObjKeyOfManifest(m)) else Absent
  }

  /******* What one manifest contributes to a check *******/

  /** `Listed` compares with lists; a kind without a list has nothing live. `Direct` and `Deferred` are
      the two passes of the cache check: the second compares large objects with a list, and reports
      nothing for a kind whose list could not be fetched. */
  datatype Check = Listed(lists: Lists) | Direct(caches: Caches) | Deferred(caches: Caches, lists: Lists)

  function ListedVerdict(m: RawManifest, lists: Lists): Option<DriftItem> {
    Compare(m, if m.Gvk() in lists then FindLiveMatch(m, lists[m.Gvk()]) else None)
  }

  /** What the listed check says about a manifest: that it is missing exactly when its kind's list, if there
      is one, holds no object of its name and namespace; that it differs exactly when the first of those
      does; and nothing otherwise. */
  lemma ListedVerdictIff(m: RawManifest, lists: Lists)
    ensures var key := ResourceKey(m.group, m.version, m.kind, m.namespace, m.name);
            var g := (m.group, m.version, m.kind);
            var list := if g in lists then lists[g] else [];
            && (ListedVerdict(m, lists) == Some(DriftItem(key, MissingInCluster)) <==>
                forall i | 0 <= i < |list| :: list[i].name != Some(m.name) || list[i].namespace != m.namespace)
            && (ListedVerdict(m, lists) == Some(DriftItem(key, SpecDiffers)) <==>
                exists i | 0 <= i < |list| ::
                  && list[i].name == Some(m.name) && list[i].namespace == m.namespace
                  && (forall j | 0 <= j < i :: list[j].name != Some(m.name) || list[j].namespace != m.namespace)
                  && SpecsDiffer(m.data, list[i].value))
            && (ListedVerdict(m, lists).Some? ==> ListedVerdict(m, lists).value.key == key)
  {
    var list := if m.Gvk() in lists then lists[m.Gvk()] else [];
    MatchIsFirst(m, list);
    if FindLiveMatch(m, list).Some? {
      var i := FirstMatch(m, list);
    }
  }

  lemma {:induction false} FirstMatch(m: RawManifest, list: seq<DynObj>) returns (i: nat)
    requires FindLiveMatch(m, list).Some?
    ensures i < |list| && list[i] == FindLiveMatch(m, list).value && Matches(m, list[i])
    ensures forall j | 0 <= j < i :: !Matches(m, list[j])
  {
    if Matches(m, list[0]) {
      i := 0;
    } else {
      i := FirstMatch(m, list[1..]);
      assert forall j | 0 < j < |list| :: list[j] == list[1..][j - 1];
      i := i + 1;
    }
  }

  function Verdict(m: RawManifest, check: Check): Option<DriftItem> {
    match check
    case Listed(lists) => ListedVerdict(m, lists)
    case Direct(caches) =>
      (match TierIn(m, caches)
       case Absent => Compare(m, None)
       case Small => Compare(m, Some(caches[m.Gvk()].live[ObjKeyOfManifest(m)]))
       case Large => None)
    case Deferred(caches, lists) =>
      if TierIn(m, caches) == Large && m.Gvk() in lists then ListedVerdict(m, lists) else None
  }

  function Verdicts(ms: seq<RawManifest>, check: Check): seq<DriftItem> {
    if ms == [] then [] else Verdicts(ms[..|ms| - 1], check) + Singleton(Verdict(ms[|ms| - 1], check))
  }

  lemma VerdictsPush(ms: seq<RawManifest>, m: RawManifest, check: Check)
    ensures Verdicts(ms + [m], check) == Verdicts(ms, check) + Singleton(Verdict(m, check))
  {
    assert (ms + [m])[..|ms|] == ms;
  }

  /** The verdicts follow the order of the manifests. */
  lemma {:induction false} VerdictsSplit(ms: seq<RawManifest>, ns: seq<RawManifest>, check: Check)
    ensures Verdicts(ms + ns, check) == Verdicts(ms, check) + Verdicts(ns, check)
    decreases |ns|
  {
    if ns == [] {
      assert ms + ns == ms;
    } else {
      var n := |ns| - 1;
      VerdictsSplit(ms, ns[..n], check);
      AppendLast(ms, ns);
      Associative(Verdicts(ms, check), Verdicts(ns[..n], check), Singleton(Verdict(ns[n], check)));
    }
  }

  lemma VerdictsOfOne(m: RawManifest, check: Check)
    ensures Verdicts([m], check) == Singleton(Verdict(m, check))
  {
    assert [m][..0] == [];
  }

  lemma VerdictsPrefix(ms: seq<RawManifest>, i: nat, check: Check)
    requires i < |ms|
    ensures Verdicts(ms[..i + 1], check) == Verdicts(ms[..i], check) + Singleton(Verdict(ms[i], check))
  {
    assert ms[..i + 1] == ms[..i] + [ms[i]];
    VerdictsPush(ms[..i], ms[i], check);
  }

  /******* The list-based check *******/

  method ComputeDrifts(manifests: seq<RawManifest>, liveByGvk: Lists) returns (drifts: seq<DriftItem>)
    ensures drifts == Verdicts(manifests, Listed(liveByGvk))
  {
    drifts := [];
    for i := 0 to |manifests|
      invariant drifts == Verdicts(manifests[..i], Listed(liveByGvk))
    {
      var m := manifests[i];
      VerdictsPrefix(manifests, i, Listed(liveByGvk));
      var live := if m.Gvk() in liveByGvk then liveByGvk[m.Gvk()] else [];
      match FindLiveMatch(m, live)
      case None =>
        drifts := drifts + [DriftItem(KeyOf(m), MissingInCluster)];
      case Some(lo) =>
        if SpecsDiffer(m.data, lo.value) {
          drifts := drifts + [DriftItem(KeyOf(m), SpecDiffers)];
        }
    }
    assert manifests[..|manifests|] == manifests;
  }

  /******* Grouping by kind *******/

  function Select(ms: seq<RawManifest>, kinds: set<Gvk>): seq<RawManifest> {
    if ms == [] then []
    else
      var last := ms[|ms| - 1];
      Select(ms[..|ms| - 1], kinds) + (if last.Gvk() in kinds then [last] else [])
  }

  function LargeOnly(ms: seq<RawManifest>, caches: Caches): seq<RawManifest> {
    if ms == [] then []
    else
      var last := ms[|ms| - 1];
      LargeOnly(ms[..|ms| - 1], caches) + (if TierIn(last, caches) == Large then [last] else [])
  }

  function Kinds(ms: seq<RawManifest>): set<Gvk> {
    if ms == [] then {} else Kinds(ms[..|ms| - 1]) + {ms[|ms| - 1].Gvk()}
  }

  lemma {:induction false} SelectAll(ms: seq<RawManifest>, kinds: set<Gvk>)
    requires Kinds(ms) <= kinds
    ensures Select(ms, kinds) == ms
  {
    if ms != [] {
      SelectAll(ms[..|ms| - 1], kinds);
    }
  }

  lemma {:induction false} SelectNone(ms: seq<RawManifest>)
    ensures Select(ms, {}) == []
  {
    if ms != [] {
      SelectNone(ms[..|ms| - 1]);
    }
  }

  lemma SelectPush(ms: seq<RawManifest>, m: RawManifest, kinds: set<Gvk>)
    ensures Select(ms + [m], kinds) == Select(ms, kinds) + (if m.Gvk() in kinds then [m] else [])
  {
    assert (ms + [m])[..|ms|] == ms;
  }

  /** The drift items contributed by the manifests of some kinds, in no particular order. */
  function Bag(ms: seq<RawManifest>, kinds: set<Gvk>, check: Check): multiset<DriftItem> {
    multiset(Verdicts(Select(ms, kinds), check))
  }

  lemma BagPush(ms: seq<RawManifest>, m: RawManifest, kinds: set<Gvk>, check: Check)
    ensures Bag(ms + [m], kinds, check)
         == Bag(ms, kinds, check) + (if m.Gvk() in kinds then multiset(Singleton(Verdict(m, check))) else multiset{})
  {
    SelectPush(ms, m, kinds);
    VerdictsPush(Select(ms, kinds), m, check);
    assert Select(ms, kinds) + [] == Select(ms, kinds);
  }

  /** The kinds partition the manifests, so their contributions add up whatever the order of kinds. */
  lemma {:induction false} BagAddsUp(ms: seq<RawManifest>, kinds: set<Gvk>, g: Gvk, check: Check)
    requires g !in kinds
    ensures Bag(ms, kinds + {g}, check) == Bag(ms, kinds, check) + Bag(ms, {g}, check)
  {
    if ms != [] {
      var init, last := ms[..|ms| - 1], ms[|ms| - 1];
      assert ms == init + [last];
      BagAddsUp(init, kinds, g, check);
      BagPush(init, last, kinds, check);
      BagPush(init, last, {g}, check);
      BagPush(init, last, kinds + {g}, check);
    }
  }

  lemma BagAll(ms: seq<RawManifest>, kinds: set<Gvk>, check: Check)
    requires Kinds(ms) <= kinds
    ensures Bag(ms, kinds, check) == multiset(Verdicts(ms, check))
  {
    SelectAll(ms, kinds);
  }

  /** The manifests grouped by kind, each group in manifest order. */
  function Groups(ms: seq<RawManifest>): map<Gvk, seq<RawManifest>> {
    map g | g in Kinds(ms) :: Select(ms, {g})
  }

  lemma SelectOne(ms: seq<RawManifest>, m: RawManifest, g: Gvk)
    ensures Select(ms + [m], {g}) == if m.Gvk() == g then Select(ms, {g}) + [m] else Select(ms, {g})
  {
    SelectPush(ms, m, {g});
    assert Select(ms, {g}) + [] == Select(ms, {g});
  }

  lemma GroupsPush(ms: seq<RawManifest>, m: RawManifest)
    ensures var before := if m.Gvk() in Groups(ms) then Groups(ms)[m.Gvk()] else [];
            Groups(ms + [m]) == Groups(ms)[m.Gvk() := before + [m]]
  {
    KindsPush(ms, m);
    if m.Gvk() !in Kinds(ms) {
      SelectNothing(ms, m.Gvk());
    }
    forall g
      ensures Select(ms + [m], {g}) == if m.Gvk() == g then Select(ms, {g}) + [m] else Select(ms, {g})
    {
      SelectOne(ms, m, g);
    }
  }

  method GroupByGvk(manifests: seq<RawManifest>) returns (byGvk: map<Gvk, seq<RawManifest>>)
    ensures byGvk == Groups(manifests) && byGvk.Keys == Kinds(manifests)
  {
    byGvk := map[];
    for i := 0 to |manifests|
      invariant byGvk == Groups(manifests[..i])
    {
      var m := manifests[i];
      GroupsPush(manifests[..i], m);
      assert manifests[..i + 1] == manifests[..i] + [m];
      var before := if m.Gvk() in byGvk then byGvk[m.Gvk()] else [];
      byGvk := byGvk[m.Gvk() := before + [m]];
    }
    assert manifests[..|manifests|] == manifests;
  }

  lemma KindsPush(ms: seq<RawManifest>, m: RawManifest)
    ensures Kinds(ms + [m]) == Kinds(ms) + {m.Gvk()}
  {
    assert (ms + [m])[..|ms|] == ms;
  }

  lemma {:induction false} SelectNothing(ms: seq<RawManifest>, g: Gvk)
    requires g !in Kinds(ms)
    ensures Select(ms, {g}) == []
  {
    if ms != [] {
      SelectNothing(ms[..|ms| - 1], g);
    }
  }

  lemma {:induction false} SelectHasKind(ms: seq<RawManifest>, g: Gvk)
    ensures forall i | 0 <= i < |Select(ms, {g})| :: Select(ms, {g})[i].Gvk() == g
  {
    if ms != [] {
      SelectHasKind(ms[..|ms| - 1], g);
    }
  }

  /******* The cache check, first pass *******/

  /** The large manifests of one kind. */
  function LargeOf(ms: seq<RawManifest>, g: Gvk, caches: Caches): seq<RawManifest> {
    LargeOnly(Select(ms, {g}), caches)
  }

  lemma LargePush(ms: seq<RawManifest>, m: RawManifest, caches: Caches)
    ensures LargeOnly(ms + [m], caches) == LargeOnly(ms, caches) + (if TierIn(m, caches) == Large then [m] else [])
  {
    assert (ms + [m])[..|ms|] == ms;
  }

  lemma DirectVerdict(m: RawManifest, g: Gvk, stores: map<Gvk, Tiers>, caches: Caches)
    requires stores == SplitAll(caches) && m.Gvk() == g
    ensures var tier := if g in stores then stores[g].TierOf(ObjKeyOfManifest(m)) else Absent;
            && TierIn(m, caches) == tier
            && Verdict(m, Direct(caches)) ==
               match tier
               case Absent => Some(DriftItem(KeyOf(m), MissingInCluster))
               case Small => Compare(m, stores[g].SmallGet(ObjKeyOfManifest(m)))
               case Large => None
    ensures TierIn(m, caches) == Small ==> g in stores && stores[g].SmallGet(ObjKeyOfManifest(m)).Some?
  {
    if g in stores {
      caches[g].SplitDecidesTier(ObjKeyOfManifest(m));
    }
  }

  lemma PushBoth(ms: seq<RawManifest>, i: nat, caches: Caches)
    requires i < |ms|
    ensures Verdicts(ms[..i + 1], Direct(caches)) ==
            Verdicts(ms[..i], Direct(caches)) + Singleton(Verdict(ms[i], Direct(caches)))
    ensures LargeOnly(ms[..i + 1], caches) ==
            LargeOnly(ms[..i], caches) + (if TierIn(ms[i], caches) == Large then [ms[i]] else [])
  {
    VerdictsPrefix(ms, i, Direct(caches));
    assert ms[..i + 1] == ms[..i] + [ms[i]];
    LargePush(ms[..i], ms[i], caches);
  }

  /** One kind: small objects are compared at once, large ones are returned for the second pass. */
  method CheckKind(ghost all: seq<RawManifest>, ms: seq<RawManifest>, g: Gvk,
                   stores: map<Gvk, Tiers>, ghost caches: Caches)
    returns (drifts: seq<DriftItem>, large: seq<RawManifest>)
    requires stores == SplitAll(caches)
    requires ms == Select(all, {g})
    ensures drifts == Verdicts(Select(all, {g}), Direct(caches))
    ensures large == LargeOf(all, g, caches)
  {
    SelectHasKind(all, g);
    drifts, large := [], [];
    for i := 0 to |ms|
      invariant drifts == Verdicts(ms[..i], Direct(caches))
      invariant large == LargeOnly(ms[..i], caches)
    {
      var m := ms[i];
      DirectVerdict(m, g, stores, caches);
      PushBoth(ms, i, caches);
      var tier := if g in stores then stores[g].TierOf(ObjKeyOfManifest(m)) else Absent;
      match tier {
        case Small =>
          var body := stores[g].SmallGet(ObjKeyOfManifest(m));
          if SpecsDiffer(m.data, body.value.value) {
            drifts := drifts + [DriftItem(KeyOf(m), SpecDiffers)];
          }
        case Large =>
          large := large + [m];
        case Absent =>
          drifts := drifts + [DriftItem(KeyOf(m), MissingInCluster)];
      }
    }
    assert ms[..|ms|] == ms;
  }

  /** A kind appears in the grouping only once it has a manifest to group. */
  function AddGroup(groups: map<Gvk, seq<RawManifest>>, g: Gvk, ms: seq<RawManifest>): map<Gvk, seq<RawManifest>> {
    if ms == [] then groups else groups[g := ms]
  }

  /** The large manifests of some kinds, grouped by kind. */
  function LargeGroups(ms: seq<RawManifest>, kinds: set<Gvk>, caches: Caches): map<Gvk, seq<RawManifest>> {
    map g | g in kinds && LargeOf(ms, g, caches) != [] :: LargeOf(ms, g, caches)
  }

  lemma KindChecked(ms: seq<RawManifest>, kinds: set<Gvk>, g: Gvk, caches: Caches,
                    drifts: seq<DriftItem>, found: seq<DriftItem>)
    requires g !in kinds
    requires multiset(drifts) == Bag(ms, kinds, Direct(caches))
    requires found == Verdicts(Select(ms, {g}), Direct(caches))
    ensures multiset(drifts + found) == Bag(ms, kinds + {g}, Direct(caches))
    ensures LargeGroups(ms, kinds + {g}, caches) == AddGroup(LargeGroups(ms, kinds, caches), g, LargeOf(ms, g, caches))
  {
    BagAddsUp(ms, kinds, g, Direct(caches));
    LargeGroupsPush(ms, kinds, g, caches);
  }

  lemma LargeGroupsPush(ms: seq<RawManifest>, kinds: set<Gvk>, g: Gvk, caches: Caches)
    requires g !in kinds
    ensures LargeGroups(ms, kinds + {g}, caches) == AddGroup(LargeGroups(ms, kinds, caches), g, LargeOf(ms, g, caches))
  {
  }

  method DriftFromCache(manifests: seq<RawManifest>, stores: map<Gvk, Tiers>, ghost caches: Caches)
    returns (drifts: seq<DriftItem>, largeByGvk: map<Gvk, seq<RawManifest>>)
    requires stores == SplitAll(caches)
    ensures multiset(drifts) == multiset(Verdicts(manifests, Direct(caches)))
    ensures largeByGvk == LargeGroups(manifests, Kinds(manifests), caches)
  {
    var byGvk := GroupByGvk(manifests);
    drifts, largeByGvk := [], map[];
    var pending := byGvk.Keys;
    ghost var done: set<Gvk> := {};
    SelectNone(manifests);
    while pending != {}
      invariant done !! pending && done + pending == Kinds(manifests)
      invariant multiset(drifts) == Bag(manifests, done, Direct(caches))
      invariant largeByGvk == LargeGroups(manifests, done, caches)
      decreases pending
    {
      var g :| g in pending;
      var found, large := CheckKind(manifests, byGvk[g], g, stores, caches);
      KindChecked(manifests, done, g, caches, drifts, found);
      drifts, largeByGvk := drifts + found, AddGroup(largeByGvk, g, large);
      pending, done := pending - {g}, done + {g};
    }
    BagAll(manifests, done, Direct(caches));
  }

  /******* The cache check, second pass *******/

  lemma {:induction false} LargeListedIsDeferred(ms: seq<RawManifest>, g: Gvk, caches: Caches, lists: Lists)
    requires forall i | 0 <= i < |ms| :: ms[i].Gvk() == g
    ensures g in lists ==> Verdicts(LargeOnly(ms, caches), Listed(lists)) == Verdicts(ms, Deferred(caches, lists))
    ensures g !in lists || LargeOnly(ms, caches) == [] ==> Verdicts(ms, Deferred(caches, lists)) == []
    ensures forall i | 0 <= i < |LargeOnly(ms, caches)| :: LargeOnly(ms, caches)[i].Gvk() == g
  {
    if ms != [] {
      var init, last := ms[..|ms| - 1], ms[|ms| - 1];
      assert ms == init + [last];
      assert forall i | 0 <= i < |init| :: init[i] == ms[i];
      LargeListedIsDeferred(init, g, caches, lists);
      LargePush(init, last, caches);
      VerdictsPush(init, last, Deferred(caches, lists));
      if TierIn(last, caches) == Large {
        VerdictsPush(LargeOnly(init, caches), last, Listed(lists));
      } else {
        assert LargeOnly(init, caches) + [] == LargeOnly(init, caches);
      }
    }
  }

  lemma KindWithoutLarge(ms: seq<RawManifest>, g: Gvk, caches: Caches, lists: Lists)
    requires g !in lists || LargeOf(ms, g, caches) == []
    ensures Bag(ms, {g}, Deferred(caches, lists)) == multiset{}
  {
    SelectHasKind(ms, g);
    LargeListedIsDeferred(Select(ms, {g}), g, caches, lists);
  }

  lemma {:induction false} NothingDeferred(ms: seq<RawManifest>, kinds: set<Gvk>, caches: Caches, lists: Lists)
    requires forall g | g in kinds :: LargeOf(ms, g, caches) == []
    ensures Bag(ms, kinds, Deferred(caches, lists)) == multiset{}
  {
    if kinds == {} {
      SelectNone(ms);
    } else {
      var g :| g in kinds;
      NothingDeferred(ms, kinds - {g}, caches, lists);
      BagAddsUp(ms, kinds - {g}, g, Deferred(caches, lists));
      KindWithoutLarge(ms, g, caches, lists);
      assert kinds - {g} + {g} == kinds;
    }
  }

  /** One kind: its large manifests against the fetched list; without a list nothing is reported. */
  method CheckLarge(ghost all: seq<RawManifest>, ghost caches: Caches, ms: seq<RawManifest>, g: Gvk, lists: Lists)
    returns (drifts: seq<DriftItem>)
    requires ms == LargeOf(all, g, caches)
    ensures multiset(drifts) == Bag(all, {g}, Deferred(caches, lists))
  {
    drifts := [];
    if g !in lists {
      KindWithoutLarge(all, g, caches, lists);
      return;
    }
    SelectHasKind(all, g);
    LargeListedIsDeferred(Select(all, {g}), g, caches, lists);
    for i := 0 to |ms|
      invariant drifts == Verdicts(ms[..i], Listed(lists))
    {
      VerdictsPrefix(ms, i, Listed(lists));
      match FindLiveMatch(ms[i], lists[g])
      case None =>
        drifts := drifts + [DriftItem(KeyOf(ms[i]), MissingInCluster)];
      case Some(lo) =>
        if SpecsDiffer(ms[i].data, lo.value) {
          drifts := drifts + [DriftItem(KeyOf(ms[i]), SpecDiffers)];
        }
    }
    assert ms[..|ms|] == ms;
  }

  /** `lists` holds the kinds whose discovery and list call succeed. */
  method DetectFromLw(manifests: seq<RawManifest>, stores: map<Gvk, Tiers>, ghost caches: Caches, lists: Lists)
    returns (drifts: seq<DriftItem>)
    requires stores == SplitAll(caches)
    ensures multiset(drifts) == multiset(Verdicts(manifests, Direct(caches)))
                              + multiset(Verdicts(manifests, Deferred(caches, lists)))
  {
    ghost var check := Deferred(caches, lists);
    var large;
    drifts, large := DriftFromCache(manifests, stores, caches);
    ghost var direct := drifts;
    ghost var done: set<Gvk> := Kinds(manifests) - large.Keys;
    NothingDeferred(manifests, done, caches, lists);
    var pending := large.Keys;
    while pending != {}
      invariant done !! pending && pending <= large.Keys && Kinds(manifests) <= done + pending
      invariant multiset(drifts) == multiset(direct) + Bag(manifests, done, check)
      decreases pending
    {
      var g :| g in pending;
      var found := CheckLarge(manifests, caches, large[g], g, lists);
      BagAddsUp(manifests, done, g, check);
      drifts := drifts + found;
      pending, done := pending - {g}, done + {g};
    }
    BagAll(manifests, done, check);
  }

  /******* The cache check agrees with the list-based check *******/

  /** A cache holds exactly the listed objects, which are named and have distinct keys. */
  predicate Mirrors(live: Objects, list: seq<DynObj>) {
    && (forall i | 0 <= i < |list| :: list[i].name.Some?)
    && (forall i, j | 0 <= i < j < |list| :: ObjKeyOf(list[i]) != ObjKeyOf(list[j]))
    && (forall i | 0 <= i < |list| :: ObjKeyOf(list[i]) in live && live[ObjKeyOf(list[i])] == list[i])
    && (forall k | k in live :: exists i | 0 <= i < |list| :: ObjKeyOf(list[i]) == k)
  }

  lemma {:induction false} MatchIsFirst(m: RawManifest, list: seq<DynObj>)
    ensures match FindLiveMatch(m, list)
            case Some(o) => exists i | 0 <= i < |list| :: list[i] == o && Matches(m, o)
            case None => forall i | 0 <= i < |list| :: !Matches(m, list[i])
  {
    if list != [] && !Matches(m, list[0]) {
      MatchIsFirst(m, list[1..]);
      assert forall i | 0 < i < |list| :: list[i] == list[1..][i - 1];
      if FindLiveMatch(m, list[1..]).Some? {
        var o := FindLiveMatch(m, list[1..]).value;
        var i :| 0 <= i < |list[1..]| && list[1..][i] == o && Matches(m, o);
        assert list[i + 1] == o;
      }
    }
  }

  lemma MatchInMirror(m: RawManifest, live: Objects, list: seq<DynObj>)
    requires Mirrors(live, list)
    ensures var key := ObjKeyOfManifest(m);
            FindLiveMatch(m, list) == if key in live then Some(live[key]) else None
  {
    MatchIsFirst(m, list);
    var key := ObjKeyOfManifest(m);
    if key in live {
      var i :| 0 <= i < |list| && ObjKeyOf(list[i]) == key;
      assert Matches(m, list[i]);
    }
  }

  /** Every store mirrors its kind's list, and a kind without a store has nothing live. */
  predicate InSync(caches: Caches, lists: Lists) {
    && (forall g | g in caches :: g in lists && Mirrors(caches[g].live, lists[g]))
    && (forall g | g in lists && g !in caches :: lists[g] == [])
  }

  lemma VerdictsAgree(m: RawManifest, caches: Caches, lists: Lists)
    requires InSync(caches, lists)
    ensures var direct, deferred := Verdict(m, Direct(caches)), Verdict(m, Deferred(caches, lists));
            && (direct.None? || deferred.None?)
            && Verdict(m, Listed(lists)) == if direct.Some? then direct else deferred
  {
    var g := m.Gvk();
    if g in caches {
      MatchInMirror(m, caches[g].live, lists[g]);
    }
  }

  /** For caches in sync with the cluster, both cache passes together report exactly the drift items of
      the list-based check, whatever the size threshold. */
  lemma {:induction false} CachedDriftIsListedDrift(ms: seq<RawManifest>, caches: Caches, lists: Lists)
    requires InSync(caches, lists)
    ensures multiset(Verdicts(ms, Direct(caches))) + multiset(Verdicts(ms, Deferred(caches, lists)))
         == multiset(Verdicts(ms, Listed(lists)))
  {
    if ms != [] {
      CachedDriftIsListedDrift(ms[..|ms| - 1], caches, lists);
      VerdictsAgree(ms[|ms| - 1], caches, lists);
    }
  }

  /** Caches of the same objects, cut at different sizes. */
  predicate SameObjects(xs: Caches, ys: Caches) {
    xs.Keys == ys.Keys && forall g | g in xs :: xs[g].live == ys[g].live
  }

  /** What the cache check reports does not depend on the size up to which bodies are cached. */
  lemma SizeIrrelevant(ms: seq<RawManifest>, xs: Caches, ys: Caches, lists: Lists)
    requires InSync(xs, lists) && SameObjects(xs, ys)
    ensures multiset(Verdicts(ms, Direct(xs))) + multiset(Verdicts(ms, Deferred(xs, lists)))
         == multiset(Verdicts(ms, Direct(ys))) + multiset(Verdicts(ms, Deferred(ys, lists)))
  {
    CachedDriftIsListedDrift(ms, xs, lists);
    CachedDriftIsListedDrift(ms, ys, lists);
  }

  /** The two checks run side by side, the cached one on the current contents of the stores. */
  method DetectBothWays(manifests: seq<RawManifest>, stores: map<Gvk, LightweightStore>, lists: Lists)
    returns (cached: seq<DriftItem>, listed: seq<DriftItem>)
    requires forall g | g in stores :: stores[g].Valid()
    requires InSync(CachesOf(stores), lists)
    ensures multiset(cached) == multiset(listed)
  {
    ghost var caches := CachesOf(stores);
    var tiers := map g | g in stores :: stores[g].Read();
    assert tiers == SplitAll(caches);
    cached := DetectFromLw(manifests, tiers, caches, lists);
    listed := ComputeDrifts(manifests, lists);
    CachedDriftIsListedDrift(manifests, caches, lists);
  }

  /** A failed fallback list hides exactly the drift of that kind's large objects. */
  lemma FailedListHidesLarge(m: RawManifest, caches: Caches, lists: Lists, list: seq<DynObj>)
    requires m.Gvk() in caches && m.Gvk() !in lists && Mirrors(caches[m.Gvk()].live, list)
    ensures Verdict(m, Deferred(caches, lists)) == None
    ensures Verdict(m, Direct(caches))
         == if TierIn(m, caches) == Large then None else Verdict(m, Listed(lists[m.Gvk() := list]))
  {
    MatchInMirror(m, caches[m.Gvk()].live, list);
  }
}

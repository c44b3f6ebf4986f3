/** The recursive drift comparison of `src/drift.rs`: a Git value is satisfied by a live value
    that carries every declared field, where zero values may be missing because the API server
    omits them. */
module SpecSubset {

  import opened Wrappers
  import opened Json

  /** Values the API server omits from responses: `false`, `null`, `[]` and zero numbers. */
  predicate IsZeroValue(v: Json) {
    match v
    case Null => true
    case Bool(b) => !b
    case Arr(a) => a == []
    case Number(PosInt(u)) => u == 0
    case Number(NegInt(i)) => i == 0
    case Number(Float(f)) => f == 0.0
    case _ => false
  }

  predicate Subset(git: Json, live: Json) {
    match (git, live)
    case (Obj(g), Obj(l)) =>
      forall k | k in g ::
        if IsZeroValue(g[k]) && k !in l then true else k in l && Subset(g[k], l[k])
    case (Arr(g), Arr(l)) =>
      |g| <= |l| && forall i | 0 <= i < |g| :: Subset(g[i], l[i])
    case _ => git == live
  }

  /******* Whole-object comparison *******/

  const STRIPPED_KEYS: set<string> := {"apiVersion", "kind", "stringData"}

  function Strip(v: Json): Json {
    match v
    case Obj(m) => Obj(m - STRIPPED_KEYS)
    case _ => v
  }

  /** Compare `spec` when Git declares one, otherwise the whole stripped object. */
  predicate SpecsDiffer(git: Json, live: Json) {
    match (Get(Strip(git), "spec"), Get(Strip(live), "spec"))
    case (Some(g), Some(l)) => !Subset(g, l)
    case (Some(_), None) => true
    case (None, _) => !Subset(Strip(git), Strip(live))
  }

  /******* The leaf-path specification *******/

  const ZERO_VALUES: set<Json> :=
    {Null, Bool(false), Arr([]), Number(PosInt(0)), Number(NegInt(0)), Number(Float(0.0))}

  /** A scalar must be repeated exactly; an empty container only asks for a container of its type. */
  predicate Agrees(leaf: Json, live: Json) {
    match leaf
    case Obj(_) => live.Obj?
    case Arr(_) => live.Arr?
    case _ => leaf == live
  }

  /** The last step of `p` is an object key that live's parent object does not carry. */
  predicate MissingMember(live: Json, p: Path) {
    && p != []
    && p[|p| - 1].Key?
    && At(live, p[..|p| - 1]).Some?
    && var parent := At(live, p[..|p| - 1]).value;
       parent.Obj? && p[|p| - 1].name !in parent.members
  }

  predicate LeafPresent(git: Json, live: Json, p: Path)
    requires IsLeafPath(git, p)
  {
    At(live, p).Some? && Agrees(At(git, p).value, At(live, p).value)
  }

  predicate LeafElided(git: Json, live: Json, p: Path)
    requires IsLeafPath(git, p)
  {
    At(git, p).value in ZERO_VALUES && MissingMember(live, p)
  }

  ghost predicate LeafSpec(git: Json, live: Json) {
    forall p | IsLeafPath(git, p) :: LeafPresent(git, live, p) || LeafElided(git, live, p)
  }

  /** Taking the first step of a path on both sides changes nothing for the rest of it. */
  lemma LeafStep(git: Json, live: Json, s: Step, q: Path)
    requires Child(git, s).Some? && Child(live, s).Some?
    ensures IsLeafPath(git, [s] + q) == IsLeafPath(Child(git, s).value, q)
    ensures IsLeafPath(git, [s] + q) ==>
              && LeafPresent(git, live, [s] + q) == LeafPresent(Child(git, s).value, Child(live, s).value, q)
              && (q != [] ==>
                    LeafElided(git, live, [s] + q) == LeafElided(Child(git, s).value, Child(live, s).value, q))
              && (q == [] ==> !LeafElided(git, live, [s] + q))
  {
    AtCons(git, s, q);
    AtCons(live, s, q);
    if q != [] {
      assert ([s] + q)[..|q|] == [s] + q[..|q| - 1];
      AtCons(live, s, q[..|q| - 1]);
    } else {
      assert ([s] + q)[..|q|] == [];
    }
  }

  lemma {:induction false} SubsetKeepsLeaf(git: Json, live: Json, p: Path)
    requires Subset(git, live) && IsLeafPath(git, p)
    ensures LeafPresent(git, live, p) || LeafElided(git, live, p)
    decreases |p|
  {
    if p != [] {
      var s, q := p[0], p[1..];
      assert p == [s] + q;
      AtCons(git, s, q);
      if Child(live, s).Some? {
        LeafStep(git, live, s, q);
        SubsetKeepsLeaf(Child(git, s).value, Child(live, s).value, q);
      } else {
        assert git.Obj? && IsZeroValue(Child(git, s).value);
        assert q == [];
        assert p[..|p| - 1] == [];
      }
    }
  }

  /** A leaf below a step that live cannot take is a missing member of live itself. */
  lemma BlockedStep(git: Json, live: Json, s: Step, q: Path)
    requires Child(git, s).Some? && Child(live, s).None?
    requires IsLeafPath(git, [s] + q)
    requires LeafPresent(git, live, [s] + q) || LeafElided(git, live, [s] + q)
    ensures q == [] && live.Obj? && s.Key? && IsZeroValue(Child(git, s).value)
  {
    AtCons(git, s, q);
    AtCons(live, s, q);
    if q == [] {
      assert ([s] + q)[..|q|] == [];
    }
  }

  lemma LeafSpecOfChild(git: Json, live: Json, s: Step)
    requires LeafSpec(git, live)
    requires Child(git, s).Some?
    ensures Child(live, s).Some? ==> LeafSpec(Child(git, s).value, Child(live, s).value)
    ensures Child(live, s).None? ==> live.Obj? && s.Key? && IsZeroValue(Child(git, s).value)
  {
    var g := Child(git, s).value;
    if Child(live, s).Some? {
      var l := Child(live, s).value;
      forall q | IsLeafPath(g, q)
        ensures LeafPresent(g, l, q) || LeafElided(g, l, q)
      {
        LeafStep(git, live, s, q);
      }
    } else {
      var q := SomeLeafPath(g);
      AtCons(git, s, q);
      BlockedStep(git, live, s, q);
    }
  }

  lemma {:induction false} LeafSpecImpliesSubset(git: Json, live: Json)
    requires LeafSpec(git, live)
    ensures Subset(git, live)
    decreases git
  {
    if IsLeaf(git) {
      assert IsLeafPath(git, []);
      assert LeafPresent(git, live, []);
    } else if git.Obj? {
      forall k | k in git.members
        ensures live.Obj?
        ensures k in live.members ==> Subset(git.members[k], live.members[k])
        ensures k !in live.members ==> IsZeroValue(git.members[k])
      {
        assert Child(git, Key(k)) == Some(git.members[k]);
        LeafSpecOfChild(git, live, Key(k));
        if Child(live, Key(k)).Some? {
          LeafSpecImpliesSubset(git.members[k], live.members[k]);
        }
      }
      var k :| k in git.members;
    } else {
      var last := |git.items| - 1;
      assert Child(git, Index(last)) == Some(git.items[last]);
      LeafSpecOfChild(git, live, Index(last));
      forall i | 0 <= i < |git.items|
        ensures Subset(git.items[i], live.items[i])
      {
        assert Child(git, Index(i)) == Some(git.items[i]);
        LeafSpecOfChild(git, live, Index(i));
        LeafSpecImpliesSubset(git.items[i], live.items[i]);
      }
    }
  }

  /** The recursive comparison decides the leaf-path specification, for all values. */
  lemma SubsetIffLeafSpec(git: Json, live: Json)
    ensures Subset(git, live) <==> LeafSpec(git, live)
  {
    if Subset(git, live) {
      forall p | IsLeafPath(git, p)
        ensures LeafPresent(git, live, p) || LeafElided(git, live, p)
      {
        SubsetKeepsLeaf(git, live, p);
      }
    }
    if LeafSpec(git, live) {
      LeafSpecImpliesSubset(git, live);
    }
  }

  /******* The whole-object comparison by leaf paths *******/

  /** A leaf that Git declares and the live value neither repeats nor may leave out. */
  predicate Drifted(git: Json, live: Json, p: Path) {
    IsLeafPath(git, p) && !LeafPresent(git, live, p) && !LeafElided(git, live, p)
  }

  lemma SubsetIffNoDrift(git: Json, live: Json)
    ensures Subset(git, live) <==> forall p: Path :: !Drifted(git, live, p)
  {
    SubsetIffLeafSpec(git, live);
    if !LeafSpec(git, live) {
      var p: Path :| IsLeafPath(git, p) && !(LeafPresent(git, live, p) || LeafElided(git, live, p));
      assert Drifted(git, live, p);
    }
  }

  /** Below a member of both objects, a leaf has drifted in the objects exactly when it has in the members. */
  lemma DriftedBelow(git: Json, live: Json, k: string, q: Path)
    requires git.Obj? && live.Obj? && k in git.members && k in live.members
    ensures Drifted(git, live, [Key(k)] + q) <==> Drifted(git.members[k], live.members[k], q)
  {
    LeafStep(git, live, Key(k), q);
    if q == [] && IsLeafPath(git.members[k], q) {
      assert !LeafElided(git.members[k], live.members[k], q);
    }
  }

  lemma MemberDriftIff(git: Json, live: Json, k: string)
    requires git.Obj? && live.Obj? && k in git.members && k in live.members
    ensures Subset(git.members[k], live.members[k]) <==>
            forall p: Path | p != [] && p[0] == Key(k) :: !Drifted(git, live, p)
  {
    SubsetIffNoDrift(git.members[k], live.members[k]);
    forall p: Path | p != [] && p[0] == Key(k)
      ensures Drifted(git, live, p) <==> Drifted(git.members[k], live.members[k], p[1..])
    {
      assert p == [Key(k)] + p[1..];
      DriftedBelow(git, live, k, p[1..]);
    }
    forall q ensures Drifted(git, live, [Key(k)] + q) <==> Drifted(git.members[k], live.members[k], q) {
      DriftedBelow(git, live, k, q);
    }
  }

  /** Outside the members that are not compared, stripping changes no leaf. */
  lemma DriftedStripped(git: Json, live: Json, p: Path)
    requires git.Obj? && live.Obj? && p != [] && p[0].Key?
    ensures Drifted(Strip(git), Strip(live), p) <==>
            p[0].name !in {"apiVersion", "kind", "stringData"} && Drifted(git, live, p)
  {
    var k, q := p[0].name, p[1..];
    assert p == [p[0]] + q;
    AtCons(git, p[0], q);
    AtCons(live, p[0], q);
    AtCons(Strip(git), p[0], q);
    AtCons(Strip(live), p[0], q);
    if q == [] {
      assert p[..|p| - 1] == [];
    } else {
      assert p[..|p| - 1] == [p[0]] + q[..|q| - 1];
      AtCons(live, p[0], q[..|q| - 1]);
      AtCons(Strip(live), p[0], q[..|q| - 1]);
    }
  }

  lemma StrippedDriftIff(git: Json, live: Json)
    requires git.Obj? && live.Obj?
    ensures Subset(Strip(git), Strip(live)) <==>
            forall p: Path | p != [] && p[0].Key? && p[0].name !in {"apiVersion", "kind", "stringData"} ::
              !Drifted(git, live, p)
  {
    SubsetIffNoDrift(Strip(git), Strip(live));
    assert !Drifted(Strip(git), Strip(live), []);
    forall p: Path | p != [] && p[0].Key?
      ensures Drifted(Strip(git), Strip(live), p) <==>
              p[0].name !in {"apiVersion", "kind", "stringData"} && Drifted(git, live, p)
    {
      DriftedStripped(git, live, p);
    }
    forall p: Path | p != [] && !p[0].Key? ensures !Drifted(Strip(git), Strip(live), p) {
    }
  }

  /** When two objects differ, by the leaves of the values as they are: below `spec` if both have one, always
      if only Git has one, and otherwise anywhere but below `apiVersion`, `kind` and `stringData`. */
  lemma SpecsDifferLeafIff(git: Json, live: Json)
    requires git.Obj? && live.Obj?
    ensures "spec" !in git.members ==>
              (SpecsDiffer(git, live) <==>
               exists p: Path ::
                 && p != [] && p[0].Key? && p[0].name !in {"apiVersion", "kind", "stringData"}
                 && Drifted(git, live, p))
    ensures "spec" in git.members && "spec" in live.members ==>
              (SpecsDiffer(git, live) <==> exists p: Path :: p != [] && p[0] == Key("spec") && Drifted(git, live, p))
    ensures "spec" in git.members && "spec" !in live.members ==> SpecsDiffer(git, live)
  {
    assert Get(Strip(git), "spec") == Get(git, "spec") && Get(Strip(live), "spec") == Get(live, "spec");
    if "spec" !in git.members {
      StrippedDriftIff(git, live);
    } else if "spec" in live.members {
      MemberDriftIff(git, live, "spec");
    }
  }

  /** An object never satisfies a value that is none, and the other way round. */
  lemma SpecsDifferOtherwise(git: Json, live: Json)
    ensures git.Obj? != live.Obj? ==> SpecsDiffer(git, live)
    ensures !git.Obj? && !live.Obj? ==> (SpecsDiffer(git, live) <==> exists p: Path :: Drifted(git, live, p))
  {
    SubsetIffNoDrift(git, live);
  }
}

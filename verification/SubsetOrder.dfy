/** Which order laws the drift comparison obeys. It is reflexive, but not transitive, because a
    zero value that the middle value omits may come back with another content in the last one. */
module SubsetOrder {

  import opened Wrappers
  import opened Json
  import opened SpecSubset

  lemma {:induction false} SubsetReflexive(v: Json)
    ensures Subset(v, v)
  {
    match v
    case Obj(m) =>
      forall k | k in m ensures Subset(m[k], m[k]) { SubsetReflexive(m[k]); }
    case Arr(a) =>
      forall i | 0 <= i < |a| ensures Subset(a[i], a[i]) { SubsetReflexive(a[i]); }
    case _ =>
  }

  /** A non-empty container of the smaller value is a container of the same type in the larger. */
  lemma {:induction false} ContainerKept(b: Json, c: Json, p: Path)
    requires Subset(b, c)
    requires At(b, p).Some? && !IsLeaf(At(b, p).value)
    ensures At(c, p).Some?
    ensures At(b, p).value.Obj? ==> At(c, p).value.Obj?
    ensures At(b, p).value.Arr? ==> At(c, p).value.Arr?
    decreases |p|
  {
    if p != [] {
      var child := Child(b, p[0]).value;
      assert !IsZeroValue(child);
      ContainerKept(child, Child(c, p[0]).value, p[1..]);
    }
  }

  /** A leaf that the middle value carries is treated by the last value as the middle one asks. */
  lemma PresentLeafPassesOn(a: Json, b: Json, c: Json, p: Path)
    requires IsLeafPath(a, p) && LeafPresent(a, b, p)
    requires Subset(b, c)
    ensures LeafPresent(a, c, p) || LeafElided(a, c, p)
  {
    if IsLeaf(At(b, p).value) {
      SubsetKeepsLeaf(b, c, p);
    } else {
      ContainerKept(b, c, p);
    }
  }

  /** Two steps compose exactly when every leaf the first step elided is, in the last value,
      still missing or back with the value Git declares. */
  lemma SubsetTransitiveIff(a: Json, b: Json, c: Json)
    requires Subset(a, b) && Subset(b, c)
    ensures Subset(a, c) <==>
            forall p | IsLeafPath(a, p) && LeafElided(a, b, p) :: LeafPresent(a, c, p) || LeafElided(a, c, p)
  {
    SubsetIffLeafSpec(a, b);
    SubsetIffLeafSpec(a, c);
    forall p | IsLeafPath(a, p) && LeafPresent(a, b, p)
      ensures LeafPresent(a, c, p) || LeafElided(a, c, p)
    {
      PresentLeafPassesOn(a, b, c, p);
    }
  }

  /** No object anywhere in the value has a zero-valued member. */
  predicate NoZeroMember(v: Json) {
    match v
    case Obj(m) => forall k | k in m :: !IsZeroValue(m[k]) && NoZeroMember(m[k])
    case Arr(a) => forall i | 0 <= i < |a| :: NoZeroMember(a[i])
    case _ => true
  }

  lemma {:induction false} NoZeroMemberNoElision(a: Json, b: Json, p: Path)
    requires NoZeroMember(a) && IsLeafPath(a, p)
    ensures p != [] && p[|p| - 1].Key? ==> At(a, p).value !in ZERO_VALUES
    ensures !LeafElided(a, b, p)
    decreases |p|
  {
    if p != [] {
      var child := Child(a, p[0]).value;
      if |p| > 1 {
        assert p[1..][|p| - 2] == p[|p| - 1];
        NoZeroMemberNoElision(child, b, p[1..]);
      } else {
        assert At(child, p[1..]) == Some(child);
      }
    }
  }

  /** With no zero member to elide in the first value, steps always compose. */
  lemma SubsetTransitiveWithoutZeros(a: Json, b: Json, c: Json)
    requires NoZeroMember(a)
    requires Subset(a, b) && Subset(b, c)
    ensures Subset(a, c)
  {
    forall p | IsLeafPath(a, p)
      ensures !LeafElided(a, b, p)
    {
      NoZeroMemberNoElision(a, b, p);
    }
    SubsetTransitiveIff(a, b, c);
  }

  function Replicas(n: nat): Json {
    Obj(map["replicas" := Number(PosInt(n))])
  }

  /** Zero replicas, nothing declared, one replica: each step is accepted, their composition is not. */
  lemma SubsetNotTransitive()
    ensures Subset(Replicas(0), Obj(map[])) && Subset(Obj(map[]), Replicas(1))
    ensures !Subset(Replicas(0), Replicas(1))
  {
    assert "replicas" in Replicas(0).members;
  }
}

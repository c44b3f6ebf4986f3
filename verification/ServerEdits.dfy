/** What an API server may do to a value it was given, edit by edit: which values it can reach, and when
    the drift comparison accepts all of them. */
module ServerEdits {

  import opened Wrappers
  import opened Json
  import opened SpecSubset
  import opened SubsetOrder

  /******* Single server edits *******/

  /** One default filled in: a member under a new key, or an element after the last one. */
  ghost predicate AddStep(a: Json, b: Json) {
    match (a, b)
    case (Obj(m), Obj(n)) =>
      exists k | k in n ::
        if k in m then AddStep(m[k], n[k]) && n == m[k := n[k]] else n == m[k := n[k]]
    case (Arr(s), Arr(t)) =>
      || (exists i | 0 <= i < |s| :: |s| == |t| && AddStep(s[i], t[i]) && t == s[i := t[i]])
      || (|t| == |s| + 1 && t[..|s|] == s)
    case _ => false
  }

  /** One zero-valued object member omitted. */
  ghost predicate DropStep(a: Json, b: Json) {
    match (a, b)
    case (Obj(m), Obj(n)) =>
      exists k | k in m ::
        || (IsZeroValue(m[k]) && n == m - {k})
        || (k in n && DropStep(m[k], n[k]) && n == m[k := n[k]])
    case (Arr(s), Arr(t)) =>
      |s| == |t| && exists i | 0 <= i < |s| :: DropStep(s[i], t[i]) && t == s[i := t[i]]
    case _ => false
  }

  ghost predicate EditStep(a: Json, b: Json) {
    AddStep(a, b) || DropStep(a, b)
  }

  ghost predicate EditChain(c: seq<Json>) {
    c != [] && forall i | 0 <= i < |c| - 1 :: EditStep(c[i], c[i + 1])
  }

  ghost predicate ChainFromTo(c: seq<Json>, a: Json, b: Json) {
    EditChain(c) && c[0] == a && c[|c| - 1] == b
  }

  /** Any number of additions and omissions, in any order, lead from `a` to `b`. */
  ghost predicate Edited(a: Json, b: Json) {
    exists c :: ChainFromTo(c, a, b)
  }

  /******* Which values edits can reach *******/

  /** Everything in `a` is unchanged in `b`, except that zero-valued members may be gone or hold anything. */
  predicate Keeps(a: Json, b: Json) {
    match (a, b)
    case (Obj(m), Obj(n)) => forall k | k in m && !IsZeroValue(m[k]) :: k in n && Keeps(m[k], n[k])
    case (Arr(s), Arr(t)) => |s| <= |t| && forall i | 0 <= i < |s| :: Keeps(s[i], t[i])
    case _ => a == b
  }

  lemma {:induction false} KeepsReflexive(a: Json)
    ensures Keeps(a, a)
  {
    match a
    case Obj(m) => forall k | k in m ensures Keeps(m[k], m[k]) { KeepsReflexive(m[k]); }
    case Arr(s) => forall i | 0 <= i < |s| ensures Keeps(s[i], s[i]) { KeepsReflexive(s[i]); }
    case _ =>
  }

  lemma {:induction false} KeepsTransitive(a: Json, b: Json, c: Json)
    requires Keeps(a, b) && Keeps(b, c)
    ensures Keeps(a, c)
  {
    match a
    case Obj(m) =>
      forall k | k in m && !IsZeroValue(m[k]) ensures k in c.members && Keeps(m[k], c.members[k]) {
        assert !IsZeroValue(b.members[k]);
        KeepsTransitive(m[k], b.members[k], c.members[k]);
      }
    case Arr(s) =>
      forall i | 0 <= i < |s| ensures Keeps(s[i], c.items[i]) {
        KeepsTransitive(s[i], b.items[i], c.items[i]);
      }
    case _ =>
  }

  lemma {:induction false} AddStepKeeps(a: Json, b: Json)
    requires AddStep(a, b)
    ensures Keeps(a, b)
  {
    match (a, b)
    case (Obj(m), Obj(n)) =>
      forall k | k in m
        ensures k in n && Keeps(m[k], n[k])
      {
        KeepsReflexive(m[k]);
        if k in n && n[k] != m[k] {
          AddStepKeeps(m[k], n[k]);
        }
      }
    case (Arr(s), Arr(t)) =>
      forall i | 0 <= i < |s|
        ensures i < |t| && Keeps(s[i], t[i])
      {
        KeepsReflexive(s[i]);
        if |t| == |s| + 1 {
          assert t[i] == t[..|s|][i];
        } else if s[i] != t[i] {
          AddStepKeeps(s[i], t[i]);
        }
      }
    case _ =>
  }

  lemma {:induction false} DropStepKeeps(a: Json, b: Json)
    requires DropStep(a, b)
    ensures Keeps(a, b)
  {
    match (a, b)
    case (Obj(m), Obj(n)) =>
      forall k | k in m && !IsZeroValue(m[k])
        ensures k in n && Keeps(m[k], n[k])
      {
        KeepsReflexive(m[k]);
        if k in n && n[k] != m[k] {
          DropStepKeeps(m[k], n[k]);
        }
      }
    case (Arr(s), Arr(t)) =>
      forall i | 0 <= i < |s|
        ensures Keeps(s[i], t[i])
      {
        KeepsReflexive(s[i]);
        if s[i] != t[i] {
          DropStepKeeps(s[i], t[i]);
        }
      }
    case _ =>
  }

  lemma {:induction false} ChainKeeps(c: seq<Json>)
    requires EditChain(c)
    ensures Keeps(c[0], c[|c| - 1])
    decreases |c|
  {
    if |c| == 1 {
      KeepsReflexive(c[0]);
    } else {
      var init, a, b := c[..|c| - 1], c[|c| - 2], c[|c| - 1];
      ChainKeeps(init);
      assert EditStep(a, b);
      if AddStep(a, b) {
        AddStepKeeps(a, b);
      } else {
        DropStepKeeps(a, b);
      }
      KeepsTransitive(c[0], a, b);
    }
  }

  /******* Building chains *******/

  lemma EditedReflexive(a: Json)
    ensures Edited(a, a)
  {
    assert ChainFromTo([a], a, a);
  }

  lemma EditedByStep(a: Json, b: Json)
    requires EditStep(a, b)
    ensures Edited(a, b)
  {
    assert ChainFromTo([a, b], a, b);
  }

  lemma EditedTransitive(a: Json, b: Json, c: Json)
    requires Edited(a, b) && Edited(b, c)
    ensures Edited(a, c)
  {
    var x :| ChainFromTo(x, a, b);
    var y :| ChainFromTo(y, b, c);
    var z := x + y[1..];
    forall i | 0 <= i < |z| - 1 ensures EditStep(z[i], z[i + 1]) {
      if i < |x| - 1 {
        assert z[i] == x[i] && z[i + 1] == x[i + 1];
      } else {
        assert z[i] == y[i - |x| + 1] && z[i + 1] == y[i - |x| + 2];
      }
    }
    assert ChainFromTo(z, a, c);
  }

  /** Editing a member edits the object. */
  lemma StepInMember(m: map<string, Json>, k: string, a: Json, b: Json)
    requires EditStep(a, b)
    ensures EditStep(Obj(m[k := a]), Obj(m[k := b]))
  {
    var x, y := m[k := a], m[k := b];
    assert x[k] == a && y[k] == b && y == x[k := y[k]];
  }

  lemma EditedMember(m: map<string, Json>, k: string, a: Json, b: Json)
    requires Edited(a, b)
    ensures Edited(Obj(m[k := a]), Obj(m[k := b]))
  {
    var c :| ChainFromTo(c, a, b);
    var d := seq(|c|, i requires 0 <= i < |c| => Obj(m[k := c[i]]));
    forall i | 0 <= i < |d| - 1 ensures EditStep(d[i], d[i + 1]) {
      StepInMember(m, k, c[i], c[i + 1]);
    }
    assert ChainFromTo(d, Obj(m[k := a]), Obj(m[k := b]));
  }

  lemma StepInItem(s: seq<Json>, i: nat, a: Json, b: Json)
    requires i < |s| && EditStep(a, b)
    ensures EditStep(Arr(s[i := a]), Arr(s[i := b]))
  {
    var x, y := s[i := a], s[i := b];
    assert x[i] == a && y[i] == b && y == x[i := y[i]];
  }

  lemma EditedItem(s: seq<Json>, i: nat, a: Json, b: Json)
    requires i < |s| && Edited(a, b)
    ensures Edited(Arr(s[i := a]), Arr(s[i := b]))
  {
    var c :| ChainFromTo(c, a, b);
    var d := seq(|c|, j requires 0 <= j < |c| => Arr(s[i := c[j]]));
    forall j | 0 <= j < |d| - 1 ensures EditStep(d[j], d[j + 1]) {
      StepInItem(s, i, c[j], c[j + 1]);
    }
    assert ChainFromTo(d, Arr(s[i := a]), Arr(s[i := b]));
  }

  /** `m` with its member `k` as `n` has it. */
  function TakeOver(m: map<string, Json>, n: map<string, Json>, k: string): map<string, Json> {
    if k in n then m[k := n[k]] else m - {k}
  }

  /** A zero member is dropped and added again, any other is edited in place, a new one is added. */
  lemma EditedOver(m: map<string, Json>, n: map<string, Json>, k: string)
    requires k in m && !IsZeroValue(m[k]) ==> k in n && Edited(m[k], n[k])
    ensures Edited(Obj(m), Obj(TakeOver(m, n, k)))
  {
    if k in m && !IsZeroValue(m[k]) {
      EditedMember(m, k, m[k], n[k]);
      assert m[k := m[k]] == m;
    } else {
      var without := m - {k};
      EditedReflexive(Obj(m));
      if k in m {
        assert DropStep(Obj(m), Obj(without));
        EditedByStep(Obj(m), Obj(without));
      } else {
        assert without == m;
      }
      if k in n {
        assert without[k := n[k]] == m[k := n[k]];
        assert AddStep(Obj(without), Obj(m[k := n[k]]));
        EditedByStep(Obj(without), Obj(m[k := n[k]]));
        EditedTransitive(Obj(m), Obj(without), Obj(m[k := n[k]]));
      }
    }
  }

  lemma EditedObjects(m: map<string, Json>, n: map<string, Json>)
    requires forall k | k in m && !IsZeroValue(m[k]) :: k in n && Edited(m[k], n[k])
    ensures Edited(Obj(m), Obj(n))
  {
    var x, pending := m, m.Keys + n.Keys;
    EditedReflexive(Obj(m));
    while pending != {}
      invariant Edited(Obj(m), Obj(x)) && x.Keys <= m.Keys + n.Keys
      invariant forall k | k in pending :: (k in x <==> k in m) && (k in m ==> x[k] == m[k])
      invariant forall k | k in m.Keys + n.Keys - pending :: (k in x <==> k in n) && (k in n ==> x[k] == n[k])
      decreases pending
    {
      var k :| k in pending;
      EditedOver(x, n, k);
      EditedTransitive(Obj(m), Obj(x), Obj(TakeOver(x, n, k)));
      x, pending := TakeOver(x, n, k), pending - {k};
    }
    assert x == n;
  }

  lemma EditedItems(s: seq<Json>, t: seq<Json>)
    requires |s| == |t| && forall i | 0 <= i < |s| :: Edited(s[i], t[i])
    ensures Edited(Arr(s), Arr(t))
  {
    EditedReflexive(Arr(s));
    var i, x := 0, s;
    while i < |s|
      invariant i <= |s| == |x| && Edited(Arr(s), Arr(x))
      invariant forall j | 0 <= j < |s| :: x[j] == if j < i then t[j] else s[j]
    {
      EditedItem(x, i, s[i], t[i]);
      assert x[i := s[i]] == x;
      EditedTransitive(Arr(s), Arr(x), Arr(x[i := t[i]]));
      i, x := i + 1, x[i := t[i]];
    }
    assert x == t;
  }

  lemma EditedAppend(s: seq<Json>, more: seq<Json>)
    ensures Edited(Arr(s), Arr(s + more))
  {
    if more == [] {
      assert s + more == s;
      EditedReflexive(Arr(s));
    } else {
      var front, last := more[..|more| - 1], more[|more| - 1];
      EditedAppend(s, front);
      var x, y := s + front, s + more;
      assert y[..|x|] == x;
      EditedByStep(Arr(x), Arr(y));
      EditedTransitive(Arr(s), Arr(x), Arr(y));
    }
  }

  lemma {:induction false} KeepsIsEdited(a: Json, b: Json)
    requires Keeps(a, b)
    ensures Edited(a, b)
  {
    match (a, b)
    case (Obj(m), Obj(n)) =>
      forall k | k in m && !IsZeroValue(m[k]) ensures k in n && Edited(m[k], n[k]) { KeepsIsEdited(m[k], n[k]); }
      EditedObjects(m, n);
    case (Arr(s), Arr(t)) =>
      forall i | 0 <= i < |s| ensures Edited(s[i], t[i]) { KeepsIsEdited(s[i], t[i]); }
      EditedItems(s, t[..|s|]);
      EditedAppend(t[..|s|], t[|s|..]);
      assert t[..|s|] + t[|s|..] == t;
      EditedTransitive(a, Arr(t[..|s|]), b);
    case _ => EditedReflexive(a);
  }

  /** The values a server can reach are exactly those that keep everything but the zero-valued members. */
  lemma EditedIff(a: Json, b: Json)
    ensures Edited(a, b) <==> Keeps(a, b)
  {
    if Edited(a, b) {
      var c :| ChainFromTo(c, a, b);
      ChainKeeps(c);
    }
    if Keeps(a, b) {
      KeepsIsEdited(a, b);
    }
  }

  /******* When the comparison accepts an edited value *******/

  /** The leaf is a zero-valued member that is back with another content. */
  predicate RefilledAt(a: Json, b: Json, p: Path)
    requires IsLeafPath(a, p)
  {
    && p != [] && p[|p| - 1].Key?
    && At(a, p).value in ZERO_VALUES
    && At(b, p).Some? && !Agrees(At(a, p).value, At(b, p).value)
  }

  ghost predicate Refilled(a: Json, b: Json) {
    exists p :: IsLeafPath(a, p) && RefilledAt(a, b, p)
  }

  lemma {:induction false} KeepsLeaf(a: Json, b: Json, p: Path)
    requires Keeps(a, b) && IsLeafPath(a, p)
    ensures LeafPresent(a, b, p) || LeafElided(a, b, p) || RefilledAt(a, b, p)
    decreases |p|
  {
    if p != [] {
      var s, q := p[0], p[1..];
      assert p == [s] + q;
      AtCons(a, s, q);
      AtCons(b, s, q);
      if IsZeroValue(Child(a, s).value) {
        assert q == [];
        assert p[..|p| - 1] == [];
      }
      if Child(b, s).Some? && (a.Arr? || !IsZeroValue(Child(a, s).value)) {
        LeafStep(a, b, s, q);
        KeepsLeaf(Child(a, s).value, Child(b, s).value, q);
      }
    }
  }

  lemma RefilledBreaks(a: Json, b: Json, p: Path)
    requires IsLeafPath(a, p) && RefilledAt(a, b, p)
    ensures !LeafPresent(a, b, p) && !LeafElided(a, b, p)
  {
    var front, last := p[..|p| - 1], p[|p| - 1];
    assert p == front + [last];
    AtConcat(b, front, [last]);
    AtCons(At(b, front).GetOr(Null), last, []);
  }

  /** The comparison rejects an edited value exactly when a zero-valued member is back with another content. */
  lemma EditedSubsetIff(a: Json, b: Json)
    requires Edited(a, b)
    ensures Subset(a, b) <==> !Refilled(a, b)
  {
    EditedIff(a, b);
    SubsetIffLeafSpec(a, b);
    if p :| IsLeafPath(a, p) && RefilledAt(a, b, p) {
      RefilledBreaks(a, b, p);
    } else {
      forall p | IsLeafPath(a, p) ensures LeafPresent(a, b, p) || LeafElided(a, b, p) { KeepsLeaf(a, b, p); }
    }
  }

  lemma ZeroFreeNotRefilled(a: Json, b: Json)
    requires NoZeroMember(a)
    ensures !Refilled(a, b)
  {
    forall p | IsLeafPath(a, p) ensures !RefilledAt(a, b, p) { NoZeroMemberNoElision(a, b, p); }
  }

  /** What a server makes of a value if it fills in every zero-valued member. */
  function Defaulted(v: Json): Json {
    match v
    case Obj(m) => Obj(map k | k in m :: if IsZeroValue(m[k]) then Str("") else Defaulted(m[k]))
    case Arr(s) => Arr(seq(|s|, i requires 0 <= i < |s| => Defaulted(s[i])))
    case _ => v
  }

  lemma {:induction false} DefaultedKeeps(v: Json)
    ensures Keeps(v, Defaulted(v))
  {
    match v
    case Obj(m) => forall k | k in m ensures Keeps(m[k], Defaulted(m[k])) { DefaultedKeeps(m[k]); }
    case Arr(s) => forall i | 0 <= i < |s| ensures Keeps(s[i], Defaulted(s[i])) { DefaultedKeeps(s[i]); }
    case _ =>
  }

  /** `b` holds the members of `a`, and perhaps others beside them, at every depth. */
  predicate Within(a: Json, b: Json) {
    match (a, b)
    case (Obj(m), Obj(n)) => forall k | k in m :: k in n && Within(m[k], n[k])
    case _ => a == b
  }

  lemma {:induction false} WithinReflexive(a: Json)
    ensures Within(a, a)
  {
    if a.Obj? {
      forall k | k in a.members ensures Within(a.members[k], a.members[k]) { WithinReflexive(a.members[k]); }
    }
  }

  lemma {:induction false} WithinKeeps(a: Json, b: Json, c: Json)
    requires Within(a, b) && Keeps(b, c)
    ensures Keeps(a, c)
  {
    if a.Obj? {
      forall k | k in a.members && !IsZeroValue(a.members[k])
        ensures k in c.members && Keeps(a.members[k], c.members[k])
      {
        WithinKeeps(a.members[k], b.members[k], c.members[k]);
      }
    }
  }

  /** Filling in every zero-valued member of a larger value breaks the comparison, if there are any. */
  lemma {:induction false} DefaultedBreaks(a: Json, b: Json)
    requires Within(a, b) && !NoZeroMember(a)
    ensures !Subset(a, Defaulted(b))
  {
    match a
    case Obj(m) =>
      var k :| k in m && (IsZeroValue(m[k]) || !NoZeroMember(m[k]));
      if !IsZeroValue(m[k]) {
        DefaultedBreaks(m[k], b.members[k]);
      }
      assert k in Defaulted(b).members;
    case Arr(s) =>
      var i :| 0 <= i < |s| && !NoZeroMember(s[i]);
      WithinReflexive(s[i]);
      DefaultedBreaks(s[i], s[i]);
      assert Defaulted(b).items[i] == Defaulted(s[i]);
  }

  /** A value is accepted after all edits exactly when no object in it has a zero-valued member. */
  lemma ZeroFreeIff(a: Json)
    ensures NoZeroMember(a) <==> forall b | Edited(a, b) :: Subset(a, b)
  {
    if NoZeroMember(a) {
      forall b | Edited(a, b) ensures Subset(a, b) {
        ZeroFreeNotRefilled(a, b);
        EditedSubsetIff(a, b);
      }
    } else {
      DefaultedKeeps(a);
      EditedIff(a, Defaulted(a));
      WithinReflexive(a);
      DefaultedBreaks(a, a);
    }
  }

  /******* Additions first *******/

  ghost predicate AddChain(c: seq<Json>) {
    c != [] && forall i | 0 <= i < |c| - 1 :: AddStep(c[i], c[i + 1])
  }

  ghost predicate DropChain(c: seq<Json>) {
    c != [] && forall i | 0 <= i < |c| - 1 :: DropStep(c[i], c[i + 1])
  }

  /** Everything in `a` is unchanged in `b`, which may hold more. */
  predicate Extends(a: Json, b: Json) {
    match (a, b)
    case (Obj(m), Obj(n)) => forall k | k in m :: k in n && Extends(m[k], n[k])
    case (Arr(s), Arr(t)) => |s| <= |t| && forall i | 0 <= i < |s| :: Extends(s[i], t[i])
    case _ => a == b
  }

  /** Everything in `a` is unchanged in `b`, except that zero-valued members may be gone. */
  predicate OnlyOmits(a: Json, b: Json) {
    match (a, b)
    case (Obj(m), Obj(n)) =>
      n.Keys <= m.Keys && forall k | k in m :: if k in n then OnlyOmits(m[k], n[k]) else IsZeroValue(m[k])
    case (Arr(s), Arr(t)) => |s| == |t| && forall i | 0 <= i < |s| :: OnlyOmits(s[i], t[i])
    case _ => a == b
  }

  lemma {:induction false} ExtendsReflexive(a: Json)
    ensures Extends(a, a)
  {
    match a
    case Obj(m) => forall k | k in m ensures Extends(m[k], m[k]) { ExtendsReflexive(m[k]); }
    case Arr(s) => forall i | 0 <= i < |s| ensures Extends(s[i], s[i]) { ExtendsReflexive(s[i]); }
    case _ =>
  }

  lemma {:induction false} OnlyOmitsReflexive(a: Json)
    ensures OnlyOmits(a, a)
  {
    match a
    case Obj(m) => forall k | k in m ensures OnlyOmits(m[k], m[k]) { OnlyOmitsReflexive(m[k]); }
    case Arr(s) => forall i | 0 <= i < |s| ensures OnlyOmits(s[i], s[i]) { OnlyOmitsReflexive(s[i]); }
    case _ =>
  }

  lemma {:induction false} AddStepExtends(a: Json, b: Json)
    requires AddStep(a, b)
    ensures Extends(a, b)
  {
    match (a, b)
    case (Obj(m), Obj(n)) =>
      forall k | k in m
        ensures k in n && Extends(m[k], n[k])
      {
        ExtendsReflexive(m[k]);
        if k in n && n[k] != m[k] {
          AddStepExtends(m[k], n[k]);
        }
      }
    case (Arr(s), Arr(t)) =>
      forall i | 0 <= i < |s|
        ensures i < |t| && Extends(s[i], t[i])
      {
        ExtendsReflexive(s[i]);
        if |t| == |s| + 1 {
          assert t[i] == t[..|s|][i];
        } else if s[i] != t[i] {
          AddStepExtends(s[i], t[i]);
        }
      }
    case _ =>
  }

  lemma {:induction false} DropStepOmits(a: Json, b: Json)
    requires DropStep(a, b)
    ensures OnlyOmits(a, b)
  {
    match (a, b)
    case (Obj(m), Obj(n)) =>
      forall k | k in m
        ensures if k in n then OnlyOmits(m[k], n[k]) else IsZeroValue(m[k])
      {
        OnlyOmitsReflexive(m[k]);
        if k in n && n[k] != m[k] {
          DropStepOmits(m[k], n[k]);
        }
      }
    case (Arr(s), Arr(t)) =>
      forall i | 0 <= i < |s|
        ensures OnlyOmits(s[i], t[i])
      {
        OnlyOmitsReflexive(s[i]);
        if s[i] != t[i] {
          DropStepOmits(s[i], t[i]);
        }
      }
    case _ =>
  }

  lemma {:induction false} ExtendsTransitive(a: Json, b: Json, c: Json)
    requires Extends(a, b) && Extends(b, c)
    ensures Extends(a, c)
  {
    match a
    case Obj(m) =>
      forall k | k in m ensures k in c.members && Extends(m[k], c.members[k]) {
        ExtendsTransitive(m[k], b.members[k], c.members[k]);
      }
    case Arr(s) =>
      forall i | 0 <= i < |s| ensures Extends(s[i], c.items[i]) {
        ExtendsTransitive(s[i], b.items[i], c.items[i]);
      }
    case _ =>
  }

  lemma {:induction false} OnlyOmitsTransitive(a: Json, b: Json, c: Json)
    requires OnlyOmits(a, b) && OnlyOmits(b, c)
    ensures OnlyOmits(a, c)
  {
    match a
    case Obj(m) =>
      forall k | k in m
        ensures if k in c.members then OnlyOmits(m[k], c.members[k]) else IsZeroValue(m[k])
      {
        if k in b.members && k in c.members {
          OnlyOmitsTransitive(m[k], b.members[k], c.members[k]);
        }
      }
    case Arr(s) =>
      forall i | 0 <= i < |s| ensures OnlyOmits(s[i], c.items[i]) {
        OnlyOmitsTransitive(s[i], b.items[i], c.items[i]);
      }
    case _ =>
  }

  lemma {:induction false} AddChainExtends(c: seq<Json>)
    requires AddChain(c)
    ensures Extends(c[0], c[|c| - 1])
    decreases |c|
  {
    if |c| == 1 {
      ExtendsReflexive(c[0]);
    } else {
      var init := c[..|c| - 1];
      AddChainExtends(init);
      AddStepExtends(c[|c| - 2], c[|c| - 1]);
      ExtendsTransitive(c[0], c[|c| - 2], c[|c| - 1]);
    }
  }

  lemma {:induction false} DropChainOmits(c: seq<Json>)
    requires DropChain(c)
    ensures OnlyOmits(c[0], c[|c| - 1])
    decreases |c|
  {
    if |c| == 1 {
      OnlyOmitsReflexive(c[0]);
    } else {
      var init := c[..|c| - 1];
      DropChainOmits(init);
      DropStepOmits(c[|c| - 2], c[|c| - 1]);
      OnlyOmitsTransitive(c[0], c[|c| - 2], c[|c| - 1]);
    }
  }

  /** Additions first and omissions afterwards never break the comparison. */
  lemma {:induction false} ExtendsThenOmitsIsSubset(a: Json, b: Json, c: Json)
    requires Extends(a, b) && OnlyOmits(b, c)
    ensures Subset(a, c)
  {
    match a
    case Obj(m) =>
      forall k | k in m
        ensures if k in c.members then Subset(m[k], c.members[k]) else IsZeroValue(m[k])
      {
        if k in c.members {
          ExtendsThenOmitsIsSubset(m[k], b.members[k], c.members[k]);
        }
      }
    case Arr(s) =>
      forall i | 0 <= i < |s| ensures Subset(s[i], c.items[i]) {
        ExtendsThenOmitsIsSubset(s[i], b.items[i], c.items[i]);
      }
    case _ =>
  }

  /** A server that omits members only after its last addition never breaks the comparison. */
  lemma AddsThenDropsIsSubset(adds: seq<Json>, drops: seq<Json>)
    requires AddChain(adds) && DropChain(drops) && adds[|adds| - 1] == drops[0]
    ensures Subset(adds[0], drops[|drops| - 1])
  {
    AddChainExtends(adds);
    DropChainOmits(drops);
    ExtendsThenOmitsIsSubset(adds[0], drops[0], drops[|drops| - 1]);
  }
}

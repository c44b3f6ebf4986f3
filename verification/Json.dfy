/** Untyped JSON values (section 3 of RFC 8259) as the controller holds them after parsing. */
module Json {

  import opened Wrappers

  /** The three internal forms of a number; two numbers are equal only within one form. */
  datatype Num = PosInt(u: nat) | NegInt(i: int) | Float(f: real)

  datatype Json =
    | Null
    | Bool(b: bool)
    | Number(n: Num)
    | Str(s: string)
    | Arr(items: seq<Json>)
    | Obj(members: map<string, Json>)

  /** The member of an object under a key; any other value has no members. */
  function Get(v: Json, key: string): Option<Json> {
    if v.Obj? && key in v.members then Some(v.members[key]) else None
  }

  function GetStr(v: Json, key: string): Option<string> {
    match Get(v, key)
    case Some(Str(s)) => Some(s)
    case _ => None
  }

  /** One step from a container to a child, and sequences of them. */
  datatype Step = Key(name: string) | Index(i: nat)
  type Path = seq<Step>

  function Child(v: Json, s: Step): Option<Json> {
    match (v, s)
    case (Obj(m), Key(k)) => if k in m then Some(m[k]) else None
    case (Arr(a), Index(i)) => if i < |a| then Some(a[i]) else None
    case _ => None
  }

  /** The value reached from `v` along `p`, if every step exists. */
  function At(v: Json, p: Path): Option<Json>
    decreases |p|
  {
    if p == [] then Some(v)
    else
      match Child(v, p[0])
      case Some(c) => At(c, p[1..])
      case None => None
  }

  /** A scalar or an empty container: the end of a path. */
  predicate IsLeaf(v: Json) {
    && (v.Obj? ==> v.members == map[])
    && (v.Arr? ==> v.items == [])
  }

  predicate IsLeafPath(v: Json, p: Path) {
    At(v, p).Some? && IsLeaf(At(v, p).value)
  }

  /** Every value has at least one leaf. */
  ghost function SomeLeafPath(v: Json): (p: Path)
    ensures IsLeafPath(v, p)
  {
    match v
    case Obj(m) =>
      if m == map[] then [] else
      var k :| k in m;
      var q := SomeLeafPath(m[k]);
      AtCons(v, Key(k), q);
      [Key(k)] + q
    case Arr(a) =>
      if a == [] then [] else
      var q := SomeLeafPath(a[0]);
      AtCons(v, Index(0), q);
      [Index(0)] + q
    case _ => []
  }

  lemma AtCons(v: Json, s: Step, q: Path)
    ensures At(v, [s] + q) == (match Child(v, s) case Some(c) => At(c, q) case None => None)
  {
    assert ([s] + q)[1..] == q;
  }

  /** Paths compose. */
  lemma {:induction false} AtConcat(v: Json, p: Path, q: Path)
    ensures At(v, p + q) == (match At(v, p) case Some(c) => At(c, q) case None => None)
    decreases |p|
  {
    if p == [] {
      assert p + q == q;
    } else {
      assert (p + q)[1..] == p[1..] + q;
      match Child(v, p[0])
      case None =>
      case Some(c) => AtConcat(c, p[1..], q);
    }
  }
}

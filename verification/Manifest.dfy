/** Manifests: flattening parsed documents (`src/manifest.rs`) and the managed-by label.
    YAML text is not modelled; the input is the parsed JSON value of each document. */
module Manifest {

  import opened Wrappers
  import opened Json

  type Gvk = (string, string, string)

  /** One manifest with the identity bits read from its document. `data` is the whole document. */
  datatype RawManifest = RawManifest(
    group: string,
    version: string,
    kind: string,
    name: string,
    namespace: Option<string>,
    data: Json,
    annotations: map<string, string>)
  {
    function Gvk(): Gvk {
      (group, version, kind)
    }
  }

  /******* apiVersion *******/

  /** Split at the first `/`; without one the group is the core group. */
  function SplitApiVersion(s: string): (string, string) {
    if '/' in s then
      var i := FirstSlash(s);
      (s[..i], s[i + 1..])
    else ("", s)
  }

  function FirstSlash(s: string): (i: nat)
    requires '/' in s
    ensures i < |s| && s[i] == '/' && '/' !in s[..i]
  {
    if s[0] == '/' then 0 else
    var j := FirstSlash(s[1..]);
    assert s[..j + 1] == [s[0]] + s[1..][..j];
    j + 1
  }

  /** The split loses nothing: joining the parts gives the apiVersion back, and the group has no slash. */
  lemma SplitApiVersionJoins(s: string)
    ensures var (group, version) := SplitApiVersion(s);
            && '/' !in group
            && s == (if '/' in s then group + "/" + version else version)
            && ('/' !in s ==> group == "")
  {
    if '/' in s {
      var i := FirstSlash(s);
      assert s == s[..i] + [s[i]] + s[i + 1..];
    }
  }

  /******* One document *******/

  function StringMembers(v: Option<Json>): map<string, string> {
    match v
    case Some(Obj(a)) => map k | k in a && a[k].Str? :: a[k].s
    case _ => map[]
  }

  function ValueToManifest(value: Json): Option<RawManifest> {
    match (GetStr(value, "apiVersion"), GetStr(value, "kind"))
    case (Some(apiVersion), Some(kind)) =>
      var metadata := Get(value, "metadata").GetOr(Null);
      (match GetStr(metadata, "name")
       case None => None
       case Some(name) =>
         var (group, version) := SplitApiVersion(apiVersion);
         Some(RawManifest(group, version, kind, name, GetStr(metadata, "namespace"), value,
                          StringMembers(Get(metadata, "annotations")))))
    case _ => None
  }

  /** A document is a manifest exactly when it has a string `apiVersion`, `kind` and `metadata.name`;
      the manifest carries these, and its `apiVersion` can be put together again. */
  lemma ManifestIff(value: Json)
    ensures ValueToManifest(value).Some? <==>
            && GetStr(value, "apiVersion").Some?
            && GetStr(value, "kind").Some?
            && GetStr(Get(value, "metadata").GetOr(Null), "name").Some?
    ensures ValueToManifest(value).Some? ==>
              var m := ValueToManifest(value).value;
              && m.data == value
              && GetStr(value, "kind") == Some(m.kind)
              && GetStr(Get(value, "metadata").GetOr(Null), "name") == Some(m.name)
              && GetStr(Get(value, "metadata").GetOr(Null), "namespace") == m.namespace
              && GetStr(value, "apiVersion")
                 == Some(if '/' in GetStr(value, "apiVersion").value then m.group + "/" + m.version else m.version)
              && (forall k :: k in m.annotations <==>
                                Get(Get(Get(value, "metadata").GetOr(Null), "annotations").GetOr(Null), k).Some?
                                && Get(Get(value, "metadata").value, "annotations").value.members[k].Str?)
              && (forall k | k in m.annotations ::
                    Get(Get(value, "metadata").value, "annotations").value.members[k] == Str(m.annotations[k]))
  {
    if GetStr(value, "apiVersion").Some? {
      SplitApiVersionJoins(GetStr(value, "apiVersion").value);
    }
  }

  /******* Nested lists of documents *******/

  predicate IsList(v: Json) {
    GetStr(v, "kind") == Some("List")
  }

  /** The document at a path of item positions through nested lists. */
  function DocAt(v: Json, p: seq<nat>): Option<Json>
    decreases |p|
  {
    if IsList(v) then
      if p != [] && Get(v, "items").Some? then ItemDocAt(Get(v, "items").value, p) else None
    else if p == [] then Some(v) else None
  }

  function ItemDocAt(items: Json, p: seq<nat>): Option<Json>
    requires p != []
    decreases |p|, 0
  {
    if items.Arr? && p[0] < |items.items| then DocAt(items.items[p[0]], p[1..]) else None
  }

  /** Positions of all documents that are not themselves lists, in document order. */
  function DocPaths(v: Json): seq<seq<nat>>
    decreases v, 0
  {
    if IsList(v) then
      match Get(v, "items")
      case Some(Arr(a)) => ItemPaths(Get(v, "items").value, 0)
      case _ => []
    else [[]]
  }

  function ItemPaths(items: Json, i: nat): seq<seq<nat>>
    requires items.Arr? && i <= |items.items|
    decreases items, |items.items| - i + 1
  {
    if i == |items.items| then []
    else Prefixed(i, DocPaths(items.items[i])) + ItemPaths(items, i + 1)
  }

  function Prefixed(i: nat, paths: seq<seq<nat>>): (r: seq<seq<nat>>)
    ensures |r| == |paths|
    ensures forall k | 0 <= k < |r| :: r[k] == [i] + paths[k]
  {
    seq(|paths|, k requires 0 <= k < |paths| => [i] + paths[k])
  }

  /** Strict document order on positions. */
  predicate Before(p: seq<nat>, q: seq<nat>) {
    p != [] && q != [] && (p[0] < q[0] || (p[0] == q[0] && Before(p[1..], q[1..])))
  }

  predicate InDocumentOrder(paths: seq<seq<nat>>) {
    forall i, j | 0 <= i < j < |paths| :: Before(paths[i], paths[j])
  }

  lemma {:induction false} DocPathsExact(v: Json, p: seq<nat>)
    ensures p in DocPaths(v) <==> DocAt(v, p).Some?
    decreases v, 0
  {
    if IsList(v) && Get(v, "items").Some? && Get(v, "items").value.Arr? {
      if p != [] {
        ItemPathsExact(Get(v, "items").value, 0, p);
      } else {
        ItemPathsNonEmpty(Get(v, "items").value, 0);
      }
    }
  }

  lemma {:induction false} ItemPathsNonEmpty(items: Json, i: nat)
    requires items.Arr? && i <= |items.items|
    ensures forall p | p in ItemPaths(items, i) :: p != [] && p[0] >= i
    decreases |items.items| - i
  {
    if i < |items.items| {
      ItemPathsNonEmpty(items, i + 1);
    }
  }

  lemma {:induction false} ItemPathsExact(items: Json, i: nat, p: seq<nat>)
    requires items.Arr? && i <= |items.items| && p != []
    ensures p in ItemPaths(items, i) <==> p[0] >= i && ItemDocAt(items, p).Some?
    decreases items, |items.items| - i + 1
  {
    if i < |items.items| {
      var own := DocPaths(items.items[i]);
      ItemPathsExact(items, i + 1, p);
      DocPathsExact(items.items[i], p[1..]);
      if p[0] == i && p[1..] in own {
        var k :| 0 <= k < |own| && own[k] == p[1..];
        assert Prefixed(i, own)[k] == p;
      }
      if p in Prefixed(i, own) {
        var k :| 0 <= k < |own| && Prefixed(i, own)[k] == p;
        assert p == [i] + own[k];
      }
    }
  }

  lemma {:induction false} DocPathsOrdered(v: Json)
    ensures InDocumentOrder(DocPaths(v))
    decreases v, 0
  {
    if IsList(v) && Get(v, "items").Some? && Get(v, "items").value.Arr? {
      ItemPathsOrdered(Get(v, "items").value, 0);
    }
  }

  lemma {:induction false} ItemPathsOrdered(items: Json, i: nat)
    requires items.Arr? && i <= |items.items|
    ensures InDocumentOrder(ItemPaths(items, i))
    decreases items, |items.items| - i + 1
  {
    if i < |items.items| {
      var own, rest := Prefixed(i, DocPaths(items.items[i])), ItemPaths(items, i + 1);
      DocPathsOrdered(items.items[i]);
      ItemPathsOrdered(items, i + 1);
      ItemPathsNonEmpty(items, i + 1);
      forall j, k | 0 <= j < k < |own + rest|
        ensures Before((own + rest)[j], (own + rest)[k])
      {
        if k < |own| {
          var paths := DocPaths(items.items[i]);
          assert own[j][1..] == paths[j] && own[k][1..] == paths[k];
        } else if j < |own| {
          assert (own + rest)[k] in rest;
        }
      }
    }
  }

  /******* Flattening *******/

  /** The manifests at the given positions of a document, skipping those that are not manifests. */
  function ManifestsAt(v: Json, paths: seq<seq<nat>>): seq<RawManifest> {
    if paths == [] then []
    else
      (match DocAt(v, paths[0])
       case Some(doc) => Singleton(ValueToManifest(doc))
       case None => [])
      + ManifestsAt(v, paths[1..])
  }

  function Singleton<T>(o: Option<T>): seq<T> {
    match o
    case Some(x) => [x]
    case None => []
  }

  lemma {:induction false} ManifestsAtConcat(v: Json, ps: seq<seq<nat>>, qs: seq<seq<nat>>)
    ensures ManifestsAt(v, ps + qs) == ManifestsAt(v, ps) + ManifestsAt(v, qs)
  {
    if ps == [] {
      assert ps + qs == qs;
    } else {
      assert (ps + qs)[1..] == ps[1..] + qs;
      ManifestsAtConcat(v, ps[1..], qs);
    }
  }

  /** `items` is the array of items of the list `v`. */
  predicate HasItems(v: Json, items: Json) {
    IsList(v) && Get(v, "items") == Some(items) && items.Arr?
  }

  lemma DocAtItem(v: Json, items: Json, i: nat, p: seq<nat>)
    requires HasItems(v, items) && i < |items.items|
    ensures DocAt(v, [i] + p) == DocAt(items.items[i], p)
  {
    assert ([i] + p)[1..] == p;
    assert DocAt(v, [i] + p) == ItemDocAt(items, [i] + p);
  }

  lemma {:induction false} ManifestsAtItem(v: Json, items: Json, i: nat, paths: seq<seq<nat>>)
    requires HasItems(v, items) && i < |items.items|
    ensures ManifestsAt(v, Prefixed(i, paths)) == ManifestsAt(items.items[i], paths)
  {
    if paths != [] {
      assert Prefixed(i, paths)[1..] == Prefixed(i, paths[1..]);
      DocAtItem(v, items, i, paths[0]);
      ManifestsAtItem(v, items, i, paths[1..]);
    }
  }

  /** All manifests of one document. */
  function Flattened(v: Json): seq<RawManifest> {
    ManifestsAt(v, DocPaths(v))
  }

  /** The growing list that flattening pushes into. */
  class ManifestList {
    var items: seq<RawManifest>

    constructor ()
      ensures items == []
    {
      items := [];
    }

    method Push(m: RawManifest)
      modifies this
      ensures items == old(items) + [m]
    {
      items := items + [m];
    }
  }

  /** The manifests of the items from position `i` on. */
  function FlattenedItems(items: seq<Json>, i: nat): seq<RawManifest>
    requires i <= |items|
    decreases |items| - i
  {
    if i == |items| then [] else Flattened(items[i]) + FlattenedItems(items, i + 1)
  }

  lemma {:induction false} FlattenedFromItem(v: Json, items: Json, i: nat)
    requires HasItems(v, items) && i <= |items.items|
    ensures ManifestsAt(v, ItemPaths(items, i)) == FlattenedItems(items.items, i)
    decreases |items.items| - i
  {
    if i < |items.items| {
      var own := Prefixed(i, DocPaths(items.items[i]));
      ManifestsAtConcat(v, own, ItemPaths(items, i + 1));
      ManifestsAtItem(v, items, i, DocPaths(items.items[i]));
      FlattenedFromItem(v, items, i + 1);
    }
  }

  lemma FlattenedList(v: Json, items: Json)
    requires HasItems(v, items)
    ensures Flattened(v) == FlattenedItems(items.items, 0)
  {
    assert DocPaths(v) == ItemPaths(items, 0);
    FlattenedFromItem(v, items, 0);
  }

  /** Flattening, case by case: a list gives what its items give, in order, a list without items nothing,
      and any other document its own manifest, if it is one. */
  lemma FlattenedIff(v: Json)
    ensures Get(v, "kind") != Some(Str("List")) ==> Flattened(v) == Singleton(ValueToManifest(v))
    ensures Get(v, "kind") == Some(Str("List")) ==>
              Flattened(v) == match Get(v, "items")
                              case Some(Arr(items)) => FlattenedItems(items, 0)
                              case _ => []
  {
    if !IsList(v) {
      FlattenedLeaf(v);
    } else if Get(v, "items").Some? && Get(v, "items").value.Arr? {
      FlattenedList(v, Get(v, "items").value);
    } else {
      FlattenedNoItems(v);
    }
  }

  lemma FlattenedLeaf(v: Json)
    requires !IsList(v)
    ensures Flattened(v) == Singleton(ValueToManifest(v))
  {
    assert ManifestsAt(v, [[]][1..]) == [];
  }

  lemma FlattenedNoItems(v: Json)
    requires IsList(v) && (Get(v, "items").None? || !Get(v, "items").value.Arr?)
    ensures Flattened(v) == []
  {
    assert DocPaths(v) == [];
  }

  /** The list after one more item: what was there, the item's manifests, and those still to come. */
  lemma FlattenedNext(before: seq<RawManifest>, items: seq<Json>, i: nat)
    requires i < |items|
    ensures before + FlattenedItems(items, i) == before + Flattened(items[i]) + FlattenedItems(items, i + 1)
  {
    assert FlattenedItems(items, i) == Flattened(items[i]) + FlattenedItems(items, i + 1);
  }

  method ExpandValue(value: Json, out: ManifestList)
    modifies out
    ensures out.items == old(out.items) + Flattened(value)
    decreases value
  {
    if value.Obj? && GetStr(value, "kind") == Some("List") {
      var items := Get(value, "items");
      if items.Some? && items.value.Arr? {
        FlattenedList(value, items.value);
        ghost var all := old(out.items) + FlattenedItems(items.value.items, 0);
        for i := 0 to |items.value.items|
          invariant out.items + FlattenedItems(items.value.items, i) == all
        {
          FlattenedNext(out.items, items.value.items, i);
          ExpandValue(items.value.items[i], out);
        }
      } else {
        FlattenedNoItems(value);
      }
      return;
    }
    FlattenedLeaf(value);
    var m := ValueToManifest(value);
    if m.Some? {
      out.Push(m.value);
    }
  }

  function FlattenedAll(docs: seq<Json>): seq<RawManifest> {
    if docs == [] then [] else FlattenedAll(docs[..|docs| - 1]) + Flattened(docs[|docs| - 1])
  }

  /** One document gives its own manifests, and documents that come first give theirs first. */
  lemma {:induction false} FlattenedAllSplits(xs: seq<Json>, ys: seq<Json>)
    ensures FlattenedAll(xs + ys) == FlattenedAll(xs) + FlattenedAll(ys)
    decreases |ys|
  {
    if ys == [] {
      assert xs + ys == xs;
    } else {
      var n := |ys| - 1;
      FlattenedAllSplits(xs, ys[..n]);
      AppendLast(xs, ys);
      Associative(FlattenedAll(xs), FlattenedAll(ys[..n]), Flattened(ys[n]));
    }
  }

  lemma FlattenedAllOfOne(v: Json)
    ensures FlattenedAll([v]) == Flattened(v)
  {
    assert [v][..0] == [];
  }

  method ParseDocuments(docs: seq<Json>) returns (manifests: seq<RawManifest>)
    ensures manifests == FlattenedAll(docs)
  {
    var out := new ManifestList();
    for i := 0 to |docs|
      invariant fresh(out) && out.items == FlattenedAll(docs[..i])
    {
      ExpandValue(docs[i], out);
      assert docs[..i + 1][..i] == docs[..i];
    }
    assert docs[..|docs|] == docs;
    manifests := out.items;
  }

  /** Flattening in one statement: the positions are those of all non-list documents, each once and
      in document order, and the result lists the manifests found there in that order. */
  lemma FlattenedInDocumentOrder(v: Json)
    ensures Flattened(v) == ManifestsAt(v, DocPaths(v))
    ensures InDocumentOrder(DocPaths(v))
    ensures forall p :: p in DocPaths(v) <==> DocAt(v, p).Some?
  {
    DocPathsOrdered(v);
    forall p ensures p in DocPaths(v) <==> DocAt(v, p).Some? { DocPathsExact(v, p); }
  }

  /******* Managed-by label *******/

  /** Set the label in `metadata.labels`, creating missing objects on the way; anything on the way
      that is not an object leaves the value unchanged. */
  function InjectManagedLabel(value: Json, key: string, labelValue: string): Json {
    match value
    case Obj(top) =>
      var meta := if "metadata" in top then top["metadata"] else Obj(map[]);
      (match meta
       case Obj(m) =>
         var labels := if "labels" in m then m["labels"] else Obj(map[]);
         var labels' := if labels.Obj? then Obj(labels.members[key := Str(labelValue)]) else labels;
         Obj(top["metadata" := Obj(m["labels" := labels'])])
       case _ => Obj(top["metadata" := meta]))
    case _ => value
  }
}

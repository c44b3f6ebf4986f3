/** Identities and live objects shared by the drift check, the cache, prune and the pass. */
module Kube {

  import opened Wrappers
  import opened Json
  import opened Manifest

  datatype ResourceKey = ResourceKey(
    group: string,
    version: string,
    kind: string,
    namespace: Option<string>,
    name: string)
  {
    function Gvk(): Gvk {
      (group, version, kind)
    }
  }

  function KeyOf(m: RawManifest): ResourceKey {
    ResourceKey(m.group, m.version, m.kind, m.namespace, m.name)
  }

  function KeysOf(manifests: seq<RawManifest>): (keys: seq<ResourceKey>)
    ensures |keys| == |manifests|
    ensures forall i | 0 <= i < |keys| :: keys[i] == KeyOf(manifests[i])
  {
    seq(|manifests|, i requires 0 <= i < |manifests| => KeyOf(manifests[i]))
  }

  /** A live object. `value` is the whole object re-serialised, and `size` the length of that
      serialisation; the metadata fields are the ones the controller reads directly. */
  datatype DynObj = DynObj(
    name: Option<string>,
    namespace: Option<string>,
    annotations: map<string, string>,
    managed: bool,
    deleting: bool,
    value: Json,
    size: nat)

  /** The key of a listed object; the kind comes from the discovery result that produced the list. */
  function KeyOfLive(o: DynObj, gvk: Gvk): ResourceKey {
    ResourceKey(gvk.0, gvk.1, gvk.2, o.namespace, o.name.GetOr(""))
  }

  /** Identity of one object within a kind. */
  type ObjKey = (string, Option<string>)

  function ObjKeyOf(o: DynObj): ObjKey {
    (o.name.GetOr(""), o.namespace)
  }

  function ObjKeyOfManifest(m: RawManifest): ObjKey {
    (m.name, m.namespace)
  }
}

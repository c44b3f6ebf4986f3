/** When the drift check is quiet about a manifest that was just applied. */
module Quiescence {

  import opened Wrappers
  import opened Json
  import opened SpecSubset
  import opened SubsetOrder
  import opened ServerEdits
  import opened Manifest

  /** The server stores and serves an applied object after any number of additions and omissions of
      zero-valued members. The stripped top-level keys are under no constraint. */
  ghost predicate ServedAs(applied: Json, live: Json) {
    Edited(Strip(applied), Strip(live))
  }

  /** The manifest's `spec` is itself a zero value and the server left it out. */
  predicate SpecOmitted(m: Json, live: Json) {
    && Get(m, "spec").Some?
    && IsZeroValue(Get(m, "spec").value)
    && Get(live, "spec").None?
  }

  /** The manifest has no `spec` and sets the managed-by key to another value in its own labels. */
  predicate LabelConflict(m: Json, key: string, labelValue: string) {
    && Get(m, "spec").None?
    && var labels := Get(Get(m, "metadata").GetOr(Null), "labels").GetOr(Null);
       Get(labels, key).Some? && Get(labels, key).value != Str(labelValue)
  }

  /** What the drift check compares of a manifest. */
  function Compared(m: Json): Json {
    match Get(m, "spec")
    case Some(spec) => Obj(map["spec" := spec])
    case None => Strip(m)
  }

  lemma StripKeeps(v: Json, k: string)
    requires k !in STRIPPED_KEYS
    ensures Get(Strip(v), k) == Get(v, k)
  {
  }

  /******* The injected label *******/

  /** A server never loses or changes the members on the way to a value that is no zero. */
  lemma KeptMember(a: Json, b: Json, k: string)
    requires Keeps(a, b) && Get(a, k).Some? && !IsZeroValue(Get(a, k).value)
    ensures Get(b, k).Some? && Keeps(Get(a, k).value, Get(b, k).value)
  {
  }

  /** Nothing on the way to `metadata.labels` is in the way of the label. */
  predicate TakesLabel(v: Json) {
    v.Obj? &&
    var meta := Get(v, "metadata").GetOr(Obj(map[]));
    meta.Obj? && Get(meta, "labels").GetOr(Obj(map[])).Obj?
  }

  /** A manifest that cannot take the label is applied as it is. */
  lemma NoInjection(m: Json, key: string, labelValue: string)
    requires !TakesLabel(m)
    ensures InjectManagedLabel(m, key, labelValue) == m
  {
    if m.Obj? {
      var meta := m.members["metadata"];
      assert m.members["metadata" := meta] == m.members;
      if meta.Obj? {
        assert meta.members["labels" := meta.members["labels"]] == meta.members;
      }
    }
  }

  /** What the label makes of the metadata. */
  lemma InjectedLabels(m: Json, key: string, labelValue: string) returns (meta: Json, labels: Json)
    requires TakesLabel(m)
    ensures meta == Get(m, "metadata").GetOr(Obj(map[])) && meta.Obj?
    ensures labels == Get(meta, "labels").GetOr(Obj(map[])) && labels.Obj?
    ensures InjectManagedLabel(m, key, labelValue)
            == Obj(m.members["metadata" :=
                 Obj(meta.members["labels" := Obj(labels.members[key := Str(labelValue)])])])
  {
    meta := Get(m, "metadata").GetOr(Obj(map[]));
    labels := Get(meta, "labels").GetOr(Obj(map[]));
  }

  function LabelIn(v: Json, key: string): Option<Json> {
    Get(Get(Get(v, "metadata").GetOr(Null), "labels").GetOr(Null), key)
  }

  /** The label is served, if the manifest takes it. */
  lemma LabelKept(m: Json, key: string, labelValue: string, live: Json)
    requires TakesLabel(m) && Keeps(Strip(InjectManagedLabel(m, key, labelValue)), Strip(live))
    ensures LabelIn(live, key) == Some(Str(labelValue))
  {
    var injected := InjectManagedLabel(m, key, labelValue);
    var meta, labels := InjectedLabels(m, key, labelValue);
    StripKeeps(injected, "metadata");
    StripKeeps(live, "metadata");
    KeptMember(Strip(injected), Strip(live), "metadata");
    var injectedMeta, liveMeta := Get(injected, "metadata").value, Get(live, "metadata").value;
    KeptMember(injectedMeta, liveMeta, "labels");
    KeptMember(Get(injectedMeta, "labels").value, Get(liveMeta, "labels").value, key);
  }

  /** Unless the manifest fixes the label otherwise, injection only adds to what is compared. */
  lemma ComparedWithin(m: Json, key: string, labelValue: string)
    requires !LabelConflict(m, key, labelValue)
    ensures Within(Compared(m), Strip(InjectManagedLabel(m, key, labelValue)))
  {
    var injected := InjectManagedLabel(m, key, labelValue);
    if Get(m, "spec").Some? {
      WithinReflexive(Get(m, "spec").value);
      assert Get(injected, "spec") == Get(m, "spec");
      StripKeeps(injected, "spec");
    } else if !TakesLabel(m) {
      NoInjection(m, key, labelValue);
      WithinReflexive(Strip(m));
    } else {
      var meta, labels := InjectedLabels(m, key, labelValue);
      var labels' := Obj(labels.members[key := Str(labelValue)]);
      AddedWithin(labels, key, Str(labelValue));
      AddedWithin(meta, "labels", labels');
      AddedWithin(Strip(m), "metadata", Obj(meta.members["labels" := labels']));
      assert Strip(injected) == Obj(Strip(m).members["metadata" := Obj(meta.members["labels" := labels'])]);
    }
  }

  lemma AddedWithin(v: Json, k: string, member: Json)
    requires v.Obj? && (k in v.members ==> Within(v.members[k], member))
    ensures Within(v, Obj(v.members[k := member]))
  {
    forall j | j in v.members ensures Within(v.members[j], v.members[k := member][j]) {
      WithinReflexive(v.members[j]);
    }
  }

  /******* When the drift check is quiet after an apply *******/

  /** A label fixed to another value is missed in every live value that has the injected one. */
  lemma ConflictBreaks(m: Json, key: string, labelValue: string, live: Json)
    requires LabelConflict(m, key, labelValue) && LabelIn(live, key) == Some(Str(labelValue))
    ensures !Subset(Strip(m), Strip(live))
  {
    var meta := m.members["metadata"];
    var labels := meta.members["labels"];
    StripKeeps(m, "metadata");
    StripKeeps(live, "metadata");
    var liveMeta := Get(live, "metadata").value;
    assert !Subset(labels.members[key], Str(labelValue));
    assert !Subset(labels, Get(liveMeta, "labels").value);
    assert !Subset(meta, liveMeta);
  }

  /** The whole-object check, as one comparison. */
  lemma SpecsDifferIff(m: Json, live: Json)
    ensures SpecsDiffer(m, live) <==> SpecOmitted(m, live) || !Subset(Compared(m), Strip(live))
  {
    StripKeeps(m, "spec");
    StripKeeps(live, "spec");
    if Get(m, "spec").Some? {
      assert "spec" in Compared(m).members;
    }
  }

  /** After injecting the label, applying, and any number of server edits, the drift check reports a
      difference exactly when the manifest's `spec` is a zero value the server left out, a manifest
      without `spec` fixes the managed-by label to another value, or a zero-valued member of what is
      compared is back with another content. */
  lemma DriftAfterApplyIff(m: Json, key: string, labelValue: string, live: Json)
    requires ServedAs(InjectManagedLabel(m, key, labelValue), live)
    ensures SpecsDiffer(m, live) <==>
            SpecOmitted(m, live) || LabelConflict(m, key, labelValue) || Refilled(Compared(m), Strip(live))
  {
    var injected := Strip(InjectManagedLabel(m, key, labelValue));
    EditedIff(injected, Strip(live));
    SpecsDifferIff(m, live);
    if LabelConflict(m, key, labelValue) {
      LabelKept(m, key, labelValue, live);
      ConflictBreaks(m, key, labelValue, live);
    } else {
      ComparedWithin(m, key, labelValue);
      WithinKeeps(Compared(m), injected, Strip(live));
      EditedIff(Compared(m), Strip(live));
      EditedSubsetIff(Compared(m), Strip(live));
    }
  }

  /** A server may serve what was applied. */
  lemma ServedUnchanged(applied: Json)
    ensures ServedAs(applied, applied)
  {
    EditedReflexive(Strip(applied));
  }

  /** A zero-valued `spec` may always be left out, so that the manifest drifts after its apply. */
  lemma ZeroSpecMayBeOmitted(m: Json, key: string, labelValue: string) returns (live: Json)
    requires Get(m, "spec").Some? && IsZeroValue(Get(m, "spec").value)
    ensures ServedAs(InjectManagedLabel(m, key, labelValue), live) && SpecOmitted(m, live)
    ensures SpecsDiffer(m, live)
  {
    var applied := InjectManagedLabel(m, key, labelValue);
    live := Obj(applied.members - {"spec"});
    var a, b := Strip(applied), Strip(live);
    assert b.members == a.members - {"spec"};
    assert "spec" in a.members && DropStep(a, b);
    EditedByStep(a, b);
    DriftAfterApplyIff(m, key, labelValue, live);
  }

  /** A zero-valued member of what is compared may always be filled in, so that the manifest drifts. */
  lemma ZeroMemberMayBeRefilled(m: Json, key: string, labelValue: string) returns (live: Json)
    requires m.Obj? && !NoZeroMember(Compared(m)) && !LabelConflict(m, key, labelValue)
    ensures ServedAs(InjectManagedLabel(m, key, labelValue), live) && Refilled(Compared(m), Strip(live))
    ensures SpecsDiffer(m, live)
  {
    var applied := Strip(InjectManagedLabel(m, key, labelValue));
    live := Defaulted(applied);
    DefaultedKeeps(applied);
    EditedIff(applied, live);
    assert Strip(live) == live;
    ComparedWithin(m, key, labelValue);
    DefaultedBreaks(Compared(m), applied);
    WithinKeeps(Compared(m), applied, live);
    EditedIff(Compared(m), live);
    EditedSubsetIff(Compared(m), live);
    DriftAfterApplyIff(m, key, labelValue, live);
  }

  /******* Two inputs that keep drifting *******/

  function StampedConfig(stamp: Json): Json {
    Obj(map["kind" := Str("ConfigMap"),
            "metadata" := Obj(map["name" := Str("settings"), "creationTimestamp" := stamp])])
  }

  function StampedMetadata(stamp: Json, labels: Json): Json {
    Obj(map["name" := Str("settings"), "creationTimestamp" := stamp, "labels" := labels])
  }

  lemma StampedInjected(stamp: Json, key: string, labelValue: string)
    ensures Strip(InjectManagedLabel(StampedConfig(stamp), key, labelValue))
            == Obj(map["metadata" := StampedMetadata(stamp, Obj(map[key := Str(labelValue)]))])
  {
    var meta, labels := InjectedLabels(StampedConfig(stamp), key, labelValue);
    assert meta.members["labels" := Obj(map[key := Str(labelValue)])]
        == StampedMetadata(stamp, Obj(map[key := Str(labelValue)])).members;
  }

  lemma StampedKeeps(labels: Json, stamp: string)
    ensures Keeps(StampedMetadata(Null, labels), StampedMetadata(Str(stamp), labels))
  {
    KeepsReflexive(labels);
  }

  /** A null timestamp is dropped from the request, and the server sets its own. */
  lemma NullTimestampDrifts(key: string, labelValue: string, stamp: string)
    ensures var live := InjectManagedLabel(StampedConfig(Str(stamp)), key, labelValue);
            && ServedAs(InjectManagedLabel(StampedConfig(Null), key, labelValue), live)
            && SpecsDiffer(StampedConfig(Null), live)
  {
    var m, live := StampedConfig(Null), InjectManagedLabel(StampedConfig(Str(stamp)), key, labelValue);
    var injected, labels := Strip(InjectManagedLabel(m, key, labelValue)), Obj(map[key := Str(labelValue)]);
    StampedInjected(Null, key, labelValue);
    StampedInjected(Str(stamp), key, labelValue);
    StampedKeeps(labels, stamp);
    EditedIff(injected, Strip(live));
    MemberBreaks(m.members["metadata"], StampedMetadata(Str(stamp), labels), "creationTimestamp");
    MemberBreaks(Strip(m), Strip(live), "metadata");
    SpecsDifferIff(m, live);
  }

  lemma MemberBreaks(a: Json, b: Json, k: string)
    requires Get(a, k).Some? && Get(b, k).Some? && !Subset(Get(a, k).value, Get(b, k).value)
    ensures !Subset(a, b)
  {
  }

  function Scaled(replicas: nat): Json {
    Obj(map["kind" := Str("Deployment"), "spec" := Replicas(replicas)])
  }

  lemma ScaledInjected(replicas: nat, key: string, labelValue: string)
    ensures Strip(InjectManagedLabel(Scaled(replicas), key, labelValue))
            == Obj(map["spec" := Replicas(replicas),
                       "metadata" := Obj(map["labels" := Obj(map[key := Str(labelValue)])])])
  {
    var meta, labels := InjectedLabels(Scaled(replicas), key, labelValue);
    assert meta.members["labels" := Obj(map[key := Str(labelValue)])]
        == map["labels" := Obj(map[key := Str(labelValue)])];
  }

  /** Zero replicas that the client omits and the server defaults to one. */
  lemma ZeroReplicasDrift(key: string, labelValue: string)
    ensures var live := InjectManagedLabel(Scaled(1), key, labelValue);
            && ServedAs(InjectManagedLabel(Scaled(0), key, labelValue), live)
            && SpecsDiffer(Scaled(0), live)
  {
    var m, live := Scaled(0), InjectManagedLabel(Scaled(1), key, labelValue);
    ScaledInjected(0, key, labelValue);
    ScaledInjected(1, key, labelValue);
    KeepsReflexive(Obj(map["labels" := Obj(map[key := Str(labelValue)])]));
    assert Keeps(Replicas(0), Replicas(1));
    EditedIff(Strip(InjectManagedLabel(m, key, labelValue)), Strip(live));
    SubsetNotTransitive();
    MemberBreaks(Compared(m), Strip(live), "spec");
    SpecsDifferIff(m, live);
  }
}

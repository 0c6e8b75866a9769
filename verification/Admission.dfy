/** The machine admission webhook: defaulting, validation and immutability. */
module Admission {
  import opened Objects
  import opened MachineObjects

  const DEFAULT_DISK_CATEGORY := "cloud_essd"
  const DEFAULT_DISK_SIZE := 40
  const MIN_DISK_SIZE := 20
  const INSTANCE_TYPE_PREFIX := "ecs."

  datatype Cause = Required | Invalid | Duplicate | Forbidden

  /** One entry of a field.ErrorList; `index` is -1 outside lists. */
  datatype FieldError = FieldError(cause: Cause, field: string, index: int)

  // ---------------------------------------------------------------- defaulting

  function DefaultDisk(d: Option<SystemDisk>): SystemDisk {
    match d
    case None => SystemDisk(DEFAULT_DISK_CATEGORY, DEFAULT_DISK_SIZE, "", None, "")
    case Some(s) =>
      s.(category := if s.category == "" then DEFAULT_DISK_CATEGORY else s.category,
         size := if s.size == 0 then DEFAULT_DISK_SIZE else s.size)
  }

  function DefaultSpec(spec: MachineSpec): MachineSpec {
    spec.(systemDisk := Some(DefaultDisk(spec.systemDisk)))
  }

  predicate Defaulted(spec: MachineSpec) {
    spec.systemDisk.Some? && spec.systemDisk.value.category != "" && spec.systemDisk.value.size != 0
  }

  method Default(m: AlibabaCloudMachine)
    modifies m`spec
    ensures m.spec == DefaultSpec(old(m.spec))
    ensures m.spec == old(m.spec).(systemDisk := m.spec.systemDisk) && m.spec.systemDisk.Some?
    ensures old(m.spec.systemDisk).None? ==> m.spec.systemDisk.value == SystemDisk("cloud_essd", 40, "", None, "")
    ensures old(m.spec.systemDisk).Some? ==>
              var (was, now) := (old(m.spec.systemDisk).value, m.spec.systemDisk.value);
              && now.category == (if was.category == "" then "cloud_essd" else was.category)
              && now.size == (if was.size == 0 then 40 else was.size)
              && now == was.(category := now.category, size := now.size)
    ensures Defaulted(m.spec)
  {
    if m.spec.systemDisk.None? {
      m.spec := m.spec.(systemDisk := Some(SystemDisk(DEFAULT_DISK_CATEGORY, DEFAULT_DISK_SIZE, "", None, "")));
      return;
    }
    if m.spec.systemDisk.value.category == "" {
      m.spec := m.spec.(systemDisk := Some(m.spec.systemDisk.value.(category := DEFAULT_DISK_CATEGORY)));
    }
    if m.spec.systemDisk.value.size == 0 {
      m.spec := m.spec.(systemDisk := Some(m.spec.systemDisk.value.(size := DEFAULT_DISK_SIZE)));
    }
  }

  // ---------------------------------------------------------------- validation

  /** A tag is at fault when its key is blank or repeats an earlier key. */
  predicate TagFault(tags: seq<Tag>, i: nat)
    requires i < |tags|
  {
    Blank(tags[i].key) || exists j :: 0 <= j < i && tags[j].key == tags[i].key
  }

  function TagCause(tag: Tag): Cause { if Blank(tag.key) then Required else Duplicate }

  predicate TagsOk(tags: seq<Tag>) {
    forall i :: 0 <= i < |tags| ==> !TagFault(tags, i)
  }

  predicate ExtrasOk(category: string, performanceLevel: string, encrypted: Option<bool>, kmsKeyID: string) {
    && (kmsKeyID != "" ==> encrypted == Some(true))
    && (performanceLevel != "" ==> category == "cloud_essd")
  }

  predicate SystemDiskOk(d: SystemDisk) {
    (d.size == 0 || d.size >= MIN_DISK_SIZE) && ExtrasOk(d.category, d.performanceLevel, d.encrypted, d.kmsKeyID)
  }

  predicate DataDiskOk(d: DataDisk) {
    d.size >= MIN_DISK_SIZE && ExtrasOk(d.category, d.performanceLevel, d.encrypted, d.kmsKeyID)
  }

  predicate SpotOk(spec: MachineSpec) {
    if spec.spotStrategy == "SpotWithPriceLimit" then
      spec.spotPriceLimit.Some? && spec.spotPriceLimit.value > 0.0
    else
      spec.spotPriceLimit.None?
  }

  predicate ValidSpec(spec: MachineSpec) {
    && INSTANCE_TYPE_PREFIX <= spec.instanceType
    && (spec.systemDisk.Some? ==> SystemDiskOk(spec.systemDisk.value))
    && (forall i :: 0 <= i < |spec.dataDisks| ==> DataDiskOk(spec.dataDisks[i]))
    && SpotOk(spec)
    && TagsOk(spec.tags)
  }

  method ValidateTags(tags: seq<Tag>) returns (errs: seq<FieldError>)
    ensures errs == [] <==> TagsOk(tags)
    ensures forall i :: 0 <= i < |tags| ==>
              ((exists e :: e in errs && e.index == i) <==> TagFault(tags, i))
    ensures forall e :: e in errs ==> 0 <= e.index < |tags| && e.cause == TagCause(tags[e.index])
    ensures forall e :: e in errs ==> e.cause == if Blank(tags[e.index].key) then Required else Duplicate
  {
    errs := [];
    var seen: set<string> := {};
    for i := 0 to |tags|
      invariant forall k :: k in seen <==> exists j :: 0 <= j < i && tags[j].key == k && !Blank(k)
      invariant forall e :: e in errs ==>
                  (0 <= e.index < i && TagFault(tags, e.index) && e.cause == TagCause(tags[e.index]))
      invariant forall j :: 0 <= j < i && TagFault(tags, j) ==> exists e :: e in errs && e.index == j
      invariant errs == [] <==> forall j :: 0 <= j < i ==> !TagFault(tags, j)
    {
      ghost var before := errs;
      if Blank(tags[i].key) {
        errs := errs + [FieldError(Required, "tags.key", i)];
        assert errs[|before|].index == i;
      } else {
        if tags[i].key in seen {
          errs := errs + [FieldError(Duplicate, "tags.key", i)];
          assert errs[|before|].index == i;
        }
        seen := seen + {tags[i].key};
      }
      assert forall e :: e in before ==> e in errs;
    }
  }

  method ValidateDiskExtras(category: string, performanceLevel: string, encrypted: Option<bool>, kmsKeyID: string,
                            index: int) returns (errs: seq<FieldError>)
    ensures errs == [] <==> ExtrasOk(category, performanceLevel, encrypted, kmsKeyID)
    ensures FieldError(Invalid, "kmsKeyID", index) in errs <==> kmsKeyID != "" && encrypted != Some(true)
    ensures FieldError(Invalid, "performanceLevel", index) in errs <==>
              performanceLevel != "" && category != "cloud_essd"
    ensures forall e :: e in errs ==>
              e == FieldError(Invalid, "kmsKeyID", index) || e == FieldError(Invalid, "performanceLevel", index)
  {
    errs := [];
    if kmsKeyID != "" && (encrypted.None? || !encrypted.value) {
      errs := errs + [FieldError(Invalid, "kmsKeyID", index)];
    }
    if performanceLevel != "" && category != "cloud_essd" {
      errs := errs + [FieldError(Invalid, "performanceLevel", index)];
    }
  }

  method ValidateSpot(spec: MachineSpec) returns (errs: seq<FieldError>)
    ensures errs == [] <==> SpotOk(spec)
    ensures FieldError(Required, "spotPriceLimit", -1) in errs <==>
              spec.spotStrategy == "SpotWithPriceLimit" && spec.spotPriceLimit.None?
    ensures FieldError(Invalid, "spotPriceLimit", -1) in errs <==>
              spec.spotPriceLimit.Some?
                  && (spec.spotStrategy == "SpotWithPriceLimit" ==> spec.spotPriceLimit.value <= 0.0)
    ensures forall e :: e in errs ==>
              e == FieldError(Required, "spotPriceLimit", -1) || e == FieldError(Invalid, "spotPriceLimit", -1)
  {
    errs := [];
    if spec.spotStrategy == "SpotWithPriceLimit" {
      if spec.spotPriceLimit.None? {
        errs := errs + [FieldError(Required, "spotPriceLimit", -1)];
      } else if spec.spotPriceLimit.value <= 0.0 {
        errs := errs + [FieldError(Invalid, "spotPriceLimit", -1)];
      }
      return;
    }
    if spec.spotPriceLimit.Some? {
      errs := errs + [FieldError(Invalid, "spotPriceLimit", -1)];
    }
  }

  /** What a valid spec is, field by field. */
  lemma ValidSpecExactly(spec: MachineSpec)
    ensures ValidSpec(spec) <==>
              && "ecs." <= spec.instanceType
              && (spec.systemDisk.Some? ==>
                    var d := spec.systemDisk.value;
                    && (d.size == 0 || d.size >= 20) && (d.kmsKeyID != "" ==> d.encrypted == Some(true))
                    && (d.performanceLevel != "" ==> d.category == "cloud_essd"))
              && (forall i :: 0 <= i < |spec.dataDisks| ==>
                    var d := spec.dataDisks[i];
                    && d.size >= 20 && (d.kmsKeyID != "" ==> d.encrypted == Some(true))
                    && (d.performanceLevel != "" ==> d.category == "cloud_essd"))
              && (if spec.spotStrategy == "SpotWithPriceLimit"
                  then spec.spotPriceLimit.Some? && spec.spotPriceLimit.value > 0.0
                  else spec.spotPriceLimit.None?)
              && (forall i :: 0 <= i < |spec.tags| ==> !Blank(spec.tags[i].key))
              && (forall i, j :: 0 <= j < i < |spec.tags| ==> spec.tags[j].key != spec.tags[i].key)
  {
    TagsDistinct(spec.tags);
  }

  lemma TagsDistinct(tags: seq<Tag>)
    ensures TagsOk(tags) <==>
              && (forall i :: 0 <= i < |tags| ==> !Blank(tags[i].key))
              && (forall i, j :: 0 <= j < i < |tags| ==> tags[j].key != tags[i].key)
  {
    hide Blank;
    if TagsOk(tags) {
      forall i | 0 <= i < |tags| ensures !Blank(tags[i].key) && forall j :: 0 <= j < i ==> tags[j].key != tags[i].key {
        assert !TagFault(tags, i);
      }
    }
  }

  method ValidateMachineSpec(spec: MachineSpec) returns (errs: seq<FieldError>)
    ensures errs == [] <==> ValidSpec(spec)
  {
    errs := [];
    if Blank(spec.instanceType) {
      errs := errs + [FieldError(Required, "instanceType", -1)];
    } else if !(INSTANCE_TYPE_PREFIX <= spec.instanceType) {
      errs := errs + [FieldError(Invalid, "instanceType", -1)];
    }
    assert errs == [] <==> INSTANCE_TYPE_PREFIX <= spec.instanceType by {
      if INSTANCE_TYPE_PREFIX <= spec.instanceType {
        assert !Space(spec.instanceType[0]);
      }
    }
    if spec.systemDisk.Some? && spec.systemDisk.value.size != 0 && spec.systemDisk.value.size < MIN_DISK_SIZE {
      errs := errs + [FieldError(Invalid, "systemDisk.size", -1)];
    }
    ghost var head := errs;
    for i := 0 to |spec.dataDisks|
      invariant errs == [] <==> head == [] && forall j :: 0 <= j < i ==> spec.dataDisks[j].size >= MIN_DISK_SIZE
    {
      if spec.dataDisks[i].size < MIN_DISK_SIZE {
        errs := errs + [FieldError(Invalid, "dataDisks.size", i)];
      }
    }
    if spec.systemDisk.Some? {
      var d := spec.systemDisk.value;
      var more := ValidateDiskExtras(d.category, d.performanceLevel, d.encrypted, d.kmsKeyID, -1);
      errs := errs + more;
    }
    head := errs;
    for i := 0 to |spec.dataDisks|
      invariant errs == [] <==> head == [] && forall j :: 0 <= j < i ==>
                  ExtrasOk(spec.dataDisks[j].category, spec.dataDisks[j].performanceLevel,
                           spec.dataDisks[j].encrypted, spec.dataDisks[j].kmsKeyID)
    {
      var d := spec.dataDisks[i];
      var more := ValidateDiskExtras(d.category, d.performanceLevel, d.encrypted, d.kmsKeyID, i);
      errs := errs + more;
    }
    var spot := ValidateSpot(spec);
    errs := errs + spot;
    var tags := ValidateTags(spec.tags);
    errs := errs + tags;
  }

  // ---------------------------------------------------------------- immutability

  predicate OnceSet(before: string, after: string) { before == "" || before == after }

  predicate Immutable(before: MachineSpec, after: MachineSpec) {
    && before.instanceType == after.instanceType
    && before.imageID == after.imageID
    && OnceSet(before.regionID, after.regionID)
    && OnceSet(before.zoneID, after.zoneID)
    && OnceSet(before.vSwitchID, after.vSwitchID)
    && before.systemDisk == after.systemDisk
    && before.dataDisks == after.dataDisks
    && before.spotStrategy == after.spotStrategy
    && before.spotPriceLimit == after.spotPriceLimit
    && (before.providerID.None? || before.providerID == after.providerID)
  }

  /** An update may change tags and metadata options, and fill in what is empty; nothing else. */
  lemma ImmutableExactly(before: MachineSpec, after: MachineSpec)
    ensures Immutable(before, after) <==>
              && before == after.(providerID := before.providerID, regionID := before.regionID, zoneID := before.zoneID,
                                  vSwitchID := before.vSwitchID, tags := before.tags,
                                  metadataOptions := before.metadataOptions)
              && (before.regionID == "" || after.regionID == before.regionID)
              && (before.zoneID == "" || after.zoneID == before.zoneID)
              && (before.vSwitchID == "" || after.vSwitchID == before.vSwitchID)
              && (before.providerID.None? || after.providerID == before.providerID)
  {
  }

  method ValidateMachineImmutable(before: MachineSpec, after: MachineSpec) returns (errs: seq<FieldError>)
    ensures errs == [] <==> Immutable(before, after)
  {
    errs := [];
    if before.instanceType != after.instanceType { errs := errs + [FieldError(Forbidden, "instanceType", -1)]; }
    if before.imageID != after.imageID { errs := errs + [FieldError(Forbidden, "imageID", -1)]; }
    if before.regionID != "" && before.regionID != after.regionID {
      errs := errs + [FieldError(Forbidden, "regionID", -1)];
    }
    if before.zoneID != "" && before.zoneID != after.zoneID { errs := errs + [FieldError(Forbidden, "zoneID", -1)]; }
    if before.vSwitchID != "" && before.vSwitchID != after.vSwitchID {
      errs := errs + [FieldError(Forbidden, "vSwitchID", -1)];
    }
    if before.systemDisk != after.systemDisk { errs := errs + [FieldError(Forbidden, "systemDisk", -1)]; }
    if before.dataDisks != after.dataDisks { errs := errs + [FieldError(Forbidden, "dataDisks", -1)]; }
    if before.spotStrategy != after.spotStrategy { errs := errs + [FieldError(Forbidden, "spotStrategy", -1)]; }
    if before.spotPriceLimit != after.spotPriceLimit { errs := errs + [FieldError(Forbidden, "spotPriceLimit", -1)]; }
    if before.providerID.Some? {
      if after.providerID.None? || after.providerID.value != before.providerID.value {
        errs := errs + [FieldError(Forbidden, "providerID", -1)];
      }
    }
  }

  /** What the API server runs on an update: the defaulter, then the validator. */
  predicate Admits(stored: MachineSpec, submitted: MachineSpec) {
    ValidSpec(DefaultSpec(submitted)) && Immutable(stored, DefaultSpec(submitted))
  }

  method AdmitUpdate(stored: AlibabaCloudMachine, submitted: AlibabaCloudMachine) returns (ok: bool)
    requires stored != submitted
    modifies submitted`spec
    ensures submitted.spec == DefaultSpec(old(submitted.spec))
    ensures ok <==> Admits(stored.spec, old(submitted.spec))
  {
    Default(submitted);
    var errs := ValidateMachineSpec(submitted.spec);
    var more := ValidateMachineImmutable(stored.spec, submitted.spec);
    ok := errs + more == [];
  }

  /** A spec that passed defaulting and validation once. */
  predicate Settled(spec: MachineSpec) { Defaulted(spec) && ValidSpec(spec) }

  /** Re-submitting a stored spec unchanged is admitted exactly when it had been defaulted
      and validated: an object stored without the defaulter can never be updated again. */
  lemma UnchangedAdmitted(spec: MachineSpec)
    ensures Admits(spec, spec) <==> Settled(spec)
  {
    if spec.systemDisk.Some? {
      var d := spec.systemDisk.value;
      assert DefaultSpec(spec).systemDisk == spec.systemDisk <==> d.category != "" && d.size != 0;
    }
    if Defaulted(spec) {
      assert DefaultSpec(spec) == spec;
    }
  }

  /** The stored specs of one object: a creation, then admitted updates. */
  ghost predicate AdmissionHistory(specs: seq<MachineSpec>) {
    && specs != []
    && Settled(specs[0])
    && forall i :: 0 < i < |specs| ==>
         exists submitted :: Admits(specs[i - 1], submitted) && specs[i] == DefaultSpec(submitted)
  }

  lemma {:induction false} HistoryOrdered(specs: seq<MachineSpec>, i: nat, j: nat)
    requires AdmissionHistory(specs) && i <= j < |specs|
    ensures Settled(specs[j]) && Immutable(specs[i], specs[j])
    decreases j
  {
    if j == 0 {
    } else if i == j {
      HistoryOrdered(specs, j - 1, j - 1);
    } else {
      HistoryOrdered(specs, i, j - 1);
      assert Immutable(specs[j - 1], specs[j]);
    }
  }

  /** Over any admission history each once-set field takes at most one set value, the
      immutable fields never move, and every stored spec can be re-submitted. */
  lemma HistoryAgrees(specs: seq<MachineSpec>, i: nat, j: nat)
    requires AdmissionHistory(specs) && i < |specs| && j < |specs|
    ensures specs[i].regionID != "" && specs[j].regionID != "" ==> specs[i].regionID == specs[j].regionID
    ensures specs[i].zoneID != "" && specs[j].zoneID != "" ==> specs[i].zoneID == specs[j].zoneID
    ensures specs[i].vSwitchID != "" && specs[j].vSwitchID != "" ==> specs[i].vSwitchID == specs[j].vSwitchID
    ensures specs[i].providerID.Some? && specs[j].providerID.Some? ==> specs[i].providerID == specs[j].providerID
    ensures specs[i].instanceType == specs[j].instanceType && specs[i].imageID == specs[j].imageID
    ensures specs[i].systemDisk == specs[j].systemDisk && specs[i].dataDisks == specs[j].dataDisks
    ensures specs[i].spotStrategy == specs[j].spotStrategy && specs[i].spotPriceLimit == specs[j].spotPriceLimit
    ensures Admits(specs[i], specs[i])
  {
    if i <= j { HistoryOrdered(specs, i, j); } else { HistoryOrdered(specs, j, i); }
    HistoryOrdered(specs, i, i);
    UnchangedAdmitted(specs[i]);
  }
}

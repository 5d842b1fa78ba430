/** The EC2 model class SpotFleetLaunchSpecification: fifteen nullable fields, three of
    which (securityGroups, blockDeviceMappings, networkInterfaces) are lists under the
    auto-construct discipline, with the generated accessors, hashCode(), equals() and
    toString(). */
module Ec2SpotFleetLaunchSpecification {

  import opened Wrappers
  import opened JavaLang
  import opened AutoLists
  import opened Opaques
  import opened ModelSupport

  // Nested model classes this model does not look into.
  type GroupIdentifier = Opaque
  type SpotPlacement = Opaque
  type BlockDeviceMapping = Opaque
  type SpotFleetMonitoring = Opaque
  type InstanceNetworkInterfaceSpecification = Opaque
  type IamInstanceProfileSpecification = Opaque

  /** A constant of the InstanceType enum, given by the string its toString() returns. */
  datatype InstanceType = InstanceType(value: string)

  /** The values of a SpotFleetLaunchSpecification's fields, in declaration order; None is null. */
  datatype SpotState = SpotState(
    imageId: Option<string>,
    keyName: Option<string>,
    securityGroups: Option<AutoList<GroupIdentifier>>,
    userData: Option<string>,
    addressingType: Option<string>,
    instanceType: Option<string>,
    placement: Option<SpotPlacement>,
    kernelId: Option<string>,
    ramdiskId: Option<string>,
    blockDeviceMappings: Option<AutoList<BlockDeviceMapping>>,
    monitoring: Option<SpotFleetMonitoring>,
    subnetId: Option<string>,
    networkInterfaces: Option<AutoList<InstanceNetworkInterfaceSpecification>>,
    iamInstanceProfile: Option<IamInstanceProfileSpecification>,
    ebsOptimized: Option<bool>)

  /** The state of `new SpotFleetLaunchSpecification()`: every field null. */
  function NullState(): SpotState
  {
    SpotState(None, None, None, None, None, None, None, None, None, None, None, None, None, None, None)
  }

  /** The state once every list getter has run: each null list field holds an empty
      list flagged auto-constructed. */
  function ListsInstalled(s: SpotState): SpotState
  {
    s.(securityGroups := Some(Installed(s.securityGroups)), blockDeviceMappings := Some(Installed(s.blockDeviceMappings)), networkInterfaces := Some(Installed(s.networkInterfaces)))
  }

  /** `after` differs from `before` at most in list fields that a getter installed. */
  predicate OnlyListsInstalled(before: SpotState, after: SpotState)
  {
    && after.(securityGroups := before.securityGroups, blockDeviceMappings := before.blockDeviceMappings, networkInterfaces := before.networkInterfaces) == before
    && (after.securityGroups == before.securityGroups || after.securityGroups == Some(Installed(before.securityGroups)))
    && (after.blockDeviceMappings == before.blockDeviceMappings || after.blockDeviceMappings == Some(Installed(before.blockDeviceMappings)))
    && (after.networkInterfaces == before.networkInterfaces || after.networkInterfaces == Some(Installed(before.networkInterfaces)))
  }

  /** The terms hashCode() accumulates, one per field in declaration order. */
  function FieldHashes(s: SpotState): seq<Int32>
  {
    // one single-term sequence per field, joined in order
    [NullableHash(s.imageId, StringHash)]
    + [NullableHash(s.keyName, StringHash)]
    + [ListFieldHash(s.securityGroups, HashOf)]
    + [NullableHash(s.userData, StringHash)]
    + [NullableHash(s.addressingType, StringHash)]
    + [NullableHash(s.instanceType, StringHash)]
    + [NullableHash(s.placement, HashOf)]
    + [NullableHash(s.kernelId, StringHash)]
    + [NullableHash(s.ramdiskId, StringHash)]
    + [ListFieldHash(s.blockDeviceMappings, HashOf)]
    + [NullableHash(s.monitoring, HashOf)]
    + [NullableHash(s.subnetId, StringHash)]
    + [ListFieldHash(s.networkInterfaces, HashOf)]
    + [NullableHash(s.iamInstanceProfile, HashOf)]
    + [NullableHash(s.ebsOptimized, BooleanHash)]
  }

  /** SpotFleetLaunchSpecification.hashCode() as a function of the state before the call: the accumulation
      `h = 31 * h + term` from 1 over the field terms, taken once the list getters have
      installed their lists. */
  function SpotHash(s: SpotState): Int32
  {
    HashFold(1, FieldHashes(ListsInstalled(s)))
  }

  /** SpotFleetLaunchSpecification.equals() between two distinct SpotFleetLaunchSpecifications: every pair of fields is null on both
      sides or equal, lists compared element by element, a null list reading as the
      empty list its getter installs. */
  predicate SpotEquals(a: SpotState, b: SpotState)
  {
    a.imageId == b.imageId
    && a.keyName == b.keyName
    && Installed(a.securityGroups).elems == Installed(b.securityGroups).elems
    && a.userData == b.userData
    && a.addressingType == b.addressingType
    && a.instanceType == b.instanceType
    && a.placement == b.placement
    && a.kernelId == b.kernelId
    && a.ramdiskId == b.ramdiskId
    && Installed(a.blockDeviceMappings).elems == Installed(b.blockDeviceMappings).elems
    && a.monitoring == b.monitoring
    && a.subnetId == b.subnetId
    && Installed(a.networkInterfaces).elems == Installed(b.networkInterfaces).elems
    && a.iamInstanceProfile == b.iamInstanceProfile
    && a.ebsOptimized == b.ebsOptimized
  }

  /** SpotFleetLaunchSpecification.toString() as a function of the state before the call: "{", then
      `Label: text,` for each non-null field in declaration order (the last one without
      the comma), then "}". */
  function SpotText(s: SpotState): string
  {
    var t := ListsInstalled(s);
    "{"
    + Entry("ImageId", t.imageId)
    + Entry("KeyName", t.keyName)
    + Entry("SecurityGroups", ListFieldText(t.securityGroups, TextOf))
    + Entry("UserData", t.userData)
    + Entry("AddressingType", t.addressingType)
    + Entry("InstanceType", t.instanceType)
    + Entry("Placement", MapOption(t.placement, TextOf))
    + Entry("KernelId", t.kernelId)
    + Entry("RamdiskId", t.ramdiskId)
    + Entry("BlockDeviceMappings", ListFieldText(t.blockDeviceMappings, TextOf))
    + Entry("Monitoring", MapOption(t.monitoring, TextOf))
    + Entry("SubnetId", t.subnetId)
    + Entry("NetworkInterfaces", ListFieldText(t.networkInterfaces, TextOf))
    + Entry("IamInstanceProfile", MapOption(t.iamInstanceProfile, TextOf))
    + LastEntry("EbsOptimized", MapOption(t.ebsOptimized, BooleanText))
    + "}"
  }

  /** The accumulation over the field terms, written out one step per field as
      hashCode() performs it. */
  lemma {:induction false} SpotHashSteps(s: SpotState)
    ensures HashFold(1, FieldHashes(s)) ==
      HashStep(HashStep(HashStep(HashStep(HashStep(HashStep(HashStep(HashStep(HashStep(HashStep(HashStep(HashStep(HashStep(HashStep(HashStep(1, NullableHash(s.imageId, StringHash)), NullableHash(s.keyName, StringHash)), ListFieldHash(s.securityGroups, HashOf)), NullableHash(s.userData, StringHash)), NullableHash(s.addressingType, StringHash)), NullableHash(s.instanceType, StringHash)), NullableHash(s.placement, HashOf)), NullableHash(s.kernelId, StringHash)), NullableHash(s.ramdiskId, StringHash)), ListFieldHash(s.blockDeviceMappings, HashOf)), NullableHash(s.monitoring, HashOf)), NullableHash(s.subnetId, StringHash)), ListFieldHash(s.networkInterfaces, HashOf)), NullableHash(s.iamInstanceProfile, HashOf)), NullableHash(s.ebsOptimized, BooleanHash))
  {
    var terms: seq<Int32> := [];
    assert [] + [NullableHash(s.imageId, StringHash)] == [NullableHash(s.imageId, StringHash)];
    HashFoldStep(1, terms, NullableHash(s.imageId, StringHash));
    terms := terms + [NullableHash(s.imageId, StringHash)];
    HashFoldStep(1, terms, NullableHash(s.keyName, StringHash));
    terms := terms + [NullableHash(s.keyName, StringHash)];
    HashFoldStep(1, terms, ListFieldHash(s.securityGroups, HashOf));
    terms := terms + [ListFieldHash(s.securityGroups, HashOf)];
    HashFoldStep(1, terms, NullableHash(s.userData, StringHash));
    terms := terms + [NullableHash(s.userData, StringHash)];
    HashFoldStep(1, terms, NullableHash(s.addressingType, StringHash));
    terms := terms + [NullableHash(s.addressingType, StringHash)];
    HashFoldStep(1, terms, NullableHash(s.instanceType, StringHash));
    terms := terms + [NullableHash(s.instanceType, StringHash)];
    HashFoldStep(1, terms, NullableHash(s.placement, HashOf));
    terms := terms + [NullableHash(s.placement, HashOf)];
    HashFoldStep(1, terms, NullableHash(s.kernelId, StringHash));
    terms := terms + [NullableHash(s.kernelId, StringHash)];
    HashFoldStep(1, terms, NullableHash(s.ramdiskId, StringHash));
    terms := terms + [NullableHash(s.ramdiskId, StringHash)];
    HashFoldStep(1, terms, ListFieldHash(s.blockDeviceMappings, HashOf));
    terms := terms + [ListFieldHash(s.blockDeviceMappings, HashOf)];
    HashFoldStep(1, terms, NullableHash(s.monitoring, HashOf));
    terms := terms + [NullableHash(s.monitoring, HashOf)];
    HashFoldStep(1, terms, NullableHash(s.subnetId, StringHash));
    terms := terms + [NullableHash(s.subnetId, StringHash)];
    HashFoldStep(1, terms, ListFieldHash(s.networkInterfaces, HashOf));
    terms := terms + [ListFieldHash(s.networkInterfaces, HashOf)];
    HashFoldStep(1, terms, NullableHash(s.iamInstanceProfile, HashOf));
    terms := terms + [NullableHash(s.iamInstanceProfile, HashOf)];
    HashFoldStep(1, terms, NullableHash(s.ebsOptimized, BooleanHash));
    terms := terms + [NullableHash(s.ebsOptimized, BooleanHash)];
    assert terms == FieldHashes(s);
  }

  /** equals() is an equivalence on distinct objects: reflexive, symmetric, transitive. */
  lemma SpotEqualsIsEquivalence(a: SpotState, b: SpotState, c: SpotState)
    ensures SpotEquals(a, a)
    ensures SpotEquals(a, b) ==> SpotEquals(b, a)
    ensures SpotEquals(a, b) && SpotEquals(b, c) ==> SpotEquals(a, c)
  {
  }

  /** The equals/hashCode contract: equal specifications have the same hash code, and
      they also print the same text. */
  lemma {:induction false} EqualSpecsHashAndPrintAlike(a: SpotState, b: SpotState)
    requires SpotEquals(a, b)
    ensures SpotHash(a) == SpotHash(b)
    ensures SpotText(a) == SpotText(b)
  {
    var ta, tb := ListsInstalled(a), ListsInstalled(b);
    assert FieldHashes(ta) == FieldHashes(tb);
  }

  /** hashCode() and toString() install the null lists, and that does not change what a
      second call computes. */
  lemma RepeatedCallsAgree(s: SpotState)
    ensures ListsInstalled(ListsInstalled(s)) == ListsInstalled(s)
    ensures SpotHash(ListsInstalled(s)) == SpotHash(s)
    ensures SpotText(ListsInstalled(s)) == SpotText(s)
  {
  }

  /** A null list and an explicitly empty list are indistinguishable to equals(),
      hashCode() and toString(); only the marshallers tell them apart. */
  lemma NullAndEmptySecurityGroupsDiffer(s: SpotState)
    requires s.securityGroups.None?
    ensures var e := s.(securityGroups := CopyOf(Some([])));
      && SpotEquals(s, e)
      && SpotHash(s) == SpotHash(e)
      && SpotText(s) == SpotText(e)
      && !Emitted(ListsInstalled(s).securityGroups)
      && Emitted(ListsInstalled(e).securityGroups)
  {
    EqualSpecsHashAndPrintAlike(s, s.(securityGroups := CopyOf(Some([]))));
  }

  /** EbsOptimized is the last field and is written without a comma, so the text ends in
      ",}" exactly when ebsOptimized is null: the comma of the field before it is left
      dangling. */
  lemma {:induction false} SpotTextEnding(s: SpotState)
    ensures var t := SpotText(s);
      |t| >= 2 && t[0] == '{' && (t[|t| - 2..] == ",}" <==> s.ebsOptimized.None?)
  {
    var t := SpotText(s);
    var u := ListsInstalled(s);
    var ni := Entry("NetworkInterfaces", ListFieldText(u.networkInterfaces, TextOf));
    var iam := Entry("IamInstanceProfile", MapOption(u.iamInstanceProfile, TextOf));
    var last := LastEntry("EbsOptimized", MapOption(u.ebsOptimized, BooleanText));
    var before := "{" + Entry("ImageId", u.imageId) + Entry("KeyName", u.keyName) + Entry("SecurityGroups", ListFieldText(u.securityGroups, TextOf)) + Entry("UserData", u.userData) + Entry("AddressingType", u.addressingType) + Entry("InstanceType", u.instanceType) + Entry("Placement", MapOption(u.placement, TextOf)) + Entry("KernelId", u.kernelId) + Entry("RamdiskId", u.ramdiskId) + Entry("BlockDeviceMappings", ListFieldText(u.blockDeviceMappings, TextOf)) + Entry("Monitoring", MapOption(u.monitoring, TextOf)) + Entry("SubnetId", u.subnetId);
    assert t == before + ni + iam + last + "}";
    if s.ebsOptimized.None? {
      assert last == [];
      var body := before + ni + iam;
      assert body[|body| - 1] == ',';
      assert t == body + "}";
    } else {
      assert last == "EbsOptimized: " + BooleanText(s.ebsOptimized.value);
      assert t[|t| - 2] == 'e';
    }
  }

  /** A SpotFleetLaunchSpecification object. Every setter and with… method changes its own field only; list
      getters install a list on first use; hashCode(), equals() and toString() read the
      fields through the getters and so install lists too. */
  class SpotFleetLaunchSpecification {
    var imageId: Option<string>
    var keyName: Option<string>
    var securityGroups: Option<AutoList<GroupIdentifier>>
    var userData: Option<string>
    var addressingType: Option<string>
    var instanceType: Option<string>
    var placement: Option<SpotPlacement>
    var kernelId: Option<string>
    var ramdiskId: Option<string>
    var blockDeviceMappings: Option<AutoList<BlockDeviceMapping>>
    var monitoring: Option<SpotFleetMonitoring>
    var subnetId: Option<string>
    var networkInterfaces: Option<AutoList<InstanceNetworkInterfaceSpecification>>
    var iamInstanceProfile: Option<IamInstanceProfileSpecification>
    var ebsOptimized: Option<bool>

    /** The field values, in declaration order. */
    function State(): SpotState
      reads this
    {
      SpotState(imageId, keyName, securityGroups, userData, addressingType, instanceType, placement, kernelId, ramdiskId, blockDeviceMappings, monitoring, subnetId, networkInterfaces, iamInstanceProfile, ebsOptimized)
    }

    /** The field-by-field copy clone() makes. */
    constructor Copy(s: SpotState)
      ensures State() == s
    {
      imageId := s.imageId;
      keyName := s.keyName;
      securityGroups := s.securityGroups;
      userData := s.userData;
      addressingType := s.addressingType;
      instanceType := s.instanceType;
      placement := s.placement;
      kernelId := s.kernelId;
      ramdiskId := s.ramdiskId;
      blockDeviceMappings := s.blockDeviceMappings;
      monitoring := s.monitoring;
      subnetId := s.subnetId;
      networkInterfaces := s.networkInterfaces;
      iamInstanceProfile := s.iamInstanceProfile;
      ebsOptimized := s.ebsOptimized;
    }

    /** `new SpotFleetLaunchSpecification()`: every field null. */
    constructor ()
      ensures State() == NullState()
    {
      imageId := None;
      keyName := None;
      securityGroups := None;
      userData := None;
      addressingType := None;
      instanceType := None;
      placement := None;
      kernelId := None;
      ramdiskId := None;
      blockDeviceMappings := None;
      monitoring := None;
      subnetId := None;
      networkInterfaces := None;
      iamInstanceProfile := None;
      ebsOptimized := None;
    }

    function GetImageId(): Option<string>
      reads this
    {
      imageId
    }

    method SetImageId(imageId: Option<string>)
      modifies this
      ensures State() == old(State()).(imageId := imageId)
      ensures GetImageId() == imageId
    {
      this.imageId := imageId;
    }

    method WithImageId(imageId: Option<string>) returns (r: SpotFleetLaunchSpecification)
      modifies this
      ensures r == this
      ensures State() == old(State()).(imageId := imageId)
      ensures GetImageId() == imageId
    {
      this.imageId := imageId;
      r := this;
    }

    function GetKeyName(): Option<string>
      reads this
    {
      keyName
    }

    method SetKeyName(keyName: Option<string>)
      modifies this
      ensures State() == old(State()).(keyName := keyName)
      ensures GetKeyName() == keyName
    {
      this.keyName := keyName;
    }

    method WithKeyName(keyName: Option<string>) returns (r: SpotFleetLaunchSpecification)
      modifies this
      ensures r == this
      ensures State() == old(State()).(keyName := keyName)
      ensures GetKeyName() == keyName
    {
      this.keyName := keyName;
      r := this;
    }

    /** getSecurityGroups(): never null; a null field first receives an empty list flagged
        auto-constructed, and later calls return that same list. */
    method GetSecurityGroups() returns (r: AutoList<GroupIdentifier>)
      modifies this
      ensures r == Installed(old(securityGroups))
      ensures State() == old(State()).(securityGroups := Some(r))
      ensures old(securityGroups).Some? ==> unchanged(this)
    {
      if securityGroups.None? {
        securityGroups := Some(AutoList([], true));
      }
      r := securityGroups.value;
    }

    /** setSecurityGroups(): null clears the field; otherwise the field gets a copy of the
        argument, in order, with the flag clear. */
    method SetSecurityGroups(securityGroups: Option<seq<Option<GroupIdentifier>>>)
      modifies this
      ensures State() == old(State()).(securityGroups := CopyOf(securityGroups))
    {
      if securityGroups.None? {
        this.securityGroups := None;
        return;
      }
      var securityGroupsCopy := AutoList(securityGroups.value, false);
      this.securityGroups := Some(securityGroupsCopy);
    }

    /** The varargs withSecurityGroups(): appends the values, in order, to the list the getter
        returns; nothing already there is replaced. */
    method WithSecurityGroups(values: seq<Option<GroupIdentifier>>) returns (r: SpotFleetLaunchSpecification)
      modifies this
      ensures r == this
      ensures State() == old(State()).(securityGroups := Some(Appended(old(securityGroups), values)))
    {
      // The getter never returns null, so the source's setSecurityGroups(new ArrayList(...))
      // branch is never taken; the call itself installs the list.
      var installed := GetSecurityGroups();
      assert installed.elems + values[..0] == installed.elems;
      var i := 0;
      while i < |values|
        invariant 0 <= i <= |values|
        invariant State() == old(State()).(securityGroups := Some(Appended(old(securityGroups), values[..i])))
      {
        var list := GetSecurityGroups();
        assert list == Appended(old(securityGroups), values[..i]);
        securityGroups := Some(list.(elems := list.elems + [values[i]]));
        assert values[..i + 1] == values[..i] + [values[i]];
        assert Installed(old(securityGroups)).elems + values[..i + 1] == list.elems + [values[i]];
        i := i + 1;
      }
      assert values[..i] == values;
      r := this;
    }

    /** The collection withSecurityGroups(): replaces the list by a copy of the argument, or
        clears it on null, like setSecurityGroups(). */
    method WithSecurityGroupsCollection(securityGroups: Option<seq<Option<GroupIdentifier>>>) returns (r: SpotFleetLaunchSpecification)
      modifies this
      ensures r == this
      ensures State() == old(State()).(securityGroups := CopyOf(securityGroups))
    {
      if securityGroups.None? {
        this.securityGroups := None;
      } else {
        var securityGroupsCopy := AutoList(securityGroups.value, false);
        this.securityGroups := Some(securityGroupsCopy);
      }
      r := this;
    }

    function GetUserData(): Option<string>
      reads this
    {
      userData
    }

    method SetUserData(userData: Option<string>)
      modifies this
      ensures State() == old(State()).(userData := userData)
      ensures GetUserData() == userData
    {
      this.userData := userData;
    }

    method WithUserData(userData: Option<string>) returns (r: SpotFleetLaunchSpecification)
      modifies this
      ensures r == this
      ensures State() == old(State()).(userData := userData)
      ensures GetUserData() == userData
    {
      this.userData := userData;
      r := this;
    }

    function GetAddressingType(): Option<string>
      reads this
    {
      addressingType
    }

    method SetAddressingType(addressingType: Option<string>)
      modifies this
      ensures State() == old(State()).(addressingType := addressingType)
      ensures GetAddressingType() == addressingType
    {
      this.addressingType := addressingType;
    }

    method WithAddressingType(addressingType: Option<string>) returns (r: SpotFleetLaunchSpecification)
      modifies this
      ensures r == this
      ensures State() == old(State()).(addressingType := addressingType)
      ensures GetAddressingType() == addressingType
    {
      this.addressingType := addressingType;
      r := this;
    }

    function GetInstanceType(): Option<string>
      reads this
    {
      instanceType
    }

    method SetInstanceType(instanceType: Option<string>)
      modifies this
      ensures State() == old(State()).(instanceType := instanceType)
      ensures GetInstanceType() == instanceType
    {
      this.instanceType := instanceType;
    }

    method WithInstanceType(instanceType: Option<string>) returns (r: SpotFleetLaunchSpecification)
      modifies this
      ensures r == this
      ensures State() == old(State()).(instanceType := instanceType)
      ensures GetInstanceType() == instanceType
    {
      this.instanceType := instanceType;
      r := this;
    }

    /** The enum overload of setInstanceType(): stores the constant's string, exactly as
        the string overload would. */
    method SetInstanceTypeEnum(instanceType: InstanceType)
      modifies this
      ensures State() == old(State()).(instanceType := Some(instanceType.value))
      ensures GetInstanceType() == Some(instanceType.value)
    {
      this.instanceType := Some(instanceType.value);
    }

    /** The enum overload of withInstanceType(). */
    method WithInstanceTypeEnum(instanceType: InstanceType) returns (r: SpotFleetLaunchSpecification)
      modifies this
      ensures r == this
      ensures State() == old(State()).(instanceType := Some(instanceType.value))
      ensures GetInstanceType() == Some(instanceType.value)
    {
      this.instanceType := Some(instanceType.value);
      r := this;
    }

    function GetPlacement(): Option<SpotPlacement>
      reads this
    {
      placement
    }

    method SetPlacement(placement: Option<SpotPlacement>)
      modifies this
      ensures State() == old(State()).(placement := placement)
      ensures GetPlacement() == placement
    {
      this.placement := placement;
    }

    method WithPlacement(placement: Option<SpotPlacement>) returns (r: SpotFleetLaunchSpecification)
      modifies this
      ensures r == this
      ensures State() == old(State()).(placement := placement)
      ensures GetPlacement() == placement
    {
      this.placement := placement;
      r := this;
    }

    function GetKernelId(): Option<string>
      reads this
    {
      kernelId
    }

    method SetKernelId(kernelId: Option<string>)
      modifies this
      ensures State() == old(State()).(kernelId := kernelId)
      ensures GetKernelId() == kernelId
    {
      this.kernelId := kernelId;
    }

    method WithKernelId(kernelId: Option<string>) returns (r: SpotFleetLaunchSpecification)
      modifies this
      ensures r == this
      ensures State() == old(State()).(kernelId := kernelId)
      ensures GetKernelId() == kernelId
    {
      this.kernelId := kernelId;
      r := this;
    }

    function GetRamdiskId(): Option<string>
      reads this
    {
      ramdiskId
    }

    method SetRamdiskId(ramdiskId: Option<string>)
      modifies this
      ensures State() == old(State()).(ramdiskId := ramdiskId)
      ensures GetRamdiskId() == ramdiskId
    {
      this.ramdiskId := ramdiskId;
    }

    method WithRamdiskId(ramdiskId: Option<string>) returns (r: SpotFleetLaunchSpecification)
      modifies this
      ensures r == this
      ensures State() == old(State()).(ramdiskId := ramdiskId)
      ensures GetRamdiskId() == ramdiskId
    {
      this.ramdiskId := ramdiskId;
      r := this;
    }

    /** getBlockDeviceMappings(): never null; a null field first receives an empty list flagged
        auto-constructed, and later calls return that same list. */
    method GetBlockDeviceMappings() returns (r: AutoList<BlockDeviceMapping>)
      modifies this
      ensures r == Installed(old(blockDeviceMappings))
      ensures State() == old(State()).(blockDeviceMappings := Some(r))
      ensures old(blockDeviceMappings).Some? ==> unchanged(this)
    {
      if blockDeviceMappings.None? {
        blockDeviceMappings := Some(AutoList([], true));
      }
      r := blockDeviceMappings.value;
    }

    /** setBlockDeviceMappings(): null clears the field; otherwise the field gets a copy of the
        argument, in order, with the flag clear. */
    method SetBlockDeviceMappings(blockDeviceMappings: Option<seq<Option<BlockDeviceMapping>>>)
      modifies this
      ensures State() == old(State()).(blockDeviceMappings := CopyOf(blockDeviceMappings))
    {
      if blockDeviceMappings.None? {
        this.blockDeviceMappings := None;
        return;
      }
      var blockDeviceMappingsCopy := AutoList(blockDeviceMappings.value, false);
      this.blockDeviceMappings := Some(blockDeviceMappingsCopy);
    }

    /** The varargs withBlockDeviceMappings(): appends the values, in order, to the list the getter
        returns; nothing already there is replaced. */
    method WithBlockDeviceMappings(values: seq<Option<BlockDeviceMapping>>) returns (r: SpotFleetLaunchSpecification)
      modifies this
      ensures r == this
      ensures State() == old(State()).(blockDeviceMappings := Some(Appended(old(blockDeviceMappings), values)))
    {
      // The getter never returns null, so the source's setBlockDeviceMappings(new ArrayList(...))
      // branch is never taken; the call itself installs the list.
      var installed := GetBlockDeviceMappings();
      assert installed.elems + values[..0] == installed.elems;
      var i := 0;
      while i < |values|
        invariant 0 <= i <= |values|
        invariant State() == old(State()).(blockDeviceMappings := Some(Appended(old(blockDeviceMappings), values[..i])))
      {
        var list := GetBlockDeviceMappings();
        assert list == Appended(old(blockDeviceMappings), values[..i]);
        blockDeviceMappings := Some(list.(elems := list.elems + [values[i]]));
        assert values[..i + 1] == values[..i] + [values[i]];
        assert Installed(old(blockDeviceMappings)).elems + values[..i + 1] == list.elems + [values[i]];
        i := i + 1;
      }
      assert values[..i] == values;
      r := this;
    }

    /** The collection withBlockDeviceMappings(): replaces the list by a copy of the argument, or
        clears it on null, like setBlockDeviceMappings(). */
    method WithBlockDeviceMappingsCollection(blockDeviceMappings: Option<seq<Option<BlockDeviceMapping>>>) returns (r: SpotFleetLaunchSpecification)
      modifies this
      ensures r == this
      ensures State() == old(State()).(blockDeviceMappings := CopyOf(blockDeviceMappings))
    {
      if blockDeviceMappings.None? {
        this.blockDeviceMappings := None;
      } else {
        var blockDeviceMappingsCopy := AutoList(blockDeviceMappings.value, false);
        this.blockDeviceMappings := Some(blockDeviceMappingsCopy);
      }
      r := this;
    }

    function GetMonitoring(): Option<SpotFleetMonitoring>
      reads this
    {
      monitoring
    }

    method SetMonitoring(monitoring: Option<SpotFleetMonitoring>)
      modifies this
      ensures State() == old(State()).(monitoring := monitoring)
      ensures GetMonitoring() == monitoring
    {
      this.monitoring := monitoring;
    }

    method WithMonitoring(monitoring: Option<SpotFleetMonitoring>) returns (r: SpotFleetLaunchSpecification)
      modifies this
      ensures r == this
      ensures State() == old(State()).(monitoring := monitoring)
      ensures GetMonitoring() == monitoring
    {
      this.monitoring := monitoring;
      r := this;
    }

    function GetSubnetId(): Option<string>
      reads this
    {
      subnetId
    }

    method SetSubnetId(subnetId: Option<string>)
      modifies this
      ensures State() == old(State()).(subnetId := subnetId)
      ensures GetSubnetId() == subnetId
    {
      this.subnetId := subnetId;
    }

    method WithSubnetId(subnetId: Option<string>) returns (r: SpotFleetLaunchSpecification)
      modifies this
      ensures r == this
      ensures State() == old(State()).(subnetId := subnetId)
      ensures GetSubnetId() == subnetId
    {
      this.subnetId := subnetId;
      r := this;
    }

    /** getNetworkInterfaces(): never null; a null field first receives an empty list flagged
        auto-constructed, and later calls return that same list. */
    method GetNetworkInterfaces() returns (r: AutoList<InstanceNetworkInterfaceSpecification>)
      modifies this
      ensures r == Installed(old(networkInterfaces))
      ensures State() == old(State()).(networkInterfaces := Some(r))
      ensures old(networkInterfaces).Some? ==> unchanged(this)
    {
      if networkInterfaces.None? {
        networkInterfaces := Some(AutoList([], true));
      }
      r := networkInterfaces.value;
    }

    /** setNetworkInterfaces(): null clears the field; otherwise the field gets a copy of the
        argument, in order, with the flag clear. */
    method SetNetworkInterfaces(networkInterfaces: Option<seq<Option<InstanceNetworkInterfaceSpecification>>>)
      modifies this
      ensures State() == old(State()).(networkInterfaces := CopyOf(networkInterfaces))
    {
      if networkInterfaces.None? {
        this.networkInterfaces := None;
        return;
      }
      var networkInterfacesCopy := AutoList(networkInterfaces.value, false);
      this.networkInterfaces := Some(networkInterfacesCopy);
    }

    /** The varargs withNetworkInterfaces(): appends the values, in order, to the list the getter
        returns; nothing already there is replaced. */
    method WithNetworkInterfaces(values: seq<Option<InstanceNetworkInterfaceSpecification>>) returns (r: SpotFleetLaunchSpecification)
      modifies this
      ensures r == this
      ensures State() == old(State()).(networkInterfaces := Some(Appended(old(networkInterfaces), values)))
    {
      // The getter never returns null, so the source's setNetworkInterfaces(new ArrayList(...))
      // branch is never taken; the call itself installs the list.
      var installed := GetNetworkInterfaces();
      assert installed.elems + values[..0] == installed.elems;
      var i := 0;
      while i < |values|
        invariant 0 <= i <= |values|
        invariant State() == old(State()).(networkInterfaces := Some(Appended(old(networkInterfaces), values[..i])))
      {
        var list := GetNetworkInterfaces();
        assert list == Appended(old(networkInterfaces), values[..i]);
        networkInterfaces := Some(list.(elems := list.elems + [values[i]]));
        assert values[..i + 1] == values[..i] + [values[i]];
        assert Installed(old(networkInterfaces)).elems + values[..i + 1] == list.elems + [values[i]];
        i := i + 1;
      }
      assert values[..i] == values;
      r := this;
    }

    /** The collection withNetworkInterfaces(): replaces the list by a copy of the argument, or
        clears it on null, like setNetworkInterfaces(). */
    method WithNetworkInterfacesCollection(networkInterfaces: Option<seq<Option<InstanceNetworkInterfaceSpecification>>>) returns (r: SpotFleetLaunchSpecification)
      modifies this
      ensures r == this
      ensures State() == old(State()).(networkInterfaces := CopyOf(networkInterfaces))
    {
      if networkInterfaces.None? {
        this.networkInterfaces := None;
      } else {
        var networkInterfacesCopy := AutoList(networkInterfaces.value, false);
        this.networkInterfaces := Some(networkInterfacesCopy);
      }
      r := this;
    }

    function GetIamInstanceProfile(): Option<IamInstanceProfileSpecification>
      reads this
    {
      iamInstanceProfile
    }

    method SetIamInstanceProfile(iamInstanceProfile: Option<IamInstanceProfileSpecification>)
      modifies this
      ensures State() == old(State()).(iamInstanceProfile := iamInstanceProfile)
      ensures GetIamInstanceProfile() == iamInstanceProfile
    {
      this.iamInstanceProfile := iamInstanceProfile;
    }

    method WithIamInstanceProfile(iamInstanceProfile: Option<IamInstanceProfileSpecification>) returns (r: SpotFleetLaunchSpecification)
      modifies this
      ensures r == this
      ensures State() == old(State()).(iamInstanceProfile := iamInstanceProfile)
      ensures GetIamInstanceProfile() == iamInstanceProfile
    {
      this.iamInstanceProfile := iamInstanceProfile;
      r := this;
    }

    function IsEbsOptimized(): Option<bool>
      reads this
    {
      ebsOptimized
    }

    /** getEbsOptimized() reads the same field as isEbsOptimized(). */
    function GetEbsOptimized(): (r: Option<bool>)
      reads this
      ensures r == IsEbsOptimized()
    {
      ebsOptimized
    }

    method SetEbsOptimized(ebsOptimized: Option<bool>)
      modifies this
      ensures State() == old(State()).(ebsOptimized := ebsOptimized)
      ensures GetEbsOptimized() == ebsOptimized
    {
      this.ebsOptimized := ebsOptimized;
    }

    method WithEbsOptimized(ebsOptimized: Option<bool>) returns (r: SpotFleetLaunchSpecification)
      modifies this
      ensures r == this
      ensures State() == old(State()).(ebsOptimized := ebsOptimized)
      ensures GetEbsOptimized() == ebsOptimized
    {
      this.ebsOptimized := ebsOptimized;
      r := this;
    }

    /** toString(): the text SpotText describes; the list getters it calls install
        the null lists. */
    method ToString() returns (r: string)
      modifies this
      ensures r == SpotText(old(State()))
      ensures State() == ListsInstalled(old(State()))
    {
      var sb := "{";
      sb := AppendEntry(sb, "ImageId", imageId);
      sb := AppendEntry(sb, "KeyName", keyName);
      var securityGroupsList := GetSecurityGroups();  // never null
      sb := AppendEntry(sb, "SecurityGroups", Some(ListText(securityGroupsList.elems, TextOf)));
      sb := AppendEntry(sb, "UserData", userData);
      sb := AppendEntry(sb, "AddressingType", addressingType);
      sb := AppendEntry(sb, "InstanceType", instanceType);
      sb := AppendEntry(sb, "Placement", MapOption(placement, TextOf));
      sb := AppendEntry(sb, "KernelId", kernelId);
      sb := AppendEntry(sb, "RamdiskId", ramdiskId);
      var blockDeviceMappingsList := GetBlockDeviceMappings();  // never null
      sb := AppendEntry(sb, "BlockDeviceMappings", Some(ListText(blockDeviceMappingsList.elems, TextOf)));
      sb := AppendEntry(sb, "Monitoring", MapOption(monitoring, TextOf));
      sb := AppendEntry(sb, "SubnetId", subnetId);
      var networkInterfacesList := GetNetworkInterfaces();  // never null
      sb := AppendEntry(sb, "NetworkInterfaces", Some(ListText(networkInterfacesList.elems, TextOf)));
      sb := AppendEntry(sb, "IamInstanceProfile", MapOption(iamInstanceProfile, TextOf));
      sb := AppendLastEntry(sb, "EbsOptimized", MapOption(ebsOptimized, BooleanText));
      sb := sb + "}";
      r := sb;
    }

    /** hashCode(): the accumulation SpotHash describes, step by step in `int`
        arithmetic; the list getters it calls install the null lists. */
    method HashCode() returns (r: Int32)
      modifies this
      ensures r == SpotHash(old(State()))
      ensures State() == ListsInstalled(old(State()))
    {
      var hashCode: Int32 := 1;
      hashCode := HashStep(hashCode, NullableHash(imageId, StringHash));
      hashCode := HashStep(hashCode, NullableHash(keyName, StringHash));
      var securityGroupsList := GetSecurityGroups();  // never null
      hashCode := HashStep(hashCode, ListHash(securityGroupsList.elems, HashOf));
      hashCode := HashStep(hashCode, NullableHash(userData, StringHash));
      hashCode := HashStep(hashCode, NullableHash(addressingType, StringHash));
      hashCode := HashStep(hashCode, NullableHash(instanceType, StringHash));
      hashCode := HashStep(hashCode, NullableHash(placement, HashOf));
      hashCode := HashStep(hashCode, NullableHash(kernelId, StringHash));
      hashCode := HashStep(hashCode, NullableHash(ramdiskId, StringHash));
      var blockDeviceMappingsList := GetBlockDeviceMappings();  // never null
      hashCode := HashStep(hashCode, ListHash(blockDeviceMappingsList.elems, HashOf));
      hashCode := HashStep(hashCode, NullableHash(monitoring, HashOf));
      hashCode := HashStep(hashCode, NullableHash(subnetId, StringHash));
      var networkInterfacesList := GetNetworkInterfaces();  // never null
      hashCode := HashStep(hashCode, ListHash(networkInterfacesList.elems, HashOf));
      hashCode := HashStep(hashCode, NullableHash(iamInstanceProfile, HashOf));
      hashCode := HashStep(hashCode, NullableHash(ebsOptimized, BooleanHash));
      SpotHashSteps(State());
      r := hashCode;
    }

    /** equals(): true for the object itself, false for null and for objects of other
        classes; otherwise the answer SpotEquals gives. Fields are compared in
        declaration order and the first difference ends the comparison, so only the list
        getters reached run, on both objects. */
    method Equals(obj: object?) returns (r: bool)
      modifies this, obj
      ensures obj == this ==> r && unchanged(this)
      ensures obj == null ==> !r && unchanged(this)
      ensures obj != null && !(obj is SpotFleetLaunchSpecification) ==> !r && unchanged(this, obj)
      ensures obj is SpotFleetLaunchSpecification && obj != this ==>
        var other := obj as SpotFleetLaunchSpecification;
        && r == SpotEquals(old(State()), old(other.State()))
        && OnlyListsInstalled(old(State()), State())
        && OnlyListsInstalled(old(other.State()), other.State())
        && (r ==> State() == ListsInstalled(old(State()))
                  && other.State() == ListsInstalled(old(other.State())))
    {
      if obj == this { return true; }
      if obj == null { return false; }
      if !(obj is SpotFleetLaunchSpecification) { return false; }
      r := SameFields(obj as SpotFleetLaunchSpecification);
    }

    /** The field-by-field part of equals(), once obj is known to be another SpotFleetLaunchSpecification. */
    method SameFields(other: SpotFleetLaunchSpecification) returns (r: bool)
      requires other != this
      modifies this, other
      ensures r == SpotEquals(old(State()), old(other.State()))
      ensures OnlyListsInstalled(old(State()), State())
      ensures OnlyListsInstalled(old(other.State()), other.State())
      ensures r ==> State() == ListsInstalled(old(State())) && other.State() == ListsInstalled(old(other.State()))
    {
      ghost var before, otherBefore := State(), other.State();
      if !NullAwareEquals(other.imageId, imageId) { return false; }
      if !NullAwareEquals(other.keyName, keyName) { return false; }
      var otherSecurityGroups := other.GetSecurityGroups();
      var thisSecurityGroups := GetSecurityGroups();
      assert OnlyListsInstalled(before, State()) && OnlyListsInstalled(otherBefore, other.State());
      // both getters return a list, so the `== null ^ == null` test never fires
      if otherSecurityGroups.elems != thisSecurityGroups.elems { return false; }
      if !NullAwareEquals(other.userData, userData) { return false; }
      if !NullAwareEquals(other.addressingType, addressingType) { return false; }
      if !NullAwareEquals(other.instanceType, instanceType) { return false; }
      if !NullAwareEquals(other.placement, placement) { return false; }
      if !NullAwareEquals(other.kernelId, kernelId) { return false; }
      if !NullAwareEquals(other.ramdiskId, ramdiskId) { return false; }
      var otherBlockDeviceMappings := other.GetBlockDeviceMappings();
      var thisBlockDeviceMappings := GetBlockDeviceMappings();
      assert OnlyListsInstalled(before, State()) && OnlyListsInstalled(otherBefore, other.State());
      // both getters return a list, so the `== null ^ == null` test never fires
      if otherBlockDeviceMappings.elems != thisBlockDeviceMappings.elems { return false; }
      if !NullAwareEquals(other.monitoring, monitoring) { return false; }
      if !NullAwareEquals(other.subnetId, subnetId) { return false; }
      var otherNetworkInterfaces := other.GetNetworkInterfaces();
      var thisNetworkInterfaces := GetNetworkInterfaces();
      assert OnlyListsInstalled(before, State()) && OnlyListsInstalled(otherBefore, other.State());
      // both getters return a list, so the `== null ^ == null` test never fires
      if otherNetworkInterfaces.elems != thisNetworkInterfaces.elems { return false; }
      if !NullAwareEquals(other.iamInstanceProfile, iamInstanceProfile) { return false; }
      if !NullAwareEquals(other.ebsOptimized, ebsOptimized) { return false; }
      return true;
    }

    /** clone(): Object.clone(), a new object whose fields hold the same values. */
    method Clone() returns (c: SpotFleetLaunchSpecification)
      ensures fresh(c)
      ensures c.State() == State()
    {
      c := new SpotFleetLaunchSpecification.Copy(State());
    }
  }
}

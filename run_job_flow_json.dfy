/** The JSON document RunJobFlowRequestMarshaller writes for a request, as a function of the
    request: a null scalar is left out, a list is left out when it is null or
    auto-constructed and empty, null list elements and null map values are skipped, and the
    members follow a fixed order. ConfigurationJsonMarshaller is a parameter; when it fails,
    so does the whole document, with the first failure in writing order. */
module RunJobFlowJson {

  import opened Wrappers
  import opened JavaLang
  import opened AutoLists
  import opened Json
  import opened RunJobFlowRequestModel

  /** ConfigurationJsonMarshaller.marshall: the members of the one object it writes for a
      configuration, or the message of the exception it throws. */
  type ConfigurationMarshaller = Configuration -> Result<seq<Member>, string>

  // ---------------------------------------------------------------------------
  // Members of one field

  /** `if (v != null) key(k).value(v)` for a String field. */
  function StringMember(key: string, v: Option<string>): seq<Member>
  {
    if v.Some? then [Member(key, JString(v.value))] else []
  }

  /** The same for an Integer field. */
  function IntMember(key: string, v: Option<Int32>): seq<Member>
  {
    if v.Some? then [Member(key, JInt(v.value))] else []
  }

  /** The same for a Boolean field. */
  function BoolMember(key: string, v: Option<bool>): seq<Member>
  {
    if v.Some? then [Member(key, JBool(v.value))] else []
  }

  /** A string list element is written as a JSON string. */
  function StringJson(s: string): Json
  {
    JString(s)
  }

  /** The values a list writes: one per non-null element, in list order. */
  function Written<T>(elems: seq<Option<T>>, write: T -> Json): seq<Json>
  {
    if elems == [] then []
    else
      var last := elems[|elems| - 1];
      Written(elems[..|elems| - 1], write) + (if last.Some? then [write(last.value)] else [])
  }

  /** A list field's member: an array of the written elements, unless the list is null or
      auto-constructed and empty. */
  function ListMember<T>(key: string, field: Option<AutoList<T>>, write: T -> Json): seq<Member>
  {
    if Emitted(field) then [Member(key, JArray(Written(field.value.elems, write)))] else []
  }

  // ---------------------------------------------------------------------------
  // Configurations, the one part that can fail

  /** The object ConfigurationJsonMarshaller writes for one configuration. */
  function ConfigurationJson(c: Configuration, conf: ConfigurationMarshaller): Result<Json, string>
  {
    var ms :- conf(c);
    Success(JObject(ms))
  }

  /** The configurations a list writes, or the first failure. */
  function ConfigurationsWritten(elems: seq<Option<Configuration>>, conf: ConfigurationMarshaller)
    : Result<seq<Json>, string>
  {
    if elems == [] then Success([])
    else
      var last := elems[|elems| - 1];
      var init :- ConfigurationsWritten(elems[..|elems| - 1], conf);
      if last.None? then Success(init)
      else
        var j :- ConfigurationJson(last.value, conf);
        Success(init + [j])
  }

  function ConfigurationsMember(key: string, field: Option<AutoList<Configuration>>, conf: ConfigurationMarshaller)
    : Result<seq<Member>, string>
  {
    if Emitted(field) then
      var js :- ConfigurationsWritten(field.value.elems, conf);
      Success([Member(key, JArray(js))])
    else Success([])
  }

  // ---------------------------------------------------------------------------
  // The objects

  function PlacementJson(p: PlacementType): Json
  {
    JObject(StringMember("AvailabilityZone", p.availabilityZone))
  }

  function PlacementMember(p: Option<PlacementType>): seq<Member>
  {
    if p.Some? then [Member("Placement", PlacementJson(p.value))] else []
  }

  function InstanceGroupJson(g: InstanceGroupConfig, conf: ConfigurationMarshaller): Result<Json, string>
  {
    var configurations :- ConfigurationsMember("Configurations", g.configurations, conf);
    Success(JObject(
      StringMember("Name", g.name)
      + StringMember("Market", g.market)
      + StringMember("InstanceRole", g.instanceRole)
      + StringMember("BidPrice", g.bidPrice)
      + StringMember("InstanceType", g.instanceType)
      + IntMember("InstanceCount", g.instanceCount)
      + configurations))
  }

  /** The instance groups a list writes, or the first failure. */
  function InstanceGroupsWritten(elems: seq<Option<InstanceGroupConfig>>, conf: ConfigurationMarshaller)
    : Result<seq<Json>, string>
  {
    if elems == [] then Success([])
    else
      var last := elems[|elems| - 1];
      var init :- InstanceGroupsWritten(elems[..|elems| - 1], conf);
      if last.None? then Success(init)
      else
        var j :- InstanceGroupJson(last.value, conf);
        Success(init + [j])
  }

  function InstanceGroupsMember(field: Option<AutoList<InstanceGroupConfig>>, conf: ConfigurationMarshaller)
    : Result<seq<Member>, string>
  {
    if Emitted(field) then
      var js :- InstanceGroupsWritten(field.value.elems, conf);
      Success([Member("InstanceGroups", JArray(js))])
    else Success([])
  }

  function InstancesJson(ic: JobFlowInstancesConfig, conf: ConfigurationMarshaller): Result<Json, string>
  {
    var instanceGroups :- InstanceGroupsMember(ic.instanceGroups, conf);
    Success(JObject(
      StringMember("MasterInstanceType", ic.masterInstanceType)
      + StringMember("SlaveInstanceType", ic.slaveInstanceType)
      + IntMember("InstanceCount", ic.instanceCount)
      + instanceGroups
      + StringMember("Ec2KeyName", ic.ec2KeyName)
      + PlacementMember(ic.placement)
      + BoolMember("KeepJobFlowAliveWhenNoSteps", ic.keepJobFlowAliveWhenNoSteps)
      + BoolMember("TerminationProtected", ic.terminationProtected)
      + StringMember("HadoopVersion", ic.hadoopVersion)
      + StringMember("Ec2SubnetId", ic.ec2SubnetId)
      + StringMember("EmrManagedMasterSecurityGroup", ic.emrManagedMasterSecurityGroup)
      + StringMember("EmrManagedSlaveSecurityGroup", ic.emrManagedSlaveSecurityGroup)
      + ListMember("AdditionalMasterSecurityGroups", ic.additionalMasterSecurityGroups, StringJson)
      + ListMember("AdditionalSlaveSecurityGroups", ic.additionalSlaveSecurityGroups, StringJson)))
  }

  function InstancesMember(ic: Option<JobFlowInstancesConfig>, conf: ConfigurationMarshaller)
    : Result<seq<Member>, string>
  {
    if ic.Some? then
      var j :- InstancesJson(ic.value, conf);
      Success([Member("Instances", j)])
    else Success([])
  }

  function KeyValueJson(kv: KeyValue): Json
  {
    JObject(StringMember("Key", kv.key) + StringMember("Value", kv.value))
  }

  function HadoopJarStepJson(h: HadoopJarStepConfig): Json
  {
    JObject(
      ListMember("Properties", h.properties, KeyValueJson)
      + StringMember("Jar", h.jar)
      + StringMember("MainClass", h.mainClass)
      + ListMember("Args", h.args, StringJson))
  }

  function StepJson(s: StepConfig): Json
  {
    JObject(
      StringMember("Name", s.name)
      + StringMember("ActionOnFailure", s.actionOnFailure)
      + (if s.hadoopJarStep.Some? then [Member("HadoopJarStep", HadoopJarStepJson(s.hadoopJarStep.value))] else []))
  }

  function ScriptBootstrapActionJson(sb: ScriptBootstrapActionConfig): Json
  {
    JObject(StringMember("Path", sb.path) + ListMember("Args", sb.args, StringJson))
  }

  function BootstrapActionJson(b: BootstrapActionConfig): Json
  {
    JObject(
      StringMember("Name", b.name)
      + (if b.scriptBootstrapAction.Some?
         then [Member("ScriptBootstrapAction", ScriptBootstrapActionJson(b.scriptBootstrapAction.value))]
         else []))
  }

  function SupportedProductJson(sp: SupportedProductConfig): Json
  {
    JObject(StringMember("Name", sp.name) + ListMember("Args", sp.args, StringJson))
  }

  /** The members of an AdditionalInfo object: one per entry whose value is not null, in
      the map's iteration order. */
  function InfoMembers(entries: seq<(string, Option<string>)>): seq<Member>
  {
    if entries == [] then []
    else
      var last := entries[|entries| - 1];
      InfoMembers(entries[..|entries| - 1]) + StringMember(last.0, last.1)
  }

  function ApplicationJson(a: Application): Json
  {
    JObject(
      StringMember("Name", a.name)
      + StringMember("Version", a.version)
      + ListMember("Args", a.args, StringJson)
      + (if a.additionalInfo.Some? then [Member("AdditionalInfo", JObject(InfoMembers(a.additionalInfo.value)))] else []))
  }

  function TagJson(t: Tag): Json
  {
    JObject(StringMember("Key", t.key) + StringMember("Value", t.value))
  }

  /** The document written for a request, or the message of the first failure of
      ConfigurationJsonMarshaller in writing order. */
  function RequestJson(r: RunJobFlowRequest, conf: ConfigurationMarshaller): Result<Json, string>
  {
    var instances :- InstancesMember(r.instances, conf);
    var configurations :- ConfigurationsMember("Configurations", r.configurations, conf);
    Success(JObject(
      StringMember("Name", r.name)
      + StringMember("LogUri", r.logUri)
      + StringMember("AdditionalInfo", r.additionalInfo)
      + StringMember("AmiVersion", r.amiVersion)
      + StringMember("ReleaseLabel", r.releaseLabel)
      + instances
      + ListMember("Steps", r.steps, StepJson)
      + ListMember("BootstrapActions", r.bootstrapActions, BootstrapActionJson)
      + ListMember("SupportedProducts", r.supportedProducts, StringJson)
      + ListMember("NewSupportedProducts", r.newSupportedProducts, SupportedProductJson)
      + ListMember("Applications", r.applications, ApplicationJson)
      + configurations
      + BoolMember("VisibleToAllUsers", r.visibleToAllUsers)
      + StringMember("JobFlowRole", r.jobFlowRole)
      + StringMember("ServiceRole", r.serviceRole)
      + ListMember("Tags", r.tags, TagJson)))
  }

  // ---------------------------------------------------------------------------
  // Properties of the document

  /** A list writes exactly its non-null elements, in list order, each by `write`. */
  lemma {:induction false} WrittenSkipsNulls<T>(elems: seq<Option<T>>, write: T -> Json)
    ensures |Written(elems, write)| == |NonNull(elems)|
    ensures forall i :: 0 <= i < |NonNull(elems)| ==> Written(elems, write)[i] == write(NonNull(elems)[i])
  {
    if elems != [] {
      WrittenSkipsNulls(elems[..|elems| - 1], write);
    }
  }

  /** The list rule: a list field is written exactly when it is non-null and not
      (auto-constructed and empty). A list only read through its getter is left out; a list
      explicitly set to empty is written as []. */
  lemma ListMemberRule<T>(key: string, field: Option<AutoList<T>>, write: T -> Json)
    ensures ListMember(key, field, write) != [] <==> Emitted(field)
    ensures ListMember(key, Some(Installed<T>(None)), write) == []
    ensures ListMember(key, CopyOf<T>(Some([])), write) == [Member(key, JArray([]))]
  {
  }

  /** Whether the getter has installed its empty list or the field is still null makes no
      difference to what is written. */
  lemma ListMemberIgnoresInstallation<T>(key: string, field: Option<AutoList<T>>, write: T -> Json)
    ensures ListMember(key, Some(Installed(field)), write) == ListMember(key, field, write)
  {
  }

  /** AdditionalInfo: an entry is written, as a string member, exactly when its value is
      not null. */
  lemma {:induction false} InfoMembersDropNulls(entries: seq<(string, Option<string>)>, k: string, v: string)
    ensures Member(k, JString(v)) in InfoMembers(entries) <==> (k, Some(v)) in entries
    ensures forall m :: m in InfoMembers(entries) ==> m.value.JString?
  {
    if entries != [] {
      var init := entries[..|entries| - 1];
      InfoMembersDropNulls(init, k, v);
      assert entries == init + [entries[|entries| - 1]];
    }
  }

  /** `[key]` when the member is written, nothing otherwise. */
  function Present(key: string, written: bool): seq<string>
  {
    if written then [key] else []
  }

  /** Keys distribute over member concatenation. */
  lemma KeysAppend(a: seq<Member>, b: seq<Member>)
    ensures Keys(a + b) == Keys(a) + Keys(b)
  {
  }

  /** How writing a request ends: with the failure of Instances, else with the failure of
      the top-level Configurations, else with the object of all sixteen parts in order. */
  lemma RequestJsonCases(r: RunJobFlowRequest, conf: ConfigurationMarshaller)
    ensures InstancesMember(r.instances, conf).Failure? ==>
      RequestJson(r, conf) == Failure(InstancesMember(r.instances, conf).error)
    ensures (InstancesMember(r.instances, conf).Success?
             && ConfigurationsMember("Configurations", r.configurations, conf).Failure?) ==>
      RequestJson(r, conf) == Failure(ConfigurationsMember("Configurations", r.configurations, conf).error)
    ensures (InstancesMember(r.instances, conf).Success?
             && ConfigurationsMember("Configurations", r.configurations, conf).Success?) ==>
      RequestJson(r, conf) == Success(JObject(
        StringMember("Name", r.name)
        + StringMember("LogUri", r.logUri)
        + StringMember("AdditionalInfo", r.additionalInfo)
        + StringMember("AmiVersion", r.amiVersion)
        + StringMember("ReleaseLabel", r.releaseLabel)
        + InstancesMember(r.instances, conf).value
        + ListMember("Steps", r.steps, StepJson)
        + ListMember("BootstrapActions", r.bootstrapActions, BootstrapActionJson)
        + ListMember("SupportedProducts", r.supportedProducts, StringJson)
        + ListMember("NewSupportedProducts", r.newSupportedProducts, SupportedProductJson)
        + ListMember("Applications", r.applications, ApplicationJson)
        + ConfigurationsMember("Configurations", r.configurations, conf).value
        + BoolMember("VisibleToAllUsers", r.visibleToAllUsers)
        + StringMember("JobFlowRole", r.jobFlowRole)
        + StringMember("ServiceRole", r.serviceRole)
        + ListMember("Tags", r.tags, TagJson)))
  {
  }

  /** The keys of a scalar member. */
  lemma KeysOfStringMember(key: string, v: Option<string>)
    ensures Keys(StringMember(key, v)) == Present(key, v.Some?)
  {
  }

  lemma KeysOfBoolMember(key: string, v: Option<bool>)
    ensures Keys(BoolMember(key, v)) == Present(key, v.Some?)
  {
  }

  lemma KeysOfIntMember(key: string, v: Option<Int32>)
    ensures Keys(IntMember(key, v)) == Present(key, v.Some?)
  {
  }

  /** The keys of a list member follow the list rule. */
  lemma KeysOfListMember<T>(key: string, field: Option<AutoList<T>>, write: T -> Json)
    ensures Keys(ListMember(key, field, write)) == Present(key, Emitted(field))
  {
  }

  /** Keys of sixteen consecutive parts, from the keys of each part. */
  lemma KeysOfParts(
    p1: seq<Member>, p2: seq<Member>, p3: seq<Member>, p4: seq<Member>, p5: seq<Member>, p6: seq<Member>,
    p7: seq<Member>, p8: seq<Member>, p9: seq<Member>, p10: seq<Member>, p11: seq<Member>, p12: seq<Member>,
    p13: seq<Member>, p14: seq<Member>, p15: seq<Member>, p16: seq<Member>,
    k1: seq<string>, k2: seq<string>, k3: seq<string>, k4: seq<string>, k5: seq<string>, k6: seq<string>,
    k7: seq<string>, k8: seq<string>, k9: seq<string>, k10: seq<string>, k11: seq<string>, k12: seq<string>,
    k13: seq<string>, k14: seq<string>, k15: seq<string>, k16: seq<string>)
    requires Keys(p1) == k1
    requires Keys(p2) == k2
    requires Keys(p3) == k3
    requires Keys(p4) == k4
    requires Keys(p5) == k5
    requires Keys(p6) == k6
    requires Keys(p7) == k7
    requires Keys(p8) == k8
    requires Keys(p9) == k9
    requires Keys(p10) == k10
    requires Keys(p11) == k11
    requires Keys(p12) == k12
    requires Keys(p13) == k13
    requires Keys(p14) == k14
    requires Keys(p15) == k15
    requires Keys(p16) == k16
    ensures Keys(p1 + p2 + p3 + p4 + p5 + p6 + p7 + p8 + p9 + p10 + p11 + p12 + p13 + p14 + p15 + p16) == k1 + k2 + k3 + k4 + k5 + k6 + k7 + k8 + k9 + k10 + k11 + k12 + k13 + k14 + k15 + k16
  {
    var acc := p1;
    KeysAppend(acc, p2);
    acc := acc + p2;
    KeysAppend(acc, p3);
    acc := acc + p3;
    KeysAppend(acc, p4);
    acc := acc + p4;
    KeysAppend(acc, p5);
    acc := acc + p5;
    KeysAppend(acc, p6);
    acc := acc + p6;
    KeysAppend(acc, p7);
    acc := acc + p7;
    KeysAppend(acc, p8);
    acc := acc + p8;
    KeysAppend(acc, p9);
    acc := acc + p9;
    KeysAppend(acc, p10);
    acc := acc + p10;
    KeysAppend(acc, p11);
    acc := acc + p11;
    KeysAppend(acc, p12);
    acc := acc + p12;
    KeysAppend(acc, p13);
    acc := acc + p13;
    KeysAppend(acc, p14);
    acc := acc + p14;
    KeysAppend(acc, p15);
    acc := acc + p15;
    KeysAppend(acc, p16);
    acc := acc + p16;
  }

  /** The top-level keys: the fixed order Name, LogUri, AdditionalInfo, AmiVersion,
      ReleaseLabel, Instances, Steps, BootstrapActions, SupportedProducts,
      NewSupportedProducts, Applications, Configurations, VisibleToAllUsers, JobFlowRole,
      ServiceRole, Tags, with a scalar or object key present exactly when its field is not
      null and a list key present exactly when the list rule says so. */
  lemma RequestKeys(r: RunJobFlowRequest, conf: ConfigurationMarshaller)
    requires RequestJson(r, conf).Success?
    ensures RequestJson(r, conf).value.JObject?
    ensures Keys(RequestJson(r, conf).value.members) ==
      Present("Name", r.name.Some?)
      + Present("LogUri", r.logUri.Some?)
      + Present("AdditionalInfo", r.additionalInfo.Some?)
      + Present("AmiVersion", r.amiVersion.Some?)
      + Present("ReleaseLabel", r.releaseLabel.Some?)
      + Present("Instances", r.instances.Some?)
      + Present("Steps", Emitted(r.steps))
      + Present("BootstrapActions", Emitted(r.bootstrapActions))
      + Present("SupportedProducts", Emitted(r.supportedProducts))
      + Present("NewSupportedProducts", Emitted(r.newSupportedProducts))
      + Present("Applications", Emitted(r.applications))
      + Present("Configurations", Emitted(r.configurations))
      + Present("VisibleToAllUsers", r.visibleToAllUsers.Some?)
      + Present("JobFlowRole", r.jobFlowRole.Some?)
      + Present("ServiceRole", r.serviceRole.Some?)
      + Present("Tags", Emitted(r.tags))
  {
    RequestJsonCases(r, conf);
    var instances := InstancesMember(r.instances, conf).value;
    var configurations := ConfigurationsMember("Configurations", r.configurations, conf).value;
    assert Keys(instances) == Present("Instances", r.instances.Some?);
    assert Keys(configurations) == Present("Configurations", Emitted(r.configurations));
    KeysOfStringMember("Name", r.name);
    KeysOfStringMember("LogUri", r.logUri);
    KeysOfStringMember("AdditionalInfo", r.additionalInfo);
    KeysOfStringMember("AmiVersion", r.amiVersion);
    KeysOfStringMember("ReleaseLabel", r.releaseLabel);
    KeysOfListMember("Steps", r.steps, StepJson);
    KeysOfListMember("BootstrapActions", r.bootstrapActions, BootstrapActionJson);
    KeysOfListMember("SupportedProducts", r.supportedProducts, StringJson);
    KeysOfListMember("NewSupportedProducts", r.newSupportedProducts, SupportedProductJson);
    KeysOfListMember("Applications", r.applications, ApplicationJson);
    KeysOfBoolMember("VisibleToAllUsers", r.visibleToAllUsers);
    KeysOfStringMember("JobFlowRole", r.jobFlowRole);
    KeysOfStringMember("ServiceRole", r.serviceRole);
    KeysOfListMember("Tags", r.tags, TagJson);
    KeysOfParts(
      StringMember("Name", r.name),
      StringMember("LogUri", r.logUri),
      StringMember("AdditionalInfo", r.additionalInfo),
      StringMember("AmiVersion", r.amiVersion),
      StringMember("ReleaseLabel", r.releaseLabel),
      instances,
      ListMember("Steps", r.steps, StepJson),
      ListMember("BootstrapActions", r.bootstrapActions, BootstrapActionJson),
      ListMember("SupportedProducts", r.supportedProducts, StringJson),
      ListMember("NewSupportedProducts", r.newSupportedProducts, SupportedProductJson),
      ListMember("Applications", r.applications, ApplicationJson),
      configurations,
      BoolMember("VisibleToAllUsers", r.visibleToAllUsers),
      StringMember("JobFlowRole", r.jobFlowRole),
      StringMember("ServiceRole", r.serviceRole),
      ListMember("Tags", r.tags, TagJson),
      Present("Name", r.name.Some?),
      Present("LogUri", r.logUri.Some?),
      Present("AdditionalInfo", r.additionalInfo.Some?),
      Present("AmiVersion", r.amiVersion.Some?),
      Present("ReleaseLabel", r.releaseLabel.Some?),
      Present("Instances", r.instances.Some?),
      Present("Steps", Emitted(r.steps)),
      Present("BootstrapActions", Emitted(r.bootstrapActions)),
      Present("SupportedProducts", Emitted(r.supportedProducts)),
      Present("NewSupportedProducts", Emitted(r.newSupportedProducts)),
      Present("Applications", Emitted(r.applications)),
      Present("Configurations", Emitted(r.configurations)),
      Present("VisibleToAllUsers", r.visibleToAllUsers.Some?),
      Present("JobFlowRole", r.jobFlowRole.Some?),
      Present("ServiceRole", r.serviceRole.Some?),
      Present("Tags", Emitted(r.tags)));
  }

  /** No string occurs twice. */
  predicate NoDuplicates(ks: seq<string>)
  {
    forall i, j :: 0 <= i < j < |ks| ==> ks[i] != ks[j]
  }

  /** The keys among the first n of `keys` that are written, written[i] telling whether
      keys[i] is. */
  function Chosen(keys: seq<string>, n: nat, written: seq<bool>): seq<string>
    requires n <= |written| == |keys|
  {
    if n == 0 then [] else Chosen(keys, n - 1, written) + Present(keys[n - 1], written[n - 1])
  }

  /** Any choice among distinct keys, kept in order, repeats none and draws only on the
      keys before n. */
  lemma {:induction false} ChosenDistinct(keys: seq<string>, n: nat, written: seq<bool>)
    requires n <= |written| == |keys|
    requires NoDuplicates(keys)
    ensures NoDuplicates(Chosen(keys, n, written))
    ensures forall k :: k in Chosen(keys, n, written) ==> k in keys[..n]
  {
    if n > 0 {
      ChosenDistinct(keys, n - 1, written);
      var front := Chosen(keys, n - 1, written);
      var key := keys[n - 1];
      assert keys[..n] == keys[..n - 1] + [key];
      assert key !in keys[..n - 1];
      assert Chosen(keys, n, written) == front + Present(key, written[n - 1]);
    }
  }

  /** Sixteen keys chosen in order are the sixteen choices one after another. */
  lemma ChosenOf16(keys: seq<string>, written: seq<bool>)
    requires |keys| == |written| == 16
    ensures Chosen(keys, 16, written) ==
      Present(keys[0], written[0])
      + Present(keys[1], written[1])
      + Present(keys[2], written[2])
      + Present(keys[3], written[3])
      + Present(keys[4], written[4])
      + Present(keys[5], written[5])
      + Present(keys[6], written[6])
      + Present(keys[7], written[7])
      + Present(keys[8], written[8])
      + Present(keys[9], written[9])
      + Present(keys[10], written[10])
      + Present(keys[11], written[11])
      + Present(keys[12], written[12])
      + Present(keys[13], written[13])
      + Present(keys[14], written[14])
      + Present(keys[15], written[15])
  {
    assert Chosen(keys, 1, written) == Present(keys[0], written[0]);
    assert Chosen(keys, 2, written) == Chosen(keys, 1, written) + Present(keys[1], written[1]);
    assert Chosen(keys, 3, written) == Chosen(keys, 2, written) + Present(keys[2], written[2]);
    assert Chosen(keys, 4, written) == Chosen(keys, 3, written) + Present(keys[3], written[3]);
    assert Chosen(keys, 5, written) == Chosen(keys, 4, written) + Present(keys[4], written[4]);
    assert Chosen(keys, 6, written) == Chosen(keys, 5, written) + Present(keys[5], written[5]);
    assert Chosen(keys, 7, written) == Chosen(keys, 6, written) + Present(keys[6], written[6]);
    assert Chosen(keys, 8, written) == Chosen(keys, 7, written) + Present(keys[7], written[7]);
    assert Chosen(keys, 9, written) == Chosen(keys, 8, written) + Present(keys[8], written[8]);
    assert Chosen(keys, 10, written) == Chosen(keys, 9, written) + Present(keys[9], written[9]);
    assert Chosen(keys, 11, written) == Chosen(keys, 10, written) + Present(keys[10], written[10]);
    assert Chosen(keys, 12, written) == Chosen(keys, 11, written) + Present(keys[11], written[11]);
    assert Chosen(keys, 13, written) == Chosen(keys, 12, written) + Present(keys[12], written[12]);
    assert Chosen(keys, 14, written) == Chosen(keys, 13, written) + Present(keys[13], written[13]);
    assert Chosen(keys, 15, written) == Chosen(keys, 14, written) + Present(keys[14], written[14]);
    assert Chosen(keys, 16, written) == Chosen(keys, 15, written) + Present(keys[15], written[15]);
  }

  /** Sixteen distinct keys, each written or not, in order: none is written twice. */
  lemma PresentKeysDistinct(
    k1: string, k2: string, k3: string, k4: string, k5: string, k6: string, k7: string, k8: string,
    k9: string, k10: string, k11: string, k12: string, k13: string, k14: string, k15: string, k16: string,
    b1: bool, b2: bool, b3: bool, b4: bool, b5: bool, b6: bool, b7: bool, b8: bool,
    b9: bool, b10: bool, b11: bool, b12: bool, b13: bool, b14: bool, b15: bool, b16: bool)
    requires NoDuplicates([k1, k2, k3, k4, k5, k6, k7, k8, k9, k10, k11, k12, k13, k14, k15, k16])
    ensures NoDuplicates(
      Present(k1, b1)
      + Present(k2, b2)
      + Present(k3, b3)
      + Present(k4, b4)
      + Present(k5, b5)
      + Present(k6, b6)
      + Present(k7, b7)
      + Present(k8, b8)
      + Present(k9, b9)
      + Present(k10, b10)
      + Present(k11, b11)
      + Present(k12, b12)
      + Present(k13, b13)
      + Present(k14, b14)
      + Present(k15, b15)
      + Present(k16, b16))
  {
    var keys := [k1, k2, k3, k4, k5, k6, k7, k8, k9, k10, k11, k12, k13, k14, k15, k16];
    var written := [b1, b2, b3, b4, b5, b6, b7, b8, b9, b10, b11, b12, b13, b14, b15, b16];
    ChosenDistinct(keys, 16, written);
    ChosenOf16(keys, written);
  }

  /** The top-level keys in the order the marshaller writes them. */
  lemma RequestKeyOrderDistinct()
    ensures NoDuplicates([
      "Name", "LogUri", "AdditionalInfo", "AmiVersion", "ReleaseLabel", "Instances",
      "Steps", "BootstrapActions", "SupportedProducts", "NewSupportedProducts", "Applications",
      "Configurations", "VisibleToAllUsers", "JobFlowRole", "ServiceRole", "Tags"])
  {
  }

  /** No top-level key is written twice. */
  lemma RequestKeysDistinct(r: RunJobFlowRequest, conf: ConfigurationMarshaller)
    requires RequestJson(r, conf).Success?
    ensures RequestJson(r, conf).value.JObject?
    ensures NoDuplicates(Keys(RequestJson(r, conf).value.members))
  {
    RequestKeys(r, conf);
    RequestKeyOrderDistinct();
    PresentKeysDistinct(
      "Name", "LogUri", "AdditionalInfo", "AmiVersion", "ReleaseLabel", "Instances",
      "Steps", "BootstrapActions", "SupportedProducts", "NewSupportedProducts", "Applications",
      "Configurations", "VisibleToAllUsers", "JobFlowRole", "ServiceRole", "Tags",
      r.name.Some?, r.logUri.Some?, r.additionalInfo.Some?, r.amiVersion.Some?,
      r.releaseLabel.Some?, r.instances.Some?, Emitted(r.steps), Emitted(r.bootstrapActions),
      Emitted(r.supportedProducts), Emitted(r.newSupportedProducts), Emitted(r.applications),
      Emitted(r.configurations), r.visibleToAllUsers.Some?, r.jobFlowRole.Some?,
      r.serviceRole.Some?, Emitted(r.tags));
  }

  // ---------------------------------------------------------------------------
  // Failure in writing order

  /** One more configuration: a null one writes nothing, a non-null one writes its object or
      fails with ConfigurationJsonMarshaller's message. */
  lemma ConfigurationsWrittenStep(elems: seq<Option<Configuration>>, i: nat, conf: ConfigurationMarshaller)
    requires i < |elems|
    requires ConfigurationsWritten(elems[..i], conf).Success?
    ensures elems[i].None? ==> ConfigurationsWritten(elems[..i + 1], conf) == ConfigurationsWritten(elems[..i], conf)
    ensures elems[i].Some? && conf(elems[i].value).Failure? ==>
      ConfigurationsWritten(elems[..i + 1], conf) == Failure(conf(elems[i].value).error)
    ensures elems[i].Some? && conf(elems[i].value).Success? ==>
      ConfigurationsWritten(elems[..i + 1], conf)
        == Success(ConfigurationsWritten(elems[..i], conf).value + [JObject(conf(elems[i].value).value)])
  {
    assert elems[..i + 1][..i] == elems[..i];
  }

  /** Once a prefix of the list has failed, the whole list fails with the same message: the
      exception ends the loop. */
  lemma {:induction false} ConfigurationsWrittenPrefixFailure(elems: seq<Option<Configuration>>, n: nat, conf: ConfigurationMarshaller)
    requires n <= |elems|
    requires ConfigurationsWritten(elems[..n], conf).Failure?
    ensures ConfigurationsWritten(elems, conf) == ConfigurationsWritten(elems[..n], conf)
    decreases |elems| - n
  {
    if n == |elems| {
      assert elems[..n] == elems;
    } else {
      var init := elems[..|elems| - 1];
      assert init[..n] == elems[..n];
      ConfigurationsWrittenPrefixFailure(init, n, conf);
    }
  }

  /** The configurations of a list are written without failure exactly when
      ConfigurationJsonMarshaller succeeds on each non-null one; then one object is written per
      non-null configuration. */
  lemma {:induction false} ConfigurationsWrittenSucceeds(elems: seq<Option<Configuration>>, conf: ConfigurationMarshaller)
    ensures ConfigurationsWritten(elems, conf).Success? <==>
      forall i :: 0 <= i < |elems| && elems[i].Some? ==> conf(elems[i].value).Success?
    ensures ConfigurationsWritten(elems, conf).Success? ==> |ConfigurationsWritten(elems, conf).value| == |NonNull(elems)|
  {
    if elems != [] {
      var init := elems[..|elems| - 1];
      ConfigurationsWrittenSucceeds(init, conf);
      assert forall i :: 0 <= i < |init| ==> init[i] == elems[i];
      NonNullAppend(init, [elems[|elems| - 1]]);
      assert init + [elems[|elems| - 1]] == elems;
    }
  }

  /** One more instance group, as ConfigurationsWrittenStep. */
  lemma InstanceGroupsWrittenStep(elems: seq<Option<InstanceGroupConfig>>, i: nat, conf: ConfigurationMarshaller)
    requires i < |elems|
    requires InstanceGroupsWritten(elems[..i], conf).Success?
    ensures elems[i].None? ==> InstanceGroupsWritten(elems[..i + 1], conf) == InstanceGroupsWritten(elems[..i], conf)
    ensures elems[i].Some? && InstanceGroupJson(elems[i].value, conf).Failure? ==>
      InstanceGroupsWritten(elems[..i + 1], conf) == Failure(InstanceGroupJson(elems[i].value, conf).error)
    ensures elems[i].Some? && InstanceGroupJson(elems[i].value, conf).Success? ==>
      InstanceGroupsWritten(elems[..i + 1], conf)
        == Success(InstanceGroupsWritten(elems[..i], conf).value + [InstanceGroupJson(elems[i].value, conf).value])
  {
    assert elems[..i + 1][..i] == elems[..i];
  }

  lemma {:induction false} InstanceGroupsWrittenPrefixFailure(elems: seq<Option<InstanceGroupConfig>>, n: nat, conf: ConfigurationMarshaller)
    requires n <= |elems|
    requires InstanceGroupsWritten(elems[..n], conf).Failure?
    ensures InstanceGroupsWritten(elems, conf) == InstanceGroupsWritten(elems[..n], conf)
    decreases |elems| - n
  {
    if n == |elems| {
      assert elems[..n] == elems;
    } else {
      var init := elems[..|elems| - 1];
      assert init[..n] == elems[..n];
      InstanceGroupsWrittenPrefixFailure(init, n, conf);
    }
  }

  /** ConfigurationJsonMarshaller never fails on any configuration. */
  ghost predicate NeverFails(conf: ConfigurationMarshaller)
  {
    forall c :: conf(c).Success?
  }

  lemma InstanceGroupJsonSucceeds(g: InstanceGroupConfig, conf: ConfigurationMarshaller)
    requires NeverFails(conf)
    ensures InstanceGroupJson(g, conf).Success?
  {
    if Emitted(g.configurations) {
      ConfigurationsWrittenSucceeds(g.configurations.value.elems, conf);
    }
  }

  lemma {:induction false} InstanceGroupsWrittenSucceeds(elems: seq<Option<InstanceGroupConfig>>, conf: ConfigurationMarshaller)
    requires NeverFails(conf)
    ensures InstanceGroupsWritten(elems, conf).Success?
  {
    if elems != [] {
      InstanceGroupsWrittenSucceeds(elems[..|elems| - 1], conf);
      var last := elems[|elems| - 1];
      if last.Some? {
        InstanceGroupJsonSucceeds(last.value, conf);
      }
    }
  }

  /** Only ConfigurationJsonMarshaller can make writing fail: when it never fails, every
      request is written. */
  lemma RequestJsonSucceeds(r: RunJobFlowRequest, conf: ConfigurationMarshaller)
    requires NeverFails(conf)
    ensures RequestJson(r, conf).Success?
  {
    if r.instances.Some? && Emitted(r.instances.value.instanceGroups) {
      InstanceGroupsWrittenSucceeds(r.instances.value.instanceGroups.value.elems, conf);
    }
    if Emitted(r.configurations) {
      ConfigurationsWrittenSucceeds(r.configurations.value.elems, conf);
    }
  }

  // ---------------------------------------------------------------------------
  // When writing fails

  /** The configurations marshall() hands to ConfigurationJsonMarshaller for one list
      field: the non-null elements, in order, when the list is written at all. */
  function ListConfigurations(field: Option<AutoList<Configuration>>): seq<Configuration>
  {
    if Emitted(field) then NonNull(field.value.elems) else []
  }

  /** The configurations handed over for a list of instance groups, group by group. */
  function GroupsConfigurations(elems: seq<Option<InstanceGroupConfig>>): seq<Configuration>
  {
    if elems == [] then []
    else
      var last := elems[|elems| - 1];
      GroupsConfigurations(elems[..|elems| - 1])
      + (if last.Some? then ListConfigurations(last.value.configurations) else [])
  }

  /** Every configuration marshall() hands to ConfigurationJsonMarshaller for a request, in
      the order it does so: those of Instances.InstanceGroups, then the top-level ones. */
  function RequestConfigurations(r: RunJobFlowRequest): seq<Configuration>
  {
    (if r.instances.Some? && Emitted(r.instances.value.instanceGroups)
     then GroupsConfigurations(r.instances.value.instanceGroups.value.elems)
     else [])
    + ListConfigurations(r.configurations)
  }

  /** The message of the exception ConfigurationJsonMarshaller throws for the first of
      `cs` it fails on, or None when it fails on none of them. */
  function FirstFailure(cs: seq<Configuration>, conf: ConfigurationMarshaller): Option<string>
  {
    if cs == [] then None
    else if conf(cs[0]).Failure? then Some(conf(cs[0]).error)
    else FirstFailure(cs[1..], conf)
  }

  /** FirstFailure names the first failing configuration, and is None exactly when there is
      none. */
  lemma {:induction false} FirstFailureIsFirst(cs: seq<Configuration>, conf: ConfigurationMarshaller)
    ensures FirstFailure(cs, conf).None? <==> forall i :: 0 <= i < |cs| ==> conf(cs[i]).Success?
    ensures FirstFailure(cs, conf).Some? ==>
      exists i :: 0 <= i < |cs| && conf(cs[i]) == Failure(FirstFailure(cs, conf).value)
        && forall j :: 0 <= j < i ==> conf(cs[j]).Success?
  {
    if cs != [] && conf(cs[0]).Success? {
      FirstFailureIsFirst(cs[1..], conf);
      if FirstFailure(cs, conf).Some? {
        var k :| 0 <= k < |cs[1..]| && conf(cs[1..][k]) == Failure(FirstFailure(cs, conf).value)
          && forall j :: 0 <= j < k ==> conf(cs[1..][j]).Success?;
        assert conf(cs[k + 1]) == Failure(FirstFailure(cs, conf).value);
        assert forall j :: 0 <= j < k + 1 ==> conf(cs[j]).Success? by {
          forall j | 0 <= j < k + 1
            ensures conf(cs[j]).Success?
          {
            if j > 0 {
              assert cs[j] == cs[1..][j - 1];
            }
          }
        }
      } else {
        forall i | 0 <= i < |cs|
          ensures conf(cs[i]).Success?
        {
          if i > 0 {
            assert cs[i] == cs[1..][i - 1];
          }
        }
      }
    }
  }

  /** The first failure in a concatenation is the first one in its first part, if any. */
  lemma {:induction false} FirstFailureAppend(a: seq<Configuration>, b: seq<Configuration>, conf: ConfigurationMarshaller)
    ensures FirstFailure(a + b, conf) == if FirstFailure(a, conf).Some? then FirstFailure(a, conf) else FirstFailure(b, conf)
  {
    if a == [] {
      assert a + b == b;
    } else {
      assert (a + b)[1..] == a[1..] + b;
      FirstFailureAppend(a[1..], b, conf);
    }
  }

  lemma {:induction false} ConfigurationsWrittenFirstFailure(elems: seq<Option<Configuration>>, conf: ConfigurationMarshaller)
    ensures ConfigurationsWritten(elems, conf).Failure? <==> FirstFailure(NonNull(elems), conf).Some?
    ensures ConfigurationsWritten(elems, conf).Failure? ==>
      ConfigurationsWritten(elems, conf).error == FirstFailure(NonNull(elems), conf).value
  {
    if elems != [] {
      var init, last := elems[..|elems| - 1], elems[|elems| - 1];
      ConfigurationsWrittenFirstFailure(init, conf);
      var tail := if last.Some? then [last.value] else [];
      assert NonNull(elems) == NonNull(init) + tail;
      FirstFailureAppend(NonNull(init), tail, conf);
    }
  }

  lemma {:induction false} InstanceGroupsWrittenFirstFailure(elems: seq<Option<InstanceGroupConfig>>, conf: ConfigurationMarshaller)
    ensures InstanceGroupsWritten(elems, conf).Failure? <==> FirstFailure(GroupsConfigurations(elems), conf).Some?
    ensures InstanceGroupsWritten(elems, conf).Failure? ==>
      InstanceGroupsWritten(elems, conf).error == FirstFailure(GroupsConfigurations(elems), conf).value
  {
    if elems != [] {
      var init, last := elems[..|elems| - 1], elems[|elems| - 1];
      InstanceGroupsWrittenFirstFailure(init, conf);
      var tail := if last.Some? then ListConfigurations(last.value.configurations) else [];
      FirstFailureAppend(GroupsConfigurations(init), tail, conf);
      if last.Some? && Emitted(last.value.configurations) {
        ConfigurationsWrittenFirstFailure(last.value.configurations.value.elems, conf);
      }
    }
  }

  /** Writing a request fails exactly when ConfigurationJsonMarshaller fails on one of the
      configurations the request hands it, and then with the message of the first such
      failure in writing order; marshall() wraps that message. */
  lemma RequestJsonFailure(r: RunJobFlowRequest, conf: ConfigurationMarshaller)
    ensures var cs := RequestConfigurations(r);
      RequestJson(r, conf).Success? <==> forall i :: 0 <= i < |cs| ==> conf(cs[i]).Success?
    ensures var cs := RequestConfigurations(r);
      RequestJson(r, conf).Failure? ==>
        exists i :: 0 <= i < |cs| && conf(cs[i]) == Failure(RequestJson(r, conf).error)
          && forall j :: 0 <= j < i ==> conf(cs[j]).Success?
  {
    var cs := RequestConfigurations(r);
    var groups := if r.instances.Some? && Emitted(r.instances.value.instanceGroups)
      then GroupsConfigurations(r.instances.value.instanceGroups.value.elems)
      else [];
    FirstFailureAppend(groups, ListConfigurations(r.configurations), conf);
    if r.instances.Some? && Emitted(r.instances.value.instanceGroups) {
      InstanceGroupsWrittenFirstFailure(r.instances.value.instanceGroups.value.elems, conf);
    }
    if Emitted(r.configurations) {
      ConfigurationsWrittenFirstFailure(r.configurations.value.elems, conf);
    }
    assert RequestJson(r, conf).Failure? <==> FirstFailure(cs, conf).Some?;
    assert RequestJson(r, conf).Failure? ==> RequestJson(r, conf).error == FirstFailure(cs, conf).value;
    FirstFailureIsFirst(cs, conf);
  }
}

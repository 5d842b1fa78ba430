/** RunJobFlowRequestMarshaller.marshall as the source writes it: a walk over the request that
    drives a JSON writer call by call, one method per nested object and one loop per list,
    each proved to write exactly the calls of the document RunJobFlowJson describes. The
    writer is a call buffer (seq<Token>) passed through and returned; the text the JSONWriter
    renders from those calls is the parameter `render` of Marshall. */
module RunJobFlowRequestMarshaller {

  import opened Wrappers
  import opened JavaLang
  import opened AutoLists
  import opened Json
  import opened RunJobFlowRequestModel
  import opened RunJobFlowJson

  // ---------------------------------------------------------------------------
  // Writer calls, part by part

  /** The calls of a value written after `out`, or the failure that stopped the writing. */
  function Emit(out: seq<Token>, j: Result<Json, string>): (r: Result<seq<Token>, string>)
    ensures r.Success? <==> j.Success?
    ensures r.Success? ==> |out| <= |r.value| && r.value[..|out|] == out
  {
    match j
    case Success(v) => Success(out + Tokens(v))
    case Failure(e) => Failure(e)
  }

  /** The calls of some members written after `out`, or the failure that stopped the
      writing. */
  function EmitMembers(out: seq<Token>, part: Result<seq<Member>, string>): (r: Result<seq<Token>, string>)
    ensures r.Success? <==> part.Success?
    ensures r.Success? ==> |out| <= |r.value| && r.value[..|out|] == out
  {
    match part
    case Success(p) => Success(out + MembersTokens(p))
    case Failure(e) => Failure(e)
  }

  /** The members written so far, then one more part. */
  lemma Extend(start: seq<Token>, ms: seq<Member>, p: seq<Member>)
    ensures start + MembersTokens(ms) + MembersTokens(p) == start + MembersTokens(ms + p)
  {
    MembersTokensAppend(ms, p);
  }

  /** object(), the members, endObject(). */
  lemma Close(out: seq<Token>, ms: seq<Member>)
    ensures out + [BeginObject] + MembersTokens(ms) + [EndObject] == out + Tokens(JObject(ms))
  {
  }

  /** key(k) followed by a value. */
  lemma OneMember(out: seq<Token>, key: string, j: Json)
    ensures out + [Key(key)] + Tokens(j) == out + MembersTokens([Member(key, j)])
  {
    assert MembersTokens([Member(key, j)]) == [Key(key)] + Tokens(j) + MembersTokens([]);
  }

  /** Nothing written. */
  lemma NoMember(out: seq<Token>)
    ensures out + MembersTokens([]) == out
  {
  }

  /** key(k), array(), the elements, endArray(). */
  lemma ArrayMember(out: seq<Token>, key: string, js: seq<Json>)
    ensures out + [Key(key), BeginArray] + ElemsTokens(js) + [EndArray] == out + MembersTokens([Member(key, JArray(js))])
  {
    OneMember(out, key, JArray(js));
  }

  /** One more element after the elements written so far. */
  lemma ElemsStep(front: seq<Token>, es: seq<Json>, j: Json)
    ensures front + ElemsTokens(es + [j]) == front + ElemsTokens(es) + Tokens(j)
  {
    ElemsTokensSnoc(es, j);
  }

  /** One more list element: a null one writes nothing. */
  lemma ElementStep<T>(front: seq<Token>, elems: seq<Option<T>>, i: nat, write: T -> Json)
    requires i < |elems|
    ensures elems[i].None? ==>
      front + ElemsTokens(Written(elems[..i + 1], write)) == front + ElemsTokens(Written(elems[..i], write))
    ensures elems[i].Some? ==>
      front + ElemsTokens(Written(elems[..i + 1], write))
        == front + ElemsTokens(Written(elems[..i], write)) + Tokens(write(elems[i].value))
  {
    assert elems[..i + 1][..i] == elems[..i];
    if elems[i].Some? {
      ElemsStep(front, Written(elems[..i], write), write(elems[i].value));
    } else {
      assert Written(elems[..i], write) + [] == Written(elems[..i], write);
    }
  }

  /** A list that is written: its array member. */
  lemma ListWritten<T>(out: seq<Token>, key: string, field: Option<AutoList<T>>, write: T -> Json)
    requires Emitted(field)
    ensures out + [Key(key), BeginArray] + ElemsTokens(Written(field.value.elems, write)) + [EndArray]
      == out + MembersTokens(ListMember(key, field, write))
  {
    ArrayMember(out, key, Written(field.value.elems, write));
  }

  /** A list that is left out. */
  lemma ListLeftOut<T>(out: seq<Token>, key: string, field: Option<AutoList<T>>, write: T -> Json)
    requires !Emitted(field)
    ensures out + MembersTokens(ListMember(key, field, write)) == out
  {
  }

  /** `if (v != null) jsonWriter.key(key).value(v)` for a String. */
  method PutString(out: seq<Token>, key: string, v: Option<string>) returns (r: seq<Token>)
    ensures r == out + MembersTokens(StringMember(key, v))
  {
    if v.Some? {
      r := out + [Key(key)] + [StringValue(v.value)];
      OneMember(out, key, JString(v.value));
    } else {
      r := out;
      NoMember(out);
    }
  }

  /** The same for an Integer. */
  method PutInt(out: seq<Token>, key: string, v: Option<Int32>) returns (r: seq<Token>)
    ensures r == out + MembersTokens(IntMember(key, v))
  {
    if v.Some? {
      r := out + [Key(key)] + [IntValue(v.value)];
      OneMember(out, key, JInt(v.value));
    } else {
      r := out;
      NoMember(out);
    }
  }

  /** The same for a Boolean. */
  method PutBool(out: seq<Token>, key: string, v: Option<bool>) returns (r: seq<Token>)
    ensures r == out + MembersTokens(BoolMember(key, v))
  {
    if v.Some? {
      r := out + [Key(key)] + [BoolValue(v.value)];
      OneMember(out, key, JBool(v.value));
    } else {
      r := out;
      NoMember(out);
    }
  }

  /** A list of strings under `key`: left out when null or auto-constructed and empty, otherwise
      an array of its non-null elements in list order. */
  method PutStrings(out: seq<Token>, key: string, field: Option<AutoList<string>>) returns (r: seq<Token>)
    ensures r == out + MembersTokens(ListMember(key, field, StringJson))
  {
    if field.Some? && !(field.value.autoConstruct && field.value.elems == []) {
      var elems := field.value.elems;
      var front := out + [Key(key), BeginArray];
      r := front;
      var i := 0;
      while i < |elems|
        invariant 0 <= i <= |elems|
        invariant r == front + ElemsTokens(Written(elems[..i], StringJson))
      {
        ElementStep(front, elems, i, StringJson);
        if elems[i].Some? {
          r := r + [StringValue(elems[i].value)];
        }
        i := i + 1;
      }
      assert elems[..|elems|] == elems;
      r := r + [EndArray];
      ListWritten(out, key, field, StringJson);
    } else {
      r := out;
      ListLeftOut(out, key, field, StringJson);
    }
  }

  // ---------------------------------------------------------------------------
  // Configurations and instances, the parts that can fail

  /** ConfigurationJsonMarshaller.getInstance().marshall(c, jsonWriter): the object it writes,
      or the exception it throws. */
  method WriteConfiguration(out: seq<Token>, c: Configuration, conf: ConfigurationMarshaller)
    returns (r: Result<seq<Token>, string>)
    ensures r == Emit(out, ConfigurationJson(c, conf))
  {
    var members := conf(c);
    if members.Failure? {
      return Failure(members.error);
    }
    r := Success(out + Tokens(JObject(members.value)));
  }

  /** One more configuration, at the level of writer calls. */
  lemma ConfigurationStep(front: seq<Token>, elems: seq<Option<Configuration>>, i: nat, conf: ConfigurationMarshaller)
    requires i < |elems|
    requires ConfigurationsWritten(elems[..i], conf).Success?
    requires elems[i].Some? ==> conf(elems[i].value).Success?
    ensures ConfigurationsWritten(elems[..i + 1], conf).Success?
    ensures elems[i].None? ==>
      front + ElemsTokens(ConfigurationsWritten(elems[..i + 1], conf).value)
        == front + ElemsTokens(ConfigurationsWritten(elems[..i], conf).value)
    ensures elems[i].Some? ==>
      front + ElemsTokens(ConfigurationsWritten(elems[..i + 1], conf).value)
        == front + ElemsTokens(ConfigurationsWritten(elems[..i], conf).value) + Tokens(JObject(conf(elems[i].value).value))
  {
    ConfigurationsWrittenStep(elems, i, conf);
    if elems[i].Some? {
      ElemsStep(front, ConfigurationsWritten(elems[..i], conf).value, JObject(conf(elems[i].value).value));
    }
  }

  /** A list of configurations under `key`, by the list rule; the first failure of
      ConfigurationJsonMarshaller ends the writing. */
  method PutConfigurations(out: seq<Token>, key: string, field: Option<AutoList<Configuration>>, conf: ConfigurationMarshaller)
    returns (r: Result<seq<Token>, string>)
    ensures r == EmitMembers(out, ConfigurationsMember(key, field, conf))
  {
    if field.Some? && !(field.value.autoConstruct && field.value.elems == []) {
      var elems := field.value.elems;
      var front := out + [Key(key), BeginArray];
      var acc := front;
      var i := 0;
      while i < |elems|
        invariant 0 <= i <= |elems|
        invariant ConfigurationsWritten(elems[..i], conf).Success?
        invariant acc == front + ElemsTokens(ConfigurationsWritten(elems[..i], conf).value)
      {
        if elems[i].Some? {
          var w := WriteConfiguration(acc, elems[i].value, conf);
          if w.Failure? {
            ConfigurationsWrittenStep(elems, i, conf);
            ConfigurationsWrittenPrefixFailure(elems, i + 1, conf);
            return Failure(w.error);
          }
          ConfigurationStep(front, elems, i, conf);
          acc := w.value;
        } else {
          ConfigurationStep(front, elems, i, conf);
        }
        i := i + 1;
      }
      assert elems[..|elems|] == elems;
      acc := acc + [EndArray];
      ArrayMember(out, key, ConfigurationsWritten(elems, conf).value);
      r := Success(acc);
    } else {
      NoMember(out);
      r := Success(out);
    }
  }

  /** One instance group object; its Configurations can fail. */
  method WriteInstanceGroup(out: seq<Token>, g: InstanceGroupConfig, conf: ConfigurationMarshaller)
    returns (r: Result<seq<Token>, string>)
    ensures r == Emit(out, InstanceGroupJson(g, conf))
  {
    var start := out + [BeginObject];
    var acc := PutString(start, "Name", g.name);
    ghost var ms := StringMember("Name", g.name);
    acc := PutString(acc, "Market", g.market);
    Extend(start, ms, StringMember("Market", g.market));
    ms := ms + StringMember("Market", g.market);
    acc := PutString(acc, "InstanceRole", g.instanceRole);
    Extend(start, ms, StringMember("InstanceRole", g.instanceRole));
    ms := ms + StringMember("InstanceRole", g.instanceRole);
    acc := PutString(acc, "BidPrice", g.bidPrice);
    Extend(start, ms, StringMember("BidPrice", g.bidPrice));
    ms := ms + StringMember("BidPrice", g.bidPrice);
    acc := PutString(acc, "InstanceType", g.instanceType);
    Extend(start, ms, StringMember("InstanceType", g.instanceType));
    ms := ms + StringMember("InstanceType", g.instanceType);
    acc := PutInt(acc, "InstanceCount", g.instanceCount);
    Extend(start, ms, IntMember("InstanceCount", g.instanceCount));
    ms := ms + IntMember("InstanceCount", g.instanceCount);
    var configurations := PutConfigurations(acc, "Configurations", g.configurations, conf);
    if configurations.Failure? {
      return Failure(configurations.error);
    }
    ghost var part := ConfigurationsMember("Configurations", g.configurations, conf).value;
    Extend(start, ms, part);
    ms := ms + part;
    r := Success(configurations.value + [EndObject]);
    Close(out, ms);
  }

  /** One more instance group, at the level of writer calls. */
  lemma InstanceGroupStep(front: seq<Token>, elems: seq<Option<InstanceGroupConfig>>, i: nat, conf: ConfigurationMarshaller)
    requires i < |elems|
    requires InstanceGroupsWritten(elems[..i], conf).Success?
    requires elems[i].Some? ==> InstanceGroupJson(elems[i].value, conf).Success?
    ensures InstanceGroupsWritten(elems[..i + 1], conf).Success?
    ensures elems[i].None? ==>
      front + ElemsTokens(InstanceGroupsWritten(elems[..i + 1], conf).value)
        == front + ElemsTokens(InstanceGroupsWritten(elems[..i], conf).value)
    ensures elems[i].Some? ==>
      front + ElemsTokens(InstanceGroupsWritten(elems[..i + 1], conf).value)
        == front + ElemsTokens(InstanceGroupsWritten(elems[..i], conf).value) + Tokens(InstanceGroupJson(elems[i].value, conf).value)
  {
    InstanceGroupsWrittenStep(elems, i, conf);
    if elems[i].Some? {
      ElemsStep(front, InstanceGroupsWritten(elems[..i], conf).value, InstanceGroupJson(elems[i].value, conf).value);
    }
  }

  /** InstanceGroups, by the list rule; the first failure ends the writing. */
  method PutInstanceGroups(out: seq<Token>, field: Option<AutoList<InstanceGroupConfig>>, conf: ConfigurationMarshaller)
    returns (r: Result<seq<Token>, string>)
    ensures r == EmitMembers(out, InstanceGroupsMember(field, conf))
  {
    if field.Some? && !(field.value.autoConstruct && field.value.elems == []) {
      var elems := field.value.elems;
      var front := out + [Key("InstanceGroups"), BeginArray];
      var acc := front;
      var i := 0;
      while i < |elems|
        invariant 0 <= i <= |elems|
        invariant InstanceGroupsWritten(elems[..i], conf).Success?
        invariant acc == front + ElemsTokens(InstanceGroupsWritten(elems[..i], conf).value)
      {
        if elems[i].Some? {
          var w := WriteInstanceGroup(acc, elems[i].value, conf);
          if w.Failure? {
            InstanceGroupsWrittenStep(elems, i, conf);
            InstanceGroupsWrittenPrefixFailure(elems, i + 1, conf);
            return Failure(w.error);
          }
          InstanceGroupStep(front, elems, i, conf);
          acc := w.value;
        } else {
          InstanceGroupStep(front, elems, i, conf);
        }
        i := i + 1;
      }
      assert elems[..|elems|] == elems;
      acc := acc + [EndArray];
      ArrayMember(out, "InstanceGroups", InstanceGroupsWritten(elems, conf).value);
      r := Success(acc);
    } else {
      NoMember(out);
      r := Success(out);
    }
  }

  /** A Placement object. */
  method WritePlacement(out: seq<Token>, p: PlacementType) returns (r: seq<Token>)
    ensures r == out + Tokens(PlacementJson(p))
  {
    var start := out + [BeginObject];
    r := start;
    r := PutString(r, "AvailabilityZone", p.availabilityZone);
    ghost var ms := StringMember("AvailabilityZone", p.availabilityZone);
    r := r + [EndObject];
    Close(out, ms);
  }

  /** `if (placement != null) { key("Placement"); <the object> }`. */
  method PutPlacement(out: seq<Token>, v: Option<PlacementType>) returns (r: seq<Token>)
    ensures r == out + MembersTokens(if v.Some? then [Member("Placement", PlacementJson(v.value))] else [])
  {
    if v.Some? {
      r := out + [Key("Placement")];
      r := WritePlacement(r, v.value);
      OneMember(out, "Placement", PlacementJson(v.value));
    } else {
      r := out;
      NoMember(out);
    }
  }

  /** The Instances object: its scalars, InstanceGroups, Placement and the two security
      group lists, in that order; only its InstanceGroups can fail. */
  method WriteInstances(out: seq<Token>, ic: JobFlowInstancesConfig, conf: ConfigurationMarshaller)
    returns (r: Result<seq<Token>, string>)
    ensures r == Emit(out, InstancesJson(ic, conf))
  {
    var start := out + [BeginObject];
    var acc := PutString(start, "MasterInstanceType", ic.masterInstanceType);
    ghost var ms := StringMember("MasterInstanceType", ic.masterInstanceType);
    acc := PutString(acc, "SlaveInstanceType", ic.slaveInstanceType);
    Extend(start, ms, StringMember("SlaveInstanceType", ic.slaveInstanceType));
    ms := ms + StringMember("SlaveInstanceType", ic.slaveInstanceType);
    acc := PutInt(acc, "InstanceCount", ic.instanceCount);
    Extend(start, ms, IntMember("InstanceCount", ic.instanceCount));
    ms := ms + IntMember("InstanceCount", ic.instanceCount);
    var groups := PutInstanceGroups(acc, ic.instanceGroups, conf);
    if groups.Failure? {
      return Failure(groups.error);
    }
    acc := groups.value;
    ghost var part := InstanceGroupsMember(ic.instanceGroups, conf).value;
    Extend(start, ms, part);
    ms := ms + part;
    acc := PutString(acc, "Ec2KeyName", ic.ec2KeyName);
    Extend(start, ms, StringMember("Ec2KeyName", ic.ec2KeyName));
    ms := ms + StringMember("Ec2KeyName", ic.ec2KeyName);
    acc := PutPlacement(acc, ic.placement);
    Extend(start, ms, PlacementMember(ic.placement));
    ms := ms + PlacementMember(ic.placement);
    acc := PutBool(acc, "KeepJobFlowAliveWhenNoSteps", ic.keepJobFlowAliveWhenNoSteps);
    Extend(start, ms, BoolMember("KeepJobFlowAliveWhenNoSteps", ic.keepJobFlowAliveWhenNoSteps));
    ms := ms + BoolMember("KeepJobFlowAliveWhenNoSteps", ic.keepJobFlowAliveWhenNoSteps);
    acc := PutBool(acc, "TerminationProtected", ic.terminationProtected);
    Extend(start, ms, BoolMember("TerminationProtected", ic.terminationProtected));
    ms := ms + BoolMember("TerminationProtected", ic.terminationProtected);
    acc := PutString(acc, "HadoopVersion", ic.hadoopVersion);
    Extend(start, ms, StringMember("HadoopVersion", ic.hadoopVersion));
    ms := ms + StringMember("HadoopVersion", ic.hadoopVersion);
    acc := PutString(acc, "Ec2SubnetId", ic.ec2SubnetId);
    Extend(start, ms, StringMember("Ec2SubnetId", ic.ec2SubnetId));
    ms := ms + StringMember("Ec2SubnetId", ic.ec2SubnetId);
    acc := PutString(acc, "EmrManagedMasterSecurityGroup", ic.emrManagedMasterSecurityGroup);
    Extend(start, ms, StringMember("EmrManagedMasterSecurityGroup", ic.emrManagedMasterSecurityGroup));
    ms := ms + StringMember("EmrManagedMasterSecurityGroup", ic.emrManagedMasterSecurityGroup);
    acc := PutString(acc, "EmrManagedSlaveSecurityGroup", ic.emrManagedSlaveSecurityGroup);
    Extend(start, ms, StringMember("EmrManagedSlaveSecurityGroup", ic.emrManagedSlaveSecurityGroup));
    ms := ms + StringMember("EmrManagedSlaveSecurityGroup", ic.emrManagedSlaveSecurityGroup);
    acc := PutStrings(acc, "AdditionalMasterSecurityGroups", ic.additionalMasterSecurityGroups);
    Extend(start, ms, ListMember("AdditionalMasterSecurityGroups", ic.additionalMasterSecurityGroups, StringJson));
    ms := ms + ListMember("AdditionalMasterSecurityGroups", ic.additionalMasterSecurityGroups, StringJson);
    acc := PutStrings(acc, "AdditionalSlaveSecurityGroups", ic.additionalSlaveSecurityGroups);
    Extend(start, ms, ListMember("AdditionalSlaveSecurityGroups", ic.additionalSlaveSecurityGroups, StringJson));
    ms := ms + ListMember("AdditionalSlaveSecurityGroups", ic.additionalSlaveSecurityGroups, StringJson);
    r := Success(acc + [EndObject]);
    Close(out, ms);
  }

  /** `if (instances != null) { key("Instances"); <the object> }`. */
  method PutInstances(out: seq<Token>, ic: Option<JobFlowInstancesConfig>, conf: ConfigurationMarshaller)
    returns (r: Result<seq<Token>, string>)
    ensures r == EmitMembers(out, InstancesMember(ic, conf))
  {
    if ic.Some? {
      r := WriteInstances(out + [Key("Instances")], ic.value, conf);
      if r.Success? {
        OneMember(out, "Instances", InstancesJson(ic.value, conf).value);
      }
    } else {
      NoMember(out);
      r := Success(out);
    }
  }

  // ---------------------------------------------------------------------------
  // Steps

  /** A Properties element. */
  method WriteKeyValue(out: seq<Token>, kv: KeyValue) returns (r: seq<Token>)
    ensures r == out + Tokens(KeyValueJson(kv))
  {
    var start := out + [BeginObject];
    r := start;
    r := PutString(r, "Key", kv.key);
    ghost var ms := StringMember("Key", kv.key);
    r := PutString(r, "Value", kv.value);
    Extend(start, ms, StringMember("Value", kv.value));
    ms := ms + StringMember("Value", kv.value);
    r := r + [EndObject];
    Close(out, ms);
  }

  /** Properties, by the list rule. */
  method PutProperties(out: seq<Token>, field: Option<AutoList<KeyValue>>) returns (r: seq<Token>)
    ensures r == out + MembersTokens(ListMember("Properties", field, KeyValueJson))
  {
    if field.Some? && !(field.value.autoConstruct && field.value.elems == []) {
      var elems := field.value.elems;
      var front := out + [Key("Properties"), BeginArray];
      r := front;
      var i := 0;
      while i < |elems|
        invariant 0 <= i <= |elems|
        invariant r == front + ElemsTokens(Written(elems[..i], KeyValueJson))
      {
        ElementStep(front, elems, i, KeyValueJson);
        if elems[i].Some? {
          r := WriteKeyValue(r, elems[i].value);
        }
        i := i + 1;
      }
      assert elems[..|elems|] == elems;
      r := r + [EndArray];
      ListWritten(out, "Properties", field, KeyValueJson);
    } else {
      r := out;
      ListLeftOut(out, "Properties", field, KeyValueJson);
    }
  }

  /** A HadoopJarStep object. */
  method WriteHadoopJarStep(out: seq<Token>, h: HadoopJarStepConfig) returns (r: seq<Token>)
    ensures r == out + Tokens(HadoopJarStepJson(h))
  {
    var start := out + [BeginObject];
    r := start;
    r := PutProperties(r, h.properties);
    ghost var ms := ListMember("Properties", h.properties, KeyValueJson);
    r := PutString(r, "Jar", h.jar);
    Extend(start, ms, StringMember("Jar", h.jar));
    ms := ms + StringMember("Jar", h.jar);
    r := PutString(r, "MainClass", h.mainClass);
    Extend(start, ms, StringMember("MainClass", h.mainClass));
    ms := ms + StringMember("MainClass", h.mainClass);
    r := PutStrings(r, "Args", h.args);
    Extend(start, ms, ListMember("Args", h.args, StringJson));
    ms := ms + ListMember("Args", h.args, StringJson);
    r := r + [EndObject];
    Close(out, ms);
  }

  /** `if (hadoopJarStep != null) { key("HadoopJarStep"); <the object> }`. */
  method PutHadoopJarStep(out: seq<Token>, v: Option<HadoopJarStepConfig>) returns (r: seq<Token>)
    ensures r == out + MembersTokens(if v.Some? then [Member("HadoopJarStep", HadoopJarStepJson(v.value))] else [])
  {
    if v.Some? {
      r := out + [Key("HadoopJarStep")];
      r := WriteHadoopJarStep(r, v.value);
      OneMember(out, "HadoopJarStep", HadoopJarStepJson(v.value));
    } else {
      r := out;
      NoMember(out);
    }
  }

  /** A step object. */
  method WriteStep(out: seq<Token>, s: StepConfig) returns (r: seq<Token>)
    ensures r == out + Tokens(StepJson(s))
  {
    var start := out + [BeginObject];
    r := start;
    r := PutString(r, "Name", s.name);
    ghost var ms := StringMember("Name", s.name);
    r := PutString(r, "ActionOnFailure", s.actionOnFailure);
    Extend(start, ms, StringMember("ActionOnFailure", s.actionOnFailure));
    ms := ms + StringMember("ActionOnFailure", s.actionOnFailure);
    r := PutHadoopJarStep(r, s.hadoopJarStep);
    Extend(start, ms, (if s.hadoopJarStep.Some? then [Member("HadoopJarStep", HadoopJarStepJson(s.hadoopJarStep.value))] else []));
    ms := ms + (if s.hadoopJarStep.Some? then [Member("HadoopJarStep", HadoopJarStepJson(s.hadoopJarStep.value))] else []);
    r := r + [EndObject];
    Close(out, ms);
  }

  /** Steps, by the list rule. */
  method PutSteps(out: seq<Token>, field: Option<AutoList<StepConfig>>) returns (r: seq<Token>)
    ensures r == out + MembersTokens(ListMember("Steps", field, StepJson))
  {
    if field.Some? && !(field.value.autoConstruct && field.value.elems == []) {
      var elems := field.value.elems;
      var front := out + [Key("Steps"), BeginArray];
      r := front;
      var i := 0;
      while i < |elems|
        invariant 0 <= i <= |elems|
        invariant r == front + ElemsTokens(Written(elems[..i], StepJson))
      {
        ElementStep(front, elems, i, StepJson);
        if elems[i].Some? {
          r := WriteStep(r, elems[i].value);
        }
        i := i + 1;
      }
      assert elems[..|elems|] == elems;
      r := r + [EndArray];
      ListWritten(out, "Steps", field, StepJson);
    } else {
      r := out;
      ListLeftOut(out, "Steps", field, StepJson);
    }
  }

  // ---------------------------------------------------------------------------
  // Bootstrap actions, products, applications, tags

  /** A ScriptBootstrapAction object. */
  method WriteScriptBootstrapAction(out: seq<Token>, sb: ScriptBootstrapActionConfig) returns (r: seq<Token>)
    ensures r == out + Tokens(ScriptBootstrapActionJson(sb))
  {
    var start := out + [BeginObject];
    r := start;
    r := PutString(r, "Path", sb.path);
    ghost var ms := StringMember("Path", sb.path);
    r := PutStrings(r, "Args", sb.args);
    Extend(start, ms, ListMember("Args", sb.args, StringJson));
    ms := ms + ListMember("Args", sb.args, StringJson);
    r := r + [EndObject];
    Close(out, ms);
  }

  /** `if (scriptBootstrapAction != null) { key("ScriptBootstrapAction"); <the object> }`. */
  method PutScriptBootstrapAction(out: seq<Token>, v: Option<ScriptBootstrapActionConfig>) returns (r: seq<Token>)
    ensures r == out + MembersTokens(if v.Some? then [Member("ScriptBootstrapAction", ScriptBootstrapActionJson(v.value))] else [])
  {
    if v.Some? {
      r := out + [Key("ScriptBootstrapAction")];
      r := WriteScriptBootstrapAction(r, v.value);
      OneMember(out, "ScriptBootstrapAction", ScriptBootstrapActionJson(v.value));
    } else {
      r := out;
      NoMember(out);
    }
  }

  /** A bootstrap action object. */
  method WriteBootstrapAction(out: seq<Token>, b: BootstrapActionConfig) returns (r: seq<Token>)
    ensures r == out + Tokens(BootstrapActionJson(b))
  {
    var start := out + [BeginObject];
    r := start;
    r := PutString(r, "Name", b.name);
    ghost var ms := StringMember("Name", b.name);
    r := PutScriptBootstrapAction(r, b.scriptBootstrapAction);
    Extend(start, ms, (if b.scriptBootstrapAction.Some?
     then [Member("ScriptBootstrapAction", ScriptBootstrapActionJson(b.scriptBootstrapAction.value))]
     else []));
    ms := ms + (if b.scriptBootstrapAction.Some?
     then [Member("ScriptBootstrapAction", ScriptBootstrapActionJson(b.scriptBootstrapAction.value))]
     else []);
    r := r + [EndObject];
    Close(out, ms);
  }

  /** BootstrapActions, by the list rule. */
  method PutBootstrapActions(out: seq<Token>, field: Option<AutoList<BootstrapActionConfig>>) returns (r: seq<Token>)
    ensures r == out + MembersTokens(ListMember("BootstrapActions", field, BootstrapActionJson))
  {
    if field.Some? && !(field.value.autoConstruct && field.value.elems == []) {
      var elems := field.value.elems;
      var front := out + [Key("BootstrapActions"), BeginArray];
      r := front;
      var i := 0;
      while i < |elems|
        invariant 0 <= i <= |elems|
        invariant r == front + ElemsTokens(Written(elems[..i], BootstrapActionJson))
      {
        ElementStep(front, elems, i, BootstrapActionJson);
        if elems[i].Some? {
          r := WriteBootstrapAction(r, elems[i].value);
        }
        i := i + 1;
      }
      assert elems[..|elems|] == elems;
      r := r + [EndArray];
      ListWritten(out, "BootstrapActions", field, BootstrapActionJson);
    } else {
      r := out;
      ListLeftOut(out, "BootstrapActions", field, BootstrapActionJson);
    }
  }

  /** A NewSupportedProducts element. */
  method WriteSupportedProduct(out: seq<Token>, sp: SupportedProductConfig) returns (r: seq<Token>)
    ensures r == out + Tokens(SupportedProductJson(sp))
  {
    var start := out + [BeginObject];
    r := start;
    r := PutString(r, "Name", sp.name);
    ghost var ms := StringMember("Name", sp.name);
    r := PutStrings(r, "Args", sp.args);
    Extend(start, ms, ListMember("Args", sp.args, StringJson));
    ms := ms + ListMember("Args", sp.args, StringJson);
    r := r + [EndObject];
    Close(out, ms);
  }

  /** NewSupportedProducts, by the list rule. */
  method PutNewSupportedProducts(out: seq<Token>, field: Option<AutoList<SupportedProductConfig>>) returns (r: seq<Token>)
    ensures r == out + MembersTokens(ListMember("NewSupportedProducts", field, SupportedProductJson))
  {
    if field.Some? && !(field.value.autoConstruct && field.value.elems == []) {
      var elems := field.value.elems;
      var front := out + [Key("NewSupportedProducts"), BeginArray];
      r := front;
      var i := 0;
      while i < |elems|
        invariant 0 <= i <= |elems|
        invariant r == front + ElemsTokens(Written(elems[..i], SupportedProductJson))
      {
        ElementStep(front, elems, i, SupportedProductJson);
        if elems[i].Some? {
          r := WriteSupportedProduct(r, elems[i].value);
        }
        i := i + 1;
      }
      assert elems[..|elems|] == elems;
      r := r + [EndArray];
      ListWritten(out, "NewSupportedProducts", field, SupportedProductJson);
    } else {
      r := out;
      ListLeftOut(out, "NewSupportedProducts", field, SupportedProductJson);
    }
  }

  /** An application's AdditionalInfo object: one string member per entry of the map whose
      value is not null, in the map's iteration order. */
  method WriteAdditionalInfo(out: seq<Token>, info: StringMap) returns (r: seq<Token>)
    ensures r == out + Tokens(JObject(InfoMembers(info)))
  {
    var start := out + [BeginObject];
    r := start;
    var i := 0;
    while i < |info|
      invariant 0 <= i <= |info|
      invariant r == start + MembersTokens(InfoMembers(info[..i]))
    {
      assert info[..i + 1][..i] == info[..i];
      r := PutString(r, info[i].0, info[i].1);
      Extend(start, InfoMembers(info[..i]), StringMember(info[i].0, info[i].1));
      i := i + 1;
    }
    assert info[..|info|] == info;
    r := r + [EndObject];
    Close(out, InfoMembers(info));
  }

  /** `if (additionalInfo != null) { key("AdditionalInfo"); <the object> }`. */
  method PutAdditionalInfo(out: seq<Token>, info: Option<StringMap>) returns (r: seq<Token>)
    ensures r == out + MembersTokens(if info.Some? then [Member("AdditionalInfo", JObject(InfoMembers(info.value)))] else [])
  {
    if info.Some? {
      r := out + [Key("AdditionalInfo")];
      r := WriteAdditionalInfo(r, info.value);
      OneMember(out, "AdditionalInfo", JObject(InfoMembers(info.value)));
    } else {
      r := out;
      NoMember(out);
    }
  }

  /** An application object. */
  method WriteApplication(out: seq<Token>, a: Application) returns (r: seq<Token>)
    ensures r == out + Tokens(ApplicationJson(a))
  {
    var start := out + [BeginObject];
    r := start;
    r := PutString(r, "Name", a.name);
    ghost var ms := StringMember("Name", a.name);
    r := PutString(r, "Version", a.version);
    Extend(start, ms, StringMember("Version", a.version));
    ms := ms + StringMember("Version", a.version);
    r := PutStrings(r, "Args", a.args);
    Extend(start, ms, ListMember("Args", a.args, StringJson));
    ms := ms + ListMember("Args", a.args, StringJson);
    r := PutAdditionalInfo(r, a.additionalInfo);
    Extend(start, ms, (if a.additionalInfo.Some? then [Member("AdditionalInfo", JObject(InfoMembers(a.additionalInfo.value)))] else []));
    ms := ms + (if a.additionalInfo.Some? then [Member("AdditionalInfo", JObject(InfoMembers(a.additionalInfo.value)))] else []);
    r := r + [EndObject];
    Close(out, ms);
  }

  /** Applications, by the list rule. */
  method PutApplications(out: seq<Token>, field: Option<AutoList<Application>>) returns (r: seq<Token>)
    ensures r == out + MembersTokens(ListMember("Applications", field, ApplicationJson))
  {
    if field.Some? && !(field.value.autoConstruct && field.value.elems == []) {
      var elems := field.value.elems;
      var front := out + [Key("Applications"), BeginArray];
      r := front;
      var i := 0;
      while i < |elems|
        invariant 0 <= i <= |elems|
        invariant r == front + ElemsTokens(Written(elems[..i], ApplicationJson))
      {
        ElementStep(front, elems, i, ApplicationJson);
        if elems[i].Some? {
          r := WriteApplication(r, elems[i].value);
        }
        i := i + 1;
      }
      assert elems[..|elems|] == elems;
      r := r + [EndArray];
      ListWritten(out, "Applications", field, ApplicationJson);
    } else {
      r := out;
      ListLeftOut(out, "Applications", field, ApplicationJson);
    }
  }

  /** A tag object. */
  method WriteTag(out: seq<Token>, t: Tag) returns (r: seq<Token>)
    ensures r == out + Tokens(TagJson(t))
  {
    var start := out + [BeginObject];
    r := start;
    r := PutString(r, "Key", t.key);
    ghost var ms := StringMember("Key", t.key);
    r := PutString(r, "Value", t.value);
    Extend(start, ms, StringMember("Value", t.value));
    ms := ms + StringMember("Value", t.value);
    r := r + [EndObject];
    Close(out, ms);
  }

  /** Tags, by the list rule. */
  method PutTags(out: seq<Token>, field: Option<AutoList<Tag>>) returns (r: seq<Token>)
    ensures r == out + MembersTokens(ListMember("Tags", field, TagJson))
  {
    if field.Some? && !(field.value.autoConstruct && field.value.elems == []) {
      var elems := field.value.elems;
      var front := out + [Key("Tags"), BeginArray];
      r := front;
      var i := 0;
      while i < |elems|
        invariant 0 <= i <= |elems|
        invariant r == front + ElemsTokens(Written(elems[..i], TagJson))
      {
        ElementStep(front, elems, i, TagJson);
        if elems[i].Some? {
          r := WriteTag(r, elems[i].value);
        }
        i := i + 1;
      }
      assert elems[..|elems|] == elems;
      r := r + [EndArray];
      ListWritten(out, "Tags", field, TagJson);
    } else {
      r := out;
      ListLeftOut(out, "Tags", field, TagJson);
    }
  }

  // ---------------------------------------------------------------------------
  // The request

  /** Sixteen parts written one after another. */
  lemma MembersTokensOfParts(start: seq<Token>,
    p1: seq<Member>, p2: seq<Member>, p3: seq<Member>, p4: seq<Member>,
    p5: seq<Member>, p6: seq<Member>, p7: seq<Member>, p8: seq<Member>,
    p9: seq<Member>, p10: seq<Member>, p11: seq<Member>, p12: seq<Member>,
    p13: seq<Member>, p14: seq<Member>, p15: seq<Member>, p16: seq<Member>)
    ensures start + MembersTokens(p1 + p2 + p3 + p4 + p5 + p6 + p7 + p8 + p9 + p10 + p11 + p12 + p13 + p14 + p15 + p16)
      == start + MembersTokens(p1) + MembersTokens(p2) + MembersTokens(p3) + MembersTokens(p4) + MembersTokens(p5) + MembersTokens(p6) + MembersTokens(p7) + MembersTokens(p8) + MembersTokens(p9) + MembersTokens(p10) + MembersTokens(p11) + MembersTokens(p12) + MembersTokens(p13) + MembersTokens(p14) + MembersTokens(p15) + MembersTokens(p16)
  {
    var ms := p1;
    Extend(start, ms, p2);
    ms := ms + p2;
    Extend(start, ms, p3);
    ms := ms + p3;
    Extend(start, ms, p4);
    ms := ms + p4;
    Extend(start, ms, p5);
    ms := ms + p5;
    Extend(start, ms, p6);
    ms := ms + p6;
    Extend(start, ms, p7);
    ms := ms + p7;
    Extend(start, ms, p8);
    ms := ms + p8;
    Extend(start, ms, p9);
    ms := ms + p9;
    Extend(start, ms, p10);
    ms := ms + p10;
    Extend(start, ms, p11);
    ms := ms + p11;
    Extend(start, ms, p12);
    ms := ms + p12;
    Extend(start, ms, p13);
    ms := ms + p13;
    Extend(start, ms, p14);
    ms := ms + p14;
    Extend(start, ms, p15);
    ms := ms + p15;
    Extend(start, ms, p16);
    ms := ms + p16;
  }

  /** The five string members written before the instances. */
  method WriteHead(out: seq<Token>, req: RunJobFlowRequest) returns (r: seq<Token>)
    ensures r == out + MembersTokens(StringMember("Name", req.name))
      + MembersTokens(StringMember("LogUri", req.logUri))
      + MembersTokens(StringMember("AdditionalInfo", req.additionalInfo))
      + MembersTokens(StringMember("AmiVersion", req.amiVersion))
      + MembersTokens(StringMember("ReleaseLabel", req.releaseLabel))
  {
    r := PutString(out, "Name", req.name);
    r := PutString(r, "LogUri", req.logUri);
    r := PutString(r, "AdditionalInfo", req.additionalInfo);
    r := PutString(r, "AmiVersion", req.amiVersion);
    r := PutString(r, "ReleaseLabel", req.releaseLabel);
  }

  /** The five lists written between the instances and the configurations. */
  method WriteMiddle(out: seq<Token>, req: RunJobFlowRequest) returns (r: seq<Token>)
    ensures r == out + MembersTokens(ListMember("Steps", req.steps, StepJson))
      + MembersTokens(ListMember("BootstrapActions", req.bootstrapActions, BootstrapActionJson))
      + MembersTokens(ListMember("SupportedProducts", req.supportedProducts, StringJson))
      + MembersTokens(ListMember("NewSupportedProducts", req.newSupportedProducts, SupportedProductJson))
      + MembersTokens(ListMember("Applications", req.applications, ApplicationJson))
  {
    r := PutSteps(out, req.steps);
    r := PutBootstrapActions(r, req.bootstrapActions);
    r := PutStrings(r, "SupportedProducts", req.supportedProducts);
    r := PutNewSupportedProducts(r, req.newSupportedProducts);
    r := PutApplications(r, req.applications);
  }

  /** The four members written after the configurations. */
  method WriteTail(out: seq<Token>, req: RunJobFlowRequest) returns (r: seq<Token>)
    ensures r == out + MembersTokens(BoolMember("VisibleToAllUsers", req.visibleToAllUsers))
      + MembersTokens(StringMember("JobFlowRole", req.jobFlowRole))
      + MembersTokens(StringMember("ServiceRole", req.serviceRole))
      + MembersTokens(ListMember("Tags", req.tags, TagJson))
  {
    r := PutBool(out, "VisibleToAllUsers", req.visibleToAllUsers);
    r := PutString(r, "JobFlowRole", req.jobFlowRole);
    r := PutString(r, "ServiceRole", req.serviceRole);
    r := PutTags(r, req.tags);
  }

  /** The writer calls for the whole request, from jsonWriter.object() to the final
      endObject(), or the message of the exception that stopped them. */
  method WriteRequest(req: RunJobFlowRequest, conf: ConfigurationMarshaller)
    returns (r: Result<seq<Token>, string>)
    ensures r == Emit([], RequestJson(req, conf))
  {
    RequestJsonCases(req, conf);
    var start := [BeginObject];
    var out := WriteHead(start, req);
    var instances := PutInstances(out, req.instances, conf);
    if instances.Failure? {
      return Failure(instances.error);
    }
    out := WriteMiddle(instances.value, req);
    var configurations := PutConfigurations(out, "Configurations", req.configurations, conf);
    if configurations.Failure? {
      return Failure(configurations.error);
    }
    out := WriteTail(configurations.value, req);
    r := Success(out + [EndObject]);
    MembersTokensOfParts(start,
      StringMember("Name", req.name),
      StringMember("LogUri", req.logUri),
      StringMember("AdditionalInfo", req.additionalInfo),
      StringMember("AmiVersion", req.amiVersion),
      StringMember("ReleaseLabel", req.releaseLabel),
      InstancesMember(req.instances, conf).value,
      ListMember("Steps", req.steps, StepJson),
      ListMember("BootstrapActions", req.bootstrapActions, BootstrapActionJson),
      ListMember("SupportedProducts", req.supportedProducts, StringJson),
      ListMember("NewSupportedProducts", req.newSupportedProducts, SupportedProductJson),
      ListMember("Applications", req.applications, ApplicationJson),
      ConfigurationsMember("Configurations", req.configurations, conf).value,
      BoolMember("VisibleToAllUsers", req.visibleToAllUsers),
      StringMember("JobFlowRole", req.jobFlowRole),
      StringMember("ServiceRole", req.serviceRole),
      ListMember("Tags", req.tags, TagJson));
    Close([], StringMember("Name", req.name)
      + StringMember("LogUri", req.logUri)
      + StringMember("AdditionalInfo", req.additionalInfo)
      + StringMember("AmiVersion", req.amiVersion)
      + StringMember("ReleaseLabel", req.releaseLabel)
      + InstancesMember(req.instances, conf).value
      + ListMember("Steps", req.steps, StepJson)
      + ListMember("BootstrapActions", req.bootstrapActions, BootstrapActionJson)
      + ListMember("SupportedProducts", req.supportedProducts, StringJson)
      + ListMember("NewSupportedProducts", req.newSupportedProducts, SupportedProductJson)
      + ListMember("Applications", req.applications, ApplicationJson)
      + ConfigurationsMember("Configurations", req.configurations, conf).value
      + BoolMember("VisibleToAllUsers", req.visibleToAllUsers)
      + StringMember("JobFlowRole", req.jobFlowRole)
      + StringMember("ServiceRole", req.serviceRole)
      + ListMember("Tags", req.tags, TagJson));
  }

  // ---------------------------------------------------------------------------
  // marshall

  datatype HttpMethodName = GET | POST | PUT | DELETE | HEAD | PATCH

  /** The Request<RunJobFlowRequest> marshall returns: the original request, the service
      name, the headers, the HTTP method, the resource path and the bytes of the content
      stream. */
  datatype MarshalledRequest = MarshalledRequest(
    original: RunJobFlowRequest,
    serviceName: string,
    headers: map<string, string>,
    httpMethod: HttpMethodName,
    resourcePath: string,
    content: seq<Byte>)

  datatype AmazonClientException = AmazonClientException(message: string)

  /** marshall(runJobFlowRequest), with null as None. ConfigurationJsonMarshaller is `conf`;
      `render` is the text the JSONWriter produces from a call stream. */
  method Marshall(request: Option<RunJobFlowRequest>, conf: ConfigurationMarshaller, render: seq<Token> -> string)
    returns (r: Result<MarshalledRequest, AmazonClientException>)
    ensures request.None? ==> r == Failure(AmazonClientException("Invalid argument passed to marshall(...)"))
    ensures request.Some? && RequestJson(request.value, conf).Failure? ==>
      r == Failure(AmazonClientException("Unable to marshall request to JSON: " + RequestJson(request.value, conf).error))
    ensures request.Some? && RequestJson(request.value, conf).Success? ==>
      && r.Success?
      && r.value.original == request.value
      && r.value.serviceName == "AmazonElasticMapReduce"
      && r.value.httpMethod == POST
      && r.value.resourcePath == ""
      && r.value.content == Utf8(render(Tokens(RequestJson(request.value, conf).value)))
      && r.value.headers == map[
           "X-Amz-Target" := "ElasticMapReduce.RunJobFlow",
           "Content-Length" := IntegerText(|r.value.content|),
           "Content-Type" := "application/x-amz-json-1.1"]
  {
    if request.None? {
      return Failure(AmazonClientException("Invalid argument passed to marshall(...)"));
    }
    var original := request.value;
    var headers := map["X-Amz-Target" := "ElasticMapReduce.RunJobFlow"];
    var written := WriteRequest(original, conf);
    if written.Failure? {
      return Failure(AmazonClientException("Unable to marshall request to JSON: " + written.error));
    }
    var snippet := render(written.value);
    var content := Utf8(snippet);
    headers := headers["Content-Length" := IntegerText(|content|)];
    headers := headers["Content-Type" := "application/x-amz-json-1.1"];
    r := Success(MarshalledRequest(original, "AmazonElasticMapReduce", headers, POST, "", content));
  }

  /** The body is one complete JSON document: every object and array begun is ended at its
      own level, and it reads back as the request's document. */
  lemma BodyIsOneDocument(req: RunJobFlowRequest, conf: ConfigurationMarshaller)
    requires RequestJson(req, conf).Success?
    ensures IsDocument(Tokens(RequestJson(req, conf).value))
    ensures ParseValue(Tokens(RequestJson(req, conf).value)).value.0 == RequestJson(req, conf).value
  {
    TokensAreDocument(RequestJson(req, conf).value);
  }

  /** Content-Length is the number of bytes of the content: its text is all decimal digits
      and reads back as that number, which lies between the text's length and four times
      it; and the content decodes back to the text. */
  lemma ContentLengthIsByteCount(snippet: string)
    ensures forall i :: 0 <= i < |IntegerText(|Utf8(snippet)|)| ==> '0' <= IntegerText(|Utf8(snippet)|)[i] <= '9'
    ensures DigitsValue(IntegerText(|Utf8(snippet)|)) == |Utf8(snippet)|
    ensures |snippet| <= |Utf8(snippet)| <= 4 * |snippet|
    ensures DecodeUtf8(Utf8(snippet)) == Some(snippet)
  {
    DigitsRoundTrip(|Utf8(snippet)|);
    Utf8Length(snippet);
    Utf8RoundTrip(snippet);
  }
}

# EMR Cluster, EC2 SpotFleetLaunchSpecification and the RunJobFlow marshaller, in Dafny

This project models three pieces of the AWS SDK for Java and proves properties of them.

**The model classes `Cluster` (EMR) and `SpotFleetLaunchSpecification` (EC2).** Each is a
Dafny `class` with one nullable field per Java field (`Option`, with `None` for null). Both
classes follow the generated-model list discipline, written once in `AutoLists`:

- a list field holds null or a `ListWithAutoConstructFlag`;
- its getter installs an empty list flagged "auto-constructed" when the field is null;
- its setter stores an unflagged copy of the argument, or null;
- the varargs `with…` methods append, and the `Collection` `with…` methods replace.

`hashCode()`, `equals()` and `toString()` call the list getters, so in the model they are
methods that may install lists. Each is proved against a function on the object's state
(`ClusterHash`, `ClusterEquals`, `ClusterText` and their counterparts). Lemmas then relate
those functions: equal states hash alike (and, in this model, print alike), and equality is an equivalence relation.
Java's `int` wrap-around, `String.hashCode()`, `Boolean.hashCode()`, `List.hashCode()` and
`AbstractCollection.toString()` are written out in `JavaLang` and `AutoLists`. Nested model
values that these classes hold but do not look into (ClusterStatus, Tag, GroupIdentifier, …)
are `Opaque` values carrying their own hash code and text.

**`RunJobFlowRequestMarshaller.marshall`.** The request and its nested configuration
classes are values (`RunJobFlowRequestModel`). The JSON document the marshaller writes is a
function of the request (`RunJobFlowJson.RequestJson`). The marshaller itself
(`RunJobFlowRequestMarshaller`) is imperative, as in the source: one method per nested
object and one loop per list, appending writer calls (`object()`, `key(k)`, `value(v)`,
`endObject()`, `array()`, `endArray()`) to a call buffer. Each method is proved to write
exactly the calls of the corresponding part of that document. `Json.ParseValue` reads a call
stream back, which shows that the body is one balanced document that reads back as the
intended value.

Two parameters stand for code outside this model:

- `conf` is ConfigurationJsonMarshaller. It either produces a configuration's members or
  fails with an exception message; the first failure in writing order is the one reported.
- `render` is the text the JSONWriter produces from a call stream. The body is its UTF-8
  encoding, and the Content-Length header is that encoding's length.

## Model

| member | source | states |
|---|---|---|
| EmrCluster.Cluster.constructor | aws-java-sdk-emr/src/main/java/com/amazonaws/services/elasticmapreduce/model/Cluster.java:29-129 | `new Cluster()`: every field null |
| EmrCluster.Cluster.SetId | aws-java-sdk-emr/src/main/java/com/amazonaws/services/elasticmapreduce/model/Cluster.java:145-147 | setId() stores the argument (null included) in its own field and changes no other field; getId() then returns the argument |
| EmrCluster.Cluster.WithId | aws-java-sdk-emr/src/main/java/com/amazonaws/services/elasticmapreduce/model/Cluster.java:159-162 | withId() does what setId() does and returns this; getId() then returns the argument |
| EmrCluster.Cluster.SetName | aws-java-sdk-emr/src/main/java/com/amazonaws/services/elasticmapreduce/model/Cluster.java:178-180 | setName() stores the argument (null included) in its own field and changes no other field; getName() then returns the argument |
| EmrCluster.Cluster.WithName | aws-java-sdk-emr/src/main/java/com/amazonaws/services/elasticmapreduce/model/Cluster.java:192-195 | withName() does what setName() does and returns this; getName() then returns the argument |
| EmrCluster.Cluster.SetStatus | aws-java-sdk-emr/src/main/java/com/amazonaws/services/elasticmapreduce/model/Cluster.java:211-213 | setStatus() stores the argument (null included) in its own field and changes no other field; getStatus() then returns the argument |
| EmrCluster.Cluster.WithStatus | aws-java-sdk-emr/src/main/java/com/amazonaws/services/elasticmapreduce/model/Cluster.java:225-228 | withStatus() does what setStatus() does and returns this; getStatus() then returns the argument |
| EmrCluster.Cluster.SetEc2InstanceAttributes | aws-java-sdk-emr/src/main/java/com/amazonaws/services/elasticmapreduce/model/Cluster.java:252-254 | setEc2InstanceAttributes() stores the argument (null included) in its own field and changes no other field; getEc2InstanceAttributes() then returns the argument |
| EmrCluster.Cluster.WithEc2InstanceAttributes | aws-java-sdk-emr/src/main/java/com/amazonaws/services/elasticmapreduce/model/Cluster.java:270-273 | withEc2InstanceAttributes() does what setEc2InstanceAttributes() does and returns this; getEc2InstanceAttributes() then returns the argument |
| EmrCluster.Cluster.SetLogUri | aws-java-sdk-emr/src/main/java/com/amazonaws/services/elasticmapreduce/model/Cluster.java:293-295 | setLogUri() stores the argument (null included) in its own field and changes no other field; getLogUri() then returns the argument |
| EmrCluster.Cluster.WithLogUri | aws-java-sdk-emr/src/main/java/com/amazonaws/services/elasticmapreduce/model/Cluster.java:309-312 | withLogUri() does what setLogUri() does and returns this; getLogUri() then returns the argument |
| EmrCluster.Cluster.SetRequestedAmiVersion | aws-java-sdk-emr/src/main/java/com/amazonaws/services/elasticmapreduce/model/Cluster.java:328-330 | setRequestedAmiVersion() stores the argument (null included) in its own field and changes no other field; getRequestedAmiVersion() then returns the argument |
| EmrCluster.Cluster.WithRequestedAmiVersion | aws-java-sdk-emr/src/main/java/com/amazonaws/services/elasticmapreduce/model/Cluster.java:342-345 | withRequestedAmiVersion() does what setRequestedAmiVersion() does and returns this; getRequestedAmiVersion() then returns the argument |
| EmrCluster.Cluster.SetRunningAmiVersion | aws-java-sdk-emr/src/main/java/com/amazonaws/services/elasticmapreduce/model/Cluster.java:361-363 | setRunningAmiVersion() stores the argument (null included) in its own field and changes no other field; getRunningAmiVersion() then returns the argument |
| EmrCluster.Cluster.WithRunningAmiVersion | aws-java-sdk-emr/src/main/java/com/amazonaws/services/elasticmapreduce/model/Cluster.java:375-378 | withRunningAmiVersion() does what setRunningAmiVersion() does and returns this; getRunningAmiVersion() then returns the argument |
| EmrCluster.Cluster.SetReleaseLabel | aws-java-sdk-emr/src/main/java/com/amazonaws/services/elasticmapreduce/model/Cluster.java:398-400 | setReleaseLabel() stores the argument (null included) in its own field and changes no other field; getReleaseLabel() then returns the argument |
| EmrCluster.Cluster.WithReleaseLabel | aws-java-sdk-emr/src/main/java/com/amazonaws/services/elasticmapreduce/model/Cluster.java:414-417 | withReleaseLabel() does what setReleaseLabel() does and returns this; getReleaseLabel() then returns the argument |
| EmrCluster.Cluster.SetAutoTerminate | aws-java-sdk-emr/src/main/java/com/amazonaws/services/elasticmapreduce/model/Cluster.java:437-439 | setAutoTerminate() stores the argument (null included) in its own field and changes no other field; getAutoTerminate() then returns the argument |
| EmrCluster.Cluster.WithAutoTerminate | aws-java-sdk-emr/src/main/java/com/amazonaws/services/elasticmapreduce/model/Cluster.java:453-456 | withAutoTerminate() does what setAutoTerminate() does and returns this; getAutoTerminate() then returns the argument |
| EmrCluster.Cluster.GetAutoTerminate | aws-java-sdk-emr/src/main/java/com/amazonaws/services/elasticmapreduce/model/Cluster.java:465-467 | getAutoTerminate() returns the same value as isAutoTerminate() |
| EmrCluster.Cluster.SetTerminationProtected | aws-java-sdk-emr/src/main/java/com/amazonaws/services/elasticmapreduce/model/Cluster.java:491-493 | setTerminationProtected() stores the argument (null included) in its own field and changes no other field; getTerminationProtected() then returns the argument |
| EmrCluster.Cluster.WithTerminationProtected | aws-java-sdk-emr/src/main/java/com/amazonaws/services/elasticmapreduce/model/Cluster.java:509-512 | withTerminationProtected() does what setTerminationProtected() does and returns this; getTerminationProtected() then returns the argument |
| EmrCluster.Cluster.GetTerminationProtected | aws-java-sdk-emr/src/main/java/com/amazonaws/services/elasticmapreduce/model/Cluster.java:523-525 | getTerminationProtected() returns the same value as isTerminationProtected() |
| EmrCluster.Cluster.SetVisibleToAllUsers | aws-java-sdk-emr/src/main/java/com/amazonaws/services/elasticmapreduce/model/Cluster.java:565-567 | setVisibleToAllUsers() stores the argument (null included) in its own field and changes no other field; getVisibleToAllUsers() then returns the argument |
| EmrCluster.Cluster.WithVisibleToAllUsers | aws-java-sdk-emr/src/main/java/com/amazonaws/services/elasticmapreduce/model/Cluster.java:591-594 | withVisibleToAllUsers() does what setVisibleToAllUsers() does and returns this; getVisibleToAllUsers() then returns the argument |
| EmrCluster.Cluster.GetVisibleToAllUsers | aws-java-sdk-emr/src/main/java/com/amazonaws/services/elasticmapreduce/model/Cluster.java:613-615 | getVisibleToAllUsers() returns the same value as isVisibleToAllUsers() |
| EmrCluster.Cluster.GetApplications | aws-java-sdk-emr/src/main/java/com/amazonaws/services/elasticmapreduce/model/Cluster.java:622-628 | getApplications() never returns null: a null field first receives an empty list flagged auto-constructed, later calls return the list already there, and no other field changes |
| EmrCluster.Cluster.SetApplications | aws-java-sdk-emr/src/main/java/com/amazonaws/services/elasticmapreduce/model/Cluster.java:635-643 | setApplications(): null clears the field; otherwise the field holds a copy of the argument, elements in order, not flagged auto-constructed; no other field changes |
| EmrCluster.Cluster.WithApplications | aws-java-sdk-emr/src/main/java/com/amazonaws/services/elasticmapreduce/model/Cluster.java:660-666 | the varargs withApplications() appends the values, in order and nulls included, after whatever list the getter returns (installing one on a null field); returns this; no other field changes |
| EmrCluster.Cluster.WithApplicationsCollection | aws-java-sdk-emr/src/main/java/com/amazonaws/services/elasticmapreduce/model/Cluster.java:678-688 | the collection withApplications() replaces the list exactly as setApplications() does and returns this |
| EmrCluster.Cluster.GetTags | aws-java-sdk-emr/src/main/java/com/amazonaws/services/elasticmapreduce/model/Cluster.java:695-701 | getTags() never returns null: a null field first receives an empty list flagged auto-constructed, later calls return the list already there, and no other field changes |
| EmrCluster.Cluster.SetTags | aws-java-sdk-emr/src/main/java/com/amazonaws/services/elasticmapreduce/model/Cluster.java:708-716 | setTags(): null clears the field; otherwise the field holds a copy of the argument, elements in order, not flagged auto-constructed; no other field changes |
| EmrCluster.Cluster.WithTags | aws-java-sdk-emr/src/main/java/com/amazonaws/services/elasticmapreduce/model/Cluster.java:733-739 | the varargs withTags() appends the values, in order and nulls included, after whatever list the getter returns (installing one on a null field); returns this; no other field changes |
| EmrCluster.Cluster.WithTagsCollection | aws-java-sdk-emr/src/main/java/com/amazonaws/services/elasticmapreduce/model/Cluster.java:751-761 | the collection withTags() replaces the list exactly as setTags() does and returns this |
| EmrCluster.Cluster.SetServiceRole | aws-java-sdk-emr/src/main/java/com/amazonaws/services/elasticmapreduce/model/Cluster.java:781-783 | setServiceRole() stores the argument (null included) in its own field and changes no other field; getServiceRole() then returns the argument |
| EmrCluster.Cluster.WithServiceRole | aws-java-sdk-emr/src/main/java/com/amazonaws/services/elasticmapreduce/model/Cluster.java:797-800 | withServiceRole() does what setServiceRole() does and returns this; getServiceRole() then returns the argument |
| EmrCluster.Cluster.SetNormalizedInstanceHours | aws-java-sdk-emr/src/main/java/com/amazonaws/services/elasticmapreduce/model/Cluster.java:836-838 | setNormalizedInstanceHours() stores the argument (null included) in its own field and changes no other field; getNormalizedInstanceHours() then returns the argument |
| EmrCluster.Cluster.WithNormalizedInstanceHours | aws-java-sdk-emr/src/main/java/com/amazonaws/services/elasticmapreduce/model/Cluster.java:860-863 | withNormalizedInstanceHours() does what setNormalizedInstanceHours() does and returns this; getNormalizedInstanceHours() then returns the argument |
| EmrCluster.Cluster.SetMasterPublicDnsName | aws-java-sdk-emr/src/main/java/com/amazonaws/services/elasticmapreduce/model/Cluster.java:879-881 | setMasterPublicDnsName() stores the argument (null included) in its own field and changes no other field; getMasterPublicDnsName() then returns the argument |
| EmrCluster.Cluster.WithMasterPublicDnsName | aws-java-sdk-emr/src/main/java/com/amazonaws/services/elasticmapreduce/model/Cluster.java:893-896 | withMasterPublicDnsName() does what setMasterPublicDnsName() does and returns this; getMasterPublicDnsName() then returns the argument |
| EmrCluster.Cluster.GetConfigurations | aws-java-sdk-emr/src/main/java/com/amazonaws/services/elasticmapreduce/model/Cluster.java:905-911 | getConfigurations() never returns null: a null field first receives an empty list flagged auto-constructed, later calls return the list already there, and no other field changes |
| EmrCluster.Cluster.SetConfigurations | aws-java-sdk-emr/src/main/java/com/amazonaws/services/elasticmapreduce/model/Cluster.java:920-928 | setConfigurations(): null clears the field; otherwise the field holds a copy of the argument, elements in order, not flagged auto-constructed; no other field changes |
| EmrCluster.Cluster.WithConfigurations | aws-java-sdk-emr/src/main/java/com/amazonaws/services/elasticmapreduce/model/Cluster.java:947-953 | the varargs withConfigurations() appends the values, in order and nulls included, after whatever list the getter returns (installing one on a null field); returns this; no other field changes |
| EmrCluster.Cluster.WithConfigurationsCollection | aws-java-sdk-emr/src/main/java/com/amazonaws/services/elasticmapreduce/model/Cluster.java:967-977 | the collection withConfigurations() replaces the list exactly as setConfigurations() does and returns this |
| EmrCluster.Cluster.ToString | aws-java-sdk-emr/src/main/java/com/amazonaws/services/elasticmapreduce/model/Cluster.java:988-1010 | toString() returns the text of the state before the call (every non-null field as `Label: value,` in declaration order, the last without the comma, inside braces) and leaves the fields as the list getters it calls leave them |
| EmrCluster.Cluster.HashCode | aws-java-sdk-emr/src/main/java/com/amazonaws/services/elasticmapreduce/model/Cluster.java:1013-1035 | hashCode() returns the 31-polynomial of the field hashes of the state before the call (null = 0, lists by List.hashCode) with int wrap-around, and installs the null lists |
| EmrCluster.Cluster.Equals | aws-java-sdk-emr/src/main/java/com/amazonaws/services/elasticmapreduce/model/Cluster.java:1038-1080 | equals() is true for the object itself, false for null and other classes; for another object of the class it is exactly field-by-field equality of the states before the call (a null list equal to an empty one), only list getters may have changed either object, and on true both objects end with every list installed |
| EmrCluster.Cluster.SameFields | aws-java-sdk-emr/src/main/java/com/amazonaws/services/elasticmapreduce/model/Cluster.java:1045-1079 | the field-by-field part of equals() returns ClusterEquals of the two states before the call, installs only lists in both objects, and on true leaves both fully installed |
| EmrCluster.Cluster.Clone | aws-java-sdk-emr/src/main/java/com/amazonaws/services/elasticmapreduce/model/Cluster.java:1083-1094 | clone() returns a new object whose state equals this one's |
| EmrCluster.Cluster.Copy | aws-java-sdk-emr/src/main/java/com/amazonaws/services/elasticmapreduce/model/Cluster.java:1083-1094 | the field-by-field copy Object.clone() makes: the new object's state is the given one |
| EmrCluster.ClusterEqualsIsEquivalence | aws-java-sdk-emr/src/main/java/com/amazonaws/services/elasticmapreduce/model/Cluster.java:1038-1080 | equals() between distinct clusters is reflexive, symmetric and transitive |
| EmrCluster.EqualClustersHashAndPrintAlike | aws-java-sdk-emr/src/main/java/com/amazonaws/services/elasticmapreduce/model/Cluster.java:1013-1080 | the equals/hashCode contract: equal clusters have equal hash codes; equal model states also give equal toString() texts, because nested values here are equal only when their texts are (see "## Left out") |
| EmrCluster.RepeatedCallsAgree | aws-java-sdk-emr/src/main/java/com/amazonaws/services/elasticmapreduce/model/Cluster.java:988-1035 | the list installation done by hashCode()/toString() is idempotent and does not change what a later call returns |
| EmrCluster.NullAndEmptyApplicationsDiffer | aws-java-sdk-emr/src/main/java/com/amazonaws/services/elasticmapreduce/model/Cluster.java:622-643 | a null applications list and one set to empty are equal, hash and print alike, yet `Emitted` tells them apart: a marshaller following the list rule would drop the first and write the second as [] |
| EmrCluster.ClusterTextEndsWithConfigurations | aws-java-sdk-emr/src/main/java/com/amazonaws/services/elasticmapreduce/model/Cluster.java:988-1010 | toString() starts with `{` and always ends with `Configurations: [...]}` with no comma before the brace, because getConfigurations() never returns null |
| Ec2SpotFleetLaunchSpecification.SpotFleetLaunchSpecification.constructor | aws-java-sdk-ec2/src/main/java/com/amazonaws/services/ec2/model/SpotFleetLaunchSpecification.java:29-110 | `new SpotFleetLaunchSpecification()`: every field null |
| Ec2SpotFleetLaunchSpecification.SpotFleetLaunchSpecification.SetImageId | aws-java-sdk-ec2/src/main/java/com/amazonaws/services/ec2/model/SpotFleetLaunchSpecification.java:126-128 | setImageId() stores the argument (null included) in its own field and changes no other field; getImageId() then returns the argument |
| Ec2SpotFleetLaunchSpecification.SpotFleetLaunchSpecification.WithImageId | aws-java-sdk-ec2/src/main/java/com/amazonaws/services/ec2/model/SpotFleetLaunchSpecification.java:140-143 | withImageId() does what setImageId() does and returns this; getImageId() then returns the argument |
| Ec2SpotFleetLaunchSpecification.SpotFleetLaunchSpecification.SetKeyName | aws-java-sdk-ec2/src/main/java/com/amazonaws/services/ec2/model/SpotFleetLaunchSpecification.java:159-161 | setKeyName() stores the argument (null included) in its own field and changes no other field; getKeyName() then returns the argument |
| Ec2SpotFleetLaunchSpecification.SpotFleetLaunchSpecification.WithKeyName | aws-java-sdk-ec2/src/main/java/com/amazonaws/services/ec2/model/SpotFleetLaunchSpecification.java:173-176 | withKeyName() does what setKeyName() does and returns this; getKeyName() then returns the argument |
| Ec2SpotFleetLaunchSpecification.SpotFleetLaunchSpecification.GetSecurityGroups | aws-java-sdk-ec2/src/main/java/com/amazonaws/services/ec2/model/SpotFleetLaunchSpecification.java:189-195 | getSecurityGroups() never returns null: a null field first receives an empty list flagged auto-constructed, later calls return the list already there, and no other field changes |
| Ec2SpotFleetLaunchSpecification.SpotFleetLaunchSpecification.SetSecurityGroups | aws-java-sdk-ec2/src/main/java/com/amazonaws/services/ec2/model/SpotFleetLaunchSpecification.java:208-216 | setSecurityGroups(): null clears the field; otherwise the field holds a copy of the argument, elements in order, not flagged auto-constructed; no other field changes |
| Ec2SpotFleetLaunchSpecification.SpotFleetLaunchSpecification.WithSecurityGroups | aws-java-sdk-ec2/src/main/java/com/amazonaws/services/ec2/model/SpotFleetLaunchSpecification.java:239-245 | the varargs withSecurityGroups() appends the values, in order and nulls included, after whatever list the getter returns (installing one on a null field); returns this; no other field changes |
| Ec2SpotFleetLaunchSpecification.SpotFleetLaunchSpecification.WithSecurityGroupsCollection | aws-java-sdk-ec2/src/main/java/com/amazonaws/services/ec2/model/SpotFleetLaunchSpecification.java:263-273 | the collection withSecurityGroups() replaces the list exactly as setSecurityGroups() does and returns this |
| Ec2SpotFleetLaunchSpecification.SpotFleetLaunchSpecification.SetUserData | aws-java-sdk-ec2/src/main/java/com/amazonaws/services/ec2/model/SpotFleetLaunchSpecification.java:289-291 | setUserData() stores the argument (null included) in its own field and changes no other field; getUserData() then returns the argument |
| Ec2SpotFleetLaunchSpecification.SpotFleetLaunchSpecification.WithUserData | aws-java-sdk-ec2/src/main/java/com/amazonaws/services/ec2/model/SpotFleetLaunchSpecification.java:303-306 | withUserData() does what setUserData() does and returns this; getUserData() then returns the argument |
| Ec2SpotFleetLaunchSpecification.SpotFleetLaunchSpecification.SetAddressingType | aws-java-sdk-ec2/src/main/java/com/amazonaws/services/ec2/model/SpotFleetLaunchSpecification.java:322-324 | setAddressingType() stores the argument (null included) in its own field and changes no other field; getAddressingType() then returns the argument |
| Ec2SpotFleetLaunchSpecification.SpotFleetLaunchSpecification.WithAddressingType | aws-java-sdk-ec2/src/main/java/com/amazonaws/services/ec2/model/SpotFleetLaunchSpecification.java:336-339 | withAddressingType() does what setAddressingType() does and returns this; getAddressingType() then returns the argument |
| Ec2SpotFleetLaunchSpecification.SpotFleetLaunchSpecification.SetInstanceType | aws-java-sdk-ec2/src/main/java/com/amazonaws/services/ec2/model/SpotFleetLaunchSpecification.java:365-367 | setInstanceType() stores the argument (null included) in its own field and changes no other field; getInstanceType() then returns the argument |
| Ec2SpotFleetLaunchSpecification.SpotFleetLaunchSpecification.WithInstanceType | aws-java-sdk-ec2/src/main/java/com/amazonaws/services/ec2/model/SpotFleetLaunchSpecification.java:384-387 | withInstanceType() does what setInstanceType() does and returns this; getInstanceType() then returns the argument |
| Ec2SpotFleetLaunchSpecification.SpotFleetLaunchSpecification.SetInstanceTypeEnum | aws-java-sdk-ec2/src/main/java/com/amazonaws/services/ec2/model/SpotFleetLaunchSpecification.java:399-401 | the enum overload of setInstanceType() stores the constant's string, the same state the string overload gives for it, so getInstanceType() then returns that string |
| Ec2SpotFleetLaunchSpecification.SpotFleetLaunchSpecification.WithInstanceTypeEnum | aws-java-sdk-ec2/src/main/java/com/amazonaws/services/ec2/model/SpotFleetLaunchSpecification.java:418-421 | the enum overload of withInstanceType() does the same and returns this; getInstanceType() then returns the constant's string |
| Ec2SpotFleetLaunchSpecification.SpotFleetLaunchSpecification.SetPlacement | aws-java-sdk-ec2/src/main/java/com/amazonaws/services/ec2/model/SpotFleetLaunchSpecification.java:437-439 | setPlacement() stores the argument (null included) in its own field and changes no other field; getPlacement() then returns the argument |
| Ec2SpotFleetLaunchSpecification.SpotFleetLaunchSpecification.WithPlacement | aws-java-sdk-ec2/src/main/java/com/amazonaws/services/ec2/model/SpotFleetLaunchSpecification.java:451-454 | withPlacement() does what setPlacement() does and returns this; getPlacement() then returns the argument |
| Ec2SpotFleetLaunchSpecification.SpotFleetLaunchSpecification.SetKernelId | aws-java-sdk-ec2/src/main/java/com/amazonaws/services/ec2/model/SpotFleetLaunchSpecification.java:470-472 | setKernelId() stores the argument (null included) in its own field and changes no other field; getKernelId() then returns the argument |
| Ec2SpotFleetLaunchSpecification.SpotFleetLaunchSpecification.WithKernelId | aws-java-sdk-ec2/src/main/java/com/amazonaws/services/ec2/model/SpotFleetLaunchSpecification.java:484-487 | withKernelId() does what setKernelId() does and returns this; getKernelId() then returns the argument |
| Ec2SpotFleetLaunchSpecification.SpotFleetLaunchSpecification.SetRamdiskId | aws-java-sdk-ec2/src/main/java/com/amazonaws/services/ec2/model/SpotFleetLaunchSpecification.java:503-505 | setRamdiskId() stores the argument (null included) in its own field and changes no other field; getRamdiskId() then returns the argument |
| Ec2SpotFleetLaunchSpecification.SpotFleetLaunchSpecification.WithRamdiskId | aws-java-sdk-ec2/src/main/java/com/amazonaws/services/ec2/model/SpotFleetLaunchSpecification.java:517-520 | withRamdiskId() does what setRamdiskId() does and returns this; getRamdiskId() then returns the argument |
| Ec2SpotFleetLaunchSpecification.SpotFleetLaunchSpecification.GetBlockDeviceMappings | aws-java-sdk-ec2/src/main/java/com/amazonaws/services/ec2/model/SpotFleetLaunchSpecification.java:527-533 | getBlockDeviceMappings() never returns null: a null field first receives an empty list flagged auto-constructed, later calls return the list already there, and no other field changes |
| Ec2SpotFleetLaunchSpecification.SpotFleetLaunchSpecification.SetBlockDeviceMappings | aws-java-sdk-ec2/src/main/java/com/amazonaws/services/ec2/model/SpotFleetLaunchSpecification.java:540-548 | setBlockDeviceMappings(): null clears the field; otherwise the field holds a copy of the argument, elements in order, not flagged auto-constructed; no other field changes |
| Ec2SpotFleetLaunchSpecification.SpotFleetLaunchSpecification.WithBlockDeviceMappings | aws-java-sdk-ec2/src/main/java/com/amazonaws/services/ec2/model/SpotFleetLaunchSpecification.java:565-571 | the varargs withBlockDeviceMappings() appends the values, in order and nulls included, after whatever list the getter returns (installing one on a null field); returns this; no other field changes |
| Ec2SpotFleetLaunchSpecification.SpotFleetLaunchSpecification.WithBlockDeviceMappingsCollection | aws-java-sdk-ec2/src/main/java/com/amazonaws/services/ec2/model/SpotFleetLaunchSpecification.java:583-593 | the collection withBlockDeviceMappings() replaces the list exactly as setBlockDeviceMappings() does and returns this |
| Ec2SpotFleetLaunchSpecification.SpotFleetLaunchSpecification.SetMonitoring | aws-java-sdk-ec2/src/main/java/com/amazonaws/services/ec2/model/SpotFleetLaunchSpecification.java:609-611 | setMonitoring() stores the argument (null included) in its own field and changes no other field; getMonitoring() then returns the argument |
| Ec2SpotFleetLaunchSpecification.SpotFleetLaunchSpecification.WithMonitoring | aws-java-sdk-ec2/src/main/java/com/amazonaws/services/ec2/model/SpotFleetLaunchSpecification.java:623-626 | withMonitoring() does what setMonitoring() does and returns this; getMonitoring() then returns the argument |
| Ec2SpotFleetLaunchSpecification.SpotFleetLaunchSpecification.SetSubnetId | aws-java-sdk-ec2/src/main/java/com/amazonaws/services/ec2/model/SpotFleetLaunchSpecification.java:642-644 | setSubnetId() stores the argument (null included) in its own field and changes no other field; getSubnetId() then returns the argument |
| Ec2SpotFleetLaunchSpecification.SpotFleetLaunchSpecification.WithSubnetId | aws-java-sdk-ec2/src/main/java/com/amazonaws/services/ec2/model/SpotFleetLaunchSpecification.java:656-659 | withSubnetId() does what setSubnetId() does and returns this; getSubnetId() then returns the argument |
| Ec2SpotFleetLaunchSpecification.SpotFleetLaunchSpecification.GetNetworkInterfaces | aws-java-sdk-ec2/src/main/java/com/amazonaws/services/ec2/model/SpotFleetLaunchSpecification.java:666-672 | getNetworkInterfaces() never returns null: a null field first receives an empty list flagged auto-constructed, later calls return the list already there, and no other field changes |
| Ec2SpotFleetLaunchSpecification.SpotFleetLaunchSpecification.SetNetworkInterfaces | aws-java-sdk-ec2/src/main/java/com/amazonaws/services/ec2/model/SpotFleetLaunchSpecification.java:679-687 | setNetworkInterfaces(): null clears the field; otherwise the field holds a copy of the argument, elements in order, not flagged auto-constructed; no other field changes |
| Ec2SpotFleetLaunchSpecification.SpotFleetLaunchSpecification.WithNetworkInterfaces | aws-java-sdk-ec2/src/main/java/com/amazonaws/services/ec2/model/SpotFleetLaunchSpecification.java:704-710 | the varargs withNetworkInterfaces() appends the values, in order and nulls included, after whatever list the getter returns (installing one on a null field); returns this; no other field changes |
| Ec2SpotFleetLaunchSpecification.SpotFleetLaunchSpecification.WithNetworkInterfacesCollection | aws-java-sdk-ec2/src/main/java/com/amazonaws/services/ec2/model/SpotFleetLaunchSpecification.java:722-732 | the collection withNetworkInterfaces() replaces the list exactly as setNetworkInterfaces() does and returns this |
| Ec2SpotFleetLaunchSpecification.SpotFleetLaunchSpecification.SetIamInstanceProfile | aws-java-sdk-ec2/src/main/java/com/amazonaws/services/ec2/model/SpotFleetLaunchSpecification.java:748-750 | setIamInstanceProfile() stores the argument (null included) in its own field and changes no other field; getIamInstanceProfile() then returns the argument |
| Ec2SpotFleetLaunchSpecification.SpotFleetLaunchSpecification.WithIamInstanceProfile | aws-java-sdk-ec2/src/main/java/com/amazonaws/services/ec2/model/SpotFleetLaunchSpecification.java:762-765 | withIamInstanceProfile() does what setIamInstanceProfile() does and returns this; getIamInstanceProfile() then returns the argument |
| Ec2SpotFleetLaunchSpecification.SpotFleetLaunchSpecification.SetEbsOptimized | aws-java-sdk-ec2/src/main/java/com/amazonaws/services/ec2/model/SpotFleetLaunchSpecification.java:801-803 | setEbsOptimized() stores the argument (null included) in its own field and changes no other field; getEbsOptimized() then returns the argument |
| Ec2SpotFleetLaunchSpecification.SpotFleetLaunchSpecification.WithEbsOptimized | aws-java-sdk-ec2/src/main/java/com/amazonaws/services/ec2/model/SpotFleetLaunchSpecification.java:825-828 | withEbsOptimized() does what setEbsOptimized() does and returns this; getEbsOptimized() then returns the argument |
| Ec2SpotFleetLaunchSpecification.SpotFleetLaunchSpecification.GetEbsOptimized | aws-java-sdk-ec2/src/main/java/com/amazonaws/services/ec2/model/SpotFleetLaunchSpecification.java:845-847 | getEbsOptimized() returns the same value as isEbsOptimized() |
| Ec2SpotFleetLaunchSpecification.SpotFleetLaunchSpecification.ToString | aws-java-sdk-ec2/src/main/java/com/amazonaws/services/ec2/model/SpotFleetLaunchSpecification.java:858-878 | toString() returns the text of the state before the call (every non-null field as `Label: value,` in declaration order, the last without the comma, inside braces) and leaves the fields as the list getters it calls leave them |
| Ec2SpotFleetLaunchSpecification.SpotFleetLaunchSpecification.HashCode | aws-java-sdk-ec2/src/main/java/com/amazonaws/services/ec2/model/SpotFleetLaunchSpecification.java:881-901 | hashCode() returns the 31-polynomial of the field hashes of the state before the call (null = 0, lists by List.hashCode) with int wrap-around, and installs the null lists |
| Ec2SpotFleetLaunchSpecification.SpotFleetLaunchSpecification.Equals | aws-java-sdk-ec2/src/main/java/com/amazonaws/services/ec2/model/SpotFleetLaunchSpecification.java:904-942 | equals() is true for the object itself, false for null and other classes; for another object of the class it is exactly field-by-field equality of the states before the call (a null list equal to an empty one), only list getters may have changed either object, and on true both objects end with every list installed |
| Ec2SpotFleetLaunchSpecification.SpotFleetLaunchSpecification.SameFields | aws-java-sdk-ec2/src/main/java/com/amazonaws/services/ec2/model/SpotFleetLaunchSpecification.java:911-941 | the field-by-field part of equals() returns the field-wise null-aware comparison of the two states before the call and installs only lists |
| Ec2SpotFleetLaunchSpecification.SpotFleetLaunchSpecification.Clone | aws-java-sdk-ec2/src/main/java/com/amazonaws/services/ec2/model/SpotFleetLaunchSpecification.java:945-956 | clone() returns a new object whose state equals this one's |
| Ec2SpotFleetLaunchSpecification.SpotFleetLaunchSpecification.Copy | aws-java-sdk-ec2/src/main/java/com/amazonaws/services/ec2/model/SpotFleetLaunchSpecification.java:945-956 | the field-by-field copy Object.clone() makes: the new object's state is the given one |
| Ec2SpotFleetLaunchSpecification.SpotEqualsIsEquivalence | aws-java-sdk-ec2/src/main/java/com/amazonaws/services/ec2/model/SpotFleetLaunchSpecification.java:904-942 | equals() between distinct objects is reflexive, symmetric and transitive |
| Ec2SpotFleetLaunchSpecification.EqualSpecsHashAndPrintAlike | aws-java-sdk-ec2/src/main/java/com/amazonaws/services/ec2/model/SpotFleetLaunchSpecification.java:881-942 | the equals/hashCode contract: equal objects have equal hash codes (and equal toString() texts) |
| Ec2SpotFleetLaunchSpecification.RepeatedCallsAgree | aws-java-sdk-ec2/src/main/java/com/amazonaws/services/ec2/model/SpotFleetLaunchSpecification.java:858-901 | the list installation done by hashCode()/toString() is idempotent and does not change what a later call returns |
| Ec2SpotFleetLaunchSpecification.NullAndEmptySecurityGroupsDiffer | aws-java-sdk-ec2/src/main/java/com/amazonaws/services/ec2/model/SpotFleetLaunchSpecification.java:189-216 | a null security-group list and one set to empty are equal, hash and print alike, yet only the second counts as explicitly set for a marshaller |
| Ec2SpotFleetLaunchSpecification.SpotTextEnding | aws-java-sdk-ec2/src/main/java/com/amazonaws/services/ec2/model/SpotFleetLaunchSpecification.java:858-878 | toString() starts with `{` and ends with `,}` exactly when ebsOptimized is null (the last entry is the only one written without a comma) |
| RunJobFlowRequestMarshaller.Marshall | aws-java-sdk-emr/src/main/java/com/amazonaws/services/elasticmapreduce/model/transform/RunJobFlowRequestMarshaller.java:46-465 | a null request fails with "Invalid argument passed to marshall(...)"; a failure while writing becomes "Unable to marshall request to JSON: " + its message; otherwise the request holds the original, the service name, POST, the empty resource path, the UTF-8 bytes of the rendered document as content, and exactly the three headers X-Amz-Target, Content-Length (the decimal byte count of that content) and Content-Type |
| RunJobFlowRequestMarshaller.WriteRequest | aws-java-sdk-emr/src/main/java/com/amazonaws/services/elasticmapreduce/model/transform/RunJobFlowRequestMarshaller.java:62-453 | the writer calls made between object() and the final endObject() are exactly those of the request document, or the first failure of the configuration marshaller in writing order |
| RunJobFlowRequestMarshaller.WriteHead | aws-java-sdk-emr/src/main/java/com/amazonaws/services/elasticmapreduce/model/transform/RunJobFlowRequestMarshaller.java:64-78 | Name, LogUri, AdditionalInfo, AmiVersion and ReleaseLabel are written in that order, each only when non-null |
| RunJobFlowRequestMarshaller.WriteMiddle | aws-java-sdk-emr/src/main/java/com/amazonaws/services/elasticmapreduce/model/transform/RunJobFlowRequestMarshaller.java:204-407 | Steps, BootstrapActions, SupportedProducts, NewSupportedProducts and Applications are written in that order, each by the list rule |
| RunJobFlowRequestMarshaller.WriteTail | aws-java-sdk-emr/src/main/java/com/amazonaws/services/elasticmapreduce/model/transform/RunJobFlowRequestMarshaller.java:422-451 | VisibleToAllUsers, JobFlowRole, ServiceRole and Tags are written in that order, the scalars only when non-null, Tags by the list rule |
| RunJobFlowRequestMarshaller.PutString | aws-java-sdk-emr/src/main/java/com/amazonaws/services/elasticmapreduce/model/transform/RunJobFlowRequestMarshaller.java:64-66 | a string member is written as key(k) then value(v) when the value is non-null and not at all when it is null |
| RunJobFlowRequestMarshaller.PutInt | aws-java-sdk-emr/src/main/java/com/amazonaws/services/elasticmapreduce/model/transform/RunJobFlowRequestMarshaller.java:91-93 | an integer member is written as key(k) then value(i) exactly when it is non-null |
| RunJobFlowRequestMarshaller.PutBool | aws-java-sdk-emr/src/main/java/com/amazonaws/services/elasticmapreduce/model/transform/RunJobFlowRequestMarshaller.java:155-157 | a boolean member is written as key(k) then value(b) exactly when it is non-null |
| RunJobFlowRequestMarshaller.PutStrings | aws-java-sdk-emr/src/main/java/com/amazonaws/services/elasticmapreduce/model/transform/RunJobFlowRequestMarshaller.java:316-328 | a string list is written as key, array(), each non-null element in list order, endArray() when it is non-null and not auto-constructed-and-empty, and not at all otherwise |
| RunJobFlowRequestMarshaller.PutInstances | aws-java-sdk-emr/src/main/java/com/amazonaws/services/elasticmapreduce/model/transform/RunJobFlowRequestMarshaller.java:79-202 | the Instances object is written only when non-null, and a configuration failure inside it is the failure of the whole call |
| RunJobFlowRequestMarshaller.WriteInstances | aws-java-sdk-emr/src/main/java/com/amazonaws/services/elasticmapreduce/model/transform/RunJobFlowRequestMarshaller.java:82-201 | the Instances object's members are written in source order: three scalars, InstanceGroups, Ec2KeyName, Placement, six scalars and the two security-group lists |
| RunJobFlowRequestMarshaller.PutInstanceGroups | aws-java-sdk-emr/src/main/java/com/amazonaws/services/elasticmapreduce/model/transform/RunJobFlowRequestMarshaller.java:95-140 | InstanceGroups follows the list rule, writes the non-null groups in order and stops at the first group whose configurations fail |
| RunJobFlowRequestMarshaller.WriteInstanceGroup | aws-java-sdk-emr/src/main/java/com/amazonaws/services/elasticmapreduce/model/transform/RunJobFlowRequestMarshaller.java:101-137 | an instance group is written as an object with its six non-null scalars and its configurations list, or fails as its configurations do |
| RunJobFlowRequestMarshaller.PutConfigurations | aws-java-sdk-emr/src/main/java/com/amazonaws/services/elasticmapreduce/model/transform/RunJobFlowRequestMarshaller.java:409-421 | Configurations follows the list rule and hands every non-null element to the configuration marshaller in order; the first failure ends the call with that failure |
| RunJobFlowRequestMarshaller.WriteConfiguration | aws-java-sdk-emr/src/main/java/com/amazonaws/services/elasticmapreduce/model/transform/RunJobFlowRequestMarshaller.java:415-419 | one configuration is the object the configuration marshaller returns for it, or its failure |
| RunJobFlowRequestMarshaller.PutPlacement | aws-java-sdk-emr/src/main/java/com/amazonaws/services/elasticmapreduce/model/transform/RunJobFlowRequestMarshaller.java:144-154 | Placement is written only when non-null |
| RunJobFlowRequestMarshaller.WritePlacement | aws-java-sdk-emr/src/main/java/com/amazonaws/services/elasticmapreduce/model/transform/RunJobFlowRequestMarshaller.java:147-153 | a placement is an object holding AvailabilityZone when that is non-null |
| RunJobFlowRequestMarshaller.PutSteps | aws-java-sdk-emr/src/main/java/com/amazonaws/services/elasticmapreduce/model/transform/RunJobFlowRequestMarshaller.java:204-271 | Steps follows the list rule and writes each non-null step in order |
| RunJobFlowRequestMarshaller.WriteStep | aws-java-sdk-emr/src/main/java/com/amazonaws/services/elasticmapreduce/model/transform/RunJobFlowRequestMarshaller.java:210-268 | a step is an object with Name, ActionOnFailure and HadoopJarStep, each when non-null |
| RunJobFlowRequestMarshaller.PutHadoopJarStep | aws-java-sdk-emr/src/main/java/com/amazonaws/services/elasticmapreduce/model/transform/RunJobFlowRequestMarshaller.java:219-266 | HadoopJarStep is written only when non-null |
| RunJobFlowRequestMarshaller.WriteHadoopJarStep | aws-java-sdk-emr/src/main/java/com/amazonaws/services/elasticmapreduce/model/transform/RunJobFlowRequestMarshaller.java:222-265 | a jar step is an object with Properties, Jar, MainClass and Args in that order |
| RunJobFlowRequestMarshaller.PutProperties | aws-java-sdk-emr/src/main/java/com/amazonaws/services/elasticmapreduce/model/transform/RunJobFlowRequestMarshaller.java:225-244 | Properties follows the list rule and writes each non-null key/value pair in order |
| RunJobFlowRequestMarshaller.WriteKeyValue | aws-java-sdk-emr/src/main/java/com/amazonaws/services/elasticmapreduce/model/transform/RunJobFlowRequestMarshaller.java:231-241 | a key/value pair is an object with Key and Value, each when non-null |
| RunJobFlowRequestMarshaller.PutBootstrapActions | aws-java-sdk-emr/src/main/java/com/amazonaws/services/elasticmapreduce/model/transform/RunJobFlowRequestMarshaller.java:273-314 | BootstrapActions follows the list rule and writes each non-null action in order |
| RunJobFlowRequestMarshaller.WriteBootstrapAction | aws-java-sdk-emr/src/main/java/com/amazonaws/services/elasticmapreduce/model/transform/RunJobFlowRequestMarshaller.java:279-311 | a bootstrap action is an object with Name and ScriptBootstrapAction, each when non-null |
| RunJobFlowRequestMarshaller.PutScriptBootstrapAction | aws-java-sdk-emr/src/main/java/com/amazonaws/services/elasticmapreduce/model/transform/RunJobFlowRequestMarshaller.java:285-309 | ScriptBootstrapAction is written only when non-null |
| RunJobFlowRequestMarshaller.WriteScriptBootstrapAction | aws-java-sdk-emr/src/main/java/com/amazonaws/services/elasticmapreduce/model/transform/RunJobFlowRequestMarshaller.java:288-308 | a script action is an object with Path and Args |
| RunJobFlowRequestMarshaller.PutNewSupportedProducts | aws-java-sdk-emr/src/main/java/com/amazonaws/services/elasticmapreduce/model/transform/RunJobFlowRequestMarshaller.java:330-360 | NewSupportedProducts follows the list rule and writes each non-null product in order |
| RunJobFlowRequestMarshaller.WriteSupportedProduct | aws-java-sdk-emr/src/main/java/com/amazonaws/services/elasticmapreduce/model/transform/RunJobFlowRequestMarshaller.java:336-357 | a supported product is an object with Name and Args |
| RunJobFlowRequestMarshaller.PutApplications | aws-java-sdk-emr/src/main/java/com/amazonaws/services/elasticmapreduce/model/transform/RunJobFlowRequestMarshaller.java:362-407 | Applications follows the list rule and writes each non-null application in order |
| RunJobFlowRequestMarshaller.WriteApplication | aws-java-sdk-emr/src/main/java/com/amazonaws/services/elasticmapreduce/model/transform/RunJobFlowRequestMarshaller.java:368-404 | an application is an object with Name, Version, Args and AdditionalInfo in that order |
| RunJobFlowRequestMarshaller.PutAdditionalInfo | aws-java-sdk-emr/src/main/java/com/amazonaws/services/elasticmapreduce/model/transform/RunJobFlowRequestMarshaller.java:391-402 | AdditionalInfo is written only when the map is non-null |
| RunJobFlowRequestMarshaller.WriteAdditionalInfo | aws-java-sdk-emr/src/main/java/com/amazonaws/services/elasticmapreduce/model/transform/RunJobFlowRequestMarshaller.java:392-401 | the map is written as an object with one member per entry whose value is non-null, in entry-set order |
| RunJobFlowRequestMarshaller.PutTags | aws-java-sdk-emr/src/main/java/com/amazonaws/services/elasticmapreduce/model/transform/RunJobFlowRequestMarshaller.java:432-451 | Tags follows the list rule and writes each non-null tag in order |
| RunJobFlowRequestMarshaller.WriteTag | aws-java-sdk-emr/src/main/java/com/amazonaws/services/elasticmapreduce/model/transform/RunJobFlowRequestMarshaller.java:438-448 | a tag is an object with Key and Value, each when non-null |
| RunJobFlowRequestMarshaller.BodyIsOneDocument | aws-java-sdk-emr/src/main/java/com/amazonaws/services/elasticmapreduce/model/transform/RunJobFlowRequestMarshaller.java:62-453 | the writer calls for a request form exactly one complete, balanced JSON document, and reading them back gives the request document |
| RunJobFlowRequestMarshaller.ContentLengthIsByteCount | aws-java-sdk-emr/src/main/java/com/amazonaws/services/elasticmapreduce/model/transform/RunJobFlowRequestMarshaller.java:455-458 | the Content-Length header is a decimal numeral whose value is the number of UTF-8 bytes of the content; that count is between one and four times the character count, and the bytes decode back to the text |
| RunJobFlowJson.RequestKeys | aws-java-sdk-emr/src/main/java/com/amazonaws/services/elasticmapreduce/model/transform/RunJobFlowRequestMarshaller.java:62-453 | the request object's keys are, in this order, Name, LogUri, AdditionalInfo, AmiVersion, ReleaseLabel, Instances, Steps, BootstrapActions, SupportedProducts, NewSupportedProducts, Applications, Configurations, VisibleToAllUsers, JobFlowRole, ServiceRole, Tags, each present exactly when its field is non-null (lists: when the list rule writes them) |
| RunJobFlowJson.RequestKeysDistinct | aws-java-sdk-emr/src/main/java/com/amazonaws/services/elasticmapreduce/model/transform/RunJobFlowRequestMarshaller.java:62-453 | no top-level key is written twice in the request object, whichever members are present |
| RunJobFlowJson.RequestJsonFailure | aws-java-sdk-emr/src/main/java/com/amazonaws/services/elasticmapreduce/model/transform/RunJobFlowRequestMarshaller.java:460-462 | writing a request succeeds exactly when ConfigurationJsonMarshaller succeeds on every configuration the request hands it (`RequestConfigurations`: those of the emitted instance groups, then the emitted top-level ones, nulls skipped); otherwise it fails with the message of the first such configuration in that order |
| RunJobFlowJson.RequestJsonSucceeds | aws-java-sdk-emr/src/main/java/com/amazonaws/services/elasticmapreduce/model/transform/RunJobFlowRequestMarshaller.java:58-462 | when the configuration marshaller never fails, marshalling never fails |
| RunJobFlowJson.ConfigurationsWrittenSucceeds | aws-java-sdk-emr/src/main/java/com/amazonaws/services/elasticmapreduce/model/transform/RunJobFlowRequestMarshaller.java:415-419 | writing a configuration list succeeds exactly when every non-null element succeeds, and then writes one value per non-null element |
| RunJobFlowJson.InstanceGroupJsonSucceeds | aws-java-sdk-emr/src/main/java/com/amazonaws/services/elasticmapreduce/model/transform/RunJobFlowRequestMarshaller.java:101-137 | an instance group fails only through its configurations |
| RunJobFlowJson.InstanceGroupsWrittenSucceeds | aws-java-sdk-emr/src/main/java/com/amazonaws/services/elasticmapreduce/model/transform/RunJobFlowRequestMarshaller.java:101-138 | an instance-group list cannot fail when the configuration marshaller cannot |
| RunJobFlowJson.WrittenSkipsNulls | aws-java-sdk-emr/src/main/java/com/amazonaws/services/elasticmapreduce/model/transform/RunJobFlowRequestMarshaller.java:322-326 | a list writes exactly its non-null elements, in list order, one value each |
| RunJobFlowJson.ListMemberRule | aws-java-sdk-emr/src/main/java/com/amazonaws/services/elasticmapreduce/model/transform/RunJobFlowRequestMarshaller.java:316-328 | a list field is written exactly when it is non-null and not (auto-constructed and empty): a list a getter installed is left out, one set to empty is written as [] |
| RunJobFlowJson.ListMemberIgnoresInstallation | aws-java-sdk-emr/src/main/java/com/amazonaws/services/elasticmapreduce/model/transform/RunJobFlowRequestMarshaller.java:316-317 | installing an empty list through a getter does not change what is written |
| RunJobFlowJson.InfoMembersDropNulls | aws-java-sdk-emr/src/main/java/com/amazonaws/services/elasticmapreduce/model/transform/RunJobFlowRequestMarshaller.java:394-400 | an additional-info entry appears in the body exactly when its value is non-null, and every such member is a string |
| Json.TokensAreDocument | aws-java-sdk-emr/src/main/java/com/amazonaws/services/elasticmapreduce/model/transform/RunJobFlowRequestMarshaller.java:62-453 | the writer calls for any value form one complete document that reads back as that value |
| Json.ParseTokens | aws-java-sdk-emr/src/main/java/com/amazonaws/services/elasticmapreduce/model/transform/RunJobFlowRequestMarshaller.java:62-453 | the writer calls for a value are read back as that value whatever follows them: every object and array begun is ended at its own level |
| JavaLang.HashFoldWrapsOnce | aws-java-sdk-emr/src/main/java/com/amazonaws/services/elasticmapreduce/model/Cluster.java:1013-1035 | accumulating `31 * h + x` in int arithmetic equals the exact polynomial reduced once to 32 bits |
| JavaLang.DigitsRoundTrip | aws-java-sdk-emr/src/main/java/com/amazonaws/services/elasticmapreduce/model/transform/RunJobFlowRequestMarshaller.java:458-458 | Integer.toString of a length reads back as that length |
| JavaLang.Utf8RoundTrip | aws-java-sdk-emr/src/main/java/com/amazonaws/services/elasticmapreduce/model/transform/RunJobFlowRequestMarshaller.java:456-456 | String.getBytes(UTF8) loses nothing: decoding the bytes gives the string back |
| JavaLang.Utf8Length | aws-java-sdk-emr/src/main/java/com/amazonaws/services/elasticmapreduce/model/transform/RunJobFlowRequestMarshaller.java:456-458 | the UTF-8 byte count is between the character count and four times it, and equals it exactly when every character is ASCII |
| JavaLang.Utf8Append | aws-java-sdk-emr/src/main/java/com/amazonaws/services/elasticmapreduce/model/transform/RunJobFlowRequestMarshaller.java:455-456 | the UTF-8 encoding of a concatenation is the concatenation of the encodings |
| JavaLang.Utf16Length | aws-java-sdk-emr/src/main/java/com/amazonaws/services/elasticmapreduce/model/Cluster.java:1017-1017 | String.hashCode() runs over UTF-16 units: at least one and at most two per character, one exactly for characters of the basic plane |
| ModelSupport.NullAwareEquals | aws-java-sdk-emr/src/main/java/com/amazonaws/services/elasticmapreduce/model/Cluster.java:1045-1046 | the `== null ^ == null` test followed by equals() is plain equality of nullable values |
| ModelSupport.AppendEntry | aws-java-sdk-emr/src/main/java/com/amazonaws/services/elasticmapreduce/model/Cluster.java:991-991 | one `if (field != null) sb.append(label + ": " + field + ",")` step extends the buffer by exactly that field's entry, and by nothing for null |
| ModelSupport.AppendLastEntry | aws-java-sdk-emr/src/main/java/com/amazonaws/services/elasticmapreduce/model/Cluster.java:1007-1007 | the step for the last field extends the buffer by its entry without a comma, and by nothing for null |
| AutoLists.InstalledIsStable | aws-java-sdk-emr/src/main/java/com/amazonaws/services/elasticmapreduce/model/Cluster.java:622-628 | a getter installs an empty auto-constructed list only on a null field, and a second call changes nothing |
| AutoLists.AppendedKeepsPrefix | aws-java-sdk-emr/src/main/java/com/amazonaws/services/elasticmapreduce/model/Cluster.java:660-666 | the varargs with… keeps the existing elements and appends exactly the values, in order |
| AutoLists.ReadOnlyDroppedExplicitEmptyKept | aws-java-sdk-emr/src/main/java/com/amazonaws/services/elasticmapreduce/model/transform/RunJobFlowRequestMarshaller.java:409-410 | a list only read through its getter is not written; one explicitly set to empty is; one built by appending is written exactly when something was appended |
| AutoLists.ListTextIteratesInOrder | aws-java-sdk-emr/src/main/java/com/amazonaws/services/elasticmapreduce/model/Cluster.java:1002-1002 | the text toString() shows for a list is "[", the first element's text ("null" for a null element), then ", " and each further element's text front to back, then "]" (`[]` when empty), as the list's own toString() iterates it |
| AutoLists.NonNullAppend | aws-java-sdk-emr/src/main/java/com/amazonaws/services/elasticmapreduce/model/transform/RunJobFlowRequestMarshaller.java:415-419 | skipping nulls distributes over concatenation |
| AutoLists.NonNullMembers | aws-java-sdk-emr/src/main/java/com/amazonaws/services/elasticmapreduce/model/transform/RunJobFlowRequestMarshaller.java:415-419 | an element survives null-skipping exactly when it is present in the list |

## Left out

- The IAM waiters and any concurrency: not part of these classes' behaviour.
- JSONWriter's text rendering, string escaping and its own state checks: the text is the parameter `render` of `Marshall`. Only the order and nesting of the writer calls is modelled.
- ConfigurationJsonMarshaller: it is the parameter `conf`. A configuration's JSON is whatever `conf` returns.
- Exceptions other than a failure reported by `conf` (for example a null dereference inside the writer), and a null exception message: a failure is modelled as a string.
- Null keys in an application's AdditionalInfo map: the map is a sequence of entries with distinct, non-null keys.
- A null varargs array passed to a varargs `with…` method, which throws in Java: varargs arguments are a sequence.
- A null `InstanceType` enum passed to `SpotFleetLaunchSpecification.setInstanceType(InstanceType)`, which throws in Java: the enum argument is non-null.
- Aliasing: the lists a getter returns and the lists `clone()` shares are values here, so a later change made through a returned list or through a clone is not modelled.
- `clone()`'s `CloneNotSupportedException` branch, which cannot be reached for these `Cloneable` classes.
- Unpaired UTF-16 surrogates: characters are code points, and the UTF-8 encoding is defined for those only.
- EmrCluster.EqualClustersHashAndPrintAlike: equal `Opaque` values have equal texts by construction. In Java, two `Application` or `Configuration` objects whose maps hold the same entries in a different iteration order are equal but print differently. Such pairs are not modelled, so the toString() half of this lemma holds only for the model.
- Nested model classes (ClusterStatus, Ec2InstanceAttributes, Application, Tag, Configuration, GroupIdentifier, SpotPlacement, IamInstanceProfileSpecification, BlockDeviceMapping, InstanceNetworkInterfaceSpecification, SpotFleetMonitoring): each is an `Opaque` value carrying the results of its own `hashCode()` and `toString()`.
- RunJobFlowRequestMarshaller.Marshall: the request is a value, so the empty lists that the request's getters install on the request object are not modelled. What is written does not depend on them (`ListMemberIgnoresInstallation`).
- `Serializable`, the HTTP transport, and the `DefaultRequest` fields that `marshall` leaves at their defaults.
- The Content-Length value is the decimal text of the body length as an unbounded integer. Java bounds it by the largest array size.

/** The part of a RunJobFlow request that its marshaller reads: the request and the model
    classes nested in it, as values. Every field is nullable (None is null); list fields
    follow the auto-construct discipline of AutoLists. Only the getters the marshaller calls
    are represented, in the order it calls them. */
module RunJobFlowRequestModel {

  import opened Wrappers
  import opened JavaLang
  import opened AutoLists
  import opened Opaques

  /** A Configuration, written by ConfigurationJsonMarshaller, which this model does not look
      into. */
  type Configuration = Opaque

  datatype RunJobFlowRequest = RunJobFlowRequest(
    name: Option<string>,
    logUri: Option<string>,
    additionalInfo: Option<string>,
    amiVersion: Option<string>,
    releaseLabel: Option<string>,
    instances: Option<JobFlowInstancesConfig>,
    steps: Option<AutoList<StepConfig>>,
    bootstrapActions: Option<AutoList<BootstrapActionConfig>>,
    supportedProducts: Option<AutoList<string>>,
    newSupportedProducts: Option<AutoList<SupportedProductConfig>>,
    applications: Option<AutoList<Application>>,
    configurations: Option<AutoList<Configuration>>,
    visibleToAllUsers: Option<bool>,
    jobFlowRole: Option<string>,
    serviceRole: Option<string>,
    tags: Option<AutoList<Tag>>)

  datatype JobFlowInstancesConfig = JobFlowInstancesConfig(
    masterInstanceType: Option<string>,
    slaveInstanceType: Option<string>,
    instanceCount: Option<Int32>,
    instanceGroups: Option<AutoList<InstanceGroupConfig>>,
    ec2KeyName: Option<string>,
    placement: Option<PlacementType>,
    keepJobFlowAliveWhenNoSteps: Option<bool>,
    terminationProtected: Option<bool>,
    hadoopVersion: Option<string>,
    ec2SubnetId: Option<string>,
    emrManagedMasterSecurityGroup: Option<string>,
    emrManagedSlaveSecurityGroup: Option<string>,
    additionalMasterSecurityGroups: Option<AutoList<string>>,
    additionalSlaveSecurityGroups: Option<AutoList<string>>)

  datatype InstanceGroupConfig = InstanceGroupConfig(
    name: Option<string>,
    market: Option<string>,
    instanceRole: Option<string>,
    bidPrice: Option<string>,
    instanceType: Option<string>,
    instanceCount: Option<Int32>,
    configurations: Option<AutoList<Configuration>>)

  datatype PlacementType = PlacementType(availabilityZone: Option<string>)

  datatype StepConfig = StepConfig(
    name: Option<string>,
    actionOnFailure: Option<string>,
    hadoopJarStep: Option<HadoopJarStepConfig>)

  datatype HadoopJarStepConfig = HadoopJarStepConfig(
    properties: Option<AutoList<KeyValue>>,
    jar: Option<string>,
    mainClass: Option<string>,
    args: Option<AutoList<string>>)

  datatype KeyValue = KeyValue(key: Option<string>, value: Option<string>)

  datatype BootstrapActionConfig = BootstrapActionConfig(
    name: Option<string>,
    scriptBootstrapAction: Option<ScriptBootstrapActionConfig>)

  datatype ScriptBootstrapActionConfig = ScriptBootstrapActionConfig(
    path: Option<string>,
    args: Option<AutoList<string>>)

  datatype SupportedProductConfig = SupportedProductConfig(
    name: Option<string>,
    args: Option<AutoList<string>>)

  /** No key occurs twice. */
  predicate DistinctKeys(entries: seq<(string, Option<string>)>)
  {
    forall i, j :: 0 <= i < j < |entries| ==> entries[i].0 != entries[j].0
  }

  /** A Map<String, String> as its entry set iterates: keys are distinct, values may be
      null. */
  type StringMap = entries: seq<(string, Option<string>)> | DistinctKeys(entries) witness []

  datatype Application = Application(
    name: Option<string>,
    version: Option<string>,
    args: Option<AutoList<string>>,
    additionalInfo: Option<StringMap>)

  datatype Tag = Tag(key: Option<string>, value: Option<string>)
}

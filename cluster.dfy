/** The EMR model class Cluster: seventeen nullable fields, three of which (applications,
    tags, configurations) are lists under the auto-construct discipline, with the
    generated accessors, hashCode(), equals() and toString(). */
module EmrCluster {

  import opened Wrappers
  import opened JavaLang
  import opened AutoLists
  import opened Opaques
  import opened ModelSupport

  // Nested model classes this model does not look into.
  type ClusterStatus = Opaque
  type Ec2InstanceAttributes = Opaque
  type Application = Opaque
  type Tag = Opaque
  type Configuration = Opaque

  /** The values of a Cluster's fields, in declaration order; None is null. */
  datatype ClusterState = ClusterState(
    id: Option<string>,
    name: Option<string>,
    status: Option<ClusterStatus>,
    ec2InstanceAttributes: Option<Ec2InstanceAttributes>,
    logUri: Option<string>,
    requestedAmiVersion: Option<string>,
    runningAmiVersion: Option<string>,
    releaseLabel: Option<string>,
    autoTerminate: Option<bool>,
    terminationProtected: Option<bool>,
    visibleToAllUsers: Option<bool>,
    applications: Option<AutoList<Application>>,
    tags: Option<AutoList<Tag>>,
    serviceRole: Option<string>,
    normalizedInstanceHours: Option<Int32>,
    masterPublicDnsName: Option<string>,
    configurations: Option<AutoList<Configuration>>)

  /** The state of `new Cluster()`: every field null. */
  function NullState(): ClusterState
  {
    ClusterState(None, None, None, None, None, None, None, None, None, None, None, None, None, None, None, None, None)
  }

  /** The state once every list getter has run: each null list field holds an empty
      list flagged auto-constructed. */
  function ListsInstalled(s: ClusterState): ClusterState
  {
    s.(applications := Some(Installed(s.applications)), tags := Some(Installed(s.tags)), configurations := Some(Installed(s.configurations)))
  }

  /** `after` differs from `before` at most in list fields that a getter installed. */
  predicate OnlyListsInstalled(before: ClusterState, after: ClusterState)
  {
    && after.(applications := before.applications, tags := before.tags, configurations := before.configurations) == before
    && (after.applications == before.applications || after.applications == Some(Installed(before.applications)))
    && (after.tags == before.tags || after.tags == Some(Installed(before.tags)))
    && (after.configurations == before.configurations || after.configurations == Some(Installed(before.configurations)))
  }

  /** The terms hashCode() accumulates, one per field in declaration order. */
  function FieldHashes(s: ClusterState): seq<Int32>
  {
    // one single-term sequence per field, joined in order
    [NullableHash(s.id, StringHash)]
    + [NullableHash(s.name, StringHash)]
    + [NullableHash(s.status, HashOf)]
    + [NullableHash(s.ec2InstanceAttributes, HashOf)]
    + [NullableHash(s.logUri, StringHash)]
    + [NullableHash(s.requestedAmiVersion, StringHash)]
    + [NullableHash(s.runningAmiVersion, StringHash)]
    + [NullableHash(s.releaseLabel, StringHash)]
    + [NullableHash(s.autoTerminate, BooleanHash)]
    + [NullableHash(s.terminationProtected, BooleanHash)]
    + [NullableHash(s.visibleToAllUsers, BooleanHash)]
    + [ListFieldHash(s.applications, HashOf)]
    + [ListFieldHash(s.tags, HashOf)]
    + [NullableHash(s.serviceRole, StringHash)]
    + [NullableHash(s.normalizedInstanceHours, IntegerHash)]
    + [NullableHash(s.masterPublicDnsName, StringHash)]
    + [ListFieldHash(s.configurations, HashOf)]
  }

  /** Cluster.hashCode() as a function of the state before the call: the accumulation
      `h = 31 * h + term` from 1 over the field terms, taken once the list getters have
      installed their lists. */
  function ClusterHash(s: ClusterState): Int32
  {
    HashFold(1, FieldHashes(ListsInstalled(s)))
  }

  /** Cluster.equals() between two distinct Clusters: every pair of fields is null on both
      sides or equal, lists compared element by element, a null list reading as the
      empty list its getter installs. */
  predicate ClusterEquals(a: ClusterState, b: ClusterState)
  {
    a.id == b.id
    && a.name == b.name
    && a.status == b.status
    && a.ec2InstanceAttributes == b.ec2InstanceAttributes
    && a.logUri == b.logUri
    && a.requestedAmiVersion == b.requestedAmiVersion
    && a.runningAmiVersion == b.runningAmiVersion
    && a.releaseLabel == b.releaseLabel
    && a.autoTerminate == b.autoTerminate
    && a.terminationProtected == b.terminationProtected
    && a.visibleToAllUsers == b.visibleToAllUsers
    && Installed(a.applications).elems == Installed(b.applications).elems
    && Installed(a.tags).elems == Installed(b.tags).elems
    && a.serviceRole == b.serviceRole
    && a.normalizedInstanceHours == b.normalizedInstanceHours
    && a.masterPublicDnsName == b.masterPublicDnsName
    && Installed(a.configurations).elems == Installed(b.configurations).elems
  }

  /** Cluster.toString() as a function of the state before the call: "{", then
      `Label: text,` for each non-null field in declaration order (the last one without
      the comma), then "}". */
  function ClusterText(s: ClusterState): string
  {
    var t := ListsInstalled(s);
    "{"
    + Entry("Id", t.id)
    + Entry("Name", t.name)
    + Entry("Status", MapOption(t.status, TextOf))
    + Entry("Ec2InstanceAttributes", MapOption(t.ec2InstanceAttributes, TextOf))
    + Entry("LogUri", t.logUri)
    + Entry("RequestedAmiVersion", t.requestedAmiVersion)
    + Entry("RunningAmiVersion", t.runningAmiVersion)
    + Entry("ReleaseLabel", t.releaseLabel)
    + Entry("AutoTerminate", MapOption(t.autoTerminate, BooleanText))
    + Entry("TerminationProtected", MapOption(t.terminationProtected, BooleanText))
    + Entry("VisibleToAllUsers", MapOption(t.visibleToAllUsers, BooleanText))
    + Entry("Applications", ListFieldText(t.applications, TextOf))
    + Entry("Tags", ListFieldText(t.tags, TextOf))
    + Entry("ServiceRole", t.serviceRole)
    + Entry("NormalizedInstanceHours", MapOption(t.normalizedInstanceHours, IntegerText))
    + Entry("MasterPublicDnsName", t.masterPublicDnsName)
    + LastEntry("Configurations", ListFieldText(t.configurations, TextOf))
    + "}"
  }

  /** The accumulation over the field terms, written out one step per field as
      hashCode() performs it. */
  lemma {:induction false} ClusterHashSteps(s: ClusterState)
    ensures HashFold(1, FieldHashes(s)) ==
      HashStep(HashStep(HashStep(HashStep(HashStep(HashStep(HashStep(HashStep(HashStep(HashStep(HashStep(HashStep(HashStep(HashStep(HashStep(HashStep(HashStep(1, NullableHash(s.id, StringHash)), NullableHash(s.name, StringHash)), NullableHash(s.status, HashOf)), NullableHash(s.ec2InstanceAttributes, HashOf)), NullableHash(s.logUri, StringHash)), NullableHash(s.requestedAmiVersion, StringHash)), NullableHash(s.runningAmiVersion, StringHash)), NullableHash(s.releaseLabel, StringHash)), NullableHash(s.autoTerminate, BooleanHash)), NullableHash(s.terminationProtected, BooleanHash)), NullableHash(s.visibleToAllUsers, BooleanHash)), ListFieldHash(s.applications, HashOf)), ListFieldHash(s.tags, HashOf)), NullableHash(s.serviceRole, StringHash)), NullableHash(s.normalizedInstanceHours, IntegerHash)), NullableHash(s.masterPublicDnsName, StringHash)), ListFieldHash(s.configurations, HashOf))
  {
    var terms: seq<Int32> := [];
    assert [] + [NullableHash(s.id, StringHash)] == [NullableHash(s.id, StringHash)];
    HashFoldStep(1, terms, NullableHash(s.id, StringHash));
    terms := terms + [NullableHash(s.id, StringHash)];
    HashFoldStep(1, terms, NullableHash(s.name, StringHash));
    terms := terms + [NullableHash(s.name, StringHash)];
    HashFoldStep(1, terms, NullableHash(s.status, HashOf));
    terms := terms + [NullableHash(s.status, HashOf)];
    HashFoldStep(1, terms, NullableHash(s.ec2InstanceAttributes, HashOf));
    terms := terms + [NullableHash(s.ec2InstanceAttributes, HashOf)];
    HashFoldStep(1, terms, NullableHash(s.logUri, StringHash));
    terms := terms + [NullableHash(s.logUri, StringHash)];
    HashFoldStep(1, terms, NullableHash(s.requestedAmiVersion, StringHash));
    terms := terms + [NullableHash(s.requestedAmiVersion, StringHash)];
    HashFoldStep(1, terms, NullableHash(s.runningAmiVersion, StringHash));
    terms := terms + [NullableHash(s.runningAmiVersion, StringHash)];
    HashFoldStep(1, terms, NullableHash(s.releaseLabel, StringHash));
    terms := terms + [NullableHash(s.releaseLabel, StringHash)];
    HashFoldStep(1, terms, NullableHash(s.autoTerminate, BooleanHash));
    terms := terms + [NullableHash(s.autoTerminate, BooleanHash)];
    HashFoldStep(1, terms, NullableHash(s.terminationProtected, BooleanHash));
    terms := terms + [NullableHash(s.terminationProtected, BooleanHash)];
    HashFoldStep(1, terms, NullableHash(s.visibleToAllUsers, BooleanHash));
    terms := terms + [NullableHash(s.visibleToAllUsers, BooleanHash)];
    HashFoldStep(1, terms, ListFieldHash(s.applications, HashOf));
    terms := terms + [ListFieldHash(s.applications, HashOf)];
    HashFoldStep(1, terms, ListFieldHash(s.tags, HashOf));
    terms := terms + [ListFieldHash(s.tags, HashOf)];
    HashFoldStep(1, terms, NullableHash(s.serviceRole, StringHash));
    terms := terms + [NullableHash(s.serviceRole, StringHash)];
    HashFoldStep(1, terms, NullableHash(s.normalizedInstanceHours, IntegerHash));
    terms := terms + [NullableHash(s.normalizedInstanceHours, IntegerHash)];
    HashFoldStep(1, terms, NullableHash(s.masterPublicDnsName, StringHash));
    terms := terms + [NullableHash(s.masterPublicDnsName, StringHash)];
    HashFoldStep(1, terms, ListFieldHash(s.configurations, HashOf));
    terms := terms + [ListFieldHash(s.configurations, HashOf)];
    assert terms == FieldHashes(s);
  }

  /** equals() is an equivalence on distinct objects: reflexive, symmetric, transitive. */
  lemma ClusterEqualsIsEquivalence(a: ClusterState, b: ClusterState, c: ClusterState)
    ensures ClusterEquals(a, a)
    ensures ClusterEquals(a, b) ==> ClusterEquals(b, a)
    ensures ClusterEquals(a, b) && ClusterEquals(b, c) ==> ClusterEquals(a, c)
  {
  }

  /** The equals/hashCode contract: equal clusters have the same hash code, and they also
      print the same text. */
  lemma {:induction false} EqualClustersHashAndPrintAlike(a: ClusterState, b: ClusterState)
    requires ClusterEquals(a, b)
    ensures ClusterHash(a) == ClusterHash(b)
    ensures ClusterText(a) == ClusterText(b)
  {
    var ta, tb := ListsInstalled(a), ListsInstalled(b);
    assert FieldHashes(ta) == FieldHashes(tb);
  }

  /** hashCode() and toString() install the null lists, and that does not change what a
      second call computes. */
  lemma RepeatedCallsAgree(s: ClusterState)
    ensures ListsInstalled(ListsInstalled(s)) == ListsInstalled(s)
    ensures ClusterHash(ListsInstalled(s)) == ClusterHash(s)
    ensures ClusterText(ListsInstalled(s)) == ClusterText(s)
  {
  }

  /** A null list and an explicitly empty list are indistinguishable to equals(),
      hashCode() and toString(); only the marshallers tell them apart, writing the explicit
      one and dropping the one a getter installed. */
  lemma NullAndEmptyApplicationsDiffer(s: ClusterState)
    requires s.applications.None?
    ensures var e := s.(applications := CopyOf(Some([])));
      && ClusterEquals(s, e)
      && ClusterHash(s) == ClusterHash(e)
      && ClusterText(s) == ClusterText(e)
      && !Emitted(ListsInstalled(s).applications)
      && Emitted(ListsInstalled(e).applications)
  {
    EqualClustersHashAndPrintAlike(s, s.(applications := CopyOf(Some([]))));
  }

  /** toString() always lists the configurations (the getter never returns null), last,
      and with no comma after them. */
  lemma {:induction false} ClusterTextEndsWithConfigurations(s: ClusterState)
    ensures var t := ClusterText(s);
      var tail := "Configurations: " + ListText(Installed(s.configurations).elems, TextOf) + "}";
      |tail| <= |t| && t[0] == '{' && t[|t| - |tail|..] == tail
  {
    var t := ClusterText(s);
    var u := ListsInstalled(s);
    var tail := "Configurations: " + ListText(Installed(s.configurations).elems, TextOf) + "}";
    var last := LastEntry("Configurations", ListFieldText(u.configurations, TextOf));
    var before := "{" + Entry("Id", u.id) + Entry("Name", u.name) + Entry("Status", MapOption(u.status, TextOf)) + Entry("Ec2InstanceAttributes", MapOption(u.ec2InstanceAttributes, TextOf)) + Entry("LogUri", u.logUri) + Entry("RequestedAmiVersion", u.requestedAmiVersion) + Entry("RunningAmiVersion", u.runningAmiVersion) + Entry("ReleaseLabel", u.releaseLabel) + Entry("AutoTerminate", MapOption(u.autoTerminate, BooleanText)) + Entry("TerminationProtected", MapOption(u.terminationProtected, BooleanText)) + Entry("VisibleToAllUsers", MapOption(u.visibleToAllUsers, BooleanText)) + Entry("Applications", ListFieldText(u.applications, TextOf)) + Entry("Tags", ListFieldText(u.tags, TextOf)) + Entry("ServiceRole", u.serviceRole) + Entry("NormalizedInstanceHours", MapOption(u.normalizedInstanceHours, IntegerText)) + Entry("MasterPublicDnsName", u.masterPublicDnsName);
    assert t == before + last + "}";
    assert last + "}" == tail;
    assert t == before + tail;
    assert t[|t| - |tail|..] == tail;
  }

  /** A Cluster object. Every setter and with… method changes its own field only; list
      getters install a list on first use; hashCode(), equals() and toString() read the
      fields through the getters and so install lists too. */
  class Cluster {
    var id: Option<string>
    var name: Option<string>
    var status: Option<ClusterStatus>
    var ec2InstanceAttributes: Option<Ec2InstanceAttributes>
    var logUri: Option<string>
    var requestedAmiVersion: Option<string>
    var runningAmiVersion: Option<string>
    var releaseLabel: Option<string>
    var autoTerminate: Option<bool>
    var terminationProtected: Option<bool>
    var visibleToAllUsers: Option<bool>
    var applications: Option<AutoList<Application>>
    var tags: Option<AutoList<Tag>>
    var serviceRole: Option<string>
    var normalizedInstanceHours: Option<Int32>
    var masterPublicDnsName: Option<string>
    var configurations: Option<AutoList<Configuration>>

    /** The field values, in declaration order. */
    function State(): ClusterState
      reads this
    {
      ClusterState(id, name, status, ec2InstanceAttributes, logUri, requestedAmiVersion, runningAmiVersion, releaseLabel, autoTerminate, terminationProtected, visibleToAllUsers, applications, tags, serviceRole, normalizedInstanceHours, masterPublicDnsName, configurations)
    }

    /** The field-by-field copy clone() makes. */
    constructor Copy(s: ClusterState)
      ensures State() == s
    {
      id := s.id;
      name := s.name;
      status := s.status;
      ec2InstanceAttributes := s.ec2InstanceAttributes;
      logUri := s.logUri;
      requestedAmiVersion := s.requestedAmiVersion;
      runningAmiVersion := s.runningAmiVersion;
      releaseLabel := s.releaseLabel;
      autoTerminate := s.autoTerminate;
      terminationProtected := s.terminationProtected;
      visibleToAllUsers := s.visibleToAllUsers;
      applications := s.applications;
      tags := s.tags;
      serviceRole := s.serviceRole;
      normalizedInstanceHours := s.normalizedInstanceHours;
      masterPublicDnsName := s.masterPublicDnsName;
      configurations := s.configurations;
    }

    /** `new Cluster()`: every field null. */
    constructor ()
      ensures State() == NullState()
    {
      id := None;
      name := None;
      status := None;
      ec2InstanceAttributes := None;
      logUri := None;
      requestedAmiVersion := None;
      runningAmiVersion := None;
      releaseLabel := None;
      autoTerminate := None;
      terminationProtected := None;
      visibleToAllUsers := None;
      applications := None;
      tags := None;
      serviceRole := None;
      normalizedInstanceHours := None;
      masterPublicDnsName := None;
      configurations := None;
    }

    function GetId(): Option<string>
      reads this
    {
      id
    }

    method SetId(id: Option<string>)
      modifies this
      ensures State() == old(State()).(id := id)
      ensures GetId() == id
    {
      this.id := id;
    }

    method WithId(id: Option<string>) returns (r: Cluster)
      modifies this
      ensures r == this
      ensures State() == old(State()).(id := id)
      ensures GetId() == id
    {
      this.id := id;
      r := this;
    }

    function GetName(): Option<string>
      reads this
    {
      name
    }

    method SetName(name: Option<string>)
      modifies this
      ensures State() == old(State()).(name := name)
      ensures GetName() == name
    {
      this.name := name;
    }

    method WithName(name: Option<string>) returns (r: Cluster)
      modifies this
      ensures r == this
      ensures State() == old(State()).(name := name)
      ensures GetName() == name
    {
      this.name := name;
      r := this;
    }

    function GetStatus(): Option<ClusterStatus>
      reads this
    {
      status
    }

    method SetStatus(status: Option<ClusterStatus>)
      modifies this
      ensures State() == old(State()).(status := status)
      ensures GetStatus() == status
    {
      this.status := status;
    }

    method WithStatus(status: Option<ClusterStatus>) returns (r: Cluster)
      modifies this
      ensures r == this
      ensures State() == old(State()).(status := status)
      ensures GetStatus() == status
    {
      this.status := status;
      r := this;
    }

    function GetEc2InstanceAttributes(): Option<Ec2InstanceAttributes>
      reads this
    {
      ec2InstanceAttributes
    }

    method SetEc2InstanceAttributes(ec2InstanceAttributes: Option<Ec2InstanceAttributes>)
      modifies this
      ensures State() == old(State()).(ec2InstanceAttributes := ec2InstanceAttributes)
      ensures GetEc2InstanceAttributes() == ec2InstanceAttributes
    {
      this.ec2InstanceAttributes := ec2InstanceAttributes;
    }

    method WithEc2InstanceAttributes(ec2InstanceAttributes: Option<Ec2InstanceAttributes>) returns (r: Cluster)
      modifies this
      ensures r == this
      ensures State() == old(State()).(ec2InstanceAttributes := ec2InstanceAttributes)
      ensures GetEc2InstanceAttributes() == ec2InstanceAttributes
    {
      this.ec2InstanceAttributes := ec2InstanceAttributes;
      r := this;
    }

    function GetLogUri(): Option<string>
      reads this
    {
      logUri
    }

    method SetLogUri(logUri: Option<string>)
      modifies this
      ensures State() == old(State()).(logUri := logUri)
      ensures GetLogUri() == logUri
    {
      this.logUri := logUri;
    }

    method WithLogUri(logUri: Option<string>) returns (r: Cluster)
      modifies this
      ensures r == this
      ensures State() == old(State()).(logUri := logUri)
      ensures GetLogUri() == logUri
    {
      this.logUri := logUri;
      r := this;
    }

    function GetRequestedAmiVersion(): Option<string>
      reads this
    {
      requestedAmiVersion
    }

    method SetRequestedAmiVersion(requestedAmiVersion: Option<string>)
      modifies this
      ensures State() == old(State()).(requestedAmiVersion := requestedAmiVersion)
      ensures GetRequestedAmiVersion() == requestedAmiVersion
    {
      this.requestedAmiVersion := requestedAmiVersion;
    }

    method WithRequestedAmiVersion(requestedAmiVersion: Option<string>) returns (r: Cluster)
      modifies this
      ensures r == this
      ensures State() == old(State()).(requestedAmiVersion := requestedAmiVersion)
      ensures GetRequestedAmiVersion() == requestedAmiVersion
    {
      this.requestedAmiVersion := requestedAmiVersion;
      r := this;
    }

    function GetRunningAmiVersion(): Option<string>
      reads this
    {
      runningAmiVersion
    }

    method SetRunningAmiVersion(runningAmiVersion: Option<string>)
      modifies this
      ensures State() == old(State()).(runningAmiVersion := runningAmiVersion)
      ensures GetRunningAmiVersion() == runningAmiVersion
    {
      this.runningAmiVersion := runningAmiVersion;
    }

    method WithRunningAmiVersion(runningAmiVersion: Option<string>) returns (r: Cluster)
      modifies this
      ensures r == this
      ensures State() == old(State()).(runningAmiVersion := runningAmiVersion)
      ensures GetRunningAmiVersion() == runningAmiVersion
    {
      this.runningAmiVersion := runningAmiVersion;
      r := this;
    }

    function GetReleaseLabel(): Option<string>
      reads this
    {
      releaseLabel
    }

    method SetReleaseLabel(releaseLabel: Option<string>)
      modifies this
      ensures State() == old(State()).(releaseLabel := releaseLabel)
      ensures GetReleaseLabel() == releaseLabel
    {
      this.releaseLabel := releaseLabel;
    }

    method WithReleaseLabel(releaseLabel: Option<string>) returns (r: Cluster)
      modifies this
      ensures r == this
      ensures State() == old(State()).(releaseLabel := releaseLabel)
      ensures GetReleaseLabel() == releaseLabel
    {
      this.releaseLabel := releaseLabel;
      r := this;
    }

    function IsAutoTerminate(): Option<bool>
      reads this
    {
      autoTerminate
    }

    /** getAutoTerminate() reads the same field as isAutoTerminate(). */
    function GetAutoTerminate(): (r: Option<bool>)
      reads this
      ensures r == IsAutoTerminate()
    {
      autoTerminate
    }

    method SetAutoTerminate(autoTerminate: Option<bool>)
      modifies this
      ensures State() == old(State()).(autoTerminate := autoTerminate)
      ensures GetAutoTerminate() == autoTerminate
    {
      this.autoTerminate := autoTerminate;
    }

    method WithAutoTerminate(autoTerminate: Option<bool>) returns (r: Cluster)
      modifies this
      ensures r == this
      ensures State() == old(State()).(autoTerminate := autoTerminate)
      ensures GetAutoTerminate() == autoTerminate
    {
      this.autoTerminate := autoTerminate;
      r := this;
    }

    function IsTerminationProtected(): Option<bool>
      reads this
    {
      terminationProtected
    }

    /** getTerminationProtected() reads the same field as isTerminationProtected(). */
    function GetTerminationProtected(): (r: Option<bool>)
      reads this
      ensures r == IsTerminationProtected()
    {
      terminationProtected
    }

    method SetTerminationProtected(terminationProtected: Option<bool>)
      modifies this
      ensures State() == old(State()).(terminationProtected := terminationProtected)
      ensures GetTerminationProtected() == terminationProtected
    {
      this.terminationProtected := terminationProtected;
    }

    method WithTerminationProtected(terminationProtected: Option<bool>) returns (r: Cluster)
      modifies this
      ensures r == this
      ensures State() == old(State()).(terminationProtected := terminationProtected)
      ensures GetTerminationProtected() == terminationProtected
    {
      this.terminationProtected := terminationProtected;
      r := this;
    }

    function IsVisibleToAllUsers(): Option<bool>
      reads this
    {
      visibleToAllUsers
    }

    /** getVisibleToAllUsers() reads the same field as isVisibleToAllUsers(). */
    function GetVisibleToAllUsers(): (r: Option<bool>)
      reads this
      ensures r == IsVisibleToAllUsers()
    {
      visibleToAllUsers
    }

    method SetVisibleToAllUsers(visibleToAllUsers: Option<bool>)
      modifies this
      ensures State() == old(State()).(visibleToAllUsers := visibleToAllUsers)
      ensures GetVisibleToAllUsers() == visibleToAllUsers
    {
      this.visibleToAllUsers := visibleToAllUsers;
    }

    method WithVisibleToAllUsers(visibleToAllUsers: Option<bool>) returns (r: Cluster)
      modifies this
      ensures r == this
      ensures State() == old(State()).(visibleToAllUsers := visibleToAllUsers)
      ensures GetVisibleToAllUsers() == visibleToAllUsers
    {
      this.visibleToAllUsers := visibleToAllUsers;
      r := this;
    }

    /** getApplications(): never null; a null field first receives an empty list flagged
        auto-constructed, and later calls return that same list. */
    method GetApplications() returns (r: AutoList<Application>)
      modifies this
      ensures r == Installed(old(applications))
      ensures State() == old(State()).(applications := Some(r))
      ensures old(applications).Some? ==> unchanged(this)
    {
      if applications.None? {
        applications := Some(AutoList([], true));
      }
      r := applications.value;
    }

    /** setApplications(): null clears the field; otherwise the field gets a copy of the
        argument, in order, with the flag clear. */
    method SetApplications(applications: Option<seq<Option<Application>>>)
      modifies this
      ensures State() == old(State()).(applications := CopyOf(applications))
    {
      if applications.None? {
        this.applications := None;
        return;
      }
      var applicationsCopy := AutoList(applications.value, false);
      this.applications := Some(applicationsCopy);
    }

    /** The varargs withApplications(): appends the values, in order, to the list the getter
        returns; nothing already there is replaced. */
    method WithApplications(values: seq<Option<Application>>) returns (r: Cluster)
      modifies this
      ensures r == this
      ensures State() == old(State()).(applications := Some(Appended(old(applications), values)))
    {
      // The getter never returns null, so the source's setApplications(new ArrayList(...))
      // branch is never taken; the call itself installs the list.
      var installed := GetApplications();
      assert installed.elems + values[..0] == installed.elems;
      var i := 0;
      while i < |values|
        invariant 0 <= i <= |values|
        invariant State() == old(State()).(applications := Some(Appended(old(applications), values[..i])))
      {
        var list := GetApplications();
        assert list == Appended(old(applications), values[..i]);
        applications := Some(list.(elems := list.elems + [values[i]]));
        assert values[..i + 1] == values[..i] + [values[i]];
        assert Installed(old(applications)).elems + values[..i + 1] == list.elems + [values[i]];
        i := i + 1;
      }
      assert values[..i] == values;
      r := this;
    }

    /** The collection withApplications(): replaces the list by a copy of the argument, or
        clears it on null, like setApplications(). */
    method WithApplicationsCollection(applications: Option<seq<Option<Application>>>) returns (r: Cluster)
      modifies this
      ensures r == this
      ensures State() == old(State()).(applications := CopyOf(applications))
    {
      if applications.None? {
        this.applications := None;
      } else {
        var applicationsCopy := AutoList(applications.value, false);
        this.applications := Some(applicationsCopy);
      }
      r := this;
    }

    /** getTags(): never null; a null field first receives an empty list flagged
        auto-constructed, and later calls return that same list. */
    method GetTags() returns (r: AutoList<Tag>)
      modifies this
      ensures r == Installed(old(tags))
      ensures State() == old(State()).(tags := Some(r))
      ensures old(tags).Some? ==> unchanged(this)
    {
      if tags.None? {
        tags := Some(AutoList([], true));
      }
      r := tags.value;
    }

    /** setTags(): null clears the field; otherwise the field gets a copy of the
        argument, in order, with the flag clear. */
    method SetTags(tags: Option<seq<Option<Tag>>>)
      modifies this
      ensures State() == old(State()).(tags := CopyOf(tags))
    {
      if tags.None? {
        this.tags := None;
        return;
      }
      var tagsCopy := AutoList(tags.value, false);
      this.tags := Some(tagsCopy);
    }

    /** The varargs withTags(): appends the values, in order, to the list the getter
        returns; nothing already there is replaced. */
    method WithTags(values: seq<Option<Tag>>) returns (r: Cluster)
      modifies this
      ensures r == this
      ensures State() == old(State()).(tags := Some(Appended(old(tags), values)))
    {
      // The getter never returns null, so the source's setTags(new ArrayList(...))
      // branch is never taken; the call itself installs the list.
      var installed := GetTags();
      assert installed.elems + values[..0] == installed.elems;
      var i := 0;
      while i < |values|
        invariant 0 <= i <= |values|
        invariant State() == old(State()).(tags := Some(Appended(old(tags), values[..i])))
      {
        var list := GetTags();
        assert list == Appended(old(tags), values[..i]);
        tags := Some(list.(elems := list.elems + [values[i]]));
        assert values[..i + 1] == values[..i] + [values[i]];
        assert Installed(old(tags)).elems + values[..i + 1] == list.elems + [values[i]];
        i := i + 1;
      }
      assert values[..i] == values;
      r := this;
    }

    /** The collection withTags(): replaces the list by a copy of the argument, or
        clears it on null, like setTags(). */
    method WithTagsCollection(tags: Option<seq<Option<Tag>>>) returns (r: Cluster)
      modifies this
      ensures r == this
      ensures State() == old(State()).(tags := CopyOf(tags))
    {
      if tags.None? {
        this.tags := None;
      } else {
        var tagsCopy := AutoList(tags.value, false);
        this.tags := Some(tagsCopy);
      }
      r := this;
    }

    function GetServiceRole(): Option<string>
      reads this
    {
      serviceRole
    }

    method SetServiceRole(serviceRole: Option<string>)
      modifies this
      ensures State() == old(State()).(serviceRole := serviceRole)
      ensures GetServiceRole() == serviceRole
    {
      this.serviceRole := serviceRole;
    }

    method WithServiceRole(serviceRole: Option<string>) returns (r: Cluster)
      modifies this
      ensures r == this
      ensures State() == old(State()).(serviceRole := serviceRole)
      ensures GetServiceRole() == serviceRole
    {
      this.serviceRole := serviceRole;
      r := this;
    }

    function GetNormalizedInstanceHours(): Option<Int32>
      reads this
    {
      normalizedInstanceHours
    }

    method SetNormalizedInstanceHours(normalizedInstanceHours: Option<Int32>)
      modifies this
      ensures State() == old(State()).(normalizedInstanceHours := normalizedInstanceHours)
      ensures GetNormalizedInstanceHours() == normalizedInstanceHours
    {
      this.normalizedInstanceHours := normalizedInstanceHours;
    }

    method WithNormalizedInstanceHours(normalizedInstanceHours: Option<Int32>) returns (r: Cluster)
      modifies this
      ensures r == this
      ensures State() == old(State()).(normalizedInstanceHours := normalizedInstanceHours)
      ensures GetNormalizedInstanceHours() == normalizedInstanceHours
    {
      this.normalizedInstanceHours := normalizedInstanceHours;
      r := this;
    }

    function GetMasterPublicDnsName(): Option<string>
      reads this
    {
      masterPublicDnsName
    }

    method SetMasterPublicDnsName(masterPublicDnsName: Option<string>)
      modifies this
      ensures State() == old(State()).(masterPublicDnsName := masterPublicDnsName)
      ensures GetMasterPublicDnsName() == masterPublicDnsName
    {
      this.masterPublicDnsName := masterPublicDnsName;
    }

    method WithMasterPublicDnsName(masterPublicDnsName: Option<string>) returns (r: Cluster)
      modifies this
      ensures r == this
      ensures State() == old(State()).(masterPublicDnsName := masterPublicDnsName)
      ensures GetMasterPublicDnsName() == masterPublicDnsName
    {
      this.masterPublicDnsName := masterPublicDnsName;
      r := this;
    }

    /** getConfigurations(): never null; a null field first receives an empty list flagged
        auto-constructed, and later calls return that same list. */
    method GetConfigurations() returns (r: AutoList<Configuration>)
      modifies this
      ensures r == Installed(old(configurations))
      ensures State() == old(State()).(configurations := Some(r))
      ensures old(configurations).Some? ==> unchanged(this)
    {
      if configurations.None? {
        configurations := Some(AutoList([], true));
      }
      r := configurations.value;
    }

    /** setConfigurations(): null clears the field; otherwise the field gets a copy of the
        argument, in order, with the flag clear. */
    method SetConfigurations(configurations: Option<seq<Option<Configuration>>>)
      modifies this
      ensures State() == old(State()).(configurations := CopyOf(configurations))
    {
      if configurations.None? {
        this.configurations := None;
        return;
      }
      var configurationsCopy := AutoList(configurations.value, false);
      this.configurations := Some(configurationsCopy);
    }

    /** The varargs withConfigurations(): appends the values, in order, to the list the getter
        returns; nothing already there is replaced. */
    method WithConfigurations(values: seq<Option<Configuration>>) returns (r: Cluster)
      modifies this
      ensures r == this
      ensures State() == old(State()).(configurations := Some(Appended(old(configurations), values)))
    {
      // The getter never returns null, so the source's setConfigurations(new ArrayList(...))
      // branch is never taken; the call itself installs the list.
      var installed := GetConfigurations();
      assert installed.elems + values[..0] == installed.elems;
      var i := 0;
      while i < |values|
        invariant 0 <= i <= |values|
        invariant State() == old(State()).(configurations := Some(Appended(old(configurations), values[..i])))
      {
        var list := GetConfigurations();
        assert list == Appended(old(configurations), values[..i]);
        configurations := Some(list.(elems := list.elems + [values[i]]));
        assert values[..i + 1] == values[..i] + [values[i]];
        assert Installed(old(configurations)).elems + values[..i + 1] == list.elems + [values[i]];
        i := i + 1;
      }
      assert values[..i] == values;
      r := this;
    }

    /** The collection withConfigurations(): replaces the list by a copy of the argument, or
        clears it on null, like setConfigurations(). */
    method WithConfigurationsCollection(configurations: Option<seq<Option<Configuration>>>) returns (r: Cluster)
      modifies this
      ensures r == this
      ensures State() == old(State()).(configurations := CopyOf(configurations))
    {
      if configurations.None? {
        this.configurations := None;
      } else {
        var configurationsCopy := AutoList(configurations.value, false);
        this.configurations := Some(configurationsCopy);
      }
      r := this;
    }

    /** toString(): the text ClusterText describes; the list getters it calls install
        the null lists. */
    method ToString() returns (r: string)
      modifies this
      ensures r == ClusterText(old(State()))
      ensures State() == ListsInstalled(old(State()))
    {
      var sb := "{";
      sb := AppendEntry(sb, "Id", id);
      sb := AppendEntry(sb, "Name", name);
      sb := AppendEntry(sb, "Status", MapOption(status, TextOf));
      sb := AppendEntry(sb, "Ec2InstanceAttributes", MapOption(ec2InstanceAttributes, TextOf));
      sb := AppendEntry(sb, "LogUri", logUri);
      sb := AppendEntry(sb, "RequestedAmiVersion", requestedAmiVersion);
      sb := AppendEntry(sb, "RunningAmiVersion", runningAmiVersion);
      sb := AppendEntry(sb, "ReleaseLabel", releaseLabel);
      sb := AppendEntry(sb, "AutoTerminate", MapOption(autoTerminate, BooleanText));
      sb := AppendEntry(sb, "TerminationProtected", MapOption(terminationProtected, BooleanText));
      sb := AppendEntry(sb, "VisibleToAllUsers", MapOption(visibleToAllUsers, BooleanText));
      var applicationsList := GetApplications();  // never null
      sb := AppendEntry(sb, "Applications", Some(ListText(applicationsList.elems, TextOf)));
      var tagsList := GetTags();  // never null
      sb := AppendEntry(sb, "Tags", Some(ListText(tagsList.elems, TextOf)));
      sb := AppendEntry(sb, "ServiceRole", serviceRole);
      sb := AppendEntry(sb, "NormalizedInstanceHours", MapOption(normalizedInstanceHours, IntegerText));
      sb := AppendEntry(sb, "MasterPublicDnsName", masterPublicDnsName);
      var configurationsList := GetConfigurations();  // never null
      sb := AppendLastEntry(sb, "Configurations", Some(ListText(configurationsList.elems, TextOf)));
      sb := sb + "}";
      r := sb;
    }

    /** hashCode(): the accumulation ClusterHash describes, step by step in `int`
        arithmetic; the list getters it calls install the null lists. */
    method HashCode() returns (r: Int32)
      modifies this
      ensures r == ClusterHash(old(State()))
      ensures State() == ListsInstalled(old(State()))
    {
      var hashCode: Int32 := 1;
      hashCode := HashStep(hashCode, NullableHash(id, StringHash));
      hashCode := HashStep(hashCode, NullableHash(name, StringHash));
      hashCode := HashStep(hashCode, NullableHash(status, HashOf));
      hashCode := HashStep(hashCode, NullableHash(ec2InstanceAttributes, HashOf));
      hashCode := HashStep(hashCode, NullableHash(logUri, StringHash));
      hashCode := HashStep(hashCode, NullableHash(requestedAmiVersion, StringHash));
      hashCode := HashStep(hashCode, NullableHash(runningAmiVersion, StringHash));
      hashCode := HashStep(hashCode, NullableHash(releaseLabel, StringHash));
      hashCode := HashStep(hashCode, NullableHash(autoTerminate, BooleanHash));
      hashCode := HashStep(hashCode, NullableHash(terminationProtected, BooleanHash));
      hashCode := HashStep(hashCode, NullableHash(visibleToAllUsers, BooleanHash));
      var applicationsList := GetApplications();  // never null
      hashCode := HashStep(hashCode, ListHash(applicationsList.elems, HashOf));
      var tagsList := GetTags();  // never null
      hashCode := HashStep(hashCode, ListHash(tagsList.elems, HashOf));
      hashCode := HashStep(hashCode, NullableHash(serviceRole, StringHash));
      hashCode := HashStep(hashCode, NullableHash(normalizedInstanceHours, IntegerHash));
      hashCode := HashStep(hashCode, NullableHash(masterPublicDnsName, StringHash));
      var configurationsList := GetConfigurations();  // never null
      hashCode := HashStep(hashCode, ListHash(configurationsList.elems, HashOf));
      ClusterHashSteps(State());
      r := hashCode;
    }

    /** equals(): true for the object itself, false for null and for objects of other
        classes; otherwise the answer ClusterEquals gives. Fields are compared in
        declaration order and the first difference ends the comparison, so only the list
        getters reached run, on both objects. */
    method Equals(obj: object?) returns (r: bool)
      modifies this, obj
      ensures obj == this ==> r && unchanged(this)
      ensures obj == null ==> !r && unchanged(this)
      ensures obj != null && !(obj is Cluster) ==> !r && unchanged(this, obj)
      ensures obj is Cluster && obj != this ==>
        var other := obj as Cluster;
        && r == ClusterEquals(old(State()), old(other.State()))
        && OnlyListsInstalled(old(State()), State())
        && OnlyListsInstalled(old(other.State()), other.State())
        && (r ==> State() == ListsInstalled(old(State()))
                  && other.State() == ListsInstalled(old(other.State())))
    {
      if obj == this { return true; }
      if obj == null { return false; }
      if !(obj is Cluster) { return false; }
      r := SameFields(obj as Cluster);
    }

    /** The field-by-field part of equals(), once obj is known to be another Cluster. */
    method SameFields(other: Cluster) returns (r: bool)
      requires other != this
      modifies this, other
      ensures r == ClusterEquals(old(State()), old(other.State()))
      ensures OnlyListsInstalled(old(State()), State())
      ensures OnlyListsInstalled(old(other.State()), other.State())
      ensures r ==> State() == ListsInstalled(old(State())) && other.State() == ListsInstalled(old(other.State()))
    {
      ghost var before, otherBefore := State(), other.State();
      if !NullAwareEquals(other.id, id) { return false; }
      if !NullAwareEquals(other.name, name) { return false; }
      if !NullAwareEquals(other.status, status) { return false; }
      if !NullAwareEquals(other.ec2InstanceAttributes, ec2InstanceAttributes) { return false; }
      if !NullAwareEquals(other.logUri, logUri) { return false; }
      if !NullAwareEquals(other.requestedAmiVersion, requestedAmiVersion) { return false; }
      if !NullAwareEquals(other.runningAmiVersion, runningAmiVersion) { return false; }
      if !NullAwareEquals(other.releaseLabel, releaseLabel) { return false; }
      if !NullAwareEquals(other.autoTerminate, autoTerminate) { return false; }
      if !NullAwareEquals(other.terminationProtected, terminationProtected) { return false; }
      if !NullAwareEquals(other.visibleToAllUsers, visibleToAllUsers) { return false; }
      var otherApplications := other.GetApplications();
      var thisApplications := GetApplications();
      assert OnlyListsInstalled(before, State()) && OnlyListsInstalled(otherBefore, other.State());
      // both getters return a list, so the `== null ^ == null` test never fires
      if otherApplications.elems != thisApplications.elems { return false; }
      var otherTags := other.GetTags();
      var thisTags := GetTags();
      assert OnlyListsInstalled(before, State()) && OnlyListsInstalled(otherBefore, other.State());
      // both getters return a list, so the `== null ^ == null` test never fires
      if otherTags.elems != thisTags.elems { return false; }
      if !NullAwareEquals(other.serviceRole, serviceRole) { return false; }
      if !NullAwareEquals(other.normalizedInstanceHours, normalizedInstanceHours) { return false; }
      if !NullAwareEquals(other.masterPublicDnsName, masterPublicDnsName) { return false; }
      var otherConfigurations := other.GetConfigurations();
      var thisConfigurations := GetConfigurations();
      assert OnlyListsInstalled(before, State()) && OnlyListsInstalled(otherBefore, other.State());
      // both getters return a list, so the `== null ^ == null` test never fires
      if otherConfigurations.elems != thisConfigurations.elems { return false; }
      return true;
    }

    /** clone(): Object.clone(), a new object whose fields hold the same values. */
    method Clone() returns (c: Cluster)
      ensures fresh(c)
      ensures c.State() == State()
    {
      c := new Cluster.Copy(State());
    }
  }
}

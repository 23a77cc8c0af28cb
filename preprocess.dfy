/** The pre-processing Lambda: it finds or creates the MSK cluster
    configuration, reads the VPC's CIDR and the subnets routed through a NAT
    gateway, and returns them. The AWS calls are oracles. */
module PreProcess {
  import opened Results
  import opened Strings

  /** `kafka.ErrCodeConflictException`. */
  const CONFLICT_EXCEPTION := "ConflictException"

  /** One entry of a ListConfigurations response. An absent name or ARN reads
      as "" and an absent revision number as 0; every entry carries its
      latest-revision record. */
  datatype Configuration = Configuration(name: string, arn: string, latestRevision: int)

  datatype Vpc = Vpc(vpcId: string, cidrBlock: string)

  datatype Association = Association(subnetId: string)

  datatype RouteTable = RouteTable(associations: seq<Association>)

  /** `ClusterConfig`, as read from the request's ResourceProperties. */
  datatype ClusterConfig = ClusterConfig(name: string, description: string, kafkaVersions: seq<string>)

  datatype CreateConfigurationInput =
    CreateConfigurationInput(description: string, kafkaVersions: seq<string>, name: string, serverProperties: string)

  /** The MSK calls: the ListConfigurations response, and CreateConfiguration
      as a function of its input (the ARN on success). */
  datatype MskApi = MskApi(
    listConfigurations: AwsReply<seq<Configuration>>,
    createConfiguration: CreateConfigurationInput -> AwsReply<string>)

  /** The EC2 calls, as functions of the VPC id they filter on. */
  datatype Ec2Api = Ec2Api(
    describeVpcs: string -> AwsReply<seq<Vpc>>,
    describeRouteTables: string -> AwsReply<seq<RouteTable>>)

  datatype PreError =
    | ListConfigurationsFailed
    | ConfigurationNotFound(name: string)
    | CreateConfigurationFailed
    | DescribeVpcsFailed
    | VpcNotFound(vpcId: string)
    | RouteTablesFailed
    | ClusterConfigUnreadable
    | ServerPropertiesUnreadable
    | ConfigurationSetupFailed(cause: PreError)

  // ---------------------------------------------------------------------------
  // Cluster configuration

  predicate Matches(c: Configuration, name: string)
  {
    c.name == name && c.latestRevision == 1
  }

  /** The search of `listConfigurations` over the returned configurations. */
  function FirstMatch(configs: seq<Configuration>, name: string): (r: PreErrorOr<string>)
    ensures r.Failure? ==> r.error == ConfigurationNotFound(name)
    ensures r.Success? ==> exists c :: c in configs && Matches(c, name) && r.value == c.arn
    decreases |configs|
  {
    if |configs| == 0 then Failure(ConfigurationNotFound(name))
    else if Matches(configs[0], name) then Success(configs[0].arn)
    else FirstMatch(configs[1..], name)
  }

  type PreErrorOr<T> = Result<T, PreError>

  /** `listConfigurations`: a failed call is an error; otherwise the search
      over the returned configurations. */
  function ListConfigurations(listing: AwsReply<seq<Configuration>>, name: string): (r: PreErrorOr<string>)
    ensures !listing.Replied? ==> r == Failure(ListConfigurationsFailed)
    ensures listing.Replied? ==> r == FirstMatch(listing.value, name)
    ensures r.Failure? ==> r.error == ListConfigurationsFailed || r.error == ConfigurationNotFound(name)
  {
    match listing
    case Replied(configs) => FirstMatch(configs, name)
    case _ => Failure(ListConfigurationsFailed)
  }

  /** The ARN returned is that of the first configuration with the name and
      latest revision 1; with none, the error names the configuration. */
  lemma {:induction false} FirstMatchFindsFirst(configs: seq<Configuration>, name: string)
    ensures FirstMatch(configs, name).Success? <==> exists i :: 0 <= i < |configs| && Matches(configs[i], name)
    ensures forall i :: 0 <= i < |configs| && Matches(configs[i], name) && (forall j :: 0 <= j < i ==> !Matches(configs[j], name))
              ==> FirstMatch(configs, name) == Success(configs[i].arn)
    decreases |configs|
  {
    if |configs| > 0 && !Matches(configs[0], name) {
      var rest := configs[1..];
      FirstMatchFindsFirst(rest, name);
      if exists i :: 0 <= i < |configs| && Matches(configs[i], name) {
        var i :| 0 <= i < |configs| && Matches(configs[i], name);
        assert rest[i - 1] == configs[i];
      }
      if exists i :: 0 <= i < |rest| && Matches(rest[i], name) {
        var i :| 0 <= i < |rest| && Matches(rest[i], name);
        assert configs[i + 1] == rest[i];
      }
      forall i | 0 <= i < |configs| && Matches(configs[i], name) && (forall j :: 0 <= j < i ==> !Matches(configs[j], name))
        ensures FirstMatch(configs, name) == Success(configs[i].arn)
      {
        assert rest[i - 1] == configs[i];
        forall j | 0 <= j < i - 1 ensures !Matches(rest[j], name) {
          assert rest[j] == configs[j + 1];
        }
      }
    }
  }

  /** The CreateConfiguration request built from the cluster config. */
  function ConfigurationInput(conf: ClusterConfig, serverProps: string): CreateConfigurationInput
  {
    CreateConfigurationInput(conf.description, conf.kafkaVersions, conf.name, serverProps)
  }

  /** `createConfig`: a created configuration's ARN; on a conflict, the
      existing configuration found by `listConfigurations`; otherwise an error. */
  function CreateConfig(msk: MskApi, conf: ClusterConfig, serverProps: string): (r: PreErrorOr<string>)
    ensures var reply := msk.createConfiguration(ConfigurationInput(conf, serverProps));
            && (reply.Replied? ==> r == Success(reply.value))
            && (reply == ServiceError(CONFLICT_EXCEPTION) ==> r == ListConfigurations(msk.listConfigurations, conf.name))
            && (reply.OtherError? || (reply.ServiceError? && reply.code != CONFLICT_EXCEPTION) ==>
                  r == Failure(CreateConfigurationFailed))
  {
    match msk.createConfiguration(ConfigurationInput(conf, serverProps))
    case Replied(arn) => Success(arn)
    case ServiceError(code) =>
      if code == CONFLICT_EXCEPTION then ListConfigurations(msk.listConfigurations, conf.name)
      else Failure(CreateConfigurationFailed)
    case OtherError => Failure(CreateConfigurationFailed)
  }

  /** Creating a configuration that already exists (as a second create
      does) succeeds with the ARN of the first listed configuration that has
      the name and revision 1. */
  lemma CreateConfigAfterConflict(msk: MskApi, conf: ClusterConfig, serverProps: string, i: nat)
    requires msk.createConfiguration(ConfigurationInput(conf, serverProps)) == ServiceError(CONFLICT_EXCEPTION)
    requires msk.listConfigurations.Replied?
    requires var configs := msk.listConfigurations.value;
             && i < |configs| && Matches(configs[i], conf.name)
             && forall j :: 0 <= j < i ==> !Matches(configs[j], conf.name)
    ensures CreateConfig(msk, conf, serverProps) == Success(msk.listConfigurations.value[i].arn)
  {
    FirstMatchFindsFirst(msk.listConfigurations.value, conf.name);
  }

  // ---------------------------------------------------------------------------
  // VPC CIDR

  /** `vpcCidr`: only the first VPC of the response is looked at. */
  function VpcCidr(vpcId: string, reply: AwsReply<seq<Vpc>>): (r: PreErrorOr<string>)
    ensures !reply.Replied? ==> r == Failure(DescribeVpcsFailed)
    ensures reply.Replied? && reply.value == [] ==> r == Success("")
    ensures reply.Replied? && reply.value != [] ==>
              (r.Success? <==> reply.value[0].vpcId == vpcId)
              && (r.Success? ==> r.value == reply.value[0].cidrBlock)
              && (r.Failure? ==> r.error == VpcNotFound(vpcId))
  {
    match reply
    case Replied(vpcs) =>
      if |vpcs| == 0 then Success("")
      else if vpcs[0].vpcId == vpcId then Success(vpcs[0].cidrBlock)
      else Failure(VpcNotFound(vpcId))
    case _ => Failure(DescribeVpcsFailed)
  }

  /** A first VPC with another id is an error even when a later VPC matches. */
  lemma VpcCidrIgnoresLaterVpcs(vpcId: string, vpcs: seq<Vpc>)
    requires |vpcs| > 0
    ensures VpcCidr(vpcId, Replied(vpcs)) == VpcCidr(vpcId, Replied(vpcs[..1]))
    ensures vpcs[0].vpcId != vpcId ==> VpcCidr(vpcId, Replied(vpcs)) == Failure(VpcNotFound(vpcId))
  {
  }

  // ---------------------------------------------------------------------------
  // Private subnets

  function SubnetIdsOf(associations: seq<Association>): seq<string>
  {
    seq(|associations|, i requires 0 <= i < |associations| => associations[i].subnetId)
  }

  /** Every association's subnet id, table by table, in order. */
  function SubnetIds(tables: seq<RouteTable>): seq<string>
    decreases |tables|
  {
    if |tables| == 0 then []
    else SubnetIds(tables[..|tables| - 1]) + SubnetIdsOf(tables[|tables| - 1].associations)
  }

  function AssociationCount(tables: seq<RouteTable>): nat
    decreases |tables|
  {
    if |tables| == 0 then 0 else |tables[0].associations| + AssociationCount(tables[1..])
  }

  /** `privSubnets`: the loops that flatten the route tables' associations. */
  method PrivSubnets(reply: AwsReply<seq<RouteTable>>) returns (r: PreErrorOr<seq<string>>)
    ensures !reply.Replied? ==> r == Failure(RouteTablesFailed)
    ensures reply.Replied? ==> r == Success(SubnetIds(reply.value))
  {
    if !reply.Replied? {
      return Failure(RouteTablesFailed);
    }
    var tables := reply.value;
    var ids: seq<string> := [];
    var i := 0;
    while i < |tables|
      invariant 0 <= i <= |tables|
      invariant ids == SubnetIds(tables[..i])
    {
      var associations := tables[i].associations;
      var j := 0;
      while j < |associations|
        invariant 0 <= j <= |associations|
        invariant ids == SubnetIds(tables[..i]) + SubnetIdsOf(associations[..j])
      {
        ids := ids + [associations[j].subnetId];
        j := j + 1;
      }
      assert associations[..j] == associations;
      assert tables[..i + 1][..i] == tables[..i];
      i := i + 1;
    }
    assert tables[..i] == tables;
    return Success(ids);
  }

  lemma {:induction false} SubnetIdsAppend(a: seq<RouteTable>, b: seq<RouteTable>)
    ensures SubnetIds(a + b) == SubnetIds(a) + SubnetIds(b)
    decreases |b|
  {
    if |b| == 0 {
      assert a + b == a;
    } else {
      var n := |b|;
      var ab, init := a + b, b[..n - 1];
      var lastIds := SubnetIdsOf(b[n - 1].associations);
      SubnetIdsAppend(a, init);
      assert ab[..|ab| - 1] == a + init;
      assert ab[|ab| - 1] == b[n - 1];
      calc {
        SubnetIds(ab);
        SubnetIds(a + init) + lastIds;
        (SubnetIds(a) + SubnetIds(init)) + lastIds;
        SubnetIds(a) + (SubnetIds(init) + lastIds);
        SubnetIds(a) + SubnetIds(b);
      }
    }
  }

  /** One id per association, empty ids included. */
  lemma {:induction false} SubnetIdsCount(tables: seq<RouteTable>)
    ensures |SubnetIds(tables)| == AssociationCount(tables)
    decreases |tables|
  {
    if |tables| > 0 {
      SubnetIdsCount(tables[1..]);
      SubnetIdsAppend([tables[0]], tables[1..]);
      assert [tables[0]] + tables[1..] == tables;
      assert [tables[0]][..0] == [];
    }
  }

  /** The ids are exactly those of the associations. */
  lemma {:induction false} SubnetIdsMembers(tables: seq<RouteTable>, id: string)
    ensures id in SubnetIds(tables) <==>
            exists t, k :: 0 <= t < |tables| && 0 <= k < |tables[t].associations| && tables[t].associations[k].subnetId == id
    decreases |tables|
  {
    if |tables| > 0 {
      var n := |tables|;
      var init := tables[..n - 1];
      SubnetIdsMembers(init, id);
      var last := tables[n - 1].associations;
      if id in SubnetIds(tables) {
        if id in SubnetIdsOf(last) {
          var k :| 0 <= k < |last| && SubnetIdsOf(last)[k] == id;
          assert tables[n - 1].associations[k].subnetId == id;
        } else {
          var t, k :| 0 <= t < |init| && 0 <= k < |init[t].associations| && init[t].associations[k].subnetId == id;
          assert tables[t] == init[t];
        }
      } else {
        forall t, k | 0 <= t < n && 0 <= k < |tables[t].associations|
          ensures tables[t].associations[k].subnetId != id
        {
          if t < n - 1 {
            assert tables[t] == init[t];
          } else {
            assert SubnetIdsOf(last)[k] == last[k].subnetId;
          }
        }
      }
    }
  }

  // ---------------------------------------------------------------------------
  // Server properties and the subnet list

  /** The properties text after the first `count` properties: each property
      followed by a newline. */
  lemma {:induction false} JoinTerminatedSnoc(xs: seq<string>, p: string, sep: char)
    ensures Join(xs + [""], sep) + p + [sep] == Join(xs + [p, ""], sep)
    decreases |xs|
  {
    if |xs| == 0 {
      assert [p, ""][1..] == [""];
    } else {
      JoinTerminatedSnoc(xs[1..], p, sep);
      assert (xs + [""])[1..] == xs[1..] + [""];
      assert (xs + [p, ""])[1..] == xs[1..] + [p, ""];
    }
  }

  /** The loop of `configureCluster` that concatenates the server properties,
      each followed by a newline. */
  method ServerPropertiesText(props: seq<string>) returns (text: string)
    ensures text == Join(props + [""], '\n')
  {
    text := "";
    var i := 0;
    while i < |props|
      invariant 0 <= i <= |props|
      invariant text == Join(props[..i] + [""], '\n')
    {
      JoinTerminatedSnoc(props[..i], props[i], '\n');
      assert props[..i + 1] == props[..i] + [props[i]];
      assert props[..i] + [props[i], ""] == props[..i + 1] + [""];
      text := text + props[i] + "\n";
      i := i + 1;
    }
    assert props[..i] == props;
  }

  /** Properties without newlines are recovered line by line from the text,
      with one empty piece after the final newline. */
  lemma ServerPropertiesRoundTrip(props: seq<string>)
    requires forall i :: 0 <= i < |props| ==> '\n' !in props[i]
    ensures Split(Join(props + [""], '\n'), '\n') == props + [""]
  {
    SplitJoin(props + [""], '\n');
  }

  /** The subnet ids with the empty ones dropped, in order. */
  function NonEmpty(ids: seq<string>): (r: seq<string>)
    ensures forall s :: s in r <==> s in ids && s != ""
    ensures |r| <= |ids|
    decreases |ids|
  {
    if |ids| == 0 then []
    else if ids[|ids| - 1] == "" then NonEmpty(ids[..|ids| - 1])
    else NonEmpty(ids[..|ids| - 1]) + [ids[|ids| - 1]]
  }

  /** The loop of `configureCluster` that drops empty subnet ids. */
  method KeepNonEmpty(ids: seq<string>) returns (kept: seq<string>)
    ensures kept == NonEmpty(ids)
  {
    kept := [];
    var i := 0;
    while i < |ids|
      invariant 0 <= i <= |ids|
      invariant kept == NonEmpty(ids[..i])
    {
      assert ids[..i + 1][..i] == ids[..i];
      if ids[i] != "" {
        kept := kept + [ids[i]];
      }
      i := i + 1;
    }
    assert ids[..i] == ids;
  }

  /** Dropping empty ids keeps the order of the rest. */
  lemma {:induction false} NonEmptyAppend(a: seq<string>, b: seq<string>)
    ensures NonEmpty(a + b) == NonEmpty(a) + NonEmpty(b)
    decreases |b|
  {
    if |b| == 0 {
      assert a + b == a;
    } else {
      NonEmptyAppend(a, b[..|b| - 1]);
      assert (a + b)[..|a + b| - 1] == a + b[..|b| - 1];
    }
  }

  /** With no empty id nothing is dropped. */
  lemma {:induction false} NonEmptyKeepsAll(ids: seq<string>)
    requires "" !in ids
    ensures NonEmpty(ids) == ids
    decreases |ids|
  {
    if |ids| > 0 {
      NonEmptyKeepsAll(ids[..|ids| - 1]);
    }
  }

  /** Subnet ids (which have no commas) come back out of the joined list. */
  lemma PrivateSubnetsSplit(ids: seq<string>)
    requires NonEmpty(ids) != []
    requires forall i :: 0 <= i < |ids| ==> ',' !in ids[i]
    ensures Split(Join(NonEmpty(ids), ','), ',') == NonEmpty(ids)
  {
    forall i | 0 <= i < |NonEmpty(ids)| ensures ',' !in NonEmpty(ids)[i] {
      assert NonEmpty(ids)[i] in ids;
    }
    SplitJoin(NonEmpty(ids), ',');
  }

  // ---------------------------------------------------------------------------
  // The handler

  /** `configureCluster`. Create reads the VPC CIDR, the private subnets, the
      cluster config and the server properties in that order, then creates
      (or finds) the configuration; Update and Delete do nothing. */
  method ConfigureCluster(request: RequestType, vpcId: string, clusterConfig: Option<ClusterConfig>,
                          serverProperties: Option<seq<string>>, msk: MskApi, ec2: Ec2Api)
    returns (r: PreErrorOr<Response>)
    ensures request != Create ==> r == Success(Response("", map[]))
    ensures request == Create && VpcCidr(vpcId, ec2.describeVpcs(vpcId)).Failure? ==>
              r == Failure(VpcCidr(vpcId, ec2.describeVpcs(vpcId)).error)
    ensures (request == Create && VpcCidr(vpcId, ec2.describeVpcs(vpcId)).Success?
             && !ec2.describeRouteTables(vpcId).Replied?) ==> r == Failure(RouteTablesFailed)
    ensures (request == Create && VpcCidr(vpcId, ec2.describeVpcs(vpcId)).Success?
             && ec2.describeRouteTables(vpcId).Replied? && clusterConfig.None?) ==> r == Failure(ClusterConfigUnreadable)
    ensures (request == Create && VpcCidr(vpcId, ec2.describeVpcs(vpcId)).Success?
             && ec2.describeRouteTables(vpcId).Replied? && clusterConfig.Some? && serverProperties.None?) ==>
              r == Failure(ServerPropertiesUnreadable)
    ensures (request == Create && VpcCidr(vpcId, ec2.describeVpcs(vpcId)).Success?
             && ec2.describeRouteTables(vpcId).Replied? && clusterConfig.Some? && serverProperties.Some?) ==>
              var created := CreateConfig(msk, clusterConfig.value, Join(serverProperties.value + [""], '\n'));
              r == if created.Failure? then Failure(ConfigurationSetupFailed(created.error))
                   else Success(Response(created.value, map[
                          "ConfigurationArn" := created.value,
                          "VpcCidr" := VpcCidr(vpcId, ec2.describeVpcs(vpcId)).value,
                          "PrivateSubnets" := Join(NonEmpty(SubnetIds(ec2.describeRouteTables(vpcId).value)), ',')]))
  {
    if request != Create {
      return Success(Response("", map[]));
    }
    var cidr := VpcCidr(vpcId, ec2.describeVpcs(vpcId));
    if cidr.Failure? {
      return Failure(cidr.error);
    }
    var privSubs := PrivSubnets(ec2.describeRouteTables(vpcId));
    if privSubs.Failure? {
      return Failure(privSubs.error);
    }
    if clusterConfig.None? {
      return Failure(ClusterConfigUnreadable);
    }
    if serverProperties.None? {
      return Failure(ServerPropertiesUnreadable);
    }
    var serverProps := ServerPropertiesText(serverProperties.value);
    var configArn := CreateConfig(msk, clusterConfig.value, serverProps);
    if configArn.Failure? {
      return Failure(ConfigurationSetupFailed(configArn.error));
    }
    var subnets := KeepNonEmpty(privSubs.value);
    return Success(Response(configArn.value, map[
      "ConfigurationArn" := configArn.value,
      "VpcCidr" := cidr.value,
      "PrivateSubnets" := Join(subnets, ',')]));
  }
}

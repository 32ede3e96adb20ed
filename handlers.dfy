/** The RPC handlers of the cluster service. Each handler takes the answers its
    collaborators give during the request (`Provider`) and returns its reply or error
    together with the calls it made, in order. */
module ClusterServer {
  import opened ApiTypes
  import opened Cluster

  // ---------------------------------------------------------------------------
  // CreateCluster
  // ---------------------------------------------------------------------------

  /** The resource-group steps CreateCluster takes before it asks for a cluster client. */
  function GroupSteps(msg: CreateClusterMsg, az: Provider): seq<Call>
  {
    [Call.GetGroupsClient(msg.credentials), Call.CheckForGroup(msg.name)] +
    (if az.groupExists then [] else [Call.CreateGroup(msg.name, msg.location)])
  }

  /** The resource group is present, or its creation succeeded. */
  predicate GroupReady(az: Provider)
  {
    az.groupExists || az.createGroup.Success?
  }

  method CreateCluster(msg: CreateClusterMsg, az: Provider) returns (reply: Result<CreateClusterReply>, calls: seq<Call>)
    // the group is created exactly when it is absent
    ensures Call.CreateGroup(msg.name, msg.location) in calls <==> !az.groupExists
    // a failed group creation stops before any cluster client is requested
    ensures !GroupReady(az) ==>
      reply == Err(CreatingResourceGroup(az.createGroup.cause)) && calls == GroupSteps(msg, az)
    ensures GroupReady(az) && az.clusterClient.Failed? ==>
      reply == Err(CannotGetClient(az.clusterClient.cause)) &&
      calls == GroupSteps(msg, az) + [Call.GetClusterClient(msg.credentials)]
    // with a client, exactly one cluster creation is requested, built from the request
    ensures GroupReady(az) && az.clusterClient.Success? ==>
      |calls| == |GroupSteps(msg, az)| + 2 &&
      calls[..|calls| - 1] == GroupSteps(msg, az) + [Call.GetClusterClient(msg.credentials)] &&
      calls[|calls| - 1].CreateCluster? && CreateInputFrom(calls[|calls| - 1].input, msg)
    ensures GroupReady(az) && az.clusterClient.Success? && az.createCluster.Failed? ==>
      reply == Err(CreatingCluster(az.createCluster.cause))
    ensures GroupReady(az) && az.clusterClient.Success? && az.createCluster.Success? ==>
      reply == Ok(CreateClusterReply(true, ClusterItem(
        ClusterId(msg.credentials.subscriptionId, msg.name), msg.name, MatchStatus(az.createCluster.value))))
  {
    calls := [Call.GetGroupsClient(msg.credentials), Call.CheckForGroup(msg.name)];
    if !az.groupExists {
      calls := calls + [Call.CreateGroup(msg.name, msg.location)];
      if az.createGroup.Failed? {
        return Err(CreatingResourceGroup(az.createGroup.cause)), calls;
      }
    }
    assert calls == GroupSteps(msg, az);

    calls := calls + [Call.GetClusterClient(msg.credentials)];
    if az.clusterClient.Failed? {
      return Err(CannotGetClient(az.clusterClient.cause)), calls;
    }

    var agentPools := BuildAgentPools(msg.instanceGroups);
    var tagKeys := BuildTagKeys(msg.tags);
    var input := CreateClusterInput(
      msg.name, msg.location, msg.k8sVersion,
      msg.clusterAccount.clientId, msg.clusterAccount.clientSecret,
      agentPools, tagKeys);
    calls := calls + [Call.CreateCluster(input)];
    if az.createCluster.Failed? {
      return Err(CreatingCluster(az.createCluster.cause)), calls;
    }

    var clusterId := ClusterId(msg.credentials.subscriptionId, msg.name);
    var status := MatchStatus(az.createCluster.value);
    reply := Ok(CreateClusterReply(true, ClusterItem(clusterId, msg.name, status)));
  }

  /** The id of cluster "demo" in subscription "sub1", segment by segment. */
  lemma DemoClusterId()
    ensures ClusterId("sub1", "demo") ==
      "/subscriptions/" + "sub1" + "/resourcegroups/" + "demo-group" +
      "/providers/Microsoft.ContainerService/managedClusters/" + "demo"
  {
  }

  /** The end-to-end creation of cluster "demo" with one pool, the provider echoing "Creating". */
  method CreateDemoCluster() returns (reply: Result<CreateClusterReply>)
    ensures reply == Ok(CreateClusterReply(true, ClusterItem(
      "/subscriptions/" + "sub1" + "/resourcegroups/" + "demo-group" +
      "/providers/Microsoft.ContainerService/managedClusters/" + "demo",
      "demo", Provisioning)))
  {
    var msg := CreateClusterMsg(
      "demo", "1.11.5", Credentials("tenant1", "app1", "secret1", "sub1"), "eastus",
      [InstanceGroup("pool1", "VirtualMachineScaleSets", 1, 3)],
      ClusterAccount("client1", "clientsecret1"), []);
    var az := Provider(
      groupExists := false, createGroup := Success(()), clusterClient := Success(()),
      createCluster := Success("Creating"),
      // answers of calls CreateCluster does not make
      getCluster := Failed("unused"), deleteCluster := Failed("unused"), deleteGroup := Failed("unused"),
      listClusters := Failed("unused"), clusterUpgrades := Failed("unused"), upgradeCluster := Failed("unused"),
      nodeCount := Failed("unused"), scaleCluster := Failed("unused"),
      setKubeConfig := KubeConfigAnswer(None, None), createSecret := Failed("unused"),
      createDeployment := Failed("unused"));
    var calls;
    reply, calls := CreateCluster(msg, az);
    DemoClusterId();
  }

  // ---------------------------------------------------------------------------
  // GetCluster
  // ---------------------------------------------------------------------------

  method GetCluster(msg: ClusterMsg, az: Provider) returns (reply: Result<GetClusterReply>, calls: seq<Call>)
    ensures az.clusterClient.Failed? ==>
      reply == Err(CannotGetClient(az.clusterClient.cause)) && calls == [Call.GetClusterClient(msg.credentials)]
    ensures az.clusterClient.Success? ==>
      calls == [Call.GetClusterClient(msg.credentials), Call.GetCluster(msg.name)]
    ensures az.clusterClient.Success? && az.getCluster.Failed? ==>
      reply == Err(Upstream(az.getCluster.cause))
    ensures az.clusterClient.Success? && az.getCluster.Success? ==>
      var c := az.getCluster.value;
      reply == Ok(GetClusterReply(true, ClusterDetailItem(c.id, c.name, MatchStatus(c.status), c.kubeconfig)))
  {
    calls := [Call.GetClusterClient(msg.credentials)];
    if az.clusterClient.Failed? {
      return Err(CannotGetClient(az.clusterClient.cause)), calls;
    }
    calls := calls + [Call.GetCluster(msg.name)];
    if az.getCluster.Failed? {
      return Err(Upstream(az.getCluster.cause)), calls;
    }
    var output := az.getCluster.value;
    var status := MatchStatus(output.status);
    reply := Ok(GetClusterReply(true, ClusterDetailItem(output.id, output.name, status, output.kubeconfig)));
  }

  // ---------------------------------------------------------------------------
  // DeleteCluster
  // ---------------------------------------------------------------------------

  /** The calls of a successful cluster deletion: the delete, then the group delete. */
  function DeleteSteps(msg: ClusterMsg): seq<Call>
  {
    [Call.GetClusterClient(msg.credentials), Call.DeleteCluster(msg.name),
     Call.GetGroupsClient(msg.credentials), Call.DeleteGroup(msg.name)]
  }

  /** DeleteCluster as written: after a successful cluster delete the group delete is
      always attempted, and its error is never consulted, because the check that
      follows it tests the cluster delete's error, which is nil at that point. */
  method DeleteCluster(msg: ClusterMsg, az: Provider) returns (reply: Result<DeleteClusterReply>, calls: seq<Call>)
    ensures az.clusterClient.Failed? ==>
      reply == Err(CannotGetClient(az.clusterClient.cause)) && calls == [Call.GetClusterClient(msg.credentials)]
    // a failed cluster delete returns at once, without touching the group
    ensures az.clusterClient.Success? && az.deleteCluster.Failed? ==>
      reply == Err(Upstream(az.deleteCluster.cause)) &&
      calls == [Call.GetClusterClient(msg.credentials), Call.DeleteCluster(msg.name)]
    // otherwise the group delete is attempted whatever the status, and whatever it answers the reply is ok
    ensures az.clusterClient.Success? && az.deleteCluster.Success? ==>
      reply == Ok(DeleteClusterReply(true, MatchStatus(az.deleteCluster.value))) &&
      calls == DeleteSteps(msg)
  {
    calls := [Call.GetClusterClient(msg.credentials)];
    if az.clusterClient.Failed? {
      return Err(CannotGetClient(az.clusterClient.cause)), calls;
    }
    calls := calls + [Call.DeleteCluster(msg.name)];
    if az.deleteCluster.Failed? {
      return Err(Upstream(az.deleteCluster.cause)), calls;
    }
    var status := MatchStatus(az.deleteCluster.value);
    calls := calls + [Call.GetGroupsClient(msg.credentials), Call.DeleteGroup(msg.name)];
    var deleteGroupErr := az.deleteGroup;
    reply := Ok(DeleteClusterReply(true, status));
  }

  /** A group deletion that fails still yields an ok reply from DeleteCluster. */
  method DeleteWithFailingGroupDelete() returns (reply: Result<DeleteClusterReply>)
    ensures reply == Ok(DeleteClusterReply(true, Stopping))
  {
    var az := Provider(
      clusterClient := Success(()), deleteCluster := Success("Deleting"),
      deleteGroup := Failed("resource group is locked"),
      // answers of calls DeleteCluster does not make
      groupExists := true, createGroup := Failed("unused"), createCluster := Failed("unused"),
      getCluster := Failed("unused"), listClusters := Failed("unused"), clusterUpgrades := Failed("unused"),
      upgradeCluster := Failed("unused"), nodeCount := Failed("unused"), scaleCluster := Failed("unused"),
      setKubeConfig := KubeConfigAnswer(None, None), createSecret := Failed("unused"),
      createDeployment := Failed("unused"));
    var calls;
    reply, calls := DeleteCluster(ClusterMsg("demo", Credentials("tenant1", "app1", "secret1", "sub1")), az);
  }

  /** DeleteCluster with the check at the group delete testing the group delete's own
      error, as its error message evidently intends. */
  method DeleteClusterChecked(msg: ClusterMsg, az: Provider) returns (reply: Result<DeleteClusterReply>, calls: seq<Call>)
    ensures az.clusterClient.Failed? ==>
      reply == Err(CannotGetClient(az.clusterClient.cause)) && calls == [Call.GetClusterClient(msg.credentials)]
    ensures az.clusterClient.Success? && az.deleteCluster.Failed? ==>
      reply == Err(Upstream(az.deleteCluster.cause)) &&
      calls == [Call.GetClusterClient(msg.credentials), Call.DeleteCluster(msg.name)]
    ensures az.clusterClient.Success? && az.deleteCluster.Success? ==> calls == DeleteSteps(msg)
    // the reply is ok exactly when both deletions succeed
    ensures reply.Ok? <==> az.clusterClient.Success? && az.deleteCluster.Success? && az.deleteGroup.Success?
    ensures az.clusterClient.Success? && az.deleteCluster.Success? && az.deleteGroup.Failed? ==>
      reply == Err(DeletingResourceGroup(az.deleteGroup.cause))
    ensures reply.Ok? ==> reply.value == DeleteClusterReply(true, MatchStatus(az.deleteCluster.value))
  {
    calls := [Call.GetClusterClient(msg.credentials)];
    if az.clusterClient.Failed? {
      return Err(CannotGetClient(az.clusterClient.cause)), calls;
    }
    calls := calls + [Call.DeleteCluster(msg.name)];
    if az.deleteCluster.Failed? {
      return Err(Upstream(az.deleteCluster.cause)), calls;
    }
    var status := MatchStatus(az.deleteCluster.value);
    calls := calls + [Call.GetGroupsClient(msg.credentials), Call.DeleteGroup(msg.name)];
    if az.deleteGroup.Failed? {
      return Err(DeletingResourceGroup(az.deleteGroup.cause)), calls;
    }
    reply := Ok(DeleteClusterReply(true, status));
  }

  // ---------------------------------------------------------------------------
  // GetClusterList, GetClusterUpgrades
  // ---------------------------------------------------------------------------

  method GetClusterList(credentials: Credentials, az: Provider) returns (reply: Result<GetClusterListReply>, calls: seq<Call>)
    ensures az.clusterClient.Failed? ==>
      reply == Err(CannotGetClient(az.clusterClient.cause)) && calls == [Call.GetClusterClient(credentials)]
    ensures az.clusterClient.Success? ==> calls == [Call.GetClusterClient(credentials), Call.ListClusters]
    ensures az.clusterClient.Success? && az.listClusters.Failed? ==> reply == Err(Upstream(az.listClusters.cause))
    // one item per provider cluster, in provider order, with id and name verbatim
    ensures az.clusterClient.Success? && az.listClusters.Success? ==>
      var clusters := az.listClusters.value;
      reply.Ok? && reply.value.ok && |reply.value.clusters| == |clusters| &&
      forall i :: 0 <= i < |clusters| ==>
        reply.value.clusters[i] == ClusterItem(clusters[i].id, clusters[i].name, MatchStatus(clusters[i].provisioningState))
  {
    calls := [Call.GetClusterClient(credentials)];
    if az.clusterClient.Failed? {
      return Err(CannotGetClient(az.clusterClient.cause)), calls;
    }
    calls := calls + [Call.ListClusters];
    if az.listClusters.Failed? {
      return Err(Upstream(az.listClusters.cause)), calls;
    }
    var clusters := ClusterItems(az.listClusters.value);
    reply := Ok(GetClusterListReply(true, clusters));
  }

  method GetClusterUpgrades(msg: ClusterMsg, az: Provider) returns (reply: Result<GetClusterUpgradesReply>, calls: seq<Call>)
    ensures az.clusterClient.Failed? ==>
      reply == Err(CannotGetClient(az.clusterClient.cause)) && calls == [Call.GetClusterClient(msg.credentials)]
    ensures az.clusterClient.Success? ==>
      calls == [Call.GetClusterClient(msg.credentials), Call.GetClusterUpgrades(msg.name)]
    ensures az.clusterClient.Success? && az.clusterUpgrades.Failed? ==>
      reply == Err(RetrievingUpgrades(az.clusterUpgrades.cause))
    // one upgrade per offered version, in order
    ensures az.clusterClient.Success? && az.clusterUpgrades.Success? ==>
      var versions := az.clusterUpgrades.value;
      reply.Ok? && reply.value.ok && |reply.value.upgrades| == |versions| &&
      forall i :: 0 <= i < |versions| ==> reply.value.upgrades[i] == Upgrade(versions[i])
  {
    calls := [Call.GetClusterClient(msg.credentials)];
    if az.clusterClient.Failed? {
      return Err(CannotGetClient(az.clusterClient.cause)), calls;
    }
    calls := calls + [Call.GetClusterUpgrades(msg.name)];
    if az.clusterUpgrades.Failed? {
      return Err(RetrievingUpgrades(az.clusterUpgrades.cause)), calls;
    }
    var upgrades := UpgradeItems(az.clusterUpgrades.value);
    reply := Ok(GetClusterUpgradesReply(true, upgrades));
  }

  // ---------------------------------------------------------------------------
  // UpgradeCluster, GetClusterNodeCount, ScaleCluster
  // ---------------------------------------------------------------------------

  method UpgradeCluster(msg: UpgradeClusterMsg, az: Provider) returns (reply: Result<UpgradeClusterReply>, calls: seq<Call>)
    ensures az.clusterClient.Failed? ==>
      reply == Err(CannotGetClient(az.clusterClient.cause)) && calls == [Call.GetClusterClient(msg.credentials)]
    ensures az.clusterClient.Success? ==>
      calls == [Call.GetClusterClient(msg.credentials), Call.UpgradeCluster(msg.name, msg.k8sVersion)]
    ensures az.clusterClient.Success? && az.upgradeCluster.Failed? ==>
      reply == Err(UpgradingCluster(az.upgradeCluster.cause))
    ensures az.clusterClient.Success? && az.upgradeCluster.Success? ==>
      reply == Ok(UpgradeClusterReply(true, ClusterItem(
        ClusterId(msg.credentials.subscriptionId, msg.name), msg.name, MatchStatus(az.upgradeCluster.value))))
  {
    calls := [Call.GetClusterClient(msg.credentials)];
    if az.clusterClient.Failed? {
      return Err(CannotGetClient(az.clusterClient.cause)), calls;
    }
    calls := calls + [Call.UpgradeCluster(msg.name, msg.k8sVersion)];
    if az.upgradeCluster.Failed? {
      return Err(UpgradingCluster(az.upgradeCluster.cause)), calls;
    }
    var clusterId := ClusterId(msg.credentials.subscriptionId, msg.name);
    var status := MatchStatus(az.upgradeCluster.value);
    reply := Ok(UpgradeClusterReply(true, ClusterItem(clusterId, msg.name, status)));
  }

  method GetClusterNodeCount(msg: ClusterMsg, az: Provider) returns (reply: Result<GetClusterNodeCountReply>, calls: seq<Call>)
    ensures az.clusterClient.Failed? ==>
      reply == Err(CannotGetClient(az.clusterClient.cause)) && calls == [Call.GetClusterClient(msg.credentials)]
    ensures az.clusterClient.Success? ==>
      calls == [Call.GetClusterClient(msg.credentials), Call.GetClusterNodeCount(msg.name)]
    ensures az.clusterClient.Success? && az.nodeCount.Failed? ==>
      reply == Err(RetrievingNodeCount(az.nodeCount.cause))
    ensures az.clusterClient.Success? && az.nodeCount.Success? ==>
      reply == Ok(GetClusterNodeCountReply(true, az.nodeCount.value.name, az.nodeCount.value.count))
  {
    calls := [Call.GetClusterClient(msg.credentials)];
    if az.clusterClient.Failed? {
      return Err(CannotGetClient(az.clusterClient.cause)), calls;
    }
    calls := calls + [Call.GetClusterNodeCount(msg.name)];
    if az.nodeCount.Failed? {
      return Err(RetrievingNodeCount(az.nodeCount.cause)), calls;
    }
    var agent := az.nodeCount.value;
    reply := Ok(GetClusterNodeCountReply(true, agent.name, agent.count));
  }

  method ScaleCluster(msg: ScaleClusterMsg, az: Provider) returns (reply: Result<ScaleClusterReply>, calls: seq<Call>)
    ensures az.clusterClient.Failed? ==>
      reply == Err(CannotGetClient(az.clusterClient.cause)) && calls == [Call.GetClusterClient(msg.credentials)]
    ensures az.clusterClient.Success? ==>
      calls == [Call.GetClusterClient(msg.credentials), Call.ScaleClusterNodeCount(msg.name, msg.nodePool, msg.count)]
    ensures az.clusterClient.Success? && az.scaleCluster.Failed? ==>
      reply == Err(ScalingCluster(az.scaleCluster.cause))
    ensures az.clusterClient.Success? && az.scaleCluster.Success? ==>
      reply == Ok(ScaleClusterReply(true, MatchStatus(az.scaleCluster.value)))
  {
    calls := [Call.GetClusterClient(msg.credentials)];
    if az.clusterClient.Failed? {
      return Err(CannotGetClient(az.clusterClient.cause)), calls;
    }
    calls := calls + [Call.ScaleClusterNodeCount(msg.name, msg.nodePool, msg.count)];
    if az.scaleCluster.Failed? {
      return Err(ScalingCluster(az.scaleCluster.cause)), calls;
    }
    var status := MatchStatus(az.scaleCluster.value);
    reply := Ok(ScaleClusterReply(true, status));
  }

  // ---------------------------------------------------------------------------
  // EnableClusterAutoscaling
  // ---------------------------------------------------------------------------

  /** The remote-cluster calls of an autoscaling enablement that found its node group:
      the client configuration, the secret holding `config`, then the deployment. */
  ghost predicate AutoscalerSteps(tail: seq<Call>, cluster: ClusterDetails, sel: Selection, rc: Option<RestConfig>, msg: EnableClusterAutoscalingMsg)
  {
    |tail| == 3 &&
    tail[0] == Call.SetKubeConfig(cluster.name, cluster.kubeconfig) &&
    tail[1].CreateAutoScaleSecret? &&
    tail[1].secretName == AutoscalerSecretName && tail[1].namespace == AutoscalerSecretNamespace &&
    tail[1].restConfig == rc &&
    AutoscalerConfigFor(tail[1].data, msg.name, cluster.nodeResourceGroup, msg.credentials) &&
    tail[2] == Call.CreateAutoScaleDeployment(sel.name, sel.minQuantity, sel.maxQuantity, rc)
  }

  method EnableClusterAutoscaling(msg: EnableClusterAutoscalingMsg, az: Provider)
    returns (reply: Result<EnableClusterAutoscalingReply>, calls: seq<Call>)
    ensures az.clusterClient.Failed? ==>
      reply == Err(CannotGetClient(az.clusterClient.cause)) && calls == [Call.GetClusterClient(msg.credentials)]
    ensures az.clusterClient.Success? ==>
      2 <= |calls| && calls[..2] == [Call.GetClusterClient(msg.credentials), Call.GetCluster(msg.name)]
    ensures az.clusterClient.Success? && az.getCluster.Failed? ==>
      reply == Err(Upstream(az.getCluster.cause)) && |calls| == 2
    // no pool matches any requested node group: validation error, nothing sent to the cluster
    ensures az.clusterClient.Success? && az.getCluster.Success? ==>
      (forall i, j :: !Matches(az.getCluster.value.agentPoolNames, msg.nodegroups, i, j)) ==>
      reply == Err(NodeGroupNotFound) && |calls| == 2
    // some pair matches: then a last matching pair exists
    ensures az.clusterClient.Success? && az.getCluster.Success? ==>
      (exists i, j :: Matches(az.getCluster.value.agentPoolNames, msg.nodegroups, i, j)) ==>
      exists i, j :: IsLastMatch(az.getCluster.value.agentPoolNames, msg.nodegroups, i, j)
    // the last match decides; an empty name there is the same validation error
    ensures az.clusterClient.Success? && az.getCluster.Success? ==>
      forall i, j | IsLastMatch(az.getCluster.value.agentPoolNames, msg.nodegroups, i, j) ::
        var sel := SelectionOf(msg.nodegroups[j]);
        (sel.name == "" ==> reply == Err(NodeGroupNotFound) && |calls| == 2) &&
        (sel.name != "" ==>
          AutoscalerSteps(calls[2..], az.getCluster.value, sel, az.setKubeConfig.config, msg) &&
          // only the deployment's error fails the call
          reply == if az.createDeployment.Failed? then Err(EnablingAutoscaling(az.createDeployment.cause))
                   else Ok(EnableClusterAutoscalingReply(true)))
  {
    calls := [Call.GetClusterClient(msg.credentials)];
    if az.clusterClient.Failed? {
      return Err(CannotGetClient(az.clusterClient.cause)), calls;
    }

    calls := calls + [Call.GetCluster(msg.name)];
    if az.getCluster.Failed? {
      return Err(Upstream(az.getCluster.cause)), calls;
    }
    var cluster := az.getCluster.value;
    var pools := cluster.agentPoolNames;

    var sel := SelectNodeGroup(pools, msg.nodegroups);
    forall i, j | IsLastMatch(pools, msg.nodegroups, i, j)
      ensures sel == SelectionOf(msg.nodegroups[j])
    {
      var i0, j0 :| IsLastMatch(pools, msg.nodegroups, i0, j0) && sel == SelectionOf(msg.nodegroups[j0]);
      LastMatchUnique(pools, msg.nodegroups, i, j, i0, j0);
    }
    if sel.name == "" {
      return Err(NodeGroupNotFound), calls;
    }

    var config := BuildAutoscalingConfig(msg.name, cluster.nodeResourceGroup, msg.credentials);

    calls := calls + [Call.SetKubeConfig(cluster.name, cluster.kubeconfig)];
    var kube := az.setKubeConfig;

    calls := calls + [Call.CreateAutoScaleSecret(AutoscalerSecretName, AutoscalerSecretNamespace, config, kube.config)];
    var secretResult := az.createSecret;

    calls := calls + [Call.CreateAutoScaleDeployment(sel.name, sel.minQuantity, sel.maxQuantity, kube.config)];
    if az.createDeployment.Failed? {
      return Err(EnablingAutoscaling(az.createDeployment.cause)), calls;
    }
    reply := Ok(EnableClusterAutoscalingReply(true));
  }

  /** Two requested node groups naming the one pool: the later one is deployed. */
  method AutoscaleWithConflictingNodegroups() returns (reply: Result<EnableClusterAutoscalingReply>, calls: seq<Call>)
    ensures reply == Ok(EnableClusterAutoscalingReply(true))
    ensures |calls| == 5 && calls[4] == Call.CreateAutoScaleDeployment("pool1", 2, 5, Some(RestConfig("https://demo")))
  {
    var msg := EnableClusterAutoscalingMsg(
      "demo", Credentials("tenant1", "app1", "secret1", "sub1"),
      [Nodegroup("pool1", 1, 3), Nodegroup("pool1", 2, 5)]);
    var cluster := ClusterDetails("id", "demo", "Succeeded", "kubeconfig", ["pool1"], "MC_demo-group");
    var az := Provider(
      clusterClient := Success(()), getCluster := Success(cluster),
      setKubeConfig := KubeConfigAnswer(Some(RestConfig("https://demo")), None),
      createSecret := Failed("secret exists"), createDeployment := Success(()),
      // answers of calls EnableClusterAutoscaling does not make
      groupExists := true, createGroup := Failed("unused"), createCluster := Failed("unused"),
      deleteCluster := Failed("unused"), deleteGroup := Failed("unused"), listClusters := Failed("unused"),
      clusterUpgrades := Failed("unused"), upgradeCluster := Failed("unused"), nodeCount := Failed("unused"),
      scaleCluster := Failed("unused"));
    assert IsLastMatch(["pool1"], msg.nodegroups, 0, 1);
    reply, calls := EnableClusterAutoscaling(msg, az);
  }
}

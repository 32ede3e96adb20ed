/** The deterministic rules inside the cluster handlers: status translation, the
    synthesised resource ids, and the loops that build SDK inputs and replies. */
module Cluster {
  import opened ApiTypes

  // ---------------------------------------------------------------------------
  // Status translation
  // ---------------------------------------------------------------------------

  /** The provider states that have a status of their own. */
  const KnownStates: set<string> := {"Creating", "Updating", "Upgrading", "Succeeded", "Deleting", "Failed"}

  /** Translates a provider state into the RPC status. Total: every string, the
      empty one included, has exactly one status, and the preimage of each status
      is stated below. */
  function MatchStatus(status: string): (r: ClusterStatus)
    ensures r == Provisioning <==> status == "Creating"
    ensures r == Reconciling <==> status == "Updating" || status == "Upgrading"
    ensures r == Running <==> status == "Succeeded"
    ensures r == Stopping <==> status == "Deleting"
    ensures r == Error <==> status == "Failed"
    ensures r == StatusUnspecified <==> status !in KnownStates
  {
    if status == "Creating" then Provisioning
    else if status == "Updating" then Reconciling
    else if status == "Upgrading" then Reconciling
    else if status == "Succeeded" then Running
    else if status == "Deleting" then Stopping
    else if status == "Failed" then Error
    else StatusUnspecified
  }

  // ---------------------------------------------------------------------------
  // Resource names and ids
  // ---------------------------------------------------------------------------

  const SubscriptionsSegment := "/subscriptions/"
  const ResourceGroupsSegment := "/resourcegroups/"
  const ManagedClustersSegment := "/providers/Microsoft.ContainerService/managedClusters/"

  /** The resource group that holds cluster `name`. */
  function ResourceGroupName(name: string): (g: string)
    ensures |g| == |name| + 6 && g[..|name|] == name
  {
    name + "-group"
  }

  /** The Azure id of a cluster's resource group. */
  function ResourceGroupId(subscription: string, name: string): string
  {
    SubscriptionsSegment + subscription + ResourceGroupsSegment + ResourceGroupName(name)
  }

  /** The Azure id of cluster `name` in `subscription`: the id of its resource group
      followed by the managed-cluster path, ending in the cluster's name. */
  function ClusterId(subscription: string, name: string): (id: string)
    ensures |id| == |SubscriptionsSegment| + |subscription| + |ResourceGroupsSegment| + 2 * |name| + 6 + |ManagedClustersSegment|
    ensures ResourceGroupId(subscription, name) <= id
    ensures id[..|SubscriptionsSegment| + |subscription|] == SubscriptionsSegment + subscription
    ensures id[|id| - |name|..] == name
  {
    var head := ResourceGroupId(subscription, name);
    var id := head + ManagedClustersSegment + name;
    assert id[..|head|] == head;
    assert head[..|SubscriptionsSegment| + |subscription|] == SubscriptionsSegment + subscription;
    id
  }

  /** Within one subscription, distinct cluster names give distinct ids. */
  lemma ClusterIdInjectiveInName(subscription: string, name1: string, name2: string)
    requires ClusterId(subscription, name1) == ClusterId(subscription, name2)
    ensures name1 == name2
  {
  }

  /** For one cluster name, distinct subscriptions give distinct ids. */
  lemma ClusterIdInjectiveInSubscription(subscription1: string, subscription2: string, name: string)
    requires ClusterId(subscription1, name) == ClusterId(subscription2, name)
    ensures subscription1 == subscription2
  {
    var id := ClusterId(subscription1, name);
    var n := |SubscriptionsSegment|;
    assert |subscription1| == |subscription2|;
    assert subscription1 == (SubscriptionsSegment + subscription1)[n..];
    assert subscription2 == (SubscriptionsSegment + subscription2)[n..];
    assert id[..n + |subscription1|] == SubscriptionsSegment + subscription1;
    assert id[..n + |subscription2|] == SubscriptionsSegment + subscription2;
  }

  // ---------------------------------------------------------------------------
  // CreateCluster's SDK input
  // ---------------------------------------------------------------------------

  /** Pool i is built from instance group i: its name, its minimum as the count, its type. */
  predicate AgentPoolsFrom(pools: seq<Agent>, groups: seq<InstanceGroup>)
  {
    |pools| == |groups| &&
    forall i :: 0 <= i < |groups| ==>
      pools[i].name == groups[i].name && pools[i].count == groups[i].minQuantity && pools[i].vmType == groups[i].vmType
  }

  /** Fills a slice preallocated with zero values, field by field. */
  method BuildAgentPools(groups: seq<InstanceGroup>) returns (pools: seq<Agent>)
    ensures AgentPoolsFrom(pools, groups)
  {
    pools := seq(|groups|, _ => Agent("", 0, ""));
    for i := 0 to |groups|
      invariant |pools| == |groups|
      invariant forall k :: 0 <= k < i ==>
        pools[k].name == groups[k].name && pools[k].count == groups[k].minQuantity && pools[k].vmType == groups[k].vmType
    {
      pools := pools[i := pools[i].(name := groups[i].name)];
      pools := pools[i := pools[i].(count := groups[i].minQuantity)];
      pools := pools[i := pools[i].(vmType := groups[i].vmType)];
    }
  }

  /** A string is a key of the tag map exactly when some requested tag has it as its key. */
  ghost predicate TagKeysFrom(keys: set<string>, tags: seq<Tag>)
  {
    forall k :: k in keys <==> exists t :: t in tags && t.key == k
  }

  /** Inserts each requested tag's key into the tag map. */
  method BuildTagKeys(tags: seq<Tag>) returns (keys: set<string>)
    ensures TagKeysFrom(keys, tags)
  {
    keys := {};
    for i := 0 to |tags|
      invariant forall k :: k in keys <==> exists j :: 0 <= j < i && tags[j].key == k
    {
      keys := keys + {tags[i].key};
    }
    forall k | exists t :: t in tags && t.key == k
      ensures k in keys
    {
      var t :| t in tags && t.key == k;
      var j :| 0 <= j < |tags| && tags[j] == t;
      assert tags[j].key == k;
    }
  }

  /** The SDK input CreateCluster builds from its request. */
  ghost predicate CreateInputFrom(input: CreateClusterInput, msg: CreateClusterMsg)
  {
    input.name == msg.name &&
    input.location == msg.location &&
    input.k8sVersion == msg.k8sVersion &&
    input.clientId == msg.clusterAccount.clientId &&
    input.clientSecret == msg.clusterAccount.clientSecret &&
    AgentPoolsFrom(input.agentPools, msg.instanceGroups) &&
    TagKeysFrom(input.tagKeys, msg.tags)
  }

  // ---------------------------------------------------------------------------
  // Element-wise replies
  // ---------------------------------------------------------------------------

  /** One list item per provider cluster, in provider order. */
  method ClusterItems(clusters: seq<ListedCluster>) returns (items: seq<ClusterItem>)
    ensures |items| == |clusters|
    ensures forall i :: 0 <= i < |clusters| ==>
      items[i].id == clusters[i].id && items[i].name == clusters[i].name &&
      items[i].status == MatchStatus(clusters[i].provisioningState)
  {
    items := [];
    for i := 0 to |clusters|
      invariant |items| == i
      invariant forall k :: 0 <= k < i ==>
        items[k].id == clusters[k].id && items[k].name == clusters[k].name &&
        items[k].status == MatchStatus(clusters[k].provisioningState)
    {
      var status := MatchStatus(clusters[i].provisioningState);
      items := items + [ClusterItem(clusters[i].id, clusters[i].name, status)];
    }
  }

  /** One upgrade per offered version, in order. */
  method UpgradeItems(versions: seq<string>) returns (upgrades: seq<Upgrade>)
    ensures |upgrades| == |versions|
    ensures forall i :: 0 <= i < |versions| ==> upgrades[i].version == versions[i]
  {
    upgrades := [];
    for i := 0 to |versions|
      invariant |upgrades| == i
      invariant forall k :: 0 <= k < i ==> upgrades[k].version == versions[k]
    {
      upgrades := upgrades + [Upgrade(versions[i])];
    }
  }

  // ---------------------------------------------------------------------------
  // Node-group matching of EnableClusterAutoscaling
  // ---------------------------------------------------------------------------

  /** The agent-pool name and bounds the autoscaler is deployed with. */
  datatype Selection = Selection(name: string, minQuantity: int32, maxQuantity: int32)

  const NoSelection := Selection("", 0, 0)

  function SelectionOf(g: Nodegroup): Selection
  {
    Selection(g.name, g.minQuantity, g.maxQuantity)
  }

  /** Pool i and requested node group j have the same name. */
  predicate Matches(pools: seq<string>, groups: seq<Nodegroup>, i: int, j: int)
  {
    0 <= i < |pools| && 0 <= j < |groups| && groups[j].name == pools[i]
  }

  /** (i, j) comes no later than (i', j') in outer-pool, inner-group loop order. */
  predicate NotAfter(i: int, j: int, i': int, j': int)
  {
    i < i' || (i == i' && j <= j')
  }

  /** (i, j) is the last matching pair in loop order. */
  predicate IsLastMatch(pools: seq<string>, groups: seq<Nodegroup>, i: int, j: int)
  {
    Matches(pools, groups, i, j) &&
    forall i', j' | 0 <= i' < |pools| && 0 <= j' < |groups| :: Matches(pools, groups, i', j') ==> NotAfter(i', j', i, j)
  }

  /** There is at most one last match. */
  lemma LastMatchUnique(pools: seq<string>, groups: seq<Nodegroup>, i1: int, j1: int, i2: int, j2: int)
    requires IsLastMatch(pools, groups, i1, j1) && IsLastMatch(pools, groups, i2, j2)
    ensures i1 == i2 && j1 == j2
  {
  }

  /** The nested search: every matching pair overwrites the selection, so the last
      pair in loop order decides it, and without a match it stays the zero value. */
  method SelectNodeGroup(pools: seq<string>, groups: seq<Nodegroup>) returns (sel: Selection)
    ensures (forall i, j :: !Matches(pools, groups, i, j)) ==> sel == NoSelection
    ensures (exists i, j :: Matches(pools, groups, i, j)) ==>
      exists i, j :: IsLastMatch(pools, groups, i, j) && sel == SelectionOf(groups[j])
  {
    sel := NoSelection;
    ghost var found := false;
    ghost var li, lj := 0, 0;
    for i := 0 to |pools|
      invariant !found ==> sel == NoSelection
      invariant !found ==> forall i', j' :: Matches(pools, groups, i', j') ==> i' >= i
      invariant found ==> Matches(pools, groups, li, lj) && sel == SelectionOf(groups[lj])
      invariant found ==> forall i', j' :: Matches(pools, groups, i', j') && i' < i ==> NotAfter(i', j', li, lj)
      invariant found ==> li < i
    {
      for j := 0 to |groups|
        invariant !found ==> sel == NoSelection
        invariant !found ==> forall i', j' :: Matches(pools, groups, i', j') ==> NotAfter(i, j, i', j')
        invariant found ==> Matches(pools, groups, li, lj) && sel == SelectionOf(groups[lj])
        invariant found ==> forall i', j' :: Matches(pools, groups, i', j') && !NotAfter(i, j, i', j') ==> NotAfter(i', j', li, lj)
        invariant found ==> li <= i
        invariant found && li == i ==> lj < j
      {
        if groups[j].name == pools[i] {
          sel := SelectionOf(groups[j]);
          found, li, lj := true, i, j;
        }
      }
    }
    if found {
      assert IsLastMatch(pools, groups, li, lj);
    }
  }

  // ---------------------------------------------------------------------------
  // The autoscaler's configuration secret
  // ---------------------------------------------------------------------------

  const AutoscalerSecretName := "cluster-autoscaler-azure"
  const AutoscalerSecretNamespace := "kube-system"

  const AutoscalerConfigKeys: set<string> :=
    {"ResourceGroup", "NodeResourceGroup", "ClientID", "ClientSecret", "TenantID", "VMType", "ClusterName", "SubscriptionID"}

  /** The autoscaler's configuration for cluster `name`: exactly eight keys, naming
      the cluster's resource group, node resource group and credentials. */
  predicate AutoscalerConfigFor(config: map<string, string>, name: string, nodeResourceGroup: string, credentials: Credentials)
  {
    config.Keys == AutoscalerConfigKeys &&
    config["ResourceGroup"] == ResourceGroupName(name) &&
    config["NodeResourceGroup"] == nodeResourceGroup &&
    config["ClientID"] == credentials.appId &&
    config["ClientSecret"] == credentials.password &&
    config["TenantID"] == credentials.tenant &&
    config["VMType"] == "AKS" &&
    config["ClusterName"] == name &&
    config["SubscriptionID"] == credentials.subscriptionId
  }

  /** Fills the configuration map key by key. */
  method BuildAutoscalingConfig(name: string, nodeResourceGroup: string, credentials: Credentials)
    returns (config: map<string, string>)
    ensures AutoscalerConfigFor(config, name, nodeResourceGroup, credentials)
  {
    config := map[];
    config := config["ResourceGroup" := ResourceGroupName(name)];
    config := config["NodeResourceGroup" := nodeResourceGroup];
    config := config["ClientID" := credentials.appId];
    config := config["ClientSecret" := credentials.password];
    config := config["TenantID" := credentials.tenant];
    config := config["VMType" := "AKS"];
    config := config["ClusterName" := name];
    config := config["SubscriptionID" := credentials.subscriptionId];
  }
}

/** Values exchanged by the cluster handlers of cma-aks: the RPC request and reply
    messages, the inputs and answers of the AKS management SDK and of the remote
    cluster's Kubernetes API, and the record of which of those calls a handler made. */
module ApiTypes {

  /** The protobuf `int32` used for node counts and autoscaling bounds. */
  newtype int32 = x: int | -0x8000_0000 <= x < 0x8000_0000

  datatype Option<+T> = None | Some(value: T)

  // ---------------------------------------------------------------------------
  // RPC messages (the generated `pb` package)
  // ---------------------------------------------------------------------------

  /** The six-value status enumeration of the RPC interface. */
  datatype ClusterStatus =
    | StatusUnspecified
    | Provisioning
    | Running
    | Reconciling
    | Stopping
    | Error

  /** Caller-supplied Azure credentials (tenant, application id, password, subscription). */
  datatype Credentials = Credentials(tenant: string, appId: string, password: string, subscriptionId: string)

  /** One requested worker pool of a new cluster. */
  datatype InstanceGroup = InstanceGroup(name: string, vmType: string, minQuantity: int32, maxQuantity: int32)

  datatype Tag = Tag(key: string, value: string)

  /** The service principal the new cluster itself runs as. */
  datatype ClusterAccount = ClusterAccount(clientId: string, clientSecret: string)

  datatype CreateClusterMsg = CreateClusterMsg(
    name: string,
    k8sVersion: string,
    credentials: Credentials,
    location: string,
    instanceGroups: seq<InstanceGroup>,
    clusterAccount: ClusterAccount,
    tags: seq<Tag>)

  /** The request of GetCluster, DeleteCluster, GetClusterUpgrades and GetClusterNodeCount. */
  datatype ClusterMsg = ClusterMsg(name: string, credentials: Credentials)

  datatype UpgradeClusterMsg = UpgradeClusterMsg(name: string, k8sVersion: string, credentials: Credentials)

  datatype ScaleClusterMsg = ScaleClusterMsg(name: string, nodePool: string, count: int32, credentials: Credentials)

  /** A node group named in an autoscaling request, with its bounds. */
  datatype Nodegroup = Nodegroup(name: string, minQuantity: int32, maxQuantity: int32)

  datatype EnableClusterAutoscalingMsg = EnableClusterAutoscalingMsg(
    name: string,
    credentials: Credentials,
    nodegroups: seq<Nodegroup>)

  datatype ClusterItem = ClusterItem(id: string, name: string, status: ClusterStatus)

  datatype ClusterDetailItem = ClusterDetailItem(id: string, name: string, status: ClusterStatus, kubeconfig: string)

  datatype Upgrade = Upgrade(version: string)

  datatype CreateClusterReply = CreateClusterReply(ok: bool, cluster: ClusterItem)
  datatype GetClusterReply = GetClusterReply(ok: bool, cluster: ClusterDetailItem)
  datatype DeleteClusterReply = DeleteClusterReply(ok: bool, status: ClusterStatus)
  datatype GetClusterListReply = GetClusterListReply(ok: bool, clusters: seq<ClusterItem>)
  datatype GetClusterUpgradesReply = GetClusterUpgradesReply(ok: bool, upgrades: seq<Upgrade>)
  datatype UpgradeClusterReply = UpgradeClusterReply(ok: bool, cluster: ClusterItem)
  datatype GetClusterNodeCountReply = GetClusterNodeCountReply(ok: bool, name: string, count: int32)
  datatype ScaleClusterReply = ScaleClusterReply(ok: bool, status: ClusterStatus)
  datatype EnableClusterAutoscalingReply = EnableClusterAutoscalingReply(ok: bool)

  /** The error a handler returns, identified by the stage that failed; `cause` is the
      collaborator's own error, which the handler wraps. `Upstream` is a collaborator
      error returned without wrapping. */
  datatype Failure =
    | CannotGetClient(cause: string)
    | CreatingResourceGroup(cause: string)
    | CreatingCluster(cause: string)
    | Upstream(cause: string)
    | RetrievingUpgrades(cause: string)
    | UpgradingCluster(cause: string)
    | RetrievingNodeCount(cause: string)
    | ScalingCluster(cause: string)
    | NodeGroupNotFound
    | EnablingAutoscaling(cause: string)
    | DeletingResourceGroup(cause: string)

  /** A handler's result: a reply, or the error returned in its place. */
  datatype Result<+T> = Ok(value: T) | Err(error: Failure)

  // ---------------------------------------------------------------------------
  // The AKS SDK wrapper (`azureutil`) and the Kubernetes helper (`k8s`)
  // ---------------------------------------------------------------------------

  /** The answer of one collaborator call: a value, or an error. */
  datatype Outcome<+T> = Success(value: T) | Failed(cause: string)

  /** `az.Agent`: one agent pool handed to cluster creation; its pointer fields are
      modelled by the values they point to. */
  datatype Agent = Agent(name: string, count: int32, vmType: string)

  /** `az.CreateClusterInput`. Of the tag map only the key set is modelled. */
  datatype CreateClusterInput = CreateClusterInput(
    name: string,
    location: string,
    k8sVersion: string,
    clientId: string,
    clientSecret: string,
    agentPools: seq<Agent>,
    tagKeys: set<string>)

  /** One managed cluster as the list call reports it. */
  datatype ListedCluster = ListedCluster(id: string, name: string, provisioningState: string)

  /** One managed cluster as the get call reports it. */
  datatype ClusterDetails = ClusterDetails(
    id: string,
    name: string,
    status: string,
    kubeconfig: string,
    agentPoolNames: seq<string>,
    nodeResourceGroup: string)

  /** The client configuration `k8s.SetKubeConfig` builds for the remote cluster. */
  datatype RestConfig = RestConfig(host: string)

  /** `k8s.SetKubeConfig` returns a configuration (possibly nil) and an error; both are modelled. */
  datatype KubeConfigAnswer = KubeConfigAnswer(config: Option<RestConfig>, err: Option<string>)

  /** What each collaborator answers during one request. A handler consults only the
      fields for the calls it makes. */
  datatype Provider = Provider(
    groupExists: bool,
    createGroup: Outcome<()>,
    clusterClient: Outcome<()>,
    createCluster: Outcome<string>,
    getCluster: Outcome<ClusterDetails>,
    deleteCluster: Outcome<string>,
    deleteGroup: Outcome<()>,
    listClusters: Outcome<seq<ListedCluster>>,
    clusterUpgrades: Outcome<seq<string>>,
    upgradeCluster: Outcome<string>,
    nodeCount: Outcome<Agent>,
    scaleCluster: Outcome<string>,
    setKubeConfig: KubeConfigAnswer,
    createSecret: Outcome<()>,
    createDeployment: Outcome<()>)

  /** One call a handler makes into a collaborator, with the arguments it passes. */
  datatype Call =
    | GetGroupsClient(credentials: Credentials)
    | CheckForGroup(groupName: string)
    | CreateGroup(groupName: string, location: string)
    | DeleteGroup(groupName: string)
    | GetClusterClient(credentials: Credentials)
    | CreateCluster(input: CreateClusterInput)
    | GetCluster(clusterName: string)
    | DeleteCluster(clusterName: string)
    | ListClusters
    | GetClusterUpgrades(clusterName: string)
    | UpgradeCluster(clusterName: string, k8sVersion: string)
    | GetClusterNodeCount(clusterName: string)
    | ScaleClusterNodeCount(clusterName: string, nodePool: string, count: int32)
    | SetKubeConfig(clusterName: string, kubeconfig: string)
    | CreateAutoScaleSecret(secretName: string, namespace: string, data: map<string, string>, restConfig: Option<RestConfig>)
    | CreateAutoScaleDeployment(agentPoolName: string, minQuantity: int32, maxQuantity: int32, restConfig: Option<RestConfig>)
}

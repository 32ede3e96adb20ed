# cma-aks cluster handlers in Dafny

This project models `internal/apiserver/cluster.go` of cma-aks. That file is the gRPC
front end that creates, reads, deletes, lists, upgrades, scales and enables autoscaling for
Azure managed Kubernetes (AKS) clusters. Every handler asks the AKS SDK wrapper
(`azureutil`) for a client built from the caller's credentials, makes its provider calls and
builds a reply. The handlers differ in what comes before and after:

- `CreateCluster` first checks for the resource group with a groups client and creates the
  group when it is absent. Only then does it ask for the cluster client and make the creation
  call. That is up to three provider calls.
- `DeleteCluster` makes two provider calls: the cluster delete, then the group delete.
- `GetCluster`, `GetClusterList`, `UpgradeCluster` and `ScaleCluster` make one provider call.
- These four, `CreateCluster` and `DeleteCluster` translate the provider's status string into
  the six-value `ClusterStatus`.
- `GetClusterUpgrades` and `GetClusterNodeCount` make one provider call and translate no
  status.
- `EnableClusterAutoscaling` fetches the cluster and translates no status. It then makes
  three calls into the remote cluster's Kubernetes API: the client configuration, a secret
  and a deployment.

The model has three modules:

- `ApiTypes` (`api_types.dfy`) holds the RPC messages and replies, the SDK inputs and answers,
  the `Failure` value that names the stage that failed, and `Call`, one provider or Kubernetes
  call together with its arguments.
- `Cluster` (`cluster.dfy`) holds the deterministic rules:
  - the status table `MatchStatus`;
  - the synthesised ids `ResourceGroupName` and `ClusterId`;
  - the loops that build the agent-pool list, the tag keys, the list items and the upgrade list;
  - the nested node-group search of `EnableClusterAutoscaling`;
  - the eight-key autoscaler configuration.
- `ClusterServer` (`handlers.dfy`) holds one method per handler.

External collaborators are modelled as a `Provider` value. It holds the answer each SDK or
`k8s` call gives during one request. A handler method takes the request and the `Provider`.
It returns its reply or error and `calls`, the calls it made, in order. Each handler's
postconditions state, case by case:

- the reply or error;
- the exact call sequence, including which calls are not made after an early error return.

The loops are methods with loop invariants. Their postconditions state outright what the
loops build.

Three details of the code that a reader may not expect:

- `EnableClusterAutoscaling` fails when the selected pool name is empty. That covers "no node
  group matches", and also a match between an empty node-group name and an empty pool name.
- `CheckForGroup` returns only a boolean, so the existence check has no error path.
- In `DeleteCluster` the group-delete error is always swallowed (see Findings).

## Model

| member | source | states |
|---|---|---|
| `Cluster.MatchStatus` | internal/apiserver/cluster.go:13-30 | The translation is total. "Creating" is the only preimage of PROVISIONING. "Updating" and "Upgrading" are exactly those of RECONCILING. "Succeeded" is the only one of RUNNING, "Deleting" of STOPPING and "Failed" of ERROR. Every other string, "" included, maps to STATUS_UNSPECIFIED. |
| `Cluster.ResourceGroupName` | internal/apiserver/cluster.go:406 | The group name is the cluster name followed by a six-character suffix. |
| `Cluster.ClusterId` | internal/apiserver/cluster.go:88 | The id starts with the cluster's resource-group id `/subscriptions/<sub>/resourcegroups/<name>-group`. Its first part is `/subscriptions/<sub>` and it ends with the cluster name. Its length is fixed by the lengths of the subscription and the name. |
| `Cluster.ClusterIdInjectiveInName` | internal/apiserver/cluster.go:88 | Within one subscription, two clusters with equal ids have equal names. |
| `Cluster.ClusterIdInjectiveInSubscription` | internal/apiserver/cluster.go:286 | For one cluster name, equal ids mean equal subscriptions. |
| `Cluster.BuildAgentPools` | internal/apiserver/cluster.go:61-66 | The pool list has one entry per instance group. Entry i copies the name, the MinQuantity (as Count) and the Type of instance group i. |
| `Cluster.BuildTagKeys` | internal/apiserver/cluster.go:68-72 | A string is a key of the tag map exactly when some requested tag has it as its key. |
| `Cluster.ClusterItems` | internal/apiserver/cluster.go:202-213 | There is one item per provider cluster, in provider order. Id and name are copied verbatim and the status is `MatchStatus` of the provisioning state. |
| `Cluster.UpgradeItems` | internal/apiserver/cluster.go:245-252 | There is one upgrade per offered version string, in order. |
| `Cluster.LastMatchUnique` | internal/apiserver/cluster.go:391-399 | At most one (pool, node group) pair is the last match in loop order. |
| `Cluster.SelectNodeGroup` | internal/apiserver/cluster.go:379-399 | With no matching pair the selection stays the zero value ("", 0, 0). Otherwise it is the name, min and max of node group j for the pair (i, j) that comes last in outer-pool, inner-node-group order. |
| `Cluster.BuildAutoscalingConfig` | internal/apiserver/cluster.go:404-413 | The configuration has exactly the eight keys. ResourceGroup is name + "-group", VMType is "AKS" and ClusterName is the name. NodeResourceGroup, ClientID, ClientSecret, TenantID and SubscriptionID are copied from the cluster and the credentials. |
| `ClusterServer.CreateCluster` | internal/apiserver/cluster.go:32-104 | The group is created exactly when it is absent. A failed group creation returns its error before a cluster client is requested. A client failure returns "cannot get aks client" before the creation call. The creation input copies the request (pools per `AgentPoolsFrom`, tag keys). On success the reply is ok with id `ClusterId(sub, name)`, the request's name and `MatchStatus` of the provider status. |
| `ClusterServer.DemoClusterId` | internal/apiserver/cluster.go:88 | The id of cluster "demo" in subscription "sub1" is `/subscriptions/sub1/resourcegroups/demo-group/providers/Microsoft.ContainerService/managedClusters/demo`. |
| `ClusterServer.CreateDemoCluster` | internal/apiserver/cluster.go:88-103 | Creating "demo" with one pool, while the provider answers "Creating", replies ok with that id, the name "demo" and PROVISIONING. |
| `ClusterServer.GetCluster` | internal/apiserver/cluster.go:106-139 | A client failure stops after the client call. A lookup failure is returned unwrapped. Otherwise the reply copies the provider's id, name and kubeconfig, with the translated status. |
| `ClusterServer.DeleteCluster` | internal/apiserver/cluster.go:141-179 | A client failure or a failed cluster delete returns at once, with no group delete. After a successful delete the group delete is always attempted. The reply is then ok with `MatchStatus` of the delete status, whatever the group delete answers. |
| `ClusterServer.DeleteWithFailingGroupDelete` | internal/apiserver/cluster.go:168-178 | A group delete that fails after a cluster delete answering "Deleting" still gives the reply ok with STOPPING. |
| `ClusterServer.DeleteClusterChecked` | internal/apiserver/cluster.go:168-173 | The same calls as `DeleteCluster`. Here the reply is ok exactly when the client, the cluster delete and the group delete all succeed. A failed group delete returns "error deleting resource group" with that call's error. |
| `ClusterServer.GetClusterList` | internal/apiserver/cluster.go:181-220 | A client failure or list failure is returned with no reply. Otherwise the reply holds one item per provider cluster, in order, with id and name verbatim and the status translated. |
| `ClusterServer.GetClusterUpgrades` | internal/apiserver/cluster.go:222-258 | A client failure or query failure is returned as its stage's error. Otherwise the reply holds one upgrade per version string, in order. |
| `ClusterServer.UpgradeCluster` | internal/apiserver/cluster.go:260-298 | The upgrade call gets the request's name and version. On success the reply is ok with id `ClusterId(sub, name)`, the request's name and the translated status. |
| `ClusterServer.GetClusterNodeCount` | internal/apiserver/cluster.go:300-327 | On success the reply copies the name and count of the provider's agent pool. Each failure is returned as its stage's error. |
| `ClusterServer.ScaleCluster` | internal/apiserver/cluster.go:329-360 | The resize call gets the name, node pool and count. On success the reply is ok with `MatchStatus` of the operation status. |
| `ClusterServer.EnableClusterAutoscaling` | internal/apiserver/cluster.go:362-434 | Client, then cluster fetch: each failure stops there. When some pair matches, a last matching pair exists. With no matching pair, or with an empty name at the last match, the call fails with "node group not found" and nothing is sent to the cluster. Otherwise it makes three calls: the kubeconfig call; the secret "cluster-autoscaler-azure" in "kube-system" holding the eight-key configuration; the deployment with the last match's name, min and max. Only the deployment's error fails the call. |
| `ClusterServer.AutoscaleWithConflictingNodegroups` | internal/apiserver/cluster.go:391-433 | With two requested node groups naming the one pool, the later one's bounds go to the deployment. The call succeeds even though the secret creation fails. |

## Left out

- The AKS SDK (`az.*`) and the Kubernetes helper (`k8s.*`) are network calls into code that
  is not part of this model. Their answers are fields of `Provider`, fixed for the request.
  Their arguments are recorded in `calls`.
- `azureutil` is not part of this model. So the model records the resource-group name exactly
  as the handlers pass it (the cluster name). Any suffix these calls add internally is not
  modelled.
- `context.Context`, cancellation and deadlines are not modelled. Neither is the `Server`
  receiver, which the handlers never read.
- The `logger.Errorf` warnings (cluster.go:92-94, 165-167) are left out. They do not affect
  any result.
- Protobuf and gRPC marshalling are left out.
- Pointer dereferences are modelled by the values they reach. A nil pointer in a provider
  answer, which would panic, is not modelled.
- The agent pools point into the request's instance groups. The model copies the values and
  does not model that aliasing.
- Cluster.BuildTagKeys: states only the key set of the tag map. Each value is `&tag.Value`,
  the address of the loop's range variable. Under pre-1.22 Go semantics every value aliases
  that one variable, so no per-key value is claimed.
- The `[]byte` conversions of the autoscaler configuration are left out. Its values are
  modelled as strings.
- Exact error texts are left out. A `Failure` names the failing stage and carries the
  collaborator's error.
- The widths of the generated protobuf fields are not part of this model. Counts and
  autoscaling bounds are modelled as `int32` and are only copied, never computed with.

## Findings

| source | as written | input that shows it | evidently intended | confidence | as-written member | corrected member |
|---|---|---|---|---|---|---|
| internal/apiserver/cluster.go:170-173 | After the group delete, the check tests `err`, which is nil once the cluster delete has succeeded. So a failed group delete is never reported. | Client ok, cluster delete answers "Deleting", group delete fails. The reply is ok with STOPPING. | Test `deleteGroupErr`, as the message "error deleting resource group: %v", deleteGroupErr shows, and return that error. | high; not executed | `ClusterServer.DeleteWithFailingGroupDelete` | `ClusterServer.DeleteClusterChecked` |

/**
 * The objects the server receives from the Kubernetes client library, and the
 * outcomes of the library calls it makes. None of this is computed by the
 * server: every operation of the model takes these as inputs.
 */
module Upstream {
  import opened Wrappers

  /** Which `except` clause an exception reaches. */
  datatype FaultKind = ApiKind | ConfigKind | OtherKind

  /**
   * An exception raised by a library call. `text` stands for `str(e)`, which the
   * server only ever embeds as it is.
   */
  datatype Fault =
    | ApiFault(status: int, reason: string, body: string, text: string)  // ApiException
    | ConfigFault(text: string)                                           // ConfigException
    | OtherFault(text: string)                                            // any other Exception
  {
    function Kind(): FaultKind {
      match this
      case ApiFault(_, _, _, _) => ApiKind
      case ConfigFault(_) => ConfigKind
      case OtherFault(_) => OtherKind
    }
  }

  /** One entry of `pod.status.container_statuses`. */
  datatype ContainerStatus = ContainerStatus(ready: bool, restartCount: int)

  /**
   * The parts of an upstream pod object the server reads: `metadata.name`,
   * `metadata.namespace`, `status.phase`, `spec.node_name` (optional) and
   * `status.container_statuses` (optional).
   */
  datatype Pod = Pod(
    name: string,
    namespace: string,
    phase: string,
    nodeName: Option<string>,
    containerStatuses: Option<seq<ContainerStatus>>)

  /** The `"context"` map of a kubeconfig context entry; only its `"user"` key is read. */
  datatype ContextInfo = ContextInfo(user: Option<string>)

  /**
   * A kubeconfig context entry (a dict): its optional `"name"` and `"context"`
   * keys, and how many other keys it has (which matters only for whether the
   * dict is empty).
   */
  datatype ContextEntry = ContextEntry(name: Option<string>, context: Option<ContextInfo>, otherKeys: nat)

  /** The outcome of `config.list_kube_config_contexts()`: `(contexts, active)`, or an exception. */
  datatype Kubeconfig =
    | Contexts(contexts: seq<ContextEntry>, active: Option<ContextEntry>)
    | ReadFailed(fault: Fault)

  /** The list call made: `list_pod_for_all_namespaces` or `list_namespaced_pod(namespace)`. */
  datatype ListRequest = AllNamespaces | InNamespace(namespace: string)

  /** The outcome of a call that returns nothing the server reads. */
  datatype Outcome = Pass | Fail(fault: Fault)

  /**
   * The cluster and its kubeconfig as the server sees them during one tool call.
   * `connect(context)` is the outcome of `get_core_v1_api(context)`; it is a
   * function of the context within one tool call. `serverVersion` is the
   * `git_version` of the version call.
   */
  datatype Cluster = Cluster(
    connect: Option<string> -> Outcome,
    kubeconfig: Kubeconfig,
    listPods: ListRequest -> Result<seq<Pod>, Fault>,
    serverVersion: Result<string, Fault>)
}

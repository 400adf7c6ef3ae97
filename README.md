# A model of the tiny Kubernetes MCP server

The server exposes two read-only cluster queries as tools:

- `health_check` is meant to confirm that the cluster answers and to report the server version and the caller's identity; as written it never passes once the client is built (see "## Findings");
- `get_pods` lists the pods of one namespace, or of all namespaces, as text.

This project models the logic the server itself contains, in Dafny:

- turning upstream pod objects into flat `PodInfo` records (ready, total and restart counts, node fallback);
- rendering those records, and every exception, as the text the tool returns;
- resolving the identity line from the kubeconfig contexts (`get_identity`), including the first-match scan by name and the fallbacks;
- choosing the health-check banner by outcome and exception class;
- forwarding `get_pods` to the pod listing with the same defaults.

Everything the server obtains from the Kubernetes client library comes in as a value (module `Upstream`). This covers:

- the pods of a list call;
- the contexts and the active context read from the kubeconfig;
- the outcome of building the client;
- the server version;
- the exception each of these may raise.

A `Cluster` carries these values for one tool call. An exception is one of three classes: `ApiFault` (ApiException, with status, reason and body), `ConfigFault` (ConfigException) and `OtherFault` (any other exception). Each class holds its `str(e)` text as an opaque string.

Modules:

- `Wrappers` defines `Option` and `Result`.
- `Text` defines the Python string operations the rendering uses, `"\n".join` (as `Join`) and `str` of an integer (as `IntToString`). It also defines `Lines`, Python's `split("\n")`, which the program never calls and which serves only to state properties of the output line by line.
- `Upstream` holds the library's objects and outcomes.
- `Config` holds the default namespace.
- `Client` models `get_identity`.
- `Pods` models `PodInfo`, `format_pods_output` and `get_pods_tool`.
- `Server` models `health_check` and `get_pods`.

`Server.HealthCheck` is the health check with its version call corrected (see "## Findings"): it takes the outcome of the version call as an input, `Cluster.serverVersion`, in place of `api.get_code()` on the core API object. `Server.HealthCheckAsWritten` models the code as it stands.

`format_pods_output`, the mapping loop of `get_pods_tool` and the context scan of `get_identity` are loops in the source, so they are methods with loop invariants. Each method is proved equal to a specification function (`Pods.Render`, `Pods.PodInfos`, `Client.SelectContext`), and the lemmas are stated about those functions.

## Model

| member | source | states |
|---|---|---|
| Pods.CountReady | k8s_mcp_server/resources/pods.py:88 | the ready count never exceeds the number of statuses |
| Pods.AllReadyIff | k8s_mcp_server/resources/pods.py:88-89 | ready equals total exactly when every container reports ready |
| Pods.NoneReadyIff | k8s_mcp_server/resources/pods.py:88 | ready is zero exactly when no container reports ready |
| Pods.CountReadyAppend | k8s_mcp_server/resources/pods.py:88 | the ready count of two status lists one after the other is the sum of their counts |
| Pods.SumRestartsAppend | k8s_mcp_server/resources/pods.py:90 | the restart sum of two status lists one after the other is the sum of their sums |
| Pods.OneStatus | k8s_mcp_server/resources/pods.py:88-90 | a single status counts one exactly when it is ready and contributes its own restart count |
| Pods.SumRestartsBounds | k8s_mcp_server/resources/pods.py:90 | with non-negative restart counts the sum is non-negative, and it is zero exactly when every count is zero |
| Pods.NodeOf | k8s_mcp_server/resources/pods.py:87 | the node is `node_name` when that is set and non-empty, otherwise `"unscheduled"`; it is never empty |
| Pods.ToPodInfo | k8s_mcp_server/resources/pods.py:82-91 | name, namespace and phase are copied; total is the number of statuses, with missing statuses read as none; 0 <= ready <= total; the node is the one `Pods.NodeOf` chooses; missing statuses give zero ready, total and restarts |
| Pods.BarePod | k8s_mcp_server/resources/pods.py:82-90 | a pod with no node and no (or an empty list of) statuses maps to `unscheduled, 0, 0, 0` |
| Pods.MapPods | k8s_mcp_server/resources/pods.py:79-91 | the loop yields one record per pod, in input order |
| Pods.BlocksSnoc | k8s_mcp_server/resources/pods.py:40-45 | the blocks of a list with one more pod are the earlier blocks followed by that pod's block |
| Pods.BlocksOfPrefix | k8s_mcp_server/resources/pods.py:40-45 | appending a pod's record appends exactly that pod's block |
| Pods.FormatPodsOutput | k8s_mcp_server/resources/pods.py:23-47 | an empty list gives the exact `No pods found in …` message; otherwise the loop yields the header and one block per pod joined with line breaks |
| Pods.RenderSingle | k8s_mcp_server/resources/pods.py:38-47 | one pod renders as the header, a blank line and its block |
| Pods.RenderSnoc | k8s_mcp_server/resources/pods.py:40-47 | one more pod adds a line break and its block at the end, leaving the earlier text unchanged |
| Pods.BulletNoBreak | k8s_mcp_server/resources/pods.py:42 | the bullet prefix (the mojibake `â€¢` in the source) holds no line break |
| Pods.PodLinesNoBreak | k8s_mcp_server/resources/pods.py:42-44 | with break-free fields, none of the three lines of a block holds a line break |
| Pods.BlockLines | k8s_mcp_server/resources/pods.py:41-45 | a block splits into the bullet line, the status line and the ready line |
| Pods.BlocksOfTail | k8s_mcp_server/resources/pods.py:40-45 | the blocks of a list are the first pod's block followed by the blocks of the rest |
| Pods.BlocksLines | k8s_mcp_server/resources/pods.py:40-47 | the blocks split into three lines per pod, in order |
| Pods.PodLinesLength | k8s_mcp_server/resources/pods.py:40-45 | there are exactly three lines per pod |
| Pods.PodTripleAt | k8s_mcp_server/resources/pods.py:40-45 | lines 3k to 3k+2 are the three lines of the k-th pod's block |
| Pods.PodLinesAt | k8s_mcp_server/resources/pods.py:40-45 | lines 3k, 3k+1 and 3k+2 are the bullet, status and ready lines of the k-th pod |
| Pods.HeaderLines | k8s_mcp_server/resources/pods.py:38 | the header is `Pods in <scope>`, `Identity: <identity>` and an empty line |
| Pods.RenderLines | k8s_mcp_server/resources/pods.py:38-47 | a non-empty listing splits into the two header lines, an empty line and three lines per pod in input order |
| Pods.RenderLineAt | k8s_mcp_server/resources/pods.py:38-47 | the listing has 3 + 3n lines, and the k-th pod's lines sit at 3+3k, 4+3k and 5+3k |
| Pods.RenderEmptyLines | k8s_mcp_server/resources/pods.py:35-36 | an empty listing is exactly the two lines `No pods found in <scope>` and `Identity: <identity>` |
| Pods.GetPodsTool | k8s_mcp_server/resources/pods.py:50-107 | the tool returns the report of the cluster: the listing, or the message of the first exception raised |
| Pods.ReportOnFault | k8s_mcp_server/resources/pods.py:95-107 | each exception class gives its own exact message, carrying status, reason and body for an API error |
| Pods.RenderStartsWithHeader | k8s_mcp_server/resources/pods.py:38-47 | a non-empty listing is the header, a line break, and the blocks joined by line breaks |
| Pods.ApiMessageKind | k8s_mcp_server/resources/pods.py:95-99 | the API-error message is read back as an API error |
| Pods.ConfigMessageKind | k8s_mcp_server/resources/pods.py:100-103 | the configuration-error message is read back as a configuration error |
| Pods.OtherMessageKind | k8s_mcp_server/resources/pods.py:104-107 | the message of any other exception is read back as that class |
| Pods.FaultMessageKind | k8s_mcp_server/resources/pods.py:95-107 | the message of an exception is recognised as exactly its class: the three messages are distinct |
| Pods.RenderKind | k8s_mcp_server/resources/pods.py:35-47 | no listing is mistaken for an error message |
| Pods.ReportedKindOfReport | k8s_mcp_server/resources/pods.py:66-107 | the tool never raises: its output reports no exception when none was raised, and exactly the class of the one raised otherwise |
| Pods.AllNamespacesIgnoresNamespace | k8s_mcp_server/resources/pods.py:71-73 | with `all_namespaces` the cluster-wide list is asked for, the scope is `ALL namespaces`, and the namespace argument does not matter |
| Pods.NamespacedListsOnlyThatNamespace | k8s_mcp_server/resources/pods.py:74-76 | without `all_namespaces` the scope is `namespace '<ns>'`, and the output depends only on the list returned for that namespace |
| Pods.ListingReport | k8s_mcp_server/resources/pods.py:66-93 | when nothing raises, the output renders the records of the listed pods under the chosen scope and identity |
| Pods.ScopeNoBreak | k8s_mcp_server/resources/pods.py:71-76 | the scope holds no line break when it lists every namespace, or when the namespace holds none |
| Pods.InfosNoBreak | k8s_mcp_server/resources/pods.py:79-91 | the records of break-free pods are break-free |
| Pods.ReportListsEveryPod | k8s_mcp_server/resources/pods.py:66-93 | the output of a listing has 3 + 3n lines, and the k-th pod's bullet, status and ready lines are at 3+3k, 4+3k and 5+3k, with ready <= total |
| Pods.NotReadyPodReadyLine | k8s_mcp_server/resources/pods.py:44 | the exact ready line of a pod with no ready container and three restarts |
| Pods.KubeSystemRecords | k8s_mcp_server/resources/pods.py:79-91 | two concrete pods, one ready on a node and one not ready and unscheduled, map to the expected records |
| Client.KindIdentity | k8s_mcp_server/client.py:46-50 | a kubeconfig whose active context is `kind` with user `kind-admin` gives `context=kind, user=kind-admin` |
| Pods.KubeSystemListing | k8s_mcp_server/resources/pods.py:66-93 | the two concrete pods listed in `kube-system` render as their two records under `namespace 'kube-system'` |
| Client.FirstMatch | k8s_mcp_server/client.py:41-44 | the index found is the first entry whose name is the one asked for, or no entry has that name |
| Client.SelectContext | k8s_mcp_server/client.py:37-44 | with a non-empty name, the first entry of that name is chosen; with no match, or no or an empty name, the active context is kept |
| Client.ScanContexts | k8s_mcp_server/client.py:40-44 | the loop with its break selects the context the specification selects |
| Client.RenderIdentity | k8s_mcp_server/client.py:46-50 | no context gives `context=n/a, user=n/a`; otherwise the line is built from the context's name and user, with `n/a` for what is missing, which also covers the empty entry |
| Client.GetIdentity | k8s_mcp_server/client.py:26-53 | the method returns the identity the specification function gives |
| Client.IdentityOfRequestedContext | k8s_mcp_server/client.py:40-50 | asking for a name that is present reports that name and the user of its first entry |
| Client.IdentityOfActiveContext | k8s_mcp_server/client.py:37-47 | with no match, or no name asked for, the active context is reported, and an absent or empty one gives `context=n/a, user=n/a` |
| Client.IdentityShape | k8s_mcp_server/client.py:46-53 | every identity has the shape `context=<name>, user=<user>` |
| Client.IdentityOnConfigError | k8s_mcp_server/client.py:51-53 | a ConfigException while reading the contexts gives `context=<requested, or unknown>, user=unknown` |
| Client.IdentityPropagatesOtherFaults | k8s_mcp_server/client.py:36-53 | any other exception is not swallowed: it reaches the caller |
| Server.HealthFailure | k8s_mcp_server/server.py:45-49 | every failure banner starts with `✗ Health check failed: `; API and config exceptions follow it with `Could not connect to Kubernetes.\nError: ` and the exception text, any other exception with its text alone |
| Server.HealthCheck | k8s_mcp_server/server.py:18-49 | (corrected check) the banner starts with `✗ Health check failed: ` exactly when building the client, asking for the version or reading the identity raises |
| Server.HealthPassedIff | k8s_mcp_server/server.py:28-49 | (corrected check) the banner starts with `✓` exactly when no call raises, and with `✗` exactly when one does |
| Server.HealthOutcome | k8s_mcp_server/server.py:28-49 | (corrected check) a failed check shows the first exception met, in the order client, version, identity; a passed check shows the banner with the version and identity obtained |
| Server.BannerPiecesNoBreak | k8s_mcp_server/server.py:40-43 | the fixed lines of the banner hold no line break |
| Server.PassedBannerLines | k8s_mcp_server/server.py:39-44 | the passed banner is the lines `✓ Health Check Passed`, an empty one, `Successfully connected to Kubernetes API server.`, `Server Version: <version>` and `Identity: <identity>` |
| Server.HealthPassedReport | k8s_mcp_server/server.py:30-44 | (corrected check) a reachable cluster that answers gives the passed banner with its version and identity on their own lines |
| Server.HealthPassesWithUnreadableKubeconfig | k8s_mcp_server/server.py:37-44 | (corrected check) a ConfigException while reading the kubeconfig does not fail the check; the identity is reported as unknown |
| Server.KubeconfigNotReadOnEarlyFailure | k8s_mcp_server/server.py:30-37 | when building the client or asking for the version fails, the kubeconfig contexts are not consulted |
| Server.HealthCheckAsWritten | k8s_mcp_server/server.py:28-49 | as written, every banner is a failure banner, and when building the client fails it is the same banner the corrected check gives |
| Server.HealthCheckAsWrittenNeverPasses | k8s_mcp_server/server.py:33 | as written, the check never passes; after a successful connection it always reports the missing `get_code` |
| Server.HealthCheckAsWrittenDiffers | k8s_mcp_server/server.py:30-44 | for a reachable cluster that answers, the corrected check passes where the one as written fails |
| Server.GetPods | k8s_mcp_server/server.py:53-69 | `get_pods` returns exactly what `get_pods_tool` returns for the same arguments (defaults `"default"`, `false`, none) |

## Left out

- `lru_cache` on the client constructors is left out. Building the client is modelled as a function of the context (`Cluster.connect`) within one tool call. The cache does not keep a raised exception, so a failed build is retried on the next call; the model does not relate one call to the next. `get_apps_v1_api` is unused and not modelled.
- `config.load_kube_config`, `config.list_kube_config_contexts` and the API calls (`list_namespaced_pod`, `list_pod_for_all_namespaces`, the version call) are file and network I/O in the client library. Only their results are modelled, as fields of `Cluster`.
- The FastMCP registration of the tools, `mcp.run()` and the runtime's dispatch of calls are framework plumbing and are not modelled.
- Logging and `setup_logging` are not modelled. Log output does not affect what the tools return.
- The text of `str(e)` for each exception is an opaque string carried by the fault.
- The `watch=False` argument of the list calls is not modelled; it does not change the result.
- Pod fields the library may leave as `None` (`metadata.name`, `metadata.namespace`, `status.phase`) are modelled as strings, so their rendering as `None` is not modelled. A pod whose `metadata`, `spec` or `status` is `None` is not modelled either: `pod.metadata.name` (pods.py:84), `pod.spec.node_name` (pods.py:87) or `pod.status.container_statuses` (pods.py:82) would raise an AttributeError, which the catch-all clause (pods.py:104-107) turns into its message.
- An `ApiException` whose status is `None` is not modelled: the status is an integer.
- Exceptions outside `Exception` (`KeyboardInterrupt`, `SystemExit`) are not modelled.
- A kubeconfig context entry whose `"name"` or `"user"` key holds something other than a string is not modelled. Nor is one whose `"context"` key holds `None`: there `.get("user")` raises an AttributeError (client.py:49), which `get_identity` does not catch, so it reaches the catch-all clause of the caller (pods.py:104-107, server.py:47-49). Keys other than `"name"` and `"context"` are kept only as a count, which decides whether the entry is empty.
- Pods.ToPodInfo: its contract does not restate `ready` and `restarts` as the count and the sum. They are the definitions of `Pods.CountReady` and `Pods.SumRestarts`. `Pods.OneStatus`, `Pods.CountReadyAppend` and `Pods.SumRestartsAppend` pin those down status by status; `Pods.AllReadyIff`, `Pods.NoneReadyIff` and `Pods.SumRestartsBounds` describe them at the extremes.
- The text operations in `Text` stand for the Python builtins `"\n".join` (`Join`) and `str` (`IntToString`); `Lines` models `split("\n")` only as a way to state properties of the output. `IntToString` is proved against its own parser (`Text.IntToStringRoundTrip`), not against Python.

## Findings

| source | as written | input that shows it | evidently intended | confidence | as-written member | corrected member |
|---|---|---|---|---|---|---|
| k8s_mcp_server/server.py:33 | the server version is asked of the `CoreV1Api` object returned by `get_core_v1_api`, but in the Kubernetes client `get_code` belongs to `VersionApi`, so the call raises an AttributeError, which is caught by the last clause | any cluster for which building the client succeeds: the result is `✗ Health check failed: 'CoreV1Api' object has no attribute 'get_code'` | ask the version API for `get_code()`, then report `✓ Health Check Passed` with its `git_version` and the identity | medium; not executed | Server.HealthCheckAsWritten (Server.HealthCheckAsWrittenNeverPasses) | Server.HealthCheck (Server.HealthPassedIff, Server.HealthPassedReport) |

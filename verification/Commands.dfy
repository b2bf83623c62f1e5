/** The allowlist gate and response correlation of internal/commands/commands.go.  The Kubernetes call
    behind the gate is an outcome chosen by the caller of the model.
 */
module Commands {

  datatype Request = Request(requestId: string, command: string, parameters: map<string, string>)

  datatype Outcome = Data(data: string) | Failure(message: string)

  datatype Response = Response(command: string, clusterId: string, requestId: string,
                               data: string, status: string, error: string)

  /** What the agent advertises (capabilities.All). */
  const CAPABILITIES: seq<string> := [
    "get_pods", "get_pod", "describe_pod", "get_logs", "get_events", "get_nodes", "get_namespaces",
    "get_deployments", "get_statefulsets", "get_daemonsets", "get_services", "get_ingresses",
    "get_resource_usage", "get_cluster_health", "get_workload_health", "get_restart_analysis",
    "get_failed_workloads", "get_pending_pods", "get_crashloop_pods", "get_node_conditions"]

  /** What the agent executes (commands.allowed). */
  const ALLOWLIST: set<string> := {
    "get_pods", "get_pod", "describe_pod", "get_logs", "get_events", "get_nodes",
    "get_namespaces", "get_deployments", "get_statefulsets", "get_daemonsets", "get_services",
    "get_ingresses", "get_resource_usage", "get_cluster_health", "get_workload_health",
    "get_restart_analysis", "get_failed_workloads", "get_pending_pods", "get_crashloop_pods",
    "get_node_conditions"}

  lemma AdvertisedIsAllowed(c: string)
    requires c in CAPABILITIES
    ensures c in ALLOWLIST
  {
    var i :| 0 <= i < |CAPABILITIES| && CAPABILITIES[i] == c;
  }

  lemma AllowedIsAdvertised(c: string)
    requires c in ALLOWLIST
    ensures c in CAPABILITIES
  {
    assert CAPABILITIES[0] == "get_pods" && CAPABILITIES[1] == "get_pod" && CAPABILITIES[2] == "describe_pod";
    assert CAPABILITIES[3] == "get_logs" && CAPABILITIES[4] == "get_events" && CAPABILITIES[5] == "get_nodes";
    assert CAPABILITIES[6] == "get_namespaces" && CAPABILITIES[7] == "get_deployments";
    assert CAPABILITIES[8] == "get_statefulsets" && CAPABILITIES[9] == "get_daemonsets";
    assert CAPABILITIES[10] == "get_services" && CAPABILITIES[11] == "get_ingresses";
    assert CAPABILITIES[12] == "get_resource_usage" && CAPABILITIES[13] == "get_cluster_health";
    assert CAPABILITIES[14] == "get_workload_health" && CAPABILITIES[15] == "get_restart_analysis";
    assert CAPABILITIES[16] == "get_failed_workloads" && CAPABILITIES[17] == "get_pending_pods";
    assert CAPABILITIES[18] == "get_crashloop_pods" && CAPABILITIES[19] == "get_node_conditions";
  }

  /** A command is executed exactly when it is advertised. */
  lemma AdvertisedIsExecutable(c: string)
    ensures c in CAPABILITIES <==> c in ALLOWLIST
  {
    if c in CAPABILITIES {
      AdvertisedIsAllowed(c);
    }
    if c in ALLOWLIST {
      AllowedIsAdvertised(c);
    }
  }

  function Fail(clusterId: string, req: Request, message: string): Response {
    Response(req.command, clusterId, req.requestId, "{}", "error", message)
  }

  function Execute(clusterId: string, req: Request, outcome: Outcome): (r: Response)
    ensures r.requestId == req.requestId && r.command == req.command && r.clusterId == clusterId
    ensures r.status == "success" <==> req.command in CAPABILITIES && outcome.Data?
    ensures r.status == "success" ==> outcome == Data(r.data) && r.error == ""
    ensures r.status != "success" ==> r.status == "error" && r.data == "{}"
    ensures req.command !in CAPABILITIES ==> r.error == "unsupported capability"
    ensures req.command in CAPABILITIES && outcome.Failure? ==> r.error == outcome.message
  {
    AdvertisedIsExecutable(req.command);
    if req.command !in ALLOWLIST then Fail(clusterId, req, "unsupported capability")
    else match outcome
      case Data(data) => Response(req.command, clusterId, req.requestId, data, "success", "")
      case Failure(message) => Fail(clusterId, req, message)
  }
}

/**
 * The two tools the server exposes: `health_check`, which is meant to confirm
 * that the cluster answers and to report its version and the caller's
 * identity, and `get_pods`, which forwards to the pod listing.
 * `HealthCheckAsWritten` is the check as the code stands, which never passes
 * once the client is built; `HealthCheck` is the check as intended.
 */
module Server {
  import opened Wrappers
  import opened Text
  import opened Upstream
  import Client
  import Pods
  import Config

  const PassedTitle: string := "\U{2713} Health Check Passed"
  // The literal "Successfully connected to Kubernetes API server.", written as two joined literals.
  const ConnectedLine: string := "Successfully connected" + " to Kubernetes API server."
  const FailedPrefix: string := "\U{2717} Health check failed: "
  const NotConnected: string := "Could not connect to Kubernetes.\nError: "

  /** The banner of a passed health check. */
  function PassedBanner(version: string, identity: string): string {
    PassedTitle + "\n\n" + ConnectedLine + "\nServer Version: " + version + "\nIdentity: " + identity
  }

  /**
   * The banner of a failed health check: API and configuration exceptions say the
   * cluster could not be reached, any other exception is shown as it is.
   */
  function HealthFailure(fault: Fault): (s: string)
    ensures StartsWith(s, FailedPrefix)
    ensures fault.Kind() != OtherKind ==> s[|FailedPrefix|..] == NotConnected + fault.text
    ensures fault.Kind() == OtherKind ==> s[|FailedPrefix|..] == fault.text
  {
    if fault.Kind() == OtherKind then FailedPrefix + fault.text
    else FailedPrefix + (NotConnected + fault.text)
  }

  /** The first exception `health_check` meets, in the order of its calls; none when it passes. */
  function HealthFault(cluster: Cluster, context: Option<string>): Option<Fault> {
    match cluster.connect(context)
    case Fail(fault) => Some(fault)
    case Pass =>
      match cluster.serverVersion
      case Failure(fault) => Some(fault)
      case Success(_) =>
        match Client.Identity(cluster.kubeconfig, context)
        case Failure(fault) => Some(fault)
        case Success(_) => None
  }

  /**
   * `health_check(context)` against `cluster`: build the client, ask for the
   * server version, read the identity; the first exception becomes a failure
   * banner, so the tool never raises.
   */
  function HealthCheck(cluster: Cluster, context: Option<string> := None): (out: string)
    ensures StartsWith(out, FailedPrefix) <==> HealthFault(cluster, context).Some?
  {
    match cluster.connect(context)
    case Fail(fault) => HealthFailure(fault)
    case Pass =>
      match cluster.serverVersion
      case Failure(fault) => HealthFailure(fault)
      case Success(version) =>
        match Client.Identity(cluster.kubeconfig, context)
        case Failure(fault) => HealthFailure(fault)
        case Success(identity) =>
          var banner := PassedBanner(version, identity);
          assert banner[0] == PassedTitle[0];
          NotStartsWith(banner, FailedPrefix, 0);
          banner
  }

  /** The banner of a failed check begins with a cross, that of a passed one with a check mark. */
  lemma HealthPassedIff(cluster: Cluster, context: Option<string>)
    ensures |HealthCheck(cluster, context)| > 0
    ensures HealthCheck(cluster, context)[0] == '\U{2713}' <==> HealthFault(cluster, context).None?
    ensures HealthCheck(cluster, context)[0] == '\U{2717}' <==> HealthFault(cluster, context).Some?
  {
    var out := HealthCheck(cluster, context);
    match HealthFault(cluster, context)
    case Some(fault) =>
      HealthOutcome(cluster, context);
      assert out[..|FailedPrefix|] == FailedPrefix;
      assert out[0] == FailedPrefix[0];
    case None =>
      var version := cluster.serverVersion.value;
      var identity := Client.Identity(cluster.kubeconfig, context).value;
      assert out == PassedBanner(version, identity);
      assert out[0] == PassedTitle[0];
  }

  /**
   * A failed check shows the first exception met, in the order the calls are made;
   * a passed one shows the banner with the server version and the identity.
   */
  lemma HealthOutcome(cluster: Cluster, context: Option<string>)
    ensures HealthFault(cluster, context).Some?
            ==> HealthCheck(cluster, context) == HealthFailure(HealthFault(cluster, context).value)
    ensures HealthFault(cluster, context).None?
            ==> && cluster.serverVersion.Success?
                && Client.Identity(cluster.kubeconfig, context).Success?
                && HealthCheck(cluster, context)
                   == PassedBanner(cluster.serverVersion.value, Client.Identity(cluster.kubeconfig, context).value)
  {
  }

  /** The fixed lines of the passed banner hold no line break. */
  lemma BannerPiecesNoBreak()
    ensures NoBreak(PassedTitle) && NoBreak(ConnectedLine)
    ensures NoBreak("Server Version: ") && NoBreak("Identity: ")
  {
    forall i | 0 <= i < |PassedTitle| ensures PassedTitle[i] != '\n' { }
    var x, y := "Successfully connected", " to Kubernetes API server.";
    forall i | 0 <= i < |x| ensures x[i] != '\n' { }
    forall i | 0 <= i < |y| ensures y[i] != '\n' { }
    NoBreakConcat(x, y);
  }

  /** The breaks of the banner, one at a time. */
  lemma BannerBreaks(title: string, connected: string, version: string, identity: string)
    ensures title + "\n\n" + connected + "\nServer Version: " + version + "\nIdentity: " + identity
            == title + "\n" + "" + "\n" + connected + "\n" + ("Server Version: " + version) + "\n" + ("Identity: " + identity)
  {
    assert "\n\n" == "\n" + "" + "\n";
    assert "\nServer Version: " == "\n" + "Server Version: ";
    assert "\nIdentity: " == "\n" + "Identity: ";
  }

  /**
   * When neither the version nor the identity holds a line break, the passed
   * banner splits into its title, an empty line, the connection line, the server
   * version and the identity.
   */
  lemma PassedBannerLines(version: string, identity: string)
    requires NoBreak(version) && NoBreak(identity)
    ensures Lines(PassedBanner(version, identity))
            == [PassedTitle, "", ConnectedLine, "Server Version: " + version, "Identity: " + identity]
  {
    var d, e := "Server Version: " + version, "Identity: " + identity;
    BannerBreaks(PassedTitle, ConnectedLine, version, identity);
    BannerPiecesNoBreak();
    NoBreakConcat("Server Version: ", version);
    NoBreakConcat("Identity: ", identity);
    FiveLines(PassedTitle, "", ConnectedLine, d, e);
  }

  /** A check that meets no exception reports the server version and the identity on lines of their own. */
  lemma HealthPassedReport(cluster: Cluster, context: Option<string>, version: string, identity: string)
    requires cluster.connect(context) == Pass
    requires cluster.serverVersion == Success(version)
    requires Client.Identity(cluster.kubeconfig, context) == Success(identity)
    requires NoBreak(version) && NoBreak(identity)
    ensures Lines(HealthCheck(cluster, context))
            == [PassedTitle, "", ConnectedLine, "Server Version: " + version, "Identity: " + identity]
  {
    PassedBannerLines(version, identity);
  }

  /**
   * An unreadable kubeconfig does not fail the check: the identity is reported as
   * unknown.
   */
  lemma HealthPassesWithUnreadableKubeconfig(cluster: Cluster, context: Option<string>, text: string)
    requires cluster.connect(context) == Pass && cluster.serverVersion.Success?
    requires cluster.kubeconfig == ReadFailed(ConfigFault(text))
    ensures HealthFault(cluster, context).None?
    ensures HealthCheck(cluster, context)
            == PassedBanner(cluster.serverVersion.value, Client.UnknownIdentity(context))
  {
  }

  /**
   * The kubeconfig is read last: when building the client or asking for the version
   * fails, two clusters that differ only in their kubeconfig give the same banner.
   */
  lemma KubeconfigNotReadOnEarlyFailure(c1: Cluster, c2: Cluster, context: Option<string>)
    requires c1.connect(context) == c2.connect(context)
    requires c1.serverVersion == c2.serverVersion
    requires c1.connect(context).Fail? || c1.serverVersion.Failure?
    ensures HealthCheck(c1, context) == HealthCheck(c2, context)
  {
  }

  /** The exception raised by asking a `CoreV1Api` for `get_code`, a method it does not have. */
  const MissingGetCode: Fault := OtherFault("'CoreV1Api' object has no attribute 'get_code'")

  /**
   * `health_check` as written: once the client is built, the version is asked of
   * the core API object, which raises before the version or the identity is read.
   */
  function HealthCheckAsWritten(cluster: Cluster, context: Option<string> := None): (out: string)
    ensures StartsWith(out, FailedPrefix)
    ensures cluster.connect(context).Fail? ==> out == HealthCheck(cluster, context)
  {
    match cluster.connect(context)
    case Fail(fault) => HealthFailure(fault)
    case Pass => HealthFailure(MissingGetCode)
  }

  /** As written, the check never passes, whatever the cluster answers. */
  lemma HealthCheckAsWrittenNeverPasses(cluster: Cluster, context: Option<string>)
    ensures |HealthCheckAsWritten(cluster, context)| > 0
    ensures HealthCheckAsWritten(cluster, context)[0] == '\U{2717}'
    ensures cluster.connect(context).Pass?
            ==> HealthCheckAsWritten(cluster, context)[|FailedPrefix|..] == MissingGetCode.text
  {
    var out := HealthCheckAsWritten(cluster, context);
    assert out[..|FailedPrefix|] == FailedPrefix;
    assert out[0] == FailedPrefix[0];
  }

  /**
   * A reachable cluster that answers the version call: the corrected check passes,
   * the one as written fails.
   */
  lemma HealthCheckAsWrittenDiffers(cluster: Cluster, context: Option<string>)
    requires cluster.connect(context) == Pass && cluster.serverVersion.Success?
    requires Client.Identity(cluster.kubeconfig, context).Success?
    ensures HealthCheck(cluster, context)[0] == '\U{2713}'
    ensures HealthCheckAsWritten(cluster, context)[0] == '\U{2717}'
  {
    HealthPassedIff(cluster, context);
    HealthCheckAsWrittenNeverPasses(cluster, context);
  }

  /** `get_pods`: the pod listing, with the same defaults. */
  method GetPods(cluster: Cluster, namespace: string := Config.DefaultNamespace,
                 allNamespaces: bool := false, context: Option<string> := None)
    returns (out: string)
    ensures out == Pods.PodsReport(cluster, namespace, allNamespaces, context)
  {
    out := Pods.GetPodsTool(cluster, namespace, allNamespaces, context);
  }
}

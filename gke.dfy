/**
 * The GKE cluster component (modules/gcp/gke/cluster.py): the arguments and
 * their defaults, the cluster and node-pool declarations it makes in order,
 * and the kubeconfig it renders from the cluster's name, endpoint and
 * master-auth record.
 */
module GcpGke {

  import opened Wrappers
  import opened Text
  import opened KubeconfigTemplate

  // ---------------------------------------------------------------------------
  // Arguments
  // ---------------------------------------------------------------------------

  datatype GkeClusterArgs = GkeClusterArgs(
    name: string,
    location: string,
    network: string,
    subnetwork: string,
    minNodeCount: int,
    maxNodeCount: int,
    machineType: string,
    enablePrivateNodes: bool,
    kubernetesVersion: string)

  /** The arguments with every optional parameter left at its default. */
  function DefaultGkeClusterArgs(name: string, location: string, network: string, subnetwork: string): (a: GkeClusterArgs)
    ensures a.name == name && a.location == location
    ensures a.network == network && a.subnetwork == subnetwork
    ensures a.minNodeCount == 1 && a.maxNodeCount == 3
    ensures a.machineType == "e2-medium" && a.enablePrivateNodes && a.kubernetesVersion == "1.27"
  {
    GkeClusterArgs(name, location, network, subnetwork, 1, 3, "e2-medium", true, "1.27")
  }

  // ---------------------------------------------------------------------------
  // Declarations
  // ---------------------------------------------------------------------------

  datatype PrivateClusterConfig = PrivateClusterConfig(
    enablePrivateNodes: bool,
    enablePrivateEndpoint: bool,
    masterIpv4CidrBlock: string)

  /** Secondary ranges of a VPC-native cluster, given as prefix lengths only. */
  datatype IpAllocationPolicy = IpAllocationPolicy(clusterIpv4CidrBlock: string, servicesIpv4CidrBlock: string)

  datatype NodeConfig = NodeConfig(
    preemptible: bool,
    machineType: string,
    diskSizeGb: int,
    diskType: string,
    oauthScopes: seq<string>,
    tags: seq<string>)

  datatype Autoscaling = Autoscaling(minNodeCount: int, maxNodeCount: int)

  /**
   * One resource declaration: its logical name, then its properties. The node
   * pool's `cluster` is the cluster's `name` property; `dependsOn` holds
   * logical names.
   */
  datatype Decl =
    | ClusterDecl(logicalName: string, name: string, location: string, network: string,
                  subnetwork: string, minMasterVersion: string, initialNodeCount: int,
                  removeDefaultNodePool: bool, networkingMode: string,
                  privateClusterConfig: Option<PrivateClusterConfig>,
                  ipAllocationPolicy: IpAllocationPolicy)
    | NodePoolDecl(logicalName: string, name: string, location: string, cluster: string,
                   nodeCount: int, nodeConfig: NodeConfig, autoscaling: Autoscaling,
                   autoRepair: bool, autoUpgrade: bool, dependsOn: set<string>)

  const MasterIpv4CidrBlock: string := "172.16.0.0/28"

  /**
   * Private nodes get a private-cluster block (public endpoint kept, control
   * plane in 172.16.0.0/28); otherwise the cluster has none.
   */
  function PrivateClusterConfigFor(enablePrivateNodes: bool): (r: Option<PrivateClusterConfig>)
    ensures r.Some? <==> enablePrivateNodes
    ensures r.Some? ==> r.value.enablePrivateNodes && !r.value.enablePrivateEndpoint
    ensures r.Some? ==> r.value.masterIpv4CidrBlock == "172.16.0.0/28"
  {
    if enablePrivateNodes then Some(PrivateClusterConfig(enablePrivateNodes, false, MasterIpv4CidrBlock))
    else None
  }

  function ClusterLogicalName(prefix: string): string { prefix + "-cluster" }
  function NodePoolLogicalName(prefix: string): string { prefix + "-node-pool" }
  function NodePoolName(clusterName: string): string { clusterName + "-node-pool" }

  /**
   * The cluster: named and placed as given, one initial node and its default
   * pool removed, VPC-native with /16 pod and /22 service ranges.
   */
  function ClusterDeclFor(prefix: string, args: GkeClusterArgs): (d: Decl)
    ensures d.ClusterDecl? && d.logicalName == ClusterLogicalName(prefix) && d.name == args.name
    ensures d.location == args.location && d.network == args.network && d.subnetwork == args.subnetwork
    ensures d.minMasterVersion == args.kubernetesVersion
    ensures d.initialNodeCount == 1 && d.removeDefaultNodePool && d.networkingMode == "VPC_NATIVE"
    ensures d.privateClusterConfig == PrivateClusterConfigFor(args.enablePrivateNodes)
    ensures d.ipAllocationPolicy == IpAllocationPolicy("/16", "/22")
  {
    ClusterDecl(ClusterLogicalName(prefix), args.name, args.location, args.network,
                args.subnetwork, args.kubernetesVersion, 1, true, "VPC_NATIVE",
                PrivateClusterConfigFor(args.enablePrivateNodes),
                IpAllocationPolicy("/16", "/22"))
  }

  /**
   * The node pool: in the named cluster, starting at the minimum node count
   * and autoscaling up to the maximum, on standard non-preemptible 100 GB
   * disks with the cloud-platform scope, tagged with the cluster's name,
   * auto-repaired and auto-upgraded, and created after the cluster.
   */
  function NodePoolDeclFor(prefix: string, args: GkeClusterArgs): (d: Decl)
    ensures d.NodePoolDecl? && d.logicalName == NodePoolLogicalName(prefix)
    ensures d.name == args.name + "-node-pool" && d.location == args.location && d.cluster == args.name
    ensures d.nodeCount == args.minNodeCount
    ensures d.autoscaling == Autoscaling(args.minNodeCount, args.maxNodeCount)
    ensures d.nodeConfig == NodeConfig(false, args.machineType, 100, "pd-standard",
                                       ["https://www.googleapis.com/auth/cloud-platform"], ["gke-node", args.name])
    ensures d.autoRepair && d.autoUpgrade && d.dependsOn == {ClusterLogicalName(prefix)}
  {
    NodePoolDecl(NodePoolLogicalName(prefix), NodePoolName(args.name), args.location, args.name,
                 args.minNodeCount,
                 NodeConfig(false, args.machineType, 100, "pd-standard",
                            ["https://www.googleapis.com/auth/cloud-platform"],
                            ["gke-node", args.name]),
                 Autoscaling(args.minNodeCount, args.maxNodeCount),
                 true, true, {ClusterLogicalName(prefix)})
  }

  /**
   * The declarations of one GkeCluster component, in declaration order: the
   * cluster (its default pool removed after creation) and then the node pool,
   * which starts at the minimum size, autoscales between the given bounds and
   * depends on the cluster.
   */
  function GkeDeclarations(prefix: string, args: GkeClusterArgs): (r: seq<Decl>)
    ensures |r| == 2 && r[0].ClusterDecl? && r[1].NodePoolDecl?
    ensures r[0].name == args.name && r[0].location == args.location && r[1].location == args.location
    ensures r[0].network == args.network && r[0].subnetwork == args.subnetwork
    ensures r[0].minMasterVersion == args.kubernetesVersion
    ensures r[0].initialNodeCount == 1 && r[0].removeDefaultNodePool
    ensures r[0].privateClusterConfig.Some? <==> args.enablePrivateNodes
    ensures r[0].privateClusterConfig.Some? ==>
              r[0].privateClusterConfig.value == PrivateClusterConfig(true, false, "172.16.0.0/28")
    ensures r[1].name == args.name + "-node-pool" && r[1].cluster == r[0].name
    ensures r[1].nodeCount == args.minNodeCount
    ensures r[1].autoscaling.minNodeCount == args.minNodeCount
    ensures r[1].autoscaling.maxNodeCount == args.maxNodeCount
    ensures r[1].nodeConfig.machineType == args.machineType && !r[1].nodeConfig.preemptible
    ensures r[1].dependsOn == {r[0].logicalName} && r[0].logicalName != r[1].logicalName
  {
    [ClusterDeclFor(prefix, args), NodePoolDeclFor(prefix, args)]
  }

  /** The component: declares its resources one after the other. */
  class GkeCluster {
    const prefix: string
    var declared: seq<Decl>
    var cluster: string

    constructor (name: string, args: GkeClusterArgs)
      ensures prefix == name
      ensures declared == GkeDeclarations(name, args)
      ensures cluster == ClusterLogicalName(name)
    {
      prefix := name;
      declared := [];
      cluster := ClusterLogicalName(name);
      new;
      Declare(ClusterDeclFor(name, args));
      Declare(NodePoolDeclFor(name, args));
    }

    /** Registers one resource with the provisioning engine. */
    method Declare(d: Decl)
      modifies this`declared
      ensures declared == old(declared) + [d]
    {
      declared := declared + [d];
    }
  }

  // ---------------------------------------------------------------------------
  // Kubeconfig
  // ---------------------------------------------------------------------------

  const AuthPluginCommand: string := "gke-gcloud-auth-plugin"

  /*
   * The template's lines with the cluster's name `n`, endpoint `e` and CA
   * certificate `c` filled in, section by section.
   */

  /** The CA certificate comes first here; the server is the endpoint reached over https. */
  function ClustersSection(n: string, e: string, c: string): seq<string>
  {
    [ "clusters:",
      "- cluster:",
      "    certificate-authority-data: " + c,
      "    server: " + ("https://" + e),
      "  name: " + n ]
  }

  /**
   * The gcloud auth plugin, with an install hint (its prose `hint`, then the
   * address `url` on a continuation line) and the cluster information passed
   * to it.
   */
  function ExecCommand(hint: string, url: string): seq<string>
  {
    [ "      command: " + AuthPluginCommand,
      "      installHint: " + hint,
      "        " + url,
      "      provideClusterInfo: " + "true" ]
  }

  /** The install hint's prose and address, assembled from short pieces. */
  const InstallHint: string := HintPlugin + HintUse

  const InstallHintUrl: string := UrlSite + UrlSection + UrlArticle

  const HintPlugin: string := "Install gke-gcloud-auth-plugin "
  const HintUse: string := "for use with kubectl by following"
  const UrlSite: string := "https://cloud.google.com/blog/"
  const UrlSection: string := "products/containers-kubernetes/"
  const UrlArticle: string := "kubectl-auth-changes-in-gke"

  /**
   * The template's lines for any install-hint text: no property of the
   * document below depends on that prose.
   */
  function TemplateLines(n: string, e: string, c: string, hint: string, url: string): (r: seq<string>)
    ensures |r| == 24 && r[0] == ""
  {
    Preamble() + ClustersSection(n, e, c) + ContextsSection(n) + SettingsSection(n)
    + ExecUserHeader(n) + ExecCommand(hint, url)
  }

  /** The template's 23 lines after its leading line feed, with the source's install hint. */
  function KubeconfigLines(n: string, e: string, c: string): (r: seq<string>)
    ensures |r| == 24 && r[0] == ""
  {
    TemplateLines(n, e, c, InstallHint, InstallHintUrl)
  }

  const CaCertificateKey: string := "cluster_ca_certificate"

  /**
   * The kubeconfig text rendered once the cluster's name, endpoint and
   * master-auth record have resolved. Looking up the CA certificate in a
   * record without it fails (None), as the dictionary lookup raises.
   */
  function Kubeconfig(n: string, e: string, masterAuth: map<string, string>): (r: Option<string>)
    ensures r.Some? <==> CaCertificateKey in masterAuth
    ensures r.Some? ==> |r.value| > 0 && r.value[0] == '\n' && r.value[|r.value| - 1] == '\n'
  {
    if CaCertificateKey in masterAuth then
      JoinLinesEnds(KubeconfigLines(n, e, masterAuth[CaCertificateKey]));
      Some(JoinLines(KubeconfigLines(n, e, masterAuth[CaCertificateKey])))
    else None
  }

  lemma ClustersHaveNoNewline(n: string, e: string, c: string)
    requires NoNewline(n) && NoNewline(e) && NoNewline(c)
    ensures forall l :: l in ClustersSection(n, e, c) ==> NoNewline(l)
  {
  }

  lemma ExecCommandHasNoNewline(hint: string, url: string)
    requires NoNewline(hint) && NoNewline(url)
    ensures forall l :: l in ExecCommand(hint, url) ==> NoNewline(l)
  {
  }

  lemma InstallHintHasNoNewline()
    ensures NoNewline(InstallHint)
  {
    assert NoNewline(HintPlugin) && NoNewline(HintUse);
    NoNewlineAppend(HintPlugin, HintUse);
  }

  lemma InstallHintUrlHasNoNewline()
    ensures NoNewline(InstallHintUrl)
  {
    assert NoNewline(UrlSite) && NoNewline(UrlSection) && NoNewline(UrlArticle);
    NoNewlineAppend(UrlSite, UrlSection);
    NoNewlineAppend(UrlSite + UrlSection, UrlArticle);
  }

  lemma KubeconfigLinesHaveNoNewline(n: string, e: string, c: string)
    requires NoNewline(n) && NoNewline(e) && NoNewline(c)
    ensures forall l :: l in KubeconfigLines(n, e, c) ==> NoNewline(l)
  {
    PreambleHasNoNewline();
    ClustersHaveNoNewline(n, e, c);
    ContextsHaveNoNewline(n);
    SettingsHaveNoNewline(n);
    ExecUserHeaderHasNoNewline(n);
    InstallHintHasNoNewline();
    InstallHintUrlHasNoNewline();
    ExecCommandHasNoNewline(InstallHint, InstallHintUrl);
  }

  /**
   * With the CA certificate present, splitting the rendered kubeconfig at its
   * line feeds gives back the template's lines.
   */
  lemma KubeconfigLinesRoundTrip(n: string, e: string, masterAuth: map<string, string>)
    requires CaCertificateKey in masterAuth
    requires NoNewline(n) && NoNewline(e) && NoNewline(masterAuth[CaCertificateKey])
    ensures Kubeconfig(n, e, masterAuth).Some?
    ensures Lines(Kubeconfig(n, e, masterAuth).value) == KubeconfigLines(n, e, masterAuth[CaCertificateKey])
  {
    var c := masterAuth[CaCertificateKey];
    KubeconfigLinesHaveNoNewline(n, e, c);
    LinesOfJoinLines(KubeconfigLines(n, e, c));
  }

  /*
   * One key of the template at a time: two characters of the key single out
   * its line (a proof over several keys at once is too costly for the solver).
   */

  lemma EntryNameValue(n: string, e: string, c: string, hint: string, url: string)
    ensures KeyHasValue(TemplateLines(n, e, c, hint, url), "  name: ", n)
  {
    BySignature(TemplateLines(n, e, c, hint, url), "  name: ", n, 0, 2, ' ', 'n');
  }

  lemma ContextClusterValue(n: string, e: string, c: string, hint: string, url: string)
    ensures KeyHasValue(TemplateLines(n, e, c, hint, url), "    cluster: ", n)
  {
    BySignature(TemplateLines(n, e, c, hint, url), "    cluster: ", n, 4, 6, 'c', 'u');
  }

  lemma ContextUserValue(n: string, e: string, c: string, hint: string, url: string)
    ensures KeyHasValue(TemplateLines(n, e, c, hint, url), "    user: ", n)
  {
    BySignature(TemplateLines(n, e, c, hint, url), "    user: ", n, 4, 7, 'u', 'r');
  }

  lemma CurrentContextValue(n: string, e: string, c: string, hint: string, url: string)
    ensures KeyHasValue(TemplateLines(n, e, c, hint, url), "current-context: ", n)
  {
    BySignature(TemplateLines(n, e, c, hint, url), "current-context: ", n, 0, 1, 'c', 'u');
  }

  lemma UserNameValue(n: string, e: string, c: string, hint: string, url: string)
    ensures KeyHasValue(TemplateLines(n, e, c, hint, url), "- name: ", n)
  {
    BySignature(TemplateLines(n, e, c, hint, url), "- name: ", n, 0, 2, '-', 'n');
  }

  lemma ApiVersionValue(n: string, e: string, c: string, hint: string, url: string)
    ensures KeyHasValue(TemplateLines(n, e, c, hint, url), "apiVersion: ", "v1")
  {
    BySignature(TemplateLines(n, e, c, hint, url), "apiVersion: ", "v1", 0, 1, 'a', 'p');
  }

  lemma KindValue(n: string, e: string, c: string, hint: string, url: string)
    ensures KeyHasValue(TemplateLines(n, e, c, hint, url), "kind: ", "Config")
  {
    BySignature(TemplateLines(n, e, c, hint, url), "kind: ", "Config", 0, 1, 'k', 'i');
  }

  lemma PreferencesValue(n: string, e: string, c: string, hint: string, url: string)
    ensures KeyHasValue(TemplateLines(n, e, c, hint, url), "preferences: ", "{}")
  {
    BySignature(TemplateLines(n, e, c, hint, url), "preferences: ", "{}", 0, 1, 'p', 'r');
  }

  lemma ServerValue(n: string, e: string, c: string, hint: string, url: string)
    ensures KeyHasValue(TemplateLines(n, e, c, hint, url), "    server: ", "https://" + e)
  {
    BySignature(TemplateLines(n, e, c, hint, url), "    server: ", "https://" + e, 4, 5, 's', 'e');
  }

  lemma CaDataValue(n: string, e: string, c: string, hint: string, url: string)
    ensures KeyHasValue(TemplateLines(n, e, c, hint, url), "    certificate-authority-data: ", c)
  {
    BySignature(TemplateLines(n, e, c, hint, url), "    certificate-authority-data: ", c, 4, 5, 'c', 'e');
  }

  lemma ExecApiVersionValue(n: string, e: string, c: string, hint: string, url: string)
    ensures KeyHasValue(TemplateLines(n, e, c, hint, url), "      apiVersion: ", ExecApiVersion)
  {
    BySignature(TemplateLines(n, e, c, hint, url), "      apiVersion: ", ExecApiVersion, 6, 7, 'a', 'p');
  }

  lemma CommandValue(n: string, e: string, c: string, hint: string, url: string)
    ensures KeyHasValue(TemplateLines(n, e, c, hint, url), "      command: ", AuthPluginCommand)
  {
    BySignature(TemplateLines(n, e, c, hint, url), "      command: ", AuthPluginCommand, 6, 7, 'c', 'o');
  }

  lemma ProvideClusterInfoValue(n: string, e: string, c: string, hint: string, url: string)
    ensures KeyHasValue(TemplateLines(n, e, c, hint, url), "      provideClusterInfo: ", "true")
  {
    BySignature(TemplateLines(n, e, c, hint, url), "      provideClusterInfo: ", "true", 6, 7, 'p', 'r');
  }

  lemma NoTokenKey(n: string, e: string, c: string, hint: string, url: string)
    ensures KeyAbsent(TemplateLines(n, e, c, hint, url), "    token: ")
  {
    AbsentBySignature(TemplateLines(n, e, c, hint, url), "    token: ", 4, 5, 't', 'o');
  }

  lemma NoPasswordKey(n: string, e: string, c: string, hint: string, url: string)
    ensures KeyAbsent(TemplateLines(n, e, c, hint, url), "    password: ")
  {
    AbsentBySignature(TemplateLines(n, e, c, hint, url), "    password: ", 4, 5, 'p', 'a');
  }

  lemma NoClientCertificateKey(n: string, e: string, c: string, hint: string, url: string)
    ensures KeyAbsent(TemplateLines(n, e, c, hint, url), "    client-certificate-data: ")
  {
    AbsentBySignature(TemplateLines(n, e, c, hint, url), "    client-certificate-data: ", 4, 7, 'c', 'e');
  }

  lemma NoClientKeyKey(n: string, e: string, c: string, hint: string, url: string)
    ensures KeyAbsent(TemplateLines(n, e, c, hint, url), "    client-key-data: ")
  {
    AbsentBySignature(TemplateLines(n, e, c, hint, url), "    client-key-data: ", 4, 7, 'c', 'e');
  }

  /**
   * The server is the endpoint reached over https, and the CA data is the
   * master-auth record's CA certificate, verbatim.
   */
  lemma KubeconfigClusterEntry(n: string, e: string, masterAuth: map<string, string>)
    requires CaCertificateKey in masterAuth
    requires NoNewline(n) && NoNewline(e) && NoNewline(masterAuth[CaCertificateKey])
    ensures Kubeconfig(n, e, masterAuth).Some?
    ensures KeyHasValue(Lines(Kubeconfig(n, e, masterAuth).value), "    server: ", "https://" + e)
    ensures KeyHasValue(Lines(Kubeconfig(n, e, masterAuth).value), "    certificate-authority-data: ",
                        masterAuth["cluster_ca_certificate"])
  {
    KubeconfigLinesRoundTrip(n, e, masterAuth);
    ServerValue(n, e, masterAuth[CaCertificateKey], InstallHint, InstallHintUrl);
    CaDataValue(n, e, masterAuth[CaCertificateKey], InstallHint, InstallHintUrl);
  }

  /**
   * The cluster's name names the cluster entry, the context, the context's
   * cluster and user, the current context and the user; the document is a
   * v1 Config with empty preferences.
   */
  lemma KubeconfigNames(n: string, e: string, masterAuth: map<string, string>)
    requires CaCertificateKey in masterAuth
    requires NoNewline(n) && NoNewline(e) && NoNewline(masterAuth[CaCertificateKey])
    ensures Kubeconfig(n, e, masterAuth).Some?
    ensures NamedAfter(Lines(Kubeconfig(n, e, masterAuth).value), n)
    ensures ConfigHeader(Lines(Kubeconfig(n, e, masterAuth).value))
  {
    KubeconfigLinesRoundTrip(n, e, masterAuth);
    var c := masterAuth[CaCertificateKey];
    EntryNameValue(n, e, c, InstallHint, InstallHintUrl);
    ContextClusterValue(n, e, c, InstallHint, InstallHintUrl);
    ContextUserValue(n, e, c, InstallHint, InstallHintUrl);
    CurrentContextValue(n, e, c, InstallHint, InstallHintUrl);
    UserNameValue(n, e, c, InstallHint, InstallHintUrl);
    ApiVersionValue(n, e, c, InstallHint, InstallHintUrl);
    KindValue(n, e, c, InstallHint, InstallHintUrl);
    PreferencesValue(n, e, c, InstallHint, InstallHintUrl);
  }

  /**
   * The user authenticates by running gke-gcloud-auth-plugin, which is handed
   * the cluster information; no token, password or client certificate is
   * stored.
   */
  lemma KubeconfigExec(n: string, e: string, masterAuth: map<string, string>)
    requires CaCertificateKey in masterAuth
    requires NoNewline(n) && NoNewline(e) && NoNewline(masterAuth[CaCertificateKey])
    ensures Kubeconfig(n, e, masterAuth).Some?
    ensures KeyHasValue(Lines(Kubeconfig(n, e, masterAuth).value), "      apiVersion: ",
                        "client.authentication.k8s.io/v1beta1")
    ensures KeyHasValue(Lines(Kubeconfig(n, e, masterAuth).value), "      command: ", "gke-gcloud-auth-plugin")
    ensures KeyHasValue(Lines(Kubeconfig(n, e, masterAuth).value), "      provideClusterInfo: ", "true")
    ensures NoStaticCredential(Lines(Kubeconfig(n, e, masterAuth).value))
  {
    KubeconfigLinesRoundTrip(n, e, masterAuth);
    var c := masterAuth[CaCertificateKey];
    ExecApiVersionValue(n, e, c, InstallHint, InstallHintUrl);
    CommandValue(n, e, c, InstallHint, InstallHintUrl);
    ProvideClusterInfoValue(n, e, c, InstallHint, InstallHintUrl);
    NoTokenKey(n, e, c, InstallHint, InstallHintUrl);
    NoPasswordKey(n, e, c, InstallHint, InstallHintUrl);
    NoClientCertificateKey(n, e, c, InstallHint, InstallHintUrl);
    NoClientKeyKey(n, e, c, InstallHint, InstallHintUrl);
  }

  /**
   * The document depends on exactly the name, the endpoint and the CA
   * certificate: two renderings agree only when those three agree.
   */
  lemma KubeconfigInjective(n: string, e: string, m: map<string, string>, n': string, e': string, m': map<string, string>)
    requires CaCertificateKey in m && CaCertificateKey in m'
    requires NoNewline(n) && NoNewline(e) && NoNewline(m[CaCertificateKey])
    requires NoNewline(n') && NoNewline(e') && NoNewline(m'[CaCertificateKey])
    ensures Kubeconfig(n, e, m) == Kubeconfig(n', e', m') ==>
              n == n' && e == e' && m["cluster_ca_certificate"] == m'["cluster_ca_certificate"]
  {
    if Kubeconfig(n, e, m) == Kubeconfig(n', e', m') {
      KubeconfigLinesRoundTrip(n, e, m);
      KubeconfigLinesRoundTrip(n', e', m');
      var c, c' := m[CaCertificateKey], m'[CaCertificateKey];
      var ls, ls' := KubeconfigLines(n, e, c), KubeconfigLines(n', e', c');
      assert ls[4] == ls'[4] && ls[5] == ls'[5] && ls[6] == ls'[6];
      PrefixCancel("    certificate-authority-data: ", c, c');
      PrefixCancel("    server: ", "https://" + e, "https://" + e');
      PrefixCancel("https://", e, e');
      PrefixCancel("  name: ", n, n');
    }
  }
}

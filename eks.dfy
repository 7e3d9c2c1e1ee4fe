/**
 * The EKS cluster component (modules/aws/eks/cluster.py): the arguments and
 * their defaults, the resource declarations the component makes in order
 * (cluster role, cluster, node-group role, node group), and the kubeconfig
 * it renders from the cluster's name, endpoint and certificate-authority data.
 */
module AwsEks {

  import opened Wrappers
  import opened Text
  import opened KubeconfigTemplate

  // ---------------------------------------------------------------------------
  // Arguments
  // ---------------------------------------------------------------------------

  /** EksClusterArgs after its constructor has filled in the list defaults. */
  datatype EksClusterArgs = EksClusterArgs(
    name: string,
    vpcId: string,
    privateSubnetIds: seq<string>,
    publicSubnetIds: seq<string>,
    instanceTypes: seq<string>,
    minSize: int,
    maxSize: int,
    desiredSize: int,
    kubernetesVersion: string,
    enableClusterLogging: bool)

  const DefaultInstanceType: string := "t3.medium"

  /** Python's `xs or default` on an optional list: a missing or empty list gives `default`. */
  function OrDefault(xs: Option<seq<string>>, default: seq<string>): (r: seq<string>)
    ensures xs.Some? && xs.value != [] ==> r == xs.value
    ensures xs.None? || xs.value == [] ==> r == default
  {
    if xs.Some? && xs.value != [] then xs.value else default
  }

  /**
   * The argument constructor: public subnets default to none, instance types
   * to ["t3.medium"]; sizes are stored as given, without validation.
   */
  function MakeEksClusterArgs(
    name: string, vpcId: string, privateSubnetIds: seq<string>,
    publicSubnetIds: Option<seq<string>>, instanceTypes: Option<seq<string>>,
    minSize: int, maxSize: int, desiredSize: int,
    kubernetesVersion: string, enableClusterLogging: bool): (a: EksClusterArgs)
    ensures a.publicSubnetIds == if publicSubnetIds.Some? then publicSubnetIds.value else []
    ensures a.instanceTypes != []
    ensures instanceTypes.Some? && instanceTypes.value != [] ==> a.instanceTypes == instanceTypes.value
    ensures instanceTypes.None? || instanceTypes.value == [] ==> a.instanceTypes == [DefaultInstanceType]
    ensures a.name == name && a.vpcId == vpcId && a.privateSubnetIds == privateSubnetIds
    ensures a.kubernetesVersion == kubernetesVersion && a.enableClusterLogging == enableClusterLogging
    ensures a.minSize == minSize && a.maxSize == maxSize && a.desiredSize == desiredSize
  {
    EksClusterArgs(name, vpcId, privateSubnetIds,
                   OrDefault(publicSubnetIds, []),
                   OrDefault(instanceTypes, [DefaultInstanceType]),
                   minSize, maxSize, desiredSize, kubernetesVersion, enableClusterLogging)
  }

  /** The arguments with every optional parameter left at its default. */
  function DefaultEksClusterArgs(name: string, vpcId: string, privateSubnetIds: seq<string>): (a: EksClusterArgs)
    ensures a.minSize == 1 && a.desiredSize == 1 && a.maxSize == 3
    ensures a.name == name && a.vpcId == vpcId && a.privateSubnetIds == privateSubnetIds
    ensures a.publicSubnetIds == [] && a.instanceTypes == [DefaultInstanceType]
    ensures a.kubernetesVersion == "1.27" && a.enableClusterLogging
  {
    MakeEksClusterArgs(name, vpcId, privateSubnetIds, None, None, 1, 3, 1, "1.27", true)
  }

  // ---------------------------------------------------------------------------
  // Declarations
  // ---------------------------------------------------------------------------

  datatype ScalingConfig = ScalingConfig(desiredSize: int, minSize: int, maxSize: int)

  /**
   * One resource declaration. References to another resource's output
   * (`cluster_role.arn`, `self.cluster.name`) are the referenced resource's
   * logical name.
   */
  datatype Decl =
    | RoleDecl(name: string)
    | ClusterDecl(name: string, role: string, version: string, subnetIds: seq<string>,
                  endpointPrivateAccess: bool, endpointPublicAccess: bool,
                  enabledLogTypes: seq<string>)
    | NodeGroupDecl(name: string, cluster: string, role: string, subnetIds: seq<string>,
                    scaling: ScalingConfig, instanceTypes: seq<string>, diskSize: int,
                    dependsOn: set<string>)

  const AllLogTypes: seq<string> := ["api", "audit", "authenticator", "controllerManager", "scheduler"]

  /** The control-plane log types: all five when logging is enabled, none otherwise. */
  function ClusterLogTypes(enableClusterLogging: bool): (r: seq<string>)
    ensures r != [] <==> enableClusterLogging
    ensures enableClusterLogging ==> r == AllLogTypes
  {
    if enableClusterLogging then AllLogTypes else []
  }

  function ClusterRoleName(prefix: string): string { prefix + "-cluster-role" }
  function ClusterName(prefix: string): string { prefix + "-cluster" }
  function NodeGroupRoleName(prefix: string): string { prefix + "-nodegroup-role" }
  function NodeGroupName(prefix: string): string { prefix + "-nodegroup" }

  /**
   * The cluster: assumes the cluster role, spans the private subnets then
   * the public ones, with both endpoints open, and logs per the flag.
   */
  function ClusterDeclFor(prefix: string, args: EksClusterArgs): (d: Decl)
    ensures d.ClusterDecl? && d.name == ClusterName(prefix) && d.role == ClusterRoleName(prefix)
    ensures d.version == args.kubernetesVersion
    ensures d.subnetIds == args.privateSubnetIds + args.publicSubnetIds
    ensures d.endpointPrivateAccess && d.endpointPublicAccess
    ensures d.enabledLogTypes == ClusterLogTypes(args.enableClusterLogging)
  {
    ClusterDecl(ClusterName(prefix), ClusterRoleName(prefix), args.kubernetesVersion,
                args.privateSubnetIds + args.publicSubnetIds, true, true,
                ClusterLogTypes(args.enableClusterLogging))
  }

  /**
   * The node group: in the named cluster, assuming the node-group role, in
   * the private subnets only, with the given sizes and instance types, 20 GiB
   * disks, and created after the cluster.
   */
  function NodeGroupDeclFor(prefix: string, args: EksClusterArgs): (d: Decl)
    ensures d.NodeGroupDecl? && d.name == NodeGroupName(prefix)
    ensures d.cluster == ClusterName(prefix) && d.role == NodeGroupRoleName(prefix)
    ensures d.subnetIds == args.privateSubnetIds
    ensures d.scaling == ScalingConfig(args.desiredSize, args.minSize, args.maxSize)
    ensures d.instanceTypes == args.instanceTypes && d.diskSize == 20
    ensures d.dependsOn == {ClusterName(prefix)}
  {
    NodeGroupDecl(NodeGroupName(prefix), ClusterName(prefix), NodeGroupRoleName(prefix),
                  args.privateSubnetIds,
                  ScalingConfig(args.desiredSize, args.minSize, args.maxSize),
                  args.instanceTypes, 20, {ClusterName(prefix)})
  }

  /**
   * The declarations of one EksCluster component, in declaration order. The
   * cluster spans the private subnets followed by the public ones; the node
   * group runs in the private subnets only, carries the sizes unchanged and
   * depends on the cluster declared before it.
   */
  function EksDeclarations(prefix: string, args: EksClusterArgs): (r: seq<Decl>)
    ensures |r| == 4
    ensures r[1].ClusterDecl? && r[3].NodeGroupDecl?
    ensures r[1].subnetIds == args.privateSubnetIds + args.publicSubnetIds
    ensures r[1].enabledLogTypes == (if args.enableClusterLogging then AllLogTypes else [])
    ensures r[1].role == r[0].name && r[3].role == r[2].name
    ensures r[3].subnetIds == args.privateSubnetIds
    ensures r[3].scaling.minSize == args.minSize && r[3].scaling.maxSize == args.maxSize
    ensures r[3].scaling.desiredSize == args.desiredSize
    ensures r[3].cluster == r[1].name && r[3].dependsOn == {r[1].name}
    ensures forall i, j :: 0 <= i < j < 4 ==> r[i].name != r[j].name
  {
    [RoleDecl(ClusterRoleName(prefix)), ClusterDeclFor(prefix, args),
     RoleDecl(NodeGroupRoleName(prefix)), NodeGroupDeclFor(prefix, args)]
  }

  /** The component: declares its resources one after the other. */
  class EksCluster {
    const prefix: string
    var declared: seq<Decl>
    var cluster: string
    var nodeGroup: string

    constructor (name: string, args: EksClusterArgs)
      ensures prefix == name
      ensures declared == EksDeclarations(name, args)
      ensures cluster == ClusterName(name) && nodeGroup == NodeGroupName(name)
    {
      prefix := name;
      declared := [];
      cluster := ClusterName(name);
      nodeGroup := NodeGroupName(name);
      new;
      Declare(RoleDecl(ClusterRoleName(name)));
      Declare(ClusterDeclFor(name, args));
      Declare(RoleDecl(NodeGroupRoleName(name)));
      Declare(NodeGroupDeclFor(name, args));
    }

    /** Registers one resource with the provisioning engine. */
    method Declare(d: Decl)
      modifies this`declared
      ensures declared == old(declared) + [d]
    {
      declared := declared + [d];
    }
  }

  // ---------------------------------------------------------------------------
  // Kubeconfig
  // ---------------------------------------------------------------------------

  const AuthenticatorCommand: string := "aws-iam-authenticator"

  /*
   * The template's lines with the cluster's name `n`, endpoint `e` and
   * certificate-authority data `c` filled in, section by section.
   */

  function ClustersSection(n: string, e: string, c: string): seq<string>
  {
    [ "clusters:",
      "- cluster:",
      "    server: " + e,
      "    certificate-authority-data: " + c,
      "  name: " + n ]
  }

  /** The authenticator runs as `aws-iam-authenticator token -i <name>`. */
  function ExecCommand(n: string): seq<string>
  {
    [ "      command: " + AuthenticatorCommand,
      "      args:",
      "        - \"token\"",
      "        - \"-i\"",
      "        - \"" + n + "\"" ]
  }

  /**
   * The template's 24 lines after its leading line feed, which gives an
   * empty first line.
   */
  function KubeconfigLines(n: string, e: string, c: string): (r: seq<string>)
    ensures |r| == 25 && r[0] == ""
  {
    Preamble() + ClustersSection(n, e, c) + ContextsSection(n) + SettingsSection(n)
    + ExecUserHeader(n) + ExecCommand(n)
  }

  /**
   * The kubeconfig text rendered once the cluster's name, endpoint and
   * certificate-authority data have resolved: each template line followed by
   * a line feed.
   */
  function Kubeconfig(n: string, e: string, c: string): (r: string)
    ensures |r| > 0 && r[0] == '\n' && r[|r| - 1] == '\n'
  {
    JoinLinesEnds(KubeconfigLines(n, e, c));
    JoinLines(KubeconfigLines(n, e, c))
  }

  lemma ClustersHaveNoNewline(n: string, e: string, c: string)
    requires NoNewline(n) && NoNewline(e) && NoNewline(c)
    ensures forall l :: l in ClustersSection(n, e, c) ==> NoNewline(l)
  {
  }

  lemma ExecCommandHasNoNewline(n: string)
    requires NoNewline(n)
    ensures forall l :: l in ExecCommand(n) ==> NoNewline(l)
  {
  }

  lemma KubeconfigLinesHaveNoNewline(n: string, e: string, c: string)
    requires NoNewline(n) && NoNewline(e) && NoNewline(c)
    ensures forall l :: l in KubeconfigLines(n, e, c) ==> NoNewline(l)
  {
    PreambleHasNoNewline();
    ClustersHaveNoNewline(n, e, c);
    ContextsHaveNoNewline(n);
    SettingsHaveNoNewline(n);
    ExecUserHeaderHasNoNewline(n);
    ExecCommandHasNoNewline(n);
  }

  /** Splitting the rendered kubeconfig at its line feeds gives back the template's lines. */
  lemma KubeconfigLinesRoundTrip(n: string, e: string, c: string)
    requires NoNewline(n) && NoNewline(e) && NoNewline(c)
    ensures Lines(Kubeconfig(n, e, c)) == KubeconfigLines(n, e, c)
  {
    KubeconfigLinesHaveNoNewline(n, e, c);
    LinesOfJoinLines(KubeconfigLines(n, e, c));
  }

  /*
   * One key of the template at a time: two characters of the key single out
   * its line (a proof over several keys at once is too costly for the solver).
   */

  lemma EntryNameValue(n: string, e: string, c: string)
    ensures KeyHasValue(KubeconfigLines(n, e, c), "  name: ", n)
  {
    BySignature(KubeconfigLines(n, e, c), "  name: ", n, 0, 2, ' ', 'n');
  }

  lemma ContextClusterValue(n: string, e: string, c: string)
    ensures KeyHasValue(KubeconfigLines(n, e, c), "    cluster: ", n)
  {
    BySignature(KubeconfigLines(n, e, c), "    cluster: ", n, 4, 6, 'c', 'u');
  }

  lemma ContextUserValue(n: string, e: string, c: string)
    ensures KeyHasValue(KubeconfigLines(n, e, c), "    user: ", n)
  {
    BySignature(KubeconfigLines(n, e, c), "    user: ", n, 4, 7, 'u', 'r');
  }

  lemma CurrentContextValue(n: string, e: string, c: string)
    ensures KeyHasValue(KubeconfigLines(n, e, c), "current-context: ", n)
  {
    BySignature(KubeconfigLines(n, e, c), "current-context: ", n, 0, 1, 'c', 'u');
  }

  lemma UserNameValue(n: string, e: string, c: string)
    ensures KeyHasValue(KubeconfigLines(n, e, c), "- name: ", n)
  {
    BySignature(KubeconfigLines(n, e, c), "- name: ", n, 0, 2, '-', 'n');
  }

  lemma ApiVersionValue(n: string, e: string, c: string)
    ensures KeyHasValue(KubeconfigLines(n, e, c), "apiVersion: ", "v1")
  {
    BySignature(KubeconfigLines(n, e, c), "apiVersion: ", "v1", 0, 1, 'a', 'p');
  }

  lemma KindValue(n: string, e: string, c: string)
    ensures KeyHasValue(KubeconfigLines(n, e, c), "kind: ", "Config")
  {
    BySignature(KubeconfigLines(n, e, c), "kind: ", "Config", 0, 1, 'k', 'i');
  }

  lemma PreferencesValue(n: string, e: string, c: string)
    ensures KeyHasValue(KubeconfigLines(n, e, c), "preferences: ", "{}")
  {
    BySignature(KubeconfigLines(n, e, c), "preferences: ", "{}", 0, 1, 'p', 'r');
  }

  lemma ServerValue(n: string, e: string, c: string)
    ensures KeyHasValue(KubeconfigLines(n, e, c), "    server: ", e)
  {
    BySignature(KubeconfigLines(n, e, c), "    server: ", e, 4, 5, 's', 'e');
  }

  lemma CaDataValue(n: string, e: string, c: string)
    ensures KeyHasValue(KubeconfigLines(n, e, c), "    certificate-authority-data: ", c)
  {
    BySignature(KubeconfigLines(n, e, c), "    certificate-authority-data: ", c, 4, 5, 'c', 'e');
  }

  lemma ExecApiVersionValue(n: string, e: string, c: string)
    ensures KeyHasValue(KubeconfigLines(n, e, c), "      apiVersion: ", ExecApiVersion)
  {
    BySignature(KubeconfigLines(n, e, c), "      apiVersion: ", ExecApiVersion, 6, 7, 'a', 'p');
  }

  lemma CommandValue(n: string, e: string, c: string)
    ensures KeyHasValue(KubeconfigLines(n, e, c), "      command: ", AuthenticatorCommand)
  {
    BySignature(KubeconfigLines(n, e, c), "      command: ", AuthenticatorCommand, 6, 7, 'c', 'o');
  }

  lemma NoTokenKey(n: string, e: string, c: string)
    ensures KeyAbsent(KubeconfigLines(n, e, c), "    token: ")
  {
    AbsentBySignature(KubeconfigLines(n, e, c), "    token: ", 4, 5, 't', 'o');
  }

  lemma NoPasswordKey(n: string, e: string, c: string)
    ensures KeyAbsent(KubeconfigLines(n, e, c), "    password: ")
  {
    AbsentBySignature(KubeconfigLines(n, e, c), "    password: ", 4, 5, 'p', 'a');
  }

  lemma NoClientCertificateKey(n: string, e: string, c: string)
    ensures KeyAbsent(KubeconfigLines(n, e, c), "    client-certificate-data: ")
  {
    AbsentBySignature(KubeconfigLines(n, e, c), "    client-certificate-data: ", 4, 7, 'c', 'e');
  }

  lemma NoClientKeyKey(n: string, e: string, c: string)
    ensures KeyAbsent(KubeconfigLines(n, e, c), "    client-key-data: ")
  {
    AbsentBySignature(KubeconfigLines(n, e, c), "    client-key-data: ", 4, 7, 'c', 'e');
  }

  /** The server is the endpoint and the CA data is embedded verbatim. */
  lemma KubeconfigClusterEntry(n: string, e: string, c: string)
    requires NoNewline(n) && NoNewline(e) && NoNewline(c)
    ensures KeyHasValue(Lines(Kubeconfig(n, e, c)), "    server: ", e)
    ensures KeyHasValue(Lines(Kubeconfig(n, e, c)), "    certificate-authority-data: ", c)
  {
    KubeconfigLinesRoundTrip(n, e, c);
    ServerValue(n, e, c);
    CaDataValue(n, e, c);
  }

  /**
   * The cluster's name names the cluster entry, the context, the context's
   * cluster and user, the current context and the user; the document is a
   * v1 Config with empty preferences.
   */
  lemma KubeconfigNames(n: string, e: string, c: string)
    requires NoNewline(n) && NoNewline(e) && NoNewline(c)
    ensures NamedAfter(Lines(Kubeconfig(n, e, c)), n)
    ensures ConfigHeader(Lines(Kubeconfig(n, e, c)))
  {
    KubeconfigLinesRoundTrip(n, e, c);
    EntryNameValue(n, e, c);
    ContextClusterValue(n, e, c);
    ContextUserValue(n, e, c);
    CurrentContextValue(n, e, c);
    UserNameValue(n, e, c);
    ApiVersionValue(n, e, c);
    KindValue(n, e, c);
    PreferencesValue(n, e, c);
  }

  /**
   * The user authenticates by running aws-iam-authenticator with the
   * arguments `token -i <name>` (the document's last three lines); no token,
   * password or client certificate is stored.
   */
  lemma KubeconfigExec(n: string, e: string, c: string)
    requires NoNewline(n) && NoNewline(e) && NoNewline(c)
    ensures KeyHasValue(Lines(Kubeconfig(n, e, c)), "      apiVersion: ", "client.authentication.k8s.io/v1beta1")
    ensures KeyHasValue(Lines(Kubeconfig(n, e, c)), "      command: ", "aws-iam-authenticator")
    ensures var ls := Lines(Kubeconfig(n, e, c));
            |ls| >= 3 && ls[|ls| - 3..] == ["        - \"token\"", "        - \"-i\"", "        - \"" + n + "\""]
    ensures NoStaticCredential(Lines(Kubeconfig(n, e, c)))
  {
    KubeconfigLinesRoundTrip(n, e, c);
    ExecApiVersionValue(n, e, c);
    CommandValue(n, e, c);
    NoTokenKey(n, e, c);
    NoPasswordKey(n, e, c);
    NoClientCertificateKey(n, e, c);
    NoClientKeyKey(n, e, c);
  }

  /**
   * The document depends on exactly the three resolved values: distinct
   * (name, endpoint, CA data) triples render distinct documents.
   */
  lemma KubeconfigInjective(n: string, e: string, c: string, n': string, e': string, c': string)
    requires NoNewline(n) && NoNewline(e) && NoNewline(c)
    requires NoNewline(n') && NoNewline(e') && NoNewline(c')
    ensures Kubeconfig(n, e, c) == Kubeconfig(n', e', c') ==> n == n' && e == e' && c == c'
  {
    if Kubeconfig(n, e, c) == Kubeconfig(n', e', c') {
      KubeconfigLinesRoundTrip(n, e, c);
      KubeconfigLinesRoundTrip(n', e', c');
      var ls, ls' := KubeconfigLines(n, e, c), KubeconfigLines(n', e', c');
      assert ls[4] == ls'[4] && ls[5] == ls'[5] && ls[6] == ls'[6];
      PrefixCancel("    server: ", e, e');
      PrefixCancel("    certificate-authority-data: ", c, c');
      PrefixCancel("  name: ", n, n');
    }
  }
}

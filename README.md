# Verified model of the network and cluster modules

This project is a Dafny model of three Pulumi component resources of a
cloud-infrastructure repository. It proves properties of the resources each
component declares and of the documents it renders.

- **The AWS VPC component** (`modules/aws/vpc/vpc.py`) declares these
  resources in order:
  - a VPC and its internet gateway;
  - a public and a private subnet in each availability zone;
  - a public route table to the internet gateway, associated with every
    public subnet.

  When NAT is enabled it also declares:
  - elastic IPs and NAT gateways, one per public subnet or a single shared
    one;
  - one private route table per private subnet, routed through "its" NAT
    gateway and associated with that subnet.

  `AwsVpc.VpcPlan` is the specification: the list of declarations the
  component makes, in the source's order. The class `AwsVpc.Vpc` is the
  component's constructor, written as the source's loops. Each loop appends
  declarations one at a time to the `declared` field and fills the
  `publicSubnets`, `privateSubnets`, `natGateways` and `privateRouteTables`
  lists. Each method's postcondition ties the new state to the plan.
  - Each resource is named by a structured key (`VpcNames.ResourceKey`).
  - Its logical name is the component's name followed by a suffix spelled
    as the source's f-strings spell it.
  - A reference to another resource's `id` output is that resource's key.
  - The zone list is a parameter of the plan and of `Vpc.Build`. The
    constructor uses the source's zones `a` and `b`.
- **The EKS cluster component** (`modules/aws/eks/cluster.py`). The model
  covers:
  - its arguments and their defaults;
  - the four declarations it makes: cluster role, cluster, node-group role
    and node group;
  - the kubeconfig it renders from the cluster's name, endpoint and
    certificate-authority data.
- **The GKE cluster component** (`modules/gcp/gke/cluster.py`). The model
  covers:
  - its arguments and their defaults;
  - the cluster and node-pool declarations;
  - the kubeconfig it renders from the cluster's name, endpoint and
    master-auth record.

A rendered kubeconfig is modelled as its template's lines, each followed by
a line feed (`Text.JoinLines`). The template's leading line feed is an empty
first line.

Its content is stated on the lines recovered by splitting the text at its
line feeds (`Text.Lines`). That recovery is proved exact when the filled-in
values hold no line feed. Each statement uses one of two predicates:
- `KeyHasValue(lines, key, value)`: the key occurs, and every line that
  carries it carries `value`.
- `KeyAbsent(lines, key)`: no line carries the key.

Modules: `Wrappers` (Option), `Text` (decimal numerals, prefixes, lines),
`VpcNames`, `AwsVpc`, `AwsVpcProperties` (ordering of the plan), `AwsVpcFacts`
(everything else proved about the plan), `KubeconfigTemplate` (sections shared
by both kubeconfigs), `AwsEks`, `GcpGke`.

Three behaviours of the code are worth stating, since a reader might expect
otherwise:
- The subnet blocks are fixed: `10.0.i.0/24` public and `10.0.(i+10).0/24`
  private. They ignore the VPC's `cidr_block`, so nothing relates them to
  the base block.
- No error is raised for a base block too small for the subnets, for an empty
  zone list, or for a route to a NAT gateway that was not made. In place of
  the last check, the model proves that the NAT index is always in range.
- The code orders resources only through output references and the NAT
  gateways' explicit `depends_on` on the internet gateway. The model proves
  that every reference points to an earlier declaration.

## Model

| member | source | states |
|---|---|---|
| AwsVpc.DefaultVpcArgs | modules/aws/vpc/vpc.py:6-21 | the defaults: CIDR 10.0.0.0/16, NAT on and not shared, DNS hostnames and support on |
| AwsVpc.VpcPlan | modules/aws/vpc/vpc.py:37-161 | defines the declarations in source order: VPC, gateway, subnets zone by zone, public table and associations, then with NAT the elastic IPs and gateways and the private routing; its properties are the `AwsVpcProperties` and `AwsVpcFacts` lemmas below |
| AwsVpc.DeclFor | modules/aws/vpc/vpc.py:37-156 | defines each resource's declaration: its fields and the keys it refers to, as the source passes them; `AwsVpcFacts.DeclForReferencesInRange` states what it guarantees |
| AwsVpcFacts.DeclForReferencesInRange | modules/aws/vpc/vpc.py:37-156 | a declaration carries its own key, and every key it refers to (including the NAT gateway of vpc.py:144) is in range of the zone and gateway counts |
| AwsVpcFacts.PlanHead | modules/aws/vpc/vpc.py:37-52 | the plan opens with the VPC, carrying the given CIDR block and DNS flags, and then its internet gateway, attached to it |
| AwsVpc.NatCount | modules/aws/vpc/vpc.py:110-132 | defines the number of NAT gateways made: one when shared and there is a public subnet, else one per public subnet |
| AwsVpcFacts.NatCountBounds | modules/aws/vpc/vpc.py:110-113 | at most one gateway per public subnet, at most one when shared, one per subnet otherwise, and none exactly when there are no subnets |
| AwsVpc.NatIndex | modules/aws/vpc/vpc.py:137 | the gateway index of private table i is 0 when shared and i otherwise, never beyond i |
| AwsVpc.CidrText | modules/aws/vpc/vpc.py:66-78 | defines how a /24 block is written; `AwsVpcFacts.CidrTextShape` and `AwsVpcFacts.CidrTextInjective` state its properties |
| AwsVpcFacts.CidrTextShape | modules/aws/vpc/vpc.py:66-78 | every subnet CIDR is written `10.0.` then the third octet then `.0/24` |
| VpcNames.Suffix | modules/aws/vpc/vpc.py:38-151 | every name suffix starts with `-` and has at least four characters; `VpcNames.SuffixInjective` states that distinct keys spell distinct suffixes |
| VpcNames.LogicalName | modules/aws/vpc/vpc.py:38-151 | every logical name is the component's name, then `-`, then at least three more characters |
| AwsVpc.Vpc.constructor | modules/aws/vpc/vpc.py:24-167 | over zones a and b, the component declares exactly `VpcPlan` in order; its subnet lists are the per-zone keys in zone order; the NAT and private-route-table lists are those made, or empty without NAT; the exported id lists are the subnet lists |
| AwsVpc.Vpc.Build | modules/aws/vpc/vpc.py:37-161 | for any zone list, the declarations are exactly `VpcPlan(zones, region, args)` and the lists are as in the constructor |
| AwsVpc.Vpc.DeclareSubnets | modules/aws/vpc/vpc.py:55-83 | appends a public then a private subnet per zone, and the two subnet lists become the per-zone keys in zone order |
| AwsVpc.Vpc.DeclarePublicRouting | modules/aws/vpc/vpc.py:86-104 | appends the public route table and one association per public subnet, in order |
| AwsVpc.Vpc.DeclareNatGateways | modules/aws/vpc/vpc.py:107-132 | appends an elastic IP and a NAT gateway per public subnet, or for the first one only when shared; the gateway list becomes `NatGatewayKeys` |
| AwsVpc.Vpc.DeclarePrivateRouting | modules/aws/vpc/vpc.py:134-156 | appends, per private subnet, its route table and its association; the table list becomes the per-zone keys |
| AwsVpc.Vpc.DeclareZonePrivateRouting | modules/aws/vpc/vpc.py:137-155 | private subnet i's table routes through the gateway at `NatIndex(single, i)` of the gateway list, and that gateway exists |
| AwsVpcProperties.PlanOrdered | modules/aws/vpc/vpc.py:37-156 | the plan declares each key once, every reference (output or `depends_on`) is to an earlier declaration, and its keys are exactly the public ones plus, with NAT, the NAT ones |
| AwsVpcFacts.PlanOrder | modules/aws/vpc/vpc.py:37-156 | by position: no two declarations share a key, and each referenced key is declared at an earlier position |
| AwsVpcFacts.PlanKeys | modules/aws/vpc/vpc.py:54-156 | a key is in the plan exactly when its kind is declared under the NAT setting and its index is below the zone count (or the NAT gateway count) |
| AwsVpcFacts.PlanEntries | modules/aws/vpc/vpc.py:37-156 | every declaration of the plan is the canonical declaration of a resource the component declares |
| AwsVpcFacts.PlanComplete | modules/aws/vpc/vpc.py:37-156 | every resource the component declares has its canonical declaration in the plan |
| AwsVpcFacts.PlanNamesDistinct | modules/aws/vpc/vpc.py:38-151 | with distinct zone letters, all logical names in the plan are pairwise distinct |
| VpcNames.LogicalNameInjective | modules/aws/vpc/vpc.py:38-151 | distinct resources of one component get distinct logical names |
| VpcNames.SuffixInjective | modules/aws/vpc/vpc.py:64-151 | distinct keys spell distinct name suffixes (zone letter or decimal index after the kind's word) |
| VpcNames.SuffixKindOfSuffix | modules/aws/vpc/vpc.py:38-151 | the resource kind can be read back from a name suffix |
| Text.DecimalInjective | modules/aws/vpc/vpc.py:100 | the rendering of `{i}` is injective on natural numbers |
| Text.ParseDecimalOfDecimal | modules/aws/vpc/vpc.py:100 | reading a rendered index gives back the index |
| AwsVpcFacts.NatIndexInBounds | modules/aws/vpc/vpc.py:137-144 | the NAT index of private route table i is 0 when shared and i otherwise, and always below the number of NAT gateways made |
| AwsVpcFacts.PlanNatGateways | modules/aws/vpc/vpc.py:110-132 | every NAT gateway k depends on the internet gateway, uses elastic IP k and sits in public subnet k, with k below `NatCount` |
| AwsVpcFacts.PlanPrivateRouting | modules/aws/vpc/vpc.py:134-156 | private route table i routes 0.0.0.0/0 through NAT gateway `NatIndex(single, i)`, which the plan declares; private subnet i is associated with table i; with NAT, all exist |
| AwsVpcFacts.PrivateRouteTableEntry | modules/aws/vpc/vpc.py:139-145 | a declared private route table routes through a NAT gateway the plan declares |
| AwsVpcFacts.PlanPublicRouting | modules/aws/vpc/vpc.py:86-104 | the public route table sends 0.0.0.0/0 to the internet gateway, and each public subnet is associated with it |
| AwsVpcFacts.PlanWithoutNat | modules/aws/vpc/vpc.py:106-107 | without NAT, no elastic IP, NAT gateway, private route table or private association is declared |
| AwsVpcFacts.PlanKindCount | modules/aws/vpc/vpc.py:54-156 | the keys of each kind are exactly indices 0..count-1: one VPC, gateway and public table; n of each subnet kind and public associations; with NAT, `NatCount` elastic IPs and gateways and n private tables and associations; none of these without NAT |
| AwsVpcFacts.PlanLength | modules/aws/vpc/vpc.py:37-156 | the plan has 3 + 3n declarations, plus 2·NatCount + 2n with NAT |
| AwsVpcFacts.CidrTextInjective | modules/aws/vpc/vpc.py:66-78 | distinct /24 blocks are written as distinct CIDR strings |
| AwsVpcFacts.PlanSubnetBlocksDistinct | modules/aws/vpc/vpc.py:61-83 | with at most ten zones, all subnets have pairwise distinct blocks and CIDR strings |
| AwsVpcFacts.BlocksCollideBeyondTenZones | modules/aws/vpc/vpc.py:66-78 | with more than ten zones, two different subnets share a block (public 10 and private 0) |
| AwsVpcFacts.PlanIgnoresCidrBlock | modules/aws/vpc/vpc.py:37-83 | changing `cidr_block` changes only the VPC's own declaration; every subnet, and everything else, is unchanged |
| AwsVpcFacts.ExportedSubnetIds | modules/aws/vpc/vpc.py:158-161 | the exported public and private subnet lists have one entry per zone, in zone order; entry i is declared, in zone i of the region, public ones mapping public IPs on launch and private ones not |
| AwsVpcFacts.ExportedSubnetKeys | modules/aws/vpc/vpc.py:160-161 | entry i of each exported subnet list is subnet i of that tier |
| AwsVpcFacts.ExportedNatGateways | modules/aws/vpc/vpc.py:108-132 | the NAT gateway list has `NatCount` entries in creation order, entry i being gateway i, each declared when NAT is enabled |
| AwsVpcFacts.ComponentCounts | modules/aws/vpc/vpc.py:59-156 | over zones a and b: 9, 15 or 17 declarations (no NAT, shared, per zone), 2 public and 2 private subnets, 0, 1 or 2 NAT gateways |
| AwsVpcFacts.ComponentNamesAndBlocks | modules/aws/vpc/vpc.py:59-151 | over zones a and b, all logical names and all subnet CIDRs are pairwise distinct |
| AwsVpcFacts.ComponentSubnetCidrs | modules/aws/vpc/vpc.py:66-78 | the four subnets get 10.0.0.0/24, 10.0.1.0/24, 10.0.10.0/24 and 10.0.11.0/24 |
| AwsEks.OrDefault | modules/aws/eks/cluster.py:22-23 | `xs or default`: a missing or empty list gives the default, any other list itself |
| AwsEks.MakeEksClusterArgs | modules/aws/eks/cluster.py:7-28 | public subnets default to none; a missing or empty instance-type list becomes [t3.medium] and any other is kept; name, VPC id, private subnets, version, logging flag and sizes are stored unchanged |
| AwsEks.DefaultEksClusterArgs | modules/aws/eks/cluster.py:7-28 | the defaults: min 1, desired 1, max 3, no public subnets, [t3.medium], version 1.27, logging on; name, VPC id and private subnets as given |
| AwsEks.ClusterLogTypes | modules/aws/eks/cluster.py:65-67 | log types are non-empty exactly when logging is enabled, and then all five |
| AwsEks.ClusterDeclFor | modules/aws/eks/cluster.py:55-73 | the cluster assumes the cluster role, runs the given version, spans the private then the public subnets, opens both endpoints and logs per `ClusterLogTypes` |
| AwsEks.NodeGroupDeclFor | modules/aws/eks/cluster.py:96-117 | the node group joins the cluster, assumes the node-group role, runs in the private subnets only, with the given sizes and instance types, 20 GiB disks, and depends on the cluster |
| AwsEks.EksDeclarations | modules/aws/eks/cluster.py:36-117 | four declarations with distinct names; the cluster uses the cluster role and spans private then public subnets; the node group uses its own role, runs in the private subnets only, keeps the sizes, names the cluster and depends on it |
| AwsEks.EksCluster.constructor | modules/aws/eks/cluster.py:31-117 | the component declares exactly `EksDeclarations`, in order |
| AwsEks.KubeconfigLines | modules/aws/eks/cluster.py:124-148 | the template has 25 lines: an empty first line (the leading line feed) and the 24 template lines |
| AwsEks.Kubeconfig | modules/aws/eks/cluster.py:120-149 | the rendered document opens with the template's leading line feed and ends with a line feed |
| AwsEks.KubeconfigLinesRoundTrip | modules/aws/eks/cluster.py:120-149 | splitting the rendered document at its line feeds gives back the template's lines |
| AwsEks.EntryNameValue | modules/aws/eks/cluster.py:130-135 | every `  name: ` line carries the cluster's name |
| AwsEks.ContextClusterValue | modules/aws/eks/cluster.py:133 | the context's cluster is the cluster's name |
| AwsEks.ContextUserValue | modules/aws/eks/cluster.py:134 | the context's user is the cluster's name |
| AwsEks.CurrentContextValue | modules/aws/eks/cluster.py:136 | the current context is the cluster's name |
| AwsEks.UserNameValue | modules/aws/eks/cluster.py:140 | the user entry is named after the cluster |
| AwsEks.ApiVersionValue | modules/aws/eks/cluster.py:125 | the document's apiVersion is v1 |
| AwsEks.KindValue | modules/aws/eks/cluster.py:137 | the document's kind is Config |
| AwsEks.PreferencesValue | modules/aws/eks/cluster.py:138 | preferences are `{}` (the template's escaped braces) |
| AwsEks.ServerValue | modules/aws/eks/cluster.py:128 | the server is the endpoint, unchanged |
| AwsEks.CaDataValue | modules/aws/eks/cluster.py:129 | the CA data is the certificate-authority data, unchanged |
| AwsEks.ExecApiVersionValue | modules/aws/eks/cluster.py:143 | the exec plugin's apiVersion is client.authentication.k8s.io/v1beta1 |
| AwsEks.CommandValue | modules/aws/eks/cluster.py:144 | the exec command is aws-iam-authenticator |
| AwsEks.NoTokenKey | modules/aws/eks/cluster.py:139-148 | no line holds a token |
| AwsEks.NoPasswordKey | modules/aws/eks/cluster.py:139-148 | no line holds a password |
| AwsEks.NoClientCertificateKey | modules/aws/eks/cluster.py:139-148 | no line holds a client certificate |
| AwsEks.NoClientKeyKey | modules/aws/eks/cluster.py:139-148 | no line holds a client key |
| AwsEks.KubeconfigClusterEntry | modules/aws/eks/cluster.py:127-130 | in the rendered document, the server is the endpoint and the CA data the given data |
| AwsEks.KubeconfigNames | modules/aws/eks/cluster.py:125-140 | in the rendered document, the cluster entry, context, context cluster and user, current context and user are all the cluster's name; it is a v1 Config with empty preferences |
| AwsEks.KubeconfigExec | modules/aws/eks/cluster.py:139-148 | the user authenticates by running aws-iam-authenticator with the arguments `token -i <name>` (the last three lines), and no static credential is stored |
| AwsEks.KubeconfigInjective | modules/aws/eks/cluster.py:120-149 | distinct (name, endpoint, CA data) triples render distinct documents |
| GcpGke.DefaultGkeClusterArgs | modules/gcp/gke/cluster.py:7-26 | the defaults: 1 to 3 nodes, e2-medium, private nodes on, version 1.27 |
| GcpGke.PrivateClusterConfigFor | modules/gcp/gke/cluster.py:44-48 | a private-cluster block exists exactly when private nodes are enabled; it keeps the public endpoint and puts the control plane in 172.16.0.0/28 |
| GcpGke.ClusterDeclFor | modules/gcp/gke/cluster.py:34-54 | the cluster carries the given name, location, network, subnetwork and version, starts with one node, removes its default pool, is VPC-native with /16 and /22 ranges, and has the private config of `PrivateClusterConfigFor` |
| GcpGke.NodePoolDeclFor | modules/gcp/gke/cluster.py:56-85 | the node pool is `<name>-node-pool` in the named cluster and location, starts at the minimum, autoscales between the bounds, uses non-preemptible nodes of the given machine type on 100 GB pd-standard disks with the cloud-platform scope and tags gke-node and the name, auto-repairs and auto-upgrades, and depends on the cluster |
| GcpGke.GkeDeclarations | modules/gcp/gke/cluster.py:34-85 | the cluster carries the given name, location, network, subnetwork and version, starts with one node and drops its default pool; the node pool is named `<name>-node-pool`, belongs to the cluster, starts at the minimum size, autoscales between the bounds, is not preemptible and depends on the cluster |
| GcpGke.GkeCluster.constructor | modules/gcp/gke/cluster.py:29-85 | the component declares exactly `GkeDeclarations`, in order |
| GcpGke.TemplateLines | modules/gcp/gke/cluster.py:92-115 | for any install-hint text, the template has 24 lines: an empty first line (the leading line feed) and the 23 template lines |
| GcpGke.KubeconfigLines | modules/gcp/gke/cluster.py:92-116 | the template with the source's install hint (lines 113-114): 24 lines, the first empty |
| GcpGke.Kubeconfig | modules/gcp/gke/cluster.py:88-116 | a document is rendered exactly when the master-auth record holds `cluster_ca_certificate`, otherwise the lookup fails; a rendered document opens with the leading line feed and ends with one |
| GcpGke.KubeconfigLinesRoundTrip | modules/gcp/gke/cluster.py:92-116 | splitting the rendered document at its line feeds gives back the template's lines |
| GcpGke.EntryNameValue | modules/gcp/gke/cluster.py:98-103 | every `  name: ` line carries the cluster's name |
| GcpGke.ContextClusterValue | modules/gcp/gke/cluster.py:101 | the context's cluster is the cluster's name |
| GcpGke.ContextUserValue | modules/gcp/gke/cluster.py:102 | the context's user is the cluster's name |
| GcpGke.CurrentContextValue | modules/gcp/gke/cluster.py:104 | the current context is the cluster's name |
| GcpGke.UserNameValue | modules/gcp/gke/cluster.py:108 | the user entry is named after the cluster |
| GcpGke.ApiVersionValue | modules/gcp/gke/cluster.py:93 | the document's apiVersion is v1 |
| GcpGke.KindValue | modules/gcp/gke/cluster.py:105 | the document's kind is Config |
| GcpGke.PreferencesValue | modules/gcp/gke/cluster.py:106 | preferences are `{}` |
| GcpGke.ServerValue | modules/gcp/gke/cluster.py:97 | the server is `https://` followed by the endpoint |
| GcpGke.CaDataValue | modules/gcp/gke/cluster.py:96 | the CA data is the CA certificate, unchanged |
| GcpGke.ExecApiVersionValue | modules/gcp/gke/cluster.py:111 | the exec plugin's apiVersion is client.authentication.k8s.io/v1beta1 |
| GcpGke.CommandValue | modules/gcp/gke/cluster.py:112 | the exec command is gke-gcloud-auth-plugin |
| GcpGke.ProvideClusterInfoValue | modules/gcp/gke/cluster.py:115 | the plugin is given the cluster information |
| GcpGke.NoTokenKey | modules/gcp/gke/cluster.py:107-115 | no line holds a token |
| GcpGke.NoPasswordKey | modules/gcp/gke/cluster.py:107-115 | no line holds a password |
| GcpGke.NoClientCertificateKey | modules/gcp/gke/cluster.py:107-115 | no line holds a client certificate |
| GcpGke.NoClientKeyKey | modules/gcp/gke/cluster.py:107-115 | no line holds a client key |
| GcpGke.KubeconfigClusterEntry | modules/gcp/gke/cluster.py:95-98 | in the rendered document, the server is `https://<endpoint>` and the CA data is the record's `cluster_ca_certificate` |
| GcpGke.KubeconfigNames | modules/gcp/gke/cluster.py:93-108 | in the rendered document, the cluster entry, context, context cluster and user, current context and user are all the cluster's name; it is a v1 Config with empty preferences |
| GcpGke.KubeconfigExec | modules/gcp/gke/cluster.py:107-115 | the user authenticates by running gke-gcloud-auth-plugin with the cluster information, and no static credential is stored |
| GcpGke.KubeconfigInjective | modules/gcp/gke/cluster.py:88-116 | two renderings agree only when the name, the endpoint and the CA certificate agree |

## Left out

- Tags are not modelled: the base tags, their `Name` overrides and the EKS
  tags. No property of the components depends on them.
- `pulumi.get_region()` is a parameter `region`. Resource `id`, `arn`,
  `name` and `endpoint` outputs are the producing resource's key or
  logical name.
- The asynchronous `Output.all(...).apply(...)` composition is left out. Each
  kubeconfig is a function of the resolved values; waiting and resolving
  belong to the engine.
- IAM role policies (JSON documents and managed policy ARNs), the
  `k8s.Provider` and `register_outputs` are not modelled: they only pass
  values on to the engine.
- Component resource options (`parent=self`) and the component type strings
  are not modelled.
- The source builds subnets over the two zones `a` and `b`. The model takes
  any zone list, with `a` and `b` in the constructor. Block distinctness
  holds for up to ten zones only, as `BlocksCollideBeyondTenZones` shows.
- A subnet's address block is a value `Block24(o)`, whose text `CidrText` is
  `10.0.<o>.0/24`. The VPC's own `cidr_block` is an uninterpreted string.
- Without NAT, the source never creates the `nat_gateways` and
  `private_route_tables` attributes. The model keeps them as empty lists.
- AwsEks.KubeconfigNames: like every document lemma, it assumes that the
  name, endpoint and certificate data hold no line feed. A value with one
  would add lines to the rendered document.
- GcpGke.KubeconfigNames: the same no-line-feed assumption applies.
- GcpGke.TemplateLines: the install hint's prose and address are
  parameters of the template. The document lemmas hold for any hint text,
  and `KubeconfigLines` uses the source's text.
- Kubeconfig content is stated line by line (key prefix and value). YAML
  parsing and indentation structure beyond the line prefixes are not
  modelled.

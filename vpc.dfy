/**
 * The VPC component (modules/aws/vpc/vpc.py): a VPC, its internet gateway, a
 * public and a private subnet per availability zone, a public route table
 * shared by the public subnets, and, when NAT is enabled, NAT gateways with
 * their elastic IPs and one private route table per private subnet.
 *
 * `VpcPlan` is the specification: the keys the component declares, in order,
 * each mapped to its canonical declaration `DeclFor`. The class `Vpc` is the
 * component's constructor, declaring resources one at a time in the source's
 * loops; its postcondition ties what it declared to the plan.
 */
module AwsVpc {

  import opened Text
  import opened VpcNames

  // ---------------------------------------------------------------------------
  // Arguments
  // ---------------------------------------------------------------------------

  /** VpcArgs; its tags are not modelled. */
  datatype VpcArgs = VpcArgs(
    name: string,
    cidrBlock: string,
    enableNatGateway: bool,
    singleNatGateway: bool,
    enableDnsHostnames: bool,
    enableDnsSupport: bool)

  /** The arguments with every optional parameter left at its default. */
  function DefaultVpcArgs(name: string): (a: VpcArgs)
    ensures a.name == name && a.cidrBlock == "10.0.0.0/16"
    ensures a.enableNatGateway && !a.singleNatGateway
    ensures a.enableDnsHostnames && a.enableDnsSupport
  {
    VpcArgs(name, "10.0.0.0/16", true, false, true, true)
  }

  // ---------------------------------------------------------------------------
  // Declarations
  // ---------------------------------------------------------------------------

  /** A route table's single route: a destination block and the key of its target. */
  datatype Route = Route(destination: string, target: ResourceKey)

  /**
   * One resource declaration. References to another resource's `id` output
   * are that resource's key; `dependsOn` lists explicit dependencies.
   */
  datatype Decl =
    | VpcDecl(key: ResourceKey, cidrBlock: string, enableDnsHostnames: bool, enableDnsSupport: bool)
    | IgwDecl(key: ResourceKey, vpc: ResourceKey)
    | SubnetDecl(key: ResourceKey, vpc: ResourceKey, block: SubnetBlock, availabilityZone: string,
                 mapPublicIpOnLaunch: bool)
    | RouteTableDecl(key: ResourceKey, vpc: ResourceKey, route: Route)
    | AssociationDecl(key: ResourceKey, subnet: ResourceKey, routeTable: ResourceKey)
    | EipDecl(key: ResourceKey, domain: string)
    | NatGatewayDecl(key: ResourceKey, allocation: ResourceKey, subnet: ResourceKey,
                     dependsOn: set<ResourceKey>)

  /** The resources a declaration refers to, by output or by explicit dependency. */
  function Refs(d: Decl): set<ResourceKey>
  {
    match d
    case VpcDecl(_, _, _, _) => {}
    case IgwDecl(_, vpc) => {vpc}
    case SubnetDecl(_, vpc, _, _, _) => {vpc}
    case RouteTableDecl(_, vpc, route) => {vpc, route.target}
    case AssociationDecl(_, subnet, routeTable) => {subnet, routeTable}
    case EipDecl(_, _) => {}
    case NatGatewayDecl(_, allocation, subnet, dependsOn) => {allocation, subnet} + dependsOn
  }

  /** The availability zones the component spreads over: `a` and `b` of the region. */
  const AvailabilityZones: seq<char> := ['a', 'b']

  const AnyIpv4: string := "0.0.0.0/0"

  /** A subnet's address block `10.0.<thirdOctet>.0/24`; `CidrText` is how it is written. */
  datatype SubnetBlock = Block24(thirdOctet: nat)

  function CidrText(block: SubnetBlock): string
  {
    "10.0." + Decimal(block.thirdOctet) + ".0/24"
  }

  /** Public subnet `i` gets block `10.0.i.0/24`, private subnet `i` gets `10.0.(i+10).0/24`. */
  function PublicSubnetBlock(i: nat): SubnetBlock { Block24(i) }
  function PrivateSubnetBlock(i: nat): SubnetBlock { Block24(i + 10) }

  /** How many NAT gateways there are for `n` public subnets: one if shared, else one each. */
  function NatCount(single: bool, n: nat): nat
  {
    if single && n > 0 then 1 else n
  }

  /** The NAT gateway private route table `i` routes through. */
  function NatIndex(single: bool, i: nat): (r: nat)
    ensures r <= i
    ensures single ==> r == 0
    ensures !single ==> r == i
  {
    if single then 0 else i
  }

  /** Per-zone and per-gateway indices lie within the zone list and the NAT list. */
  predicate KeyInRange(zones: seq<char>, single: bool, key: ResourceKey)
  {
    match key
    case PublicSubnetKey(i) => i < |zones|
    case PrivateSubnetKey(i) => i < |zones|
    case PublicAssociationKey(i) => i < |zones|
    case NatEipKey(i) => i < NatCount(single, |zones|)
    case NatGatewayKey(i) => i < NatCount(single, |zones|)
    case PrivateRouteTableKey(i) => i < |zones|
    case PrivateAssociationKey(i) => i < |zones|
    case _ => true
  }

  /** The declaration the component makes for each of its resources. */
  function DeclFor(zones: seq<char>, region: string, args: VpcArgs, key: ResourceKey): (d: Decl)
    requires KeyInRange(zones, args.singleNatGateway, key)
  {
    match key
    case VpcKey => VpcDecl(key, args.cidrBlock, args.enableDnsHostnames, args.enableDnsSupport)
    case IgwKey => IgwDecl(key, VpcKey)
    case PublicSubnetKey(i) => SubnetDecl(key, VpcKey, PublicSubnetBlock(i), region + [zones[i]], true)
    case PrivateSubnetKey(i) => SubnetDecl(key, VpcKey, PrivateSubnetBlock(i), region + [zones[i]], false)
    case PublicRouteTableKey => RouteTableDecl(key, VpcKey, Route(AnyIpv4, IgwKey))
    case PublicAssociationKey(i) => AssociationDecl(key, PublicSubnetKey(i), PublicRouteTableKey)
    case NatEipKey(_) => EipDecl(key, "vpc")
    case NatGatewayKey(i) => NatGatewayDecl(key, NatEipKey(i), PublicSubnetKey(i), {IgwKey})
    case PrivateRouteTableKey(i) =>
      RouteTableDecl(key, VpcKey, Route(AnyIpv4, NatGatewayKey(NatIndex(args.singleNatGateway, i))))
    case PrivateAssociationKey(i) => AssociationDecl(key, PrivateSubnetKey(i), PrivateRouteTableKey(i))
  }

  // ---------------------------------------------------------------------------
  // The plan: which resources, in which order
  // ---------------------------------------------------------------------------

  /** The VPC and its internet gateway. */
  function HeadDecls(zones: seq<char>, region: string, args: VpcArgs): seq<Decl>
  {
    [DeclFor(zones, region, args, VpcKey), DeclFor(zones, region, args, IgwKey)]
  }

  /** The subnets of the first `k` zones: public then private, zone by zone. */
  function ZoneSubnetDecls(zones: seq<char>, region: string, args: VpcArgs, k: nat): seq<Decl>
    requires k <= |zones|
  {
    if k == 0 then []
    else ZoneSubnetDecls(zones, region, args, k - 1)
         + [DeclFor(zones, region, args, PublicSubnetKey(k - 1)), DeclFor(zones, region, args, PrivateSubnetKey(k - 1))]
  }

  /** The associations of the first `k` public subnets with the public route table. */
  function PublicAssociationDecls(zones: seq<char>, region: string, args: VpcArgs, k: nat): seq<Decl>
    requires k <= |zones|
  {
    if k == 0 then []
    else PublicAssociationDecls(zones, region, args, k - 1) + [DeclFor(zones, region, args, PublicAssociationKey(k - 1))]
  }

  /**
   * The elastic IPs and NAT gateways made while visiting the first `k` public
   * subnets; a shared gateway skips every subnet after the first.
   */
  function NatDecls(zones: seq<char>, region: string, args: VpcArgs, k: nat): seq<Decl>
    requires k <= |zones|
  {
    if k == 0 then []
    else if args.singleNatGateway && k - 1 > 0 then NatDecls(zones, region, args, k - 1)
    else NatDecls(zones, region, args, k - 1)
         + [DeclFor(zones, region, args, NatEipKey(k - 1)), DeclFor(zones, region, args, NatGatewayKey(k - 1))]
  }

  /** The private route tables and their associations for the first `k` private subnets. */
  function PrivateRoutingDecls(zones: seq<char>, region: string, args: VpcArgs, k: nat): seq<Decl>
    requires k <= |zones|
  {
    if k == 0 then []
    else PrivateRoutingDecls(zones, region, args, k - 1)
         + [DeclFor(zones, region, args, PrivateRouteTableKey(k - 1)),
            DeclFor(zones, region, args, PrivateAssociationKey(k - 1))]
  }

  /** What is declared whether or not NAT is enabled: the VPC, its gateway, subnets and public routing. */
  function PublicDecls(zones: seq<char>, region: string, args: VpcArgs): seq<Decl>
  {
    var n := |zones|;
    HeadDecls(zones, region, args) + ZoneSubnetDecls(zones, region, args, n)
    + [DeclFor(zones, region, args, PublicRouteTableKey)] + PublicAssociationDecls(zones, region, args, n)
  }

  /** The declarations of a Vpc component over `zones` in `region`, in declaration order. */
  function VpcPlan(zones: seq<char>, region: string, args: VpcArgs): seq<Decl>
  {
    var n := |zones|;
    if args.enableNatGateway
    then PublicDecls(zones, region, args) + NatDecls(zones, region, args, n) + PrivateRoutingDecls(zones, region, args, n)
    else PublicDecls(zones, region, args)
  }

  // ---------------------------------------------------------------------------
  // The component
  // ---------------------------------------------------------------------------

  /** The key a loop makes at index `i` for resources of kind `kind`. */
  function IndexedKey(kind: Kind, i: nat): (key: ResourceKey)
    ensures KindOf(key) == kind
  {
    match kind
    case VpcKind => VpcKey
    case IgwKind => IgwKey
    case PublicSubnetKind => PublicSubnetKey(i)
    case PrivateSubnetKind => PrivateSubnetKey(i)
    case PublicRouteTableKind => PublicRouteTableKey
    case PublicAssociationKind => PublicAssociationKey(i)
    case NatEipKind => NatEipKey(i)
    case NatGatewayKind => NatGatewayKey(i)
    case PrivateRouteTableKind => PrivateRouteTableKey(i)
    case PrivateAssociationKind => PrivateAssociationKey(i)
  }

  /** The keys of kind `kind` made at indices `0 .. n-1`, in order. */
  function KeyList(kind: Kind, n: nat): seq<ResourceKey>
  {
    if n == 0 then [] else KeyList(kind, n - 1) + [IndexedKey(kind, n - 1)]
  }

  lemma {:induction false} KeyListIndex(kind: Kind, n: nat, i: nat)
    requires i < n
    ensures |KeyList(kind, n)| == n && KeyList(kind, n)[i] == IndexedKey(kind, i)
  {
    KeyListLength(kind, n - 1);
    if i < n - 1 {
      KeyListIndex(kind, n - 1, i);
    }
  }

  lemma {:induction false} KeyListLength(kind: Kind, n: nat)
    ensures |KeyList(kind, n)| == n
  {
    if n > 0 {
      KeyListLength(kind, n - 1);
    }
  }

  function PublicSubnetKeys(n: nat): seq<ResourceKey> { KeyList(PublicSubnetKind, n) }
  function PrivateSubnetKeys(n: nat): seq<ResourceKey> { KeyList(PrivateSubnetKind, n) }
  function PrivateRouteTableKeys(n: nat): seq<ResourceKey> { KeyList(PrivateRouteTableKind, n) }

  /** The NAT gateways made for `n` public subnets, in order. */
  function NatGatewayKeys(single: bool, n: nat): seq<ResourceKey>
  {
    KeyList(NatGatewayKind, NatCount(single, n))
  }

  /** Appending a section that ends in a pair is appending the pair one at a time. */
  lemma AppendPair(before: seq<Decl>, section: seq<Decl>, a: Decl, b: Decl)
    ensures before + (section + [a, b]) == before + section + [a] + [b]
  {
    assert [a, b] == [a] + [b];
  }

  lemma ZoneSubnetsStep(zones: seq<char>, region: string, args: VpcArgs, before: seq<Decl>, i: nat)
    requires i < |zones|
    ensures before + ZoneSubnetDecls(zones, region, args, i + 1)
            == before + ZoneSubnetDecls(zones, region, args, i)
               + [DeclFor(zones, region, args, PublicSubnetKey(i))] + [DeclFor(zones, region, args, PrivateSubnetKey(i))]
  {
    AppendPair(before, ZoneSubnetDecls(zones, region, args, i),
               DeclFor(zones, region, args, PublicSubnetKey(i)), DeclFor(zones, region, args, PrivateSubnetKey(i)));
  }

  lemma NatStep(zones: seq<char>, region: string, args: VpcArgs, before: seq<Decl>, i: nat)
    requires i < |zones| && !(args.singleNatGateway && i > 0)
    ensures before + NatDecls(zones, region, args, i + 1)
            == before + NatDecls(zones, region, args, i)
               + [DeclFor(zones, region, args, NatEipKey(i))] + [DeclFor(zones, region, args, NatGatewayKey(i))]
  {
    AppendPair(before, NatDecls(zones, region, args, i),
               DeclFor(zones, region, args, NatEipKey(i)), DeclFor(zones, region, args, NatGatewayKey(i)));
  }

  lemma PrivateRoutingStep(zones: seq<char>, region: string, args: VpcArgs, before: seq<Decl>, i: nat)
    requires i < |zones|
    ensures before + PrivateRoutingDecls(zones, region, args, i + 1)
            == before + PrivateRoutingDecls(zones, region, args, i)
               + [DeclFor(zones, region, args, PrivateRouteTableKey(i))]
               + [DeclFor(zones, region, args, PrivateAssociationKey(i))]
  {
    AppendPair(before, PrivateRoutingDecls(zones, region, args, i),
               DeclFor(zones, region, args, PrivateRouteTableKey(i)),
               DeclFor(zones, region, args, PrivateAssociationKey(i)));
  }

  lemma HeadPair(a: Decl, b: Decl)
    ensures [] + [a] + [b] == [a, b]
  {
  }

  class Vpc {
    const prefix: string
    var declared: seq<Decl>
    var publicSubnets: seq<ResourceKey>
    var privateSubnets: seq<ResourceKey>
    var natGateways: seq<ResourceKey>
    var privateRouteTables: seq<ResourceKey>
    var vpcId: ResourceKey
    var publicSubnetIds: seq<ResourceKey>
    var privateSubnetIds: seq<ResourceKey>

    /**
     * The component over the availability zones `a` and `b` of `region`.
     * When NAT is disabled the NAT gateway and private route table lists
     * stay empty.
     */
    constructor (name: string, args: VpcArgs, region: string)
      ensures prefix == name
      ensures declared == VpcPlan(AvailabilityZones, region, args)
      ensures publicSubnets == PublicSubnetKeys(|AvailabilityZones|)
      ensures privateSubnets == PrivateSubnetKeys(|AvailabilityZones|)
      ensures natGateways ==
                if args.enableNatGateway then NatGatewayKeys(args.singleNatGateway, |AvailabilityZones|) else []
      ensures privateRouteTables ==
                if args.enableNatGateway then PrivateRouteTableKeys(|AvailabilityZones|) else []
      ensures vpcId == VpcKey && publicSubnetIds == publicSubnets && privateSubnetIds == privateSubnets
    {
      prefix := name;
      declared := [];
      publicSubnets := [];
      privateSubnets := [];
      natGateways := [];
      privateRouteTables := [];
      vpcId := VpcKey;
      publicSubnetIds := [];
      privateSubnetIds := [];
      new;
      Build(AvailabilityZones, region, args);
    }

    /** Declares the component's resources over `zones`, in the source's order. */
    method Build(zones: seq<char>, region: string, args: VpcArgs)
      requires declared == []
      modifies this`declared, this`publicSubnets, this`privateSubnets, this`natGateways,
               this`privateRouteTables, this`vpcId, this`publicSubnetIds, this`privateSubnetIds
      ensures declared == VpcPlan(zones, region, args)
      ensures publicSubnets == PublicSubnetKeys(|zones|)
      ensures privateSubnets == PrivateSubnetKeys(|zones|)
      ensures natGateways ==
                if args.enableNatGateway then NatGatewayKeys(args.singleNatGateway, |zones|) else []
      ensures privateRouteTables ==
                if args.enableNatGateway then PrivateRouteTableKeys(|zones|) else []
      ensures vpcId == VpcKey && publicSubnetIds == publicSubnets && privateSubnetIds == privateSubnets
    {
      var n := |zones|;
      Declare(VpcDecl(VpcKey, args.cidrBlock, args.enableDnsHostnames, args.enableDnsSupport));
      Declare(IgwDecl(IgwKey, VpcKey));
      HeadPair(declared[0], declared[1]);
      DeclareSubnets(zones, region, args);
      DeclarePublicRouting(zones, region, args);
      natGateways := [];
      privateRouteTables := [];
      if args.enableNatGateway {
        DeclareNatGateways(zones, region, args);
        DeclarePrivateRouting(zones, region, args);
      }
      vpcId := VpcKey;
      publicSubnetIds := publicSubnets;
      privateSubnetIds := privateSubnets;
    }

    /** One public and one private subnet per zone, `10.0.i.0/24` and `10.0.(i+10).0/24`. */
    method DeclareSubnets(zones: seq<char>, region: string, args: VpcArgs)
      modifies this`declared, this`publicSubnets, this`privateSubnets
      ensures declared == old(declared) + ZoneSubnetDecls(zones, region, args, |zones|)
      ensures publicSubnets == PublicSubnetKeys(|zones|) && privateSubnets == PrivateSubnetKeys(|zones|)
    {
      publicSubnets := [];
      privateSubnets := [];
      for i := 0 to |zones|
        invariant declared == old(declared) + ZoneSubnetDecls(zones, region, args, i)
        invariant publicSubnets == PublicSubnetKeys(i) && privateSubnets == PrivateSubnetKeys(i)
      {
        var az := zones[i];
        var publicSubnet := SubnetDecl(PublicSubnetKey(i), VpcKey, Block24(i), region + [az], true);
        Declare(publicSubnet);
        publicSubnets := publicSubnets + [publicSubnet.key];
        var privateSubnet := SubnetDecl(PrivateSubnetKey(i), VpcKey, Block24(i + 10), region + [az], false);
        Declare(privateSubnet);
        privateSubnets := privateSubnets + [privateSubnet.key];
        ZoneSubnetsStep(zones, region, args, old(declared), i);
        assert publicSubnets == KeyList(PublicSubnetKind, i + 1);
        assert privateSubnets == KeyList(PrivateSubnetKind, i + 1);
      }
    }

    /** The public route table to the internet gateway, and one association per public subnet. */
    method DeclarePublicRouting(zones: seq<char>, region: string, args: VpcArgs)
      requires publicSubnets == PublicSubnetKeys(|zones|)
      modifies this`declared
      ensures declared == old(declared) + [DeclFor(zones, region, args, PublicRouteTableKey)]
                          + PublicAssociationDecls(zones, region, args, |zones|)
    {
      var publicRouteTable := RouteTableDecl(PublicRouteTableKey, VpcKey, Route(AnyIpv4, IgwKey));
      Declare(publicRouteTable);
      ghost var start := declared;
      KeyListLength(PublicSubnetKind, |zones|);
      for i := 0 to |publicSubnets|
        invariant declared == start + PublicAssociationDecls(zones, region, args, i)
      {
        KeyListIndex(PublicSubnetKind, |zones|, i);
        var association := AssociationDecl(PublicAssociationKey(i), publicSubnets[i], PublicRouteTableKey);
        Declare(association);
      }
    }

    /**
     * An elastic IP and a NAT gateway in each public subnet, or in the first
     * one only when the gateway is shared; each gateway depends on the
     * internet gateway.
     */
    method DeclareNatGateways(zones: seq<char>, region: string, args: VpcArgs)
      requires publicSubnets == PublicSubnetKeys(|zones|)
      modifies this`declared, this`natGateways
      ensures declared == old(declared) + NatDecls(zones, region, args, |zones|)
      ensures natGateways == NatGatewayKeys(args.singleNatGateway, |zones|)
    {
      var single := args.singleNatGateway;
      natGateways := [];
      KeyListLength(PublicSubnetKind, |zones|);
      for i := 0 to |publicSubnets|
        invariant declared == old(declared) + NatDecls(zones, region, args, i)
        invariant natGateways == NatGatewayKeys(single, i)
      {
        if single && i > 0 {
          assert NatDecls(zones, region, args, i + 1) == NatDecls(zones, region, args, i);
          assert NatCount(single, i + 1) == NatCount(single, i);
          continue;
        }
        assert NatCount(single, i) == i && NatCount(single, i + 1) == i + 1;
        var eip := EipDecl(NatEipKey(i), "vpc");
        Declare(eip);
        KeyListIndex(PublicSubnetKind, |zones|, i);
        var natGateway := NatGatewayDecl(NatGatewayKey(i), eip.key, publicSubnets[i], {IgwKey});
        Declare(natGateway);
        natGateways := natGateways + [natGateway.key];
        NatStep(zones, region, args, old(declared), i);
        assert natGateways == KeyList(NatGatewayKind, i + 1);
      }
    }

    /**
     * One route table per private subnet, routing through NAT gateway 0 when
     * it is shared and through gateway `i` otherwise, and its association.
     */
    method DeclarePrivateRouting(zones: seq<char>, region: string, args: VpcArgs)
      requires privateSubnets == PrivateSubnetKeys(|zones|)
      requires natGateways == NatGatewayKeys(args.singleNatGateway, |zones|)
      modifies this`declared, this`privateRouteTables
      ensures declared == old(declared) + PrivateRoutingDecls(zones, region, args, |zones|)
      ensures privateRouteTables == PrivateRouteTableKeys(|zones|)
    {
      privateRouteTables := [];
      KeyListLength(PrivateSubnetKind, |zones|);
      for i := 0 to |privateSubnets|
        invariant declared == old(declared) + PrivateRoutingDecls(zones, region, args, i)
        invariant privateRouteTables == PrivateRouteTableKeys(i)
      {
        DeclareZonePrivateRouting(zones, region, args, i);
        PrivateRoutingStep(zones, region, args, old(declared), i);
        assert privateRouteTables == KeyList(PrivateRouteTableKind, i + 1);
      }
    }

    /** Private subnet `i`'s route table, through its NAT gateway, and the table's association. */
    method DeclareZonePrivateRouting(zones: seq<char>, region: string, args: VpcArgs, i: nat)
      requires i < |zones| && privateSubnets == PrivateSubnetKeys(|zones|)
      requires natGateways == NatGatewayKeys(args.singleNatGateway, |zones|)
      modifies this`declared, this`privateRouteTables
      ensures declared == old(declared) + [DeclFor(zones, region, args, PrivateRouteTableKey(i))]
                          + [DeclFor(zones, region, args, PrivateAssociationKey(i))]
      ensures privateRouteTables == old(privateRouteTables) + [PrivateRouteTableKey(i)]
    {
      var single := args.singleNatGateway;
      var natIndex := if single then 0 else i;
      assert natIndex == NatIndex(single, i) < NatCount(single, |zones|);
      KeyListIndex(NatGatewayKind, NatCount(single, |zones|), natIndex);
      KeyListIndex(PrivateSubnetKind, |zones|, i);
      var privateRouteTable := RouteTableDecl(PrivateRouteTableKey(i), VpcKey, Route(AnyIpv4, natGateways[natIndex]));
      Declare(privateRouteTable);
      var association := AssociationDecl(PrivateAssociationKey(i), privateSubnets[i], privateRouteTable.key);
      Declare(association);
      privateRouteTables := privateRouteTables + [privateRouteTable.key];
    }

    /** Registers one resource with the provisioning engine. */
    method Declare(d: Decl)
      modifies this`declared
      ensures declared == old(declared) + [d]
    {
      declared := declared + [d];
    }
  }
}

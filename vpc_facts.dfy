/**
 * The VPC component's promises about the declarations it makes, stated over
 * the plan: which resources are declared and how each is declared, that
 * every reference is to a resource declared earlier, distinct logical names
 * and subnet blocks, counts per kind, the private route tables' NAT gateway,
 * and that the VPC's own CIDR block reaches no other declaration.
 */
module AwsVpcFacts {

  import opened Text
  import opened VpcNames
  import opened AwsVpc
  import opened AwsVpcProperties

  // ---------------------------------------------------------------------------
  // Ordering, read position by position
  // ---------------------------------------------------------------------------

  /** A key is among the keys of `ds` exactly when some position of `ds` declares it. */
  lemma {:induction false} KeysOfIndex(ds: seq<Decl>, key: ResourceKey)
    ensures key in KeysOf(ds) <==> exists i :: 0 <= i < |ds| && ds[i].key == key
  {
    if ds != [] {
      var init := ds[..|ds| - 1];
      KeysOfIndex(init, key);
      if key in KeysOf(init) {
        var i :| 0 <= i < |init| && init[i].key == key;
        assert ds[i].key == key;
      } else if key != ds[|ds| - 1].key {
        forall i | 0 <= i < |init|
          ensures ds[i].key != key
        {
          assert ds[i] == init[i];
        }
      }
    }
  }

  /**
   * In an ordered list no two positions declare the same resource, and each
   * reference is to a resource declared at an earlier position.
   */
  lemma {:induction false} OrderedIndex(ds: seq<Decl>)
    requires Ordered(ds)
    ensures forall i, j :: 0 <= i < j < |ds| ==> ds[i].key != ds[j].key
    ensures forall j, r :: 0 <= j < |ds| && r in Refs(ds[j]) ==> exists i :: 0 <= i < j && ds[i].key == r
  {
    if ds != [] {
      var init, last := ds[..|ds| - 1], ds[|ds| - 1];
      assert {} + KeysOf(init) == KeysOf(init);
      OrderedIndex(init);
      forall i | 0 <= i < |init|
        ensures ds[i].key != last.key
      {
        KeysOfIndex(init, init[i].key);
      }
      forall r | r in Refs(last)
        ensures exists i :: 0 <= i < |init| && ds[i].key == r
      {
        KeysOfIndex(init, r);
        var i :| 0 <= i < |init| && init[i].key == r;
        assert ds[i].key == r;
      }
      forall j, r | 0 <= j < |init| && r in Refs(ds[j])
        ensures exists i :: 0 <= i < j && ds[i].key == r
      {
        assert ds[j] == init[j];
        var i :| 0 <= i < j && init[i].key == r;
        assert ds[i].key == r;
      }
    }
  }

  // ---------------------------------------------------------------------------
  // Key sets, read as kind and index
  // ---------------------------------------------------------------------------

  /** A key is the one its loop makes at its own index. */
  lemma IndexedKeyOf(key: ResourceKey)
    ensures IndexedKey(KindOf(key), Index(key)) == key
  {
  }

  lemma {:induction false} KeySetIff(kind: Kind, n: nat, key: ResourceKey)
    ensures key in KeySet(kind, n) <==> KindOf(key) == kind && Index(key) < n
  {
    if KindOf(key) == kind && Index(key) < n {
      IndexedKeyOf(key);
      KeySetMember(kind, n, Index(key));
    } else {
      KeySetExcludes(kind, n, key);
    }
  }

  // ---------------------------------------------------------------------------
  // How each resource is declared
  // ---------------------------------------------------------------------------

  /** Every declaration of `ds` is the canonical declaration of its own key. */
  predicate Canonical(zones: seq<char>, region: string, args: VpcArgs, ds: seq<Decl>)
  {
    forall d :: d in ds ==>
      KeyInRange(zones, args.singleNatGateway, d.key) && d == DeclFor(zones, region, args, d.key)
  }

  lemma {:induction false} ZoneSubnetsCanonical(zones: seq<char>, region: string, args: VpcArgs, k: nat)
    requires k <= |zones|
    ensures Canonical(zones, region, args, ZoneSubnetDecls(zones, region, args, k))
  {
    if k > 0 {
      ZoneSubnetsCanonical(zones, region, args, k - 1);
    }
  }

  lemma {:induction false} PublicAssociationsCanonical(zones: seq<char>, region: string, args: VpcArgs, k: nat)
    requires k <= |zones|
    ensures Canonical(zones, region, args, PublicAssociationDecls(zones, region, args, k))
  {
    if k > 0 {
      PublicAssociationsCanonical(zones, region, args, k - 1);
    }
  }

  lemma {:induction false} NatCanonical(zones: seq<char>, region: string, args: VpcArgs, k: nat)
    requires k <= |zones|
    ensures Canonical(zones, region, args, NatDecls(zones, region, args, k))
  {
    if k > 0 {
      NatCanonical(zones, region, args, k - 1);
    }
  }

  lemma {:induction false} PrivateRoutingCanonical(zones: seq<char>, region: string, args: VpcArgs, k: nat)
    requires k <= |zones|
    ensures Canonical(zones, region, args, PrivateRoutingDecls(zones, region, args, k))
  {
    if k > 0 {
      PrivateRoutingCanonical(zones, region, args, k - 1);
    }
  }

  lemma PlanCanonical(zones: seq<char>, region: string, args: VpcArgs)
    ensures Canonical(zones, region, args, VpcPlan(zones, region, args))
  {
    var n := |zones|;
    ZoneSubnetsCanonical(zones, region, args, n);
    PublicAssociationsCanonical(zones, region, args, n);
    NatCanonical(zones, region, args, n);
    PrivateRoutingCanonical(zones, region, args, n);
  }

  /** The resources the plan declares, whatever their order. */
  lemma PlanKeySet(zones: seq<char>, region: string, args: VpcArgs)
    ensures KeysOf(VpcPlan(zones, region, args))
            == PublicKeys(|zones|) + (if args.enableNatGateway then NatKeys(args.singleNatGateway, |zones|) else {})
  {
    PlanOrdered(zones, region, args);
  }

  /**
   * The plan declares exactly the resources `Declares` admits: those whose
   * index is in range, and the NAT-only kinds only when NAT is enabled.
   */
  lemma PlanKeys(zones: seq<char>, region: string, args: VpcArgs, key: ResourceKey)
    ensures key in KeysOf(VpcPlan(zones, region, args)) <==> Declares(zones, args, key)
  {
    PlanKeySet(zones, region, args);
    PublicKeysIff(zones, args.singleNatGateway, key);
    NatKeysIff(zones, args.singleNatGateway, key);
  }

  lemma PublicKeysIff(zones: seq<char>, single: bool, key: ResourceKey)
    ensures key in PublicKeys(|zones|) <==> !NatOnly(KindOf(key)) && KeyInRange(zones, single, key)
  {
    var n: nat := |zones|;
    KeySetIff(PublicSubnetKind, n, key);
    KeySetIff(PrivateSubnetKind, n, key);
    KeySetIff(PublicAssociationKind, n, key);
  }

  lemma NatKeysIff(zones: seq<char>, single: bool, key: ResourceKey)
    ensures key in NatKeys(single, |zones|) <==> NatOnly(KindOf(key)) && KeyInRange(zones, single, key)
  {
    var n: nat := |zones|;
    var c: nat := NatCount(single, n);
    KeySetIff(NatEipKind, c, key);
    KeySetIff(NatGatewayKind, c, key);
    KeySetIff(PrivateRouteTableKind, n, key);
    KeySetIff(PrivateAssociationKind, n, key);
  }

  /**
   * The plan, position by position: each declaration is the canonical one of
   * a resource the component declares.
   */
  lemma PlanEntries(zones: seq<char>, region: string, args: VpcArgs)
    ensures forall i :: 0 <= i < |VpcPlan(zones, region, args)| ==>
              var d := VpcPlan(zones, region, args)[i];
              Declares(zones, args, d.key) && d == DeclFor(zones, region, args, d.key)
  {
    var plan := VpcPlan(zones, region, args);
    PlanCanonical(zones, region, args);
    forall i | 0 <= i < |plan|
      ensures Declares(zones, args, plan[i].key)
    {
      KeysOfIndex(plan, plan[i].key);
      PlanKeys(zones, region, args, plan[i].key);
    }
  }

  /**
   * No resource is declared twice, and every reference is to a resource
   * declared at an earlier position.
   */
  lemma PlanOrder(zones: seq<char>, region: string, args: VpcArgs)
    ensures forall i, j :: 0 <= i < j < |VpcPlan(zones, region, args)| ==>
              VpcPlan(zones, region, args)[i].key != VpcPlan(zones, region, args)[j].key
    ensures forall j, r :: 0 <= j < |VpcPlan(zones, region, args)| && r in Refs(VpcPlan(zones, region, args)[j]) ==>
              exists i :: 0 <= i < j && VpcPlan(zones, region, args)[i].key == r
  {
    PlanIsOrdered(zones, region, args);
    OrderedIndex(VpcPlan(zones, region, args));
  }

  lemma PlanIsOrdered(zones: seq<char>, region: string, args: VpcArgs)
    ensures Ordered(VpcPlan(zones, region, args))
  {
    PlanOrdered(zones, region, args);
  }

  /** Every resource the component declares has its canonical declaration in the plan. */
  lemma PlanComplete(zones: seq<char>, region: string, args: VpcArgs, key: ResourceKey)
    requires Declares(zones, args, key)
    ensures exists i :: 0 <= i < |VpcPlan(zones, region, args)|
                        && VpcPlan(zones, region, args)[i] == DeclFor(zones, region, args, key)
  {
    var plan := VpcPlan(zones, region, args);
    PlanKeys(zones, region, args, key);
    KeysOfIndex(plan, key);
    PlanCanonical(zones, region, args);
    var i :| 0 <= i < |plan| && plan[i].key == key;
    assert plan[i] in plan;
  }

  // ---------------------------------------------------------------------------
  // Logical names
  // ---------------------------------------------------------------------------

  /** Over distinct zone letters, the resources of the plan get pairwise distinct logical names. */
  lemma PlanNamesDistinct(prefix: string, zones: seq<char>, region: string, args: VpcArgs)
    requires DistinctZones(zones)
    ensures forall i :: 0 <= i < |VpcPlan(zones, region, args)| ==> ValidKey(zones, VpcPlan(zones, region, args)[i].key)
    ensures forall i, j :: 0 <= i < j < |VpcPlan(zones, region, args)| ==>
              LogicalName(prefix, zones, VpcPlan(zones, region, args)[i].key)
              != LogicalName(prefix, zones, VpcPlan(zones, region, args)[j].key)
  {
    var plan := VpcPlan(zones, region, args);
    PlanEntries(zones, region, args);
    PlanOrder(zones, region, args);
    forall i, j | 0 <= i < j < |plan|
      ensures LogicalName(prefix, zones, plan[i].key) != LogicalName(prefix, zones, plan[j].key)
    {
      LogicalNameInjective(prefix, zones, plan[i].key, plan[j].key);
    }
  }

  // ---------------------------------------------------------------------------
  // NAT gateways and routing
  // ---------------------------------------------------------------------------

  /**
   * There are as many NAT gateways as public subnets, or one when shared;
   * none exactly when there are no public subnets.
   */
  lemma NatCountBounds(single: bool, n: nat)
    ensures NatCount(single, n) <= n && (NatCount(single, n) == 0 <==> n == 0)
    ensures single ==> NatCount(single, n) <= 1
    ensures !single ==> NatCount(single, n) == n
  {
  }

  /**
   * Each canonical declaration carries its own key, and every resource it
   * refers to is in range: no reference to a subnet, gateway or route table
   * beyond those the loops make.
   */
  lemma DeclForReferencesInRange(zones: seq<char>, region: string, args: VpcArgs, key: ResourceKey)
    requires KeyInRange(zones, args.singleNatGateway, key)
    ensures DeclFor(zones, region, args, key).key == key
    ensures forall r :: r in Refs(DeclFor(zones, region, args, key)) ==> KeyInRange(zones, args.singleNatGateway, r)
  {
    if key.PrivateRouteTableKey? {
      NatIndexInBounds(args.singleNatGateway, |zones|, key.index);
    }
  }

  /** The plan opens with the VPC, carrying the configured block and DNS flags, then its internet gateway. */
  lemma PlanHead(zones: seq<char>, region: string, args: VpcArgs)
    ensures |VpcPlan(zones, region, args)| >= 3
    ensures VpcPlan(zones, region, args)[0]
            == VpcDecl(VpcKey, args.cidrBlock, args.enableDnsHostnames, args.enableDnsSupport)
    ensures VpcPlan(zones, region, args)[1] == IgwDecl(IgwKey, VpcKey)
  {
    var head := HeadDecls(zones, region, args);
    var p := PublicDecls(zones, region, args);
    assert p == head + (ZoneSubnetDecls(zones, region, args, |zones|)
                        + [DeclFor(zones, region, args, PublicRouteTableKey)]
                        + PublicAssociationDecls(zones, region, args, |zones|));
    assert p[0] == head[0] && p[1] == head[1];
  }

  /** The gateway private route table `i` uses is one of the NAT gateways made. */
  lemma NatIndexInBounds(single: bool, n: nat, i: nat)
    requires i < n
    ensures NatIndex(single, i) < NatCount(single, n)
    ensures single ==> NatIndex(single, i) == 0
    ensures !single ==> NatIndex(single, i) == i
  {
  }

  /**
   * Every NAT gateway `k` depends on the internet gateway, sits in public
   * subnet `k` and uses elastic IP `k`, and there are `NatCount` of them.
   */
  lemma PlanNatGateways(zones: seq<char>, region: string, args: VpcArgs)
    ensures forall d :: d in VpcPlan(zones, region, args) && d.NatGatewayDecl? ==>
              d.key.NatGatewayKey? && d.key.index < NatCount(args.singleNatGateway, |zones|)
              && d.dependsOn == {IgwKey} && IgwKey in Refs(d)
              && d.allocation == NatEipKey(d.key.index) && d.subnet == PublicSubnetKey(d.key.index)
  {
    PlanCanonical(zones, region, args);
  }

  /**
   * With NAT enabled, private route table `i` routes everything through NAT
   * gateway `NatIndex(single, i)`, which the plan declares; each private
   * subnet is associated with its own table.
   */
  lemma PlanPrivateRouting(zones: seq<char>, region: string, args: VpcArgs)
    ensures forall d :: d in VpcPlan(zones, region, args) && d.key.PrivateRouteTableKey? ==>
              d.RouteTableDecl?
              && d.route == Route(AnyIpv4, NatGatewayKey(NatIndex(args.singleNatGateway, d.key.index)))
              && NatGatewayKey(NatIndex(args.singleNatGateway, d.key.index)) in KeysOf(VpcPlan(zones, region, args))
    ensures forall d :: d in VpcPlan(zones, region, args) && d.key.PrivateAssociationKey? ==>
              d == AssociationDecl(d.key, PrivateSubnetKey(d.key.index), PrivateRouteTableKey(d.key.index))
    ensures forall i :: 0 <= i < |zones| && args.enableNatGateway ==>
              PrivateRouteTableKey(i) in KeysOf(VpcPlan(zones, region, args))
              && PrivateAssociationKey(i) in KeysOf(VpcPlan(zones, region, args))
  {
    var plan := VpcPlan(zones, region, args);
    forall d | d in plan && d.key.PrivateRouteTableKey?
      ensures d.RouteTableDecl? && d.route == Route(AnyIpv4, NatGatewayKey(NatIndex(args.singleNatGateway, d.key.index)))
      ensures NatGatewayKey(NatIndex(args.singleNatGateway, d.key.index)) in KeysOf(plan)
    {
      PrivateRouteTableEntry(zones, region, args, d);
    }
    PlanCanonical(zones, region, args);
    forall i | 0 <= i < |zones| && args.enableNatGateway
      ensures PrivateRouteTableKey(i) in KeysOf(plan) && PrivateAssociationKey(i) in KeysOf(plan)
    {
      PlanKeys(zones, region, args, PrivateRouteTableKey(i));
      PlanKeys(zones, region, args, PrivateAssociationKey(i));
    }
  }

  lemma PrivateRouteTableEntry(zones: seq<char>, region: string, args: VpcArgs, d: Decl)
    requires d in VpcPlan(zones, region, args) && d.key.PrivateRouteTableKey?
    ensures d.RouteTableDecl? && d.route == Route(AnyIpv4, NatGatewayKey(NatIndex(args.singleNatGateway, d.key.index)))
    ensures NatGatewayKey(NatIndex(args.singleNatGateway, d.key.index)) in KeysOf(VpcPlan(zones, region, args))
  {
    var plan := VpcPlan(zones, region, args);
    PlanCanonical(zones, region, args);
    KeysOfIndex(plan, d.key);
    PlanKeys(zones, region, args, d.key);
    NatIndexInBounds(args.singleNatGateway, |zones|, d.key.index);
    PlanKeys(zones, region, args, NatGatewayKey(NatIndex(args.singleNatGateway, d.key.index)));
  }

  /**
   * One public route table, whose single route sends everything to the
   * internet gateway, and one association per public subnet with it.
   */
  lemma PlanPublicRouting(zones: seq<char>, region: string, args: VpcArgs)
    ensures PublicRouteTableKey in KeysOf(VpcPlan(zones, region, args))
    ensures forall d :: d in VpcPlan(zones, region, args) && d.key == PublicRouteTableKey ==>
              d == RouteTableDecl(PublicRouteTableKey, VpcKey, Route(AnyIpv4, IgwKey))
    ensures forall i :: 0 <= i < |zones| ==> PublicAssociationKey(i) in KeysOf(VpcPlan(zones, region, args))
    ensures forall d :: d in VpcPlan(zones, region, args) && d.key.PublicAssociationKey? ==>
              d == AssociationDecl(d.key, PublicSubnetKey(d.key.index), PublicRouteTableKey)
  {
    PlanCanonical(zones, region, args);
    PlanKeys(zones, region, args, PublicRouteTableKey);
    forall i | 0 <= i < |zones|
      ensures PublicAssociationKey(i) in KeysOf(VpcPlan(zones, region, args))
    {
      PlanKeys(zones, region, args, PublicAssociationKey(i));
    }
  }

  /** Without NAT, no elastic IP, NAT gateway, private route table or private association is declared. */
  lemma PlanWithoutNat(zones: seq<char>, region: string, args: VpcArgs)
    requires !args.enableNatGateway
    ensures forall d :: d in VpcPlan(zones, region, args) ==>
              !NatOnly(KindOf(d.key)) && !d.EipDecl? && !d.NatGatewayDecl?
  {
    var plan := VpcPlan(zones, region, args);
    PlanCanonical(zones, region, args);
    forall d | d in plan
      ensures !NatOnly(KindOf(d.key))
    {
      KeysOfIndex(plan, d.key);
      PlanKeys(zones, region, args, d.key);
    }
  }

  // ---------------------------------------------------------------------------
  // Counts
  // ---------------------------------------------------------------------------

  /** How many resources of each kind a component over `zones` declares. */
  function DeclaredCount(zones: seq<char>, args: VpcArgs, kind: Kind): nat
  {
    var n := |zones|;
    match kind
    case VpcKind => 1
    case IgwKind => 1
    case PublicRouteTableKind => 1
    case PublicSubnetKind => n
    case PrivateSubnetKind => n
    case PublicAssociationKind => n
    case NatEipKind => if args.enableNatGateway then NatCount(args.singleNatGateway, n) else 0
    case NatGatewayKind => if args.enableNatGateway then NatCount(args.singleNatGateway, n) else 0
    case PrivateRouteTableKind => if args.enableNatGateway then n else 0
    case PrivateAssociationKind => if args.enableNatGateway then n else 0
  }

  /** The resources of kind `kind` that `ds` declares. */
  function KindKeys(ds: seq<Decl>, kind: Kind): set<ResourceKey>
  {
    set key | key in KeysOf(ds) && KindOf(key) == kind
  }

  /** The kinds with one resource per loop index. */
  predicate PerIndex(kind: Kind)
  {
    kind != VpcKind && kind != IgwKind && kind != PublicRouteTableKind
  }

  lemma {:induction false} KeySetSize(kind: Kind, m: nat)
    requires PerIndex(kind) || m <= 1
    ensures |KeySet(kind, m)| == m
  {
    if m > 0 {
      KeySetSize(kind, m - 1);
      KeySetExcludes(kind, m - 1, IndexedKey(kind, m - 1));
    }
  }

  /**
   * The plan declares one VPC, one internet gateway, one public route table,
   * a public subnet, a private subnet and a public association per zone and,
   * with NAT enabled, `NatCount` elastic IPs and NAT gateways and a private
   * route table and association per zone; none of these without NAT.
   */
  lemma PlanKindCount(zones: seq<char>, region: string, args: VpcArgs, kind: Kind)
    ensures KindKeys(VpcPlan(zones, region, args), kind) == KeySet(kind, DeclaredCount(zones, args, kind))
    ensures |KindKeys(VpcPlan(zones, region, args), kind)| == DeclaredCount(zones, args, kind)
  {
    PlanKindKeys(zones, region, args, kind);
    KeySetSize(kind, DeclaredCount(zones, args, kind));
  }

  lemma PlanKindKeys(zones: seq<char>, region: string, args: VpcArgs, kind: Kind)
    ensures KindKeys(VpcPlan(zones, region, args), kind) == KeySet(kind, DeclaredCount(zones, args, kind))
  {
    forall key
      ensures key in KindKeys(VpcPlan(zones, region, args), kind) <==> key in KeySet(kind, DeclaredCount(zones, args, kind))
    {
      KindKeyIff(zones, region, args, kind, key);
    }
  }

  lemma KindKeyIff(zones: seq<char>, region: string, args: VpcArgs, kind: Kind, key: ResourceKey)
    ensures key in KindKeys(VpcPlan(zones, region, args), kind) <==> key in KeySet(kind, DeclaredCount(zones, args, kind))
  {
    PlanKeys(zones, region, args, key);
    KeySetIff(kind, DeclaredCount(zones, args, kind), key);
    DeclaresByCount(zones, args, key);
  }

  /** A resource is declared exactly when its index is below its kind's count. */
  lemma DeclaresByCount(zones: seq<char>, args: VpcArgs, key: ResourceKey)
    ensures Declares(zones, args, key) <==> Index(key) < DeclaredCount(zones, args, KindOf(key))
  {
  }

  lemma {:induction false} ZoneSubnetsLength(zones: seq<char>, region: string, args: VpcArgs, k: nat)
    requires k <= |zones|
    ensures |ZoneSubnetDecls(zones, region, args, k)| == 2 * k
  {
    if k > 0 {
      ZoneSubnetsLength(zones, region, args, k - 1);
    }
  }

  lemma {:induction false} PublicAssociationsLength(zones: seq<char>, region: string, args: VpcArgs, k: nat)
    requires k <= |zones|
    ensures |PublicAssociationDecls(zones, region, args, k)| == k
  {
    if k > 0 {
      PublicAssociationsLength(zones, region, args, k - 1);
    }
  }

  lemma {:induction false} NatLength(zones: seq<char>, region: string, args: VpcArgs, k: nat)
    requires k <= |zones|
    ensures |NatDecls(zones, region, args, k)| == 2 * NatCount(args.singleNatGateway, k)
  {
    if k > 0 {
      NatLength(zones, region, args, k - 1);
    }
  }

  lemma {:induction false} PrivateRoutingLength(zones: seq<char>, region: string, args: VpcArgs, k: nat)
    requires k <= |zones|
    ensures |PrivateRoutingDecls(zones, region, args, k)| == 2 * k
  {
    if k > 0 {
      PrivateRoutingLength(zones, region, args, k - 1);
    }
  }

  /** The number of declarations: the counts per kind added up. */
  lemma PlanLength(zones: seq<char>, region: string, args: VpcArgs)
    ensures |VpcPlan(zones, region, args)|
            == 3 + 3 * |zones|
               + (if args.enableNatGateway then 2 * NatCount(args.singleNatGateway, |zones|) + 2 * |zones| else 0)
  {
    var n := |zones|;
    ZoneSubnetsLength(zones, region, args, n);
    PublicAssociationsLength(zones, region, args, n);
    NatLength(zones, region, args, n);
    PrivateRoutingLength(zones, region, args, n);
  }

  // ---------------------------------------------------------------------------
  // Subnet address blocks
  // ---------------------------------------------------------------------------

  /** A block is written `10.0.` then its third octet then `.0/24`. */
  lemma CidrTextShape(block: SubnetBlock)
    ensures StartsWith(CidrText(block), "10.0.") && |CidrText(block)| >= 11
    ensures CidrText(block)[|CidrText(block)| - 5..] == ".0/24"
  {
  }

  /** Different blocks are written differently. */
  lemma CidrTextInjective(a: SubnetBlock, b: SubnetBlock)
    ensures CidrText(a) == CidrText(b) ==> a == b
  {
    var da, db := Decimal(a.thirdOctet), Decimal(b.thirdOctet);
    assert CidrText(a) == "10.0." + (da + ".0/24");
    assert CidrText(b) == "10.0." + (db + ".0/24");
    PrefixCancel("10.0.", da + ".0/24", db + ".0/24");
    SuffixCancel(da, db, ".0/24");
    DecimalInjective(a.thirdOctet, b.thirdOctet);
  }

  /**
   * With at most ten zones, the subnets of the plan have pairwise distinct
   * address blocks, and so distinct CIDR texts.
   */
  lemma PlanSubnetBlocksDistinct(zones: seq<char>, region: string, args: VpcArgs)
    requires |zones| <= 10
    ensures forall i, j :: 0 <= i < j < |VpcPlan(zones, region, args)|
                           && VpcPlan(zones, region, args)[i].SubnetDecl? && VpcPlan(zones, region, args)[j].SubnetDecl? ==>
              CidrText(VpcPlan(zones, region, args)[i].block) != CidrText(VpcPlan(zones, region, args)[j].block)
  {
    var plan := VpcPlan(zones, region, args);
    PlanEntries(zones, region, args);
    PlanOrder(zones, region, args);
    forall i, j | 0 <= i < j < |plan| && plan[i].SubnetDecl? && plan[j].SubnetDecl?
      ensures CidrText(plan[i].block) != CidrText(plan[j].block)
    {
      CidrTextInjective(plan[i].block, plan[j].block);
    }
  }

  /** With eleven zones or more, public subnet 10 and private subnet 0 share a block. */
  lemma BlocksCollideBeyondTenZones(zones: seq<char>, region: string, args: VpcArgs)
    requires |zones| > 10
    ensures exists i, j :: 0 <= i < |VpcPlan(zones, region, args)| && 0 <= j < |VpcPlan(zones, region, args)| && i != j
                           && VpcPlan(zones, region, args)[i].SubnetDecl? && VpcPlan(zones, region, args)[j].SubnetDecl?
                           && VpcPlan(zones, region, args)[i].block == VpcPlan(zones, region, args)[j].block
  {
    var plan := VpcPlan(zones, region, args);
    PlanComplete(zones, region, args, PublicSubnetKey(10));
    PlanComplete(zones, region, args, PrivateSubnetKey(0));
    var i :| 0 <= i < |plan| && plan[i] == DeclFor(zones, region, args, PublicSubnetKey(10));
    var j :| 0 <= j < |plan| && plan[j] == DeclFor(zones, region, args, PrivateSubnetKey(0));
    assert plan[i].key != plan[j].key;
  }

  /** Subnet blocks do not depend on the VPC's own CIDR block. */
  lemma {:induction false} ZoneSubnetsIgnoreCidr(zones: seq<char>, region: string, args: VpcArgs, c: string, k: nat)
    requires k <= |zones|
    ensures ZoneSubnetDecls(zones, region, args.(cidrBlock := c), k) == ZoneSubnetDecls(zones, region, args, k)
  {
    if k > 0 {
      ZoneSubnetsIgnoreCidr(zones, region, args, c, k - 1);
    }
  }

  lemma {:induction false} PublicAssociationsIgnoreCidr(zones: seq<char>, region: string, args: VpcArgs, c: string, k: nat)
    requires k <= |zones|
    ensures PublicAssociationDecls(zones, region, args.(cidrBlock := c), k) == PublicAssociationDecls(zones, region, args, k)
  {
    if k > 0 {
      PublicAssociationsIgnoreCidr(zones, region, args, c, k - 1);
    }
  }

  lemma {:induction false} NatIgnoresCidr(zones: seq<char>, region: string, args: VpcArgs, c: string, k: nat)
    requires k <= |zones|
    ensures NatDecls(zones, region, args.(cidrBlock := c), k) == NatDecls(zones, region, args, k)
  {
    if k > 0 {
      NatIgnoresCidr(zones, region, args, c, k - 1);
    }
  }

  lemma {:induction false} PrivateRoutingIgnoresCidr(zones: seq<char>, region: string, args: VpcArgs, c: string, k: nat)
    requires k <= |zones|
    ensures PrivateRoutingDecls(zones, region, args.(cidrBlock := c), k) == PrivateRoutingDecls(zones, region, args, k)
  {
    if k > 0 {
      PrivateRoutingIgnoresCidr(zones, region, args, c, k - 1);
    }
  }

  /** Lists that agree after their first element still do once the same list is appended. */
  lemma SameTail(h: seq<Decl>, h': seq<Decl>, x: seq<Decl>)
    requires |h| == |h'| >= 1 && h[1..] == h'[1..]
    ensures |h + x| == |h' + x| && (h + x)[0] == h[0] && (h' + x)[0] == h'[0]
    ensures (h + x)[1..] == (h' + x)[1..]
  {
    assert (h + x)[1..] == h[1..] + x;
    assert (h' + x)[1..] == h'[1..] + x;
  }

  /**
   * The VPC's CIDR block reaches only the VPC's own declaration: changing it
   * changes that declaration's block and nothing else in the plan.
   */
  lemma PlanIgnoresCidrBlock(zones: seq<char>, region: string, args: VpcArgs, c: string)
    ensures |VpcPlan(zones, region, args)| >= 1
            && |VpcPlan(zones, region, args.(cidrBlock := c))| == |VpcPlan(zones, region, args)|
    ensures VpcPlan(zones, region, args)[0].VpcDecl?
            && VpcPlan(zones, region, args.(cidrBlock := c))[0] == VpcPlan(zones, region, args)[0].(cidrBlock := c)
    ensures VpcPlan(zones, region, args.(cidrBlock := c))[1..] == VpcPlan(zones, region, args)[1..]
  {
    var n := |zones|;
    var args' := args.(cidrBlock := c);
    ZoneSubnetsIgnoreCidr(zones, region, args, c, n);
    PublicAssociationsIgnoreCidr(zones, region, args, c, n);
    NatIgnoresCidr(zones, region, args, c, n);
    PrivateRoutingIgnoresCidr(zones, region, args, c, n);
    var h, h' := HeadDecls(zones, region, args), HeadDecls(zones, region, args');
    var zs := ZoneSubnetDecls(zones, region, args, n);
    var table := [DeclFor(zones, region, args, PublicRouteTableKey)];
    var pa := PublicAssociationDecls(zones, region, args, n);
    SameTail(h, h', zs);
    SameTail(h + zs, h' + zs, table);
    SameTail(h + zs + table, h' + zs + table, pa);
    var p, p' := PublicDecls(zones, region, args), PublicDecls(zones, region, args');
    assert p == h + zs + table + pa && p' == h' + zs + table + pa;
    if args.enableNatGateway {
      var natDecls := NatDecls(zones, region, args, n);
      SameTail(p, p', natDecls);
      SameTail(p + natDecls, p' + natDecls, PrivateRoutingDecls(zones, region, args, n));
    }
  }

  // ---------------------------------------------------------------------------
  // Exported lists
  // ---------------------------------------------------------------------------

  /**
   * The exported subnet id lists have one entry per zone, in zone order: the
   * `i`-th entry is the subnet the plan declares in zone `i`.
   */
  lemma ExportedSubnetIds(zones: seq<char>, region: string, args: VpcArgs)
    ensures |PublicSubnetKeys(|zones|)| == |zones| && |PrivateSubnetKeys(|zones|)| == |zones|
    ensures forall i, d :: 0 <= i < |zones| && d in VpcPlan(zones, region, args) && d.key == PublicSubnetKeys(|zones|)[i] ==>
              d.SubnetDecl? && d.availabilityZone == region + [zones[i]] && d.mapPublicIpOnLaunch
    ensures forall i, d :: 0 <= i < |zones| && d in VpcPlan(zones, region, args) && d.key == PrivateSubnetKeys(|zones|)[i] ==>
              d.SubnetDecl? && d.availabilityZone == region + [zones[i]] && !d.mapPublicIpOnLaunch
    ensures forall i :: 0 <= i < |zones| ==>
              PublicSubnetKeys(|zones|)[i] in KeysOf(VpcPlan(zones, region, args))
              && PrivateSubnetKeys(|zones|)[i] in KeysOf(VpcPlan(zones, region, args))
  {
    var n := |zones|;
    ExportedSubnetKeys(n);
    PlanCanonical(zones, region, args);
    forall i | 0 <= i < n
      ensures PublicSubnetKey(i) in KeysOf(VpcPlan(zones, region, args))
      ensures PrivateSubnetKey(i) in KeysOf(VpcPlan(zones, region, args))
    {
      PlanKeys(zones, region, args, PublicSubnetKey(i));
      PlanKeys(zones, region, args, PrivateSubnetKey(i));
    }
  }

  lemma ExportedSubnetKeys(n: nat)
    ensures |PublicSubnetKeys(n)| == n && |PrivateSubnetKeys(n)| == n
    ensures forall i :: 0 <= i < n ==> PublicSubnetKeys(n)[i] == PublicSubnetKey(i) && PrivateSubnetKeys(n)[i] == PrivateSubnetKey(i)
  {
    KeyListLength(PublicSubnetKind, n);
    KeyListLength(PrivateSubnetKind, n);
    forall i | 0 <= i < n
      ensures PublicSubnetKeys(n)[i] == PublicSubnetKey(i) && PrivateSubnetKeys(n)[i] == PrivateSubnetKey(i)
    {
      KeyListIndex(PublicSubnetKind, n, i);
      KeyListIndex(PrivateSubnetKind, n, i);
    }
  }

  /** The NAT gateway list has `NatCount` entries, in the order they are made, each declared by the plan. */
  lemma ExportedNatGateways(zones: seq<char>, region: string, args: VpcArgs)
    ensures |NatGatewayKeys(args.singleNatGateway, |zones|)| == NatCount(args.singleNatGateway, |zones|)
    ensures forall i :: 0 <= i < NatCount(args.singleNatGateway, |zones|) ==>
              NatGatewayKeys(args.singleNatGateway, |zones|)[i] == NatGatewayKey(i)
              && (args.enableNatGateway ==> NatGatewayKey(i) in KeysOf(VpcPlan(zones, region, args)))
  {
    var c := NatCount(args.singleNatGateway, |zones|);
    KeyListLength(NatGatewayKind, c);
    forall i | 0 <= i < c
      ensures NatGatewayKeys(args.singleNatGateway, |zones|)[i] == NatGatewayKey(i)
      ensures args.enableNatGateway ==> NatGatewayKey(i) in KeysOf(VpcPlan(zones, region, args))
    {
      KeyListIndex(NatGatewayKind, c, i);
      PlanKeys(zones, region, args, NatGatewayKey(i));
    }
  }

  // ---------------------------------------------------------------------------
  // The component as deployed: zones `a` and `b`
  // ---------------------------------------------------------------------------

  /**
   * Over zones `a` and `b`: 9 declarations without NAT, 15 with one shared
   * NAT gateway and 17 with one per zone; 2 public and 2 private subnets; and
   * 1 or 2 NAT gateways.
   */
  lemma ComponentCounts(region: string, args: VpcArgs)
    ensures |VpcPlan(AvailabilityZones, region, args)|
            == if !args.enableNatGateway then 9 else if args.singleNatGateway then 15 else 17
    ensures |KindKeys(VpcPlan(AvailabilityZones, region, args), PublicSubnetKind)| == 2
    ensures |KindKeys(VpcPlan(AvailabilityZones, region, args), PrivateSubnetKind)| == 2
    ensures |KindKeys(VpcPlan(AvailabilityZones, region, args), NatGatewayKind)|
            == if !args.enableNatGateway then 0 else if args.singleNatGateway then 1 else 2
  {
    PlanLength(AvailabilityZones, region, args);
    PlanKindCount(AvailabilityZones, region, args, PublicSubnetKind);
    PlanKindCount(AvailabilityZones, region, args, PrivateSubnetKind);
    PlanKindCount(AvailabilityZones, region, args, NatGatewayKind);
  }

  /** Over zones `a` and `b`, all logical names are distinct and all subnet CIDRs are distinct. */
  lemma ComponentNamesAndBlocks(prefix: string, region: string, args: VpcArgs)
    ensures DistinctZones(AvailabilityZones)
    ensures forall i, j :: 0 <= i < j < |VpcPlan(AvailabilityZones, region, args)| ==>
              ValidKey(AvailabilityZones, VpcPlan(AvailabilityZones, region, args)[i].key)
              && ValidKey(AvailabilityZones, VpcPlan(AvailabilityZones, region, args)[j].key)
              && LogicalName(prefix, AvailabilityZones, VpcPlan(AvailabilityZones, region, args)[i].key)
                 != LogicalName(prefix, AvailabilityZones, VpcPlan(AvailabilityZones, region, args)[j].key)
    ensures forall i, j :: 0 <= i < j < |VpcPlan(AvailabilityZones, region, args)|
                           && VpcPlan(AvailabilityZones, region, args)[i].SubnetDecl?
                           && VpcPlan(AvailabilityZones, region, args)[j].SubnetDecl? ==>
              CidrText(VpcPlan(AvailabilityZones, region, args)[i].block)
              != CidrText(VpcPlan(AvailabilityZones, region, args)[j].block)
  {
    PlanNamesDistinct(prefix, AvailabilityZones, region, args);
    PlanSubnetBlocksDistinct(AvailabilityZones, region, args);
  }

  /** The four subnet CIDRs of zones `a` and `b`, as written. */
  lemma ComponentSubnetCidrs()
    ensures CidrText(PublicSubnetBlock(0)) == "10.0.0.0/24" && CidrText(PublicSubnetBlock(1)) == "10.0.1.0/24"
    ensures CidrText(PrivateSubnetBlock(0)) == "10.0.10.0/24" && CidrText(PrivateSubnetBlock(1)) == "10.0.11.0/24"
  {
    assert Decimal(10) == "10" && Decimal(11) == "11";
  }
}

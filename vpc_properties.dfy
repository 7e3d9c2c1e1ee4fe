/**
 * What the VPC component's declarations promise: every resource refers only
 * to resources declared before it and is declared once, the set of resources
 * is exactly the expected one, their logical names and subnet blocks are
 * distinct, the counts per kind, and nothing NAT-related without NAT.
 */
module AwsVpcProperties {

  import opened Text
  import opened VpcNames
  import opened AwsVpc

  // ---------------------------------------------------------------------------
  // Keys of a declaration list, and the order they are declared in
  // ---------------------------------------------------------------------------

  /** The keys of the resources declared in `ds`. */
  function KeysOf(ds: seq<Decl>): set<ResourceKey>
  {
    if ds == [] then {} else KeysOf(ds[..|ds| - 1]) + {ds[|ds| - 1].key}
  }

  /**
   * Declared after the resources `known`, every declaration of `ds` refers
   * only to those and to resources declared before it in `ds`, and declares a
   * resource that is neither known nor declared before.
   */
  predicate OrderedFrom(known: set<ResourceKey>, ds: seq<Decl>)
  {
    ds == []
    || (var init, last := ds[..|ds| - 1], ds[|ds| - 1];
        OrderedFrom(known, init) && Refs(last) <= known + KeysOf(init) && last.key !in known + KeysOf(init))
  }

  /** Every declaration refers only to resources declared before it, and no resource is declared twice. */
  predicate Ordered(ds: seq<Decl>)
  {
    OrderedFrom({}, ds)
  }

  lemma Snoc(known: set<ResourceKey>, ds: seq<Decl>, d: Decl)
    ensures KeysOf(ds + [d]) == KeysOf(ds) + {d.key}
    ensures OrderedFrom(known, ds + [d])
            <==> OrderedFrom(known, ds) && Refs(d) <= known + KeysOf(ds) && d.key !in known + KeysOf(ds)
  {
    assert (ds + [d])[..|ds + [d]| - 1] == ds;
  }

  lemma SnocPair(known: set<ResourceKey>, q: seq<Decl>, a: Decl, b: Decl)
    ensures KeysOf(q + [a, b]) == KeysOf(q) + {a.key} + {b.key}
    ensures OrderedFrom(known, q + [a, b])
            <==> OrderedFrom(known, q) && Refs(a) <= known + KeysOf(q) && a.key !in known + KeysOf(q)
                 && Refs(b) <= known + (KeysOf(q) + {a.key}) && b.key !in known + (KeysOf(q) + {a.key})
  {
    assert q + [a, b] == q + [a] + [b];
    Snoc(known, q, a);
    Snoc(known, q + [a], b);
  }

  /**
   * Declaring `a` then `b` after `q`, whose keys are `A + B`, keeps it ordered
   * when both are new and refer back; the keys become `A + {a} + B + {b}`.
   */
  lemma ExtendPair(known: set<ResourceKey>, q: seq<Decl>, a: Decl, b: Decl,
                   A: set<ResourceKey>, B: set<ResourceKey>, s: seq<Decl>)
    requires s == q + [a, b] && KeysOf(q) == A + B
    requires OrderedFrom(known, q)
    requires Refs(a) <= known + A + B && a.key !in known && a.key !in A && a.key !in B
    requires Refs(b) <= known + A + B + {a.key} && b.key !in known && b.key !in A && b.key !in B && b.key != a.key
    ensures OrderedFrom(known, s)
    ensures KeysOf(s) == (A + {a.key}) + (B + {b.key})
  {
    SnocPair(known, q, a, b);
  }

  /** A list is ordered after `known` exactly when its two parts are, each after what precedes it. */
  lemma {:induction false} OrderedAppend(known: set<ResourceKey>, p: seq<Decl>, s: seq<Decl>)
    ensures KeysOf(p + s) == KeysOf(p) + KeysOf(s)
    ensures OrderedFrom(known, p + s) <==> OrderedFrom(known, p) && OrderedFrom(known + KeysOf(p), s)
  {
    if s == [] {
      assert p + s == p;
    } else {
      var init, last := s[..|s| - 1], s[|s| - 1];
      assert s == init + [last];
      assert p + s == (p + init) + [last];
      OrderedAppend(known, p, init);
      Snoc(known, p + init, last);
      Snoc(known + KeysOf(p), init, last);
      assert known + KeysOf(p + init) == known + KeysOf(p) + KeysOf(init);
    }
  }

  /** A list is ordered exactly when its first part is and its second part is, after the first. */
  lemma OrderedAppendTop(p: seq<Decl>, s: seq<Decl>)
    ensures KeysOf(p + s) == KeysOf(p) + KeysOf(s)
    ensures Ordered(p + s) <==> Ordered(p) && OrderedFrom(KeysOf(p), s)
  {
    OrderedAppend({}, p, s);
    assert {} + KeysOf(p) == KeysOf(p);
  }

  /** The index a per-zone or per-gateway key was made at; 0 for the others. */
  function Index(key: ResourceKey): nat
  {
    match key
    case PublicSubnetKey(i) => i
    case PrivateSubnetKey(i) => i
    case PublicAssociationKey(i) => i
    case NatEipKey(i) => i
    case NatGatewayKey(i) => i
    case PrivateRouteTableKey(i) => i
    case PrivateAssociationKey(i) => i
    case _ => 0
  }

  /** The keys of kind `kind` made at indices `0 .. n-1`. */
  function KeySet(kind: Kind, n: nat): set<ResourceKey>
  {
    if n == 0 then {} else KeySet(kind, n - 1) + {IndexedKey(kind, n - 1)}
  }

  lemma {:induction false} KeySetMember(kind: Kind, n: nat, i: nat)
    requires i < n
    ensures IndexedKey(kind, i) in KeySet(kind, n)
  {
    if i < n - 1 {
      KeySetMember(kind, n - 1, i);
    }
  }

  /** A key of another kind, or made at an index at least `n`, is not in `KeySet(kind, n)`. */
  lemma {:induction false} KeySetExcludes(kind: Kind, n: nat, key: ResourceKey)
    requires KindOf(key) != kind || Index(key) >= n
    ensures key !in KeySet(kind, n)
  {
    if n > 0 {
      KeySetExcludes(kind, n - 1, key);
      assert Index(IndexedKey(kind, n - 1)) <= n - 1;
    }
  }

  // ---------------------------------------------------------------------------
  // Each section of the plan, appended to what was declared before it
  // ---------------------------------------------------------------------------

  /** One zone's pair of subnets is new and refers only to the VPC. */
  lemma ZoneSubnetsOrderedStep(zones: seq<char>, region: string, args: VpcArgs, known: set<ResourceKey>, k: nat)
    requires 0 < k <= |zones| && VpcKey in known
    requires PublicSubnetKey(k - 1) !in known && PrivateSubnetKey(k - 1) !in known
    requires OrderedFrom(known, ZoneSubnetDecls(zones, region, args, k - 1))
    requires KeysOf(ZoneSubnetDecls(zones, region, args, k - 1))
             == KeySet(PublicSubnetKind, k - 1) + KeySet(PrivateSubnetKind, k - 1)
    ensures OrderedFrom(known, ZoneSubnetDecls(zones, region, args, k))
    ensures KeysOf(ZoneSubnetDecls(zones, region, args, k)) == KeySet(PublicSubnetKind, k) + KeySet(PrivateSubnetKind, k)
  {
    var i := k - 1;
    var q := ZoneSubnetDecls(zones, region, args, i);
    var public := DeclFor(zones, region, args, PublicSubnetKey(i));
    var private := DeclFor(zones, region, args, PrivateSubnetKey(i));
    assert ZoneSubnetDecls(zones, region, args, k) == q + [public, private];
    assert public.key == PublicSubnetKey(i) && Refs(public) == {VpcKey};
    assert private.key == PrivateSubnetKey(i) && Refs(private) == {VpcKey};
    KeySetExcludes(PublicSubnetKind, i, public.key);
    KeySetExcludes(PrivateSubnetKind, i, public.key);
    KeySetExcludes(PublicSubnetKind, i, private.key);
    KeySetExcludes(PrivateSubnetKind, i, private.key);
    ExtendPair(known, q, public, private, KeySet(PublicSubnetKind, i), KeySet(PrivateSubnetKind, i),
               ZoneSubnetDecls(zones, region, args, k));
  }

  /** The zones' subnets, declared after the VPC, are ordered and are the public and private subnet keys. */
  lemma {:induction false} ZoneSubnetsOrdered(zones: seq<char>, region: string, args: VpcArgs, known: set<ResourceKey>, k: nat)
    requires k <= |zones| && VpcKey in known
    requires forall i :: PublicSubnetKey(i) !in known
    requires forall i :: PrivateSubnetKey(i) !in known
    ensures OrderedFrom(known, ZoneSubnetDecls(zones, region, args, k))
    ensures KeysOf(ZoneSubnetDecls(zones, region, args, k)) == KeySet(PublicSubnetKind, k) + KeySet(PrivateSubnetKind, k)
  {
    if k > 0 {
      ZoneSubnetsOrdered(zones, region, args, known, k - 1);
      ZoneSubnetsOrderedStep(zones, region, args, known, k);
    }
  }

  /** One public subnet's association is new and refers to its subnet and the public route table. */
  lemma PublicAssociationsOrderedStep(zones: seq<char>, region: string, args: VpcArgs, known: set<ResourceKey>, k: nat)
    requires 0 < k <= |zones| && PublicRouteTableKey in known
    requires PublicSubnetKey(k - 1) in known && PublicAssociationKey(k - 1) !in known
    requires OrderedFrom(known, PublicAssociationDecls(zones, region, args, k - 1))
    requires KeysOf(PublicAssociationDecls(zones, region, args, k - 1)) == KeySet(PublicAssociationKind, k - 1)
    ensures OrderedFrom(known, PublicAssociationDecls(zones, region, args, k))
    ensures KeysOf(PublicAssociationDecls(zones, region, args, k)) == KeySet(PublicAssociationKind, k)
  {
    var i := k - 1;
    var q := PublicAssociationDecls(zones, region, args, i);
    var association := DeclFor(zones, region, args, PublicAssociationKey(i));
    assert PublicAssociationDecls(zones, region, args, k) == q + [association];
    assert association.key == PublicAssociationKey(i);
    assert Refs(association) == {PublicSubnetKey(i), PublicRouteTableKey};
    KeySetExcludes(PublicAssociationKind, i, association.key);
    Snoc(known, q, association);
  }

  /** The public subnets' associations, declared after those subnets and the public route table, are ordered. */
  lemma {:induction false} PublicAssociationsOrdered(zones: seq<char>, region: string, args: VpcArgs, known: set<ResourceKey>, k: nat)
    requires k <= |zones| && PublicRouteTableKey in known
    requires forall i :: 0 <= i < |zones| ==> PublicSubnetKey(i) in known
    requires forall i :: PublicAssociationKey(i) !in known
    ensures OrderedFrom(known, PublicAssociationDecls(zones, region, args, k))
    ensures KeysOf(PublicAssociationDecls(zones, region, args, k)) == KeySet(PublicAssociationKind, k)
  {
    if k > 0 {
      PublicAssociationsOrdered(zones, region, args, known, k - 1);
      PublicAssociationsOrderedStep(zones, region, args, known, k);
    }
  }

  /** One zone's elastic IP and NAT gateway are new; the gateway refers to both and to the internet gateway. */
  lemma NatOrderedStep(zones: seq<char>, region: string, args: VpcArgs, known: set<ResourceKey>, k: nat)
    requires 0 < k <= |zones| && !(args.singleNatGateway && k > 1)
    requires IgwKey in known && PublicSubnetKey(k - 1) in known
    requires NatEipKey(k - 1) !in known && NatGatewayKey(k - 1) !in known
    requires OrderedFrom(known, NatDecls(zones, region, args, k - 1))
    requires KeysOf(NatDecls(zones, region, args, k - 1)) == KeySet(NatEipKind, k - 1) + KeySet(NatGatewayKind, k - 1)
    ensures OrderedFrom(known, NatDecls(zones, region, args, k))
    ensures KeysOf(NatDecls(zones, region, args, k)) == KeySet(NatEipKind, k) + KeySet(NatGatewayKind, k)
  {
    var i := k - 1;
    var q := NatDecls(zones, region, args, i);
    var eip := DeclFor(zones, region, args, NatEipKey(i));
    var natGateway := DeclFor(zones, region, args, NatGatewayKey(i));
    assert NatDecls(zones, region, args, k) == q + [eip, natGateway];
    assert eip.key == NatEipKey(i) && Refs(eip) == {};
    assert natGateway.key == NatGatewayKey(i) && Refs(natGateway) == {NatEipKey(i), PublicSubnetKey(i), IgwKey};
    KeySetExcludes(NatEipKind, i, eip.key);
    KeySetExcludes(NatGatewayKind, i, eip.key);
    KeySetExcludes(NatEipKind, i, natGateway.key);
    KeySetExcludes(NatGatewayKind, i, natGateway.key);
    ExtendPair(known, q, eip, natGateway, KeySet(NatEipKind, i), KeySet(NatGatewayKind, i),
               NatDecls(zones, region, args, k));
    NatKeySetStep(i);
  }

  lemma NatKeySetStep(i: nat)
    ensures KeySet(NatEipKind, i + 1) + KeySet(NatGatewayKind, i + 1)
            == (KeySet(NatEipKind, i) + {NatEipKey(i)}) + (KeySet(NatGatewayKind, i) + {NatGatewayKey(i)})
  {
  }

  /**
   * The elastic IPs and NAT gateways, declared after the internet gateway and
   * the public subnets, are ordered: one of each per gateway.
   */
  lemma {:induction false} NatOrdered(zones: seq<char>, region: string, args: VpcArgs, known: set<ResourceKey>, k: nat)
    requires k <= |zones| && IgwKey in known
    requires forall i :: 0 <= i < |zones| ==> PublicSubnetKey(i) in known
    requires forall i :: NatEipKey(i) !in known
    requires forall i :: NatGatewayKey(i) !in known
    ensures OrderedFrom(known, NatDecls(zones, region, args, k))
    ensures KeysOf(NatDecls(zones, region, args, k))
            == KeySet(NatEipKind, NatCount(args.singleNatGateway, k)) + KeySet(NatGatewayKind, NatCount(args.singleNatGateway, k))
  {
    var single := args.singleNatGateway;
    if k == 0 {
    } else if single && k - 1 > 0 {
      NatOrdered(zones, region, args, known, k - 1);
      assert NatCount(single, k) == NatCount(single, k - 1);
    } else {
      NatOrdered(zones, region, args, known, k - 1);
      assert NatCount(single, k - 1) == k - 1 && NatCount(single, k) == k;
      NatOrderedStep(zones, region, args, known, k);
    }
  }

  /** One zone's private route table and association are new and refer to earlier resources. */
  lemma PrivateRoutingOrderedStep(zones: seq<char>, region: string, args: VpcArgs, known: set<ResourceKey>, k: nat)
    requires 0 < k <= |zones| && VpcKey in known
    requires PrivateSubnetKey(k - 1) in known && NatGatewayKey(NatIndex(args.singleNatGateway, k - 1)) in known
    requires PrivateRouteTableKey(k - 1) !in known && PrivateAssociationKey(k - 1) !in known
    requires OrderedFrom(known, PrivateRoutingDecls(zones, region, args, k - 1))
    requires KeysOf(PrivateRoutingDecls(zones, region, args, k - 1))
             == KeySet(PrivateRouteTableKind, k - 1) + KeySet(PrivateAssociationKind, k - 1)
    ensures OrderedFrom(known, PrivateRoutingDecls(zones, region, args, k))
    ensures KeysOf(PrivateRoutingDecls(zones, region, args, k))
            == KeySet(PrivateRouteTableKind, k) + KeySet(PrivateAssociationKind, k)
  {
    var i := k - 1;
    var single := args.singleNatGateway;
    var q := PrivateRoutingDecls(zones, region, args, i);
    var table := DeclFor(zones, region, args, PrivateRouteTableKey(i));
    var association := DeclFor(zones, region, args, PrivateAssociationKey(i));
    assert PrivateRoutingDecls(zones, region, args, k) == q + [table, association];
    var target := NatGatewayKey(NatIndex(single, i));
    assert table.key == PrivateRouteTableKey(i) && Refs(table) == {VpcKey, target};
    assert association.key == PrivateAssociationKey(i);
    assert Refs(association) == {PrivateSubnetKey(i), PrivateRouteTableKey(i)};
    KeySetExcludes(PrivateRouteTableKind, i, table.key);
    KeySetExcludes(PrivateAssociationKind, i, table.key);
    KeySetExcludes(PrivateRouteTableKind, i, association.key);
    KeySetExcludes(PrivateAssociationKind, i, association.key);
    ExtendPair(known, q, table, association, KeySet(PrivateRouteTableKind, i), KeySet(PrivateAssociationKind, i),
               PrivateRoutingDecls(zones, region, args, k));
  }

  /**
   * The private route tables and associations, declared after the private
   * subnets and the NAT gateways, are ordered.
   */
  lemma {:induction false} PrivateRoutingOrdered(zones: seq<char>, region: string, args: VpcArgs, known: set<ResourceKey>, k: nat)
    requires k <= |zones| && VpcKey in known
    requires forall i :: 0 <= i < |zones| ==> PrivateSubnetKey(i) in known
    requires forall i :: 0 <= i < NatCount(args.singleNatGateway, |zones|) ==> NatGatewayKey(i) in known
    requires forall i :: PrivateRouteTableKey(i) !in known
    requires forall i :: PrivateAssociationKey(i) !in known
    ensures OrderedFrom(known, PrivateRoutingDecls(zones, region, args, k))
    ensures KeysOf(PrivateRoutingDecls(zones, region, args, k))
            == KeySet(PrivateRouteTableKind, k) + KeySet(PrivateAssociationKind, k)
  {
    if k > 0 {
      PrivateRoutingOrdered(zones, region, args, known, k - 1);
      PrivateRoutingOrderedStep(zones, region, args, known, k);
    }
  }

  // ---------------------------------------------------------------------------
  // The whole plan
  // ---------------------------------------------------------------------------

  /** The kinds of resource that exist only when NAT is enabled. */
  predicate NatOnly(kind: Kind)
  {
    kind == NatEipKind || kind == NatGatewayKind || kind == PrivateRouteTableKind || kind == PrivateAssociationKind
  }

  /**
   * The resources a component over `zones` declares: every key whose index is
   * in range, and the NAT-only ones only when NAT is enabled.
   */
  predicate Declares(zones: seq<char>, args: VpcArgs, key: ResourceKey)
  {
    KeyInRange(zones, args.singleNatGateway, key) && (args.enableNatGateway || !NatOnly(KindOf(key)))
  }

  /** The keys `PublicDecls` declares. */
  function PublicKeys(n: nat): set<ResourceKey>
  {
    {VpcKey, IgwKey} + KeySet(PublicSubnetKind, n) + KeySet(PrivateSubnetKind, n) + {PublicRouteTableKey}
    + KeySet(PublicAssociationKind, n)
  }

  /** The keys the NAT sections declare. */
  function NatKeys(single: bool, n: nat): set<ResourceKey>
  {
    (KeySet(NatEipKind, NatCount(single, n)) + KeySet(NatGatewayKind, NatCount(single, n)))
    + (KeySet(PrivateRouteTableKind, n) + KeySet(PrivateAssociationKind, n))
  }

  lemma HeadOrdered(zones: seq<char>, region: string, args: VpcArgs)
    ensures Ordered(HeadDecls(zones, region, args))
    ensures KeysOf(HeadDecls(zones, region, args)) == {VpcKey, IgwKey}
  {
    SnocPair({}, [], DeclFor(zones, region, args, VpcKey), DeclFor(zones, region, args, IgwKey));
    assert [] + [DeclFor(zones, region, args, VpcKey), DeclFor(zones, region, args, IgwKey)]
           == HeadDecls(zones, region, args);
  }

  /** The VPC, its gateway and the zones' subnets are ordered. */
  lemma HeadSubnetsOrdered(zones: seq<char>, region: string, args: VpcArgs)
    ensures Ordered(HeadDecls(zones, region, args) + ZoneSubnetDecls(zones, region, args, |zones|))
    ensures KeysOf(HeadDecls(zones, region, args) + ZoneSubnetDecls(zones, region, args, |zones|))
            == {VpcKey, IgwKey} + (KeySet(PublicSubnetKind, |zones|) + KeySet(PrivateSubnetKind, |zones|))
  {
    var head := HeadDecls(zones, region, args);
    HeadOrdered(zones, region, args);
    ZoneSubnetsOrdered(zones, region, args, KeysOf(head), |zones|);
    OrderedAppendTop(head, ZoneSubnetDecls(zones, region, args, |zones|));
  }

  /** The public route table follows the subnets; it refers to the VPC and the internet gateway. */
  lemma PublicRouteTableOrdered(zones: seq<char>, region: string, args: VpcArgs)
    ensures Ordered(HeadDecls(zones, region, args) + ZoneSubnetDecls(zones, region, args, |zones|)
                    + [DeclFor(zones, region, args, PublicRouteTableKey)])
    ensures KeysOf(HeadDecls(zones, region, args) + ZoneSubnetDecls(zones, region, args, |zones|)
                   + [DeclFor(zones, region, args, PublicRouteTableKey)])
            == {VpcKey, IgwKey} + (KeySet(PublicSubnetKind, |zones|) + KeySet(PrivateSubnetKind, |zones|))
               + {PublicRouteTableKey}
  {
    var n := |zones|;
    var p := HeadDecls(zones, region, args) + ZoneSubnetDecls(zones, region, args, n);
    var table := DeclFor(zones, region, args, PublicRouteTableKey);
    HeadSubnetsOrdered(zones, region, args);
    KeySetExcludes(PublicSubnetKind, n, PublicRouteTableKey);
    KeySetExcludes(PrivateSubnetKind, n, PublicRouteTableKey);
    assert table.key == PublicRouteTableKey && Refs(table) == {VpcKey, IgwKey};
    Snoc({}, p, table);
  }

  /** The VPC, gateway, subnets, public route table and associations are ordered, and are `PublicKeys`. */
  lemma PublicOrdered(zones: seq<char>, region: string, args: VpcArgs)
    ensures Ordered(PublicDecls(zones, region, args))
    ensures KeysOf(PublicDecls(zones, region, args)) == PublicKeys(|zones|)
  {
    var n := |zones|;
    var p := HeadDecls(zones, region, args) + ZoneSubnetDecls(zones, region, args, n)
             + [DeclFor(zones, region, args, PublicRouteTableKey)];
    PublicRouteTableOrdered(zones, region, args);
    PublicRoutingPreconditions(n, KeysOf(p));
    PublicAssociationsOrdered(zones, region, args, KeysOf(p), n);
    OrderedAppendTop(p, PublicAssociationDecls(zones, region, args, n));
  }

  lemma PublicRoutingPreconditions(n: nat, known: set<ResourceKey>)
    requires known == {VpcKey, IgwKey} + (KeySet(PublicSubnetKind, n) + KeySet(PrivateSubnetKind, n))
                      + {PublicRouteTableKey}
    ensures forall i :: 0 <= i < n ==> PublicSubnetKey(i) in known
    ensures forall i :: PublicAssociationKey(i) !in known
  {
    forall i | 0 <= i < n
      ensures PublicSubnetKey(i) in known
    {
      KeySetMember(PublicSubnetKind, n, i);
    }
    forall i
      ensures PublicAssociationKey(i) !in known
    {
      KeySetExcludes(PublicSubnetKind, n, PublicAssociationKey(i));
      KeySetExcludes(PrivateSubnetKind, n, PublicAssociationKey(i));
    }
  }

  lemma NatPreconditions(n: nat, known: set<ResourceKey>)
    requires known == PublicKeys(n)
    ensures IgwKey in known && VpcKey in known
    ensures forall i :: 0 <= i < n ==> PublicSubnetKey(i) in known
    ensures forall i :: NatEipKey(i) !in known
    ensures forall i :: NatGatewayKey(i) !in known
  {
    forall i | 0 <= i < n
      ensures PublicSubnetKey(i) in known
    {
      KeySetMember(PublicSubnetKind, n, i);
    }
    forall i
      ensures NatEipKey(i) !in known && NatGatewayKey(i) !in known
    {
      PublicKeysExclude(n, NatEipKey(i));
      PublicKeysExclude(n, NatGatewayKey(i));
    }
  }

  lemma PrivateRoutingPreconditions(single: bool, n: nat, known: set<ResourceKey>)
    requires known == PublicKeys(n) + (KeySet(NatEipKind, NatCount(single, n)) + KeySet(NatGatewayKind, NatCount(single, n)))
    ensures VpcKey in known
    ensures forall i :: 0 <= i < n ==> PrivateSubnetKey(i) in known
    ensures forall i :: 0 <= i < NatCount(single, n) ==> NatGatewayKey(i) in known
    ensures forall i :: PrivateRouteTableKey(i) !in known
    ensures forall i :: PrivateAssociationKey(i) !in known
  {
    forall i | 0 <= i < n
      ensures PrivateSubnetKey(i) in known
    {
      KeySetMember(PrivateSubnetKind, n, i);
    }
    forall i | 0 <= i < NatCount(single, n)
      ensures NatGatewayKey(i) in known
    {
      KeySetMember(NatGatewayKind, NatCount(single, n), i);
    }
    forall i
      ensures PrivateRouteTableKey(i) !in known && PrivateAssociationKey(i) !in known
    {
      PublicKeysExclude(n, PrivateRouteTableKey(i));
      PublicKeysExclude(n, PrivateAssociationKey(i));
      KeySetExcludes(NatEipKind, NatCount(single, n), PrivateRouteTableKey(i));
      KeySetExcludes(NatGatewayKind, NatCount(single, n), PrivateRouteTableKey(i));
      KeySetExcludes(NatEipKind, NatCount(single, n), PrivateAssociationKey(i));
      KeySetExcludes(NatGatewayKind, NatCount(single, n), PrivateAssociationKey(i));
    }
  }

  /** With NAT enabled, the elastic IPs and NAT gateways follow the public part in order. */
  lemma NatAfterPublicOrdered(zones: seq<char>, region: string, args: VpcArgs)
    requires Ordered(PublicDecls(zones, region, args))
    requires KeysOf(PublicDecls(zones, region, args)) == PublicKeys(|zones|)
    ensures Ordered(PublicDecls(zones, region, args) + NatDecls(zones, region, args, |zones|))
    ensures KeysOf(PublicDecls(zones, region, args) + NatDecls(zones, region, args, |zones|))
            == PublicKeys(|zones|) + (KeySet(NatEipKind, NatCount(args.singleNatGateway, |zones|))
                                      + KeySet(NatGatewayKind, NatCount(args.singleNatGateway, |zones|)))
  {
    var public := PublicDecls(zones, region, args);
    NatPreconditions(|zones|, KeysOf(public));
    NatOrdered(zones, region, args, KeysOf(public), |zones|);
    OrderedAppendTop(public, NatDecls(zones, region, args, |zones|));
  }

  /** With NAT enabled, the NAT sections follow the public part in order, and add `NatKeys`. */
  lemma NatPartOrdered(zones: seq<char>, region: string, args: VpcArgs)
    requires Ordered(PublicDecls(zones, region, args))
    requires KeysOf(PublicDecls(zones, region, args)) == PublicKeys(|zones|)
    ensures Ordered(PublicDecls(zones, region, args) + NatDecls(zones, region, args, |zones|)
                    + PrivateRoutingDecls(zones, region, args, |zones|))
    ensures KeysOf(PublicDecls(zones, region, args) + NatDecls(zones, region, args, |zones|)
                   + PrivateRoutingDecls(zones, region, args, |zones|))
            == PublicKeys(|zones|) + NatKeys(args.singleNatGateway, |zones|)
  {
    var n := |zones|;
    var single := args.singleNatGateway;
    var p := PublicDecls(zones, region, args) + NatDecls(zones, region, args, n);
    NatAfterPublicOrdered(zones, region, args);
    PrivateRoutingPreconditions(single, n, KeysOf(p));
    PrivateRoutingOrdered(zones, region, args, KeysOf(p), n);
    OrderedAppendTop(p, PrivateRoutingDecls(zones, region, args, n));
    UnionAssociative(PublicKeys(n), KeySet(NatEipKind, NatCount(single, n)) + KeySet(NatGatewayKind, NatCount(single, n)),
                     KeySet(PrivateRouteTableKind, n) + KeySet(PrivateAssociationKind, n));
  }

  lemma UnionAssociative(a: set<ResourceKey>, b: set<ResourceKey>, c: set<ResourceKey>)
    ensures a + b + c == a + (b + c)
  {
  }

  /** No NAT-only key is among `PublicKeys`. */
  lemma PublicKeysExclude(n: nat, key: ResourceKey)
    requires NatOnly(KindOf(key))
    ensures key !in PublicKeys(n)
  {
    KeySetExcludes(PublicSubnetKind, n, key);
    KeySetExcludes(PrivateSubnetKind, n, key);
    KeySetExcludes(PublicAssociationKind, n, key);
  }

  /**
   * Every declaration of the plan refers only to resources declared before
   * it, no resource is declared twice, and the resources declared are
   * `PublicKeys`, plus `NatKeys` when NAT is enabled.
   */
  lemma PlanOrdered(zones: seq<char>, region: string, args: VpcArgs)
    ensures Ordered(VpcPlan(zones, region, args))
    ensures KeysOf(VpcPlan(zones, region, args))
            == PublicKeys(|zones|) + (if args.enableNatGateway then NatKeys(args.singleNatGateway, |zones|) else {})
  {
    PublicOrdered(zones, region, args);
    if args.enableNatGateway {
      NatPartOrdered(zones, region, args);
    }
  }
}

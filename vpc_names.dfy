/**
 * The resources of the VPC component (modules/aws/vpc/vpc.py) and their
 * logical names. Each resource is identified by a key that records what it is
 * and, for the per-zone and per-gateway resources, the loop index it was made
 * at; its logical name is the component's name followed by a suffix spelled
 * from the key, as the f-strings of the source spell it.
 */
module VpcNames {

  import opened Wrappers
  import opened Text

  datatype ResourceKey =
    | VpcKey
    | IgwKey
    | PublicSubnetKey(index: nat)
    | PrivateSubnetKey(index: nat)
    | PublicRouteTableKey
    | PublicAssociationKey(index: nat)
    | NatEipKey(index: nat)
    | NatGatewayKey(index: nat)
    | PrivateRouteTableKey(index: nat)
    | PrivateAssociationKey(index: nat)

  /** What kind of resource a key stands for, forgetting its index. */
  datatype Kind =
    | VpcKind | IgwKind | PublicSubnetKind | PrivateSubnetKind | PublicRouteTableKind
    | PublicAssociationKind | NatEipKind | NatGatewayKind | PrivateRouteTableKind
    | PrivateAssociationKind

  function KindOf(key: ResourceKey): Kind
  {
    match key
    case VpcKey => VpcKind
    case IgwKey => IgwKind
    case PublicSubnetKey(_) => PublicSubnetKind
    case PrivateSubnetKey(_) => PrivateSubnetKind
    case PublicRouteTableKey => PublicRouteTableKind
    case PublicAssociationKey(_) => PublicAssociationKind
    case NatEipKey(_) => NatEipKind
    case NatGatewayKey(_) => NatGatewayKind
    case PrivateRouteTableKey(_) => PrivateRouteTableKind
    case PrivateAssociationKey(_) => PrivateAssociationKind
  }

  /** The availability-zone letters, one per zone, all different. */
  predicate DistinctZones(zones: seq<char>)
  {
    forall i, j :: 0 <= i < j < |zones| ==> zones[i] != zones[j]
  }

  /** Subnets are named after their zone, so a subnet key must index a zone. */
  predicate ValidKey(zones: seq<char>, key: ResourceKey)
  {
    (key.PublicSubnetKey? || key.PrivateSubnetKey?) ==> key.index < |zones|
  }

  /** The part of a logical name that follows the component's name. */
  function Suffix(zones: seq<char>, key: ResourceKey): (s: string)
    requires ValidKey(zones, key)
    ensures |s| >= 4 && s[0] == '-'
  {
    match key
    case VpcKey => "-vpc"
    case IgwKey => "-igw"
    case PublicSubnetKey(i) => "-public-" + [zones[i]]
    case PrivateSubnetKey(i) => "-private-" + [zones[i]]
    case PublicRouteTableKey => "-public-rt"
    case PublicAssociationKey(i) => "-public-rta-" + Decimal(i)
    case NatEipKey(i) => "-nat-eip-" + Decimal(i)
    case NatGatewayKey(i) => "-nat-" + Decimal(i)
    case PrivateRouteTableKey(i) => "-private-rt-" + Decimal(i)
    case PrivateAssociationKey(i) => "-private-rta-" + Decimal(i)
  }

  /** The logical name of a resource of the component named `prefix`. */
  function LogicalName(prefix: string, zones: seq<char>, key: ResourceKey): (r: string)
    requires ValidKey(zones, key)
    ensures |r| >= |prefix| + 4 && r[..|prefix|] == prefix && r[|prefix|] == '-'
  {
    prefix + Suffix(zones, key)
  }

  /**
   * Reads the kind back from a suffix, from its length and a few of its
   * characters.
   */
  function SuffixKind(s: string): Option<Kind>
  {
    if |s| < 4 then None
    else if s[1] == 'v' then Some(VpcKind)
    else if s[1] == 'i' then Some(IgwKind)
    else if s[1] == 'n' then
      if |s| > 5 && s[5] == 'e' then Some(NatEipKind) else Some(NatGatewayKind)
    else if s[1] == 'p' && s[2] == 'u' then
      if |s| == 9 then Some(PublicSubnetKind)
      else if |s| == 10 then Some(PublicRouteTableKind)
      else Some(PublicAssociationKind)
    else if s[1] == 'p' then
      if |s| == 10 then Some(PrivateSubnetKind)
      else if |s| > 11 && s[11] == '-' then Some(PrivateRouteTableKind)
      else Some(PrivateAssociationKind)
    else None
  }

  lemma SuffixKindOfSuffix(zones: seq<char>, key: ResourceKey)
    requires ValidKey(zones, key)
    ensures SuffixKind(Suffix(zones, key)) == Some(KindOf(key))
  {
    var s := Suffix(zones, key);
    match key
    case NatGatewayKey(i) =>
      assert s[5] == Decimal(i)[0];
    case PublicAssociationKey(i) =>
      assert |s| >= 13;
    case PrivateRouteTableKey(i) =>
      assert s[11] == '-';
    case PrivateAssociationKey(i) =>
      assert s[11] == 'a';
    case _ =>
  }

  /** Different resources of one component get different suffixes. */
  lemma SuffixInjective(zones: seq<char>, k1: ResourceKey, k2: ResourceKey)
    requires DistinctZones(zones) && ValidKey(zones, k1) && ValidKey(zones, k2)
    ensures Suffix(zones, k1) == Suffix(zones, k2) ==> k1 == k2
  {
    if Suffix(zones, k1) == Suffix(zones, k2) {
      SuffixKindOfSuffix(zones, k1);
      SuffixKindOfSuffix(zones, k2);
      match k1
      case PublicSubnetKey(i) =>
        PrefixCancel("-public-", [zones[i]], [zones[k2.index]]);
      case PrivateSubnetKey(i) =>
        PrefixCancel("-private-", [zones[i]], [zones[k2.index]]);
      case PublicAssociationKey(i) =>
        PrefixCancel("-public-rta-", Decimal(i), Decimal(k2.index));
        DecimalInjective(i, k2.index);
      case NatEipKey(i) =>
        PrefixCancel("-nat-eip-", Decimal(i), Decimal(k2.index));
        DecimalInjective(i, k2.index);
      case NatGatewayKey(i) =>
        PrefixCancel("-nat-", Decimal(i), Decimal(k2.index));
        DecimalInjective(i, k2.index);
      case PrivateRouteTableKey(i) =>
        PrefixCancel("-private-rt-", Decimal(i), Decimal(k2.index));
        DecimalInjective(i, k2.index);
      case PrivateAssociationKey(i) =>
        PrefixCancel("-private-rta-", Decimal(i), Decimal(k2.index));
        DecimalInjective(i, k2.index);
      case _ =>
    }
  }

  /** Different resources of one component get different logical names. */
  lemma LogicalNameInjective(prefix: string, zones: seq<char>, k1: ResourceKey, k2: ResourceKey)
    requires DistinctZones(zones) && ValidKey(zones, k1) && ValidKey(zones, k2)
    ensures LogicalName(prefix, zones, k1) == LogicalName(prefix, zones, k2) ==> k1 == k2
  {
    PrefixCancel(prefix, Suffix(zones, k1), Suffix(zones, k2));
    SuffixInjective(zones, k1, k2);
  }
}

/** The vocabulary of the XCM format (version 4) that the workshop's virtual machine works
    with: locations, assets, asset filters, instructions and errors. These types come from the
    `xcm` crate; the model keeps the variants the virtual machine inspects. */
module Xcm {
  import opened Sorting

  const U128_MAX: int := 0xffff_ffff_ffff_ffff_ffff_ffff_ffff_ffff
  type u128 = x: int | 0 <= x <= U128_MAX
  type u32 = x: int | 0 <= x < 0x1_0000_0000
  type u8 = x: int | 0 <= x < 0x100

  /** A location's interior holds at most this many junctions. */
  const MAX_JUNCTIONS: int := 8

  datatype Option<+T> = None | Some(value: T)

  /** Either a value, or the program stopped with a panic (`unimplemented!`, `todo!`). */
  datatype Run<+T> = Returned(value: T) | Panicked

  /** `u128::saturating_add`. */
  function SaturatingAdd(a: u128, b: u128): u128
  {
    if a + b <= U128_MAX then a + b else U128_MAX
  }

  function Min(a: int, b: int): int { if a <= b then a else b }

  // ---- Locations -------------------------------------------------------------------------

  datatype NetworkId =
    | Polkadot | Kusama | Westend | Rococo | Wococo | BitcoinCore | BitcoinCash | PolkadotBulletin

  datatype BodyId =
    | Unit
    | Moniker(name: nat)       // four bytes, read big-endian
    | BodyIndex(index: u32)
    | Executive | Technical | Legislative | Judicial | Defense | Administration | Treasury

  datatype BodyPart =
    | Voice
    | Members(count: u32)
    | Fraction(nom: u32, denom: u32)
    | AtLeastProportion(nom: u32, denom: u32)
    | MoreThanProportion(nom: u32, denom: u32)

  datatype Junction =
    | Parachain(paraId: u32)
    | AccountId32(network: Option<NetworkId>, id: nat)     // 32-byte key, read big-endian
    | AccountIndex64(network: Option<NetworkId>, index: nat)
    | AccountKey20(network: Option<NetworkId>, key: nat)   // 20-byte key, read big-endian
    | PalletInstance(instance: u8)
    | GeneralIndex(generalIndex: u128)
    | OnlyChild
    | Plurality(body: BodyId, part: BodyPart)
    | GlobalConsensus(consensus: NetworkId)

  type Junctions = s: seq<Junction> | |s| <= MAX_JUNCTIONS

  datatype Location = Location(parents: u8, interior: Junctions)

  const Here: Location := Location(0, [])
  const Parent: Location := Location(1, [])

  /** `Location::last`: the last interior junction. */
  function Last(l: Location): Option<Junction>
  {
    if |l.interior| == 0 then None else Some(l.interior[|l.interior| - 1])
  }

  /** `Location::append_with` of the `xcm` crate: `suffix` is read relative to `prefix`, so each
      of its parents cancels one trailing junction of `prefix`. Fails (`None`, the location left
      as it was) when the interior would exceed `MAX_JUNCTIONS` or the parents would exceed 255. */
  function AppendWith(prefix: Location, suffix: Location): (r: Option<Location>)
    ensures r.Some? ==> r.value.interior
                        == prefix.interior[..|prefix.interior| - Min(suffix.parents, |prefix.interior|)]
                           + suffix.interior
    ensures r.Some? ==> r.value.parents
                        == prefix.parents + suffix.parents - Min(suffix.parents, |prefix.interior|)
  {
    var cancelled := Min(suffix.parents, |prefix.interior|);
    var kept := |prefix.interior| - cancelled;
    var parents := prefix.parents + suffix.parents - cancelled;
    if kept + |suffix.interior| > MAX_JUNCTIONS || parents > 255 then None
    else Some(Location(parents, prefix.interior[..kept] + suffix.interior))
  }

  /** With a parent-less suffix, appending concatenates the interiors and fails exactly when
      the concatenation would be longer than `MAX_JUNCTIONS`. */
  lemma AppendInterior(prefix: Location, who: Junctions)
    ensures AppendWith(prefix, Location(0, who)).Some?
            <==> |prefix.interior| + |who| <= MAX_JUNCTIONS
    ensures AppendWith(prefix, Location(0, who)).Some? ==>
              AppendWith(prefix, Location(0, who)).value == Location(prefix.parents, prefix.interior + who)
  {
    assert prefix.interior[..|prefix.interior|] == prefix.interior;
  }

  // ---- Assets ----------------------------------------------------------------------------

  datatype AssetId = AssetId(location: Location)

  datatype AssetInstance =
    | Undefined
    | Index(instanceIndex: u128)
    | Array4(bytes: nat)     // fixed-size byte arrays, read big-endian
    | Array8(bytes: nat)
    | Array16(bytes: nat)
    | Array32(bytes: nat)

  datatype Fungibility = Fungible(amount: u128) | NonFungible(instance: AssetInstance)

  datatype Asset = Asset(id: AssetId, fun: Fungibility)

  /** A non-fungible asset as the holding register keeps it: its class and its instance. */
  type NonFungibleKey = (AssetId, AssetInstance)

  datatype WildFungibility = WildFungible | WildNonFungible

  datatype WildAsset =
    | All
    | AllOf(ofId: AssetId, ofFun: WildFungibility)
    | AllCounted(count: u32)
    | AllOfCounted(ofId: AssetId, ofFun: WildFungibility, count: u32)

  /** `Assets` is modelled as a plain list of assets. */
  datatype AssetFilter = Definite(assets: seq<Asset>) | Wild(wild: WildAsset)

  /** `AssetFilter::limit`: the count of a counted wildcard, otherwise no limit. */
  function Limit(filter: AssetFilter): Option<nat>
  {
    match filter
    case Wild(AllCounted(n)) => Some(n)
    case Wild(AllOfCounted(_, _, n)) => Some(n)
    case _ => None
  }

  // ---- Instructions and errors -------------------------------------------------------------

  datatype Instruction =
    | WithdrawAsset(assets: seq<Asset>)
    | ReserveAssetDeposited(assets: seq<Asset>)
    | ReceiveTeleportedAsset(assets: seq<Asset>)
    | TransferAsset(assets: seq<Asset>, beneficiary: Location)
    | ClearOrigin
    | DescendOrigin(who: Junctions)
    | BurnAsset(assets: seq<Asset>)
    | DepositAsset(filter: AssetFilter, beneficiary: Location)
    | ClearError
    | ClearTopic

  datatype XcmError =
    | BadOrigin
    | LocationFull
    | Barrier
    | FailedToTransactAsset
    | NotWithdrawable
    | NotDepositable
    | UntrustedTeleportLocation
    | AssetNotFound
    | Transport
    | Unroutable

  datatype XcmContext = XcmContext(origin: Option<Location>, messageId: nat, topic: Option<nat>)

  /** `XcmHash::default()`: 32 zero bytes. */
  const DEFAULT_MESSAGE_ID: nat := 0

  // ---- The derived order of the containers' keys ------------------------------------------
  // The holding register keeps its assets in ordered containers, so iteration follows the
  // derived `Ord` of `AssetId` and `(AssetId, AssetInstance)`: fields in declaration order,
  // enum variants by declaration index, a location by parents, then interior length, then
  // junctions. Each value is encoded as an integer sequence whose lexicographic order is
  // exactly that order.

  function NetworkRank(n: NetworkId): int
  {
    match n
    case Polkadot => 2 case Kusama => 3 case Westend => 4 case Rococo => 5 case Wococo => 6
    case BitcoinCore => 8 case BitcoinCash => 9 case PolkadotBulletin => 10
  }

  function OptionalNetwork(n: Option<NetworkId>): int
  {
    match n
    case None => 0
    case Some(x) => 1 + NetworkRank(x)
  }

  function BodyCode(b: BodyId): (int, int)
  {
    match b
    case Unit => (0, 0) case Moniker(m) => (1, m) case BodyIndex(i) => (2, i)
    case Executive => (3, 0) case Technical => (4, 0) case Legislative => (5, 0)
    case Judicial => (6, 0) case Defense => (7, 0) case Administration => (8, 0)
    case Treasury => (9, 0)
  }

  function PartCode(p: BodyPart): (int, int, int)
  {
    match p
    case Voice => (0, 0, 0)
    case Members(c) => (1, c, 0)
    case Fraction(n, d) => (2, n, d)
    case AtLeastProportion(n, d) => (3, n, d)
    case MoreThanProportion(n, d) => (4, n, d)
  }

  /** Every junction is encoded as a block of six integers: its variant index, then its fields. */
  function EncodeJunction(j: Junction): (r: seq<int>)
    ensures |r| == 6
  {
    match j
    case Parachain(p) => [0, p, 0, 0, 0, 0]
    case AccountId32(n, id) => [1, OptionalNetwork(n), id, 0, 0, 0]
    case AccountIndex64(n, i) => [2, OptionalNetwork(n), i, 0, 0, 0]
    case AccountKey20(n, k) => [3, OptionalNetwork(n), k, 0, 0, 0]
    case PalletInstance(i) => [4, i, 0, 0, 0, 0]
    case GeneralIndex(i) => [5, i, 0, 0, 0, 0]
    case OnlyChild => [7, 0, 0, 0, 0, 0]
    case Plurality(b, p) =>
      [8, BodyCode(b).0, BodyCode(b).1, PartCode(p).0, PartCode(p).1, PartCode(p).2]
    case GlobalConsensus(n) => [9, NetworkRank(n), 0, 0, 0, 0]
  }

  function EncodeJunctions(js: seq<Junction>): (r: seq<int>)
    ensures |r| == 6 * |js|
  {
    if js == [] then [] else EncodeJunction(js[0]) + EncodeJunctions(js[1..])
  }

  function EncodeLocation(l: Location): seq<int>
  {
    [l.parents, |l.interior|] + EncodeJunctions(l.interior)
  }

  function EncodeInstance(i: AssetInstance): seq<int>
  {
    match i
    case Undefined => [0, 0] case Index(n) => [1, n] case Array4(b) => [2, b]
    case Array8(b) => [3, b] case Array16(b) => [4, b] case Array32(b) => [5, b]
  }

  lemma NetworkRankInjective(a: NetworkId, b: NetworkId)
    requires NetworkRank(a) == NetworkRank(b)
    ensures a == b
  {
  }

  lemma OptionalNetworkInjective(a: Option<NetworkId>, b: Option<NetworkId>)
    requires OptionalNetwork(a) == OptionalNetwork(b)
    ensures a == b
  {
    if a.Some? && b.Some? {
      NetworkRankInjective(a.value, b.value);
    }
  }

  lemma EncodeJunctionInjective(a: Junction, b: Junction)
    requires EncodeJunction(a) == EncodeJunction(b)
    ensures a == b
  {
    var ea, eb := EncodeJunction(a), EncodeJunction(b);
    assert ea[0] == eb[0] && ea[1] == eb[1] && ea[2] == eb[2];
    assert ea[3] == eb[3] && ea[4] == eb[4] && ea[5] == eb[5];
    match a
    case AccountId32(n, _) => OptionalNetworkInjective(n, b.network);
    case AccountIndex64(n, _) => OptionalNetworkInjective(n, b.network);
    case AccountKey20(n, _) => OptionalNetworkInjective(n, b.network);
    case GlobalConsensus(n) => NetworkRankInjective(n, b.consensus);
    case _ =>
  }

  lemma {:induction false} EncodeJunctionsInjective(a: seq<Junction>, b: seq<Junction>)
    requires |a| == |b| && EncodeJunctions(a) == EncodeJunctions(b)
    ensures a == b
  {
    if a != [] {
      var ea, eb := EncodeJunctions(a), EncodeJunctions(b);
      assert ea[..6] == EncodeJunction(a[0]) && eb[..6] == EncodeJunction(b[0]);
      assert ea[6..] == EncodeJunctions(a[1..]) && eb[6..] == EncodeJunctions(b[1..]);
      EncodeJunctionInjective(a[0], b[0]);
      EncodeJunctionsInjective(a[1..], b[1..]);
      assert a == [a[0]] + a[1..] && b == [b[0]] + b[1..];
    }
  }

  lemma EncodeLocationInjective(a: Location, b: Location)
    requires EncodeLocation(a) == EncodeLocation(b)
    ensures a == b
  {
    var ea, eb := EncodeLocation(a), EncodeLocation(b);
    assert ea[0] == eb[0] && ea[1] == eb[1];
    assert ea[2..] == EncodeJunctions(a.interior) && eb[2..] == EncodeJunctions(b.interior);
    EncodeJunctionsInjective(a.interior, b.interior);
  }

  lemma EncodeInstanceInjective(a: AssetInstance, b: AssetInstance)
    requires EncodeInstance(a) == EncodeInstance(b)
    ensures a == b
  {
    assert EncodeInstance(a)[0] == EncodeInstance(b)[0];
    assert EncodeInstance(a)[1] == EncodeInstance(b)[1];
  }

  /** The derived order of asset ids. */
  predicate AssetIdLess(a: AssetId, b: AssetId)
  {
    LexLess(EncodeLocation(a.location), EncodeLocation(b.location))
  }

  predicate InstanceLess(a: AssetInstance, b: AssetInstance)
  {
    LexLess(EncodeInstance(a), EncodeInstance(b))
  }

  /** The derived order of `(AssetId, AssetInstance)` pairs: by class, then by instance. */
  predicate NonFungibleLess(a: NonFungibleKey, b: NonFungibleKey)
  {
    AssetIdLess(a.0, b.0) || (a.0 == b.0 && InstanceLess(a.1, b.1))
  }

  lemma AssetIdOrder(s: set<AssetId>)
    ensures StrictTotalOn(AssetIdLess, s)
  {
    forall a | a in s ensures !AssetIdLess(a, a) {
      LexIrreflexive(EncodeLocation(a.location));
    }
    forall a, b, c | a in s && b in s && c in s && AssetIdLess(a, b) && AssetIdLess(b, c)
      ensures AssetIdLess(a, c)
    {
      LexTransitive(EncodeLocation(a.location), EncodeLocation(b.location), EncodeLocation(c.location));
    }
    forall a, b | a in s && b in s && a != b ensures AssetIdLess(a, b) || AssetIdLess(b, a) {
      if EncodeLocation(a.location) == EncodeLocation(b.location) {
        EncodeLocationInjective(a.location, b.location);
      }
      LexTotal(EncodeLocation(a.location), EncodeLocation(b.location));
    }
  }

  lemma NonFungibleOrder(s: set<NonFungibleKey>)
    ensures StrictTotalOn(NonFungibleLess, s)
  {
    var ids := set p | p in s :: p.0;
    AssetIdOrder(ids);
    forall a | a in s ensures !NonFungibleLess(a, a) {
      LexIrreflexive(EncodeInstance(a.1));
    }
    forall a, b, c | a in s && b in s && c in s && NonFungibleLess(a, b) && NonFungibleLess(b, c)
      ensures NonFungibleLess(a, c)
    {
      if a.0 == b.0 && b.0 == c.0 {
        LexTransitive(EncodeInstance(a.1), EncodeInstance(b.1), EncodeInstance(c.1));
      }
    }
    forall a, b | a in s && b in s && a != b ensures NonFungibleLess(a, b) || NonFungibleLess(b, a) {
      if a.0 == b.0 {
        if EncodeInstance(a.1) == EncodeInstance(b.1) {
          EncodeInstanceInjective(a.1, b.1);
        }
        LexTotal(EncodeInstance(a.1), EncodeInstance(b.1));
      }
    }
  }

  /** The keys of an ordered map of asset ids, in iteration order. */
  ghost function SortedIds(s: set<AssetId>): seq<AssetId>
  {
    Sorted(AssetIdLess, s)
  }

  /** The pairs of an ordered set of non-fungibles, in iteration order. */
  ghost function SortedNonFungibles(s: set<NonFungibleKey>): seq<NonFungibleKey>
  {
    Sorted(NonFungibleLess, s)
  }

  lemma SortedIdsMembers(s: set<AssetId>)
    ensures Enumerates(SortedIds(s), s)
  {
    SortedEnumerates(AssetIdLess, s);
  }

  lemma SortedIdsAscending(s: set<AssetId>)
    ensures forall i, j | 0 <= i < j < |SortedIds(s)| :: AssetIdLess(SortedIds(s)[i], SortedIds(s)[j])
  {
    AssetIdOrder(s);
    SortedAscending(AssetIdLess, s);
  }

  lemma SortedNonFungiblesMembers(s: set<NonFungibleKey>)
    ensures Enumerates(SortedNonFungibles(s), s)
  {
    SortedEnumerates(NonFungibleLess, s);
  }

  lemma SortedNonFungiblesAscending(s: set<NonFungibleKey>)
    ensures forall i, j | 0 <= i < j < |SortedNonFungibles(s)| ::
              NonFungibleLess(SortedNonFungibles(s)[i], SortedNonFungibles(s)[j])
  {
    NonFungibleOrder(s);
    SortedAscending(NonFungibleLess, s);
  }
}

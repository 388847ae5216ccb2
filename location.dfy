/** The location helpers of the fundamentals crate (`location::manipulation`): reading the
    account at the end of a location, recognising a sibling parachain, and descending an
    origin into one of its interior locations. */
module Manipulation {
  import opened Xcm
  import Executor

  /** `extract_last_account_id`: the key of the last junction, if that is an `AccountId32`. */
  function ExtractLastAccountId(location: Location): Option<nat>
  {
    match Last(location)
    case Some(AccountId32(_, id)) => Some(id)
    case _ => None
  }

  /** An account is found exactly when the last junction is an `AccountId32`, whatever its
      network, and it is that junction's key; `Here` has none. */
  lemma ExtractLastAccountIdMeaning(location: Location)
    ensures ExtractLastAccountId(location).Some?
            <==> |location.interior| > 0 && location.interior[|location.interior| - 1].AccountId32?
    ensures ExtractLastAccountId(location).Some? ==>
              ExtractLastAccountId(location).value == location.interior[|location.interior| - 1].id
    ensures location.interior == [] ==> ExtractLastAccountId(location).None?
  {
  }

  /** Appending an account to any short enough interior makes it the one extracted. */
  lemma ExtractAppendedAccount(parents: u8, prefix: Junctions, network: Option<NetworkId>, id: nat)
    requires |prefix| < MAX_JUNCTIONS
    ensures ExtractLastAccountId(Location(parents, prefix + [AccountId32(network, id)])) == Some(id)
  {
  }

  /** The unit test `extract_last_account_id_works`. */
  lemma ExtractLastAccountIdExamples()
    ensures ExtractLastAccountId(Here).None?
    ensures ExtractLastAccountId(Location(0, [GlobalConsensus(Polkadot), Parachain(1337), AccountId32(None, Executor.ALICE)]))
            == Some(Executor.ALICE)
  {
  }

  /** `check_sibling_parachains`: a location one level up with a single `Parachain` junction
      is a sibling, and that junction's id is returned. */
  function CheckSiblingParachains(maybeSibling: Location): Option<u32>
  {
    if maybeSibling.parents == 1 && |maybeSibling.interior| == 1 && maybeSibling.interior[0].Parachain?
    then Some(maybeSibling.interior[0].paraId)
    else None
  }

  /** A location is the sibling with id `id` exactly when it is `(1, [Parachain(id)])`. */
  lemma CheckSiblingParachainsMeaning(maybeSibling: Location, id: u32)
    ensures CheckSiblingParachains(maybeSibling) == Some(id) <==> maybeSibling == Location(1, [Parachain(id)])
  {
    if maybeSibling == Location(1, [Parachain(id)]) {
      assert maybeSibling.interior[0] == Parachain(id);
    }
  }

  /** The unit test `check_sibling_parachains_works`. */
  lemma CheckSiblingParachainsExamples()
    ensures CheckSiblingParachains(Here).None?
    ensures CheckSiblingParachains(Location(0, [Parachain(1337)])).None?
    ensures CheckSiblingParachains(Location(1, [Parachain(1337)])) == Some(1337)
    ensures CheckSiblingParachains(Location(0, [Parachain(1337), AccountId32(None, Executor.ALICE)])).None?
  {
  }

  /** `descend_origin`: `who` appended to `origin`, which is updated in place; `LocationFull`
      when the result would not be a location. The origin afterwards and the result. */
  method DescendOrigin(origin: Location, who: Location) returns (descended: Location, r: Executor.Result<()>)
    ensures r.Ok? <==> AppendWith(origin, who).Some?
    ensures r.Ok? ==> descended == AppendWith(origin, who).value
    ensures r.Err? ==> r.error == LocationFull && descended == origin
    ensures who.parents == 0 ==>
              && (r.Ok? <==> |origin.interior| + |who.interior| <= MAX_JUNCTIONS)
              && (r.Ok? ==> descended == Location(origin.parents, origin.interior + who.interior))
  {
    AppendInterior(origin, who.interior);
    var appended := AppendWith(origin, who);
    if appended.None? {
      return origin, Executor.Err(LocationFull);
    }
    descended := appended.value;
    r := Executor.Ok(());
  }
}

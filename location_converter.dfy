/** The location converter of the test network's parachains: the owner of a public key on
    any parachain owns the account with the same key here. */
module LocationConverter {
  import opened Xcm

  /** `PublicKeyOwnership::convert_location`: the key of a location shaped
      `(_, [Parachain(_), AccountId32 { id, .. }])`. */
  function PublicKeyOwnership(location: Location): Option<nat>
  {
    if |location.interior| == 2 && location.interior[0].Parachain? && location.interior[1].AccountId32?
    then Some(location.interior[1].id)
    else None
  }

  /** The key `id` is found exactly when the interior is a parachain followed by an account
      with that key. */
  lemma PublicKeyOwnershipMeaning(location: Location, id: nat)
    ensures PublicKeyOwnership(location) == Some(id)
            <==> exists para, network :: location.interior == [Parachain(para), AccountId32(network, id)]
  {
    if PublicKeyOwnership(location) == Some(id) {
      var para, network := location.interior[0].paraId, location.interior[1].network;
      assert location.interior == [Parachain(para), AccountId32(network, id)];
    }
    if exists para, network :: location.interior == [Parachain(para), AccountId32(network, id)] {
      var para, network :| location.interior == [Parachain(para), AccountId32(network, id)];
      assert location.interior[1] == AccountId32(network, id);
    }
  }

  /** The same key is the same account whatever the parents count, the parachain and the
      account's network. */
  lemma SameKeyEverywhere(parents: u8, para: u32, network: Option<NetworkId>, id: nat)
    ensures PublicKeyOwnership(Location(parents, [Parachain(para), AccountId32(network, id)])) == Some(id)
  {
  }

  /** The parents count never matters. */
  lemma ParentsIgnored(location: Location, parents: u8)
    ensures PublicKeyOwnership(location.(parents := parents)) == PublicKeyOwnership(location)
  {
  }

  /** A bare account, or an interior of any length other than two, is not converted. */
  lemma OtherShapesRefused(location: Location)
    requires |location.interior| != 2
    ensures PublicKeyOwnership(location).None?
  {
  }
}

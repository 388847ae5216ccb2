/** The trust and matching predicates of the template parachain's XCM configuration: which
    origins get free execution, which assets are accepted as reserve transfers and which as
    teleports. */
module ParachainConfig {
  import opened Xcm

  const ASSET_HUB_ID: u32 := 1000

  /** `(1, [Parachain(1000)])`: the asset hub, a sibling parachain. */
  const AssetHubLocation: Location := Location(1, [Parachain(ASSET_HUB_ID)])

  /** `ParentOrParentsExecutivePlurality::contains`: the relay chain, or its executive body
      with any body part. */
  predicate ParentOrParentsExecutivePlurality(location: Location)
  {
    && location.parents == 1
    && (|location.interior| == 0
        || (|location.interior| == 1 && location.interior[0].Plurality? && location.interior[0].body == Executive))
  }

  /** Exactly the relay chain and its executive plurality (whatever the part) are accepted;
      another body, another level or a longer interior is refused. */
  lemma ParentOrParentsExecutivePluralityMeaning(location: Location)
    ensures ParentOrParentsExecutivePlurality(location)
            <==> location == Parent
                 || exists part :: location == Location(1, [Plurality(Executive, part)])
  {
    if ParentOrParentsExecutivePlurality(location) && location != Parent {
      var part := location.interior[0].part;
      assert location == Location(1, [Plurality(Executive, part)]);
    }
    if exists part :: location == Location(1, [Plurality(Executive, part)]) {
      var part :| location == Location(1, [Plurality(Executive, part)]);
      assert location.interior[0] == Plurality(Executive, part);
    }
  }

  /** `RelayAssetFrom<T>::contains`: a fungible amount of the relay chain's token, from `T`. */
  predicate RelayAssetFrom(t: Location, asset: Asset, location: Location)
  {
    t == location && asset.fun.Fungible? && asset.id.location == Parent
  }

  /** `NativeAssetFrom<T>::contains`: a fungible amount of this chain's own token, from `T`. */
  predicate NativeAssetFrom(t: Location, asset: Asset, location: Location)
  {
    t == location && asset.fun.Fungible? && asset.id.location == Here
  }

  /** The relay-token predicate accepts exactly some amount of the asset with id `Parent`,
      coming from `T`. */
  lemma RelayAssetFromMeaning(t: Location, asset: Asset, location: Location)
    ensures RelayAssetFrom(t, asset, location)
            <==> location == t && exists amount :: asset == Asset(AssetId(Parent), Fungible(amount))
  {
    if RelayAssetFrom(t, asset, location) {
      assert asset == Asset(AssetId(Parent), Fungible(asset.fun.amount));
    }
  }

  /** The native-token predicate accepts exactly some amount of the asset with id `Here`,
      coming from `T`. */
  lemma NativeAssetFromMeaning(t: Location, asset: Asset, location: Location)
    ensures NativeAssetFrom(t, asset, location)
            <==> location == t && exists amount :: asset == Asset(AssetId(Here), Fungible(amount))
  {
    if NativeAssetFrom(t, asset, location) {
      assert asset == Asset(AssetId(Here), Fungible(asset.fun.amount));
    }
  }

  /** Neither predicate accepts a non-fungible asset, from anywhere. */
  lemma NonFungiblesNeverMatch(t: Location, asset: Asset, location: Location)
    requires asset.fun.NonFungible?
    ensures !RelayAssetFrom(t, asset, location) && !NativeAssetFrom(t, asset, location)
  {
  }

  /** `NativeAsset` of `xcm_builder`: an asset whose id is its origin's own location. */
  predicate NativeAsset(asset: Asset, origin: Location)
  {
    asset.id.location == origin
  }

  /** `TrustedReserves` is the pair `(NativeAsset, RelayAssetFrom<AssetHubLocation>)`: a pair of
      filters accepts when either does. */
  predicate TrustedReserves(asset: Asset, origin: Location)
  {
    NativeAsset(asset, origin) || RelayAssetFrom(AssetHubLocation, asset, origin)
  }

  /** `TrustedTeleporters` is `NativeAssetFrom<AssetHubLocation>`. */
  predicate TrustedTeleporters(asset: Asset, origin: Location)
  {
    NativeAssetFrom(AssetHubLocation, asset, origin)
  }

  /** A reserve is trusted for an asset exactly when the asset is the origin's own, or it is
      the relay chain's token coming from the asset hub. */
  lemma TrustedReservesMeaning(asset: Asset, origin: Location)
    ensures TrustedReserves(asset, origin)
            <==> asset.id == AssetId(origin)
                 || (origin == Location(1, [Parachain(1000)]) && asset.fun.Fungible? && asset.id == AssetId(Parent))
  {
  }

  /** Teleports are trusted only for this chain's own token, and only to and from the asset
      hub: any other origin, any other asset and any non-fungible are refused. */
  lemma TrustedTeleportersMeaning(asset: Asset, origin: Location)
    ensures TrustedTeleporters(asset, origin)
            <==> origin == Location(1, [Parachain(1000)]) && asset.fun.Fungible? && asset.id == AssetId(Here)
  {
  }
}

/** The trust predicates of the parachain configuration's `reserves_and_teleports` module. Its
    `NativeAssetFrom` and `RelayAssetFrom` are the same code as the configuration's
    (`ParachainConfig.NativeAssetFrom`, `ParachainConfig.RelayAssetFrom`); its reserves are
    only the relay token from the asset hub. */
module ReservesAndTeleports {
  import opened Xcm
  import opened ParachainConfig

  /** `TrustedReserves` is `RelayAssetFrom<AssetHubLocation>`. */
  predicate TrustedReserves(asset: Asset, origin: Location)
  {
    RelayAssetFrom(AssetHubLocation, asset, origin)
  }

  /** A reserve is trusted exactly for the relay chain's token coming from the asset hub. */
  lemma TrustedReservesMeaning(asset: Asset, origin: Location)
    ensures TrustedReserves(asset, origin)
            <==> origin == Location(1, [Parachain(1000)]) && asset.fun.Fungible? && asset.id == AssetId(Parent)
  {
  }

  /** Unlike the configuration's reserves, an asset native to its origin is not trusted here:
      a sibling's own token coming from that sibling is refused. */
  lemma SiblingTokenNotTrusted(amount: u128)
    ensures !TrustedReserves(Asset(AssetId(Location(1, [Parachain(2000)])), Fungible(amount)), Location(1, [Parachain(2000)]))
    ensures ParachainConfig.TrustedReserves(Asset(AssetId(Location(1, [Parachain(2000)])), Fungible(amount)), Location(1, [Parachain(2000)]))
  {
  }
}

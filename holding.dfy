/** The holding register, `AssetsInHolding`: an ordered map from asset id to amount and an
    ordered set of non-fungible pairs, updated in place. One class carries the operations of
    both versions of the register: the short one (`subsume_assets` by key, `saturating_take`
    with `All` and definite filters) and the fuller one (`len`, the two-cursor
    `subsume_assets`, `general_take` with the counted wildcards, `swapped`, `ensure_contains`).
    Every method is proved to follow the functions of `HoldingSpec`. */
module Holding {
  import opened Sorting
  import opened Xcm
  import opened HoldingSpec

  class AssetsInHolding {
    var fungible: map<AssetId, u128>
    var nonFungible: set<NonFungibleKey>

    /** The register's contents. */
    function Value(): Contents
      reads this
    {
      Contents(fungible, nonFungible)
    }

    /** `new` (and `Default`): a register with no assets. */
    constructor ()
      ensures Value() == Empty
    {
      fungible := map[];
      nonFungible := {};
    }

    /** `From<Vec<Asset>>`: a new register subsuming each asset of the list in turn. */
    constructor FromAssets(xs: seq<Asset>)
      ensures Value() == HoldingOf(xs)
    {
      fungible := map[];
      nonFungible := {};
      new;
      var i := 0;
      while i < |xs|
        invariant 0 <= i <= |xs|
        invariant Value() == SubsumedAll(Empty, xs[..i])
      {
        SubsumedAllSnoc(Empty, xs[..i], xs[i]);
        assert xs[..i + 1] == xs[..i] + [xs[i]];
        Subsume(xs[i]);
        i := i + 1;
      }
      assert xs[..|xs|] == xs;
    }

    /** A copy of the register (`clone`). */
    method Clone() returns (r: AssetsInHolding)
      ensures fresh(r) && r.Value() == Value()
    {
      r := new AssetsInHolding();
      r.fungible := fungible;
      r.nonFungible := nonFungible;
    }

    /** `len`: the number of distinct assets (`Count`), which `AssetsOf` shows is the number of
        assets the register lists. */
    function Len(): nat
      reads this
    {
      |fungible| + |nonFungible|
    }

    /** `subsume`: adds one asset, saturating a fungible amount. */
    method Subsume(a: Asset)
      modifies this
      ensures Value() == Subsumed(old(Value()), a)
    {
      match a.fun
      case Fungible(amount) =>
        if a.id in fungible {
          fungible := fungible[a.id := SaturatingAdd(fungible[a.id], amount)];
        } else {
          fungible := fungible[a.id := amount];
        }
      case NonFungible(instance) =>
        nonFungible := nonFungible + {(a.id, instance)};
    }

    /** `subsume_assets` of the short register: every fungible entry of `other`, in key order,
        is accrued onto or inserted into this register, the non-fungibles are appended, and
        `other` is cleared. */
    method SubsumeAssets(other: AssetsInHolding)
      requires other != this
      modifies this, other
      ensures Value() == Merged(old(Value()), old(other.Value()))
      ensures other.Value() == Empty
    {
      AssetIdOrder(other.fungible.Keys);
      var ks := SortSet(AssetIdLess, other.fungible.Keys);
      SortedIdsMembers(other.fungible.Keys);
      AccrueEach(other.fungible, ks);
      assert Elements(ks) == other.fungible.Keys;
      OnlyAll(other.fungible);
      nonFungible := nonFungible + other.nonFungible;
      other.fungible := map[];
      other.nonFungible := {};
    }

    /** The loop of the short `subsume_assets`: the entries of `g` under the keys `ks`, in that
        order, are each accrued onto or inserted into this register's fungibles. */
    method AccrueEach(g: map<AssetId, u128>, ks: seq<AssetId>)
      requires Distinct(ks) && forall k | k in ks :: k in g
      modifies this
      ensures fungible == MergeFungible(old(fungible), Only(g, Elements(ks)))
      ensures nonFungible == old(nonFungible)
    {
      assert MergeFungible(fungible, Only(g, Elements(ks[..0]))) == fungible;
      for i := 0 to |ks|
        invariant nonFungible == old(nonFungible)
        invariant fungible == MergeFungible(old(fungible), Only(g, Elements(ks[..i])))
      {
        var k := ks[i];
        DistinctStep(ks, i);
        MergeFungibleStep(old(fungible), g, Elements(ks[..i]), k);
        if k in fungible {
          fungible := fungible[k := SaturatingAdd(fungible[k], g[k])];
        } else {
          fungible := fungible[k := g[k]];
        }
      }
      assert ks[..|ks|] == ks;
    }

    /** `subsume_assets` of the fuller register, as written: a merge loop over both key lists
        in ascending order (`CursorAccrue`), then `append` of `other`'s entries. */
    method SubsumeAssetsTwoCursor(other: AssetsInHolding)
      requires other != this
      modifies this, other
      ensures Value() == TwoCursorMerged(old(Value()), old(other.Value()))
      ensures other.Value() == Empty
    {
      ghost var c, d := Value(), other.Value();
      AssetIdOrder(other.fungible.Keys);
      AssetIdOrder(fungible.Keys);
      var fs := SortSet(AssetIdLess, other.fungible.Keys);
      var gs := SortSet(AssetIdLess, fungible.Keys);
      SortedIdsMembers(d.fungible.Keys);
      SortedIdsMembers(c.fungible.Keys);
      assert TwoCursorMerged(c, d) == CursorMerged(c, d, fs, gs);
      if |fs| > 0 && |gs| > 0 {
        AccrueCursors(other, fs, gs);
      }
      fungible := fungible + other.fungible;
      nonFungible := nonFungible + other.nonFungible;
      other.fungible := map[];
      other.nonFungible := {};
    }
  
    /** The merge loop of the fuller `subsume_assets`: `fs` are `other`'s keys and `gs` this
        register's keys, both ascending; the holding's amount is accrued onto `other`'s entry
        wherever the two cursors meet on one key. */
    method AccrueCursors(other: AssetsInHolding, fs: seq<AssetId>, gs: seq<AssetId>)
      requires other != this && |fs| > 0 && |gs| > 0
      requires (forall k | k in fs :: k in other.fungible) && (forall k | k in gs :: k in fungible)
      modifies other
      ensures other.fungible == CursorAccrue(old(other.fungible), fs, gs, fungible, 0, 0)
      ensures other.nonFungible == old(other.nonFungible)
    {
      var i, j := 0, 0;
      while true
        invariant i < |fs| && j < |gs|
        invariant other.fungible.Keys == old(other.fungible).Keys
        invariant other.nonFungible == old(other.nonFungible)
        invariant CursorAccrue(other.fungible, fs, gs, fungible, i, j)
                  == CursorAccrue(old(other.fungible), fs, gs, fungible, 0, 0)
        decreases |fs| - i + |gs| - j
      {
        ghost var f0, i0 := other.fungible, i;
        AssetIdOrder({fs[i], gs[j]});
        if fs[i] == gs[j] {
          other.fungible := other.fungible[fs[i] := SaturatingAdd(other.fungible[fs[i]], fungible[gs[j]])];
        }
        if AssetIdAtMost(fs[i], gs[j]) {
          if i + 1 == |fs| {
            assert other.fungible == CursorAccrue(f0, fs, gs, fungible, i0, j);
            break;
          }
          i := i + 1;
        }
        if AssetIdAtMost(gs[j], fs[i]) {
          if j + 1 == |gs| {
            assert other.fungible == CursorAccrue(f0, fs, gs, fungible, i0, j);
            break;
          }
          j := j + 1;
        }
      }
    }

    /** `mem::swap` of the two registers, returning `with`, which now holds this register's
        former contents (`swapped`). */
    method Swapped(with: AssetsInHolding) returns (r: AssetsInHolding)
      requires with != this
      modifies this, with
      ensures r == with && r.Value() == old(Value()) && Value() == old(with.Value())
    {
      var f, n := fungible, nonFungible;
      fungible, nonFungible := with.fungible, with.nonFungible;
      with.fungible, with.nonFungible := f, n;
      r := with;
    }

    /** One requested asset of a definite take: the smaller of the requested and held amount
        (or the pair, if held) moves from this register into `taken`. */
    method TakeAsset(taken: AssetsInHolding, a: Asset)
      requires taken != this
      modifies this, taken
      ensures (Value(), taken.Value()) == TakeOne((old(Value()), old(taken.Value())), a)
    {
      match a.fun
      case Fungible(request) =>
        var moved := 0;
        if a.id in fungible {
          var held := fungible[a.id];
          moved := Min(request, held);
          if held - moved == 0 {
            fungible := fungible - {a.id};
          } else {
            fungible := fungible[a.id := held - moved];
          }
        }
        if moved > 0 {
          taken.Subsume(Asset(a.id, Fungible(moved)));
        }
      case NonFungible(instance) =>
        if (a.id, instance) in nonFungible {
          nonFungible := nonFungible - {(a.id, instance)};
          taken.Subsume(a);
        }
    }

    /** The `Definite` arm of both takes: each listed asset in turn, with absent or short
        assets taken only as far as they are held. */
    method TakeDefinite(xs: seq<Asset>) returns (taken: AssetsInHolding)
      modifies this
      ensures fresh(taken)
      ensures (Value(), taken.Value()) == TakenDefinite(old(Value()), xs)
    {
      taken := new AssetsInHolding();
      for i := 0 to |xs|
        invariant (Value(), taken.Value()) == TakenDefinite(old(Value()), xs[..i])
      {
        TakenDefiniteSnoc(old(Value()), xs[..i], xs[i]);
        assert xs[..i + 1] == xs[..i] + [xs[i]];
        TakeAsset(taken, xs[i]);
      }
      assert xs[..|xs|] == xs;
    }

    /** `saturating_take` of the short register: `Wild(All)` swaps in an empty register, a
        definite filter is taken asset by asset, and every other filter panics. */
    method SaturatingTake(filter: AssetFilter) returns (r: Run<AssetsInHolding>)
      modifies this
      ensures r.Returned? <==> SaturatingTakeSpec(old(Value()), filter).Returned?
      ensures r.Returned? ==> fresh(r.value)
                              && (Value(), r.value.Value()) == SaturatingTakeSpec(old(Value()), filter).value
    {
      match filter
      case Wild(All) =>
        var taken := TakeAll();
        r := Returned(taken);
      case Definite(xs) =>
        var taken := TakeDefinite(xs);
        r := Returned(taken);
      case _ =>
        r := Panicked;
    }

    /** `ensure_contains`: succeeds exactly when every listed asset is wholly held, stopping at
        the first one that is not. */
    method EnsureContains(xs: seq<Asset>) returns (ok: bool)
      ensures ok <==> ContainsAll(Value(), xs)
    {
      for i := 0 to |xs|
        invariant ContainsAll(Value(), xs[..i])
      {
        assert ContainsAll(Value(), xs[..i + 1]) <==> ContainsAll(Value(), xs[..i]) && Holds(Value(), xs[i]);
        match xs[i].fun
        case Fungible(amount) =>
          if xs[i].id !in fungible || fungible[xs[i].id] < amount {
            return false;
          }
        case NonFungible(instance) =>
          if (xs[i].id, instance) !in nonFungible {
            return false;
          }
      }
      assert xs[..|xs|] == xs;
      return true;
    }

    /** `into_assets_iter`: the fungibles in ascending id order, then the non-fungibles in
        ascending order. */
    method IntoAssetsIter() returns (r: seq<Asset>)
      ensures r == AssetsOf(Value())
    {
      AssetIdOrder(fungible.Keys);
      NonFungibleOrder(nonFungible);
      var ks := SortSet(AssetIdLess, fungible.Keys);
      var ps := SortSet(NonFungibleLess, nonFungible);
      SortedIdsMembers(fungible.Keys);
      var front := ListFungibles(ks);
      var back := ListNonFungibles(ps);
      r := front + back;
    }

    /** The fungible half of the listing: one asset per key of `ks`, with its amount. */
    method ListFungibles(ks: seq<AssetId>) returns (r: seq<Asset>)
      requires forall k | k in ks :: k in fungible
      ensures r == FungibleAssets(fungible, ks)
    {
      r := [];
      for i := 0 to |ks|
        invariant r == FungibleAssets(fungible, ks[..i])
      {
        assert ks[..i + 1][..i] == ks[..i];
        r := r + [Asset(ks[i], Fungible(fungible[ks[i]]))];
      }
      assert ks[..|ks|] == ks;
    }

    /** The non-fungible half of the listing: one asset per pair of `ps`. */
    static method ListNonFungibles(ps: seq<NonFungibleKey>) returns (r: seq<Asset>)
      ensures r == NonFungibleAssets(ps)
    {
      r := [];
      for j := 0 to |ps|
        invariant r == NonFungibleAssets(ps[..j])
      {
        assert ps[..j + 1][..j] == ps[..j];
        r := r + [Asset(ps[j].0, NonFungible(ps[j].1))];
      }
      assert ps[..|ps|] == ps;
    }

    /** `general_take`: the wildcards take everything, a counted prefix in iteration order,
        the whole entry of one fungible id, or the instances of one class; a definite filter is
        taken asset by asset, after `ensure_contains` when not saturating. `None` is the
        error, and leaves the register as it was. */
    method GeneralTake(mask: AssetFilter, saturate: bool) returns (r: Option<AssetsInHolding>)
      modifies this
      ensures r.None? <==> GeneralTakeSpec(old(Value()), mask, saturate).None?
      ensures r.None? ==> Value() == old(Value())
      ensures r.Some? ==> fresh(r.value)
                          && (Value(), r.value.Value()) == GeneralTakeSpec(old(Value()), mask, saturate).value
    {
      match mask
      case Wild(All) =>
        var taken := TakeAll();
        return Some(taken);
      case Wild(AllCounted(n)) =>
        if Len() <= n {
          var taken := TakeAll();
          return Some(taken);
        }
        var taken := TakeCounted(n);
        return Some(taken);
      case Wild(AllOf(id, WildFungible)) =>
        var taken := TakeFungibleOf(id);
        return Some(taken);
      case Wild(AllOfCounted(id, WildFungible, n)) =>
        if n >= 1 {
          var taken := TakeFungibleOf(id);
          return Some(taken);
        }
        var taken := new AssetsInHolding();
        return Some(taken);
      case Wild(AllOf(id, WildNonFungible)) =>
        var taken := TakeClass(id, None);
        return Some(taken);
      case Wild(AllOfCounted(id, WildNonFungible, n)) =>
        var taken := TakeClass(id, Some(n));
        return Some(taken);
      case Definite(xs) =>
        if !saturate {
          var ok := EnsureContains(xs);
          if !ok {
            return None;
          }
        }
        var taken := TakeDefinite(xs);
        return Some(taken);
    }

    /** The uncounted arm of `general_take`: an empty register is swapped in. */
    method TakeAll() returns (taken: AssetsInHolding)
      modifies this
      ensures fresh(taken)
      ensures Value() == Empty && taken.Value() == old(Value())
    {
      var empty := new AssetsInHolding();
      taken := Swapped(empty);
    }

    /** The fungible-of-id arm of `general_take`: the whole entry of `id`, if any. */
    method TakeFungibleOf(id: AssetId) returns (taken: AssetsInHolding)
      modifies this
      ensures fresh(taken)
      ensures (Value(), taken.Value()) == FungibleOfSplit(old(Value()), id)
    {
      taken := new AssetsInHolding();
      if id in fungible {
        taken.fungible := map[id := fungible[id]];
        fungible := fungible - {id};
      }
      assert Only(old(fungible), {id}) == taken.fungible;
      assert fungible == old(fungible) - {id};
      assert nonFungible - {} == nonFungible && nonFungible * {} == {};
    }

    /** The counted arm of `general_take` on a register with more than `n` entries: the
        fungibles, then the non-fungibles, each in ascending order, go into `taken` while it
        holds fewer than `n` entries, and back into this register afterwards. */
    method TakeCounted(n: nat) returns (taken: AssetsInHolding)
      modifies this
      ensures fresh(taken)
      ensures (Value(), taken.Value()) == CountedSplit(old(Value()), n)
    {
      ghost var c := Value();
      AssetIdOrder(fungible.Keys);
      NonFungibleOrder(nonFungible);
      var ks := SortSet(AssetIdLess, fungible.Keys);
      var ps := SortSet(NonFungibleLess, nonFungible);
      SortedIdsMembers(fungible.Keys);
      SortedNonFungiblesMembers(nonFungible);
      taken := new AssetsInHolding();
      var f := fungible;
      fungible := map[];
      CountFungibles(taken, f, ks, n);
      ghost var tf := Min(n, |ks|);
      DistinctPrefixCard(ks, tf);
      OnlySubsetCard(f, Elements(ks[..tf]));
      assert |taken.fungible| == tf;
      var nf := nonFungible;
      nonFungible := {};
      CountNonFungibles(taken, ps, n);
      ghost var tn := Min(n - tf, |ps|);
      PrefixSplitState(c, ks, ps, n);
      assert Value() == Contents(Only(c.fungible, Elements(ks) - Elements(ks[..tf])), Elements(ps) - Elements(ps[..tn]));
      assert taken.Value() == Contents(Only(c.fungible, Elements(ks[..tf])), Elements(ps[..tn]));
    }

    /** The fungible loop of the counted take, over the keys `ks` of the drained map `f`. */
    method CountFungibles(taken: AssetsInHolding, f: map<AssetId, u128>, ks: seq<AssetId>, n: nat)
      requires taken != this && Enumerates(ks, f.Keys)
      requires fungible == map[] && taken.Value() == Empty
      modifies this, taken
      ensures taken.fungible == Only(f, Elements(ks[..Min(n, |ks|)]))
      ensures taken.nonFungible == {}
      ensures fungible == Only(f, Elements(ks) - Elements(ks[..Min(n, |ks|)]))
      ensures nonFungible == old(nonFungible)
    {
      ghost var moved, kept: set<AssetId> := {}, {};
      assert Elements(ks[..0]) == {};
      for i := 0 to |ks|
        invariant moved == Elements(ks[..Min(n, i)]) && |moved| == Min(n, i)
        invariant kept == Elements(ks[..i]) - moved
        invariant taken.fungible == Only(f, moved)
        invariant fungible == Only(f, kept)
        invariant taken.nonFungible == {} && nonFungible == old(nonFungible)
      {
        var k := ks[i];
        CountedSetStep(ks, i, n, moved, kept);
        CountFungible(taken, f, k, n, moved, kept);
        if |moved| < n {
          moved := moved + {k};
        } else {
          kept := kept + {k};
        }
      }
      assert ks[..|ks|] == ks;
    }

    /** One entry `k` of the drained map `f` in the counted take: into `taken` while it holds
        fewer than `n` entries, back into this register otherwise. */
    method CountFungible(taken: AssetsInHolding, f: map<AssetId, u128>, k: AssetId, n: nat, ghost moved: set<AssetId>, ghost kept: set<AssetId>)
      requires taken != this && k in f && moved <= f.Keys
      requires taken.fungible == Only(f, moved) && taken.nonFungible == {} && fungible == Only(f, kept)
      modifies this, taken
      ensures |moved| < n ==> taken.fungible == Only(f, moved + {k}) && fungible == old(fungible)
      ensures |moved| >= n ==> taken.fungible == old(taken.fungible) && fungible == Only(f, kept + {k})
      ensures taken.nonFungible == {} && nonFungible == old(nonFungible)
    {
      OnlySubsetCard(f, moved);
      if taken.Len() < n {
        OnlyInsert(f, moved, k);
        taken.fungible := taken.fungible[k := f[k]];
      } else {
        OnlyInsert(f, kept, k);
        fungible := fungible[k := f[k]];
      }
    }

    /** The non-fungible loop of the counted take, over the drained pairs `ps`. */
    method CountNonFungibles(taken: AssetsInHolding, ps: seq<NonFungibleKey>, n: nat)
      requires taken != this && Distinct(ps) && |taken.fungible| <= n
      requires nonFungible == {} && taken.nonFungible == {}
      modifies this, taken
      ensures taken.fungible == old(taken.fungible) && fungible == old(fungible)
      ensures taken.nonFungible == Elements(ps[..Min(n - |taken.fungible|, |ps|)])
      ensures nonFungible == Elements(ps) - Elements(ps[..Min(n - |taken.fungible|, |ps|)])
    {
      var budget := n - |taken.fungible|;
      assert Elements(ps[..0]) == {};
      for j := 0 to |ps|
        invariant taken.nonFungible == Elements(ps[..Min(budget, j)])
        invariant |taken.nonFungible| == Min(budget, j)
        invariant nonFungible == Elements(ps[..j]) - Elements(ps[..Min(budget, j)])
        invariant taken.fungible == old(taken.fungible) && fungible == old(fungible)
      {
        CountedSetStep(ps, j, budget, taken.nonFungible, nonFungible);
        if taken.Len() < n {
          taken.nonFungible := taken.nonFungible + {ps[j]};
        } else {
          nonFungible := nonFungible + {ps[j]};
        }
      }
      assert ps[..|ps|] == ps;
    }

    /** The class arm of `general_take`: the pairs of class `id`, in ascending order, go into
        `taken` while the limit allows; every other pair stays. */
    method TakeClass(id: AssetId, limit: Option<nat>) returns (taken: AssetsInHolding)
      modifies this
      ensures fresh(taken)
      ensures (Value(), taken.Value()) == ClassSplit(old(Value()), id, limit)
    {
      ghost var c := Value();
      NonFungibleOrder(nonFungible);
      var ps := SortSet(NonFungibleLess, nonFungible);
      SortedNonFungiblesMembers(nonFungible);
      taken := new AssetsInHolding();
      nonFungible := {};
      ClassLoop(taken, ps, id, limit);
      ClassPrefixSplitState(c, ps, id, limit);
    }

    /** The loop of the class arm over the drained pairs `ps`. */
    method ClassLoop(taken: AssetsInHolding, ps: seq<NonFungibleKey>, id: AssetId, limit: Option<nat>)
      requires taken != this && Distinct(ps)
      requires nonFungible == {} && taken.Value() == Empty
      modifies this, taken
      ensures var qs := ClassPairs(ps, id);
              && taken.nonFungible == Elements(qs[..ClassCount(|qs|, limit)])
              && nonFungible == Elements(ps) - Elements(qs[..ClassCount(|qs|, limit)])
      ensures taken.fungible == map[] && fungible == old(fungible)
    {
      assert ps[..0] == [];
      for j := 0 to |ps|
        invariant var q := ClassPairs(ps[..j], id);
                  && taken.nonFungible == Elements(q[..ClassCount(|q|, limit)])
                  && |taken.nonFungible| == ClassCount(|q|, limit)
                  && nonFungible == Elements(ps[..j]) - Elements(q[..ClassCount(|q|, limit)])
        invariant taken.fungible == map[] && fungible == old(fungible)
      {
        if ps[j].0 == id && (limit.None? || taken.Len() < limit.value) {
          ClassStepTaken(ps, id, limit, j);
          taken.nonFungible := taken.nonFungible + {ps[j]};
        } else {
          ClassStepKept(ps, id, limit, j);
          nonFungible := nonFungible + {ps[j]};
        }
      }
      assert ps[..|ps|] == ps;
    }

    /** `saturating_take` of the fuller register: `general_take` with `saturate`, which never
        fails. */
    method SaturatingTakeGeneral(mask: AssetFilter) returns (taken: AssetsInHolding)
      modifies this
      ensures fresh(taken)
      ensures GeneralTakeSpec(old(Value()), mask, true).Some?
      ensures (Value(), taken.Value()) == GeneralTakeSpec(old(Value()), mask, true).value
    {
      GeneralTakeFails(Value(), mask, true);
      var r := GeneralTake(mask, true);
      taken := r.value;
    }
  }
}

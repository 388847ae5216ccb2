/** The holding register's contents as a value, and the operations on it as functions. The
    class in `Holding` is proved to follow these functions; the properties of the register are
    lemmas about them. */
module HoldingSpec {
  import opened Sorting
  import opened Xcm

  /** The fungible amounts by asset id, and the non-fungible `(class, instance)` pairs. */
  datatype Contents = Contents(fungible: map<AssetId, u128>, nonFungible: set<NonFungibleKey>)

  const Empty: Contents := Contents(map[], {})

  /** The amount of `id` held; an absent id holds nothing. */
  function Amount(c: Contents, id: AssetId): u128
  {
    if id in c.fungible then c.fungible[id] else 0
  }

  /** The number of distinct assets held (`len`). */
  function Count(c: Contents): nat
  {
    |c.fungible| + |c.nonFungible|
  }

  function Only(m: map<AssetId, u128>, keys: set<AssetId>): map<AssetId, u128>
  {
    map k | k in m && k in keys :: m[k]
  }

  function Elements<T>(s: seq<T>): set<T>
  {
    set x | x in s
  }

  /** Dropping the last element of a list without repetitions leaves one, without that
      element. */
  lemma DistinctInit<T>(s: seq<T>)
    requires s != [] && Distinct(s)
    ensures Distinct(s[..|s| - 1]) && s[|s| - 1] !in Elements(s[..|s| - 1])
  {
    var init := s[..|s| - 1];
    forall i, j | 0 <= i < j < |init| ensures init[i] != init[j] {
      assert init[i] == s[i] && init[j] == s[j];
    }
    DistinctStep(s, |s| - 1);
  }

  lemma ElementsSnoc<T>(s: seq<T>)
    requires s != []
    ensures Elements(s) == Elements(s[..|s| - 1]) + {s[|s| - 1]}
  {
    assert s == s[..|s| - 1] + [s[|s| - 1]];
  }

  /** Extending a prefix of a list without repetitions by one element adds an element not
      yet listed. */
  lemma DistinctStep<T>(s: seq<T>, i: nat)
    requires Distinct(s) && i < |s|
    ensures s[i] !in Elements(s[..i])
    ensures Elements(s[..i + 1]) == Elements(s[..i]) + {s[i]}
  {
    assert s[..i + 1] == s[..i] + [s[i]];
  }

  // ---- Subsuming -------------------------------------------------------------------------

  /** `subsume`: a fungible amount is added to an existing entry with saturation or inserted as
      a new entry; a non-fungible pair is inserted into the set. */
  function Subsumed(c: Contents, a: Asset): Contents
  {
    match a.fun
    case Fungible(amount) =>
      c.(fungible := c.fungible[a.id := if a.id in c.fungible then SaturatingAdd(c.fungible[a.id], amount) else amount])
    case NonFungible(instance) =>
      c.(nonFungible := c.nonFungible + {(a.id, instance)})
  }

  /** Subsuming the assets of a list one after the other, first to last. */
  function SubsumedAll(c: Contents, xs: seq<Asset>): Contents
    decreases |xs|
  {
    if xs == [] then c else Subsumed(SubsumedAll(c, xs[..|xs| - 1]), xs[|xs| - 1])
  }

  /** `From<Vec<Asset>>`: the holding built by subsuming every asset of a list. */
  function HoldingOf(xs: seq<Asset>): Contents
  {
    SubsumedAll(Empty, xs)
  }

  /** The sum, without any bound, of the fungible amounts of `id` in a list. */
  function FungibleTotal(xs: seq<Asset>, id: AssetId): nat
    decreases |xs|
  {
    if xs == [] then 0
    else
      var last := xs[|xs| - 1];
      FungibleTotal(xs[..|xs| - 1], id) + (if last.id == id && last.fun.Fungible? then last.fun.amount else 0)
  }

  predicate MentionsFungible(xs: seq<Asset>, id: AssetId)
  {
    exists i | 0 <= i < |xs| :: xs[i].id == id && xs[i].fun.Fungible?
  }

  function NonFungiblesOf(xs: seq<Asset>): set<NonFungibleKey>
  {
    set i | 0 <= i < |xs| && xs[i].fun.NonFungible? :: (xs[i].id, xs[i].fun.instance)
  }

  /** Subsuming a list saturates once, at the end: the amount held for `id` is the unbounded sum
      of what was there and every amount of `id` in the list, capped at `U128_MAX`; an id has an
      entry iff it had one or the list names it as a fungible; the non-fungibles are the union. */
  lemma {:induction false} SubsumedAllMeaning(c: Contents, xs: seq<Asset>, id: AssetId)
    ensures Amount(SubsumedAll(c, xs), id) == Min(Amount(c, id) + FungibleTotal(xs, id), U128_MAX)
    ensures id in SubsumedAll(c, xs).fungible <==> id in c.fungible || MentionsFungible(xs, id)
    ensures SubsumedAll(c, xs).nonFungible == c.nonFungible + NonFungiblesOf(xs)
    decreases |xs|
  {
    if xs != [] {
      var init, last := xs[..|xs| - 1], xs[|xs| - 1];
      SubsumedAllMeaning(c, init, id);
      NonFungiblesOfSnoc(xs);
      MentionsFungibleSnoc(xs, id);
    }
  }

  lemma NonFungiblesOfSnoc(xs: seq<Asset>)
    requires xs != []
    ensures var init, last := xs[..|xs| - 1], xs[|xs| - 1];
            NonFungiblesOf(xs)
            == NonFungiblesOf(init) + (if last.fun.NonFungible? then {(last.id, last.fun.instance)} else {})
  {
    var init, last := xs[..|xs| - 1], xs[|xs| - 1];
    forall p | p in NonFungiblesOf(xs)
      ensures p in NonFungiblesOf(init) || (last.fun.NonFungible? && p == (last.id, last.fun.instance))
    {
      var i :| 0 <= i < |xs| && xs[i].fun.NonFungible? && p == (xs[i].id, xs[i].fun.instance);
      if i < |init| {
        assert init[i] == xs[i];
      }
    }
    forall p | p in NonFungiblesOf(init) ensures p in NonFungiblesOf(xs) {
      var i :| 0 <= i < |init| && init[i].fun.NonFungible? && p == (init[i].id, init[i].fun.instance);
      assert xs[i] == init[i];
    }
    if last.fun.NonFungible? {
      assert xs[|xs| - 1] == last;
    }
  }

  lemma MentionsFungibleSnoc(xs: seq<Asset>, id: AssetId)
    requires xs != []
    ensures var init, last := xs[..|xs| - 1], xs[|xs| - 1];
            MentionsFungible(xs, id) <==> MentionsFungible(init, id) || (last.id == id && last.fun.Fungible?)
  {
    var init, last := xs[..|xs| - 1], xs[|xs| - 1];
    if MentionsFungible(xs, id) && !(last.id == id && last.fun.Fungible?) {
      var i :| 0 <= i < |xs| && xs[i].id == id && xs[i].fun.Fungible?;
      assert init[i] == xs[i];
    }
    if MentionsFungible(init, id) {
      var i :| 0 <= i < |init| && init[i].id == id && init[i].fun.Fungible?;
      assert xs[i] == init[i];
    }
    if last.id == id && last.fun.Fungible? {
      assert xs[|xs| - 1] == last;
    }
  }

  lemma {:induction false} SubsumedAllAppend(c: Contents, xs: seq<Asset>, ys: seq<Asset>)
    ensures SubsumedAll(c, xs + ys) == SubsumedAll(SubsumedAll(c, xs), ys)
    decreases |ys|
  {
    if ys != [] {
      var init := ys[..|ys| - 1];
      assert (xs + ys)[..|xs + ys| - 1] == xs + init;
      assert (xs + ys)[|xs + ys| - 1] == ys[|ys| - 1];
      SubsumedAllAppend(c, xs, init);
    } else {
      assert xs + ys == xs;
    }
  }

  /** One fungible asset: the amount of its id becomes the saturating sum (or the amount itself
      for a new id); every other id and the non-fungibles are unchanged. */
  lemma SubsumeFungible(c: Contents, id: AssetId, amount: u128)
    ensures Subsumed(c, Asset(id, Fungible(amount))).fungible
            == c.fungible[id := if id in c.fungible then Min(c.fungible[id] + amount, U128_MAX) else amount]
    ensures Subsumed(c, Asset(id, Fungible(amount))).nonFungible == c.nonFungible
  {
  }

  /** One non-fungible asset is a set insertion: subsuming it again changes nothing. */
  lemma SubsumeNonFungibleTwice(c: Contents, id: AssetId, instance: AssetInstance)
    ensures var once := Subsumed(c, Asset(id, NonFungible(instance)));
            && once.nonFungible == c.nonFungible + {(id, instance)}
            && once.fungible == c.fungible
            && Subsumed(once, Asset(id, NonFungible(instance))) == once
  {
  }

  lemma SubsumedAllSnoc(c: Contents, xs: seq<Asset>, x: Asset)
    ensures SubsumedAll(c, xs + [x]) == Subsumed(SubsumedAll(c, xs), x)
  {
    assert (xs + [x])[..|xs|] == xs;
  }

  // ---- Merging two holdings ------------------------------------------------------------------

  /** Fungible entries of both maps, a colliding id holding the saturating sum. */
  function MergeFungible(f: map<AssetId, u128>, g: map<AssetId, u128>): map<AssetId, u128>
  {
    map k | k in f.Keys + g.Keys ::
      if k in f && k in g then SaturatingAdd(f[k], g[k]) else if k in f then f[k] else g[k]
  }

  lemma OnlyAll(m: map<AssetId, u128>)
    ensures Only(m, m.Keys) == m
  {
  }

  /** What `subsume_assets` promises: the saturating sum on every fungible id and the union of
      the non-fungibles. */
  function Merged(c: Contents, d: Contents): Contents
  {
    Contents(MergeFungible(c.fungible, d.fungible), c.nonFungible + d.nonFungible)
  }

  lemma MergedAmount(c: Contents, d: Contents, id: AssetId)
    ensures Amount(Merged(c, d), id) == SaturatingAdd(Amount(c, id), Amount(d, id))
    ensures id in Merged(c, d).fungible <==> id in c.fungible || id in d.fungible
  {
  }

  // ---- The fuller holding's two-cursor merge, as written ------------------------------------

  /** `AssetIdLess` or equal: `<=` on asset ids. */
  predicate AssetIdAtMost(a: AssetId, b: AssetId)
  {
    a == b || AssetIdLess(a, b)
  }

  /** The two-cursor loop of the fuller `subsume_assets`, from cursor `i` on the incoming keys
      `fs` and cursor `j` on the holding's own keys `gs` (both ascending): on equal keys the
      holding's amount `g` is accrued onto the incoming amount; then the incoming cursor moves on
      if its key is at most the other, and then the holding's cursor moves on if its key is at
      most the (possibly new) incoming key. The loop ends when a cursor runs out. The result is
      the incoming map with the accrued amounts. */
  function CursorAccrue(f: map<AssetId, u128>, fs: seq<AssetId>, gs: seq<AssetId>, g: map<AssetId, u128>, i: nat, j: nat)
    : (r: map<AssetId, u128>)
    requires i < |fs| && j < |gs|
    requires (forall k | k in fs :: k in f) && (forall k | k in gs :: k in g)
    ensures r.Keys == f.Keys
    decreases |fs| - i + |gs| - j
  {
    AssetIdOrder({fs[i], gs[j]});
    var f' := if fs[i] == gs[j] then f[fs[i] := SaturatingAdd(f[fs[i]], g[gs[j]])] else f;
    var i' := if AssetIdAtMost(fs[i], gs[j]) then i + 1 else i;
    if i' == |fs| then f'
    else if AssetIdAtMost(gs[j], fs[i']) then
      if j + 1 == |gs| then f' else CursorAccrue(f', fs, gs, g, i', j + 1)
    else
      CursorAccrue(f', fs, gs, g, i', j)
  }

  /** The fuller `subsume_assets` as written: after the loop, `append` moves every incoming entry
      into the holding, overwriting the holding's own amount for a shared id. */
  ghost function TwoCursorMerged(c: Contents, d: Contents): Contents
  {
    SortedIdsMembers(d.fungible.Keys);
    SortedIdsMembers(c.fungible.Keys);
    CursorMerged(c, d, SortedIds(d.fungible.Keys), SortedIds(c.fungible.Keys))
  }

  /** The same, given the incoming ids `fs` and the holding's ids `gs` as listed. */
  function CursorMerged(c: Contents, d: Contents, fs: seq<AssetId>, gs: seq<AssetId>): Contents
    requires (forall k | k in fs :: k in d.fungible) && (forall k | k in gs :: k in c.fungible)
  {
    var accrued := if |fs| > 0 && |gs| > 0 then CursorAccrue(d.fungible, fs, gs, c.fungible, 0, 0) else d.fungible;
    Contents(c.fungible + accrued, c.nonFungible + d.nonFungible)
  }

  lemma SortedPair(a: AssetId, b: AssetId)
    requires AssetIdLess(a, b)
    ensures SortedIds({a, b}) == [a, b]
  {
    AssetIdOrder({a, b});
    assert IsMinimum(AssetIdLess, a, {a, b});
    MinimumUnique(AssetIdLess, {a, b}, a);
    assert {a, b} - {a} == {b};
    SortedSingleton(AssetIdLess, b);
  }

  /** Counterexample to the two-cursor merge: the holding has 1 of `Parent` and takes in 1 of
      `Here` and 1 of `Parent`. The incoming cursor moves from `Here` onto `Parent`, and the
      holding's cursor then moves past `Parent` with nothing accrued, so `append` leaves 1 of
      `Parent` where the saturating sum is 2. */
  lemma TwoCursorLosesAmount()
    ensures var c := Contents(map[AssetId(Parent) := 1], {});
            var d := Contents(map[AssetId(Here) := 1, AssetId(Parent) := 1], {});
            && TwoCursorMerged(c, d).fungible[AssetId(Parent)] == 1
            && Merged(c, d).fungible[AssetId(Parent)] == 2
  {
    var here, parent := AssetId(Here), AssetId(Parent);
    var c := Contents(map[parent := 1], {});
    var d := Contents(map[here := 1, parent := 1], {});
    assert AssetIdLess(here, parent);
    assert d.fungible.Keys == {here, parent};
    assert c.fungible.Keys == {parent};
    SortedPair(here, parent);
    SortedSingleton(AssetIdLess, parent);
    assert CursorAccrue(d.fungible, [here, parent], [parent], c.fungible, 0, 0) == d.fungible;
  }

  /** The cursor loop changes only incoming entries at or after cursor `i`. */
  lemma {:induction false} CursorAccrueFrame(f: map<AssetId, u128>, fs: seq<AssetId>, gs: seq<AssetId>, g: map<AssetId, u128>, i: nat, j: nat, k: AssetId)
    requires i < |fs| && j < |gs|
    requires (forall x | x in fs :: x in f) && (forall x | x in gs :: x in g)
    requires k in f && k !in fs[i..]
    ensures CursorAccrue(f, fs, gs, g, i, j)[k] == f[k]
    decreases |fs| - i + |gs| - j
  {
    AssetIdOrder({fs[i], gs[j]});
    assert fs[i] in fs[i..];
    var f' := if fs[i] == gs[j] then f[fs[i] := SaturatingAdd(f[fs[i]], g[gs[j]])] else f;
    var i' := if AssetIdAtMost(fs[i], gs[j]) then i + 1 else i;
    if i' < |fs| {
      assert forall x | x in fs[i'..] :: x in fs[i..] by {
        assert fs[i..] == fs[i..i'] + fs[i'..];
      }
      if AssetIdAtMost(gs[j], fs[i']) {
        if j + 1 < |gs| {
          CursorAccrueFrame(f', fs, gs, g, i', j + 1, k);
        }
      } else {
        CursorAccrueFrame(f', fs, gs, g, i', j, k);
      }
    }
  }

  /** Over distinct incoming keys the loop accrues the holding's amount onto an incoming entry
      at most once: each entry ends as it was or with the holding's amount added. */
  lemma {:induction false} CursorAccrueOnce(f: map<AssetId, u128>, fs: seq<AssetId>, gs: seq<AssetId>, g: map<AssetId, u128>, i: nat, j: nat, k: AssetId)
    requires i < |fs| && j < |gs| && Distinct(fs)
    requires (forall x | x in fs :: x in f) && (forall x | x in gs :: x in g)
    requires k in f
    ensures var r := CursorAccrue(f, fs, gs, g, i, j);
            r[k] == f[k] || (k in g && r[k] == SaturatingAdd(f[k], g[k]))
    decreases |fs| - i + |gs| - j
  {
    AssetIdOrder({fs[i], gs[j]});
    var f' := if fs[i] == gs[j] then f[fs[i] := SaturatingAdd(f[fs[i]], g[gs[j]])] else f;
    var i' := if AssetIdAtMost(fs[i], gs[j]) then i + 1 else i;
    if fs[i] == gs[j] && fs[i] == k {
      if i' < |fs| {
        assert k !in fs[i'..] by {
          forall x | i' <= x < |fs| ensures fs[x] != k {
            assert fs[i] != fs[x];
          }
        }
        if AssetIdAtMost(gs[j], fs[i']) {
          if j + 1 < |gs| {
            CursorAccrueFrame(f', fs, gs, g, i', j + 1, k);
          }
        } else {
          CursorAccrueFrame(f', fs, gs, g, i', j, k);
        }
      }
    } else {
      assert f'[k] == f[k];
      if i' < |fs| {
        if AssetIdAtMost(gs[j], fs[i']) {
          if j + 1 < |gs| {
            CursorAccrueOnce(f', fs, gs, g, i', j + 1, k);
          }
        } else {
          CursorAccrueOnce(f', fs, gs, g, i', j, k);
        }
      }
    }
  }

  /** With no key in common the loop accrues nothing. */
  lemma {:induction false} CursorAccrueDisjoint(f: map<AssetId, u128>, fs: seq<AssetId>, gs: seq<AssetId>, g: map<AssetId, u128>, i: nat, j: nat)
    requires i < |fs| && j < |gs| && f.Keys !! g.Keys
    requires (forall x | x in fs :: x in f) && (forall x | x in gs :: x in g)
    ensures CursorAccrue(f, fs, gs, g, i, j) == f
    decreases |fs| - i + |gs| - j
  {
    AssetIdOrder({fs[i], gs[j]});
    assert fs[i] in f && gs[j] in g;
    var i' := if AssetIdAtMost(fs[i], gs[j]) then i + 1 else i;
    if i' < |fs| {
      if AssetIdAtMost(gs[j], fs[i']) {
        if j + 1 < |gs| {
          CursorAccrueDisjoint(f, fs, gs, g, i', j + 1);
        }
      } else {
        CursorAccrueDisjoint(f, fs, gs, g, i', j);
      }
    }
  }

  /** What the two-cursor merge does to each id: an id on one side only keeps that side's
      amount; a shared id ends with the saturating sum or, when the cursors pass it without
      meeting, with the incoming amount alone, never anything else. Every id of either side
      has an entry, and the non-fungibles are the union. */
  lemma TwoCursorMergedAmount(c: Contents, d: Contents, id: AssetId)
    ensures id in TwoCursorMerged(c, d).fungible <==> id in c.fungible || id in d.fungible
    ensures id in c.fungible && id !in d.fungible ==> Amount(TwoCursorMerged(c, d), id) == c.fungible[id]
    ensures id !in c.fungible && id in d.fungible ==> Amount(TwoCursorMerged(c, d), id) == d.fungible[id]
    ensures id in c.fungible && id in d.fungible ==>
              || Amount(TwoCursorMerged(c, d), id) == SaturatingAdd(c.fungible[id], d.fungible[id])
              || Amount(TwoCursorMerged(c, d), id) == d.fungible[id]
    ensures TwoCursorMerged(c, d).nonFungible == c.nonFungible + d.nonFungible
  {
    var fs, gs := SortedIds(d.fungible.Keys), SortedIds(c.fungible.Keys);
    SortedIdsMembers(d.fungible.Keys);
    SortedIdsMembers(c.fungible.Keys);
    if |fs| > 0 && |gs| > 0 && id in d.fungible {
      CursorAccrueOnce(d.fungible, fs, gs, c.fungible, 0, 0, id);
    }
  }

  /** Into an empty holding the two-cursor merge brings exactly the incoming contents. */
  lemma TwoCursorMergedIntoNothing(d: Contents)
    ensures TwoCursorMerged(Empty, d) == d
  {
    SortedIdsMembers(Empty.fungible.Keys);
    assert Empty.fungible + d.fungible == d.fungible;
  }

  /** The two-cursor merge has the ids and the non-fungibles of the merge `subsume_assets`
      promises. */
  lemma TwoCursorMergedKeys(c: Contents, d: Contents)
    ensures TwoCursorMerged(c, d).fungible.Keys == Merged(c, d).fungible.Keys
    ensures TwoCursorMerged(c, d).nonFungible == Merged(c, d).nonFungible
  {
    forall id ensures id in TwoCursorMerged(c, d).fungible <==> id in Merged(c, d).fungible {
      TwoCursorMergedAmount(c, d, id);
      MergedAmount(c, d, id);
    }
    TwoCursorMergedAmount(c, d, AssetId(Here));
  }

  /** With no fungible id in common, the two-cursor merge loses nothing: it is the merge
      `subsume_assets` promises. */
  lemma TwoCursorMergedDisjoint(c: Contents, d: Contents)
    requires c.fungible.Keys !! d.fungible.Keys
    ensures TwoCursorMerged(c, d) == Merged(c, d)
  {
    var fs, gs := SortedIds(d.fungible.Keys), SortedIds(c.fungible.Keys);
    SortedIdsMembers(d.fungible.Keys);
    SortedIdsMembers(c.fungible.Keys);
    var accrued := if |fs| > 0 && |gs| > 0 then CursorAccrue(d.fungible, fs, gs, c.fungible, 0, 0) else d.fungible;
    if |fs| > 0 && |gs| > 0 {
      CursorAccrueDisjoint(d.fungible, fs, gs, c.fungible, 0, 0);
    }
    assert accrued == d.fungible;
    DisjointUnionMerges(c.fungible, d.fungible);
  }

  lemma DisjointUnionMerges(f: map<AssetId, u128>, g: map<AssetId, u128>)
    requires f.Keys !! g.Keys
    ensures f + g == MergeFungible(f, g)
  {
    var m := MergeFungible(f, g);
    assert (f + g).Keys == m.Keys;
    forall k | k in m ensures (f + g)[k] == m[k] {
      if k in g {
        assert k !in f;
      }
    }
  }

  // ---- Listing the holding -------------------------------------------------------------------

  function FungibleAssets(f: map<AssetId, u128>, ks: seq<AssetId>): (r: seq<Asset>)
    requires forall k | k in ks :: k in f
    ensures |r| == |ks|
    decreases |ks|
  {
    if ks == [] then [] else FungibleAssets(f, ks[..|ks| - 1]) + [Asset(ks[|ks| - 1], Fungible(f[ks[|ks| - 1]]))]
  }

  function NonFungibleAssets(ps: seq<NonFungibleKey>): (r: seq<Asset>)
    ensures |r| == |ps|
    decreases |ps|
  {
    if ps == [] then [] else NonFungibleAssets(ps[..|ps| - 1]) + [Asset(ps[|ps| - 1].0, NonFungible(ps[|ps| - 1].1))]
  }

  lemma {:induction false} FungibleAssetsAt(f: map<AssetId, u128>, ks: seq<AssetId>)
    requires forall k | k in ks :: k in f
    ensures forall i | 0 <= i < |ks| :: FungibleAssets(f, ks)[i] == Asset(ks[i], Fungible(f[ks[i]]))
    decreases |ks|
  {
    if ks != [] {
      FungibleAssetsAt(f, ks[..|ks| - 1]);
    }
  }

  lemma {:induction false} NonFungibleAssetsAt(ps: seq<NonFungibleKey>)
    ensures forall i | 0 <= i < |ps| :: NonFungibleAssets(ps)[i] == Asset(ps[i].0, NonFungible(ps[i].1))
    decreases |ps|
  {
    if ps != [] {
      NonFungibleAssetsAt(ps[..|ps| - 1]);
    }
  }

  /** `into_assets_iter`: one asset per distinct entry. */
  ghost function AssetsOf(c: Contents): (r: seq<Asset>)
    ensures |r| == Count(c)
  {
    var ks := SortedIds(c.fungible.Keys);
    var ps := SortedNonFungibles(c.nonFungible);
    SortedIdsMembers(c.fungible.Keys);
    assert |c.fungible.Keys| == |c.fungible|;
    FungibleAssets(c.fungible, ks) + NonFungibleAssets(ps)
  }

  lemma ListingAt(f: map<AssetId, u128>, ks: seq<AssetId>, ps: seq<NonFungibleKey>, r: seq<Asset>)
    requires forall k | k in ks :: k in f
    requires r == FungibleAssets(f, ks) + NonFungibleAssets(ps)
    ensures && (forall i | 0 <= i < |ks| :: r[i] == Asset(ks[i], Fungible(f[ks[i]])))
            && (forall i | |ks| <= i < |r| :: r[i] == Asset(ps[i - |ks|].0, NonFungible(ps[i - |ks|].1)))
  {
    FungibleAssetsAt(f, ks);
    NonFungibleAssetsAt(ps);
  }

  /** What a listing of an enumeration of the fungible keys and of the non-fungible pairs
      holds, position by position. */
  lemma ListingEnumerates(c: Contents, ks: seq<AssetId>, ps: seq<NonFungibleKey>, r: seq<Asset>)
    requires Enumerates(ks, c.fungible.Keys) && Enumerates(ps, c.nonFungible)
    requires r == FungibleAssets(c.fungible, ks) + NonFungibleAssets(ps)
    ensures && (forall i | 0 <= i < |ks| ::
                  r[i].fun.Fungible? && r[i].id in c.fungible && r[i].fun.amount == c.fungible[r[i].id])
            && (forall id | id in c.fungible :: exists i | 0 <= i < |ks| :: r[i].id == id)
            && (forall i | |ks| <= i < |r| ::
                  r[i].fun.NonFungible? && (r[i].id, r[i].fun.instance) in c.nonFungible)
            && (forall p | p in c.nonFungible :: exists i | |ks| <= i < |r| :: r[i] == Asset(p.0, NonFungible(p.1)))
  {
    ListingAt(c.fungible, ks, ps, r);
    forall id | id in c.fungible ensures exists i | 0 <= i < |ks| :: r[i].id == id {
      var i :| 0 <= i < |ks| && ks[i] == id;
      assert r[i].id == id;
    }
    forall p | p in c.nonFungible ensures exists i | |ks| <= i < |r| :: r[i] == Asset(p.0, NonFungible(p.1)) {
      var j :| 0 <= j < |ps| && ps[j] == p;
      assert r[|ks| + j] == Asset(p.0, NonFungible(p.1));
    }
  }

  /** The listing starts with one asset per fungible entry, carrying its amount, and goes on
      with one asset per non-fungible pair. */
  lemma AssetsOfContents(c: Contents)
    ensures var r := AssetsOf(c);
            && (forall i | 0 <= i < |c.fungible| ::
                  r[i].fun.Fungible? && r[i].id in c.fungible && r[i].fun.amount == c.fungible[r[i].id])
            && (forall id | id in c.fungible :: exists i | 0 <= i < |c.fungible| :: r[i].id == id)
            && (forall i | |c.fungible| <= i < |r| ::
                  r[i].fun.NonFungible? && (r[i].id, r[i].fun.instance) in c.nonFungible)
            && (forall p | p in c.nonFungible ::
                  exists i | |c.fungible| <= i < |r| :: r[i] == Asset(p.0, NonFungible(p.1)))
  {
    var ks, ps := SortedIds(c.fungible.Keys), SortedNonFungibles(c.nonFungible);
    SortedIdsMembers(c.fungible.Keys);
    SortedNonFungiblesMembers(c.nonFungible);
    assert |c.fungible.Keys| == |c.fungible|;
    ListingEnumerates(c, ks, ps, AssetsOf(c));
  }

  /** The fungibles come in ascending id order, the iteration order of the holding's ordered
      map. */
  lemma AssetsOfFungiblesAscending(c: Contents)
    ensures forall i, j | 0 <= i < j < |c.fungible| :: AssetIdLess(AssetsOf(c)[i].id, AssetsOf(c)[j].id)
  {
    var ks := SortedIds(c.fungible.Keys);
    SortedIdsMembers(c.fungible.Keys);
    ListingAt(c.fungible, ks, SortedNonFungibles(c.nonFungible), AssetsOf(c));
    SortedIdsAscending(c.fungible.Keys);
  }

  /** From position `n` on, the listing holds non-fungibles in strictly ascending pair order. */
  predicate NonFungiblesAscendFrom(r: seq<Asset>, n: nat)
  {
    forall i, j | n <= i < j < |r| ::
      && r[i].fun.NonFungible? && r[j].fun.NonFungible?
      && NonFungibleLess((r[i].id, r[i].fun.instance), (r[j].id, r[j].fun.instance))
  }

  lemma ListingNonFungiblesAscending(f: map<AssetId, u128>, ks: seq<AssetId>, ps: seq<NonFungibleKey>, r: seq<Asset>, n: nat)
    requires forall k | k in ks :: k in f
    requires forall i, j | 0 <= i < j < |ps| :: NonFungibleLess(ps[i], ps[j])
    requires r == FungibleAssets(f, ks) + NonFungibleAssets(ps) && n == |ks|
    ensures NonFungiblesAscendFrom(r, n)
  {
    ListingAt(f, ks, ps, r);
    forall i, j | n <= i < j < |r|
      ensures && r[i].fun.NonFungible? && r[j].fun.NonFungible?
              && NonFungibleLess((r[i].id, r[i].fun.instance), (r[j].id, r[j].fun.instance))
    {
      assert NonFungibleLess(ps[i - |ks|], ps[j - |ks|]);
    }
  }

  /** The non-fungibles come in ascending pair order, the iteration order of the holding's
      ordered set. */
  lemma AssetsOfNonFungiblesAscending(c: Contents)
    ensures NonFungiblesAscendFrom(AssetsOf(c), |c.fungible|)
  {
    var ks, ps := SortedIds(c.fungible.Keys), SortedNonFungibles(c.nonFungible);
    SortedIdsMembers(c.fungible.Keys);
    assert |c.fungible.Keys| == |c.fungible|;
    SortedNonFungiblesAscending(c.nonFungible);
    ListingNonFungiblesAscending(c.fungible, ks, ps, AssetsOf(c), |c.fungible|);
  }

  lemma {:induction false} SubsumeFungibleList(c: Contents, g: map<AssetId, u128>, ks: seq<AssetId>)
    requires Distinct(ks) && forall k | k in ks :: k in g
    ensures SubsumedAll(c, FungibleAssets(g, ks))
            == Contents(MergeFungible(c.fungible, Only(g, Elements(ks))), c.nonFungible)
    decreases |ks|
  {
    if ks == [] {
      MergeNothing(c.fungible, g);
    } else {
      var init, k := ks[..|ks| - 1], ks[|ks| - 1];
      DistinctInit(ks);
      SubsumeFungibleList(c, g, init);
      SubsumeFungibleLast(c, g, init, k, ks);
    }
  }

  lemma MergeNothing(f: map<AssetId, u128>, g: map<AssetId, u128>)
    ensures MergeFungible(f, Only(g, {})) == f
  {
  }

  lemma SubsumeFungibleLast(c: Contents, g: map<AssetId, u128>, init: seq<AssetId>, k: AssetId, ks: seq<AssetId>)
    requires ks == init + [k]
    requires k in g && k !in Elements(init) && forall j | j in init :: j in g
    requires SubsumedAll(c, FungibleAssets(g, init))
             == Contents(MergeFungible(c.fungible, Only(g, Elements(init))), c.nonFungible)
    ensures SubsumedAll(c, FungibleAssets(g, ks))
            == Contents(MergeFungible(c.fungible, Only(g, Elements(ks))), c.nonFungible)
  {
    var x := Asset(k, Fungible(g[k]));
    FungibleAssetsSnoc(g, init, k);
    SubsumedAllSnoc(c, FungibleAssets(g, init), x);
    ElementsAppend(init, k);
    SubsumeIntoMerge(c, g, Elements(init), k);
  }

  lemma FungibleAssetsSnoc(g: map<AssetId, u128>, init: seq<AssetId>, k: AssetId)
    requires k in g && forall j | j in init :: j in g
    ensures FungibleAssets(g, init + [k]) == FungibleAssets(g, init) + [Asset(k, Fungible(g[k]))]
  {
    assert (init + [k])[..|init|] == init;
  }

  lemma ElementsAppend<T>(s: seq<T>, x: T)
    ensures Elements(s + [x]) == Elements(s) + {x}
  {
  }

  lemma SubsumeIntoMerge(c: Contents, g: map<AssetId, u128>, keys: set<AssetId>, k: AssetId)
    requires k in g && k !in keys
    ensures Subsumed(Contents(MergeFungible(c.fungible, Only(g, keys)), c.nonFungible), Asset(k, Fungible(g[k])))
            == Contents(MergeFungible(c.fungible, Only(g, keys + {k})), c.nonFungible)
  {
    MergeFungibleStep(c.fungible, g, keys, k);
  }

  lemma MergeFungibleStep(f: map<AssetId, u128>, g: map<AssetId, u128>, keys: set<AssetId>, k: AssetId)
    requires k in g && k !in keys
    ensures var before := MergeFungible(f, Only(g, keys));
            && (k in before <==> k in f)
            && (k in f ==> before[k] == f[k])
            && MergeFungible(f, Only(g, keys + {k}))
               == before[k := if k in f then SaturatingAdd(f[k], g[k]) else g[k]]
  {
    var before := MergeFungible(f, Only(g, keys));
    var lhs := MergeFungible(f, Only(g, keys + {k}));
    var rhs := before[k := if k in f then SaturatingAdd(f[k], g[k]) else g[k]];
    assert Only(g, keys + {k}) == Only(g, keys)[k := g[k]];
    assert lhs.Keys == rhs.Keys;
    forall x | x in lhs.Keys ensures lhs[x] == rhs[x] {
    }
  }

  lemma {:induction false} SubsumeNonFungibleList(c: Contents, ps: seq<NonFungibleKey>)
    ensures SubsumedAll(c, NonFungibleAssets(ps)) == Contents(c.fungible, c.nonFungible + Elements(ps))
    decreases |ps|
  {
    if ps != [] {
      var xs := NonFungibleAssets(ps);
      var init := ps[..|ps| - 1];
      assert xs[..|xs| - 1] == NonFungibleAssets(init);
      SubsumeNonFungibleList(c, init);
      ElementsSnoc(ps);
    }
  }

  /** Merging a holding in is the same as subsuming, one by one, the assets it lists. */
  lemma MergedIsSubsumingEach(c: Contents, d: Contents)
    ensures Merged(c, d) == SubsumedAll(c, AssetsOf(d))
  {
    var ks := SortedIds(d.fungible.Keys);
    var ps := SortedNonFungibles(d.nonFungible);
    SortedIdsMembers(d.fungible.Keys);
    SortedNonFungiblesMembers(d.nonFungible);
    SubsumedAllAppend(c, FungibleAssets(d.fungible, ks), NonFungibleAssets(ps));
    SubsumeFungibleList(c, d.fungible, ks);
    assert Only(d.fungible, Elements(ks)) == d.fungible;
    SubsumeNonFungibleList(SubsumedAll(c, FungibleAssets(d.fungible, ks)), ps);
    assert Elements(ps) == d.nonFungible;
  }

  /** Listing a holding and subsuming the list gives the holding back. */
  lemma HoldingOfAssetsOf(c: Contents)
    ensures HoldingOf(AssetsOf(c)) == c
  {
    MergedIsSubsumingEach(Empty, c);
    MergedIntoNothing(c);
  }

  lemma MergedIntoNothing(c: Contents)
    ensures Merged(Empty, c) == c
  {
    assert MergeFungible(map[], c.fungible) == c.fungible;
  }

  // ---- Taking definite assets ----------------------------------------------------------------

  /** One requested asset of a definite take, applied to `(remaining, taken)`: a fungible request
      removes the smaller of the requested and the held amount, deletes the entry when it
      reaches zero, and records a nonzero removal in `taken`; a non-fungible request moves the
      pair only if it is held. */
  function TakeOne(s: (Contents, Contents), a: Asset): (Contents, Contents)
  {
    var (rem, taken) := s;
    match a.fun
    case Fungible(amount) =>
      if a.id in rem.fungible then
        var held := rem.fungible[a.id];
        var moved := Min(amount, held);
        var rem' := if held - moved == 0 then rem.(fungible := rem.fungible - {a.id})
                    else rem.(fungible := rem.fungible[a.id := held - moved]);
        (rem', if moved > 0 then Subsumed(taken, Asset(a.id, Fungible(moved))) else taken)
      else
        (rem, taken)
    case NonFungible(instance) =>
      if (a.id, instance) in rem.nonFungible then
        (rem.(nonFungible := rem.nonFungible - {(a.id, instance)}), Subsumed(taken, a))
      else
        (rem, taken)
  }

  /** Taking the assets of a definite filter in list order: `(remaining, taken)`. */
  function TakenDefinite(c: Contents, xs: seq<Asset>): (Contents, Contents)
    decreases |xs|
  {
    if xs == [] then (c, Empty) else TakeOne(TakenDefinite(c, xs[..|xs| - 1]), xs[|xs| - 1])
  }

  lemma TakenDefiniteSnoc(c: Contents, xs: seq<Asset>, x: Asset)
    ensures TakenDefinite(c, xs + [x]) == TakeOne(TakenDefinite(c, xs), x)
  {
    assert (xs + [x])[..|xs|] == xs;
  }

  /** `remaining` and `taken` split `original`: per id the amounts add up, neither side has an
      id the original lacked, and the non-fungibles are partitioned. */
  ghost predicate Splits(original: Contents, remaining: Contents, taken: Contents)
  {
    && (forall id :: Amount(remaining, id) + Amount(taken, id) == Amount(original, id))
    && remaining.fungible.Keys <= original.fungible.Keys
    && taken.fungible.Keys <= original.fungible.Keys
    && remaining.nonFungible + taken.nonFungible == original.nonFungible
    && remaining.nonFungible !! taken.nonFungible
  }

  ghost predicate TakenNonzero(taken: Contents)
  {
    forall id | id in taken.fungible :: taken.fungible[id] > 0
  }

  /** Conservation of a definite take: what is taken plus what remains is the original, nothing
      is taken that was not held, and only nonzero amounts are recorded as taken. */
  lemma {:induction false} TakenDefiniteConserves(c: Contents, xs: seq<Asset>)
    ensures Splits(c, TakenDefinite(c, xs).0, TakenDefinite(c, xs).1)
    ensures TakenNonzero(TakenDefinite(c, xs).1)
    decreases |xs|
  {
    if xs != [] {
      var init, a := xs[..|xs| - 1], xs[|xs| - 1];
      TakenDefiniteConserves(c, init);
      var (rem, taken) := TakenDefinite(c, init);
      var (rem', taken') := TakeOne((rem, taken), a);
      if a.fun.Fungible? && a.id in rem.fungible {
        var held := rem.fungible[a.id];
        var moved := Min(a.fun.amount, held);
        assert Amount(rem, a.id) + Amount(taken, a.id) == Amount(c, a.id);
        forall id ensures Amount(rem', id) + Amount(taken', id) == Amount(c, id) {
          if id == a.id {
            assert Amount(rem', id) == held - moved;
            assert Amount(taken', id) == Amount(taken, id) + moved;
          } else {
            assert Amount(rem', id) == Amount(rem, id) && Amount(taken', id) == Amount(taken, id);
          }
        }
      }
    }
  }

  /** A single fungible request against `held`: removes `min(request, held)`, or nothing when
      the id is absent. */
  lemma TakeOneFungible(s: (Contents, Contents), id: AssetId, request: u128)
    ensures var (rem', taken') := TakeOne(s, Asset(id, Fungible(request)));
            var moved := if id in s.0.fungible then Min(request, s.0.fungible[id]) else 0;
            && Amount(rem', id) == Amount(s.0, id) - moved
            && (id in rem'.fungible <==> id in s.0.fungible && Amount(s.0, id) - moved > 0)
            && Amount(taken', id) == (if moved > 0 then SaturatingAdd(Amount(s.1, id), moved) else Amount(s.1, id))
            && rem'.nonFungible == s.0.nonFungible && taken'.nonFungible == s.1.nonFungible
  {
  }

  /** What a definite take leaves: of each id, the held amount less everything requested of it
      (never below zero), and of the non-fungibles, those not requested. */
  lemma {:induction false} TakenDefiniteRemaining(c: Contents, xs: seq<Asset>, id: AssetId)
    ensures Amount(TakenDefinite(c, xs).0, id) == Amount(c, id) - Min(Amount(c, id), FungibleTotal(xs, id))
    ensures TakenDefinite(c, xs).0.nonFungible == c.nonFungible - NonFungiblesOf(xs)
    decreases |xs|
  {
    if xs != [] {
      var init, a := xs[..|xs| - 1], xs[|xs| - 1];
      TakenDefiniteRemaining(c, init, id);
      var s := TakenDefinite(c, init);
      assert NonFungiblesOf(xs) == NonFungiblesOf(init) + (if a.fun.NonFungible? then {(a.id, a.fun.instance)} else {}) by {
        forall p | p in NonFungiblesOf(xs) ensures p in NonFungiblesOf(init) + (if a.fun.NonFungible? then {(a.id, a.fun.instance)} else {}) {
          var i :| 0 <= i < |xs| && xs[i].fun.NonFungible? && p == (xs[i].id, xs[i].fun.instance);
          if i < |init| {
            assert init[i] == xs[i];
          }
        }
        forall p | p in NonFungiblesOf(init) ensures p in NonFungiblesOf(xs) {
          var i :| 0 <= i < |init| && init[i].fun.NonFungible? && p == (init[i].id, init[i].fun.instance);
          assert xs[i] == init[i];
        }
      }
      if a.fun.Fungible? {
        TakeOneFungible(s, a.id, a.fun.amount);
      }
    }
  }

  /** What `saturating_take` of the short holding does: `Wild(All)` takes everything,
      a definite filter takes asset by asset, and any other filter panics. */
  function SaturatingTakeSpec(c: Contents, filter: AssetFilter): Run<(Contents, Contents)>
  {
    match filter
    case Wild(All) => Returned((Empty, c))
    case Definite(xs) => Returned(TakenDefinite(c, xs))
    case _ => Panicked
  }

  /** Whenever `saturating_take` returns, the remaining and taken parts split the holding. */
  lemma SaturatingTakeConserves(c: Contents, filter: AssetFilter)
    requires SaturatingTakeSpec(c, filter).Returned?
    ensures Splits(c, SaturatingTakeSpec(c, filter).value.0, SaturatingTakeSpec(c, filter).value.1)
  {
    if filter.Definite? {
      TakenDefiniteConserves(c, filter.assets);
    }
  }

  // ---- The fuller holding's takes ------------------------------------------------------------

  /** `ensure_contains`: every listed asset is wholly held, each checked on its own. */
  predicate ContainsAll(c: Contents, xs: seq<Asset>)
  {
    forall i | 0 <= i < |xs| :: Holds(c, xs[i])
  }

  /** One asset is wholly held: at least its amount of a fungible, or the very pair. */
  predicate Holds(c: Contents, a: Asset)
  {
    match a.fun
    case Fungible(amount) => a.id in c.fungible && c.fungible[a.id] >= amount
    case NonFungible(instance) => (a.id, instance) in c.nonFungible
  }

  /** Moving the fungible entries of `keys` and the non-fungible `pairs` out of a holding:
      `(remaining, taken)`. */
  function Partition(c: Contents, keys: set<AssetId>, pairs: set<NonFungibleKey>): (Contents, Contents)
  {
    (Contents(c.fungible - keys, c.nonFungible - pairs), Contents(Only(c.fungible, keys), c.nonFungible * pairs))
  }

  /** The first `n` entries of a listing that puts the fungible keys `ks` before the
      non-fungible pairs `ps`. */
  function PrefixSplit(c: Contents, ks: seq<AssetId>, ps: seq<NonFungibleKey>, n: nat): (Contents, Contents)
  {
    var tf := Min(n, |ks|);
    var tn := Min(n - tf, |ps|);
    Partition(c, Elements(ks[..tf]), Elements(ps[..tn]))
  }

  /** `AllCounted(n)` on a holding with more than `n` entries: the first `n` entries in
      iteration order are taken, fungibles before non-fungibles. */
  ghost function CountedSplit(c: Contents, n: nat): (Contents, Contents)
  {
    PrefixSplit(c, SortedIds(c.fungible.Keys), SortedNonFungibles(c.nonFungible), n)
  }

  /** `AllOf { fun: WildFungible, id }`: the whole entry of `id` is taken. */
  function FungibleOfSplit(c: Contents, id: AssetId): (Contents, Contents)
  {
    Partition(c, {id}, {})
  }

  /** The non-fungible pairs of class `id`, in iteration order. */
  function ClassPairs(ps: seq<NonFungibleKey>, id: AssetId): (r: seq<NonFungibleKey>)
    ensures forall p | p in r :: p in ps && p.0 == id
    ensures forall p | p in ps && p.0 == id :: p in r
    decreases |ps|
  {
    if ps == [] then []
    else ClassPairs(ps[..|ps| - 1], id) + (if ps[|ps| - 1].0 == id then [ps[|ps| - 1]] else [])
  }

  /** The first `limit` pairs of class `id` of the listing `ps` (all of them without a limit). */
  function ClassPrefixSplit(c: Contents, ps: seq<NonFungibleKey>, id: AssetId, limit: Option<nat>): (Contents, Contents)
  {
    var qs := ClassPairs(ps, id);
    Partition(c, {}, Elements(qs[..ClassCount(|qs|, limit)]))
  }

  /** How many of `n` candidates a limit lets through. */
  function ClassCount(n: nat, limit: Option<nat>): nat
  {
    if limit.Some? then Min(limit.value, n) else n
  }

  /** `AllOf { fun: WildNonFungible, id }` and its counted form: the first `limit` instances of
      class `id` in iteration order are taken (all of them when there is no limit). */
  ghost function ClassSplit(c: Contents, id: AssetId, limit: Option<nat>): (Contents, Contents)
  {
    ClassPrefixSplit(c, SortedNonFungibles(c.nonFungible), id, limit)
  }

  /** What `general_take` does: `None` is the error of a non-saturating take of a definite
      filter that is not wholly held. */
  ghost function GeneralTakeSpec(c: Contents, mask: AssetFilter, saturate: bool): Option<(Contents, Contents)>
  {
    match mask
    case Wild(All) => Some((Empty, c))
    case Wild(AllCounted(n)) => if Count(c) <= n then Some((Empty, c)) else Some(CountedSplit(c, n))
    case Wild(AllOf(id, WildFungible)) => Some(FungibleOfSplit(c, id))
    case Wild(AllOfCounted(id, WildFungible, n)) => if n >= 1 then Some(FungibleOfSplit(c, id)) else Some((c, Empty))
    case Wild(AllOf(id, WildNonFungible)) => Some(ClassSplit(c, id, None))
    case Wild(AllOfCounted(id, WildNonFungible, n)) => Some(ClassSplit(c, id, Some(n)))
    case Definite(xs) => if !saturate && !ContainsAll(c, xs) then None else Some(TakenDefinite(c, xs))
  }

  lemma {:induction false} DistinctPrefixCard<T>(s: seq<T>, n: nat)
    requires Distinct(s) && n <= |s|
    ensures |Elements(s[..n])| == n
    decreases n
  {
    if n > 0 {
      DistinctPrefixCard(s, n - 1);
      ElementsSnoc(s[..n]);
      assert s[..n][..n - 1] == s[..n - 1];
      assert s[n - 1] !in Elements(s[..n - 1]);
    }
  }

  /** A partition splits the holding, and moves whole entries: no fungible id ends up on both
      sides. */
  lemma PartitionSplits(c: Contents, keys: set<AssetId>, pairs: set<NonFungibleKey>)
    ensures Splits(c, Partition(c, keys, pairs).0, Partition(c, keys, pairs).1)
    ensures Partition(c, keys, pairs).0.fungible.Keys !! Partition(c, keys, pairs).1.fungible.Keys
  {
    var (rem, taken) := Partition(c, keys, pairs);
    forall id ensures Amount(rem, id) + Amount(taken, id) == Amount(c, id) {
    }
  }

  lemma OnlySubsetCard(m: map<AssetId, u128>, keys: set<AssetId>)
    requires keys <= m.Keys
    ensures |Only(m, keys)| == |keys|
  {
    assert Only(m, keys).Keys == keys;
  }

  lemma PrefixSplitSplits(c: Contents, ks: seq<AssetId>, ps: seq<NonFungibleKey>, n: nat)
    ensures Splits(c, PrefixSplit(c, ks, ps, n).0, PrefixSplit(c, ks, ps, n).1)
  {
    var tf := Min(n, |ks|);
    PartitionSplits(c, Elements(ks[..tf]), Elements(ps[..Min(n - tf, |ps|)]));
  }

  lemma PrefixSplitCount(c: Contents, ks: seq<AssetId>, ps: seq<NonFungibleKey>, n: nat)
    requires Enumerates(ks, c.fungible.Keys) && Enumerates(ps, c.nonFungible)
    requires Count(c) > n
    ensures Count(PrefixSplit(c, ks, ps, n).1) == n
  {
    var tf := Min(n, |ks|);
    var tn := Min(n - tf, |ps|);
    var keys := Elements(ks[..tf]);
    var pairs := Elements(ps[..tn]);
    DistinctPrefixCard(ks, tf);
    DistinctPrefixCard(ps, tn);
    assert keys <= c.fungible.Keys;
    OnlySubsetCard(c.fungible, keys);
    assert pairs <= c.nonFungible;
    assert c.nonFungible * pairs == pairs;
    EnumerationCard(ks, c.fungible.Keys);
    EnumerationCard(ps, c.nonFungible);
    assert |c.fungible.Keys| == |c.fungible|;
  }

  lemma PrefixSplitFungiblesFirst(c: Contents, ks: seq<AssetId>, ps: seq<NonFungibleKey>, n: nat)
    requires Enumerates(ks, c.fungible.Keys)
    ensures PrefixSplit(c, ks, ps, n).1.nonFungible != {} ==> PrefixSplit(c, ks, ps, n).0.fungible == map[]
  {
    var tf := Min(n, |ks|);
    if Min(n - tf, |ps|) > 0 {
      assert ks[..tf] == ks;
      assert c.fungible - Elements(ks) == map[];
    }
  }

  lemma EnumerationCard<T>(r: seq<T>, s: set<T>)
    requires Enumerates(r, s)
    ensures |r| == |s|
  {
    assert Elements(r) == s;
    DistinctPrefixCard(r, |r|);
    assert r[..|r|] == r;
  }

  /** A counted take of `n` entries from a larger holding splits the holding, takes exactly `n`
      entries, and takes a non-fungible only once every fungible entry has been taken. */
  lemma CountedSplitMeaning(c: Contents, n: nat)
    requires Count(c) > n
    ensures Splits(c, CountedSplit(c, n).0, CountedSplit(c, n).1)
    ensures Count(CountedSplit(c, n).1) == n
    ensures CountedSplit(c, n).1.nonFungible != {} ==> CountedSplit(c, n).0.fungible == map[]
  {
    SortedIdsMembers(c.fungible.Keys);
    SortedNonFungiblesMembers(c.nonFungible);
    var ks, ps := SortedIds(c.fungible.Keys), SortedNonFungibles(c.nonFungible);
    PrefixSplitSplits(c, ks, ps, n);
    PrefixSplitCount(c, ks, ps, n);
    PrefixSplitFungiblesFirst(c, ks, ps, n);
  }

  /** `AllOf { fun: WildFungible, id }` moves the entry of `id`, and only it. */
  lemma FungibleOfSplitMeaning(c: Contents, id: AssetId)
    ensures Splits(c, FungibleOfSplit(c, id).0, FungibleOfSplit(c, id).1)
    ensures FungibleOfSplit(c, id).1.fungible.Keys <= {id}
    ensures FungibleOfSplit(c, id).1.nonFungible == {}
    ensures id !in FungibleOfSplit(c, id).0.fungible
    ensures Amount(FungibleOfSplit(c, id).1, id) == Amount(c, id)
  {
    PartitionSplits(c, {id}, {});
  }

  lemma ClassPrefixSplitMeaning(c: Contents, ps: seq<NonFungibleKey>, id: AssetId, limit: Option<nat>)
    requires Enumerates(ps, c.nonFungible)
    ensures Splits(c, ClassPrefixSplit(c, ps, id, limit).0, ClassPrefixSplit(c, ps, id, limit).1)
    ensures forall p | p in ClassPrefixSplit(c, ps, id, limit).1.nonFungible :: p.0 == id
    ensures ClassPrefixSplit(c, ps, id, limit).0.fungible == c.fungible
    ensures ClassPrefixSplit(c, ps, id, limit).1.fungible == map[]
    ensures limit.None? ==> forall p | p in ClassPrefixSplit(c, ps, id, limit).0.nonFungible :: p.0 != id
    ensures limit.Some? ==> |ClassPrefixSplit(c, ps, id, limit).1.nonFungible| <= limit.value
  {
    var qs := ClassPairs(ps, id);
    var k := ClassCount(|qs|, limit);
    var pairs := Elements(qs[..k]);
    PartitionSplits(c, {}, pairs);
    assert Only(c.fungible, {}) == map[];
    assert c.fungible - {} == c.fungible;
    assert pairs <= c.nonFungible;
    if limit.None? {
      assert qs[..k] == qs;
    } else {
      ElementsCard(qs[..k]);
      assert c.nonFungible * pairs == pairs;
    }
  }

  /** The class-restricted take moves non-fungibles of class `id` only, as many as the limit
      allows (all of them without a limit), and leaves the fungibles alone. */
  lemma ClassSplitMeaning(c: Contents, id: AssetId, limit: Option<nat>)
    ensures Splits(c, ClassSplit(c, id, limit).0, ClassSplit(c, id, limit).1)
    ensures forall p | p in ClassSplit(c, id, limit).1.nonFungible :: p.0 == id
    ensures ClassSplit(c, id, limit).0.fungible == c.fungible
    ensures ClassSplit(c, id, limit).1.fungible == map[]
    ensures limit.None? ==> forall p | p in ClassSplit(c, id, limit).0.nonFungible :: p.0 != id
    ensures limit.Some? ==> |ClassSplit(c, id, limit).1.nonFungible| <= limit.value
  {
    SortedNonFungiblesMembers(c.nonFungible);
    ClassPrefixSplitMeaning(c, SortedNonFungibles(c.nonFungible), id, limit);
  }

  lemma {:induction false} ElementsCard<T>(s: seq<T>)
    ensures |Elements(s)| <= |s|
    decreases |s|
  {
    if s != [] {
      ElementsCard(s[..|s| - 1]);
      ElementsSnoc(s);
    }
  }

  // ---- Steps of the take loops ---------------------------------------------------------------

  lemma OnlyInsert(m: map<AssetId, u128>, keys: set<AssetId>, k: AssetId)
    requires k in m
    ensures Only(m, keys + {k}) == Only(m, keys)[k := m[k]]
  {
  }

  lemma OnlyMinus(m: map<AssetId, u128>, keys: set<AssetId>)
    ensures Only(m, m.Keys - keys) == m - keys
  {
  }

  /** One more element of a listing without repetitions under a count-limited take: while
      fewer than `n` are taken it joins the taken prefix, afterwards the kept rest. */
  /** One step of a counted loop over a list without repetitions, on the set `moved` of what
      went into the counted part and the set `kept` of what stayed. */
  lemma CountedSetStep<T>(s: seq<T>, i: nat, budget: nat, moved: set<T>, kept: set<T>)
    requires Distinct(s) && i < |s|
    requires moved == Elements(s[..Min(budget, i)]) && |moved| == Min(budget, i)
    requires kept == Elements(s[..i]) - moved
    ensures |moved| < budget ==>
              && moved + {s[i]} == Elements(s[..Min(budget, i + 1)])
              && |moved + {s[i]}| == Min(budget, i + 1)
              && kept == Elements(s[..i + 1]) - (moved + {s[i]})
    ensures |moved| >= budget ==>
              && moved == Elements(s[..Min(budget, i + 1)])
              && |moved| == Min(budget, i + 1)
              && kept + {s[i]} == Elements(s[..i + 1]) - moved
  {
    CountedPrefixStep(s, i, budget);
  }

  lemma CountedPrefixStep<T>(s: seq<T>, i: nat, n: nat)
    requires Distinct(s) && i < |s|
    ensures var t, t' := Min(n, i), Min(n, i + 1);
            var rest, rest' := Elements(s[..i]) - Elements(s[..t]), Elements(s[..i + 1]) - Elements(s[..t']);
            if t < n then
              t' == t + 1 && s[i] !in Elements(s[..t])
              && Elements(s[..t']) == Elements(s[..t]) + {s[i]} && rest' == rest
            else
              t' == t && s[i] !in Elements(s[..t]) && rest' == rest + {s[i]}
  {
    DistinctStep(s, i);
    var t := Min(n, i);
    assert s[..i][..t] == s[..t];
    assert Elements(s[..t]) <= Elements(s[..i]);
    if t < n {
      assert t == i;
    }
  }

  /** One more pair of a listing without repetitions under the class-restricted take: it is
      taken when it is of class `id` and the limit is not yet reached. */
  lemma ClassStepTaken(ps: seq<NonFungibleKey>, id: AssetId, limit: Option<nat>, j: nat)
    requires Distinct(ps) && j < |ps|
    requires ps[j].0 == id && (limit.None? || ClassCount(|ClassPairs(ps[..j], id)|, limit) < limit.value)
    ensures var q, q' := ClassPairs(ps[..j], id), ClassPairs(ps[..j + 1], id);
            var k, k' := ClassCount(|q|, limit), ClassCount(|q'|, limit);
            && k' == k + 1 && ps[j] !in Elements(q[..k])
            && Elements(q'[..k']) == Elements(q[..k]) + {ps[j]}
            && Elements(ps[..j + 1]) - Elements(q'[..k']) == Elements(ps[..j]) - Elements(q[..k])
  {
    var p := ps[j];
    DistinctStep(ps, j);
    assert ps[..j + 1][..j] == ps[..j];
    var q, q' := ClassPairs(ps[..j], id), ClassPairs(ps[..j + 1], id);
    var k := ClassCount(|q|, limit);
    assert q' == q + [p];
    assert k == |q| && q[..k] == q;
    assert q'[..k + 1] == q + [p];
    assert p !in Elements(q);
  }

  /** Any other pair is kept. */
  lemma ClassStepKept(ps: seq<NonFungibleKey>, id: AssetId, limit: Option<nat>, j: nat)
    requires Distinct(ps) && j < |ps|
    requires !(ps[j].0 == id && (limit.None? || ClassCount(|ClassPairs(ps[..j], id)|, limit) < limit.value))
    ensures var q, q' := ClassPairs(ps[..j], id), ClassPairs(ps[..j + 1], id);
            var k, k' := ClassCount(|q|, limit), ClassCount(|q'|, limit);
            && k' == k && Elements(q'[..k']) == Elements(q[..k])
            && Elements(ps[..j + 1]) - Elements(q'[..k']) == (Elements(ps[..j]) - Elements(q[..k])) + {ps[j]}
  {
    var p := ps[j];
    DistinctStep(ps, j);
    assert ps[..j + 1][..j] == ps[..j];
    var q, q' := ClassPairs(ps[..j], id), ClassPairs(ps[..j + 1], id);
    var k := ClassCount(|q|, limit);
    assert Elements(q[..k]) <= Elements(ps[..j]) by {
      forall x | x in Elements(q[..k]) ensures x in Elements(ps[..j]) {
        assert x in q;
      }
    }
    if p.0 == id {
      assert q' == q + [p];
      assert k == limit.value && k <= |q|;
      assert q'[..k] == q[..k];
    } else {
      assert q' == q;
    }
  }

  /** The state after the two counted loops is the counted split. */
  lemma PrefixSplitState(c: Contents, ks: seq<AssetId>, ps: seq<NonFungibleKey>, n: nat)
    requires Enumerates(ks, c.fungible.Keys) && Enumerates(ps, c.nonFungible)
    ensures var tf := Min(n, |ks|);
            var tn := Min(n - tf, |ps|);
            PrefixSplit(c, ks, ps, n)
            == (Contents(Only(c.fungible, Elements(ks) - Elements(ks[..tf])), Elements(ps) - Elements(ps[..tn])),
                Contents(Only(c.fungible, Elements(ks[..tf])), Elements(ps[..tn])))
  {
    var tf := Min(n, |ks|);
    var tn := Min(n - tf, |ps|);
    assert Elements(ks) == c.fungible.Keys;
    OnlyMinus(c.fungible, Elements(ks[..tf]));
    assert Elements(ps) == c.nonFungible;
    assert Elements(ps[..tn]) <= Elements(ps) by {
      forall x | x in Elements(ps[..tn]) ensures x in Elements(ps) {
        assert x in ps;
      }
    }
    var split := PrefixSplit(c, ks, ps, n);
    assert split.0.nonFungible == Elements(ps) - Elements(ps[..tn]);
    assert split.1.nonFungible == Elements(ps[..tn]);
    assert split.0.fungible == Only(c.fungible, Elements(ks) - Elements(ks[..tf]));
  }

  /** The state after the class loop is the class split. */
  lemma ClassPrefixSplitState(c: Contents, ps: seq<NonFungibleKey>, id: AssetId, limit: Option<nat>)
    requires Enumerates(ps, c.nonFungible)
    ensures var qs := ClassPairs(ps, id);
            var taken := Elements(qs[..ClassCount(|qs|, limit)]);
            ClassPrefixSplit(c, ps, id, limit) == (Contents(c.fungible, Elements(ps) - taken), Contents(map[], taken))
  {
    var qs := ClassPairs(ps, id);
    var taken := Elements(qs[..ClassCount(|qs|, limit)]);
    assert Elements(ps) == c.nonFungible;
    assert taken <= Elements(ps) by {
      forall x | x in taken ensures x in Elements(ps) {
        assert x in qs;
      }
    }
    assert Only(c.fungible, {}) == map[];
    assert c.fungible - {} == c.fungible;
    var split := ClassPrefixSplit(c, ps, id, limit);
    assert split.0.nonFungible == Elements(ps) - taken;
    assert split.1.nonFungible == taken;
  }

  /** With `saturate`, and on a wildcard, `general_take` never fails; without `saturate`, a
      definite filter fails exactly when it is not wholly held. */
  lemma GeneralTakeFails(c: Contents, mask: AssetFilter, saturate: bool)
    ensures saturate ==> GeneralTakeSpec(c, mask, saturate).Some?
    ensures mask.Wild? ==> GeneralTakeSpec(c, mask, saturate).Some?
    ensures mask.Definite? && !saturate ==>
              (GeneralTakeSpec(c, mask, saturate).None? <==> !ContainsAll(c, mask.assets))
  {
  }

  /** Taking everything, or nothing, splits the holding. */
  lemma SplitsTrivially(c: Contents)
    ensures Splits(c, Empty, c) && Splits(c, c, Empty)
  {
  }

  /** Whenever `general_take` succeeds, the two parts split the holding. */
  lemma GeneralTakeSplits(c: Contents, mask: AssetFilter, saturate: bool)
    requires GeneralTakeSpec(c, mask, saturate).Some?
    ensures Splits(c, GeneralTakeSpec(c, mask, saturate).value.0, GeneralTakeSpec(c, mask, saturate).value.1)
  {
    var r := GeneralTakeSpec(c, mask, saturate).value;
    match mask
    case Wild(All) =>
      assert r == (Empty, c);
      SplitsTrivially(c);
    case Wild(AllCounted(n)) =>
      if Count(c) > n {
        assert r == CountedSplit(c, n);
        CountedSplitMeaning(c, n);
      } else {
        assert r == (Empty, c);
        SplitsTrivially(c);
      }
    case Wild(AllOf(id, WildFungible)) =>
      assert r == FungibleOfSplit(c, id);
      FungibleOfSplitMeaning(c, id);
    case Wild(AllOfCounted(id, WildFungible, n)) =>
      if n >= 1 {
        assert r == FungibleOfSplit(c, id);
        FungibleOfSplitMeaning(c, id);
      } else {
        assert r == (c, Empty);
        SplitsTrivially(c);
      }
    case Wild(AllOf(id, WildNonFungible)) =>
      assert r == ClassSplit(c, id, None);
      ClassSplitMeaning(c, id, None);
    case Wild(AllOfCounted(id, WildNonFungible, n)) =>
      assert r == ClassSplit(c, id, Some(n));
      ClassSplitMeaning(c, id, Some(n));
    case Definite(xs) =>
      assert r == TakenDefinite(c, xs);
      TakenDefiniteConserves(c, xs);
  }

  // ---- The holding's worked examples -------------------------------------------------------

  /** A fungible of `amount` units of the local asset. */
  function ConcreteFungible(amount: u128): Asset
  {
    Asset(AssetId(Here), Fungible(amount))
  }

  /** A non-fungible of the local class whose instance is four bytes equal to `b`. */
  function ConcreteNonFungible(b: u8): Asset
  {
    Asset(AssetId(Here), NonFungible(Array4(b * 0x0101_0101)))
  }

  /** Subsuming `[CF(300), CNF(40), CF(300), CNF(40)]` adds the fungibles up and keeps one copy
      of the non-fungible; the listing is `[CF(600), CNF(40)]`. */
  lemma AssetsIntoExample()
    ensures HoldingOf([ConcreteFungible(300), ConcreteNonFungible(40), ConcreteFungible(300), ConcreteNonFungible(40)])
            == Contents(map[AssetId(Here) := 600], {(AssetId(Here), Array4(0x2828_2828))})
    ensures AssetsOf(Contents(map[AssetId(Here) := 600], {(AssetId(Here), Array4(0x2828_2828))}))
            == [ConcreteFungible(600), ConcreteNonFungible(40)]
  {
    var f, n := ConcreteFungible(300), ConcreteNonFungible(40);
    var pair := (AssetId(Here), Array4(0x2828_2828));
    SubsumedAllSnoc(Empty, [], f);
    SubsumedAllSnoc(Empty, [f], n);
    SubsumedAllSnoc(Empty, [f, n], f);
    SubsumedAllSnoc(Empty, [f, n, f], n);
    assert SubsumedAll(Empty, [f, n]) == Contents(map[AssetId(Here) := 300], {pair});
    assert [f, n] + [f] == [f, n, f] && [f, n, f] + [n] == [f, n, f, n];
    assert Subsumed(Contents(map[AssetId(Here) := 300], {pair}), f).fungible
           == map[AssetId(Here) := 300][AssetId(Here) := SaturatingAdd(300, 300)];
    assert map[AssetId(Here) := 300][AssetId(Here) := 600] == map[AssetId(Here) := 600];
    var c := Contents(map[AssetId(Here) := 600], {(AssetId(Here), Array4(0x2828_2828))});
    assert c.fungible.Keys == {AssetId(Here)};
    SortedSingleton(AssetIdLess, AssetId(Here));
    SortedSingleton(NonFungibleLess, (AssetId(Here), Array4(0x2828_2828)));
  }

  /** Taking nothing takes nothing; taking `All` takes everything; taking `[CF(600), CNF(40)]`
      from `{CF(300), CNF(40)}` takes `[CF(300), CNF(40)]` and leaves nothing. */
  lemma SaturatingTakeExamples()
    ensures var held := Contents(map[AssetId(Here) := 300], {(AssetId(Here), Array4(0x2828_2828))});
            && SaturatingTakeSpec(held, Definite([])) == Returned((held, Empty))
            && SaturatingTakeSpec(held, Wild(All)) == Returned((Empty, held))
            && SaturatingTakeSpec(held, Definite([ConcreteFungible(600), ConcreteNonFungible(40)]))
               == Returned((Empty, held))
            && AssetsOf(held) == [ConcreteFungible(300), ConcreteNonFungible(40)]
  {
    var held := Contents(map[AssetId(Here) := 300], {(AssetId(Here), Array4(0x2828_2828))});
    var f, n := ConcreteFungible(600), ConcreteNonFungible(40);
    TakenDefiniteSnoc(held, [], f);
    TakenDefiniteSnoc(held, [f], n);
    assert TakenDefinite(held, [f]) == (Contents(map[], held.nonFungible), Contents(map[AssetId(Here) := 300], {}));
    assert held.fungible.Keys == {AssetId(Here)};
    SortedSingleton(AssetIdLess, AssetId(Here));
    SortedSingleton(NonFungibleLess, (AssetId(Here), Array4(0x2828_2828)));
  }
}

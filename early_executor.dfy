/** The early XCM executor written beside the fuller holding register: it handles
    `WithdrawAsset`, `DepositAsset` and `TransferAsset` and panics on anything else, and its
    message loop is called `execute`. Its deposit takes with the fuller holding's
    `saturating_take`, which understands every wildcard and never fails. Withdrawn assets are
    merged with the register's two-cursor `subsume_assets`, which can lose the holding's amount
    of an id the withdrawal brings again. */
module EarlyExecutor {
  import opened Xcm
  import opened HoldingSpec
  import opened Holding
  import opened Env
  import opened Vm
  import Executor

  /** `DepositAsset` over the fuller holding: the filter's worth, wildcards included, is taken
      and deposited asset by asset; a transactional processor restores the holding and the
      ledger when a deposit fails. */
  ghost function DepositStep(isTransactional: bool, answer: Oracle, m: VmState, filter: AssetFilter, beneficiary: Location)
    : Executor.Stepped
  {
    GeneralTakeFails(m.holding, filter, true);
    var take := GeneralTakeSpec(m.holding, filter, true).value;
    var body := AttemptAll(answer, m.ledger, Deposits(AssetsOf(take.1), beneficiary));
    var restore := isTransactional && body.1.Some?;
    (m.(holding := if restore then m.holding else take.0,
        ledger := Transact(isTransactional, m.ledger, body)), body.1)
  }

  /** `WithdrawAsset`: the withdrawals from the origin in one transaction, then the withdrawn
      assets merged into the holding by the two-cursor `subsume_assets`. */
  ghost function WithdrawStep(isTransactional: bool, answer: Oracle, m: VmState, assets: seq<Asset>): Executor.Stepped
  {
    if m.context.origin.None? then (m, Some(BadOrigin))
    else
      var body := AttemptAll(answer, m.ledger, Withdrawals(assets, m.context.origin.value));
      var ledger := Transact(isTransactional, m.ledger, body);
      if body.1.None? then (m.(holding := TwoCursorMerged(m.holding, HoldingOf(assets)), ledger := ledger), None)
      else (m.(ledger := ledger), body.1)
  }

  /** `process_instruction` of the early executor. */
  ghost function Step(isTransactional: bool, answer: Oracle, m: VmState, instr: Instruction): Run<Executor.Stepped>
  {
    match instr
    case WithdrawAsset(assets) => Returned(WithdrawStep(isTransactional, answer, m, assets))
    case DepositAsset(filter, beneficiary) => Returned(DepositStep(isTransactional, answer, m, filter, beneficiary))
    case TransferAsset(assets, beneficiary) => Returned(Executor.TransferStep(isTransactional, answer, m, assets, beneficiary))
    case _ => Panicked
  }

  /** `execute` of the early executor: the instructions in order, up to the first that fails. */
  ghost function Processed(isTransactional: bool, answer: Oracle, m: VmState, xs: seq<Instruction>): Run<Executor.Stepped>
    decreases |xs|
  {
    if xs == [] then Returned((m, None))
    else
      match Step(isTransactional, answer, m, xs[0])
      case Panicked => Panicked
      case Returned((m', e)) => if e.Some? then Returned((m', e)) else Processed(isTransactional, answer, m', xs[1..])
  }

  /** One instruction of the loop: a step that returns continues with the rest of the message
      unless it failed, and a panic ends the whole run. */
  lemma ProcessedStep(isTransactional: bool, answer: Oracle, m: VmState, xs: seq<Instruction>, i: nat, m': VmState, e: Option<XcmError>)
    requires i < |xs| && Step(isTransactional, answer, m, xs[i]) == Returned((m', e))
    ensures e.Some? ==> Processed(isTransactional, answer, m, xs[i..]) == Returned((m', e))
    ensures e.None? ==> Processed(isTransactional, answer, m, xs[i..]) == Processed(isTransactional, answer, m', xs[i + 1..])
  {
    assert xs[i..][0] == xs[i] && xs[i..][1..] == xs[i + 1..];
  }

  lemma ProcessedPanics(isTransactional: bool, answer: Oracle, m: VmState, xs: seq<Instruction>, i: nat)
    requires i < |xs| && Step(isTransactional, answer, m, xs[i]).Panicked?
    ensures Processed(isTransactional, answer, m, xs[i..]).Panicked?
  {
    assert xs[i..][0] == xs[i];
  }

  // ---- Properties ----------------------------------------------------------------------------

  /** Only the three instructions are implemented. */
  lemma UnsupportedPanics(isTransactional: bool, answer: Oracle, m: VmState, instr: Instruction)
    ensures Step(isTransactional, answer, m, instr).Panicked?
            <==> !(instr.WithdrawAsset? || instr.DepositAsset? || instr.TransferAsset?)
  {
  }

  /** A deposit succeeds iff every deposit of the taken assets succeeds; then the holding keeps
      what the take left, and the ledger records one deposit per taken asset. A failed deposit
      on a transactional processor restores the whole state. */
  lemma DepositMeaning(isTransactional: bool, answer: Oracle, m: VmState, filter: AssetFilter, beneficiary: Location)
    ensures GeneralTakeSpec(m.holding, filter, true).Some?
    ensures var (m', e) := DepositStep(isTransactional, answer, m, filter, beneficiary);
            var (rest, taken) := GeneralTakeSpec(m.holding, filter, true).value;
            var calls := Deposits(AssetsOf(taken), beneficiary);
            var k := Succeeding(answer, m.ledger, calls);
            && m'.context == m.context
            && (e.None? <==> k == |calls|)
            && (e.None? ==> m'.holding == rest && m'.ledger == m.ledger + calls)
            && (e.Some? && isTransactional ==> m' == m)
            && (e.Some? && !isTransactional ==> m'.holding == rest && m'.ledger == m.ledger + calls[..k])
  {
    GeneralTakeFails(m.holding, filter, true);
    var taken := GeneralTakeSpec(m.holding, filter, true).value.1;
    var calls := Deposits(AssetsOf(taken), beneficiary);
    AttemptAllMeaning(answer, m.ledger, calls);
    assert calls[..|calls|] == calls;
  }

  /** The deposit conserves the holding: the rest and the deposited part split it, and the
      deposited assets are exactly the part taken. */
  lemma DepositConserves(m: VmState, filter: AssetFilter)
    ensures GeneralTakeSpec(m.holding, filter, true).Some?
    ensures var (rest, taken) := GeneralTakeSpec(m.holding, filter, true).value;
            && Splits(m.holding, rest, taken)
            && HoldingOf(AssetsOf(taken)) == taken
  {
    GeneralTakeFails(m.holding, filter, true);
    GeneralTakeSplits(m.holding, filter, true);
    HoldingOfAssetsOf(GeneralTakeSpec(m.holding, filter, true).value.1);
  }

  /** A deposit brings no new id into the holding. */
  lemma DepositKeeps(isTransactional: bool, answer: Oracle, m: VmState, filter: AssetFilter, beneficiary: Location)
    ensures DepositStep(isTransactional, answer, m, filter, beneficiary).0.holding.fungible.Keys <= m.holding.fungible.Keys
  {
    DepositConserves(m, filter);
  }

  /** On the filters the short holding understands (everything, or a definite list), the early
      executor's deposit is the fundamentals executor's. */
  lemma DepositAgrees(isTransactional: bool, answer: Oracle, m: VmState, filter: AssetFilter, beneficiary: Location)
    requires filter == Wild(All) || filter.Definite?
    ensures Executor.DepositStep(isTransactional, answer, m, filter, beneficiary)
            == Returned(DepositStep(isTransactional, answer, m, filter, beneficiary))
  {
  }

  /** The early withdrawal does everything the fundamentals executor's does (the same error,
      ledger and context, a holding with the same ids and non-fungibles) except possibly the
      amounts of ids already held; when the withdrawn ids are all new to the holding, the two
      steps are the same. */
  lemma WithdrawAgrees(isTransactional: bool, answer: Oracle, m: VmState, assets: seq<Asset>)
    ensures var (m1, e1) := WithdrawStep(isTransactional, answer, m, assets);
            var (m2, e2) := Executor.WithdrawStep(isTransactional, answer, m, assets);
            && e1 == e2 && m1.context == m2.context && m1.ledger == m2.ledger
            && m1.holding.fungible.Keys == m2.holding.fungible.Keys
            && m1.holding.nonFungible == m2.holding.nonFungible
            && m1.holding.fungible.Keys <= m.holding.fungible.Keys + HoldingOf(assets).fungible.Keys
    ensures m.holding.fungible.Keys !! HoldingOf(assets).fungible.Keys ==>
              WithdrawStep(isTransactional, answer, m, assets) == Executor.WithdrawStep(isTransactional, answer, m, assets)
  {
    var c, d := m.holding, HoldingOf(assets);
    var (m2, e2) := Executor.WithdrawStep(isTransactional, answer, m, assets);
    var merging := m.context.origin.Some? && e2.None?;
    assert m2.holding == if merging then Merged(c, d) else c;
    assert WithdrawStep(isTransactional, answer, m, assets)
           == if merging then (m2.(holding := TwoCursorMerged(c, d)), e2) else (m2, e2);
    TwoCursorMergedKeys(c, d);
    if c.fungible.Keys !! d.fungible.Keys {
      TwoCursorMergedDisjoint(c, d);
    }
  }

  /** The instructions both executors implement alike. */
  predicate Shared(instr: Instruction)
  {
    || instr.WithdrawAsset? || instr.TransferAsset?
    || (instr.DepositAsset? && (instr.filter == Wild(All) || instr.filter.Definite?))
  }

  /** The fungible ids an instruction brings into the holding. */
  function IncomingIds(instr: Instruction): set<AssetId>
  {
    if instr.WithdrawAsset? then HoldingOf(instr.assets).fungible.Keys else {}
  }

  /** No withdrawal of `xs` brings a fungible id of `keys` or one an earlier withdrawal
      brought. */
  predicate FreshIds(keys: set<AssetId>, xs: seq<Instruction>)
    decreases |xs|
  {
    xs == [] || (IncomingIds(xs[0]) !! keys && FreshIds(keys + IncomingIds(xs[0]), xs[1..]))
  }

  /** A message of withdrawals, transfers and deposits of everything or of a definite list runs
      the same on the early and on the fundamentals executor as long as no withdrawal brings an
      id the holding may already hold (one of `keys`, which covers the holding's ids, or one an
      earlier withdrawal brought). */
  lemma {:induction false} ProcessedAgrees(cfg: Config, answer: Oracle, m: VmState, xs: seq<Instruction>, keys: set<AssetId>)
    requires forall i | 0 <= i < |xs| :: Shared(xs[i])
    requires m.holding.fungible.Keys <= keys && FreshIds(keys, xs)
    ensures Processed(cfg.isTransactional, answer, m, xs) == Executor.Processed(cfg, answer, m, xs)
    decreases |xs|
  {
    if xs != [] {
      assert Shared(xs[0]);
      StepAgrees(cfg, answer, m, xs[0], keys);
      match Step(cfg.isTransactional, answer, m, xs[0])
      case Panicked =>
      case Returned((m', e)) =>
        if e.None? {
          assert forall i | 0 <= i < |xs[1..]| :: xs[1..][i] == xs[i + 1];
          ProcessedAgrees(cfg, answer, m', xs[1..], keys + IncomingIds(xs[0]));
        }
    }
  }

  /** One instruction of `ProcessedAgrees`: the steps agree, and the holding afterwards has no
      id beyond `keys` and the ones the instruction brought. */
  lemma StepAgrees(cfg: Config, answer: Oracle, m: VmState, instr: Instruction, keys: set<AssetId>)
    requires Shared(instr) && m.holding.fungible.Keys <= keys && IncomingIds(instr) !! keys
    ensures Returned(Step(cfg.isTransactional, answer, m, instr).value) == Executor.Step(cfg, answer, m, instr)
    ensures Step(cfg.isTransactional, answer, m, instr).value.0.holding.fungible.Keys <= keys + IncomingIds(instr)
  {
    var t := cfg.isTransactional;
    match instr
    case DepositAsset(filter, beneficiary) =>
      assert Step(t, answer, m, instr) == Returned(DepositStep(t, answer, m, filter, beneficiary));
      DepositAgrees(t, answer, m, filter, beneficiary);
      DepositKeeps(t, answer, m, filter, beneficiary);
    case WithdrawAsset(assets) =>
      assert Step(t, answer, m, instr) == Returned(WithdrawStep(t, answer, m, assets));
      assert Executor.Step(cfg, answer, m, instr) == Returned(Executor.WithdrawStep(t, answer, m, assets));
      WithdrawAgrees(t, answer, m, assets);
    case TransferAsset(assets, beneficiary) =>
      assert Step(t, answer, m, instr) == Returned(Executor.TransferStep(t, answer, m, assets, beneficiary));
  }

  /** Accepts every fallible call. */
  const AcceptAll: Oracle := (ledger: seq<Call>, c: Call) => None

  /** Every call is recorded when every call is accepted. */
  lemma {:induction false} AcceptedCalls(ledger: seq<Call>, cs: seq<Call>)
    ensures AttemptAll(AcceptAll, ledger, cs) == (ledger + cs, None)
    decreases |cs|
  {
    if cs != [] {
      assert AcceptAll(ledger, cs[0]) == None;
      AcceptedCalls(ledger + [cs[0]], cs[1..]);
      assert ledger + [cs[0]] + cs[1..] == ledger + cs;
    } else {
      assert ledger + cs == ledger;
    }
  }

  /** The two withdrawals of `WithdrawDiverges`. */
  function ParentOnly(): seq<Asset> { [Asset(AssetId(Parent), Fungible(1))] }
  function HereAndParent(): seq<Asset> { [Asset(AssetId(Here), Fungible(1)), Asset(AssetId(Parent), Fungible(1))] }

  lemma DivergingHoldings()
    ensures HoldingOf(ParentOnly()) == Contents(map[AssetId(Parent) := 1], {})
    ensures HoldingOf(HereAndParent()) == Contents(map[AssetId(Here) := 1, AssetId(Parent) := 1], {})
  {
    var first, second := ParentOnly(), HereAndParent();
    assert first[..|first| - 1] == [];
    assert SubsumedAll(Empty, first) == Subsumed(Empty, first[0]);
    var h := [second[0]];
    assert second[..|second| - 1] == h && h[..|h| - 1] == [];
    assert SubsumedAll(Empty, h) == Subsumed(Empty, h[0]) == Contents(map[AssetId(Here) := 1], {});
    assert SubsumedAll(Empty, second) == Subsumed(SubsumedAll(Empty, h), second[1]);
  }

  /** A withdrawal into an empty holding, the same on both executors. */
  lemma FirstWithdrawal(cfg: Config, m: VmState, assets: seq<Asset>)
    requires m.holding == Empty && m.context.origin.Some?
    ensures var m1 := m.(holding := HoldingOf(assets), ledger := m.ledger + Withdrawals(assets, m.context.origin.value));
            && Step(cfg.isTransactional, AcceptAll, m, WithdrawAsset(assets)) == Returned((m1, None))
            && Executor.Step(cfg, AcceptAll, m, WithdrawAsset(assets)) == Returned((m1, None))
  {
    AcceptedCalls(m.ledger, Withdrawals(assets, m.context.origin.value));
    TwoCursorMergedIntoNothing(HoldingOf(assets));
    MergedIntoNothing(HoldingOf(assets));
  }

  /** A withdrawal when every call is accepted: the early executor merges with the two-cursor
      loop, the fundamentals executor with the saturating sum. */
  lemma NextWithdrawal(cfg: Config, m: VmState, assets: seq<Asset>)
    requires m.context.origin.Some?
    ensures var d := HoldingOf(assets);
            var l := m.ledger + Withdrawals(assets, m.context.origin.value);
            && Step(cfg.isTransactional, AcceptAll, m, WithdrawAsset(assets))
               == Returned((m.(holding := TwoCursorMerged(m.holding, d), ledger := l), None))
            && Executor.Step(cfg, AcceptAll, m, WithdrawAsset(assets))
               == Returned((m.(holding := Merged(m.holding, d), ledger := l), None))
  {
    AcceptedCalls(m.ledger, Withdrawals(assets, m.context.origin.value));
  }

  /** The state after withdrawing `first` and then `second`, the holding being `merged`. */
  function AfterWithdrawals(m: VmState, first: seq<Asset>, second: seq<Asset>, merged: Contents): VmState
    requires m.context.origin.Some?
  {
    var origin := m.context.origin.value;
    m.(holding := merged, ledger := m.ledger + Withdrawals(first, origin) + Withdrawals(second, origin))
  }

  lemma EarlyTwoWithdrawals(cfg: Config, m: VmState, first: seq<Asset>, second: seq<Asset>)
    requires m.holding == Empty && m.context.origin.Some?
    ensures Processed(cfg.isTransactional, AcceptAll, m, [WithdrawAsset(first), WithdrawAsset(second)])
            == Returned((AfterWithdrawals(m, first, second, TwoCursorMerged(HoldingOf(first), HoldingOf(second))), None))
  {
    var xs := [WithdrawAsset(first), WithdrawAsset(second)];
    FirstWithdrawal(cfg, m, first);
    var m1 := m.(holding := HoldingOf(first), ledger := m.ledger + Withdrawals(first, m.context.origin.value));
    NextWithdrawal(cfg, m1, second);
    ProcessedStep(cfg.isTransactional, AcceptAll, m, xs, 0, m1, None);
    ProcessedStep(cfg.isTransactional, AcceptAll, m1, xs, 1, AfterWithdrawals(m, first, second, TwoCursorMerged(m1.holding, HoldingOf(second))), None);
    assert xs[0..] == xs && xs[2..] == [];
  }

  lemma FundamentalsTwoWithdrawals(cfg: Config, m: VmState, first: seq<Asset>, second: seq<Asset>)
    requires m.holding == Empty && m.context.origin.Some?
    ensures Executor.Processed(cfg, AcceptAll, m, [WithdrawAsset(first), WithdrawAsset(second)])
            == Returned((AfterWithdrawals(m, first, second, Merged(HoldingOf(first), HoldingOf(second))), None))
  {
    var xs := [WithdrawAsset(first), WithdrawAsset(second)];
    FirstWithdrawal(cfg, m, first);
    var m1 := m.(holding := HoldingOf(first), ledger := m.ledger + Withdrawals(first, m.context.origin.value));
    NextWithdrawal(cfg, m1, second);
    Executor.ProcessedStep(cfg, AcceptAll, m, xs, 0, m1, None);
    Executor.ProcessedStep(cfg, AcceptAll, m1, xs, 1, AfterWithdrawals(m, first, second, Merged(m1.holding, HoldingOf(second))), None);
    assert xs[0..] == xs && xs[2..] == [];
  }

  /** Withdrawing one unit of the parent's asset and then one unit each of the local and the
      parent's asset leaves the early executor holding one unit of the parent's asset, where the
      fundamentals executor holds two. */
  lemma WithdrawDiverges(cfg: Config, origin: Location, ledger: seq<Call>)
    ensures var xs := [WithdrawAsset(ParentOnly()), WithdrawAsset(HereAndParent())];
            var early := Processed(cfg.isTransactional, AcceptAll, Fresh(origin, ledger), xs);
            var fundamentals := Executor.Processed(cfg, AcceptAll, Fresh(origin, ledger), xs);
            && early.Returned? && early.value.1.None? && Amount(early.value.0.holding, AssetId(Parent)) == 1
            && fundamentals.Returned? && fundamentals.value.1.None?
            && Amount(fundamentals.value.0.holding, AssetId(Parent)) == 2
  {
    EarlyTwoWithdrawals(cfg, Fresh(origin, ledger), ParentOnly(), HereAndParent());
    FundamentalsTwoWithdrawals(cfg, Fresh(origin, ledger), ParentOnly(), HereAndParent());
    DivergingHoldings();
    TwoCursorLosesAmount();
  }

  // ---- The early executor, updated in place --------------------------------------------------

  class XcmExecutor {
    var holding: AssetsInHolding
    var context: XcmContext
    const isTransactional: bool
    const world: World

    /** The machine's state: the holding's contents, the context and the world's ledger. */
    ghost function Current(): VmState
      reads this, holding, world
    {
      VmState(holding.Value(), context, world.ledger)
    }

    /** `XcmExecutor::new`: the origin, an empty holding, the default message id, no topic. */
    constructor (isTransactional: bool, world: World, origin: Location)
      ensures this.isTransactional == isTransactional && this.world == world && fresh(holding)
      ensures Current() == Fresh(origin, world.ledger)
    {
      this.isTransactional := isTransactional;
      this.world := world;
      holding := new AssetsInHolding();
      context := XcmContext(Some(origin), DEFAULT_MESSAGE_ID, None);
    }

    /** `execute`: each instruction in turn; the first error ends the run. */
    method Execute(xs: seq<Instruction>) returns (r: Run<Option<XcmError>>)
      modifies this, holding, world
      ensures r.Returned? <==> Processed(isTransactional, world.answer, old(Current()), xs).Returned?
      ensures r.Returned? ==> (Current(), r.value) == Processed(isTransactional, world.answer, old(Current()), xs).value
      ensures holding == old(holding) || fresh(holding)
    {
      ghost var goal := Processed(isTransactional, world.answer, Current(), xs);
      var i := 0;
      while i < |xs|
        invariant 0 <= i <= |xs|
        invariant Processed(isTransactional, world.answer, Current(), xs[i..]) == goal
        invariant holding == old(holding) || fresh(holding)
      {
        ghost var before := Current();
        var step := ProcessInstruction(xs[i]);
        if step.Panicked? {
          assert goal.Panicked? by {
            ProcessedPanics(isTransactional, world.answer, before, xs, i);
          }
          return Panicked;
        }
        if step.value.Some? {
          assert goal == Returned((Current(), step.value)) by {
            ProcessedStep(isTransactional, world.answer, before, xs, i, Current(), step.value);
          }
          return step;
        }
        assert Processed(isTransactional, world.answer, Current(), xs[i + 1..]) == goal by {
          ProcessedStep(isTransactional, world.answer, before, xs, i, Current(), step.value);
        }
        i := i + 1;
      }
      return Returned(None);
    }

    /** `process_instruction`: withdraw, deposit and transfer. */
    method ProcessInstruction(instr: Instruction) returns (r: Run<Option<XcmError>>)
      modifies this, holding, world
      ensures r.Returned? <==> Step(isTransactional, world.answer, old(Current()), instr).Returned?
      ensures r.Returned? ==> (Current(), r.value) == Step(isTransactional, world.answer, old(Current()), instr).value
      ensures holding == old(holding) || fresh(holding)
    {
      match instr
      case WithdrawAsset(assets) =>
        var e := Withdraw(assets);
        return Returned(e);
      case DepositAsset(filter, beneficiary) =>
        var e := Deposit(filter, beneficiary);
        return Returned(e);
      case TransferAsset(assets, beneficiary) =>
        var e := Transfer(assets, beneficiary);
        return Returned(e);
      case _ =>
        return Panicked;
    }

    /** The origin is looked up before the transaction. */
    method Withdraw(assets: seq<Asset>) returns (e: Option<XcmError>)
      modifies this, holding, world
      ensures (Current(), e) == WithdrawStep(isTransactional, world.answer, old(Current()), assets)
      ensures holding == old(holding)
    {
      if context.origin.None? {
        return Some(BadOrigin);
      }
      var saved := world.ledger;
      e := world.AttemptEach(Withdrawals(assets, context.origin.value));
      world.EndTransaction(isTransactional, saved, e);
      if e.None? {
        var incoming := new AssetsInHolding.FromAssets(assets);
        holding.SubsumeAssetsTwoCursor(incoming);
      }
    }

    method Deposit(filter: AssetFilter, beneficiary: Location) returns (e: Option<XcmError>)
      modifies this, holding, world
      ensures (Current(), e) == DepositStep(isTransactional, world.answer, old(Current()), filter, beneficiary)
      ensures holding == old(holding) || fresh(holding)
    {
      var oldHolding := holding.Clone();
      var saved := world.ledger;
      var taken := holding.SaturatingTakeGeneral(filter);
      var deposited := taken.IntoAssetsIter();
      e := world.AttemptEach(Deposits(deposited, beneficiary));
      world.EndTransaction(isTransactional, saved, e);
      if isTransactional && e.Some? {
        holding := oldHolding;
      }
    }

    /** The origin is looked up inside the transaction. */
    method Transfer(assets: seq<Asset>, beneficiary: Location) returns (e: Option<XcmError>)
      modifies world
      ensures (Current(), e) == Executor.TransferStep(isTransactional, world.answer, old(Current()), assets, beneficiary)
    {
      var saved := world.ledger;
      if context.origin.None? {
        e := Some(BadOrigin);
      } else {
        e := world.AttemptEach(Transfers(assets, context.origin.value, beneficiary));
      }
      world.EndTransaction(isTransactional, saved, e);
    }
  }
}

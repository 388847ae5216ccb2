/** The XCM executor of the fundamentals crate: `process` runs a message's instructions in
    order, stopping at the first error; `process_instruction` handles `ClearOrigin`,
    `DescendOrigin`, `WithdrawAsset`, `BurnAsset`, `DepositAsset`, `TransferAsset` and
    `ReceiveTeleportedAsset` and panics on any other instruction; `execute` consults the
    barrier first and reports an `Outcome`. The executor works on the short holding register.
    The functions state what each step does to the machine's state; the class is proved to
    follow them. */
module Executor {
  import opened Xcm
  import opened HoldingSpec
  import opened Holding
  import opened Env
  import opened Vm
  import opened Sorting

  // ---- The steps as functions ----------------------------------------------------------------

  /** What one step leaves: the new state and the instruction's error, if any. */
  type Stepped = (VmState, Option<XcmError>)

  /** `WithdrawAsset`: the origin's assets are withdrawn one by one inside the transactional
      processor, and only if all succeeded are they placed into the holding. */
  function WithdrawStep(isTransactional: bool, answer: Oracle, m: VmState, assets: seq<Asset>): Stepped
  {
    if m.context.origin.None? then (m, Some(BadOrigin))
    else
      var body := AttemptAll(answer, m.ledger, Withdrawals(assets, m.context.origin.value));
      var ledger := Transact(isTransactional, m.ledger, body);
      if body.1.None? then (m.(holding := Merged(m.holding, HoldingOf(assets)), ledger := ledger), None)
      else (m.(ledger := ledger), body.1)
  }

  /** `DepositAsset`: the filter's worth is taken out of the holding and deposited asset by
      asset with the beneficiary; a transactional processor restores both the holding and the
      ledger when a deposit fails. A filter the holding cannot take panics. */
  ghost function DepositStep(isTransactional: bool, answer: Oracle, m: VmState, filter: AssetFilter, beneficiary: Location): Run<Stepped>
  {
    var take := SaturatingTakeSpec(m.holding, filter);
    if take.Panicked? then Panicked
    else
      var body := AttemptAll(answer, m.ledger, Deposits(AssetsOf(take.value.1), beneficiary));
      var restore := isTransactional && body.1.Some?;
      Returned((m.(holding := if restore then m.holding else take.value.0,
                   ledger := Transact(isTransactional, m.ledger, body)), body.1))
  }

  /** `ReceiveTeleportedAsset`: every asset must pass `can_check_in` and is then checked in;
      only if all passed are the assets placed into the holding. */
  function ReceiveStep(isTransactional: bool, answer: Oracle, m: VmState, assets: seq<Asset>): Stepped
  {
    if m.context.origin.None? then (m, Some(BadOrigin))
    else
      var body := CheckInAll(answer, m.ledger, m.context.origin.value, assets);
      var ledger := Transact(isTransactional, m.ledger, body);
      if body.1.None? then (m.(holding := Merged(m.holding, HoldingOf(assets)), ledger := ledger), None)
      else (m.(ledger := ledger), body.1)
  }

  /** `TransferAsset`: each asset moves from the origin to the beneficiary on the ledger; the
      holding is not involved. */
  function TransferStep(isTransactional: bool, answer: Oracle, m: VmState, assets: seq<Asset>, beneficiary: Location): Stepped
  {
    if m.context.origin.None? then (m, Some(BadOrigin))
    else
      var body := AttemptAll(answer, m.ledger, Transfers(assets, m.context.origin.value, beneficiary));
      (m.(ledger := Transact(isTransactional, m.ledger, body)), body.1)
  }

  /** `DescendOrigin`: the origin is extended by the junctions `who`. */
  function DescendStep(m: VmState, who: Junctions): Stepped
  {
    if m.context.origin.None? then (m, Some(BadOrigin))
    else
      var appended := AppendWith(m.context.origin.value, Location(0, who));
      if appended.None? then (m, Some(LocationFull)) else (WithOrigin(m, Some(appended.value)), None)
  }

  /** `process_instruction`. */
  ghost function Step(cfg: Config, answer: Oracle, m: VmState, instr: Instruction): Run<Stepped>
  {
    match instr
    case ClearOrigin => Returned((WithOrigin(m, None), None))
    case WithdrawAsset(assets) => Returned(WithdrawStep(cfg.isTransactional, answer, m, assets))
    case BurnAsset(assets) => Returned((m.(holding := TakenDefinite(m.holding, assets).0), None))
    case DepositAsset(filter, beneficiary) => DepositStep(cfg.isTransactional, answer, m, filter, beneficiary)
    case ReceiveTeleportedAsset(assets) => Returned(ReceiveStep(cfg.isTransactional, answer, m, assets))
    case TransferAsset(assets, beneficiary) => Returned(TransferStep(cfg.isTransactional, answer, m, assets, beneficiary))
    case DescendOrigin(who) => Returned(DescendStep(m, who))
    case _ => Panicked
  }

  /** `process`: the instructions in order, up to and including the first that fails. */
  ghost function Processed(cfg: Config, answer: Oracle, m: VmState, xs: seq<Instruction>): Run<Stepped>
    decreases |xs|
  {
    if xs == [] then Returned((m, None))
    else
      match Step(cfg, answer, m, xs[0])
      case Panicked => Panicked
      case Returned((m', e)) => if e.Some? then Returned((m', e)) else Processed(cfg, answer, m', xs[1..])
  }

  /** One instruction of the loop: a step that returns continues with the rest of the message
      unless it failed, and a panic ends the whole run. */
  lemma ProcessedStep(cfg: Config, answer: Oracle, m: VmState, xs: seq<Instruction>, i: nat, m': VmState, e: Option<XcmError>)
    requires i < |xs| && Step(cfg, answer, m, xs[i]) == Returned((m', e))
    ensures e.Some? ==> Processed(cfg, answer, m, xs[i..]) == Returned((m', e))
    ensures e.None? ==> Processed(cfg, answer, m, xs[i..]) == Processed(cfg, answer, m', xs[i + 1..])
  {
    assert xs[i..][0] == xs[i] && xs[i..][1..] == xs[i + 1..];
  }

  lemma ProcessedPanics(cfg: Config, answer: Oracle, m: VmState, xs: seq<Instruction>, i: nat)
    requires i < |xs| && Step(cfg, answer, m, xs[i]).Panicked?
    ensures Processed(cfg, answer, m, xs[i..]).Panicked?
  {
    assert xs[i..][0] == xs[i];
  }

  // ---- Outcomes ------------------------------------------------------------------------------

  /** Weight is counted in units; the executor never charges any. */
  datatype Outcome =
    | Complete(used: nat)
    | Incomplete(used: nat, error: XcmError)
    | Error(error: XcmError)

  datatype Result<+T> = Ok(value: T) | Err(error: XcmError)

  /** `Outcome::ensure_complete`. */
  function EnsureComplete(o: Outcome): (r: Result<()>)
    ensures r.Ok? <==> o.Complete?
    ensures r.Err? ==> r.error == o.error
  {
    match o
    case Complete(_) => Ok(())
    case Incomplete(_, error) => Err(error)
    case Error(error) => Err(error)
  }

  /** `Outcome::ensure_execution`. */
  function EnsureExecution(o: Outcome): (r: Result<nat>)
    ensures r.Ok? <==> !o.Error?
    ensures r.Ok? ==> r.value == o.used
    ensures r.Err? ==> r.error == o.error
  {
    match o
    case Complete(used) => Ok(used)
    case Incomplete(used, _) => Ok(used)
    case Error(error) => Err(error)
  }

  /** `Outcome::weight_used`. */
  function WeightUsed(o: Outcome): (w: nat)
    ensures o.Error? ==> w == 0
    ensures !o.Error? ==> w == o.used
  {
    match o
    case Complete(used) => used
    case Incomplete(used, _) => used
    case Error(_) => 0
  }

  /** `ExecuteXcm::execute`: the barrier's verdict first, then a fresh machine for the origin
      runs the message; the outcome and the ledger afterwards. */
  ghost function Executed(cfg: Config, answer: Oracle, ledger: seq<Call>, origin: Location, xs: seq<Instruction>): Run<(Outcome, seq<Call>)>
  {
    if !cfg.barrier(origin, xs) then Returned((Error(Barrier), ledger))
    else
      match Processed(cfg, answer, Fresh(origin, ledger), xs)
      case Panicked => Panicked
      case Returned((m, e)) => Returned((if e.Some? then Error(e.value) else Complete(0), m.ledger))
  }

  // ---- The executor as updated in place ------------------------------------------------------

  class XcmExecutor {
    var holding: AssetsInHolding
    var context: XcmContext
    const config: Config
    const world: World

    /** The machine's state: the holding's contents, the context and the world's ledger. */
    ghost function Current(): VmState
      reads this, holding, world
    {
      VmState(holding.Value(), context, world.ledger)
    }

    /** `XcmExecutor::new`. */
    constructor (config: Config, world: World, origin: Location)
      ensures this.config == config && this.world == world && fresh(holding)
      ensures Current() == Fresh(origin, world.ledger)
    {
      this.config := config;
      this.world := world;
      holding := new AssetsInHolding();
      context := XcmContext(Some(origin), DEFAULT_MESSAGE_ID, None);
    }

    /** `process`: each instruction in turn; the first error ends the run. */
    method Process(xs: seq<Instruction>) returns (r: Run<Option<XcmError>>)
      modifies this, holding, world
      ensures r.Returned? <==> Processed(config, world.answer, old(Current()), xs).Returned?
      ensures r.Returned? ==> (Current(), r.value) == Processed(config, world.answer, old(Current()), xs).value
      ensures holding == old(holding) || fresh(holding)
    {
      ghost var goal := Processed(config, world.answer, Current(), xs);
      var i := 0;
      while i < |xs|
        invariant 0 <= i <= |xs|
        invariant Processed(config, world.answer, Current(), xs[i..]) == goal
        invariant holding == old(holding) || fresh(holding)
      {
        ghost var before := Current();
        var step := ProcessInstruction(xs[i]);
        if step.Panicked? {
          assert goal.Panicked? by {
            ProcessedPanics(config, world.answer, before, xs, i);
          }
          return Panicked;
        }
        if step.value.Some? {
          assert goal == Returned((Current(), step.value)) by {
            ProcessedStep(config, world.answer, before, xs, i, Current(), step.value);
          }
          return step;
        }
        assert Processed(config, world.answer, Current(), xs[i + 1..]) == goal by {
          ProcessedStep(config, world.answer, before, xs, i, Current(), step.value);
        }
        i := i + 1;
      }
      return Returned(None);
    }

    /** `process_instruction`, one arm per supported instruction. */
    method ProcessInstruction(instr: Instruction) returns (r: Run<Option<XcmError>>)
      modifies this, holding, world
      ensures r.Returned? <==> Step(config, world.answer, old(Current()), instr).Returned?
      ensures r.Returned? ==> (Current(), r.value) == Step(config, world.answer, old(Current()), instr).value
      ensures holding == old(holding) || fresh(holding)
    {
      match instr
      case ClearOrigin =>
        context := context.(origin := None);
        return Returned(None);
      case WithdrawAsset(assets) =>
        var e := Withdraw(assets);
        return Returned(e);
      case BurnAsset(assets) =>
        var _ := holding.SaturatingTake(Definite(assets));
        return Returned(None);
      case DepositAsset(filter, beneficiary) =>
        r := Deposit(filter, beneficiary);
      case ReceiveTeleportedAsset(assets) =>
        var e := ReceiveTeleported(assets);
        return Returned(e);
      case TransferAsset(assets, beneficiary) =>
        var e := Transfer(assets, beneficiary);
        return Returned(e);
      case DescendOrigin(who) =>
        var e := Descend(who);
        return Returned(e);
      case _ =>
        return Panicked;
    }

    method Withdraw(assets: seq<Asset>) returns (e: Option<XcmError>)
      modifies this, holding, world
      ensures (Current(), e) == WithdrawStep(config.isTransactional, world.answer, old(Current()), assets)
      ensures holding == old(holding)
    {
      if context.origin.None? {
        return Some(BadOrigin);
      }
      var origin := context.origin.value;
      var saved := world.ledger;
      e := world.AttemptEach(Withdrawals(assets, origin));
      world.EndTransaction(config.isTransactional, saved, e);
      if e.None? {
        var incoming := new AssetsInHolding.FromAssets(assets);
        holding.SubsumeAssets(incoming);
      }
    }

    method Deposit(filter: AssetFilter, beneficiary: Location) returns (r: Run<Option<XcmError>>)
      modifies this, holding, world
      ensures r.Returned? <==> DepositStep(config.isTransactional, world.answer, old(Current()), filter, beneficiary).Returned?
      ensures r.Returned? ==>
                (Current(), r.value) == DepositStep(config.isTransactional, world.answer, old(Current()), filter, beneficiary).value
      ensures holding == old(holding) || fresh(holding)
    {
      var oldHolding := holding.Clone();
      var saved := world.ledger;
      var taken := holding.SaturatingTake(filter);
      if taken.Panicked? {
        return Panicked;
      }
      var deposited := taken.value.IntoAssetsIter();
      var e := world.AttemptEach(Deposits(deposited, beneficiary));
      world.EndTransaction(config.isTransactional, saved, e);
      if config.isTransactional && e.Some? {
        holding := oldHolding;
      }
      return Returned(e);
    }

    method ReceiveTeleported(assets: seq<Asset>) returns (e: Option<XcmError>)
      modifies this, holding, world
      ensures (Current(), e) == ReceiveStep(config.isTransactional, world.answer, old(Current()), assets)
      ensures holding == old(holding)
    {
      var saved := world.ledger;
      if context.origin.None? {
        e := Some(BadOrigin);
      } else {
        e := world.CheckInEach(context.origin.value, assets);
      }
      world.EndTransaction(config.isTransactional, saved, e);
      if e.None? {
        var incoming := new AssetsInHolding.FromAssets(assets);
        holding.SubsumeAssets(incoming);
      }
    }

    method Transfer(assets: seq<Asset>, beneficiary: Location) returns (e: Option<XcmError>)
      modifies world
      ensures (Current(), e) == TransferStep(config.isTransactional, world.answer, old(Current()), assets, beneficiary)
    {
      var saved := world.ledger;
      if context.origin.None? {
        e := Some(BadOrigin);
      } else {
        e := world.AttemptEach(Transfers(assets, context.origin.value, beneficiary));
      }
      world.EndTransaction(config.isTransactional, saved, e);
    }

    method Descend(who: Junctions) returns (e: Option<XcmError>)
      modifies this
      ensures (Current(), e) == DescendStep(old(Current()), who)
      ensures holding == old(holding)
    {
      if context.origin.None? {
        return Some(BadOrigin);
      }
      var appended := AppendWith(context.origin.value, Location(0, who));
      if appended.None? {
        return Some(LocationFull);
      }
      context := context.(origin := Some(appended.value));
      return None;
    }
  }

  /** `ExecuteXcm::execute` with a fresh executor for `origin`. */
  method Execute(config: Config, world: World, origin: Location, xs: seq<Instruction>) returns (r: Run<Outcome>)
    modifies world
    ensures r.Returned? <==> Executed(config, world.answer, old(world.ledger), origin, xs).Returned?
    ensures r.Returned? ==> (r.value, world.ledger) == Executed(config, world.answer, old(world.ledger), origin, xs).value
  {
    if !config.barrier(origin, xs) {
      return Returned(Error(Barrier));
    }
    var vm := new XcmExecutor(config, world, origin);
    var run := vm.Process(xs);
    match run
    case Panicked =>
      return Panicked;
    case Returned(e) =>
      if e.Some? {
        return Returned(Error(e.value));
      }
      return Returned(Complete(0));
  }

  // ---- Properties of the steps ---------------------------------------------------------------

  /** `process` stops at the first error: a message in two parts runs the second part from the
      state the first left, and not at all when the first failed or panicked. */
  lemma {:induction false} ProcessedConcat(cfg: Config, answer: Oracle, m: VmState, xs: seq<Instruction>, ys: seq<Instruction>)
    ensures Processed(cfg, answer, m, xs + ys)
            == match Processed(cfg, answer, m, xs)
               case Panicked => Panicked
               case Returned((m', e)) => if e.Some? then Returned((m', e)) else Processed(cfg, answer, m', ys)
    decreases |xs|
  {
    if xs == [] {
      assert xs + ys == ys;
    } else {
      assert (xs + ys)[0] == xs[0] && (xs + ys)[1..] == xs[1..] + ys;
      match Step(cfg, answer, m, xs[0])
      case Panicked =>
      case Returned((m', e)) =>
        if e.None? {
          ProcessedConcat(cfg, answer, m', xs[1..], ys);
        }
    }
  }

  /** The instructions that act on behalf of the origin. */
  predicate NeedsOrigin(instr: Instruction)
  {
    instr.WithdrawAsset? || instr.ReceiveTeleportedAsset? || instr.TransferAsset? || instr.DescendOrigin?
  }

  /** Without an origin, every instruction that acts on its behalf fails with `BadOrigin` and
      changes nothing; in particular, after `ClearOrigin` the rest of the message cannot use the
      origin's authority. */
  lemma NoOriginRefuses(cfg: Config, answer: Oracle, m: VmState, instr: Instruction)
    requires m.context.origin.None? && NeedsOrigin(instr)
    ensures Step(cfg, answer, m, instr) == Returned((m, Some(BadOrigin)))
  {
  }

  lemma ClearedOriginRefuses(cfg: Config, answer: Oracle, m: VmState, instr: Instruction)
    requires NeedsOrigin(instr)
    ensures Processed(cfg, answer, m, [ClearOrigin, instr]) == Returned((WithOrigin(m, None), Some(BadOrigin)))
  {
    NoOriginRefuses(cfg, answer, WithOrigin(m, None), instr);
    assert [ClearOrigin, instr][1..] == [instr];
  }

  /** `WithdrawAsset` succeeds iff every withdrawal succeeds; then the holding gains the assets
      and the ledger records every withdrawal. On an error the holding is untouched, the error
      is the first failing withdrawal's, and the ledger keeps the withdrawals before it unless
      the processor is transactional. */
  lemma WithdrawMeaning(isTransactional: bool, answer: Oracle, m: VmState, assets: seq<Asset>)
    requires m.context.origin.Some?
    ensures var (m', e) := WithdrawStep(isTransactional, answer, m, assets);
            var calls := Withdrawals(assets, m.context.origin.value);
            var k := Succeeding(answer, m.ledger, calls);
            && m'.context == m.context
            && (e.None? <==> k == |assets|)
            && (e.None? ==> m'.holding == Merged(m.holding, HoldingOf(assets)) && m'.ledger == m.ledger + calls)
            && (e.Some? ==> && m'.holding == m.holding
                            && e == answer(m.ledger + calls[..k], calls[k])
                            && m'.ledger == if isTransactional then m.ledger else m.ledger + calls[..k])
  {
    var calls := Withdrawals(assets, m.context.origin.value);
    AttemptAllMeaning(answer, m.ledger, calls);
    assert calls[..|calls|] == calls;
  }

  /** What the holding gains from a successful withdrawal or teleport: of each id, the amounts
      listed for it added with saturation, and every listed non-fungible. */
  lemma GainedAmounts(holding: Contents, assets: seq<Asset>, id: AssetId)
    ensures Amount(Merged(holding, HoldingOf(assets)), id)
            == SaturatingAdd(Amount(holding, id), Min(FungibleTotal(assets, id), U128_MAX))
    ensures Merged(holding, HoldingOf(assets)).nonFungible == holding.nonFungible + NonFungiblesOf(assets)
  {
    SubsumedAllMeaning(Empty, assets, id);
    MergedAmount(holding, HoldingOf(assets), id);
  }

  /** `ReceiveTeleportedAsset` succeeds iff every asset passes `can_check_in`, each asked on the
      ledger holding the check-ins before it; then the assets are checked in and the holding
      gains them. A refusal fails with the refusing answer's error and leaves the holding
      untouched; a transactional processor rolls the ledger back, a non-transactional one keeps
      the check-ins before the refused asset. */
  lemma ReceiveMeaning(isTransactional: bool, answer: Oracle, m: VmState, assets: seq<Asset>)
    requires m.context.origin.Some?
    ensures var (m', e) := ReceiveStep(isTransactional, answer, m, assets);
            var origin := m.context.origin.value;
            var cs := CheckIns(assets, origin);
            var k := Admitted(answer, m.ledger, origin, assets);
            && m'.context == m.context
            && (e.None? <==> forall i | 0 <= i < |assets| ::
                               answer(m.ledger + cs[..i], CanCheckInCall(origin, assets[i])).None?)
            && (e.None? ==> m'.holding == Merged(m.holding, HoldingOf(assets)) && m'.ledger == m.ledger + cs)
            && (e.Some? ==> && k < |assets| && m'.holding == m.holding
                            && e == answer(m.ledger + cs[..k], CanCheckInCall(origin, assets[k]))
                            && m'.ledger == if isTransactional then m.ledger else m.ledger + cs[..k])
  {
    var origin := m.context.origin.value;
    var cs := CheckIns(assets, origin);
    CheckInAllMeaning(answer, m.ledger, origin, assets);
    assert cs[..|assets|] == cs;
    var k := Admitted(answer, m.ledger, origin, assets);
    if k < |assets| {
      assert answer(m.ledger + cs[..k], CanCheckInCall(origin, assets[k])).Some?;
    }
  }

  /** `TransferAsset` leaves the holding and the origin alone; it succeeds iff every transfer
      does, and then the ledger records all of them in order. */
  lemma TransferMeaning(isTransactional: bool, answer: Oracle, m: VmState, assets: seq<Asset>, beneficiary: Location)
    requires m.context.origin.Some?
    ensures var (m', e) := TransferStep(isTransactional, answer, m, assets, beneficiary);
            var calls := Transfers(assets, m.context.origin.value, beneficiary);
            var k := Succeeding(answer, m.ledger, calls);
            && m'.holding == m.holding && m'.context == m.context
            && (e.None? <==> k == |assets|)
            && (e.None? ==> m'.ledger == m.ledger + calls)
            && (e.Some? ==> m'.ledger == if isTransactional then m.ledger else m.ledger + calls[..k])
  {
    var calls := Transfers(assets, m.context.origin.value, beneficiary);
    AttemptAllMeaning(answer, m.ledger, calls);
    assert calls[..|calls|] == calls;
  }

  /** `BurnAsset` never fails and never adds: of each id the holding keeps what it held less
      everything listed for burning (never below zero), and it loses exactly the listed
      non-fungibles. Nothing else changes. */
  lemma BurnMeaning(cfg: Config, answer: Oracle, m: VmState, assets: seq<Asset>, id: AssetId)
    ensures Step(cfg, answer, m, BurnAsset(assets)).Returned?
    ensures var (m', e) := Step(cfg, answer, m, BurnAsset(assets)).value;
            && e.None? && m'.context == m.context && m'.ledger == m.ledger
            && Amount(m'.holding, id) == Amount(m.holding, id) - Min(Amount(m.holding, id), FungibleTotal(assets, id))
            && m'.holding.nonFungible == m.holding.nonFungible - NonFungiblesOf(assets)
            && m'.holding.fungible.Keys <= m.holding.fungible.Keys
  {
    TakenDefiniteRemaining(m.holding, assets, id);
    TakenDefiniteConserves(m.holding, assets);
  }

  /** `DescendOrigin` extends the origin's interior by `who` when the result has at most
      `MAX_JUNCTIONS` junctions, and otherwise fails with `LocationFull`; it touches nothing
      else. */
  lemma DescendMeaning(m: VmState, who: Junctions)
    requires m.context.origin.Some?
    ensures var o := m.context.origin.value;
            var (m', e) := DescendStep(m, who);
            && m'.holding == m.holding && m'.ledger == m.ledger
            && (e.None? <==> |o.interior| + |who| <= MAX_JUNCTIONS)
            && (e.None? ==> m'.context == m.context.(origin := Some(Location(o.parents, o.interior + who))))
            && (e.Some? ==> e == Some(LocationFull) && m' == m)
  {
    AppendInterior(m.context.origin.value, who);
  }

  /** The executor implements only its listed instructions; any other panics. */
  lemma UnsupportedPanics(cfg: Config, answer: Oracle, m: VmState, instr: Instruction)
    ensures Step(cfg, answer, m, instr).Panicked? <==>
              && (instr.ReserveAssetDeposited? || instr.ClearError? || instr.ClearTopic?
                  || (instr.DepositAsset? && SaturatingTakeSpec(m.holding, instr.filter).Panicked?))
  {
  }

  /** `DepositAsset`, when the filter can be taken: it succeeds iff every deposit of the taken
      assets succeeds, and then the holding keeps only the rest and the ledger records one
      deposit per taken asset. A failed deposit on a transactional processor restores the
      whole state; on a non-transactional one the taken assets stay out of the holding and the
      deposits before the failing one remain. */
  lemma DepositMeaning(isTransactional: bool, answer: Oracle, m: VmState, filter: AssetFilter, beneficiary: Location)
    requires SaturatingTakeSpec(m.holding, filter).Returned?
    ensures DepositStep(isTransactional, answer, m, filter, beneficiary).Returned?
    ensures var (m', e) := DepositStep(isTransactional, answer, m, filter, beneficiary).value;
            var (rest, taken) := SaturatingTakeSpec(m.holding, filter).value;
            var calls := Deposits(AssetsOf(taken), beneficiary);
            var k := Succeeding(answer, m.ledger, calls);
            && m'.context == m.context
            && (e.None? <==> k == |calls|)
            && (e.None? ==> m'.holding == rest && m'.ledger == m.ledger + calls)
            && (e.Some? && isTransactional ==> m' == m)
            && (e.Some? && !isTransactional ==> m'.holding == rest && m'.ledger == m.ledger + calls[..k])
  {
    var taken := SaturatingTakeSpec(m.holding, filter).value.1;
    var calls := Deposits(AssetsOf(taken), beneficiary);
    AttemptAllMeaning(answer, m.ledger, calls);
    assert calls[..|calls|] == calls;
  }

  /** Nothing is created or lost by a deposit: the rest and the deposited part split the
      holding, and the assets deposited, gathered back into a register, are exactly the part
      taken out. */
  lemma DepositConserves(m: VmState, filter: AssetFilter)
    requires SaturatingTakeSpec(m.holding, filter).Returned?
    ensures var (rest, taken) := SaturatingTakeSpec(m.holding, filter).value;
            && Splits(m.holding, rest, taken)
            && HoldingOf(AssetsOf(taken)) == taken
  {
    SaturatingTakeConserves(m.holding, filter);
    HoldingOfAssetsOf(SaturatingTakeSpec(m.holding, filter).value.1);
  }

  /** `execute`: a message the barrier rejects fails with `Barrier` before anything runs; an
      admitted one is `Complete` with no weight used iff every instruction succeeded, and
      `Error` with the first error otherwise; the executor never reports `Incomplete`. */
  lemma ExecuteMeaning(cfg: Config, answer: Oracle, ledger: seq<Call>, origin: Location, xs: seq<Instruction>)
    ensures !cfg.barrier(origin, xs) ==> Executed(cfg, answer, ledger, origin, xs) == Returned((Error(Barrier), ledger))
    ensures cfg.barrier(origin, xs) ==>
              (Executed(cfg, answer, ledger, origin, xs).Returned? <==> Processed(cfg, answer, Fresh(origin, ledger), xs).Returned?)
    ensures cfg.barrier(origin, xs) && Processed(cfg, answer, Fresh(origin, ledger), xs).Returned? ==>
              var (m, e) := Processed(cfg, answer, Fresh(origin, ledger), xs).value;
              && Executed(cfg, answer, ledger, origin, xs).value.1 == m.ledger
              && (e.None? ==> Executed(cfg, answer, ledger, origin, xs).value.0 == Complete(0))
              && (e.Some? ==> Executed(cfg, answer, ledger, origin, xs).value.0 == Error(e.value))
    ensures Executed(cfg, answer, ledger, origin, xs).Returned? ==> !Executed(cfg, answer, ledger, origin, xs).value.0.Incomplete?
  {
  }

  // ---- The executor's unit tests, as lemmas --------------------------------------------------

  /** The 32-byte account keys of the tests, read big-endian. */
  const ALICE: nat := 0x0101_0101_0101_0101_0101_0101_0101_0101_0101_0101_0101_0101_0101_0101_0101_0101
  const BOB: nat := 0x0202_0202_0202_0202_0202_0202_0202_0202_0202_0202_0202_0202_0202_0202_0202_0202

  function Account(id: nat): Location
  {
    Location(0, [AccountId32(None, id)])
  }

  /** One hundred units of the relay chain's token. */
  const RelayHundred: Asset := Asset(AssetId(Parent), Fungible(100))

  lemma ClearOriginExample(cfg: Config, answer: Oracle, ledger: seq<Call>)
    ensures Processed(cfg, answer, Fresh(Account(ALICE), ledger), [ClearOrigin])
            == Returned((VmState(Empty, XcmContext(None, DEFAULT_MESSAGE_ID, None), ledger), None))
  {
    assert [ClearOrigin][1..] == [];
  }

  lemma WithdrawExample(cfg: Config, answer: Oracle, ledger: seq<Call>)
    requires answer(ledger, WithdrawCall(RelayHundred, Account(ALICE))).None?
    ensures Processed(cfg, answer, Fresh(Account(ALICE), ledger), [WithdrawAsset([RelayHundred])])
            == Returned((Fresh(Account(ALICE), ledger).(holding := Contents(map[AssetId(Parent) := 100], {}),
                                                       ledger := ledger + [WithdrawCall(RelayHundred, Account(ALICE))]),
                         None))
  {
    var calls := Withdrawals([RelayHundred], Account(ALICE));
    assert calls == [WithdrawCall(RelayHundred, Account(ALICE))];
    assert calls[1..] == [];
    SubsumedAllSnoc(Empty, [], RelayHundred);
    assert [] + [RelayHundred] == [RelayHundred];
    assert Merged(Empty, HoldingOf([RelayHundred])) == Contents(map[AssetId(Parent) := 100], {});
    assert AttemptAll(answer, ledger, calls) == (ledger + calls, None);
    assert [WithdrawAsset([RelayHundred])][1..] == [];
  }

  lemma DepositExample(cfg: Config, answer: Oracle, ledger: seq<Call>)
    requires answer(ledger, DepositCall(RelayHundred, Account(ALICE))).None?
    ensures var m := Fresh(Parent, ledger).(holding := Subsumed(Empty, RelayHundred));
            && m.holding.fungible == map[AssetId(Parent) := 100]
            && Processed(cfg, answer, m, [DepositAsset(Definite([RelayHundred]), Account(ALICE))])
               == Returned((m.(holding := Empty, ledger := ledger + [DepositCall(RelayHundred, Account(ALICE))]), None))
  {
    var held := Subsumed(Empty, RelayHundred);
    TakenDefiniteSnoc(held, [], RelayHundred);
    assert [] + [RelayHundred] == [RelayHundred];
    var taken := Contents(map[AssetId(Parent) := 100], {});
    assert TakenDefinite(held, [RelayHundred]) == (Empty, taken);
    assert taken.fungible.Keys == {AssetId(Parent)};
    SortedSingleton(AssetIdLess, AssetId(Parent));
    assert AssetsOf(taken) == [RelayHundred];
    var calls := Deposits([RelayHundred], Account(ALICE));
    assert calls == [DepositCall(RelayHundred, Account(ALICE))];
    assert calls[1..] == [];
    assert AttemptAll(answer, ledger, calls) == (ledger + calls, None);
    assert [DepositAsset(Definite([RelayHundred]), Account(ALICE))][1..] == [];
  }

  lemma TransferExample(cfg: Config, answer: Oracle, ledger: seq<Call>)
    requires answer(ledger, TransferCall(RelayHundred, Account(ALICE), Account(BOB))).None?
    ensures Processed(cfg, answer, Fresh(Account(ALICE), ledger), [TransferAsset([RelayHundred], Account(BOB))])
            == Returned((Fresh(Account(ALICE), ledger).(ledger := ledger + [TransferCall(RelayHundred, Account(ALICE), Account(BOB))]),
                         None))
  {
    var calls := Transfers([RelayHundred], Account(ALICE), Account(BOB));
    assert calls == [TransferCall(RelayHundred, Account(ALICE), Account(BOB))];
    assert calls[1..] == [];
    assert AttemptAll(answer, ledger, calls) == (ledger + calls, None);
    assert [TransferAsset([RelayHundred], Account(BOB))][1..] == [];
  }

  /** A barrier that admits only Alice turns Bob's message away; admitting everything, the same
      message completes. */
  lemma BarrierExample(isTransactional: bool, answer: Oracle, ledger: seq<Call>)
    ensures var onlyAlice := Config(isTransactional, (o: Location, xs: seq<Instruction>) => o == Account(ALICE));
            var everything := Config(isTransactional, (o: Location, xs: seq<Instruction>) => true);
            && Executed(onlyAlice, answer, ledger, Account(ALICE), [ClearOrigin]) == Returned((Complete(0), ledger))
            && Executed(onlyAlice, answer, ledger, Account(BOB), [ClearOrigin]) == Returned((Error(Barrier), ledger))
            && Executed(everything, answer, ledger, Account(BOB), [ClearOrigin]) == Returned((Complete(0), ledger))
  {
    assert [ClearOrigin][1..] == [];
    assert Account(ALICE) != Account(BOB) by {
      assert Account(ALICE).interior[0].id != Account(BOB).interior[0].id;
    }
  }
}

/** The XCM executor of lesson 11's template: the same seven instructions as the fundamentals
    executor, with every origin check made inside the transactional processor's closure, and a
    configuration with no barrier (its `execute` is unwritten). Only `WithdrawAsset` is written
    differently from the fundamentals executor; it is proved to behave the same, and so is every
    message. */
module TemplateExecutor {
  import opened Xcm
  import opened HoldingSpec
  import opened Holding
  import opened Env
  import opened Vm
  import Executor

  /** `WithdrawAsset` with the origin looked up inside the transaction: a missing origin fails
      the body, whose rollback then has nothing to undo. */
  function WithdrawStep(isTransactional: bool, answer: Oracle, m: VmState, assets: seq<Asset>): Executor.Stepped
  {
    var body := if m.context.origin.None? then (m.ledger, Some(BadOrigin))
                else AttemptAll(answer, m.ledger, Withdrawals(assets, m.context.origin.value));
    var ledger := Transact(isTransactional, m.ledger, body);
    if body.1.None? then (m.(holding := Merged(m.holding, HoldingOf(assets)), ledger := ledger), None)
    else (m.(ledger := ledger), body.1)
  }

  /** `process_instruction` of the template. */
  ghost function Step(isTransactional: bool, answer: Oracle, m: VmState, instr: Instruction): Run<Executor.Stepped>
  {
    match instr
    case ClearOrigin => Returned((WithOrigin(m, None), None))
    case DescendOrigin(who) => Returned(Executor.DescendStep(m, who))
    case TransferAsset(assets, beneficiary) => Returned(Executor.TransferStep(isTransactional, answer, m, assets, beneficiary))
    case WithdrawAsset(assets) => Returned(WithdrawStep(isTransactional, answer, m, assets))
    case BurnAsset(assets) => Returned((m.(holding := TakenDefinite(m.holding, assets).0), None))
    case DepositAsset(filter, beneficiary) => Executor.DepositStep(isTransactional, answer, m, filter, beneficiary)
    case ReceiveTeleportedAsset(assets) => Returned(Executor.ReceiveStep(isTransactional, answer, m, assets))
    case _ => Panicked
  }

  /** `process` of the template: the instructions in order, up to the first that fails. */
  ghost function Processed(isTransactional: bool, answer: Oracle, m: VmState, xs: seq<Instruction>): Run<Executor.Stepped>
    decreases |xs|
  {
    if xs == [] then Returned((m, None))
    else
      match Step(isTransactional, answer, m, xs[0])
      case Panicked => Panicked
      case Returned((m', e)) => if e.Some? then Returned((m', e)) else Processed(isTransactional, answer, m', xs[1..])
  }

  /** Checking the origin inside the transaction or before it makes no difference: with no
      origin both fail with `BadOrigin` and leave the ledger as it was. */
  lemma WithdrawAgrees(isTransactional: bool, answer: Oracle, m: VmState, assets: seq<Asset>)
    ensures WithdrawStep(isTransactional, answer, m, assets) == Executor.WithdrawStep(isTransactional, answer, m, assets)
    ensures m.context.origin.None? ==> WithdrawStep(isTransactional, answer, m, assets) == (m, Some(BadOrigin))
  {
  }

  /** Each instruction does in the template what it does in the fundamentals executor, whatever
      barrier the latter is configured with. */
  lemma StepAgrees(cfg: Config, answer: Oracle, m: VmState, instr: Instruction)
    ensures Step(cfg.isTransactional, answer, m, instr) == Executor.Step(cfg, answer, m, instr)
  {
    if instr.WithdrawAsset? {
      WithdrawAgrees(cfg.isTransactional, answer, m, instr.assets);
    }
  }

  /** Hence whole messages run the same on both executors. */
  lemma {:induction false} ProcessedAgrees(cfg: Config, answer: Oracle, m: VmState, xs: seq<Instruction>)
    ensures Processed(cfg.isTransactional, answer, m, xs) == Executor.Processed(cfg, answer, m, xs)
    decreases |xs|
  {
    if xs != [] {
      StepAgrees(cfg, answer, m, xs[0]);
      match Step(cfg.isTransactional, answer, m, xs[0])
      case Panicked =>
      case Returned((m', e)) =>
        if e.None? {
          ProcessedAgrees(cfg, answer, m', xs[1..]);
        }
    }
  }

  /** The template's `process` stops at the first error, as the fundamentals executor's does. */
  lemma ProcessedConcat(isTransactional: bool, answer: Oracle, m: VmState, xs: seq<Instruction>, ys: seq<Instruction>)
    ensures Processed(isTransactional, answer, m, xs + ys)
            == match Processed(isTransactional, answer, m, xs)
               case Panicked => Panicked
               case Returned((m', e)) => if e.Some? then Returned((m', e)) else Processed(isTransactional, answer, m', ys)
  {
    var cfg := Config(isTransactional, (o: Location, xs: seq<Instruction>) => true);
    ProcessedAgrees(cfg, answer, m, xs + ys);
    ProcessedAgrees(cfg, answer, m, xs);
    Executor.ProcessedConcat(cfg, answer, m, xs, ys);
    match Processed(isTransactional, answer, m, xs)
    case Panicked =>
    case Returned((m', e)) => ProcessedAgrees(cfg, answer, m', ys);
  }

  lemma ProcessedStep(isTransactional: bool, answer: Oracle, m: VmState, xs: seq<Instruction>, i: nat, m': VmState, e: Option<XcmError>)
    requires i < |xs| && Step(isTransactional, answer, m, xs[i]) == Returned((m', e))
    ensures e.Some? ==> Processed(isTransactional, answer, m, xs[i..]) == Returned((m', e))
    ensures e.None? ==> Processed(isTransactional, answer, m, xs[i..]) == Processed(isTransactional, answer, m', xs[i + 1..])
  {
    assert xs[i..][0] == xs[i] && xs[i..][1..] == xs[i + 1..];
  }

  lemma ProcessedPanics(isTransactional: bool, answer: Oracle, m: VmState, xs: seq<Instruction>, i: nat)
    requires i < |xs| && Step(isTransactional, answer, m, xs[i]).Panicked?
    ensures Processed(isTransactional, answer, m, xs[i..]).Panicked?
  {
    assert xs[i..][0] == xs[i];
  }

  /** The template executor, updated in place. */
  class XcmExecutor {
    var holding: AssetsInHolding
    var context: XcmContext
    const isTransactional: bool
    const world: World

    /** The machine's state: the holding's contents, the context and the world's ledger. */
    ghost function Current(): VmState
      reads this, holding, world
    {
      VmState(holding.Value(), context, world.ledger)
    }

    /** `XcmExecutor::new`: the origin, an empty holding, the default message id, no topic. */
    constructor (isTransactional: bool, world: World, origin: Location)
      ensures this.isTransactional == isTransactional && this.world == world && fresh(holding)
      ensures Current() == Fresh(origin, world.ledger)
    {
      this.isTransactional := isTransactional;
      this.world := world;
      holding := new AssetsInHolding();
      context := XcmContext(Some(origin), DEFAULT_MESSAGE_ID, None);
    }

    /** `process`: each instruction in turn; the first error ends the run. */
    method Process(xs: seq<Instruction>) returns (r: Run<Option<XcmError>>)
      modifies this, holding, world
      ensures r.Returned? <==> Processed(isTransactional, world.answer, old(Current()), xs).Returned?
      ensures r.Returned? ==> (Current(), r.value) == Processed(isTransactional, world.answer, old(Current()), xs).value
      ensures holding == old(holding) || fresh(holding)
    {
      ghost var goal := Processed(isTransactional, world.answer, Current(), xs);
      var i := 0;
      while i < |xs|
        invariant 0 <= i <= |xs|
        invariant Processed(isTransactional, world.answer, Current(), xs[i..]) == goal
        invariant holding == old(holding) || fresh(holding)
      {
        ghost var before := Current();
        var step := ProcessInstruction(xs[i]);
        if step.Panicked? {
          assert goal.Panicked? by {
            ProcessedPanics(isTransactional, world.answer, before, xs, i);
          }
          return Panicked;
        }
        if step.value.Some? {
          assert goal == Returned((Current(), step.value)) by {
            ProcessedStep(isTransactional, world.answer, before, xs, i, Current(), step.value);
          }
          return step;
        }
        assert Processed(isTransactional, world.answer, Current(), xs[i + 1..]) == goal by {
          ProcessedStep(isTransactional, world.answer, before, xs, i, Current(), step.value);
        }
        i := i + 1;
      }
      return Returned(None);
    }

    /** `process_instruction`, one arm per supported instruction. */
    method ProcessInstruction(instr: Instruction) returns (r: Run<Option<XcmError>>)
      modifies this, holding, world
      ensures r.Returned? <==> Step(isTransactional, world.answer, old(Current()), instr).Returned?
      ensures r.Returned? ==> (Current(), r.value) == Step(isTransactional, world.answer, old(Current()), instr).value
      ensures holding == old(holding) || fresh(holding)
    {
      match instr
      case ClearOrigin =>
        context := context.(origin := None);
        return Returned(None);
      case DescendOrigin(who) =>
        var e := Descend(who);
        return Returned(e);
      case TransferAsset(assets, beneficiary) =>
        var e := Transfer(assets, beneficiary);
        return Returned(e);
      case WithdrawAsset(assets) =>
        var e := Withdraw(assets);
        return Returned(e);
      case BurnAsset(assets) =>
        var _ := holding.SaturatingTake(Definite(assets));
        return Returned(None);
      case DepositAsset(filter, beneficiary) =>
        r := Deposit(filter, beneficiary);
      case ReceiveTeleportedAsset(assets) =>
        var e := ReceiveTeleported(assets);
        return Returned(e);
      case _ =>
        return Panicked;
    }

    method Descend(who: Junctions) returns (e: Option<XcmError>)
      modifies this
      ensures (Current(), e) == Executor.DescendStep(old(Current()), who)
      ensures holding == old(holding)
    {
      if context.origin.None? {
        return Some(BadOrigin);
      }
      var appended := AppendWith(context.origin.value, Location(0, who));
      if appended.None? {
        return Some(LocationFull);
      }
      context := context.(origin := Some(appended.value));
      return None;
    }

    method Transfer(assets: seq<Asset>, beneficiary: Location) returns (e: Option<XcmError>)
      modifies world
      ensures (Current(), e) == Executor.TransferStep(isTransactional, world.answer, old(Current()), assets, beneficiary)
    {
      var saved := world.ledger;
      if context.origin.None? {
        e := Some(BadOrigin);
      } else {
        e := world.AttemptEach(Transfers(assets, context.origin.value, beneficiary));
      }
      world.EndTransaction(isTransactional, saved, e);
    }

    /** The origin is looked up inside the transaction. */
    method Withdraw(assets: seq<Asset>) returns (e: Option<XcmError>)
      modifies this, holding, world
      ensures (Current(), e) == WithdrawStep(isTransactional, world.answer, old(Current()), assets)
      ensures holding == old(holding)
    {
      var saved := world.ledger;
      if context.origin.None? {
        e := Some(BadOrigin);
      } else {
        e := world.AttemptEach(Withdrawals(assets, context.origin.value));
      }
      world.EndTransaction(isTransactional, saved, e);
      if e.None? {
        var incoming := new AssetsInHolding.FromAssets(assets);
        holding.SubsumeAssets(incoming);
      }
    }

    method Deposit(filter: AssetFilter, beneficiary: Location) returns (r: Run<Option<XcmError>>)
      modifies this, holding, world
      ensures r.Returned? <==> Executor.DepositStep(isTransactional, world.answer, old(Current()), filter, beneficiary).Returned?
      ensures r.Returned? ==>
                (Current(), r.value) == Executor.DepositStep(isTransactional, world.answer, old(Current()), filter, beneficiary).value
      ensures holding == old(holding) || fresh(holding)
    {
      var oldHolding := holding.Clone();
      var saved := world.ledger;
      var taken := holding.SaturatingTake(filter);
      if taken.Panicked? {
        return Panicked;
      }
      var deposited := taken.value.IntoAssetsIter();
      var e := world.AttemptEach(Deposits(deposited, beneficiary));
      world.EndTransaction(isTransactional, saved, e);
      if isTransactional && e.Some? {
        holding := oldHolding;
      }
      return Returned(e);
    }

    method ReceiveTeleported(assets: seq<Asset>) returns (e: Option<XcmError>)
      modifies this, holding, world
      ensures (Current(), e) == Executor.ReceiveStep(isTransactional, world.answer, old(Current()), assets)
      ensures holding == old(holding)
    {
      var saved := world.ledger;
      if context.origin.None? {
        e := Some(BadOrigin);
      } else {
        e := world.CheckInEach(context.origin.value, assets);
      }
      world.EndTransaction(isTransactional, saved, e);
      if e.None? {
        var incoming := new AssetsInHolding.FromAssets(assets);
        holding.SubsumeAssets(incoming);
      }
    }
  }
}

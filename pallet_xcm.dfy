/** The pallet-XCM façade of the fundamentals crate: the dispatchables `execute`, `send`,
    `teleport_assets` and `reserve_transfer_assets` convert their versioned arguments and call
    `do_execute`, `do_send` and `do_teleport_assets`. Executing runs the fundamentals executor
    for the origin `ExecuteXcmOrigin` resolves; sending hands the message, prefixed with the
    sender's interior, to the router; a teleport executes a withdraw-and-burn message locally
    and then sends a receive-and-deposit message to the destination. The functions state what
    each call does to the world; the methods are proved to follow them. */
module PalletXcm {
  import opened Xcm
  import opened Env
  import opened Vm
  import opened PalletSupport
  import Executor
  import HoldingSpec

  // ---- The calls as functions --------------------------------------------------------------

  /** `do_execute`: the origin resolved by `ExecuteXcmOrigin`, then the executor; an outcome
      that is not `Complete` is an `ExecutorError`. The ledger afterwards and the result. */
  ghost function Execution(p: PalletConfig, answer: Oracle, ledger: seq<Call>, origin: RuntimeOrigin, message: seq<Instruction>): Run<(seq<Call>, DispatchResult)>
  {
    match p.executeOrigin(origin)
    case None => Returned((ledger, Failed(DispatchError.BadOrigin)))
    case Some(location) =>
      match Executor.Executed(p.executor, answer, ledger, location, message)
      case Panicked => Panicked
      case Returned((outcome, ledger')) =>
        Returned((ledger', if Executor.EnsureComplete(outcome).Ok? then Dispatched else Failed(Module(ExecutorError))))
  }

  /** `do_send`: the origin resolved by `SendXcmOrigin` must be an interior location; the
      message, prefixed with it, is routed to `dest`. The router's calls afterwards and the
      result. */
  function Sending(p: PalletConfig, answer: RouterAnswer, log: seq<RouterCall>, origin: RuntimeOrigin, dest: Location, message: seq<Instruction>): (seq<RouterCall>, DispatchResult)
  {
    match p.sendOrigin(origin)
    case None => (log, Failed(DispatchError.BadOrigin))
    case Some(location) =>
      match Interior(location)
      case None => (log, Failed(Module(InvalidOrigin)))
      case Some(interior) => Routed(answer, log, dest, Outgoing(interior, message))
  }

  /** `do_teleport_assets`: the assets reanchored for the destination, the local message
      executed, and only if that succeeded the destination's message sent. */
  ghost function Teleporting(p: PalletConfig, answer: Oracle, routerAnswer: RouterAnswer, e: Effects, origin: RuntimeOrigin, dest: Location, beneficiary: Location, assets: seq<Asset>): Run<(Effects, DispatchResult)>
  {
    match p.reanchor(assets, dest, p.universal)
    case None => Returned((e, Failed(Module(CannotReanchor))))
    case Some(reanchored) =>
      match Execution(p, answer, e.ledger, origin, LocalTeleport(assets))
      case Panicked => Panicked
      case Returned((ledger, r)) =>
        if r.Failed? then Returned((e.(ledger := ledger), r))
        else
          var (log, sent) := Sending(p, routerAnswer, e.router, origin, dest, RemoteTeleport(reanchored, beneficiary));
          Returned((Effects(ledger, log), sent))
  }

  /** The `execute` dispatchable. */
  ghost function ExecuteDispatch(p: PalletConfig, answer: Oracle, ledger: seq<Call>, origin: RuntimeOrigin, message: Versioned<seq<Instruction>>): Run<(seq<Call>, DispatchResult)>
  {
    match FromVersioned(message)
    case None => Returned((ledger, Failed(Module(BadVersion))))
    case Some(xs) => Execution(p, answer, ledger, origin, xs)
  }

  /** The `send` dispatchable: the destination is converted before the message. */
  function SendDispatch(p: PalletConfig, answer: RouterAnswer, log: seq<RouterCall>, origin: RuntimeOrigin, dest: Versioned<Location>, message: Versioned<seq<Instruction>>): (seq<RouterCall>, DispatchResult)
  {
    match FromVersioned(dest)
    case None => (log, Failed(Module(BadVersion)))
    case Some(d) =>
      match FromVersioned(message)
      case None => (log, Failed(Module(BadVersion)))
      case Some(xs) => Sending(p, answer, log, origin, d, xs)
  }

  /** The `teleport_assets` dispatchable: destination, beneficiary and assets are converted
      in that order. */
  ghost function TeleportDispatch(p: PalletConfig, answer: Oracle, routerAnswer: RouterAnswer, e: Effects, origin: RuntimeOrigin, dest: Versioned<Location>, beneficiary: Versioned<Location>, assets: Versioned<seq<Asset>>): Run<(Effects, DispatchResult)>
  {
    match FromVersioned(dest)
    case None => Returned((e, Failed(Module(BadVersion))))
    case Some(d) =>
      match FromVersioned(beneficiary)
      case None => Returned((e, Failed(Module(BadVersion))))
      case Some(b) =>
        match FromVersioned(assets)
        case None => Returned((e, Failed(Module(BadVersion))))
        case Some(a) => Teleporting(p, answer, routerAnswer, e, origin, d, b, a)
  }

  // ---- The calls as the pallet makes them ----------------------------------------------------

  method DoExecute(p: PalletConfig, world: World, origin: RuntimeOrigin, message: seq<Instruction>) returns (r: Run<DispatchResult>)
    modifies world
    ensures r.Returned? <==> Execution(p, world.answer, old(world.ledger), origin, message).Returned?
    ensures r.Returned? ==> (world.ledger, r.value) == Execution(p, world.answer, old(world.ledger), origin, message).value
  {
    var location := p.executeOrigin(origin);
    if location.None? {
      return Returned(Failed(DispatchError.BadOrigin));
    }
    var outcome := Executor.Execute(p.executor, world, location.value, message);
    match outcome
    case Panicked =>
      return Panicked;
    case Returned(o) =>
      if Executor.EnsureComplete(o).Err? {
        return Returned(Failed(Module(ExecutorError)));
      }
      return Returned(Dispatched);
  }

  method DoSend(p: PalletConfig, router: Router, origin: RuntimeOrigin, dest: Location, message: seq<Instruction>) returns (r: DispatchResult)
    modifies router
    ensures (router.log, r) == Sending(p, router.answer, old(router.log), origin, dest, message)
  {
    var location := p.sendOrigin(origin);
    if location.None? {
      return Failed(DispatchError.BadOrigin);
    }
    var interior := Interior(location.value);
    if interior.None? {
      return Failed(Module(InvalidOrigin));
    }
    var outgoing := message;
    if interior.value != [] {
      outgoing := [DescendOrigin(interior.value)] + outgoing;
    }
    r := router.Route(dest, outgoing);
  }

  method DoTeleportAssets(p: PalletConfig, world: World, router: Router, origin: RuntimeOrigin, dest: Location, beneficiary: Location, assets: seq<Asset>, feeAssetItem: u32) returns (r: Run<DispatchResult>)
    modifies world, router
    ensures var spec := Teleporting(p, world.answer, router.answer, Effects(old(world.ledger), old(router.log)), origin, dest, beneficiary, assets);
            && (r.Returned? <==> spec.Returned?)
            && (r.Returned? ==> (Effects(world.ledger, router.log), r.value) == spec.value)
  {
    var reanchored := p.reanchor(assets, dest, p.universal);
    if reanchored.None? {
      return Returned(Failed(Module(CannotReanchor)));
    }
    var local := [WithdrawAsset(assets), BurnAsset(assets)];
    var onDest := [ReceiveTeleportedAsset(reanchored.value), ClearOrigin, DepositAsset(Wild(All), beneficiary)];
    r := DoExecute(p, world, origin, local);
    if r.Panicked? || r.value.Failed? {
      return;
    }
    var sent := DoSend(p, router, origin, dest, onDest);
    r := Returned(sent);
  }

  method Execute(p: PalletConfig, world: World, origin: RuntimeOrigin, message: Versioned<seq<Instruction>>, maxWeight: nat) returns (r: Run<DispatchResult>)
    modifies world
    ensures r.Returned? <==> ExecuteDispatch(p, world.answer, old(world.ledger), origin, message).Returned?
    ensures r.Returned? ==> (world.ledger, r.value) == ExecuteDispatch(p, world.answer, old(world.ledger), origin, message).value
  {
    var xs := FromVersioned(message);
    if xs.None? {
      return Returned(Failed(Module(BadVersion)));
    }
    r := DoExecute(p, world, origin, xs.value);
  }

  method Send(p: PalletConfig, router: Router, origin: RuntimeOrigin, dest: Versioned<Location>, message: Versioned<seq<Instruction>>) returns (r: DispatchResult)
    modifies router
    ensures (router.log, r) == SendDispatch(p, router.answer, old(router.log), origin, dest, message)
  {
    var d := FromVersioned(dest);
    if d.None? {
      return Failed(Module(BadVersion));
    }
    var xs := FromVersioned(message);
    if xs.None? {
      return Failed(Module(BadVersion));
    }
    r := DoSend(p, router, origin, d.value, xs.value);
  }

  method TeleportAssets(p: PalletConfig, world: World, router: Router, origin: RuntimeOrigin, dest: Versioned<Location>, beneficiary: Versioned<Location>, assets: Versioned<seq<Asset>>, feeAssetItem: u32) returns (r: Run<DispatchResult>)
    modifies world, router
    ensures var spec := TeleportDispatch(p, world.answer, router.answer, Effects(old(world.ledger), old(router.log)), origin, dest, beneficiary, assets);
            && (r.Returned? <==> spec.Returned?)
            && (r.Returned? ==> (Effects(world.ledger, router.log), r.value) == spec.value)
  {
    var d := FromVersioned(dest);
    if d.None? {
      return Returned(Failed(Module(BadVersion)));
    }
    var b := FromVersioned(beneficiary);
    if b.None? {
      return Returned(Failed(Module(BadVersion)));
    }
    var a := FromVersioned(assets);
    if a.None? {
      return Returned(Failed(Module(BadVersion)));
    }
    r := DoTeleportAssets(p, world, router, origin, d.value, b.value, a.value, feeAssetItem);
  }

  /** `reserve_transfer_assets`: `do_reserve_transfer_assets` is `unimplemented!()`, and this
      version converts nothing first. */
  method ReserveTransferAssets(p: PalletConfig, origin: RuntimeOrigin, dest: Versioned<Location>, beneficiary: Versioned<Location>, assets: Versioned<seq<Asset>>, feeAssetItem: u32) returns (r: Run<DispatchResult>)
    ensures r.Panicked?
  {
    r := Panicked;
  }

  // ---- Properties ------------------------------------------------------------------------------

  /** `execute` refuses a message without a version-4 form with `BadVersion`, before the
      origin is looked at and with the ledger untouched. */
  lemma ExecuteRejectsBadVersion(p: PalletConfig, answer: Oracle, ledger: seq<Call>, origin: RuntimeOrigin, message: Versioned<seq<Instruction>>)
    requires FromVersioned(message).None?
    ensures ExecuteDispatch(p, answer, ledger, origin, message) == Returned((ledger, Failed(Module(BadVersion))))
  {
  }

  /** `send` refuses an unconvertible destination or message with `BadVersion`, and calls no
      router. */
  lemma SendRejectsBadVersion(p: PalletConfig, answer: RouterAnswer, log: seq<RouterCall>, origin: RuntimeOrigin, dest: Versioned<Location>, message: Versioned<seq<Instruction>>)
    requires FromVersioned(dest).None? || FromVersioned(message).None?
    ensures SendDispatch(p, answer, log, origin, dest, message) == (log, Failed(Module(BadVersion)))
  {
  }

  /** `teleport_assets` refuses an unconvertible destination, beneficiary or asset list with
      `BadVersion`, before anything is executed or sent. */
  lemma TeleportRejectsBadVersion(p: PalletConfig, answer: Oracle, routerAnswer: RouterAnswer, e: Effects, origin: RuntimeOrigin, dest: Versioned<Location>, beneficiary: Versioned<Location>, assets: Versioned<seq<Asset>>)
    requires FromVersioned(dest).None? || FromVersioned(beneficiary).None? || FromVersioned(assets).None?
    ensures TeleportDispatch(p, answer, routerAnswer, e, origin, dest, beneficiary, assets) == Returned((e, Failed(Module(BadVersion))))
  {
  }

  /** `do_execute` refuses an origin `ExecuteXcmOrigin` does not resolve; otherwise it runs the
      executor for the resolved location, keeps the ledger the executor leaves, succeeds
      exactly when the outcome is `Complete`, and reports any other outcome as
      `ExecutorError`. */
  lemma ExecutionMeaning(p: PalletConfig, answer: Oracle, ledger: seq<Call>, origin: RuntimeOrigin, message: seq<Instruction>)
    ensures p.executeOrigin(origin).None? ==> Execution(p, answer, ledger, origin, message) == Returned((ledger, Failed(DispatchError.BadOrigin)))
    ensures p.executeOrigin(origin).Some? ==>
              var run := Executor.Executed(p.executor, answer, ledger, p.executeOrigin(origin).value, message);
              && (Execution(p, answer, ledger, origin, message).Returned? <==> run.Returned?)
              && (run.Returned? ==>
                    var (l, r) := Execution(p, answer, ledger, origin, message).value;
                    && l == run.value.1
                    && (r == Dispatched <==> run.value.0.Complete?)
                    && (r != Dispatched ==> r == Failed(Module(ExecutorError))))
  {
  }

  /** `do_send` refuses an origin `SendXcmOrigin` does not resolve, then one that is not an
      interior location (`InvalidOrigin`), in both cases without calling the router.
      Otherwise the router is asked to validate the message, with `DescendOrigin(interior)` at
      its front exactly when the interior is not `Here`; the result is as routing decides. */
  lemma SendingMeaning(p: PalletConfig, answer: RouterAnswer, log: seq<RouterCall>, origin: RuntimeOrigin, dest: Location, message: seq<Instruction>)
    ensures p.sendOrigin(origin).None? ==> Sending(p, answer, log, origin, dest, message) == (log, Failed(DispatchError.BadOrigin))
    ensures p.sendOrigin(origin).Some? && p.sendOrigin(origin).value.parents != 0 ==>
              Sending(p, answer, log, origin, dest, message) == (log, Failed(Module(InvalidOrigin)))
    ensures p.sendOrigin(origin).Some? && p.sendOrigin(origin).value.parents == 0 ==>
              var interior := p.sendOrigin(origin).value.interior;
              var outgoing := if interior == [] then message else [DescendOrigin(interior)] + message;
              var (log', r) := Sending(p, answer, log, origin, dest, message);
              && |log'| > |log| && log'[..|log|] == log && log'[|log|] == Validate(dest, outgoing)
              && (r == Dispatched <==> answer(log, Validate(dest, outgoing))
                                       && answer(log + [Validate(dest, outgoing)], Deliver(dest, outgoing)))
              && (r != Dispatched ==> r == Failed(Module(RouterError)))
  {
    if p.sendOrigin(origin).Some? && p.sendOrigin(origin).value.parents == 0 {
      var interior := p.sendOrigin(origin).value.interior;
      OutgoingMeaning(interior, message);
      RoutedMeaning(answer, log, dest, Outgoing(interior, message));
    }
  }

  /** A failed reanchor ends the teleport with `CannotReanchor` before anything is executed
      or sent. */
  lemma TeleportReanchorFirst(p: PalletConfig, answer: Oracle, routerAnswer: RouterAnswer, e: Effects, origin: RuntimeOrigin, dest: Location, beneficiary: Location, assets: seq<Asset>)
    requires p.reanchor(assets, dest, p.universal).None?
    ensures Teleporting(p, answer, routerAnswer, e, origin, dest, beneficiary, assets) == Returned((e, Failed(Module(CannotReanchor))))
  {
  }

  /** The teleport executes locally before it sends: the ledger is what executing the
      local message left, the router is called only when that execution succeeded, and then
      with the destination's message only. */
  lemma TeleportExecutesBeforeSending(p: PalletConfig, answer: Oracle, routerAnswer: RouterAnswer, e: Effects, origin: RuntimeOrigin, dest: Location, beneficiary: Location, assets: seq<Asset>)
    requires p.reanchor(assets, dest, p.universal).Some?
    ensures var local := Execution(p, answer, e.ledger, origin, LocalTeleport(assets));
            var t := Teleporting(p, answer, routerAnswer, e, origin, dest, beneficiary, assets);
            && (t.Returned? <==> local.Returned?)
            && (t.Returned? ==>
                  && t.value.0.ledger == local.value.0
                  && (local.value.1.Failed? ==> t.value.0.router == e.router && t.value.1 == local.value.1)
                  && (local.value.1 == Dispatched ==>
                        (t.value.0.router, t.value.1)
                        == Sending(p, routerAnswer, e.router, origin, dest,
                                   RemoteTeleport(p.reanchor(assets, dest, p.universal).value, beneficiary))))
  {
  }

  /** The local part of a teleport, for an origin that resolves and a barrier that lets it
      through, always returns; it succeeds exactly when every withdrawal succeeded, and then
      the ledger has gained exactly the withdrawals of the assets from the origin; otherwise
      the transactional processor decides what stays. */
  lemma LocalTeleportMeaning(p: PalletConfig, answer: Oracle, ledger: seq<Call>, origin: RuntimeOrigin, assets: seq<Asset>)
    requires p.executeOrigin(origin).Some?
    requires p.executor.barrier(p.executeOrigin(origin).value, LocalTeleport(assets))
    ensures var location := p.executeOrigin(origin).value;
            var withdrawn := AttemptAll(answer, ledger, Withdrawals(assets, location));
            var run := Execution(p, answer, ledger, origin, LocalTeleport(assets));
            && run.Returned?
            && (run.value.1 == Dispatched <==> withdrawn.1.None?)
            && (run.value.1 != Dispatched ==> run.value.1 == Failed(Module(ExecutorError)))
            && (withdrawn.1.None? ==> run.value.0 == ledger + Withdrawals(assets, location))
            && (withdrawn.1.Some? ==> run.value.0 == Transact(p.executor.isTransactional, ledger, withdrawn))
  {
    var location := p.executeOrigin(origin).value;
    var cfg := p.executor;
    var m := Fresh(location, ledger);
    var xs := LocalTeleport(assets);
    var (m1, e1) := Executor.WithdrawStep(cfg.isTransactional, answer, m, assets);
    assert Executor.Step(cfg, answer, m, xs[0]) == Returned((m1, e1));
    Executor.ProcessedStep(cfg, answer, m, xs, 0, m1, e1);
    assert xs[0..] == xs;
    if e1.None? {
      var m2 := m1.(holding := HoldingSpec.TakenDefinite(m1.holding, assets).0);
      assert Executor.Step(cfg, answer, m1, xs[1]) == Returned((m2, None));
      Executor.ProcessedStep(cfg, answer, m1, xs, 1, m2, None);
      assert xs[2..] == [];
      var cs := Withdrawals(assets, location);
      AttemptAllMeaning(answer, ledger, cs);
      assert cs[..|cs|] == cs;
    }
  }

  /** A teleport that succeeds has withdrawn exactly the given assets from the origin's
      location on this chain, and has validated and then delivered to the destination the
      message receiving the reanchored assets, behind `DescendOrigin` when the sender is not
      `Here`. */
  lemma TeleportDispatched(p: PalletConfig, answer: Oracle, routerAnswer: RouterAnswer, e: Effects, origin: RuntimeOrigin, dest: Location, beneficiary: Location, assets: seq<Asset>)
    requires Teleporting(p, answer, routerAnswer, e, origin, dest, beneficiary, assets).Returned?
    requires Teleporting(p, answer, routerAnswer, e, origin, dest, beneficiary, assets).value.1 == Dispatched
    ensures p.executeOrigin(origin).Some? && p.reanchor(assets, dest, p.universal).Some?
    ensures p.sendOrigin(origin).Some? && p.sendOrigin(origin).value.parents == 0
    ensures var e' := Teleporting(p, answer, routerAnswer, e, origin, dest, beneficiary, assets).value.0;
            var remote := Outgoing(p.sendOrigin(origin).value.interior,
                                   RemoteTeleport(p.reanchor(assets, dest, p.universal).value, beneficiary));
            && e'.ledger == e.ledger + Withdrawals(assets, p.executeOrigin(origin).value)
            && e'.router == e.router + [Validate(dest, remote), Deliver(dest, remote)]
  {
    var local := Execution(p, answer, e.ledger, origin, LocalTeleport(assets));
    assert local.Returned? && local.value.1 == Dispatched;
    var location := p.executeOrigin(origin).value;
    assert p.executor.barrier(location, LocalTeleport(assets));
    LocalTeleportMeaning(p, answer, e.ledger, origin, assets);
    var interior := Interior(p.sendOrigin(origin).value).value;
    RoutedMeaning(routerAnswer, e.router, dest,
                  Outgoing(interior, RemoteTeleport(p.reanchor(assets, dest, p.universal).value, beneficiary)));
  }
}

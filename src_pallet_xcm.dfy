/** The pallet-XCM façade of the workshop's `src/fundamentals` tree. Its dispatchables hand
    the versioned arguments straight on; `do_execute`, `do_send` and `do_teleport_assets`
    convert them themselves, after resolving the origin, and `do_execute` hands the executor's
    error through instead of reporting `ExecutorError`. */
module SrcPalletXcm {
  import opened Xcm
  import opened Env
  import opened Vm
  import opened PalletSupport
  import Executor
  import PalletXcm

  // ---- The calls as functions --------------------------------------------------------------

  /** `do_execute`: the origin first, then the message's conversion, then the executor, whose
      error (the outcome read by `ensure_complete`) is the call's error. */
  ghost function Execution(p: PalletConfig, answer: Oracle, ledger: seq<Call>, origin: RuntimeOrigin, message: Versioned<seq<Instruction>>): Run<(seq<Call>, DispatchResult)>
  {
    match p.executeOrigin(origin)
    case None => Returned((ledger, Failed(DispatchError.BadOrigin)))
    case Some(location) =>
      match FromVersioned(message)
      case None => Returned((ledger, Failed(Module(BadVersion))))
      case Some(xs) =>
        match Executor.Executed(p.executor, answer, ledger, location, xs)
        case Panicked => Panicked
        case Returned((outcome, ledger')) =>
          var result := Executor.EnsureComplete(outcome);
          Returned((ledger', if result.Ok? then Dispatched else Failed(ExecutionFailed(result.error))))
  }

  /** `do_send`: the origin, its interior, then the destination's and the message's
      conversions, then the prefixed message routed. */
  function Sending(p: PalletConfig, answer: RouterAnswer, log: seq<RouterCall>, origin: RuntimeOrigin, dest: Versioned<Location>, message: Versioned<seq<Instruction>>): (seq<RouterCall>, DispatchResult)
  {
    match p.sendOrigin(origin)
    case None => (log, Failed(DispatchError.BadOrigin))
    case Some(location) =>
      match Interior(location)
      case None => (log, Failed(Module(InvalidOrigin)))
      case Some(interior) =>
        match FromVersioned(dest)
        case None => (log, Failed(Module(BadVersion)))
        case Some(d) =>
          match FromVersioned(message)
          case None => (log, Failed(Module(BadVersion)))
          case Some(xs) => Routed(answer, log, d, Outgoing(interior, xs))
  }

  /** `do_teleport_assets`: the three conversions, the reanchor, then the local message
      executed and, if that succeeded, the destination's message sent, each wrapped as a
      version-4 value. */
  ghost function Teleporting(p: PalletConfig, answer: Oracle, routerAnswer: RouterAnswer, e: Effects, origin: RuntimeOrigin, dest: Versioned<Location>, beneficiary: Versioned<Location>, assets: Versioned<seq<Asset>>): Run<(Effects, DispatchResult)>
  {
    match FromVersioned(dest)
    case None => Returned((e, Failed(Module(BadVersion))))
    case Some(d) =>
      match FromVersioned(beneficiary)
      case None => Returned((e, Failed(Module(BadVersion))))
      case Some(b) =>
        match FromVersioned(assets)
        case None => Returned((e, Failed(Module(BadVersion))))
        case Some(a) =>
          match p.reanchor(a, d, p.universal)
          case None => Returned((e, Failed(Module(CannotReanchor))))
          case Some(reanchored) =>
            match Execution(p, answer, e.ledger, origin, V4(LocalTeleport(a)))
            case Panicked => Panicked
            case Returned((ledger, r)) =>
              if r.Failed? then Returned((e.(ledger := ledger), r))
              else
                var (log, sent) := Sending(p, routerAnswer, e.router, origin, V4(d), V4(RemoteTeleport(reanchored, b)));
                Returned((Effects(ledger, log), sent))
  }

  // ---- The calls as the pallet makes them ----------------------------------------------------

  method DoExecute(p: PalletConfig, world: World, origin: RuntimeOrigin, message: Versioned<seq<Instruction>>) returns (r: Run<DispatchResult>)
    modifies world
    ensures r.Returned? <==> Execution(p, world.answer, old(world.ledger), origin, message).Returned?
    ensures r.Returned? ==> (world.ledger, r.value) == Execution(p, world.answer, old(world.ledger), origin, message).value
  {
    var location := p.executeOrigin(origin);
    if location.None? {
      return Returned(Failed(DispatchError.BadOrigin));
    }
    var xs := FromVersioned(message);
    if xs.None? {
      return Returned(Failed(Module(BadVersion)));
    }
    var outcome := Executor.Execute(p.executor, world, location.value, xs.value);
    match outcome
    case Panicked =>
      return Panicked;
    case Returned(o) =>
      var result := Executor.EnsureComplete(o);
      if result.Err? {
        return Returned(Failed(ExecutionFailed(result.error)));
      }
      return Returned(Dispatched);
  }

  method DoSend(p: PalletConfig, router: Router, origin: RuntimeOrigin, dest: Versioned<Location>, message: Versioned<seq<Instruction>>) returns (r: DispatchResult)
    modifies router
    ensures (router.log, r) == Sending(p, router.answer, old(router.log), origin, dest, message)
  {
    var location := p.sendOrigin(origin);
    if location.None? {
      return Failed(DispatchError.BadOrigin);
    }
    var interior := Interior(location.value);
    if interior.None? {
      return Failed(Module(InvalidOrigin));
    }
    var d := FromVersioned(dest);
    if d.None? {
      return Failed(Module(BadVersion));
    }
    var xs := FromVersioned(message);
    if xs.None? {
      return Failed(Module(BadVersion));
    }
    var outgoing := xs.value;
    if interior.value != [] {
      outgoing := [DescendOrigin(interior.value)] + outgoing;
    }
    r := router.Route(d.value, outgoing);
  }

  method DoTeleportAssets(p: PalletConfig, world: World, router: Router, origin: RuntimeOrigin, dest: Versioned<Location>, beneficiary: Versioned<Location>, assets: Versioned<seq<Asset>>, feeAssetItem: u32) returns (r: Run<DispatchResult>)
    modifies world, router
    ensures var spec := Teleporting(p, world.answer, router.answer, Effects(old(world.ledger), old(router.log)), origin, dest, beneficiary, assets);
            && (r.Returned? <==> spec.Returned?)
            && (r.Returned? ==> (Effects(world.ledger, router.log), r.value) == spec.value)
  {
    var d := FromVersioned(dest);
    if d.None? {
      return Returned(Failed(Module(BadVersion)));
    }
    var b := FromVersioned(beneficiary);
    if b.None? {
      return Returned(Failed(Module(BadVersion)));
    }
    var a := FromVersioned(assets);
    if a.None? {
      return Returned(Failed(Module(BadVersion)));
    }
    var reanchored := p.reanchor(a.value, d.value, p.universal);
    if reanchored.None? {
      return Returned(Failed(Module(CannotReanchor)));
    }
    var local := [WithdrawAsset(a.value), BurnAsset(a.value)];
    var onDest := [ReceiveTeleportedAsset(reanchored.value), ClearOrigin, DepositAsset(Wild(All), b.value)];
    r := DoExecute(p, world, origin, V4(local));
    if r.Panicked? || r.value.Failed? {
      return;
    }
    var sent := DoSend(p, router, origin, V4(d.value), V4(onDest));
    r := Returned(sent);
  }

  /** `do_reserve_transfer_assets` is `unimplemented!()`. */
  method DoReserveTransferAssets(p: PalletConfig, origin: RuntimeOrigin, dest: Versioned<Location>, beneficiary: Versioned<Location>, assets: Versioned<seq<Asset>>, feeAssetItem: u32) returns (r: Run<DispatchResult>)
    ensures r.Panicked?
  {
    r := Panicked;
  }

  // ---- Properties ------------------------------------------------------------------------------

  /** `do_execute` looks at the origin before the message: an origin `ExecuteXcmOrigin`
      refuses is reported even for an unconvertible message, which is otherwise a
      `BadVersion`; in both cases the ledger is untouched. After that the call succeeds exactly
      when the outcome is `Complete`, and fails with the executor's own error otherwise. */
  lemma ExecutionMeaning(p: PalletConfig, answer: Oracle, ledger: seq<Call>, origin: RuntimeOrigin, message: Versioned<seq<Instruction>>)
    ensures p.executeOrigin(origin).None? ==>
              Execution(p, answer, ledger, origin, message) == Returned((ledger, Failed(DispatchError.BadOrigin)))
    ensures p.executeOrigin(origin).Some? && FromVersioned(message).None? ==>
              Execution(p, answer, ledger, origin, message) == Returned((ledger, Failed(Module(BadVersion))))
    ensures p.executeOrigin(origin).Some? && FromVersioned(message).Some? ==>
              var run := Executor.Executed(p.executor, answer, ledger, p.executeOrigin(origin).value, FromVersioned(message).value);
              && (Execution(p, answer, ledger, origin, message).Returned? <==> run.Returned?)
              && (run.Returned? ==>
                    var (l, r) := Execution(p, answer, ledger, origin, message).value;
                    && l == run.value.1
                    && (r == Dispatched <==> run.value.0.Complete?)
                    && (r != Dispatched ==> r == Failed(ExecutionFailed(run.value.0.error))))
  {
  }

  /** `do_send` fails, without calling the router, in this order: an origin `SendXcmOrigin`
      refuses, a non-interior origin (`InvalidOrigin`), an unconvertible destination, an
      unconvertible message (both `BadVersion`). */
  lemma SendingErrorOrder(p: PalletConfig, answer: RouterAnswer, log: seq<RouterCall>, origin: RuntimeOrigin, dest: Versioned<Location>, message: Versioned<seq<Instruction>>)
    ensures p.sendOrigin(origin).None? ==>
              Sending(p, answer, log, origin, dest, message) == (log, Failed(DispatchError.BadOrigin))
    ensures p.sendOrigin(origin).Some? && p.sendOrigin(origin).value.parents != 0 ==>
              Sending(p, answer, log, origin, dest, message) == (log, Failed(Module(InvalidOrigin)))
    ensures p.sendOrigin(origin).Some? && p.sendOrigin(origin).value.parents == 0
            && (FromVersioned(dest).None? || FromVersioned(message).None?) ==>
              Sending(p, answer, log, origin, dest, message) == (log, Failed(Module(BadVersion)))
  {
  }

  /** Once every check has passed, this `do_send` sends what the fundamentals version sends:
      the same router calls (validation of the message behind `DescendOrigin(interior)`
      unless the interior is `Here`, then delivery) and the same result. */
  lemma SendingAgrees(p: PalletConfig, answer: RouterAnswer, log: seq<RouterCall>, origin: RuntimeOrigin, dest: Versioned<Location>, message: Versioned<seq<Instruction>>)
    requires FromVersioned(dest).Some? && FromVersioned(message).Some?
    ensures Sending(p, answer, log, origin, dest, message)
            == PalletXcm.Sending(p, answer, log, origin, FromVersioned(dest).value, FromVersioned(message).value)
  {
  }

  /** The teleport refuses an unconvertible destination, beneficiary or asset list with
      `BadVersion`, and then a failed reanchor with `CannotReanchor`, before anything is
      executed or sent. */
  lemma TeleportErrorsFirst(p: PalletConfig, answer: Oracle, routerAnswer: RouterAnswer, e: Effects, origin: RuntimeOrigin, dest: Versioned<Location>, beneficiary: Versioned<Location>, assets: Versioned<seq<Asset>>)
    ensures FromVersioned(dest).None? || FromVersioned(beneficiary).None? || FromVersioned(assets).None? ==>
              Teleporting(p, answer, routerAnswer, e, origin, dest, beneficiary, assets) == Returned((e, Failed(Module(BadVersion))))
    ensures FromVersioned(dest).Some? && FromVersioned(beneficiary).Some? && FromVersioned(assets).Some?
            && p.reanchor(FromVersioned(assets).value, FromVersioned(dest).value, p.universal).None? ==>
              Teleporting(p, answer, routerAnswer, e, origin, dest, beneficiary, assets) == Returned((e, Failed(Module(CannotReanchor))))
  {
  }

  /** With its arguments converted, this teleport does to the world what the fundamentals
      teleport does: it executes the same local message, sends the same message to the same
      destination only after that succeeded, and succeeds in exactly the same cases; only a
      failed local execution is reported by the executor's error instead of
      `ExecutorError`. */
  lemma TeleportAgrees(p: PalletConfig, answer: Oracle, routerAnswer: RouterAnswer, e: Effects, origin: RuntimeOrigin, dest: Versioned<Location>, beneficiary: Versioned<Location>, assets: Versioned<seq<Asset>>)
    requires FromVersioned(dest).Some? && FromVersioned(beneficiary).Some? && FromVersioned(assets).Some?
    ensures var t := Teleporting(p, answer, routerAnswer, e, origin, dest, beneficiary, assets);
            var u := PalletXcm.Teleporting(p, answer, routerAnswer, e, origin, FromVersioned(dest).value,
                                           FromVersioned(beneficiary).value, FromVersioned(assets).value);
            && (t.Returned? <==> u.Returned?)
            && (t.Returned? ==> t.value.0 == u.value.0 && (t.value.1 == Dispatched <==> u.value.1 == Dispatched))
  {
    var d, b, a := FromVersioned(dest).value, FromVersioned(beneficiary).value, FromVersioned(assets).value;
    if p.reanchor(a, d, p.universal).Some? {
      var re := p.reanchor(a, d, p.universal).value;
      ExecutionAgrees(p, answer, e.ledger, origin, LocalTeleport(a));
      SendingAgrees(p, routerAnswer, e.router, origin, V4(d), V4(RemoteTeleport(re, b)));
    }
  }

  /** On a version-4 message this `do_execute` changes the ledger as the fundamentals version
      does and succeeds in exactly the same cases. */
  lemma ExecutionAgrees(p: PalletConfig, answer: Oracle, ledger: seq<Call>, origin: RuntimeOrigin, xs: seq<Instruction>)
    ensures var t := Execution(p, answer, ledger, origin, V4(xs));
            var u := PalletXcm.Execution(p, answer, ledger, origin, xs);
            && (t.Returned? <==> u.Returned?)
            && (t.Returned? ==> t.value.0 == u.value.0 && (t.value.1 == Dispatched <==> u.value.1 == Dispatched))
  {
    assert FromVersioned(V4(xs)) == Some(xs);
  }
}

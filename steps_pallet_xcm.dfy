/** The pallet-XCM façade of the workshop's step 25. Its `do_execute` and `do_send` are the
    fundamentals crate's (`PalletXcm.DoExecute` and `PalletXcm.DoSend`); its dispatchables
    convert their versioned arguments first, and its `do_teleport_assets` is still `todo!()`,
    like `do_reserve_transfer_assets`, which is `unimplemented!()`. */
module StepsPalletXcm {
  import opened Xcm
  import opened Env
  import opened PalletSupport
  import PalletXcm

  /** The `execute` dispatchable: the message converted, then `do_execute`. */
  method Execute(p: PalletConfig, world: World, origin: RuntimeOrigin, message: Versioned<seq<Instruction>>, maxWeight: nat) returns (r: Run<DispatchResult>)
    modifies world
    ensures FromVersioned(message).None? ==> r == Returned(Failed(Module(BadVersion))) && world.ledger == old(world.ledger)
    ensures FromVersioned(message).Some? ==>
              var run := PalletXcm.Execution(p, world.answer, old(world.ledger), origin, FromVersioned(message).value);
              && (r.Returned? <==> run.Returned?)
              && (r.Returned? ==> (world.ledger, r.value) == run.value)
  {
    var xs := FromVersioned(message);
    if xs.None? {
      return Returned(Failed(Module(BadVersion)));
    }
    r := PalletXcm.DoExecute(p, world, origin, xs.value);
  }

  /** The `send` dispatchable: the destination converted, then the message, then `do_send`. */
  method Send(p: PalletConfig, router: Router, origin: RuntimeOrigin, dest: Versioned<Location>, message: Versioned<seq<Instruction>>) returns (r: DispatchResult)
    modifies router
    ensures FromVersioned(dest).None? || FromVersioned(message).None? ==>
              r == Failed(Module(BadVersion)) && router.log == old(router.log)
    ensures FromVersioned(dest).Some? && FromVersioned(message).Some? ==>
              (router.log, r) == PalletXcm.Sending(p, router.answer, old(router.log), origin,
                                                   FromVersioned(dest).value, FromVersioned(message).value)
  {
    var d := FromVersioned(dest);
    if d.None? {
      return Failed(Module(BadVersion));
    }
    var xs := FromVersioned(message);
    if xs.None? {
      return Failed(Module(BadVersion));
    }
    r := PalletXcm.DoSend(p, router, origin, d.value, xs.value);
  }

  /** The `teleport_assets` dispatchable: an unconvertible destination, beneficiary or asset
      list is a `BadVersion`; with all three converted, `do_teleport_assets` panics. */
  method TeleportAssets(p: PalletConfig, origin: RuntimeOrigin, dest: Versioned<Location>, beneficiary: Versioned<Location>, assets: Versioned<seq<Asset>>, feeAssetItem: u32) returns (r: Run<DispatchResult>)
    ensures r.Returned? <==> FromVersioned(dest).None? || FromVersioned(beneficiary).None? || FromVersioned(assets).None?
    ensures r.Returned? ==> r.value == Failed(Module(BadVersion))
  {
    var d := FromVersioned(dest);
    if d.None? {
      return Returned(Failed(Module(BadVersion)));
    }
    var b := FromVersioned(beneficiary);
    if b.None? {
      return Returned(Failed(Module(BadVersion)));
    }
    var a := FromVersioned(assets);
    if a.None? {
      return Returned(Failed(Module(BadVersion)));
    }
    r := Panicked;
  }

  /** The `reserve_transfer_assets` dispatchable: the same conversions, then
      `do_reserve_transfer_assets` panics. */
  method ReserveTransferAssets(p: PalletConfig, origin: RuntimeOrigin, dest: Versioned<Location>, beneficiary: Versioned<Location>, assets: Versioned<seq<Asset>>, feeAssetItem: u32) returns (r: Run<DispatchResult>)
    ensures r.Returned? <==> FromVersioned(dest).None? || FromVersioned(beneficiary).None? || FromVersioned(assets).None?
    ensures r.Returned? ==> r.value == Failed(Module(BadVersion))
  {
    var d := FromVersioned(dest);
    if d.None? {
      return Returned(Failed(Module(BadVersion)));
    }
    var b := FromVersioned(beneficiary);
    if b.None? {
      return Returned(Failed(Module(BadVersion)));
    }
    var a := FromVersioned(assets);
    if a.None? {
      return Returned(Failed(Module(BadVersion)));
    }
    r := Panicked;
  }
}

/** What the three versions of the pallet-XCM façade share: the runtime origin and its
    resolution, the pallet's errors, versioned values, the router, and the messages a teleport
    builds. The router's transport, the origin converters and `Assets::reanchor` belong to
    other crates; they appear here as the answers they give. */
module PalletSupport {
  import opened Xcm
  import opened Vm
  import opened Env

  /** `frame_system::RawOrigin`: the origin a dispatchable is called with. */
  datatype RuntimeOrigin = Root | Signed(account: nat) | Unsigned

  /** The pallet's `Error` enum. */
  datatype PalletError = BadVersion | ExecutorError | InvalidOrigin | RouterError | CannotReanchor

  /** The error of a `DispatchResult`: an origin the `EnsureOrigin` refused, one of the
      pallet's errors, or an executor error handed through unchanged. */
  datatype DispatchError = BadOrigin | Module(error: PalletError) | ExecutionFailed(cause: XcmError)

  datatype DispatchResult = Dispatched | Failed(error: DispatchError)

  /** `VersionedXcm`, `VersionedLocation`, `VersionedAssets`: a version-4 value, or an older
      version together with what converting it to version 4 yields (nothing when the value
      has no version-4 form). */
  datatype Versioned<+T> = V4(value: T) | Older(version: nat, upgraded: Option<T>)

  /** The `try_into` from a versioned value to the version-4 type. */
  function FromVersioned<T>(v: Versioned<T>): Option<T>
  {
    match v
    case V4(x) => Some(x)
    case Older(_, upgraded) => upgraded
  }

  /** `Junctions::try_from(Location)`: only a location without parents is an interior
      location of this chain. */
  function Interior(l: Location): (r: Option<Junctions>)
    ensures r.Some? <==> l.parents == 0
    ensures r.Some? ==> Location(0, r.value) == l
  {
    if l.parents == 0 then Some(l.interior) else None
  }

  /** The pallet's configuration: the executor's configuration, the two `EnsureOrigin`s,
      the chain's `UniversalLocation`, and `Assets::reanchor` as the answer it gives for
      assets, a destination and the context. */
  datatype PalletConfig = PalletConfig(
    executor: Config,
    executeOrigin: RuntimeOrigin -> Option<Location>,
    sendOrigin: RuntimeOrigin -> Option<Location>,
    universal: Junctions,
    reanchor: (seq<Asset>, Location, Junctions) -> Option<seq<Asset>>)

  // ---- The router ---------------------------------------------------------------------------

  /** One call into `SendXcm`: `validate` of a message for a destination, or `deliver` of the
      ticket `validate` returned (the ticket is the validated message). */
  datatype RouterCall =
    | Validate(dest: Location, message: seq<Instruction>)
    | Deliver(dest: Location, message: seq<Instruction>)

  /** Decides, from the calls made so far, whether the router accepts a call. */
  type RouterAnswer = (seq<RouterCall>, RouterCall) -> bool

  /** `validate`, then `deliver` only when `validate` accepted; a refusal of either is a
      `RouterError`. The router's calls afterwards and the result. */
  function Routed(answer: RouterAnswer, log: seq<RouterCall>, dest: Location, message: seq<Instruction>): (seq<RouterCall>, DispatchResult)
  {
    var validated := log + [Validate(dest, message)];
    if !answer(log, Validate(dest, message)) then (validated, Failed(Module(RouterError)))
    else
      var delivered := validated + [Deliver(dest, message)];
      if !answer(validated, Deliver(dest, message)) then (delivered, Failed(Module(RouterError)))
      else (delivered, Dispatched)
  }

  /** Routing validates the message first and delivers it only once validated; it succeeds
      exactly when both calls were accepted, and every failure is a `RouterError`. */
  lemma RoutedMeaning(answer: RouterAnswer, log: seq<RouterCall>, dest: Location, message: seq<Instruction>)
    ensures var (log', r) := Routed(answer, log, dest, message);
            && log' == log + [Validate(dest, message)]
                         + (if answer(log, Validate(dest, message)) then [Deliver(dest, message)] else [])
            && (r == Dispatched <==> answer(log, Validate(dest, message))
                                     && answer(log + [Validate(dest, message)], Deliver(dest, message)))
            && (r != Dispatched ==> r == Failed(Module(RouterError)))
  {
  }

  /** The router as the pallet calls it: every call is recorded, and the router's answer
      decides whether it was accepted. */
  class Router {
    var log: seq<RouterCall>
    const answer: RouterAnswer

    constructor (answer: RouterAnswer, log: seq<RouterCall>)
      ensures this.answer == answer && this.log == log
    {
      this.answer := answer;
      this.log := log;
    }

    method Call(c: RouterCall) returns (accepted: bool)
      modifies this
      ensures accepted == answer(old(log), c) && log == old(log) + [c]
    {
      accepted := answer(log, c);
      log := log + [c];
    }

    /** `T::XcmRouter::validate` followed by `T::XcmRouter::deliver`. */
    method Route(dest: Location, message: seq<Instruction>) returns (r: DispatchResult)
      modifies this
      ensures (log, r) == Routed(answer, old(log), dest, message)
    {
      var validated := Call(Validate(dest, message));
      if !validated {
        return Failed(Module(RouterError));
      }
      var delivered := Call(Deliver(dest, message));
      if !delivered {
        return Failed(Module(RouterError));
      }
      r := Dispatched;
    }
  }

  // ---- The messages of a send and of a teleport ---------------------------------------------

  /** The message `do_send` hands to the router: `DescendOrigin(interior)` inserted at the
      front unless the sender's interior is `Here`. */
  function Outgoing(interior: Junctions, message: seq<Instruction>): seq<Instruction>
  {
    if interior != [] then [DescendOrigin(interior)] + message else message
  }

  /** The front is `DescendOrigin(interior)` exactly when the interior is not `Here`, and
      what follows it is the message, unchanged. */
  lemma OutgoingMeaning(interior: Junctions, message: seq<Instruction>)
    ensures |Outgoing(interior, message)| == |message| + (if interior == [] then 0 else 1)
    ensures interior == [] ==> Outgoing(interior, message) == message
    ensures interior != [] ==> Outgoing(interior, message)[0] == DescendOrigin(interior)
                               && Outgoing(interior, message)[1..] == message
  {
  }

  /** The teleport's local message: the assets, as given, withdrawn from the origin and then
      burnt. */
  function LocalTeleport(assets: seq<Asset>): seq<Instruction>
  {
    [WithdrawAsset(assets), BurnAsset(assets)]
  }

  /** The teleport's message for the destination: the reanchored assets received, the
      origin cleared, and everything in the holding deposited with the beneficiary. */
  function RemoteTeleport(reanchored: seq<Asset>, beneficiary: Location): seq<Instruction>
  {
    [ReceiveTeleportedAsset(reanchored), ClearOrigin, DepositAsset(Wild(All), beneficiary)]
  }

  /** What the pallet has done to the world: the asset transactor's ledger and the router's
      calls. */
  datatype Effects = Effects(ledger: seq<Call>, router: seq<RouterCall>)
}

/** What the three executors share: the configuration they are built with and the state of the
    virtual machine as a value. */
module Vm {
  import opened Xcm
  import opened HoldingSpec
  import opened Env

  /** The parts of `XcmConfig` the executors consult. The transactional processor is reduced
      to its `IS_TRANSACTIONAL` flag (a transactional processor also rolls the ledger back on
      an error); the barrier's `should_execute` to whether it lets a message from an origin
      through. The asset transactor is the world's oracle. */
  datatype Config = Config(isTransactional: bool, barrier: (Location, seq<Instruction>) -> bool)

  /** The executor's holding register and context, and the world's ledger. */
  datatype VmState = VmState(holding: Contents, context: XcmContext, ledger: seq<Call>)

  /** `XcmExecutor::new(origin)`: an empty holding, the origin, the default message id and no
      topic. */
  function Fresh(origin: Location, ledger: seq<Call>): VmState
  {
    VmState(Empty, XcmContext(Some(origin), DEFAULT_MESSAGE_ID, None), ledger)
  }

  function WithOrigin(m: VmState, origin: Option<Location>): VmState
  {
    m.(context := m.context.(origin := origin))
  }
}

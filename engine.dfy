/** The underlying engine, kept abstract: a world of code, nonces and balances
    per address, a snapshot journal, and opaque runs of creations, messages,
    interpretation and native execution. */
module Engine {
  import opened Base

  datatype World = World(
    code: map<CanonicalAddress, Bytes>,
    nonce: map<CanonicalAddress, nat>,
    balance: map<CanonicalAddress, nat>)

  /** get_code: the empty byte string for an address without code. */
  function CodeAt(w: World, a: CanonicalAddress): Bytes {
    if a in w.code then w.code[a] else []
  }

  function NonceAt(w: World, a: CanonicalAddress): nat {
    if a in w.nonce then w.nonce[a] else 0
  }

  /** increment_nonce on a world value. */
  function BumpNonce(w: World, a: CanonicalAddress): (r: World)
    ensures NonceAt(r, a) == NonceAt(w, a) + 1
    ensures forall b :: b != a ==> NonceAt(r, b) == NonceAt(w, b)
    ensures r.code == w.code && r.balance == w.balance
  {
    w.(nonce := w.nonce[a := NonceAt(w, a) + 1])
  }

  /** An engine error, opaque to the harness apart from whether it erases
      the frame's return data (a Revert does not). */
  datatype VMError = VMError(id: nat, erasesReturnData: bool)

  /** A finished computation: its error, if any, and its output as the frame
      reports it. */
  datatype ComputationResult = ComputationResult(error: Option<VMError>, output: Bytes) {
    predicate IsError() { error.Some? }
  }

  /** An engine message. `to` is None for CREATE_CONTRACT_ADDRESS (the empty
      address); `codeAddress` is the address whose code runs, which differs
      from `to` for DELEGATECALL and CALLCODE; startPc and fakeCodesize are
      the extra attributes execute_code sets, absent (0 and None) on other
      messages. */
  datatype Message = Message(
    sender: CanonicalAddress,
    to: Option<CanonicalAddress>,
    codeAddress: Option<CanonicalAddress>,
    gas: nat,
    value: nat,
    code: Bytes,
    data: Bytes,
    createAddress: Option<CanonicalAddress>,
    isStatic: bool,
    startPc: int,
    fakeCodesize: Option<int>)
  {
    /** msg.code_address (None stands for the empty address). */
    function CodeAddress(): Option<CanonicalAddress> { codeAddress }

    /** msg.storage_address: the create address when set, otherwise the recipient. */
    function StorageAddress(): Option<CanonicalAddress> {
      if createAddress.Some? then createAddress else to
    }
  }

  /** What a native handler's executor does to a frame: finish, raise the
      engine's Halt signal, or raise an engine error; each with the output the
      frame holds at that point. */
  datatype NativeOutcome =
    | NativeReturned(output: Bytes)
    | NativeHalted(output: Bytes)
    | NativeFailed(error: VMError, output: Bytes)

  /** The engine's state object (vm.state) with the engine's own code as
      uninterpreted functions of the world. */
  class EvmState {
    var world: World
    var journal: seq<World>
    /** super().apply_create_message */
    const runCreate: (World, Message) -> (World, ComputationResult)
    /** apply_message */
    const runMessage: (World, Message) -> (World, ComputationResult)
    /** super().apply_computation: full interpretation */
    const runInterpreter: (World, Message) -> (World, ComputationResult)
    /** contract.ir_executor.exec inside a fresh frame */
    const runNative: (World, Message, Contract) -> (World, NativeOutcome)
    /** generate_contract_address (RLP and keccak of sender and nonce) */
    const contractAddressOf: (CanonicalAddress, nat) -> CanonicalAddress

    constructor (world: World,
                 runCreate: (World, Message) -> (World, ComputationResult),
                 runMessage: (World, Message) -> (World, ComputationResult),
                 runInterpreter: (World, Message) -> (World, ComputationResult),
                 runNative: (World, Message, Contract) -> (World, NativeOutcome),
                 contractAddressOf: (CanonicalAddress, nat) -> CanonicalAddress)
      ensures this.world == world && journal == []
      ensures this.runCreate == runCreate && this.runMessage == runMessage
      ensures this.runInterpreter == runInterpreter && this.runNative == runNative
      ensures this.contractAddressOf == contractAddressOf
    {
      this.world := world;
      journal := [];
      this.runCreate := runCreate;
      this.runMessage := runMessage;
      this.runInterpreter := runInterpreter;
      this.runNative := runNative;
      this.contractAddressOf := contractAddressOf;
    }

    function GetCode(a: CanonicalAddress): Bytes
      reads this
    {
      CodeAt(world, a)
    }

    function GetNonce(a: CanonicalAddress): nat
      reads this
    {
      NonceAt(world, a)
    }

    method Snapshot() returns (id: nat)
      modifies this
      ensures id == |old(journal)| && journal == old(journal) + [world] && world == old(world)
    {
      id := |journal|;
      journal := journal + [world];
    }

    /** revert(id): back to the world saved by snapshot id, dropping it and
        every later snapshot. */
    method Revert(id: nat)
      requires id < |journal|
      modifies this
      ensures world == old(journal[id]) && journal == old(journal[..id])
    {
      world := journal[id];
      journal := journal[..id];
    }

    method IncrementNonce(a: CanonicalAddress)
      modifies this
      ensures world == BumpNonce(old(world), a) && journal == old(journal)
    {
      world := BumpNonce(world, a);
    }

    method SetBalance(a: CanonicalAddress, v: nat)
      modifies this
      ensures world == old(world).(balance := old(world).balance[a := v]) && journal == old(journal)
    {
      world := world.(balance := world.balance[a := v]);
    }
  }
}

/** titanoboa_computation: the per-call frame extension, its dispatch
    decision, and creation-time resolution of EIP-1167 proxies. */
module Frame {
  import opened Base
  import opened Engine
  import opened Opcodes
  import Precompiles
  import CodeStream

  /** _SLOW, _FAST, _LUDICROUS. */
  datatype Speed = Slow | Fast | Ludicrous

  /** GasMeter, ProfilingGasMeter, NoGasMeter. */
  datatype GasMeterClass = StandardMeter | ProfilingMeter | NoMeter

  /** `self._gas_meter_class(self.msg.gas)`. */
  datatype GasMeter = GasMeter(meterClass: GasMeterClass, startGas: nat)

  // ---------------------------------------------------------------- EIP-1167

  /** The 45-byte runtime code of an EIP-1167 minimal proxy: this prefix, the
      20-byte delegate address, this suffix. */
  const EIP1167_PREFIX: Bytes := [0x36, 0x3d, 0x3d, 0x37, 0x3d, 0x3d, 0x3d, 0x36, 0x3d, 0x73]
  const EIP1167_SUFFIX: Bytes :=
    [0x5a, 0xf4, 0x3d, 0x82, 0x80, 0x3e, 0x90, 0x3d, 0x91, 0x60, 0x2b, 0x57, 0xfd, 0x5b, 0xf3]

  /** is_eip1167_contract. */
  predicate IsEip1167(code: Bytes): (b: bool)
    ensures b <==> exists delegate: CanonicalAddress :: code == Eip1167Code(delegate)
  {
    if |code| == 45 && code[..10] == EIP1167_PREFIX && code[30..] == EIP1167_SUFFIX then
      assert code == Eip1167Code(code[10..30]);
      true
    else
      false
  }

  /** extract_eip1167_address. */
  function Eip1167Delegate(code: Bytes): (delegate: CanonicalAddress)
    requires IsEip1167(code)
    ensures code == EIP1167_PREFIX + delegate + EIP1167_SUFFIX
  {
    code[10..30]
  }

  /** The proxy code that delegates to `delegate`. */
  function Eip1167Code(delegate: CanonicalAddress): (code: Bytes)
    ensures |code| == 45
  {
    EIP1167_PREFIX + delegate + EIP1167_SUFFIX
  }

  lemma Eip1167RoundTrip(delegate: CanonicalAddress)
    ensures IsEip1167(Eip1167Code(delegate))
    ensures Eip1167Delegate(Eip1167Code(delegate)) == delegate
  {
  }

  /** Proxy code is determined by its delegate. */
  lemma Eip1167Determined(code: Bytes)
    requires IsEip1167(code)
    ensures code == Eip1167Code(Eip1167Delegate(code))
  {
  }

  // -------------------------------------------------- creation-time resolution

  /** deployer.at(address): a copy of the wrapper rebound to `address`. */
  function At(c: Contract, address: CanonicalAddress): (r: Contract)
    ensures r.deployer == c.deployer && r.address == Some(address) && r.createdFrom.None?
  {
    Contract(c.deployer, Some(address), None)
  }

  /** The address apply_create_message registers at: msg.storage_address,
      overwritten by the delegate when msg.code is an EIP-1167 proxy. */
  function ResolutionAddress(msg: Message): (a: CanonicalAddress)
    requires msg.StorageAddress().Some?
    ensures IsEip1167(msg.code) ==> msg.code == Eip1167Code(a)
    ensures !IsEip1167(msg.code) ==> Some(a) == msg.StorageAddress()
  {
    if IsEip1167(msg.code) then Eip1167Delegate(msg.code) else msg.StorageAddress().value
  }

  /** The bytecode looked up in the code registry: msg.code, or the
      delegate's code (in the world after the creation) for a proxy. */
  function ResolutionCode(msg: Message, w: World): (code: Bytes)
    ensures IsEip1167(msg.code) ==> code == CodeAt(w, Eip1167Delegate(msg.code))
    ensures !IsEip1167(msg.code) ==> code == msg.code
  {
    if IsEip1167(msg.code) then CodeAt(w, Eip1167Delegate(msg.code)) else msg.code
  }

  /** What apply_create_message registers after the engine's creation: the
      address and the wrapper, or nothing. */
  function CreateResolution(codeRegistry: map<Bytes, Contract>, w: World, msg: Message)
    : (r: Option<(CanonicalAddress, Contract)>)
    requires msg.StorageAddress().Some?
    ensures r.Some? <==> ResolutionCode(msg, w) in codeRegistry
    ensures r.Some? ==>
              var (address, target) := r.value;
              && address == ResolutionAddress(msg)
              && target.createdFrom == Some(msg.sender)
              && target.address == Some(address)
              && target.deployer == codeRegistry[ResolutionCode(msg, w)].deployer
  {
    var address := ResolutionAddress(msg);
    var bytecode := ResolutionCode(msg, w);
    if bytecode in codeRegistry then
      Some((address, At(codeRegistry[bytecode], address).(createdFrom := Some(msg.sender))))
    else None
  }

  /** Deploying an EIP-1167 proxy to a delegate whose code is registered
      attaches a wrapper at the delegate's address (the address the source
      overwrites contract_address with), created from the deployer. */
  lemma ProxyCreationRegistersAtDelegate(codeRegistry: map<Bytes, Contract>, w: World, msg: Message,
                                         delegate: CanonicalAddress)
    requires msg.StorageAddress().Some? && msg.code == Eip1167Code(delegate)
    requires CodeAt(w, delegate) in codeRegistry
    ensures CreateResolution(codeRegistry, w, msg)
            == Some((delegate, Contract(codeRegistry[CodeAt(w, delegate)].deployer, Some(delegate), Some(msg.sender))))
  {
  }

  /** Code that is not a proxy resolves by itself at the storage address. */
  lemma PlainCreationRegistersAtStorageAddress(codeRegistry: map<Bytes, Contract>, w: World, msg: Message)
    requires msg.StorageAddress().Some? && !IsEip1167(msg.code) && msg.code in codeRegistry
    ensures CreateResolution(codeRegistry, w, msg)
            == Some((msg.StorageAddress().value,
                     Contract(codeRegistry[msg.code].deployer, msg.StorageAddress(), Some(msg.sender))))
  {
  }

  // ------------------------------------------------------------------ dispatch

  /** The two ways apply_computation can run a message. */
  datatype Path = Interpret | Native(contract: Contract)

  /** apply_computation's choice: interpret when the code address is empty,
      when no contract is registered there, or in slow mode; otherwise run the
      registered contract natively. */
  function Dispatch(contracts: map<CanonicalAddress, Contract>, codeAddress: Option<CanonicalAddress>, speed: Speed)
    : (p: Path)
    ensures p == Interpret <==> codeAddress.None? || codeAddress.value !in contracts || speed == Slow
    ensures p.Native? ==> codeAddress.Some? && p.contract == contracts[codeAddress.value]
  {
    var contract := if codeAddress.Some? && codeAddress.value in contracts
                    then Some(contracts[codeAddress.value]) else None;
    if contract.None? || speed == Slow then Interpret else Native(contract.value)
  }

  /** Fast and ludicrous modes take the same path. */
  lemma FastAndLudicrousAgree(contracts: map<CanonicalAddress, Contract>, codeAddress: Option<CanonicalAddress>)
    ensures Dispatch(contracts, codeAddress, Fast) == Dispatch(contracts, codeAddress, Ludicrous)
  {
  }

  /** The frame the native path returns: a Halt raised by the executor is
      swallowed and the frame completes normally; an engine error marks the
      frame as failed, and its output is erased unless the error keeps return
      data (as a Revert does). */
  function NativeResult(o: NativeOutcome): (r: ComputationResult)
    ensures r.IsError() <==> o.NativeFailed?
    ensures o.NativeFailed? ==> r.error == Some(o.error)
    ensures !o.NativeFailed? ==> r.output == o.output
    ensures o.NativeFailed? && !o.error.erasesReturnData ==> r.output == o.output
    ensures o.NativeFailed? && o.error.erasesReturnData ==> r.output == []
  {
    match o
    case NativeReturned(out) => ComputationResult(None, out)
    case NativeHalted(out) => ComputationResult(None, out)
    case NativeFailed(e, out) => ComputationResult(Some(e), if e.erasesReturnData then [] else out)
  }

  // ------------------------------------------------------------- frame tables

  /** The engine's opcode table with 0x20 and 0x55 wrapped by the tracers
      (Env._init_vm). */
  function InstallTracers(opcodes: map<nat, Opcode>): (r: map<nat, Opcode>)
    requires SHA3 in opcodes && SSTORE in opcodes
    ensures r.Keys == opcodes.Keys
    ensures r[SHA3] == Sha3PreimageTracer(opcodes[SHA3]) && r[SSTORE] == SstoreTracer(opcodes[SSTORE])
    ensures forall op :: op in opcodes && op != SHA3 && op != SSTORE ==> r[op] == opcodes[op]
  {
    opcodes[SHA3 := Sha3PreimageTracer(opcodes[SHA3])][SSTORE := SstoreTracer(opcodes[SSTORE])]
  }

  /** A global override of a traced opcode replaces the tracer in the frame. */
  lemma OverrideReplacesTracer(classOpcodes: map<nat, Opcode>, overrides: map<nat, Opcode>)
    requires SHA3 in classOpcodes && SSTORE in classOpcodes && SSTORE in overrides
    ensures Overlay(InstallTracers(classOpcodes), overrides)[SSTORE] == overrides[SSTORE]
  {
  }

  /** One computation frame. */
  class Computation {
    const msg: Message
    const code: CodeStream.TracingCodeStream
    var precompiles: map<CanonicalAddress, Precompiles.PrecompileFn>
    var opcodes: map<nat, Opcode>
    const gasMeter: GasMeter
    var childPcs: seq<int>

    /** __init__: a tracing code stream over msg.code with the message's start
        pc and fake code size, frame-local copies of the class tables updated
        with the process-wide precompiles and opcode overrides, the current
        gas meter class, and no child pcs. */
    constructor (msg: Message, classPrecompiles: map<CanonicalAddress, Precompiles.PrecompileFn>,
                 classOpcodes: map<nat, Opcode>, globals: Precompiles.ProcessGlobals,
                 meterClass: GasMeterClass)
      ensures this.msg == msg
      ensures fresh(code) && code.Valid() && code.rawCode[..] == msg.code
      ensures code.programCounter == msg.startPc && code.fakeCodesize == msg.fakeCodesize
      ensures code.trace == [] && !code.finished
      ensures precompiles == Overlay(classPrecompiles, globals.precompiles)
      ensures opcodes == Overlay(classOpcodes, globals.opcodeOverrides)
      ensures gasMeter == GasMeter(meterClass, msg.gas)
      ensures childPcs == []
    {
      this.msg := msg;
      code := new CodeStream.TracingCodeStream(msg.code, msg.startPc, msg.fakeCodesize);
      precompiles := Overlay(classPrecompiles, globals.precompiles);
      opcodes := Overlay(classOpcodes, globals.opcodeOverrides);
      gasMeter := GasMeter(meterClass, msg.gas);
      childPcs := [];
    }

    /** add_child_computation: the current pc is appended to the child pcs
        (the engine's own bookkeeping of the child is not modelled). */
    method AddChildComputation()
      modifies this
      ensures childPcs == old(childPcs) + [code.programCounter]
      ensures precompiles == old(precompiles) && opcodes == old(opcodes)
    {
      childPcs := childPcs + [code.programCounter];
    }
  }
}

/** Env: the contract-centric harness around the engine. Addresses are
    canonical 20-byte values here; the conversion `Address(x).canonical_address`
    is the identity on them. */
module Environment {
  import opened Base
  import opened Engine
  import opened Opcodes
  import opened Registry
  import Precompiles
  import Hooks
  import Patch
  import Frame

  /** Env._initial_address_counter. */
  const INITIAL_ADDRESS_COUNTER: nat := 100

  // ------------------------------------------------------------ pure pieces

  /** `Address(counter.to_bytes(length=20, byteorder="big"))`: the counter's
      20-byte big-endian form, or OverflowError once it needs more bytes. */
  function AddressOfCounter(n: nat): (r: Result<CanonicalAddress, PyError>)
    ensures r.Err? <==> n >= Pow256(20)
    ensures r.Err? ==> r.error == IntOverflow
    ensures r.Ok? ==> FromBigEndian(r.value) == n
  {
    if n >= Pow256(20) then Err(IntOverflow)
    else
      FromToBigEndian(n, 20);
      Ok(ToBigEndian(n, 20))
  }

  /** Distinct counters give distinct addresses. */
  lemma AddressOfCounterInjective(m: nat, n: nat)
    requires m != n && AddressOfCounter(m).Ok? && AddressOfCounter(n).Ok?
    ensures AddressOfCounter(m).value != AddressOfCounter(n).value
  {
  }

  /** _get_sender: the explicit sender, falling back to eoa; ValueError
      whenever eoa is None, even when a sender is given. */
  function GetSender(sender: Option<CanonicalAddress>, eoa: Option<CanonicalAddress>)
    : (r: Result<CanonicalAddress, PyError>)
    ensures r.Err? <==> eoa.None?
    ensures r.Err? ==> r.error == EoaUndefined
    ensures r.Ok? && sender.Some? ==> r.value == sender.value
    ensures r.Ok? && sender.None? ==> r.value == eoa.value
  {
    if eoa.None? then Err(EoaUndefined) else Ok(sender.GetOr(eoa.value))
  }

  /** Python's `//`: the quotient rounded towards negative infinity. */
  function FloorDiv(a: int, b: int): (q: int)
    requires b != 0
    ensures b > 0 ==> b * q <= a < b * q + b
    ensures b < 0 ==> b * q + b < a <= b * q
  {
    if b > 0 then a / b else (-a) / (-b)
  }

  /** The quotient `//` gives is the only one within those bounds. */
  lemma FloorDivUnique(a: int, b: int, q: int)
    requires b != 0
    requires b > 0 ==> b * q <= a < b * q + b
    requires b < 0 ==> b * q + b < a <= b * q
    ensures q == FloorDiv(a, b)
  {
    var p := FloorDiv(a, b);
    if q < p {
      MulMonotone(b, q + 1, p);
    } else if q > p {
      MulMonotone(b, p + 1, q);
    }
  }

  lemma MulMonotone(b: int, x: int, y: int)
    requires x <= y
    ensures b > 0 ==> b * x <= b * y
    ensures b < 0 ==> b * x >= b * y
  {
  }

  /** time_travel's arithmetic: (seconds, blocks) to advance by. ValueError
      unless exactly one of the two is given; ZeroDivisionError for seconds
      with a zero block delta. */
  function TimeTravelAmounts(seconds: Option<int>, blocks: Option<int>, blockDelta: int)
    : (r: Result<(int, int), PyError>)
    ensures seconds.Some? == blocks.Some? ==> r == Err(InvalidTimeTravel)
    ensures seconds.Some? && blocks.None? && blockDelta == 0 ==> r == Err(ZeroDivision)
    ensures seconds.Some? && blocks.None? && blockDelta != 0 ==>
              r.Ok? && r.value.0 == seconds.value && r.value.1 == FloorDiv(seconds.value, blockDelta)
    ensures seconds.None? && blocks.Some? ==> r == Ok((blocks.value * blockDelta, blocks.value))
  {
    if seconds.Some? == blocks.Some? then Err(InvalidTimeTravel)
    else if seconds.Some? then
      if blockDelta == 0 then Err(ZeroDivision) else Ok((seconds.value, FloorDiv(seconds.value, blockDelta)))
    else Ok((blocks.value * blockDelta, blocks.value))
  }

  /** Travelling by a whole number of blocks, given in seconds, is the same
      as travelling by those blocks. */
  lemma TimeTravelSecondsOfBlocks(blocks: int, blockDelta: int)
    requires blockDelta != 0
    ensures TimeTravelAmounts(Some(blocks * blockDelta), None, blockDelta)
            == TimeTravelAmounts(None, Some(blocks), blockDelta)
  {
    FloorDivUnique(blocks * blockDelta, blockDelta, blocks);
  }

  /** With the default delta of 12, 120 seconds are 10 blocks. */
  lemma TimeTravelTwoMinutes()
    ensures TimeTravelAmounts(Some(120), None, 12) == Ok((120, 10))
  {
  }

  /** A negative number of seconds rounds the blocks down, as `//` does. */
  lemma TimeTravelBackwards()
    ensures TimeTravelAmounts(Some(-13), None, 12) == Ok((-13, -2))
  {
  }

  /** `patch.timestamp += seconds` then `patch.block_number += blocks`: the
      outcome and the two new values. `+=` on a value that is not an integer
      is a TypeError, and the timestamp has already changed when the block
      number fails. */
  function TimeTravelEffect(timestamp: Patch.PatchValue, blockNumber: Patch.PatchValue, seconds: int, blocks: int)
    : (r: (Result<(), PyError>, Patch.PatchValue, Patch.PatchValue))
    ensures timestamp.IntValue? && blockNumber.IntValue? ==>
              r == (Ok(()), Patch.IntValue(timestamp.n + seconds), Patch.IntValue(blockNumber.n + blocks))
    ensures !timestamp.IntValue? ==> r == (Err(NotAnInteger), timestamp, blockNumber)
    ensures timestamp.IntValue? && !blockNumber.IntValue? ==>
              r == (Err(NotAnInteger), Patch.IntValue(timestamp.n + seconds), blockNumber)
  {
    match timestamp
    case IntValue(t) =>
      (match blockNumber
       case IntValue(n) => (Ok(()), Patch.IntValue(t + seconds), Patch.IntValue(n + blocks))
       case _ => (Err(NotAnInteger), Patch.IntValue(t + seconds), blockNumber))
    case _ => (Err(NotAnInteger), timestamp, blockNumber)
  }

  /** Where deploy_code creates: the override address, otherwise the address
      derived from the sender and its nonce before the increment. */
  function DeployTarget(w: World, sender: CanonicalAddress, overrideAddress: Option<CanonicalAddress>,
                        contractAddressOf: (CanonicalAddress, nat) -> CanonicalAddress): (a: CanonicalAddress)
    ensures overrideAddress.Some? ==> a == overrideAddress.value
    ensures overrideAddress.None? ==> a == contractAddressOf(sender, NonceAt(w, sender))
  {
    if overrideAddress.Some? then overrideAddress.value else contractAddressOf(sender, NonceAt(w, sender))
  }

  /** The world deploy_code hands to the engine: the sender's nonce is bumped
      only when no override address is given. */
  function DeployWorld(w: World, sender: CanonicalAddress, overrideAddress: Option<CanonicalAddress>): (r: World)
    ensures overrideAddress.Some? ==> r == w
    ensures overrideAddress.None? ==> NonceAt(r, sender) == NonceAt(w, sender) + 1
    ensures forall b :: b != sender ==> NonceAt(r, b) == NonceAt(w, b)
    ensures r.code == w.code && r.balance == w.balance
  {
    if overrideAddress.Some? then w else BumpNonce(w, sender)
  }

  /** The gas a message is built with: the caller's, or else the value the
      patch binds to gas_limit (what `vm.state.gas_limit` reads). The
      engine's message constructor refuses a gas or a value that is not an
      unsigned 256-bit integer. */
  function MessageGas(gas: Option<int>, value: int, gasLimit: Patch.PatchValue): (r: Result<nat, PyError>)
    ensures r.Ok? <==> 0 <= value < Pow256(32) && (if gas.Some? then 0 <= gas.value < Pow256(32)
                                              else gasLimit.IntValue? && 0 <= gasLimit.n < Pow256(32))
    ensures r.Ok? && gas.Some? ==> r.value == gas.value
    ensures r.Ok? && gas.None? ==> r.value == gasLimit.n
    ensures r.Err? ==> r.error == InvalidMessage
  {
    var requested := if gas.Some? then Patch.IntValue(gas.value) else gasLimit;
    if requested.IntValue? && 0 <= requested.n < Pow256(32) && 0 <= value < Pow256(32) then Ok(requested.n)
    else Err(InvalidMessage)
  }

  /** An explicit gas makes the patched gas_limit irrelevant. */
  lemma ExplicitGasIgnoresGasLimit(g: int, value: int, l1: Patch.PatchValue, l2: Patch.PatchValue)
    ensures MessageGas(Some(g), value, l1) == MessageGas(Some(g), value, l2)
  {
  }

  /** Without an explicit gas, a patched integer gas_limit in range is the
      message's gas; any other patched value fails the message. */
  lemma DefaultGasIsGasLimit(value: int, limit: Patch.PatchValue)
    requires 0 <= value < Pow256(32)
    ensures MessageGas(None, value, limit) == (if limit.IntValue? && 0 <= limit.n < Pow256(32) then Ok(limit.n)
                                               else Err(InvalidMessage))
  {
  }

  /** The creation message deploy_code builds. */
  function DeployMessage(sender: CanonicalAddress, gas: nat, value: nat, bytecode: Bytes, target: CanonicalAddress)
    : (msg: Message)
    ensures msg.StorageAddress() == Some(target) && msg.CodeAddress().None? && msg.to.None?
    ensures msg.sender == sender && msg.code == bytecode && msg.data == []
    ensures msg.gas == gas && msg.value == value && !msg.isStatic
    ensures msg.startPc == 0 && msg.fakeCodesize.None?
  {
    Message(sender, None, None, gas, value, bytecode, [], Some(target), false, 0, None)
  }

  /** The call message execute_code builds; it carries start pc and fake
      code size to the frame. */
  function ExecuteMessage(sender: CanonicalAddress, to: CanonicalAddress, gas: nat, value: nat, code: Bytes,
                          data: Bytes, isModifying: bool, startPc: int, fakeCodesize: Option<int>)
    : (msg: Message)
    ensures msg.CodeAddress() == Some(to) && msg.StorageAddress() == Some(to)
    ensures msg.to == Some(to) && msg.createAddress.None?
    ensures msg.sender == sender && msg.gas == gas && msg.value == value
    ensures msg.code == code && msg.data == data
    ensures msg.isStatic == !isModifying
    ensures msg.startPc == startPc && msg.fakeCodesize == fakeCodesize
  {
    Message(sender, Some(to), Some(to), gas, value, code, data, None, !isModifying, startPc, fakeCodesize)
  }

  /** The registries after apply_create_message has looked at the finished
      creation. */
  function AfterCreate(reg: Registries, w: World, msg: Message): (r: Registries)
    requires msg.StorageAddress().Some?
    ensures Frame.CreateResolution(reg.codeRegistry, w, msg).None? ==> r == reg
    ensures Frame.CreateResolution(reg.codeRegistry, w, msg).Some? ==>
              var (a, target) := Frame.CreateResolution(reg.codeRegistry, w, msg).value;
              r == RegisterContract(reg, w, a, target)
  {
    match Frame.CreateResolution(reg.codeRegistry, w, msg)
    case None => reg
    case Some((a, target)) => RegisterContract(reg, w, a, target)
  }

  /** A creation whose code is registered as a blueprint makes the new
      contract known at its storage address, created from the deployer. */
  lemma BlueprintCreationIsLookedUp(reg: Registries, code: Bytes, obj: Contract, w: World, msg: Message)
    requires msg.StorageAddress().Some? && msg.code == code && !Frame.IsEip1167(code)
    ensures var a := msg.StorageAddress().value;
            Lookup(AfterCreate(RegisterBlueprint(reg, code, obj), w, msg), a)
            == Some(Contract(obj.deployer, Some(a), Some(msg.sender)))
  {
  }

  /** The bookkeeping Env keeps besides the engine and the patch. */
  datatype Books = Books(
    addressCounter: nat,
    aliases: map<CanonicalAddress, string>,
    eoa: Option<CanonicalAddress>,
    contracts: map<CanonicalAddress, Contract>,
    codeRegistry: map<Bytes, Contract>,
    sha3Trace: Hooks.Sha3Trace,
    sstoreTrace: Hooks.SstoreTrace,
    speed: Frame.Speed,
    gasMeterClass: Frame.GasMeterClass)

  /** What Env.anchor holds while its body runs. */
  datatype AnchorToken = AnchorToken(snapshotId: nat, patchSnapshot: map<string, Patch.PatchValue>)

  // ------------------------------------------------------------------- Env

  class Env {
    const engine: EvmState
    const patch: Patch.VMPatcher
    const globals: Precompiles.ProcessGlobals
    /** The computation class's `_precompiles` before any frame copies it. */
    const classPrecompiles: map<CanonicalAddress, Precompiles.PrecompileFn>
    /** The computation class's opcode table with the two tracers installed. */
    const opcodes: map<nat, Opcode>

    var addressCounter: nat
    var aliases: map<CanonicalAddress, string>
    var eoa: Option<CanonicalAddress>
    var contracts: map<CanonicalAddress, Contract>
    var codeRegistry: map<Bytes, Contract>
    var sha3Trace: Hooks.Sha3Trace
    var sstoreTrace: Hooks.SstoreTrace
    /** Env._speed. */
    var speed: Frame.Speed
    /** The computation class's `_gas_meter_class`. */
    var gasMeterClass: Frame.GasMeterClass

    ghost predicate Valid()
      reads this, patch, patch.executionContext, patch.spuriousDragon
    {
      patch.Valid()
    }

    function State(): Books
      reads this
    {
      Books(addressCounter, aliases, eoa, contracts, codeRegistry, sha3Trace, sstoreTrace, speed, gasMeterClass)
    }

    function Tables(): Registries
      reads this
    {
      Registries(contracts, codeRegistry)
    }

    /** __init__ followed by _init_vm: counter at 100, then generate_address("eoa")
        makes eoa the address of 101 aliased "eoa"; empty registries and
        traces; the tracers wrap 0x20 and 0x55 of the engine's table; slow
        mode and the standard gas meter. */
    constructor (engine: EvmState, patch: Patch.VMPatcher, globals: Precompiles.ProcessGlobals,
                 classPrecompiles: map<CanonicalAddress, Precompiles.PrecompileFn>,
                 engineOpcodes: map<nat, Opcode>)
      requires patch.Valid()
      requires SHA3 in engineOpcodes && SSTORE in engineOpcodes
      ensures Valid()
      ensures this.engine == engine && this.patch == patch && this.globals == globals
      ensures this.classPrecompiles == classPrecompiles
      ensures opcodes == Frame.InstallTracers(engineOpcodes)
      ensures eoa == Some(AddressOfCounter(INITIAL_ADDRESS_COUNTER + 1).value)
      ensures State() == Books(INITIAL_ADDRESS_COUNTER + 1, map[eoa.value := "eoa"], eoa, map[], map[],
                               map[], map[], Frame.Slow, Frame.StandardMeter)
    {
      this.engine := engine;
      this.patch := patch;
      this.globals := globals;
      this.classPrecompiles := classPrecompiles;
      opcodes := Frame.InstallTracers(engineOpcodes);
      var first := AddressOfCounter(INITIAL_ADDRESS_COUNTER + 1).value;
      addressCounter := INITIAL_ADDRESS_COUNTER + 1;
      aliases := map[first := "eoa"];
      eoa := Some(first);
      contracts := map[];
      codeRegistry := map[];
      sha3Trace := map[];
      sstoreTrace := map[];
      speed := Frame.Slow;
      gasMeterClass := Frame.StandardMeter;
    }

    // ------------------------------------------------------------- traces

    /** _trace_sha3_preimage. */
    method TraceSha3Preimage(preimage: Bytes, image: Word)
      modifies this
      ensures State() == old(State()).(sha3Trace := Hooks.RecordPreimage(old(sha3Trace), image, preimage))
    {
      sha3Trace := sha3Trace[image := preimage];
    }

    /** _trace_sstore. */
    method TraceSstore(account: CanonicalAddress, slot: Word)
      modifies this
      ensures State() == old(State()).(sstoreTrace := Hooks.AddSlot(old(sstoreTrace), account, slot))
    {
      if account !in sstoreTrace {
        sstoreTrace := sstoreTrace[account := {}];
      }
      sstoreTrace := sstoreTrace[account := sstoreTrace[account] + {slot}];
    }

    /** SstoreTracer.__call__ installed in this Env's opcode table. */
    method RunSstoreTracer(frame: Hooks.FrameView, sstore: Hooks.FrameView -> Hooks.OpOutcome)
      returns (outcome: Hooks.HookOutcome)
      modifies this
      ensures (outcome, sstoreTrace) == Hooks.SstoreHook(frame, sstore, old(sstoreTrace))
      ensures State() == old(State()).(sstoreTrace := sstoreTrace)
    {
      if |frame.stack| < 2 {
        return Hooks.HookRaised(UnpackError);
      }
      var slot := frame.stack[|frame.stack| - 1];
      TraceSstore(frame.storageAddress, slot);
      outcome := Hooks.Delegated(sstore(frame));
    }

    /** Sha3PreimageTracer.__call__ installed in this Env's opcode table. */
    method RunSha3Tracer(frame: Hooks.FrameView, sha3: Hooks.FrameView -> Hooks.OpOutcome)
      returns (outcome: Hooks.HookOutcome)
      modifies this
      ensures (outcome, sha3Trace) == Hooks.Sha3Hook(frame, sha3, old(sha3Trace))
      ensures State() == old(State()).(sha3Trace := sha3Trace)
    {
      if |frame.stack| < 2 {
        return Hooks.HookRaised(UnpackError);
      }
      var size := frame.stack[|frame.stack| - 2];
      var offset := frame.stack[|frame.stack| - 1];
      var inner := sha3(frame);
      if inner.OpFailed? || size != 64 {
        return Hooks.Delegated(inner);
      }
      var after := inner.frame;
      if after.stack == [] {
        return Hooks.HookRaised(StackIndexError);
      }
      TraceSha3Preimage(Hooks.ReadBytes(after.memory, offset, size), after.stack[|after.stack| - 1]);
      outcome := Hooks.Delegated(inner);
    }

    // ---------------------------------------------------------- registries

    /** register_contract. */
    method RegisterContract(address: CanonicalAddress, obj: Contract)
      modifies this
      ensures Tables() == Registry.RegisterContract(old(Tables()), engine.world, address, obj)
      ensures State() == old(State()).(contracts := contracts, codeRegistry := codeRegistry)
    {
      contracts := contracts[address := obj];
      var bytecode := engine.GetCode(address);
      codeRegistry := codeRegistry[bytecode := obj];
    }

    /** register_blueprint. */
    method RegisterBlueprint(bytecode: Bytes, obj: Contract)
      modifies this
      ensures Tables() == Registry.RegisterBlueprint(old(Tables()), bytecode, obj)
      ensures State() == old(State()).(codeRegistry := codeRegistry)
    {
      codeRegistry := codeRegistry[bytecode := obj];
    }

    /** lookup_contract, and _lookup_contract_fast, which is the same lookup
        on an address already canonical. */
    function LookupContract(address: CanonicalAddress): (r: Option<Contract>)
      reads this
      ensures r.Some? <==> address in contracts
      ensures r.Some? ==> r.value == contracts[address]
    {
      Lookup(Tables(), address)
    }

    /** alias. */
    method Alias(address: CanonicalAddress, name: string)
      modifies this
      ensures State() == old(State()).(aliases := old(aliases)[address := name])
    {
      aliases := aliases[address := name];
    }

    /** lookup_alias: KeyError for an address without an alias. */
    function LookupAlias(address: CanonicalAddress): (r: Result<string, PyError>)
      reads this
      ensures r.Ok? <==> address in aliases
      ensures r.Ok? ==> r.value == aliases[address]
      ensures r.Err? ==> r.error == MissingKey
    {
      if address in aliases then Ok(aliases[address]) else Err(MissingKey)
    }

    /** generate_address: the counter goes up by one (also when the encoding
        then overflows), the new counter's address is returned, and a given
        alias is recorded for it. */
    method GenerateAddress(alias: Option<string>) returns (r: Result<CanonicalAddress, PyError>)
      modifies this
      ensures addressCounter == old(addressCounter) + 1
      ensures r == AddressOfCounter(addressCounter)
      ensures r.Ok? && alias.Some? ==>
                State() == old(State()).(addressCounter := addressCounter,
                                         aliases := old(aliases)[r.value := alias.value])
      ensures r.Err? || alias.None? ==> State() == old(State()).(addressCounter := addressCounter)
    {
      addressCounter := addressCounter + 1;
      r := AddressOfCounter(addressCounter);
      if r.Ok? && alias.Some? {
        Alias(r.value, alias.value);
      }
    }

    // -------------------------------------------------------------- scopes

    /** Entering Env.anchor: an engine snapshot, then the patch's snapshot. */
    method AnchorEnter() returns (token: AnchorToken)
      requires Valid()
      modifies engine
      ensures token.snapshotId == |old(engine.journal)|
      ensures engine.journal == old(engine.journal) + [old(engine.world)] && engine.world == old(engine.world)
      ensures forall p: Patch.Param :: Patch.PublicName(p) in token.patchSnapshot
                                       && token.patchSnapshot[Patch.PublicName(p)] == patch.Value(p)
    {
      var id := engine.Snapshot();
      var snap := patch.AnchorEnter();
      token := AnchorToken(id, snap);
    }

    /** Leaving Env.anchor, however the body ended: the patch restores its
        parameters, then the engine reverts to the snapshot. Env's own
        bookkeeping is not restored. */
    method AnchorExit(token: AnchorToken)
      requires Valid()
      requires token.snapshotId < |engine.journal|
      requires forall p: Patch.Param :: Patch.PublicName(p) in token.patchSnapshot
      modifies engine, patch.executionContext, patch.spuriousDragon
      ensures Valid()
      ensures forall p: Patch.Param :: patch.Value(p) == token.patchSnapshot[Patch.PublicName(p)]
      ensures patch.OthersUnchanged()
      ensures engine.world == old(engine.journal[token.snapshotId])
      ensures engine.journal == old(engine.journal[..token.snapshotId])
    {
      patch.AnchorExit(token.patchSnapshot);
      engine.Revert(token.snapshotId);
    }

    /** Entering sender(address): eoa is replaced, the old one is kept. */
    method SenderEnter(address: CanonicalAddress) returns (saved: Option<CanonicalAddress>)
      modifies this
      ensures saved == old(eoa)
      ensures State() == old(State()).(eoa := Some(address))
    {
      saved := eoa;
      eoa := Some(address);
    }

    /** Leaving sender(...), however the body ended. */
    method SenderExit(saved: Option<CanonicalAddress>)
      modifies this
      ensures State() == old(State()).(eoa := saved)
    {
      eoa := saved;
    }

    /** set_gas_meter_class. */
    method SetGasMeterClass(cls: Frame.GasMeterClass)
      modifies this
      ensures State() == old(State()).(gasMeterClass := cls)
    {
      gasMeterClass := cls;
    }

    /** Entering gas_meter_class(cls). */
    method GasMeterClassEnter(cls: Frame.GasMeterClass) returns (saved: Frame.GasMeterClass)
      modifies this
      ensures saved == old(gasMeterClass)
      ensures State() == old(State()).(gasMeterClass := cls)
    {
      saved := gasMeterClass;
      SetGasMeterClass(cls);
    }

    /** Leaving gas_meter_class(...), however the body ended. */
    method GasMeterClassExit(saved: Frame.GasMeterClass)
      modifies this
      ensures State() == old(State()).(gasMeterClass := saved)
    {
      SetGasMeterClass(saved);
    }

    /** enable_gas_profiling. */
    method EnableGasProfiling()
      modifies this
      ensures State() == old(State()).(gasMeterClass := Frame.ProfilingMeter)
    {
      SetGasMeterClass(Frame.ProfilingMeter);
    }

    /** disable_gas_metering. */
    method DisableGasMetering()
      modifies this
      ensures State() == old(State()).(gasMeterClass := Frame.NoMeter)
    {
      SetGasMeterClass(Frame.NoMeter);
    }

    /** reset_gas_metering_behavior. */
    method ResetGasMeteringBehavior()
      modifies this
      ensures State() == old(State()).(gasMeterClass := Frame.StandardMeter)
    {
      SetGasMeterClass(Frame.StandardMeter);
    }

    // ------------------------------------------------------- computations

    /** `cls(state, msg, tx_ctx)`: a frame of this Env's computation class. */
    method NewComputation(msg: Message) returns (c: Frame.Computation)
      ensures fresh(c) && fresh(c.code)
      ensures c.msg == msg && c.code.rawCode[..] == msg.code && c.code.programCounter == msg.startPc
      ensures c.code.Valid() && c.code.fakeCodesize == msg.fakeCodesize
      ensures c.code.trace == [] && !c.code.finished
      ensures c.precompiles == Overlay(classPrecompiles, globals.precompiles)
      ensures c.opcodes == Overlay(opcodes, globals.opcodeOverrides)
      ensures c.gasMeter == Frame.GasMeter(gasMeterClass, msg.gas)
      ensures c.childPcs == []
    {
      c := new Frame.Computation(msg, classPrecompiles, opcodes, globals, gasMeterClass);
    }

    /** titanoboa_computation.apply_create_message: the engine's creation
        runs, then the registries may gain the new contract; the engine's
        result is returned unchanged, error or not. */
    method ApplyCreateMessage(msg: Message) returns (result: ComputationResult)
      requires msg.StorageAddress().Some?
      modifies this, engine
      ensures (engine.world, result) == engine.runCreate(old(engine.world), msg)
      ensures engine.journal == old(engine.journal)
      ensures Tables() == AfterCreate(old(Tables()), engine.world, msg)
      ensures State() == old(State()).(contracts := contracts, codeRegistry := codeRegistry)
    {
      var (w, c) := engine.runCreate(engine.world, msg);
      engine.world := w;
      result := c;
      var resolution := Frame.CreateResolution(codeRegistry, engine.world, msg);
      if resolution.Some? {
        var (address, target) := resolution.value;
        RegisterContract(address, target);
      }
    }

    /** titanoboa_computation.apply_computation: interpretation, or the
        registered contract run natively in a fresh frame. */
    method ApplyComputation(msg: Message) returns (result: ComputationResult)
      modifies engine
      ensures engine.journal == old(engine.journal)
      ensures match Frame.Dispatch(contracts, msg.CodeAddress(), speed)
              case Interpret => (engine.world, result) == engine.runInterpreter(old(engine.world), msg)
              case Native(contract) =>
                var (w, outcome) := engine.runNative(old(engine.world), msg, contract);
                engine.world == w && result == Frame.NativeResult(outcome)
    {
      match Frame.Dispatch(contracts, msg.CodeAddress(), speed)
      case Interpret =>
        var (w, c) := engine.runInterpreter(engine.world, msg);
        engine.world := w;
        result := c;
      case Native(contract) =>
        var (w, outcome) := engine.runNative(engine.world, msg, contract);
        engine.world := w;
        result := Frame.NativeResult(outcome);
    }

    /** deploy_code: resolve the sender, choose the target (bumping the
        sender's nonce unless an address is forced), build the message (which
        the engine may refuse, after the bump), run the creation, and
        re-raise an engine error. `startPc` is accepted and not used. */
    method DeployCode(sender: Option<CanonicalAddress>, gas: Option<int>, value: int, bytecode: Bytes,
                      startPc: int, overrideAddress: Option<CanonicalAddress>)
      returns (r: Result<(CanonicalAddress, Bytes), PyError>)
      requires Valid()
      modifies this, engine
      ensures Valid()
      ensures engine.journal == old(engine.journal)
      ensures GetSender(sender, old(eoa)).Err? ==>
                r == Err(EoaUndefined) && engine.world == old(engine.world) && State() == old(State())
      ensures GetSender(sender, old(eoa)).Ok? ==>
                var s := GetSender(sender, old(eoa)).value;
                var target := DeployTarget(old(engine.world), s, overrideAddress, engine.contractAddressOf);
                var w0 := DeployWorld(old(engine.world), s, overrideAddress);
                var g := MessageGas(gas, value, patch.Value(Patch.GasLimit));
                if g.Err? then
                  r == Err(g.error) && engine.world == w0 && State() == old(State())
                else
                  var msg := DeployMessage(s, g.value, value, bytecode, target);
                  var (w, c) := engine.runCreate(w0, msg);
                  && engine.world == w
                  && Tables() == AfterCreate(old(Tables()), w, msg)
                  && State() == old(State()).(contracts := contracts, codeRegistry := codeRegistry)
                  && r == (if c.IsError() then Err(EngineRaised(c.error.value.id)) else Ok((target, c.output)))
    {
      Patch.ParamNamedPublicName(Patch.GasLimit);
      var gasLimit := patch.Get("gas_limit").value;
      var resolved := GetSender(sender, eoa);
      if resolved.Err? {
        return Err(resolved.error);
      }
      var s := resolved.value;
      var target: CanonicalAddress;
      if overrideAddress.Some? {
        target := overrideAddress.value;
      } else {
        var nonce := engine.GetNonce(s);
        engine.IncrementNonce(s);
        target := engine.contractAddressOf(s, nonce);
      }
      var g := MessageGas(gas, value, gasLimit);
      if g.Err? {
        return Err(g.error);
      }
      var msg := DeployMessage(s, g.value, value, bytecode, target);
      var c := ApplyCreateMessage(msg);
      if c.IsError() {
        return Err(EngineRaised(c.error.value.id));
      }
      r := Ok((target, c.output));
    }

    /** execute_code: resolve the sender, take the code stored at the
        recipient unless an override is given, build the message (which the
        engine may refuse) and run it; the result is returned whether or not
        it failed. */
    method ExecuteCode(toAddress: CanonicalAddress, sender: Option<CanonicalAddress>, gas: Option<int>,
                       value: int, data: Bytes, overrideBytecode: Option<Bytes>, isModifying: bool,
                       startPc: int, fakeCodesize: Option<int>)
      returns (r: Result<ComputationResult, PyError>)
      requires Valid()
      modifies engine
      ensures engine.journal == old(engine.journal)
      ensures GetSender(sender, eoa).Err? ==> r == Err(EoaUndefined) && engine.world == old(engine.world)
      ensures GetSender(sender, eoa).Ok? && MessageGas(gas, value, patch.Value(Patch.GasLimit)).Err? ==>
                r == Err(InvalidMessage) && engine.world == old(engine.world)
      ensures GetSender(sender, eoa).Ok? && MessageGas(gas, value, patch.Value(Patch.GasLimit)).Ok? ==>
                var s := GetSender(sender, eoa).value;
                var code := overrideBytecode.GetOr(CodeAt(old(engine.world), toAddress));
                var msg := ExecuteMessage(s, toAddress, MessageGas(gas, value, patch.Value(Patch.GasLimit)).value,
                                          value, code, data, isModifying, startPc, fakeCodesize);
                var (w, c) := engine.runMessage(old(engine.world), msg);
                engine.world == w && r == Ok(c)
    {
      Patch.ParamNamedPublicName(Patch.GasLimit);
      var gasLimit := patch.Get("gas_limit").value;
      var resolved := GetSender(sender, eoa);
      if resolved.Err? {
        return Err(resolved.error);
      }
      var bytecode := if overrideBytecode.Some? then overrideBytecode.value else engine.GetCode(toAddress);
      var g := MessageGas(gas, value, gasLimit);
      if g.Err? {
        return Err(g.error);
      }
      var msg := ExecuteMessage(resolved.value, toAddress, g.value, value, bytecode, data, isModifying, startPc,
                                fakeCodesize);
      var (w, c) := engine.runMessage(engine.world, msg);
      engine.world := w;
      r := Ok(c);
    }

    /** time_travel: both parameters move through the patch; nothing else
        changes. */
    method TimeTravel(seconds: Option<int>, blocks: Option<int>, blockDelta: int)
      returns (r: Result<(), PyError>)
      requires Valid()
      modifies patch.executionContext, patch.spuriousDragon
      ensures Valid()
      ensures forall q: Patch.Param :: q != Patch.Timestamp && q != Patch.BlockNumber ==>
                patch.Value(q) == old(patch.Value(q))
      ensures patch.OthersUnchanged()
      ensures TimeTravelAmounts(seconds, blocks, blockDelta).Err? ==>
                r == Err(TimeTravelAmounts(seconds, blocks, blockDelta).error)
                && patch.Value(Patch.Timestamp) == old(patch.Value(Patch.Timestamp))
                && patch.Value(Patch.BlockNumber) == old(patch.Value(Patch.BlockNumber))
      ensures TimeTravelAmounts(seconds, blocks, blockDelta).Ok? ==>
                var (s, b) := TimeTravelAmounts(seconds, blocks, blockDelta).value;
                (r, patch.Value(Patch.Timestamp), patch.Value(Patch.BlockNumber))
                == TimeTravelEffect(old(patch.Value(Patch.Timestamp)), old(patch.Value(Patch.BlockNumber)), s, b)
    {
      var amounts := TimeTravelAmounts(seconds, blocks, blockDelta);
      if amounts.Err? {
        return Err(amounts.error);
      }
      var (s, b) := amounts.value;
      Patch.ParamNamedPublicName(Patch.Timestamp);
      Patch.ParamNamedPublicName(Patch.BlockNumber);
      var timestamp := patch.Get("timestamp").value;
      if !timestamp.IntValue? {
        return Err(NotAnInteger);
      }
      patch.Set("timestamp", Patch.IntValue(timestamp.n + s));
      var blockNumber := patch.Get("block_number").value;
      if !blockNumber.IntValue? {
        return Err(NotAnInteger);
      }
      patch.Set("block_number", Patch.IntValue(blockNumber.n + b));
      r := Ok(());
    }
  }
}

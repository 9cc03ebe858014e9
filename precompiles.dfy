/** Opcode handlers as the frame's opcode table holds them. */
module Opcodes {

  /** Opcode numbers from Appendix H of the Ethereum Yellow Paper. */
  const STOP: nat := 0x00
  const SHA3: nat := 0x20
  const SSTORE: nat := 0x55

  /** A slot of an opcode table: the engine's own implementation of an opcode,
      one of the two tracing wrappers around another handler, or a handler
      installed with patch_opcode. */
  datatype Opcode =
    | EngineOp(value: nat)
    | Sha3PreimageTracer(inner: Opcode)
    | SstoreTracer(inner: Opcode)
    | UserOp(id: nat)

  /** dict.copy() followed by dict.update(): every key of either map, the
      update's value winning where both have one. */
  function Overlay<K, V>(base: map<K, V>, update: map<K, V>): (r: map<K, V>)
    ensures r.Keys == base.Keys + update.Keys
    ensures forall k :: k in update ==> r[k] == update[k]
    ensures forall k :: k in base && k !in update ==> r[k] == base[k]
  {
    base + update
  }
}

/** The process-wide precompile table and opcode overrides (module globals of
    boa/environment.py). */
module Precompiles {
  import opened Base
  import opened Opcodes

  /** A native precompile handler; console_log is the one the module ships. */
  datatype PrecompileFn = ConsoleLog | NativeFn(id: nat)

  /** 0x000000000000000000636F6E736F6C652E6C6F67: nine zero bytes, then "console.log". */
  const CONSOLE_ADDRESS: CanonicalAddress :=
    [0, 0, 0, 0, 0, 0, 0, 0, 0, 0x63, 0x6F, 0x6E, 0x73, 0x6F, 0x6C, 0x65, 0x2E, 0x6C, 0x6F, 0x67]

  /** register_raw_precompile on the table's value. */
  function Register(m: map<CanonicalAddress, PrecompileFn>, a: CanonicalAddress, fn: PrecompileFn, force: bool)
    : (r: Result<map<CanonicalAddress, PrecompileFn>, PyError>)
    ensures r.Err? <==> a in m && !force
    ensures r.Err? ==> r.error == AlreadyRegistered(a)
    ensures r.Ok? ==> r.value.Keys == m.Keys + {a} && r.value[a] == fn
    ensures r.Ok? ==> forall b :: b in m && b != a ==> r.value[b] == m[b]
  {
    if a in m && !force then Err(AlreadyRegistered(a)) else Ok(m[a := fn])
  }

  /** deregister_raw_precompile on the table's value. */
  function Deregister(m: map<CanonicalAddress, PrecompileFn>, a: CanonicalAddress, force: bool)
    : (r: Result<map<CanonicalAddress, PrecompileFn>, PyError>)
    ensures r.Err? <==> a !in m && !force
    ensures r.Err? ==> r.error == NotRegistered
    ensures r.Ok? ==> r.value.Keys == m.Keys - {a}
    ensures r.Ok? ==> forall b :: b in r.value ==> r.value[b] == m[b]
  {
    if a !in m && !force then Err(NotRegistered) else Ok(m - {a})
  }

  /** Registering then deregistering an address that was free leaves the table as it was. */
  lemma RegisterThenDeregister(m: map<CanonicalAddress, PrecompileFn>, a: CanonicalAddress, fn: PrecompileFn, force: bool)
    requires a !in m
    ensures Register(m, a, fn, force).Ok?
    ensures Deregister(Register(m, a, fn, force).value, a, false) == Ok(m)
  {
    assert Register(m, a, fn, force).value - {a} == m;
  }

  /** The module globals `_precompiles` and `_opcode_overrides`. */
  class ProcessGlobals {
    var precompiles: map<CanonicalAddress, PrecompileFn>
    var opcodeOverrides: map<nat, Opcode>

    /** Module import: empty override table, console_log registered at CONSOLE_ADDRESS. */
    constructor ()
      ensures precompiles == map[CONSOLE_ADDRESS := ConsoleLog]
      ensures opcodeOverrides == map[]
    {
      precompiles := map[CONSOLE_ADDRESS := ConsoleLog];
      opcodeOverrides := map[];
    }

    method RegisterRawPrecompile(address: CanonicalAddress, fn: PrecompileFn, force: bool)
      returns (r: Result<(), PyError>)
      modifies this
      ensures opcodeOverrides == old(opcodeOverrides)
      ensures match Register(old(precompiles), address, fn, force)
              case Ok(m) => r == Ok(()) && precompiles == m
              case Err(e) => r == Err(e) && precompiles == old(precompiles)
    {
      if address in precompiles && !force {
        return Err(AlreadyRegistered(address));
      }
      precompiles := precompiles[address := fn];
      r := Ok(());
    }

    method DeregisterRawPrecompile(address: CanonicalAddress, force: bool)
      returns (r: Result<(), PyError>)
      modifies this
      ensures opcodeOverrides == old(opcodeOverrides)
      ensures match Deregister(old(precompiles), address, force)
              case Ok(m) => r == Ok(()) && precompiles == m
              case Err(e) => r == Err(e) && precompiles == old(precompiles)
    {
      if address !in precompiles && !force {
        return Err(NotRegistered);
      }
      precompiles := precompiles - {address};
      r := Ok(());
    }

    method PatchOpcode(opcodeValue: nat, fn: Opcode)
      modifies this
      ensures opcodeOverrides == old(opcodeOverrides)[opcodeValue := fn]
      ensures precompiles == old(precompiles)
    {
      opcodeOverrides := opcodeOverrides[opcodeValue := fn];
    }
  }
}

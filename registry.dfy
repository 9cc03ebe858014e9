/** Env's two contract tables: wrappers by canonical address (`_contracts`)
    and wrappers by runtime bytecode (`_code_registry`). */
module Registry {
  import opened Base
  import opened Engine

  datatype Registries = Registries(contracts: map<CanonicalAddress, Contract>, codeRegistry: map<Bytes, Contract>)

  /** lookup_contract / _lookup_contract_fast: `_contracts.get(address)`. */
  function Lookup(reg: Registries, a: CanonicalAddress): (r: Option<Contract>)
    ensures r.Some? <==> a in reg.contracts
    ensures r.Some? ==> r.value == reg.contracts[a]
  {
    if a in reg.contracts then Some(reg.contracts[a]) else None
  }

  /** The wrapper registered for a bytecode, if any. */
  function LookupCode(reg: Registries, code: Bytes): (r: Option<Contract>)
    ensures r.Some? <==> code in reg.codeRegistry
    ensures r.Some? ==> r.value == reg.codeRegistry[code]
  {
    if code in reg.codeRegistry then Some(reg.codeRegistry[code]) else None
  }

  /** register_contract: bind `obj` at the address and at the code the world
      currently stores there. */
  function RegisterContract(reg: Registries, w: World, a: CanonicalAddress, obj: Contract): (r: Registries)
    ensures Lookup(r, a) == Some(obj)
    ensures forall b :: b != a ==> Lookup(r, b) == Lookup(reg, b)
    ensures LookupCode(r, CodeAt(w, a)) == Some(obj)
    ensures forall code :: code != CodeAt(w, a) ==> LookupCode(r, code) == LookupCode(reg, code)
  {
    Registries(reg.contracts[a := obj], reg.codeRegistry[CodeAt(w, a) := obj])
  }

  /** register_blueprint: bind `obj` at a bytecode only. */
  function RegisterBlueprint(reg: Registries, code: Bytes, obj: Contract): (r: Registries)
    ensures r.contracts == reg.contracts
    ensures LookupCode(r, code) == Some(obj)
    ensures forall c :: c != code ==> LookupCode(r, c) == LookupCode(reg, c)
  {
    reg.(codeRegistry := reg.codeRegistry[code := obj])
  }

  /** Registering twice at one address: the second registration wins in both
      tables. */
  lemma RegisterLastWriteWins(reg: Registries, w: World, a: CanonicalAddress, first: Contract, second: Contract)
    ensures RegisterContract(RegisterContract(reg, w, a, first), w, a, second) == RegisterContract(reg, w, a, second)
  {
  }

  /** Registrations at different addresses with different code commute. */
  lemma RegisterCommutes(reg: Registries, w: World, a: CanonicalAddress, x: Contract, b: CanonicalAddress, y: Contract)
    requires a != b && CodeAt(w, a) != CodeAt(w, b)
    ensures RegisterContract(RegisterContract(reg, w, a, x), w, b, y)
            == RegisterContract(RegisterContract(reg, w, b, y), w, a, x)
  {
  }
}

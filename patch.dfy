/** VMPatcher: eight named environment parameters read from and written to
    two objects (the engine's execution context and the spurious_dragon
    computation module), with a scoped save-and-restore. */
module Patch {
  import opened Base

  /** The parameter values the patcher handles: integers (block number,
      timestamp, difficulty, chain id, gas limit, code size limit), the
      coinbase address, and the list of previous block hashes. */
  datatype PatchValue = IntValue(n: int) | BytesValue(b: Bytes) | HashesValue(hashes: seq<Bytes>)

  /** The eight patchable parameters: the seven of _exc_patchables, then the
      one of _cmp_patchables. */
  datatype Param =
    | BlockNumber | Timestamp | Coinbase | Difficulty | PrevHashes | ChainId | GasLimit
    | CodeSizeLimit

  /** The order in which anchor visits the parameters (dict order). */
  const ALL_PARAMS: seq<Param> :=
    [BlockNumber, Timestamp, Coinbase, Difficulty, PrevHashes, ChainId, GasLimit, CodeSizeLimit]

  lemma AllParamsListed()
    ensures forall p: Param :: p in ALL_PARAMS
  {
    forall p: Param ensures p in ALL_PARAMS {
      match p
      case BlockNumber =>
      case Timestamp =>
      case Coinbase =>
      case Difficulty =>
      case PrevHashes =>
      case ChainId =>
      case GasLimit =>
      case CodeSizeLimit =>
    }
  }

  /** Where a parameter lives: the execution context for _exc_patchables, the
      spurious_dragon module for _cmp_patchables. */
  datatype Holder = ExecutionContext | SpuriousDragon

  function HolderOf(p: Param): Holder {
    if p == CodeSizeLimit then SpuriousDragon else ExecutionContext
  }

  /** The name a caller uses. */
  function PublicName(p: Param): string {
    match p
    case BlockNumber => "block_number"
    case Timestamp => "timestamp"
    case Coinbase => "coinbase"
    case Difficulty => "difficulty"
    case PrevHashes => "prev_hashes"
    case ChainId => "chain_id"
    case GasLimit => "gas_limit"
    case CodeSizeLimit => "code_size_limit"
  }

  /** The attribute of its holder a parameter is bound to. */
  function AttributeName(p: Param): string {
    match p
    case BlockNumber => "_block_number"
    case Timestamp => "_timestamp"
    case Coinbase => "_coinbase"
    case Difficulty => "_difficulty"
    case PrevHashes => "_prev_hashes"
    case ChainId => "_chain_id"
    case GasLimit => "_gas_limit"
    case CodeSizeLimit => "EIP170_CODE_SIZE_LIMIT"
  }

  /** `attr in s` over the two tables in turn: the parameter a name denotes. */
  function ParamNamed(name: string): Option<Param> {
    if name == "block_number" then Some(BlockNumber)
    else if name == "timestamp" then Some(Timestamp)
    else if name == "coinbase" then Some(Coinbase)
    else if name == "difficulty" then Some(Difficulty)
    else if name == "prev_hashes" then Some(PrevHashes)
    else if name == "chain_id" then Some(ChainId)
    else if name == "gas_limit" then Some(GasLimit)
    else if name == "code_size_limit" then Some(CodeSizeLimit)
    else None
  }

  /** Inverse of AttributeName within the tables. */
  function ParamOfAttribute(attr: string): Option<Param> {
    if attr == "_block_number" then Some(BlockNumber)
    else if attr == "_timestamp" then Some(Timestamp)
    else if attr == "_coinbase" then Some(Coinbase)
    else if attr == "_difficulty" then Some(Difficulty)
    else if attr == "_prev_hashes" then Some(PrevHashes)
    else if attr == "_chain_id" then Some(ChainId)
    else if attr == "_gas_limit" then Some(GasLimit)
    else if attr == "EIP170_CODE_SIZE_LIMIT" then Some(CodeSizeLimit)
    else None
  }

  /** Every parameter is found under its public name. */
  lemma ParamNamedPublicName(p: Param)
    ensures ParamNamed(PublicName(p)) == Some(p)
  {
  }

  /** A name denotes a parameter only if it is that parameter's public name. */
  lemma PublicNameOfParamNamed(name: string)
    ensures ParamNamed(name).Some? ==> PublicName(ParamNamed(name).value) == name
  {
  }

  lemma ParamOfAttributeName(p: Param)
    ensures ParamOfAttribute(AttributeName(p)) == Some(p)
  {
  }

  /** Distinct parameters are bound to distinct attributes, so writing one
      never disturbs another. */
  lemma AttributeNameInjective(p: Param, q: Param)
    requires p != q
    ensures AttributeName(p) != AttributeName(q)
  {
  }

  /** Whether attribute `k` of holder `h` is one the patcher writes. */
  predicate BoundIn(k: string, h: Holder) {
    ParamOfAttribute(k).Some? && HolderOf(ParamOfAttribute(k).value) == h
  }

  /** An object whose attributes the patcher reads and writes by name. */
  class AttributeSpace {
    var attrs: map<string, PatchValue>

    constructor (attrs: map<string, PatchValue>)
      ensures this.attrs == attrs
    {
      this.attrs := attrs;
    }
  }

  class VMPatcher {
    const executionContext: AttributeSpace
    const spuriousDragon: AttributeSpace

    ghost predicate Valid()
      reads this, executionContext, spuriousDragon
    {
      && executionContext != spuriousDragon
      && forall p: Param :: AttributeName(p) in HolderObject(p).attrs
    }

    function HolderObject(p: Param): AttributeSpace
      reads this
    {
      if HolderOf(p) == ExecutionContext then executionContext else spuriousDragon
    }

    constructor (executionContext: AttributeSpace, spuriousDragon: AttributeSpace)
      requires executionContext != spuriousDragon
      requires forall p: Param :: HolderOf(p) == ExecutionContext ==> AttributeName(p) in executionContext.attrs
      requires AttributeName(CodeSizeLimit) in spuriousDragon.attrs
      ensures Valid()
      ensures this.executionContext == executionContext && this.spuriousDragon == spuriousDragon
    {
      this.executionContext := executionContext;
      this.spuriousDragon := spuriousDragon;
    }

    /** From the earlier state to this one, only bound attributes may have
        changed: both holders keep their attribute names, and every attribute
        the patcher does not write keeps its value. */
    twostate predicate OthersUnchanged()
      reads this, executionContext, spuriousDragon
    {
      && executionContext.attrs.Keys == old(executionContext.attrs.Keys)
      && spuriousDragon.attrs.Keys == old(spuriousDragon.attrs.Keys)
      && (forall k :: k in old(executionContext.attrs) && !BoundIn(k, ExecutionContext) ==>
            executionContext.attrs[k] == old(executionContext.attrs[k]))
      && (forall k :: k in old(spuriousDragon.attrs) && !BoundIn(k, SpuriousDragon) ==>
            spuriousDragon.attrs[k] == old(spuriousDragon.attrs[k]))
    }

    /** The current value of a parameter. */
    function Value(p: Param): PatchValue
      requires Valid()
      reads this, executionContext, spuriousDragon
    {
      HolderObject(p).attrs[AttributeName(p)]
    }

    /** The values of all eight parameters. */
    function Values(): (m: map<Param, PatchValue>)
      requires Valid()
      reads this, executionContext, spuriousDragon
      ensures forall p: Param :: p in m && m[p] == Value(p)
    {
      AllParamsListed();
      map p: Param | p in ALL_PARAMS :: Value(p)
    }

    /** __getattr__: the bound attribute's value, or AttributeError for a name
        in neither table. */
    function Get(name: string): (r: Result<PatchValue, PyError>)
      requires Valid()
      reads this, executionContext, spuriousDragon
      ensures r.Err? <==> ParamNamed(name).None?
      ensures r.Err? ==> r.error == UnknownAttribute(name)
      ensures forall p: Param :: name == PublicName(p) ==> r == Ok(Value(p))
    {
      ParamNamedPublicNameAll();
      match ParamNamed(name)
      case Some(p) => Ok(Value(p))
      case None => Err(UnknownAttribute(name))
    }

    /** __setattr__: writes the bound attribute; an unknown name is silently
        ignored. */
    method Set(name: string, value: PatchValue)
      requires Valid()
      modifies executionContext, spuriousDragon
      ensures Valid()
      ensures OthersUnchanged()
      ensures ParamNamed(name).None? ==>
                executionContext.attrs == old(executionContext.attrs)
                && spuriousDragon.attrs == old(spuriousDragon.attrs)
      ensures ParamNamed(name).Some? ==>
                var p := ParamNamed(name).value;
                && Value(p) == value
                && (forall q: Param :: q != p ==> Value(q) == old(Value(q)))
                && HolderObject(p).attrs == old(HolderObject(p).attrs)[AttributeName(p) := value]
                && (HolderOf(p) == ExecutionContext ==> spuriousDragon.attrs == old(spuriousDragon.attrs))
                && (HolderOf(p) == SpuriousDragon ==> executionContext.attrs == old(executionContext.attrs))
    {
      match ParamNamed(name)
      case Some(p) =>
        var holder := HolderObject(p);
        ParamOfAttributeName(p);
        holder.attrs := holder.attrs[AttributeName(p) := value];
        forall q: Param | q != p ensures AttributeName(q) != AttributeName(p) {
          AttributeNameInjective(p, q);
        }
      case None =>
    }

    /** Entering anchor(): the snapshot of every parameter, keyed by name as
        the source keys it. */
    method AnchorEnter() returns (snap: map<string, PatchValue>)
      requires Valid()
      ensures forall p: Param :: PublicName(p) in snap && snap[PublicName(p)] == Value(p)
      ensures forall n :: n in snap ==> ParamNamed(n).Some?
    {
      snap := map[];
      var i := 0;
      while i < |ALL_PARAMS|
        invariant 0 <= i <= |ALL_PARAMS|
        invariant forall j :: 0 <= j < i ==> PublicName(ALL_PARAMS[j]) in snap
                                             && snap[PublicName(ALL_PARAMS[j])] == Value(ALL_PARAMS[j])
        invariant forall n :: n in snap ==> ParamNamed(n).Some?
      {
        var name := PublicName(ALL_PARAMS[i]);
        ParamNamedPublicName(ALL_PARAMS[i]);
        snap := snap[name := Get(name).value];
        i := i + 1;
      }
      forall p: Param ensures PublicName(p) in snap && snap[PublicName(p)] == Value(p) {
        AllParamsListed();
        assert p in ALL_PARAMS;
        var j :| 0 <= j < |ALL_PARAMS| && ALL_PARAMS[j] == p;
      }
    }

    /** Leaving anchor(), normally or by an exception (the `finally` block):
        every parameter gets its snapshot value back, and nothing else in the
        two objects changes. */
    method AnchorExit(snap: map<string, PatchValue>)
      requires Valid()
      requires forall p: Param :: PublicName(p) in snap
      modifies executionContext, spuriousDragon
      ensures Valid()
      ensures forall p: Param :: Value(p) == snap[PublicName(p)]
      ensures OthersUnchanged()
    {
      var i := 0;
      while i < |ALL_PARAMS|
        invariant 0 <= i <= |ALL_PARAMS|
        invariant Valid()
        invariant forall j :: 0 <= j < i ==> Value(ALL_PARAMS[j]) == snap[PublicName(ALL_PARAMS[j])]
        invariant OthersUnchanged()
      {
        var p := ALL_PARAMS[i];
        ParamNamedPublicName(p);
        Set(PublicName(p), snap[PublicName(p)]);
        i := i + 1;
      }
      forall p: Param ensures Value(p) == snap[PublicName(p)] {
        AllParamsListed();
        assert p in ALL_PARAMS;
        var j :| 0 <= j < |ALL_PARAMS| && ALL_PARAMS[j] == p;
      }
    }
  }

  lemma ParamNamedPublicNameAll()
    ensures forall p: Param :: ParamNamed(PublicName(p)) == Some(p)
  {
  }
}

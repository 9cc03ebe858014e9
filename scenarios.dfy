/** Client code composing the harness's operations the way tests use them. */
module Scenarios {
  import opened Base
  import opened Engine
  import opened Environment
  import Precompiles
  import AddressCodec
  import Patch
  import Frame
  import CodeStream

  /** A `with env.anchor():` block that changes a balance and travels two
      minutes forward leaves the world and every patched parameter as they
      were before the block. */
  method AnchorRestoresWorldAndTime(env: Env, a: CanonicalAddress, v: nat)
    requires env.Valid()
    modifies env.engine, env.patch.executionContext, env.patch.spuriousDragon
    ensures env.Valid()
    ensures env.engine.world == old(env.engine.world) && env.engine.journal == old(env.engine.journal)
    ensures forall p: Patch.Param :: env.patch.Value(p) == old(env.patch.Value(p))
    ensures env.patch.Values() == old(env.patch.Values())
  {
    var token := env.AnchorEnter();
    env.engine.SetBalance(a, v);
    var _ := env.TimeTravel(Some(120), None, 12);
    env.AnchorExit(token);
    assert old(env.engine.journal) + [old(env.engine.world)] == env.engine.journal + [old(env.engine.world)];
  }

  /** Two conversions of the same raw bytes return the very same object. */
  method AddressCacheIdentity(cache: AddressCodec.AddressCache, raw: CanonicalAddress)
    returns (first: AddressCodec.Address, second: AddressCodec.Address)
    requires cache.Valid()
    modifies cache
    ensures first == second && first.canonical == raw
  {
    first := cache.New(AddressCodec.FromRaw(raw));
    second := cache.New(AddressCodec.FromRaw(raw));
  }

  /** A frame's tables are copies: a precompile registered after the frame
      was built is not seen by it, but is seen by the next frame. */
  method FrameTablesAreCopies(env: Env, msg: Message, a: CanonicalAddress, fn: Precompiles.PrecompileFn)
    returns (before: Frame.Computation, after: Frame.Computation)
    modifies env.globals
    ensures before.precompiles == Opcodes.Overlay(env.classPrecompiles, old(env.globals.precompiles))
    ensures a in after.precompiles && after.precompiles[a] == fn
  {
    before := env.NewComputation(msg);
    var _ := env.globals.RegisterRawPrecompile(a, fn, true);
    after := env.NewComputation(msg);
  }

  /** Touching slots 1 and 2 and then slot 1 again leaves {1, 2}. */
  method SstoreSlotsAccumulate(env: Env, account: CanonicalAddress)
    modifies env
    ensures account in env.sstoreTrace
    ensures env.sstoreTrace[account] == (if account in old(env.sstoreTrace) then old(env.sstoreTrace)[account] else {}) + {1, 2}
  {
    env.TraceSstore(account, 1);
    env.TraceSstore(account, 2);
    env.TraceSstore(account, 1);
  }

  /** Two generated addresses differ, and their aliases are found again. */
  method GeneratedAddressesDiffer(env: Env) returns (x: Result<CanonicalAddress, PyError>, y: Result<CanonicalAddress, PyError>)
    modifies env
    ensures x.Ok? && y.Ok? ==> x.value != y.value
    ensures y.Ok? ==> env.LookupAlias(y.value) == Ok("bob")
  {
    x := env.GenerateAddress(Some("alice"));
    y := env.GenerateAddress(Some("bob"));
    if x.Ok? && y.Ok? {
      AddressOfCounterInjective(env.addressCounter - 1, env.addressCounter);
    }
  }

  /** Inside `with env.sender(s):` a deployment uses s and s's nonce; the
      original eoa is back afterwards. */
  method DeployAsSender(env: Env, s: CanonicalAddress, bytecode: Bytes)
    returns (r: Result<(CanonicalAddress, Bytes), PyError>)
    requires env.Valid()
    modifies env, env.engine
    ensures env.eoa == old(env.eoa)
    ensures r.Ok? ==> r.value.0 == env.engine.contractAddressOf(s, NonceAt(old(env.engine.world), s))
  {
    var saved := env.SenderEnter(s);
    r := env.DeployCode(None, None, 0, bytecode, 0, None);
    env.SenderExit(saved);
  }

  /** A frame built for a message starting at pc 0 can be run to the end:
      its code stream yields the whole code then STOP, and its coverage
      trace holds every pc of the code. */
  method FrameRunsWholeCode(env: Env, msg: Message) returns (c: Frame.Computation, yielded: seq<byte>)
    requires msg.startPc == 0
    ensures yielded == msg.code + [Opcodes.STOP as byte]
    ensures c.code.trace == CodeStream.PcRange(0, |msg.code|)
  {
    c := env.NewComputation(msg);
    var s;
    yielded, s := c.code.Drain();
    CodeStream.OpcodesFromStart(msg.code);
  }
}

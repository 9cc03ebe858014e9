# boa environment, modelled in Dafny

This project models the harness layer of titanoboa's `boa/environment.py`. That layer wraps the
py-evm engine in a contract-centric API. The model covers:

- the process-wide precompile table and opcode overrides, and the frame-local copies every
  computation takes of them;
- the `Address` conversion cache;
- the tracing code stream, with its start pc, its fake code size and its trace of executed pcs;
- the SHA3-preimage and SSTORE tracing hooks, and the traces they feed;
- the eight-parameter `VMPatcher` and its save/restore `anchor`;
- creation-time auto-registration, including EIP-1167 minimal proxies, and the native-vs-interpreted
  dispatch of `apply_computation`;
- `Env`: the contract and code registries, aliases, address generation, sender resolution,
  `deploy_code` and `execute_code`, `time_travel`, and the `anchor`, `sender` and
  `gas_meter_class` scopes.

The engine itself stays abstract (module `Engine`):

- a world of code, nonces and balances;
- a snapshot journal;
- uninterpreted functions for the engine's creation, message call, interpretation and native
  execution, and for `generate_contract_address`.

State that the source changes in place is a Dafny `class`, whose methods state the whole new
state. Pure decisions are functions with lemmas about them. These include:

- registration;
- dispatch;
- creation-time resolution;
- the hooks;
- the time-travel arithmetic.

Each `with` scope is an Enter/Exit method pair. Exit is the `finally` block, so a body that ends
normally and one that raises leave the same state.

Python-specific behaviour is written out:

- negative indexing of the code bytes;
- floor division in `time_travel`;
- the `OverflowError` of `int.to_bytes` at 2^160;
- the `ValueError` of tuple unpacking on a short stack;
- slice semantics of memory reads;
- the `TypeError` of `+=` on a non-integer patch value.

The model follows the code in these places:

- `apply_create_message` inspects `msg.code`. For an EIP-1167 proxy, `contract_address` is
  overwritten with the delegate's address, so the wrapper is registered at the delegate and not
  at the new proxy.
- `VMPatcher.__setattr__` silently ignores a name outside its two tables.
- `deregister_raw_precompile` defaults to `force=True`, so by default it never raises.
- Both hooks unpack `stack.values[-2:]` before delegating. With fewer than two stack items
  Python raises `ValueError` from the unpacking, and the wrapped opcode is not run.
- `_get_sender` raises when `eoa` is None even if an explicit sender is given.
- `generate_address` increments the counter before encoding it. When the encoding overflows,
  the counter stays incremented.

- `deploy_code` and `execute_code` default the gas to `vm.state.gas_limit`, which reads the
  `_gas_limit` attribute that the patch binds to `gas_limit`. A patched gas limit is therefore the
  default gas, and a non-integer one makes the message constructor fail.

## Model

| member | source | states |
|---|---|---|
| Opcodes.Overlay | boa/environment.py:293-301 | copy-then-update: every key of both tables, the process-wide entry winning |
| Precompiles.Register | boa/environment.py:154-159 | fails with "already registered" exactly when the address is present and force is false; otherwise the address maps to fn and every other entry is unchanged |
| Precompiles.Deregister | boa/environment.py:162-166 | fails exactly when the address is absent and force is false; otherwise the address is absent and the remaining entries are unchanged |
| Precompiles.RegisterThenDeregister | boa/environment.py:154-166 | registering a free address and then deregistering it restores the table |
| Precompiles.ProcessGlobals.constructor | boa/environment.py:177-180 | at import the table holds console_log at CONSOLE_ADDRESS and the override table is empty |
| Precompiles.ProcessGlobals.RegisterRawPrecompile | boa/environment.py:154-159 | the global table becomes Register's result, or is unchanged and the error is returned |
| Precompiles.ProcessGlobals.DeregisterRawPrecompile | boa/environment.py:162-166 | the global table becomes Deregister's result, or is unchanged and the error is returned |
| Precompiles.ProcessGlobals.PatchOpcode | boa/environment.py:135-137 | the override table gains opcode -> fn; the precompile table is unchanged |
| AddressCodec.AddressCache.constructor | boa/environment.py:103 | the conversion cache starts empty |
| AddressCodec.Address.constructor | boa/environment.py:114-117 | the normalized form is the lower-cased checksum form |
| AddressCodec.AddressCache.New | boa/environment.py:105-119 | an Address is returned as-is; a cached raw input returns the cached object; otherwise a fresh object is cached; the canonical form always equals the raw input |
| CodeStream.PyIndex | boa/environment.py:204 | Python indexing of the code bytes, including negative indices, and IndexError outside [-len, len) |
| CodeStream.PcRangeShape | boa/environment.py:203-207 | the pcs handed out from lo up to hi are exactly lo, lo+1, ..., hi-1 |
| CodeStream.OpcodesFromShape | boa/environment.py:203-208 | the opcodes yielded from pc are code[pc..], none when pc is past the end |
| CodeStream.OpcodesFromStart | boa/environment.py:197-208 | from pc 0 the stream yields the whole code |
| CodeStream.TracingCodeStream.constructor | boa/environment.py:194-198 | the stream starts at start_pc with an empty trace and the given fake code size |
| CodeStream.TracingCodeStream.Len | boa/environment.py:212-215 | the fake code size when set, else the real length |
| CodeStream.TracingCodeStream.Next | boa/environment.py:200-210 | below the length: yields code[pc], appends pc to the trace, advances pc; past the end: yields STOP and finishes; then StopIteration |
| CodeStream.TracingCodeStream.Drain | boa/environment.py:200-210 | a full iteration yields the opcodes from the start pc then STOP, and the trace gains exactly the pcs from the start pc to the length |
| Hooks.TopTwo | boa/environment.py:239 | the second and top stack items, or ValueError on fewer than two |
| Hooks.ReadBytes | boa/environment.py:247 | memory read as a slice: the bytes at offset, truncated at the end of memory |
| Hooks.AddSlot | boa/environment.py:414-419 | the account's slot set becomes old set plus the slot; other accounts are untouched |
| Hooks.AddSlotAbsorbs | boa/environment.py:414-419 | touching a recorded slot again changes nothing |
| Hooks.AddSlotCommutes | boa/environment.py:414-419 | the order of two touches does not matter |
| Hooks.ApplySstoresSlots | boa/environment.py:414-419 | after a run of writes, an account holds its previous slots plus every slot written to it, and is present exactly when it had or got slots |
| Hooks.RecordPreimage | boa/environment.py:411-412 | the image maps to the newest preimage; other images are unchanged |
| Hooks.SstoreHook | boa/environment.py:261-268 | records (storage address, top-of-stack slot) then delegates; on a short stack raises without recording or delegating |
| Hooks.Sha3Observation | boa/environment.py:244-251 | nothing unless the size is 64; otherwise the top of stack after the hash and 64 bytes of memory at the offset |
| Hooks.Sha3Hook | boa/environment.py:238-251 | delegates first; records image -> preimage only after a successful 64-byte hash; an engine error passes through with no record |
| Hooks.Sha3HookTransparent | boa/environment.py:238-251 | whenever the hook does not raise, its outcome is the wrapped opcode's and at most the one new image is recorded |
| Hooks.Sha3HookRecordsOnly64 | boa/environment.py:244-245 | for a size other than 64 the hook is exactly the wrapped opcode |
| Patch.AllParamsListed | boa/environment.py:42-53 | the anchor's visiting order lists every one of the eight parameters |
| Patch.ParamNamedPublicName | boa/environment.py:63-66 | each parameter is found under its public name |
| Patch.ParamNamedPublicNameAll | boa/environment.py:63-66 | every parameter at once is found under its public name |
| Patch.PublicNameOfParamNamed | boa/environment.py:63-67 | a name resolves to a parameter only if it is that parameter's public name |
| Patch.ParamOfAttributeName | boa/environment.py:42-53 | each bound attribute name identifies its parameter |
| Patch.AttributeNameInjective | boa/environment.py:42-53 | distinct parameters are bound to distinct attributes |
| Patch.VMPatcher.constructor | boa/environment.py:55-61 | the execution context holds the seven context attributes and the spurious_dragon module holds the code size limit |
| Patch.VMPatcher.Values | boa/environment.py:83-86 | one value for each of the eight parameters, read from its holder |
| Patch.VMPatcher.Get | boa/environment.py:63-67 | AttributeError exactly for names in neither table; otherwise the bound attribute's value |
| Patch.VMPatcher.Set | boa/environment.py:69-73 | writes exactly the bound attribute, leaves every other parameter and every unbound attribute of both holders unchanged, and ignores unknown names |
| Patch.VMPatcher.AnchorEnter | boa/environment.py:82-86 | the snapshot holds every parameter's current value under its public name, and nothing else |
| Patch.VMPatcher.AnchorExit | boa/environment.py:88-94 | every parameter gets its snapshot value back; on both holders (the execution context and spurious_dragon) the attribute sets and every attribute not bound to a parameter are unchanged |
| Frame.IsEip1167 | boa/environment.py:323 | code is recognised as a proxy exactly when it is the EIP-1167 proxy code of some 20-byte delegate |
| Frame.Eip1167Delegate | boa/environment.py:324 | the extracted delegate is the one the proxy code embeds between prefix and suffix |
| Frame.Eip1167RoundTrip | boa/environment.py:323-325 | proxy code built for a delegate is recognised and yields that delegate |
| Frame.Eip1167Determined | boa/environment.py:323-325 | recognised proxy code is exactly the proxy code of its extracted delegate |
| Frame.At | boa/environment.py:328 | a wrapper from the same deployer bound to the given address, with no creator yet |
| Frame.ResolutionAddress | boa/environment.py:321-324 | the delegate embedded in proxy code; otherwise the message's storage address |
| Frame.ResolutionCode | boa/environment.py:319-325 | the code stored at the delegate for proxy code; otherwise msg.code |
| Frame.CreateResolution | boa/environment.py:316-332 | registers exactly when msg.code, or for a proxy the delegate's stored code, is in the code registry; at the delegate for a proxy, else at the storage address; created_from is the sender |
| Frame.ProxyCreationRegistersAtDelegate | boa/environment.py:323-330 | deploying a proxy whose delegate's code is registered attaches a wrapper at the delegate, created from the deployer |
| Frame.PlainCreationRegistersAtStorageAddress | boa/environment.py:319-330 | registered non-proxy code is attached at the storage address, created from the deployer |
| Frame.Dispatch | boa/environment.py:336-340 | interpretation exactly when the code address is empty, nothing is registered there, or speed is slow; otherwise the native path with the registered contract |
| Frame.FastAndLudicrousAgree | boa/environment.py:338 | the fast and ludicrous speeds take the same path |
| Frame.NativeResult | boa/environment.py:342-350 | a Halt from the executor is swallowed and the frame succeeds with its output; an engine error fails the frame with that error, keeping the output when the error keeps return data (a Revert) and erasing it otherwise |
| Frame.InstallTracers | boa/environment.py:405-407 | 0x20 and 0x55 are wrapped by the SHA3 and SSTORE tracers; every other opcode is unchanged |
| Frame.OverrideReplacesTracer | boa/environment.py:299-301 | a process-wide override of SSTORE replaces the tracer in the frame's table |
| Frame.Computation.constructor | boa/environment.py:284-307 | tracing stream over msg.code at the message's start pc and fake code size; tables copied and updated with the globals; meter of the current class; no child pcs |
| Frame.Computation.AddChildComputation | boa/environment.py:309-312 | the current pc is appended to the child pcs; the tables are unchanged |
| Registry.Lookup | boa/environment.py:474-478 | the wrapper registered at an address, or None |
| Registry.LookupCode | boa/environment.py:327-328 | the wrapper registered for a bytecode exactly when the bytecode is in the code registry, else None |
| Registry.RegisterContract | boa/environment.py:462-469 | the address and the code stored there both map to the object; every other address and code is unchanged |
| Registry.RegisterBlueprint | boa/environment.py:471-472 | the bytecode maps to the object; the address table and every other code are unchanged |
| Registry.RegisterLastWriteWins | boa/environment.py:462-469 | a second registration at the same address overrides the first in both tables |
| Registry.RegisterCommutes | boa/environment.py:462-469 | registrations at different addresses with different code may be swapped |
| Environment.AddressOfCounter | boa/environment.py:521 | OverflowError exactly at 2^160 or more; otherwise 20 bytes whose big-endian value is the counter |
| Environment.AddressOfCounterInjective | boa/environment.py:521 | distinct counters encode to distinct addresses |
| Environment.GetSender | boa/environment.py:528-533 | ValueError exactly when eoa is None; otherwise the explicit sender, falling back to eoa |
| Environment.FloorDiv | boa/environment.py:648 | Python floor division: the quotient rounded towards negative infinity, for either sign of the divisor |
| Environment.FloorDivUnique | boa/environment.py:648 | any quotient within the floor bounds is the floor quotient |
| Environment.TimeTravelAmounts | boa/environment.py:645-651 | ValueError unless exactly one of seconds and blocks is given; blocks = seconds // delta, or seconds = blocks * delta; ZeroDivisionError for a zero delta with seconds |
| Environment.TimeTravelSecondsOfBlocks | boa/environment.py:647-651 | giving blocks * delta seconds is the same as giving the blocks |
| Environment.TimeTravelTwoMinutes | boa/environment.py:648 | 120 seconds with delta 12 are 10 blocks |
| Environment.TimeTravelBackwards | boa/environment.py:648 | -13 seconds with delta 12 are -2 blocks, as floor division gives |
| Environment.TimeTravelEffect | boa/environment.py:653-654 | timestamp += seconds, then block_number += blocks; TypeError on a non-integer value, after the timestamp has already moved when it is the block number that fails |
| Environment.DeployTarget | boa/environment.py:550-555 | the override address when given; otherwise the address derived from the sender and its nonce before the bump |
| Environment.DeployWorld | boa/environment.py:550-555 | the sender's nonce is incremented only without an override address; nothing else in the world changes |
| Environment.MessageGas | boa/environment.py:545-546 | the explicit gas, else the patched gas_limit; ValidationError exactly when that gas or the value is not an integer in [0, 2^256) |
| Environment.ExplicitGasIgnoresGasLimit | boa/environment.py:545-546 | with an explicit gas the patched gas_limit does not matter |
| Environment.DefaultGasIsGasLimit | boa/environment.py:590-591 | without an explicit gas, an in-range integer gas_limit is the gas and any other patched value fails the message |
| Environment.DeployMessage | boa/environment.py:557-565 | a creation message from the sender with the given gas, value and code, the create address as storage address, an empty recipient, an empty code address, empty data, not static, and the default start pc and code size |
| Environment.ExecuteMessage | boa/environment.py:604-617 | a call from the sender to the recipient with the given gas, value, code and data and no create address; code address and storage address are the recipient; static when not modifying; carrying start pc and fake code size |
| Environment.AfterCreate | boa/environment.py:327-330 | the registries are unchanged when nothing resolves; otherwise the resolved wrapper is registered at the resolved address |
| Environment.BlueprintCreationIsLookedUp | boa/environment.py:327-330 | after register_blueprint, creating that code makes a wrapper from the same deployer available at the storage address, created from the sender |
| Environment.Env.constructor | boa/environment.py:360-372 | counter 100, then eoa is the address of 101 aliased "eoa"; empty registries and traces; the tracers installed; slow mode; standard gas meter |
| Environment.Env.TraceSha3Preimage | boa/environment.py:411-412 | the sha3 trace records image -> preimage; nothing else changes |
| Environment.Env.TraceSstore | boa/environment.py:414-419 | the sstore trace gains the slot for the account; nothing else changes |
| Environment.Env.RunSstoreTracer | boa/environment.py:261-268 | the installed SSTORE tracer's outcome and trace are the hook's |
| Environment.Env.RunSha3Tracer | boa/environment.py:238-251 | the installed SHA3 tracer's outcome and trace are the hook's |
| Environment.Env.RegisterContract | boa/environment.py:462-469 | the tables become Registry.RegisterContract of the old ones at the current world; nothing else changes |
| Environment.Env.RegisterBlueprint | boa/environment.py:471-472 | the tables become Registry.RegisterBlueprint of the old ones; nothing else changes |
| Environment.Env.LookupContract | boa/environment.py:474-478 | the registered wrapper exactly when the canonical address is in the contract table, else None |
| Environment.Env.Alias | boa/environment.py:480-481 | the alias table maps the address to the name; nothing else changes |
| Environment.Env.LookupAlias | boa/environment.py:483-484 | the alias, or KeyError for an address without one |
| Environment.Env.GenerateAddress | boa/environment.py:519-525 | the counter goes up by exactly one; the result is the new counter's address; a given alias is recorded for it |
| Environment.Env.AnchorEnter | boa/environment.py:493-497 | an engine snapshot is pushed, then every patch parameter is saved |
| Environment.Env.AnchorExit | boa/environment.py:496-499 | every patch parameter is restored and no other holder attribute changes, then the engine world is the snapshot's and the journal drops back |
| Environment.Env.SenderEnter | boa/environment.py:502-504 | eoa becomes the address; the old eoa is returned to be restored |
| Environment.Env.SenderExit | boa/environment.py:505-508 | eoa is restored; nothing else changes |
| Environment.Env.SetGasMeterClass | boa/environment.py:432-433 | the meter class becomes cls; nothing else changes |
| Environment.Env.GasMeterClassEnter | boa/environment.py:436-440 | the meter class becomes cls; the old one is returned to be restored |
| Environment.Env.GasMeterClassExit | boa/environment.py:441-442 | the meter class is restored; nothing else changes |
| Environment.Env.EnableGasProfiling | boa/environment.py:444-445 | the meter class becomes the profiling meter |
| Environment.Env.DisableGasMetering | boa/environment.py:447-448 | the meter class becomes the no-gas meter |
| Environment.Env.ResetGasMeteringBehavior | boa/environment.py:450-452 | the meter class becomes the standard meter |
| Environment.Env.NewComputation | boa/environment.py:343 | a fresh frame of this Env's computation class: a valid tracing stream over msg.code at the message's start pc and fake code size, with an empty trace and not finished; the process-wide tables overlaid; the current meter class; no child pcs |
| Environment.Env.ApplyCreateMessage | boa/environment.py:316-332 | the engine's creation result is returned unchanged; the registries become AfterCreate of the old ones at the new world |
| Environment.Env.ApplyComputation | boa/environment.py:335-350 | dispatch on the message's code address: the engine's interpretation when Dispatch says so; otherwise the native run with its outcome mapped by NativeResult |
| Environment.Env.DeployCode | boa/environment.py:545-575 | sender error without changes; otherwise the target and the nonce bump only without override; then ValidationError (keeping the bump) when MessageGas refuses the value or the gas taken from the argument or the patched gas_limit; otherwise the creation, the registrations, and an error re-raised or (target, output) |
| Environment.Env.ExecuteCode | boa/environment.py:590-627 | sender error without changes; ValidationError without changes when MessageGas refuses the value or the gas taken from the argument or the patched gas_limit; otherwise the message over the stored or override code is run and its result returned, failed or not |
| Environment.Env.TimeTravel | boa/environment.py:645-654 | the two parameters change as TimeTravelAmounts and TimeTravelEffect say; every other parameter and every unbound holder attribute is unchanged |
| Scenarios.AnchorRestoresWorldAndTime | boa/environment.py:492-499 | a balance change and a time travel inside an anchor are undone on exit: the world, the journal and all eight parameter values are back |
| Scenarios.AddressCacheIdentity | boa/environment.py:109-118 | converting the same raw bytes twice gives the same object |
| Scenarios.FrameTablesAreCopies | boa/environment.py:293-296 | a frame built before a registration does not see it; the next frame does |
| Scenarios.SstoreSlotsAccumulate | boa/environment.py:414-419 | slots 1, 2, then 1 leave {1, 2} added to the account's set |
| Scenarios.GeneratedAddressesDiffer | boa/environment.py:519-525 | two generated addresses differ and the second's alias is found |
| Scenarios.DeployAsSender | boa/environment.py:501-508 | a deployment inside a sender scope uses that sender's nonce, and the old eoa is back afterwards |
| Scenarios.FrameRunsWholeCode | boa/environment.py:197-210 | a new frame for a message at pc 0 runs its code stream to the end: the whole code then STOP, with every pc of the code in the coverage trace |

## Left out

- console_log: the ABI decoding and the printing to stderr are left out. Only its registration at CONSOLE_ADDRESS is kept, as the opaque handler `ConsoleLog`.
- The checksum and canonical derivation inside `Address` needs keccak, so the checksum is an uninterpreted function. Text and checksummed-string inputs are not modelled: every input is an Address or 20 raw bytes.
- AddressCodec.AddressCache.New: the cache never evicts. The bounded LRU dictionary (1024 entries) lives in `boa/util/lrudict.py`, which is not part of this model.
- `generate_contract_address` (RLP and keccak) is an uninterpreted function of the sender and the nonce.
- The engine's own behaviour is uninterpreted functions of the world and the message. Not modelled:
  - `super().apply_create_message`, `apply_message` and `super().apply_computation`;
  - `contract.ir_executor.exec`;
  - opcode semantics, gas and memory expansion.

  Inside the engine, the engine's calls back into the hooks, into frame construction, into
  `apply_computation` and, for a nested CREATE or CREATE2, into `apply_create_message` are not
  modelled. The model offers each of them as its own operation.

  A consequence: the engine's runs are functions of the world and the message only. They see
  neither the patched block parameters (timestamp, block number, coinbase, chain id and the
  others) nor the transaction context (origin and gas price). The only patched parameter that
  reaches the engine is `gas_limit`, as the default gas through MessageGas. So two identical
  `execute_code` calls in the same world give the same result in the model even when the
  timestamp was patched between them, where in the source they differ for code that reads
  TIMESTAMP.
- The gas meter classes are not part of this model. A frame records only which class it was built with and the start gas. The `_set_code` call on meters that have it is left out.
- `fork` (network I/O), `_make_chain` (genesis construction), `enable_pyevm_verbose_logging` (logging), and `set_balance`/`get_balance` and `_reset_access_counters` (plain forwarding to the engine) are left out.
- `get_gas_price` is left out. It returns the configured gas price, or 0 when none is set, and `deploy_code` and `execute_code` put it, with the sender as origin, into the transaction context they pass to the engine. The model builds no transaction context.
- `prank` is left out: it is another name for the `sender` scope, which is modelled as Env.SenderEnter and Env.SenderExit.
- `get_singleton` is left out: it builds one Env per class on first use and caches it. The model constructs Envs explicitly.
- `_hook_trace_computation` and the coverage run of `execute_code` are left out. The hook has no effect on the model's state. Its recursion (boa/environment.py:634-636) passes `computation` again instead of `child`, so on a computation that has children it recurses until Python raises RecursionError, and `execute_code` with coverage enabled raises for such a computation. The model has no coverage switch and does not capture that error.
- `__dir__` and the deprecated `register_precompile` warning are left out.
- The dynamic class synthesis in `_init_vm` is left out. The Env holds the resulting opcode table, with the tracers installed, and the class's precompile table directly.
- In the source, the tracers are written into `c.opcodes`. Python resolves that to the engine class's inherited dictionary, which other environments share. The model gives each Env its own table.
- `_precompiles` is keyed by `Address` objects, which hash by identity. The model keys it by canonical bytes, as the engine looks it up.
- The `_contract` attribute execute_code sets on the message is left out: nothing in the core reads it. `start_pc` of deploy_code is accepted and ignored, as in the source.
- The SHA3 image is kept as the stack word and not as its 32-byte form. The hooks' stack-item assertions are not modelled.
- Environment.Env.ApplyCreateMessage requires a storage address. The engine always sets `create_address` on the creation messages it passes in.
- Environment.Env.ExecuteCode / Environment.Env.DeployCode: the engine run is one uninterpreted step, so both methods keep `contracts`, `codeRegistry`, `sstore_trace` and `sha3_trace` fixed across it (DeployCode then applies only the outer creation's registration). In the source, the SSTORE and SHA3 tracers fill the traces during the run, and every nested CREATE or CREATE2 goes through `apply_create_message`, which can register a factory's clone.
- Integer widths are unbounded. The widths modelled are the 20-byte address encoding and the 256-bit bound the message constructor puts on gas and value.
- The engine's message constructor validates more than gas and value. The other fields (the canonical sender and recipient, the data bytes) are valid by their types here.
- EIP-1167 detection follows the EIP: a 45-byte runtime code made of the prefix `363d3d373d3d3d363d73`, the 20-byte delegate and the suffix `5af43d82803e903d91602b57fd5bf3`. `boa/util/eip1167.py` is not part of this model, so the model assumes it matches exactly this pattern.
- Environment.Env.ApplyComputation: the native executor is a function of the world, the message and the contract. The frame it runs in is modelled separately, by NewComputation, and is not passed to it.

/** The SHA3 and SSTORE tracing hooks and the trace store they feed. The
    evaluation stack is a sequence whose last element is the top. */
module Hooks {
  import opened Base
  import opened Engine

  /** What the hooks see of a computation: its stack, its memory and
      msg.storage_address. */
  datatype FrameView = FrameView(stack: seq<Word>, memory: Bytes, storageAddress: CanonicalAddress)

  /** What a wrapped opcode implementation does: it returns with the frame
      changed, or raises an engine error. */
  datatype OpOutcome = Continued(frame: FrameView) | OpFailed(error: VMError)

  /** What a hook does: it delegated and passes on the wrapped operation's
      outcome, or it raised a Python exception of its own. */
  datatype HookOutcome = Delegated(outcome: OpOutcome) | HookRaised(error: PyError)

  /** `a, b = stack.values[-2:]`: the second item and the top item, or a
      ValueError when fewer than two items are on the stack. */
  function TopTwo(stack: seq<Word>): (r: Result<(Word, Word), PyError>)
    ensures r.Ok? <==> |stack| >= 2
    ensures r.Err? ==> r.error == UnpackError
    ensures r.Ok? ==> r.value.0 == stack[|stack| - 2] && r.value.1 == stack[|stack| - 1]
  {
    if |stack| < 2 then Err(UnpackError) else Ok((stack[|stack| - 2], stack[|stack| - 1]))
  }

  function Min(a: int, b: int): int { if a <= b then a else b }

  /** memory.read_bytes(offset, size), as a Python slice of the memory bytes. */
  function ReadBytes(memory: Bytes, offset: nat, size: nat): (r: Bytes)
    ensures |r| == if offset >= |memory| then 0 else Min(size, |memory| - offset)
    ensures forall i :: 0 <= i < |r| ==> r[i] == memory[offset + i]
    ensures offset + size <= |memory| ==> r == memory[offset..offset + size]
  {
    if offset >= |memory| then [] else memory[offset..Min(offset + size, |memory|)]
  }

  /** The sstore trace: account -> set of touched slots. */
  type SstoreTrace = map<CanonicalAddress, set<Word>>

  /** The sha3 trace: image -> preimage. */
  type Sha3Trace = map<Word, Bytes>

  /** Env._trace_sstore: setdefault(account, set()) then add(slot). */
  function AddSlot(trace: SstoreTrace, account: CanonicalAddress, slot: Word): (r: SstoreTrace)
    ensures r.Keys == trace.Keys + {account}
    ensures r[account] == (if account in trace then trace[account] else {}) + {slot}
    ensures forall a :: a in trace && a != account ==> r[a] == trace[a]
  {
    trace[account := (if account in trace then trace[account] else {}) + {slot}]
  }

  /** Touching a slot that is already recorded changes nothing. */
  lemma AddSlotAbsorbs(trace: SstoreTrace, account: CanonicalAddress, slot: Word)
    requires account in trace && slot in trace[account]
    ensures AddSlot(trace, account, slot) == trace
  {
    assert trace[account] + {slot} == trace[account];
  }

  /** The order in which slots are touched does not matter. */
  lemma AddSlotCommutes(trace: SstoreTrace, a: CanonicalAddress, s: Word, b: CanonicalAddress, t: Word)
    ensures AddSlot(AddSlot(trace, a, s), b, t) == AddSlot(AddSlot(trace, b, t), a, s)
  {
    var l := AddSlot(AddSlot(trace, a, s), b, t);
    var r := AddSlot(AddSlot(trace, b, t), a, s);
    assert l.Keys == r.Keys;
    forall k | k in l ensures l[k] == r[k] {
    }
  }

  /** A run of storage writes, folded through AddSlot in order. */
  function ApplySstores(trace: SstoreTrace, writes: seq<(CanonicalAddress, Word)>): SstoreTrace
    decreases |writes|
  {
    if writes == [] then trace
    else AddSlot(ApplySstores(trace, writes[..|writes| - 1]), writes[|writes| - 1].0, writes[|writes| - 1].1)
  }

  /** Every slot a run of writes touches on an account. */
  function SlotsOf(writes: seq<(CanonicalAddress, Word)>, account: CanonicalAddress): set<Word> {
    set i | 0 <= i < |writes| && writes[i].0 == account :: writes[i].1
  }

  lemma SlotsOfSnoc(writes: seq<(CanonicalAddress, Word)>, account: CanonicalAddress)
    requires writes != []
    ensures var last := writes[|writes| - 1];
            SlotsOf(writes, account)
              == SlotsOf(writes[..|writes| - 1], account) + (if last.0 == account then {last.1} else {})
  {
  }

  /** What a run of writes leaves for an account: the slots it had before and
      every slot written to it; the account appears exactly when it had slots
      or was written to. */
  lemma {:induction false} ApplySstoresSlots(trace: SstoreTrace, writes: seq<(CanonicalAddress, Word)>, account: CanonicalAddress)
    decreases |writes|
    ensures var t := ApplySstores(trace, writes);
            account in t <==> account in trace || SlotsOf(writes, account) != {}
    ensures var t := ApplySstores(trace, writes);
            account in t ==> t[account] == (if account in trace then trace[account] else {}) + SlotsOf(writes, account)
  {
    if writes != [] {
      ApplySstoresSlots(trace, writes[..|writes| - 1], account);
      SlotsOfSnoc(writes, account);
    }
  }

  /** Env._trace_sha3_preimage: the newest preimage of an image wins. */
  function RecordPreimage(trace: Sha3Trace, image: Word, preimage: Bytes): (r: Sha3Trace)
    ensures r.Keys == trace.Keys + {image} && r[image] == preimage
    ensures forall i :: i in trace && i != image ==> r[i] == trace[i]
  {
    trace[image := preimage]
  }

  /** SstoreTracer.__call__: read (value, slot) off the stack, record
      (storage address, slot), then delegate to the wrapped SSTORE. The result
      is the hook's outcome and the new sstore trace. */
  function SstoreHook(frame: FrameView, sstore: FrameView -> OpOutcome, trace: SstoreTrace)
    : (r: (HookOutcome, SstoreTrace))
    ensures |frame.stack| < 2 ==> r == (HookRaised(UnpackError), trace)
    ensures |frame.stack| >= 2 ==>
              r.0 == Delegated(sstore(frame))
              && r.1 == AddSlot(trace, frame.storageAddress, frame.stack[|frame.stack| - 1])
  {
    match TopTwo(frame.stack)
    case Err(e) => (HookRaised(e), trace)
    case Ok((value, slot)) =>
      var trace' := AddSlot(trace, frame.storageAddress, slot);
      (Delegated(sstore(frame)), trace')
  }

  /** What the SHA3 hook records once the wrapped SHA3 has returned: nothing
      unless the input size was 64; otherwise the hash now on top of the stack
      and the 64 bytes read from memory at the offset. */
  function Sha3Observation(size: Word, offset: Word, after: FrameView)
    : (r: Result<Option<(Word, Bytes)>, PyError>)
    ensures size != 64 ==> r == Ok(None)
    ensures size == 64 && after.stack == [] ==> r == Err(StackIndexError)
    ensures size == 64 && after.stack != [] ==>
              r == Ok(Some((after.stack[|after.stack| - 1], ReadBytes(after.memory, offset, 64))))
  {
    if size != 64 then Ok(None)
    else if after.stack == [] then Err(StackIndexError)
    else Ok(Some((after.stack[|after.stack| - 1], ReadBytes(after.memory, offset, size))))
  }

  /** Sha3PreimageTracer.__call__: read (size, offset) off the stack, delegate
      to the wrapped SHA3, then record image -> preimage when size is 64. */
  function Sha3Hook(frame: FrameView, sha3: FrameView -> OpOutcome, trace: Sha3Trace)
    : (r: (HookOutcome, Sha3Trace))
    ensures |frame.stack| < 2 ==> r == (HookRaised(UnpackError), trace)
    ensures |frame.stack| >= 2 && sha3(frame).OpFailed? ==> r == (Delegated(sha3(frame)), trace)
    ensures |frame.stack| >= 2 && sha3(frame).Continued? ==>
              var size := frame.stack[|frame.stack| - 2];
              var offset := frame.stack[|frame.stack| - 1];
              match Sha3Observation(size, offset, sha3(frame).frame)
              case Err(e) => r == (HookRaised(e), trace)
              case Ok(None) => r == (Delegated(sha3(frame)), trace)
              case Ok(Some((image, preimage))) =>
                r == (Delegated(sha3(frame)), RecordPreimage(trace, image, preimage))
  {
    match TopTwo(frame.stack)
    case Err(e) => (HookRaised(e), trace)
    case Ok((size, offset)) =>
      var outcome := sha3(frame);
      match outcome
      case OpFailed(_) => (Delegated(outcome), trace)
      case Continued(after) =>
        match Sha3Observation(size, offset, after)
        case Err(e) => (HookRaised(e), trace)
        case Ok(None) => (Delegated(outcome), trace)
        case Ok(Some((image, preimage))) => (Delegated(outcome), RecordPreimage(trace, image, preimage))
  }

  /** The SHA3 hook is transparent: whenever it does not raise, its outcome
      is the wrapped operation's, and it records at most the one new image. */
  lemma Sha3HookTransparent(frame: FrameView, sha3: FrameView -> OpOutcome, trace: Sha3Trace)
    requires Sha3Hook(frame, sha3, trace).0.Delegated?
    ensures Sha3Hook(frame, sha3, trace).0 == Delegated(sha3(frame))
    ensures var t := Sha3Hook(frame, sha3, trace).1;
            t == trace || (sha3(frame).Continued? && |sha3(frame).frame.stack| > 0
                           && t == RecordPreimage(trace, Last(sha3(frame).frame.stack),
                                                  ReadBytes(sha3(frame).frame.memory, frame.stack[|frame.stack| - 1], 64)))
  {
  }

  /** Only a 64-byte hash input is recorded. */
  lemma Sha3HookRecordsOnly64(frame: FrameView, sha3: FrameView -> OpOutcome, trace: Sha3Trace)
    requires |frame.stack| >= 2 && frame.stack[|frame.stack| - 2] != 64
    ensures Sha3Hook(frame, sha3, trace) == (Delegated(sha3(frame)), trace)
  {
  }

  function Last(s: seq<Word>): Word
    requires s != []
  {
    s[|s| - 1]
  }
}

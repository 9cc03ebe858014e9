/** TracingCodeStream: the code view each frame gets, with a configurable
    starting program counter, an optional fake code size, and a trace of
    every program counter it hands out. */
module CodeStream {
  import opened Base
  import Opcodes

  /** Python indexing of a byte string: negative indices count from the end;
      anything else out of range is an IndexError (None here). */
  function PyIndex(code: Bytes, i: int): (r: Option<byte>)
    ensures r.Some? <==> -|code| <= i < |code|
    ensures 0 <= i < |code| ==> r == Some(code[i])
    ensures -|code| <= i < 0 ==> r == Some(code[|code| + i])
  {
    if 0 <= i < |code| then Some(code[i])
    else if -|code| <= i < 0 then Some(code[|code| + i])
    else None
  }

  /** The program counters lo..hi-1 in order. */
  function PcRange(lo: int, hi: int): (r: seq<int>)
    decreases hi - lo
  {
    if hi <= lo then [] else PcRange(lo, hi - 1) + [hi - 1]
  }

  lemma {:induction false} PcRangeShape(lo: int, hi: int)
    decreases hi - lo
    ensures |PcRange(lo, hi)| == if hi <= lo then 0 else hi - lo
    ensures forall k :: 0 <= k < |PcRange(lo, hi)| ==> PcRange(lo, hi)[k] == lo + k
  {
    if lo < hi {
      PcRangeShape(lo, hi - 1);
    }
  }

  /** The opcodes an uninterrupted iteration yields from pc until the loop ends. */
  function OpcodesFrom(code: Bytes, pc: int): (r: seq<byte>)
    requires pc >= -|code|
    decreases |code| - pc
  {
    if pc >= |code| then [] else [PyIndex(code, pc).value] + OpcodesFrom(code, pc + 1)
  }

  lemma {:induction false} OpcodesFromShape(code: Bytes, pc: nat)
    ensures |OpcodesFrom(code, pc)| == if pc >= |code| then 0 else |code| - pc
    decreases |code| - pc
    ensures forall k :: 0 <= k < |OpcodesFrom(code, pc)| ==> OpcodesFrom(code, pc)[k] == code[pc + k]
  {
    if pc < |code| {
      OpcodesFromShape(code, pc + 1);
    }
  }

  /** Starting from pc 0, the iteration yields the code itself. */
  lemma OpcodesFromStart(code: Bytes)
    ensures OpcodesFrom(code, 0) == code
  {
    OpcodesFromShape(code, 0);
  }

  /** One resumption of the generator: an opcode, StopIteration once the
      terminal STOP has been handed out, or an IndexError from the indexing. */
  datatype Step = Yield(opcode: byte) | StopIteration | IndexErrorRaised

  class TracingCodeStream {
    const rawCode: array<byte>
    const lengthCache: nat
    const fakeCodesize: Option<int>
    var programCounter: int
    var trace: seq<int>
    /** The generator has returned (after STOP, or after raising). */
    var finished: bool

    ghost predicate Valid()
      reads this
    {
      lengthCache == rawCode.Length
    }

    constructor (code: Bytes, startPc: int, fakeCodesize: Option<int>)
      ensures Valid() && fresh(rawCode) && rawCode[..] == code
      ensures programCounter == startPc && trace == [] && !finished
      ensures this.fakeCodesize == fakeCodesize
    {
      rawCode := new byte[|code|](i requires 0 <= i < |code| => code[i]);
      lengthCache := |code|;
      this.fakeCodesize := fakeCodesize;
      programCounter := startPc;
      trace := [];
      finished := false;
      new;
      assert rawCode[..] == code;
    }

    /** __len__: the fake code size when one is set, the real length otherwise. */
    function Len(): (n: int)
      requires Valid()
      reads this
      ensures fakeCodesize.Some? ==> n == fakeCodesize.value
      ensures fakeCodesize.None? ==> n == rawCode.Length
    {
      if fakeCodesize.Some? then fakeCodesize.value else lengthCache
    }

    /** One resumption of __iter__. */
    method Next() returns (s: Step)
      requires Valid()
      modifies this
      ensures Valid()
      ensures old(finished) ==> s == StopIteration && programCounter == old(programCounter)
                                && trace == old(trace) && finished
      ensures !old(finished) && old(programCounter) >= rawCode.Length ==>
                s == Yield(Opcodes.STOP as byte) && finished
                && programCounter == old(programCounter) && trace == old(trace)
      ensures !old(finished) && old(programCounter) < -rawCode.Length ==>
                s == IndexErrorRaised && finished
                && programCounter == old(programCounter) && trace == old(trace)
      ensures !old(finished) && -rawCode.Length <= old(programCounter) < rawCode.Length ==>
                s == Yield(PyIndex(rawCode[..], old(programCounter)).value) && !finished
                && programCounter == old(programCounter) + 1 && trace == old(trace) + [old(programCounter)]
    {
      if finished {
        return StopIteration;
      }
      if programCounter < lengthCache {
        var idx := programCounter;
        if idx < 0 { idx := lengthCache + idx; }
        if idx < 0 {
          finished := true;
          return IndexErrorRaised;
        }
        var opcode := rawCode[idx];
        trace := trace + [programCounter];
        programCounter := programCounter + 1;
        return Yield(opcode);
      }
      finished := true;
      s := Yield(Opcodes.STOP as byte);
    }

    /** Running the generator to its end, with nothing moving the program
        counter in between: the opcodes from the start pc on, then STOP; the
        trace gains exactly the pcs handed out. */
    method Drain() returns (yielded: seq<byte>, s: Step)
      requires Valid() && !finished
      modifies this
      ensures Valid() && finished
      ensures old(programCounter) < -rawCode.Length ==>
                s == IndexErrorRaised && yielded == [] && trace == old(trace)
                && programCounter == old(programCounter)
      ensures old(programCounter) >= -rawCode.Length ==>
                s == StopIteration
                && yielded == OpcodesFrom(rawCode[..], old(programCounter)) + [Opcodes.STOP as byte]
                && trace == old(trace) + PcRange(old(programCounter), rawCode.Length)
                && programCounter == if old(programCounter) < rawCode.Length then rawCode.Length
                                     else old(programCounter)
    {
      ghost var pc0 := programCounter;
      ghost var code := rawCode[..];
      ghost var trace0 := trace;
      yielded := [];
      if programCounter < -(lengthCache as int) {
        s := Next();
        return;
      }
      while true
        invariant Valid() && code == rawCode[..]
        invariant -|code| <= pc0
        invariant !finished ==> pc0 <= programCounter <= (if pc0 < |code| then |code| else pc0)
        invariant !finished ==> yielded + OpcodesFrom(code, programCounter) == OpcodesFrom(code, pc0)
        invariant !finished ==> trace == trace0 + PcRange(pc0, programCounter)
        invariant finished ==> yielded == OpcodesFrom(code, pc0) + [Opcodes.STOP as byte]
        invariant finished ==> trace == trace0 + PcRange(pc0, |code|)
        invariant finished ==> programCounter == if pc0 < |code| then |code| else pc0
        decreases if finished then 0 else if programCounter >= lengthCache then 1
                  else 2 + lengthCache - programCounter
      {
        ghost var pc := programCounter;
        var step := Next();
        if !step.Yield? {
          s := step;
          return;
        }
        if pc < |code| {
          assert OpcodesFrom(code, pc) == [step.opcode] + OpcodesFrom(code, pc + 1);
          assert yielded + [step.opcode] + OpcodesFrom(code, pc + 1) == OpcodesFrom(code, pc0);
        } else {
          assert OpcodesFrom(code, pc) == [];
          assert PcRange(pc0, pc) == PcRange(pc0, |code|);
        }
        yielded := yielded + [step.opcode];
      }
    }
  }
}

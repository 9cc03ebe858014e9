/** Shared vocabulary: bytes, canonical addresses, 20-byte big-endian encoding,
    Option/Result, and the Python exceptions the harness raises. */
module Base {

  newtype byte = x: int | 0 <= x < 256

  type Bytes = seq<byte>

  /** The canonical (20-byte) form of an account address. */
  type CanonicalAddress = s: Bytes | |s| == 20 witness seq(20, i => 0)

  /** A 256-bit evaluation-stack word, as the engine's integer view of a stack item. */
  type Word = nat

  datatype Option<+T> = None | Some(value: T) {
    function GetOr(default: T): T {
      match this
      case Some(v) => v
      case None => default
    }
  }

  datatype Result<+T, +E> = Ok(value: T) | Err(error: E)

  /** A contract wrapper registered with the harness, opaque to it apart from
      the deployer it came from, the address it is bound to and its
      provenance (`created_from`). */
  datatype Contract = Contract(deployer: nat, address: Option<CanonicalAddress>, createdFrom: Option<CanonicalAddress>)

  /** The exceptions the harness raises, one constructor per raise site kind. */
  datatype PyError =
    | AlreadyRegistered(address: CanonicalAddress)  // ValueError("Already registered: ...")
    | NotRegistered                                  // ValueError; the message carries no address
    | UnknownAttribute(name: string)                 // AttributeError
    | EoaUndefined                                   // ValueError(".eoa not defined!")
    | InvalidTimeTravel                              // ValueError("One of seconds or blocks ...")
    | UnpackError                                    // ValueError from tuple unpacking
    | MissingKey                                     // KeyError
    | StackIndexError                                // IndexError
    | IntOverflow                                    // OverflowError from int.to_bytes
    | ZeroDivision                                   // ZeroDivisionError
    | NotAnInteger                                   // TypeError from "+=" on a non-integer
    | InvalidMessage                                 // the engine's ValidationError for a message field
    | EngineRaised(id: nat)                          // an engine error re-raised to the caller

  /** 256 to the power n: the number of values n bytes can hold. */
  function Pow256(n: nat): (p: nat)
    ensures p >= 1
  {
    if n == 0 then 1 else 256 * Pow256(n - 1)
  }

  /** The last `len` bytes of the big-endian encoding of n (Python's int.to_bytes(len, "big")). */
  function ToBigEndian(n: nat, len: nat): (r: Bytes)
    requires n < Pow256(len)
    ensures |r| == len
    decreases len
  {
    if len == 0 then []
    else ToBigEndian(n / 256, len - 1) + [(n % 256) as byte]
  }

  /** The unsigned integer a big-endian byte string denotes (int.from_bytes(b, "big")). */
  function FromBigEndian(b: Bytes): (n: nat)
    ensures n < Pow256(|b|)
  {
    if b == [] then 0 else FromBigEndian(b[..|b| - 1]) * 256 + b[|b| - 1] as nat
  }

  lemma {:induction false} FromToBigEndian(n: nat, len: nat)
    requires n < Pow256(len)
    ensures FromBigEndian(ToBigEndian(n, len)) == n
    decreases len
  {
    if len > 0 {
      FromToBigEndian(n / 256, len - 1);
      var r := ToBigEndian(n, len);
      assert r[..|r| - 1] == ToBigEndian(n / 256, len - 1);
    }
  }

  /** Encoding a counter in big-endian form is injective, so distinct counters give distinct bytes. */
  lemma ToBigEndianInjective(m: nat, n: nat, len: nat)
    requires m < Pow256(len) && n < Pow256(len) && m != n
    ensures ToBigEndian(m, len) != ToBigEndian(n, len)
  {
    FromToBigEndian(m, len);
    FromToBigEndian(n, len);
  }
}

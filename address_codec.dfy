/** The `Address` value class and the cache behind `Address.__new__`. */
module AddressCodec {
  import opened Base

  /** ASCII lower-casing, as str.lower() acts on a checksummed hex address. */
  function LowerChar(c: char): char {
    if 'A' <= c <= 'Z' then (c as int - 'A' as int + 'a' as int) as char else c
  }

  function Lower(s: string): (r: string)
    ensures |r| == |s|
    ensures forall i :: 0 <= i < |s| ==> r[i] == LowerChar(s[i])
  {
    seq(|s|, i requires 0 <= i < |s| => LowerChar(s[i]))
  }

  /** An address with its three derived forms; immutable after construction. */
  class Address {
    const canonical: CanonicalAddress
    const checksum: string
    const normalized: string

    constructor (canonical: CanonicalAddress, checksum: string)
      ensures this.canonical == canonical && this.checksum == checksum
      ensures normalized == Lower(checksum)
    {
      this.canonical := canonical;
      this.checksum := checksum;
      this.normalized := Lower(checksum);
    }
  }

  /** What `Address(...)` is given: an existing Address, or a raw 20-byte value. */
  datatype AddressInput = FromAddress(obj: Address) | FromRaw(raw: CanonicalAddress)

  /** The class-level cache `Address._cache`, keyed on the raw input. */
  class AddressCache {
    var entries: map<CanonicalAddress, Address>
    /** to_checksum_address, which needs keccak and is left uninterpreted. */
    const checksumOf: CanonicalAddress -> string

    ghost predicate Valid()
      reads this, entries.Values
    {
      forall k :: k in entries ==> entries[k].canonical == k
    }

    constructor (checksumOf: CanonicalAddress -> string)
      ensures Valid() && entries == map[] && this.checksumOf == checksumOf
    {
      entries := map[];
      this.checksumOf := checksumOf;
    }

    /** Address.__new__: an Address is returned as-is; a cached raw input returns
        the cached instance; otherwise a new instance is built and cached. */
    method New(input: AddressInput) returns (a: Address)
      requires Valid()
      modifies this
      ensures Valid()
      ensures input.FromAddress? ==> a == input.obj && entries == old(entries)
      ensures input.FromRaw? && input.raw in old(entries) ==>
                a == old(entries)[input.raw] && entries == old(entries)
      ensures input.FromRaw? && input.raw !in old(entries) ==>
                fresh(a) && entries == old(entries)[input.raw := a]
                && a.checksum == checksumOf(input.raw) && a.normalized == Lower(a.checksum)
      ensures input.FromRaw? ==> a.canonical == input.raw
    {
      match input
      case FromAddress(obj) =>
        a := obj;
      case FromRaw(raw) =>
        if raw in entries {
          a := entries[raw];
        } else {
          a := new Address(raw, checksumOf(raw));
          entries := entries[raw := a];
        }
    }
  }
}

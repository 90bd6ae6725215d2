/**
 * The encoding of a disk's sector size. `Disk` stores the size as a base-2
 * exponent (`disk.size`): 8 stands for 256 bytes, 9 for 512, 10 for 1024,
 * 11 for 2048 and 12 for 4096.
 */
module SectorSize {
  import opened Types

  const MinExponent: nat := 8
  const MaxExponent: nat := 12

  /** 2 raised to `e`, the meaning of `1 << e`. */
  function Pow2(e: nat): (r: nat)
    ensures r >= 1
  {
    if e == 0 then 1 else 2 * Pow2(e - 1)
  }

  predicate IsExponent(e: nat) {
    MinExponent <= e <= MaxExponent
  }

  /** The five sector sizes, in bytes, that the exponent encoding can express. */
  predicate IsSectorBytes(n: nat) {
    n == 256 || n == 512 || n == 1024 || n == 2048 || n == 4096
  }

  ghost predicate IsPowerOfTwo(n: nat) {
    exists k: nat :: Pow2(k) == n
  }

  /** Sector size in bytes for a stored exponent. */
  function BytesOfExponent(e: nat): (r: uint32)
    requires IsExponent(e)
    ensures IsSectorBytes(r) && IsPowerOfTwo(r)
    ensures 256 <= r <= 4096
  {
    assert Pow2(8) == 256 && Pow2(9) == 512 && Pow2(10) == 1024;
    assert Pow2(11) == 2048 && Pow2(12) == 4096;
    Pow2(e)
  }

  /**
   * The exponent that stands for a size in bytes, if the encoding has one;
   * any size other than the five yields None.
   */
  function ExponentOfBytes(n: nat): (r: Option<uint32>)
    ensures r.Some? <==> IsSectorBytes(n)
    ensures r.Some? ==> IsExponent(r.value)
  {
    if n == 256 then Some(8)
    else if n == 512 then Some(9)
    else if n == 1024 then Some(10)
    else if n == 2048 then Some(11)
    else if n == 4096 then Some(12)
    else None
  }

  /** Decoding a stored exponent and encoding it again gives the same exponent. */
  lemma ExponentRoundTrip(e: nat)
    requires IsExponent(e)
    ensures ExponentOfBytes(BytesOfExponent(e)) == Some(e)
  {
    assert Pow2(8) == 256 && Pow2(9) == 512 && Pow2(10) == 1024;
    assert Pow2(11) == 2048 && Pow2(12) == 4096;
  }

  /** Encoding a supported byte size and decoding it again gives the same size. */
  lemma BytesRoundTrip(n: nat)
    requires IsSectorBytes(n)
    ensures ExponentOfBytes(n).Some? && BytesOfExponent(ExponentOfBytes(n).value) == n
  {
  }

  /** Every size the encoding can express is a power of two, and so is a multiple of 256. */
  lemma {:induction false} SectorBytesArePowersOfTwo(n: nat)
    requires IsSectorBytes(n)
    ensures IsPowerOfTwo(n) && n % 256 == 0
  {
    BytesRoundTrip(n);
  }
}

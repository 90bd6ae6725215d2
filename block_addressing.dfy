/**
 * Block addressing of the READ, WRITE and VERIFY commands: how a command
 * descriptor block (CDB) of each of the three widths carries its starting
 * logical block address (LBA) and its transfer length, and the check that a
 * requested range lies on the medium (`Disk::GetStartAndCount`).
 *
 * Field layouts follow the SCSI Block Commands standard (SBC-3): the 6-byte
 * form holds a 21-bit LBA in the low 5 bits of byte 1 and bytes 2-3 and an
 * 8-bit length in byte 4, where 0 stands for 256 blocks; the 10-byte form a
 * 32-bit LBA in bytes 2-5 and a 16-bit length in bytes 7-8; the 16-byte form
 * a 64-bit LBA in bytes 2-9 and a 32-bit length in bytes 10-13. All fields
 * are big-endian.
 */
module BlockAddressing {
  import opened Types

  /** The transfer addressing modes of `Disk::access_mode`. */
  datatype AccessMode = RW6 | RW10 | RW16

  /** Number of CDB bytes a command of each mode occupies. */
  function CdbLength(mode: AccessMode): (n: nat)
    ensures 6 <= n <= 16
  {
    match mode
    case RW6 => 6
    case RW10 => 10
    case RW16 => 16
  }

  /** 256 raised to `w`: one more than the largest value `w` bytes can hold. */
  function Pow256(w: nat): (r: nat)
    ensures r >= 1
  {
    if w == 0 then 1 else 256 * Pow256(w - 1)
  }

  /** The value of a big-endian byte field, accumulated as `v = (v << 8) | b`. */
  function FromBigEndian(bs: seq<byte>): (v: nat)
    ensures v < Pow256(|bs|)
  {
    if bs == [] then 0
    else
      var p := FromBigEndian(bs[..|bs| - 1]);
      assert p + 1 <= Pow256(|bs| - 1);
      assert (p + 1) * 256 <= Pow256(|bs| - 1) * 256;
      p * 256 + bs[|bs| - 1]
  }

  /** The `w`-byte big-endian field that holds `n` (truncated to its low `w` bytes). */
  function ToBigEndian(n: nat, w: nat): (bs: seq<byte>)
    ensures |bs| == w
  {
    if w == 0 then [] else ToBigEndian(n / 256, w - 1) + [n % 256]
  }

  /** Writing a value that fits into a `w`-byte field and reading the field back yields the value. */
  lemma {:induction false} FromToBigEndian(n: nat, w: nat)
    requires n < Pow256(w)
    ensures FromBigEndian(ToBigEndian(n, w)) == n
  {
    if w > 0 {
      var q, b := n / 256, n % 256;
      assert n == q * 256 + b;
      assert q * 256 <= n < Pow256(w - 1) * 256;
      var bs := ToBigEndian(n, w);
      assert bs == ToBigEndian(q, w - 1) + [b];
      assert bs[..w - 1] == ToBigEndian(q, w - 1);
      FromToBigEndian(q, w - 1);
    }
  }

  /** Reading a field and writing its value back into a field of the same width yields the field. */
  lemma {:induction false} ToFromBigEndian(bs: seq<byte>)
    ensures ToBigEndian(FromBigEndian(bs), |bs|) == bs
  {
    if bs != [] {
      var k := |bs| - 1;
      var p := FromBigEndian(bs[..k]);
      assert FromBigEndian(bs) / 256 == p && FromBigEndian(bs) % 256 == bs[k];
      ToFromBigEndian(bs[..k]);
      assert bs == bs[..k] + [bs[k]];
    }
  }

  lemma Pow256Widths()
    ensures Pow256(2) == 0x1_0000 && Pow256(4) == 0x1_0000_0000
    ensures Pow256(8) == 0x1_0000_0000_0000_0000
  {
  }

  /** The start block and block count that a CDB requests. */
  datatype StartAndCount = StartAndCount(start: uint64, count: uint32)

  /** Largest LBA plus one that a mode's LBA field can express. */
  function StartLimit(mode: AccessMode): nat {
    match mode
    case RW6 => 0x20_0000
    case RW10 => 0x1_0000_0000
    case RW16 => 0x1_0000_0000_0000_0000
  }

  /**
   * True when `start` and `count` can be written into a CDB of `mode`. The
   * 6-byte form transfers 1 to 256 blocks; the wider forms any count their
   * length field holds, zero included.
   */
  predicate Representable(mode: AccessMode, start: nat, count: nat) {
    start < StartLimit(mode) &&
    match mode
    case RW6 => 1 <= count <= 256
    case RW10 => count < 0x1_0000
    case RW16 => count < 0x1_0000_0000
  }

  /** Reads the LBA and transfer-length fields of a CDB of the given mode. */
  function DecodeStartAndCount(cdb: seq<byte>, mode: AccessMode): (r: StartAndCount)
    requires |cdb| >= CdbLength(mode)
    ensures Representable(mode, r.start, r.count)
  {
    Pow256Widths();
    match mode
    case RW6 =>
      var lba := (cdb[1] % 0x20) * 0x1_0000 + FromBigEndian(cdb[2..4]);
      StartAndCount(lba, if cdb[4] == 0 then 0x100 else cdb[4])
    case RW10 =>
      StartAndCount(FromBigEndian(cdb[2..6]), FromBigEndian(cdb[7..9]))
    case RW16 =>
      StartAndCount(FromBigEndian(cdb[2..10]), FromBigEndian(cdb[10..14]))
  }

  /**
   * A CDB of the given mode with operation code `opcode` that requests
   * `count` blocks from `start`; every flag, group and control field is zero.
   */
  function EncodeCdb(mode: AccessMode, opcode: byte, start: nat, count: nat): (cdb: seq<byte>)
    requires Representable(mode, start, count)
    ensures |cdb| == CdbLength(mode) && cdb[0] == opcode
  {
    match mode
    case RW6 =>
      [opcode, start / 0x1_0000, (start / 0x100) % 0x100, start % 0x100,
       if count == 0x100 then 0 else count, 0]
    case RW10 =>
      [opcode, 0] + ToBigEndian(start, 4) + [0] + ToBigEndian(count, 2) + [0]
    case RW16 =>
      [opcode, 0] + ToBigEndian(start, 8) + ToBigEndian(count, 4) + [0, 0]
  }

  lemma Rw6DecodeEncode(opcode: byte, start: nat, count: nat)
    requires Representable(RW6, start, count)
    ensures DecodeStartAndCount(EncodeCdb(RW6, opcode, start, count), RW6) == StartAndCount(start, count)
  {
    var cdb := EncodeCdb(RW6, opcode, start, count);
    var field := [(start / 0x100) % 0x100, start % 0x100];
    assert cdb[2..4] == field;
    assert field[..1] == [(start / 0x100) % 0x100];
    assert [(start / 0x100) % 0x100][..0] == [];
    assert FromBigEndian(field) == start % 0x1_0000;
  }

  lemma Rw10DecodeEncode(opcode: byte, start: nat, count: nat)
    requires Representable(RW10, start, count)
    ensures DecodeStartAndCount(EncodeCdb(RW10, opcode, start, count), RW10) == StartAndCount(start, count)
  {
    Pow256Widths();
    var cdb := EncodeCdb(RW10, opcode, start, count);
    assert cdb[2..6] == ToBigEndian(start, 4);
    assert cdb[7..9] == ToBigEndian(count, 2);
    FromToBigEndian(start, 4);
    FromToBigEndian(count, 2);
  }

  lemma Rw16DecodeEncode(opcode: byte, start: nat, count: nat)
    requires Representable(RW16, start, count)
    ensures DecodeStartAndCount(EncodeCdb(RW16, opcode, start, count), RW16) == StartAndCount(start, count)
  {
    Pow256Widths();
    var cdb := EncodeCdb(RW16, opcode, start, count);
    assert cdb[2..10] == ToBigEndian(start, 8);
    assert cdb[10..14] == ToBigEndian(count, 4);
    FromToBigEndian(start, 8);
    FromToBigEndian(count, 4);
  }

  /** Every representable request survives being written into a CDB and read back. */
  lemma {:induction false} DecodeEncode(mode: AccessMode, opcode: byte, start: nat, count: nat)
    requires Representable(mode, start, count)
    ensures DecodeStartAndCount(EncodeCdb(mode, opcode, start, count), mode) == StartAndCount(start, count)
  {
    match mode
    case RW6 => Rw6DecodeEncode(opcode, start, count);
    case RW10 => Rw10DecodeEncode(opcode, start, count);
    case RW16 => Rw16DecodeEncode(opcode, start, count);
  }

  /** Outcome of checking a requested range against the medium. */
  datatype RangeCheck =
    | Transfer(start: uint64, count: uint32)  // the range lies on the medium: go ahead
    | NoTransfer                              // a zero-length 10- or 16-byte request: nothing to do
    | LbaOutOfRange                           // the range runs past the last block

  /**
   * The block-range validator: a request is out of range when it reaches
   * past the last of `blockCount` blocks; an in-range request of zero blocks
   * is a no-op except in the 6-byte form, whose zero already means 256.
   */
  function Validate(cdb: seq<byte>, mode: AccessMode, blockCount: nat): (c: RangeCheck)
    requires |cdb| >= CdbLength(mode)
    ensures c.Transfer? ==> c.start + c.count <= blockCount && (c.count > 0 || mode == RW6)
    ensures c.Transfer? ==> StartAndCount(c.start, c.count) == DecodeStartAndCount(cdb, mode)
    ensures c.LbaOutOfRange? <==>
              DecodeStartAndCount(cdb, mode).start + DecodeStartAndCount(cdb, mode).count > blockCount
    ensures c.NoTransfer? ==> DecodeStartAndCount(cdb, mode).count == 0 && mode != RW6
  {
    var r := DecodeStartAndCount(cdb, mode);
    if r.start + r.count > blockCount then LbaOutOfRange
    else if r.count == 0 && mode != RW6 then NoTransfer
    else Transfer(r.start, r.count)
  }

  /**
   * For every request a CDB can carry, the validator hands back exactly the
   * requested range when it fits on the medium and refuses it when it does not.
   */
  lemma {:induction false} ValidateEncoded(mode: AccessMode, opcode: byte, start: nat, count: nat, blockCount: nat)
    requires Representable(mode, start, count)
    ensures Validate(EncodeCdb(mode, opcode, start, count), mode, blockCount) ==
              if start + count > blockCount then LbaOutOfRange
              else if count == 0 then NoTransfer
              else Transfer(start, count)
  {
    DecodeEncode(mode, opcode, start, count);
  }

  /**
   * On a medium of 1000 blocks, READ(10) of one block at LBA 999 is accepted
   * and READ(10) of two blocks at LBA 999 is refused.
   */
  lemma Read10AtEndOfMedium()
    ensures Validate(EncodeCdb(RW10, 0x28, 999, 1), RW10, 1000) == Transfer(999, 1)
    ensures Validate(EncodeCdb(RW10, 0x28, 999, 2), RW10, 1000) == LbaOutOfRange
  {
    ValidateEncoded(RW10, 0x28, 999, 1, 1000);
    ValidateEncoded(RW10, 0x28, 999, 2, 1000);
  }

  /** A 6-byte CDB whose length byte is zero asks for 256 blocks. */
  lemma {:induction false} Rw6ZeroLengthMeans256(cdb: seq<byte>)
    requires |cdb| >= 6 && cdb[4] == 0
    ensures DecodeStartAndCount(cdb, RW6).count == 256
  {
  }
}

/**
 * The state of an emulated SCSI hard disk (`class Disk`): its supported and
 * configured sector sizes, its capacity catalogue, its geometry (sector size
 * and block count) and its command table, with the getters, setters and the
 * command dispatcher that work on them.
 */
module Disks {
  import opened Types
  import SectorSize
  import opened BlockAddressing
  import opened Commands

  /** A fixed geometry for a catalogued capacity: sector size in bytes and block count. */
  datatype Geometry = Geometry(sectorSize: uint32, blockCount: uint32)

  class Disk {
    /** The sector sizes (in bytes) a user may configure; empty when the size is not configurable. */
    var sectorSizes: set<uint32>
    var configuredSectorSize: uint32
    /** Supported capacities (in bytes) with their geometries; empty when any capacity is allowed. */
    var geometries: map<uint64, Geometry>
    /** `disk.size`: the sector size as an exponent of two (8 to 12), 0 while none is set. */
    var size: uint32
    /** `disk.blocks`: the number of sectors, held in 32 bits. */
    var blocks: uint32
    var commands: CommandTable

    ghost predicate Valid()
      reads this
    {
      size == 0 || SectorSize.IsExponent(size)
    }

    /**
     * A new disk has no sector size and no blocks yet; it registers every
     * handler that has an operation code, one `AddCommand` at a time, and so
     * ends up with the standard table.
     */
    constructor ()
      ensures Valid()
      ensures sectorSizes == {} && configuredSectorSize == 0 && geometries == map[]
      ensures size == 0 && blocks == 0
      ensures commands == StandardTable()
    {
      sectorSizes := {};
      configuredSectorSize := 0;
      geometries := map[];
      size := 0;
      blocks := 0;
      commands := map[];
      new;
      RegisterCommands();
    }

    /** Registers every handler that has an operation code, one `AddCommand` at a time. */
    method RegisterCommands()
      requires commands == map[]
      modifies this`commands
      ensures commands == StandardTable()
    {
      var i := 0;
      while i < |Registered|
        invariant 0 <= i <= |Registered|
        invariant commands == TableOf(Registered[..i])
      {
        var h := Registered[i];
        RegisteredHaveCodes(i);
        TableOfPrefixStep(Registered, i);
        AddCommand(OpcodeOf(h).value, NameOf(h), h);
        i := i + 1;
      }
      TableOfRegistered();
    }

    /** The sector size in bytes: one of 256, 512, 1024, 2048 and 4096, or 0 while none is set. */
    function GetSectorSizeInBytes(): (r: uint32)
      reads this
      requires Valid()
      ensures size == 0 <==> r == 0
      ensures r != 0 ==> SectorSize.IsSectorBytes(r) && SectorSize.ExponentOfBytes(r) == Some(size)
    {
      if size == 0 then 0
      else
        SectorSize.ExponentRoundTrip(size);
        SectorSize.BytesOfExponent(size)
    }

    /** The sector size as stored: an exponent between 8 and 12, or 0 while none is set. */
    function GetSectorSize(): (r: uint32)
      reads this
      requires Valid()
      ensures r == 0 || SectorSize.IsExponent(r)
      ensures r != 0 ==> SectorSize.BytesOfExponent(r) == GetSectorSizeInBytes()
    {
      size
    }

    /**
     * Sets the sector size from a size in bytes. A size the exponent encoding
     * cannot express leaves the stored size as it was. The flag is not used.
     */
    method SetSectorSizeInBytes(bytes: uint32, sasi: bool)
      requires Valid()
      modifies this`size
      ensures Valid()
      ensures SectorSize.IsSectorBytes(bytes) ==> GetSectorSizeInBytes() == bytes
      ensures !SectorSize.IsSectorBytes(bytes) ==> size == old(size)
    {
      var e := SectorSize.ExponentOfBytes(bytes);
      if e.Some? {
        size := e.value;
        SectorSize.BytesRoundTrip(bytes);
      }
    }

    /** The size is configurable exactly when there is a supported size to choose from. */
    function IsSectorSizeConfigurable(): (r: bool)
      reads this
      ensures r <==> exists s :: s in sectorSizes
    {
      sectorSizes != {}
    }

    function GetSectorSizes(): (r: set<uint32>)
      reads this
      ensures r == {} <==> !IsSectorSizeConfigurable()
    {
      sectorSizes
    }

    method SetSectorSizes(sizes: set<uint32>)
      modifies this`sectorSizes
      ensures GetSectorSizes() == sizes
      ensures IsSectorSizeConfigurable() <==> sizes != {}
    {
      sectorSizes := sizes;
    }

    /** The configured sector size in bytes; `SetConfiguredSectorSize` is what changes it. */
    function GetConfiguredSectorSize(): (r: uint32)
      reads this
      ensures r == configuredSectorSize
    {
      configuredSectorSize
    }

    /**
     * Requests a configured sector size: accepted exactly when it is one of
     * the supported sizes, so a disk whose size is not configurable refuses
     * every request and keeps its configured size.
     */
    method SetConfiguredSectorSize(bytes: uint32) returns (ok: bool)
      modifies this`configuredSectorSize
      ensures ok <==> bytes in GetSectorSizes()
      ensures !IsSectorSizeConfigurable() ==> !ok
      ensures GetConfiguredSectorSize() == if ok then bytes else old(GetConfiguredSectorSize())
    {
      ok := bytes in sectorSizes;
      if ok {
        configuredSectorSize := bytes;
      }
    }

    method SetGeometries(catalogue: map<uint64, Geometry>)
      modifies this`geometries
      ensures geometries == catalogue
    {
      geometries := catalogue;
    }

    /** Whether a capacity (in bytes) is allowed: every capacity when the catalogue is empty. */
    function IsCapacitySupported(capacity: uint64): (r: bool)
      reads this
      ensures geometries == map[] ==> r
      ensures geometries != map[] ==> (r <==> capacity in geometries)
    {
      geometries == map[] || capacity in geometries
    }

    /**
     * Adopts the catalogued geometry of a capacity: its block count, and its
     * sector size when the exponent encoding can express it. A capacity
     * outside the catalogue changes nothing.
     */
    method SetGeometryForCapacity(capacity: uint64)
      requires Valid()
      modifies this`size, this`blocks
      ensures Valid()
      ensures capacity in geometries ==> GetBlockCount() == geometries[capacity].blockCount
      ensures capacity in geometries && SectorSize.IsSectorBytes(geometries[capacity].sectorSize) ==>
                GetSectorSizeInBytes() == geometries[capacity].sectorSize
      ensures capacity in geometries && !SectorSize.IsSectorBytes(geometries[capacity].sectorSize) ==>
                size == old(size)
      ensures capacity !in geometries ==> size == old(size) && blocks == old(blocks)
      ensures !IsCapacitySupported(capacity) ==> size == old(size) && blocks == old(blocks)
    {
      if capacity in geometries {
        var g := geometries[capacity];
        SetSectorSizeInBytes(g.sectorSize, false);
        SetBlockCount(g.blockCount);
      }
    }

    /** The block count widened to 64 bits; its upper 32 bits are always zero. */
    function GetBlockCount(): (r: uint64)
      reads this
      ensures r < 0x1_0000_0000
    {
      blocks
    }

    method SetBlockCount(count: uint32)
      modifies this`blocks
      ensures GetBlockCount() == count
    {
      blocks := count;
    }

    /** Registers a handler under an operation code, replacing any earlier entry for that code. */
    method AddCommand(op: Opcode, name: string, execute: Handler)
      modifies this`commands
      ensures commands == old(commands)[op := CommandEntry(name, execute)]
      ensures Lookup(commands, op) == Some(execute)
      ensures forall other :: other != op ==> Lookup(commands, other) == Lookup(old(commands), other)
    {
      commands := commands[op := CommandEntry(name, execute)];
    }

    /**
     * Selects the handler for the operation code of the current command.
     * Reports whether the code is in the table, and which handler runs;
     * an unknown code runs no handler.
     */
    method Dispatch(op: Opcode) returns (handled: bool, executed: Option<Handler>)
      ensures handled <==> op in commands
      ensures handled ==> executed == Some(commands[op].execute)
      ensures !handled ==> executed == None
    {
      handled := op in commands;
      executed := Lookup(commands, op);
    }

    /**
     * Reads the start block and block count of a READ, WRITE or VERIFY CDB and
     * checks them against the block count. `ok` says whether to transfer;
     * `lbaOutOfRange` whether the range runs past the last block, which the
     * controller reports as an ILLEGAL REQUEST.
     */
    method GetStartAndCount(cdb: seq<byte>, mode: AccessMode)
      returns (ok: bool, start: uint64, count: uint32, lbaOutOfRange: bool)
      requires |cdb| >= CdbLength(mode)
      ensures StartAndCount(start, count) == DecodeStartAndCount(cdb, mode)
      ensures lbaOutOfRange <==> start + count > GetBlockCount()
      ensures ok <==> !lbaOutOfRange && (count > 0 || mode == RW6)
      ensures ok ==> Validate(cdb, mode, GetBlockCount()) == Transfer(start, count)
    {
      var r := DecodeStartAndCount(cdb, mode);
      start, count := r.start, r.count;
      var check := Validate(cdb, mode, GetBlockCount());
      ok := check.Transfer?;
      lbaOutOfRange := check.LbaOutOfRange?;
    }
  }

  /** A newly constructed disk dispatches every standard command to its own handler, and nothing else. */
  method NewDiskDispatch(op: Opcode) returns (executed: Option<Handler>)
    ensures executed == HandlerAt(op)
  {
    var d := new Disk();
    var handled;
    handled, executed := d.Dispatch(op);
  }
}

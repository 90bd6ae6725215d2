# Disk: sector geometry, block addressing and command dispatch

A Dafny model of the `Disk` class of RaSCSI (`src/raspberrypi/devices/disk.h`),
the block-storage device at the heart of the SCSI target emulator. It covers
the state the class keeps and the rules its declarations and comments fix:

- the **sector-size registry**: the set of configurable sector sizes (empty
  when the size is not configurable), the configured size, and the stored
  size `disk.size`, an exponent of two between 8 (256 bytes) and 12 (4096
  bytes) once a size has been set, and 0 on a new disk that has none yet;
- the **capacity catalogue** `geometries`, mapping a capacity in bytes to one
  geometry (sector size, block count), empty when any capacity is allowed;
- the **block count** `disk.blocks`, held in 32 bits, read back widened to 64;
- the **command table** `commands`, one entry (name, handler) per SCSI
  operation code, filled by `AddCommand` and consulted by `Dispatch`;
- the three **addressing modes** `RW6`, `RW10` and `RW16` and
  `GetStartAndCount`, which reads the start block and the block count out of
  a READ, WRITE or VERIFY command descriptor block (CDB) and checks the range
  against the block count.

Files:

- `types.dfy` (`Types`): byte, `uint32`, `uint64`, `Option`.
- `sector_size.dfy` (`SectorSize`): exponent <-> byte-size encoding and its round trips.
- `block_addressing.dfy` (`BlockAddressing`): big-endian CDB fields of the three
  addressing modes, their encoding and decoding, and the block-range validator.
- `commands.dfy` (`Commands`): command table entries, lookup, and the
  operation codes the SCSI standards give each declared handler.
- `disk.dfy` (`Disks`): `class Disk` with the header's fields; setters are
  methods with `modifies` frames, the const getters are functions with
  `reads` clauses and so cannot change any state.

Where the header leaves a body open, the model makes a choice and states it.
A configured sector size is accepted exactly when it is one of the supported
sizes: this reads the comment at disk.h:41 and is not fixed by the header
(see "## Left out"). Following the system's design, a range is valid when
`start + count` does not exceed the block count; a 6-byte CDB's transfer
length of 0 means 256 blocks, and a zero-length 10- or 16-byte transfer is a
no-op. CDB field positions and widths and operation-code values follow the
SCSI Block Commands (SBC-3) and SCSI Primary Commands (SPC-3) standards. The
constructor registers its handlers one `AddCommand` call at a time.

## Model

| member | source | states |
|---|---|---|
| SectorSize.BytesOfExponent | src/raspberrypi/devices/disk.h:53 | a stored exponent 8..12 stands for 256, 512, 1024, 2048 or 4096 bytes, a power of two |
| SectorSize.ExponentOfBytes | src/raspberrypi/devices/disk.h:53 | a byte size has an exponent exactly when it is one of the five sizes, and that exponent lies in 8..12 |
| SectorSize.ExponentRoundTrip | src/raspberrypi/devices/disk.h:53 | decoding a stored exponent to bytes and encoding it again gives the same exponent |
| SectorSize.BytesRoundTrip | src/raspberrypi/devices/disk.h:53 | encoding one of the five byte sizes and decoding it gives the same size |
| SectorSize.SectorBytesArePowersOfTwo | src/raspberrypi/devices/disk.h:53 | every expressible sector size is a power of two and a multiple of 256 |
| BlockAddressing.FromBigEndian | src/raspberrypi/devices/disk.h:144 | a w-byte CDB field reads as a value below 256^w |
| BlockAddressing.FromToBigEndian | src/raspberrypi/devices/disk.h:144 | a value that fits a w-byte field is read back unchanged after being written |
| BlockAddressing.ToFromBigEndian | src/raspberrypi/devices/disk.h:144 | a field is rewritten unchanged from the value read out of it |
| BlockAddressing.CdbLength | src/raspberrypi/devices/disk.h:39 | a CDB of any of the three addressing modes occupies between 6 and 16 bytes |
| BlockAddressing.DecodeStartAndCount | src/raspberrypi/devices/disk.h:144 | RW6 yields a 21-bit start and 1..256 blocks, RW10 a 32-bit start and 16-bit count, RW16 a 64-bit start and 32-bit count |
| BlockAddressing.DecodeEncode | src/raspberrypi/devices/disk.h:144 | every start and count a mode can carry is read back exactly from the CDB that carries it |
| BlockAddressing.Validate | src/raspberrypi/devices/disk.h:144 | a range accepted for transfer is the decoded one and ends at or before the last block; a range is refused as out of range exactly when start + count exceeds the block count |
| BlockAddressing.ValidateEncoded | src/raspberrypi/devices/disk.h:144 | for every encodable request the validator returns exactly (start, count) when it fits, refuses it when it does not, and treats a zero-length wide request as a no-op |
| BlockAddressing.Read10AtEndOfMedium | src/raspberrypi/devices/disk.h:144 | on 1000 blocks, READ(10) of 1 block at LBA 999 is accepted and of 2 blocks is refused |
| BlockAddressing.Rw6ZeroLengthMeans256 | src/raspberrypi/devices/disk.h:144 | a 6-byte CDB with transfer length 0 asks for 256 blocks |
| Commands.Lookup | src/raspberrypi/devices/disk.h:61-67 | a code finds a handler exactly when it is in the table, and the handler found is that entry's |
| Commands.LookupAfterAdd | src/raspberrypi/devices/disk.h:67-69 | after registering a code it reaches the new handler and every other code reaches what it reached before |
| Commands.OpcodeOf | src/raspberrypi/devices/disk.h:83-116 | every declared SCSI command handler has an operation code except the shared Seek helper |
| Commands.HandlerAt | src/raspberrypi/devices/disk.h:83-116 | a code maps to at most one declared handler, never to the Seek helper |
| Commands.OpcodeOfHandlerAt | src/raspberrypi/devices/disk.h:83-116 | the handler a code is assigned to is assigned that same code |
| Commands.HandlerAtOpcodeOf | src/raspberrypi/devices/disk.h:83-116 | every handler with a code is the handler that code is assigned to |
| Commands.StandardTable | src/raspberrypi/devices/disk.h:67 | the constructed table holds exactly the codes that have a handler |
| Commands.TableOfSnoc | src/raspberrypi/devices/disk.h:67-69 | registering one more handler adds exactly its own entry, under its own code, to the table built so far |
| Commands.TableOfPrefixStep | src/raspberrypi/devices/disk.h:67-69 | the table after registering the first i + 1 handlers of a list is the one after i, updated at the next handler's code |
| Commands.TableOfRegistered | src/raspberrypi/devices/disk.h:73 | registering the whole registration list yields the standard table |
| Commands.RegistrationIndex | src/raspberrypi/devices/disk.h:83-116 | every handler with a code appears in the registration list |
| Commands.StandardTableSound | src/raspberrypi/devices/disk.h:61-67 | each table entry sits under its own handler's code and carries that handler's name |
| Commands.StandardTableComplete | src/raspberrypi/devices/disk.h:83-116 | every handler with a code is reachable through the table |
| Commands.OpcodesDistinct | src/raspberrypi/devices/disk.h:61-67 | no two handlers share an operation code, so each code reaches one handler |
| Disks.Disk.constructor | src/raspberrypi/devices/disk.h:73 | a new disk has no sector size, no blocks, no supported sizes, no catalogue, and the standard command table built through AddCommand |
| Disks.Disk.RegisterCommands | src/raspberrypi/devices/disk.h:69 | registering every coded handler one AddCommand at a time turns the empty table into the standard table |
| Disks.Disk.GetSectorSizeInBytes | src/raspberrypi/devices/disk.h:132 | the size in bytes is 0 exactly while no size is set, otherwise one of the five sizes whose exponent is the stored one |
| Disks.Disk.GetSectorSize | src/raspberrypi/devices/disk.h:134 | the stored size is 0 or an exponent in 8..12 that decodes to GetSectorSizeInBytes |
| Disks.Disk.SetSectorSizeInBytes | src/raspberrypi/devices/disk.h:133 | one of the five sizes becomes the sector size read back by GetSectorSizeInBytes; any other size leaves the stored size unchanged |
| Disks.Disk.IsSectorSizeConfigurable | src/raspberrypi/devices/disk.h:135 | configurable exactly when some supported size exists |
| Disks.Disk.GetSectorSizes | src/raspberrypi/devices/disk.h:136 | the supported set is empty exactly when the size is not configurable |
| Disks.Disk.SetSectorSizes | src/raspberrypi/devices/disk.h:137 | the set is read back as given and the size becomes configurable exactly when it is non-empty |
| Disks.Disk.GetConfiguredSectorSize | src/raspberrypi/devices/disk.h:138 | reads the configured size and changes no state; SetConfiguredSectorSize fixes its value |
| Disks.Disk.SetConfiguredSectorSize | src/raspberrypi/devices/disk.h:138-139 | succeeds exactly for a supported size, which becomes the configured one; never succeeds when not configurable; on failure the configured size is unchanged |
| Disks.Disk.SetGeometries | src/raspberrypi/devices/disk.h:140 | the catalogue becomes the given map |
| Disks.Disk.IsCapacitySupported | src/raspberrypi/devices/disk.h:45-46 | an empty catalogue allows every capacity; a non-empty one exactly its keys |
| Disks.Disk.SetGeometryForCapacity | src/raspberrypi/devices/disk.h:141 | a catalogued capacity sets the block count and the expressible sector size of its geometry; an uncatalogued one, and in particular one IsCapacitySupported rejects, changes nothing |
| Disks.Disk.GetBlockCount | src/raspberrypi/devices/disk.h:142 | the 64-bit block count never exceeds 32 bits |
| Disks.Disk.SetBlockCount | src/raspberrypi/devices/disk.h:143 | the 32-bit value set is read back unchanged through the 64-bit getter |
| Disks.Disk.AddCommand | src/raspberrypi/devices/disk.h:67-69 | the code now maps to one entry with the given name and handler; every other entry is unchanged |
| Disks.Disk.Dispatch | src/raspberrypi/devices/disk.h:149 | a registered code is handled and runs exactly its entry's handler; an unregistered code is not handled and runs none |
| Disks.Disk.GetStartAndCount | src/raspberrypi/devices/disk.h:144 | start and count are the CDB's fields for the mode; out of range exactly when start + count exceeds the block count; success exactly when in range and not a zero-length wide transfer |
| Disks.NewDiskDispatch | src/raspberrypi/devices/disk.h:149 | a freshly constructed disk dispatches each code to the handler the standards assign it, and unknown codes to none |

## Left out

- `Open`, `GetPath`, `Eject` and `Flush` (disk.h:77-80): file-backed media I/O through `Filepath` and the disk cache, which are not part of this model.
- The bodies of the SCSI command handlers (disk.h:83-116) and of the command helpers (disk.h:119-130, 147, 162, 168-173): they drive the controller and the cache and are not part of this model; only their identity as table entries is modelled.
- The mode-page builders `AddError` to `AddVendor` (disk.h:153-160), `ModeSense6`/`ModeSense10`, `ModeSelect` and `SelectCheck`/`SelectCheck10`: their byte layouts are not part of this model.
- `CheckReady` (disk.h:161) and the readiness gate: media state is not modelled.
- The controller pointer `ctrl` (disk.h:48), the cache pointer `dcache` and the image offset `imgoffset` (disk.h:56-57): the controller is a parameter of `Dispatch` and `GetStartAndCount` (the opcode and the CDB bytes), the cache and the offset are only used by I/O.
- Disks.Disk.constructor: the device-type string of `Disk(std::string)` belongs to the `Device` base class, not part of this model. Which commands the constructor registers is an assumption: every handler declared at disk.h:83-116 except `Seek`, each under its standard operation code. `Seek` (disk.h:107) is assumed to be a helper shared by `Seek6` and `Seek10` with no code of its own; the header does not say so.
- Disks.Disk.SetConfiguredSectorSize: the success criterion (the size must be one of the supported sizes, so every request is refused when the size is not configurable) is the model's own reading of the comment at disk.h:41; the header does not fix it. The system's design differs when the supported set is empty: there the fixed configured size is kept and the request is not reported as an error.
- Disks.Disk.GetSectorSize: the stored exponent lies in 8..12 only once a size has been set; a new disk holds 0, a value the comment at disk.h:53 does not list.
- Disks.Disk.GetSectorSizeInBytes: the result is one of 256..4096 only once a size has been set; before that it is 0.
- Commands.OpcodeOf: `ReadCapacity16` is keyed by 0x9E, the SERVICE ACTION IN(16) operation code, whose service action 0x10 is READ CAPACITY(16); dispatch looks at the operation code only and the service action is not examined.
- Disks.Disk.SetSectorSizeInBytes: the meaning of the `bool` parameter is not fixed by the declaration and the model ignores it; the model leaves the stored size unchanged for a size the exponent encoding cannot express, where the source may instead signal an error.
- Disks.Disk.SetGeometryForCapacity: when a catalogued geometry's sector size is not one of the five expressible sizes, the block count is still taken and the sector size kept, as the composition of the two setters gives.
- Disks.Disk.GetStartAndCount: start + count is compared in unbounded integers; how the source guards the 64-bit sum of a 16-byte CDB's start near 2^64 is not modelled. The ILLEGAL REQUEST sense reported to the controller is modelled as the `lbaOutOfRange` flag.
- The model does not claim that the stored sector size is always one of the supported sizes: the header does not tie `disk.size` to `sector_sizes`, and `SetSectorSizes` may replace the set at any time.
- `Dispatch` logs the entry's name; logging is not modelled, and the name is kept only as part of the table entry.
- Concurrency and the device factory are outside the modelled class.

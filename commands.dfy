/**
 * The command table of `Disk`: a map from SCSI operation code to an entry
 * holding a display name and the handler that executes the command.
 */
module Commands {
  import opened Types

  /** A SCSI operation code (`SCSIDEV::scsi_command`), the first byte of a CDB. */
  type Opcode = byte

  /** The command handlers `Disk` declares, one per SCSI command it implements. */
  datatype Handler =
    | TestUnitReady | Inquiry | RequestSense
    | ModeSelect6 | ModeSelect10 | ModeSense6 | ModeSense10
    | Rezero | FormatUnit | ReassignBlocks | StartStopUnit | SendDiagnostic
    | PreventAllowMediumRemoval | SynchronizeCache10 | SynchronizeCache16
    | ReadDefectData10
    | Read6 | Read10 | Read16 | Write6 | Write10 | Write16 | Verify10 | Verify16
    | Seek | Seek6 | Seek10
    | ReadCapacity10 | ReadCapacity16 | ReportLuns
    | Reserve6 | Reserve10 | Release6 | Release10

  /** An entry of the table (`command_t`): one name and one handler. */
  datatype CommandEntry = CommandEntry(name: string, execute: Handler)

  type CommandTable = map<Opcode, CommandEntry>

  /** The handler registered for `op`, or None when the code is not in the table. */
  function Lookup(table: CommandTable, op: Opcode): (h: Option<Handler>)
    ensures h.Some? <==> op in table
    ensures h.Some? ==> table[op].execute == h.value
  {
    if op in table then Some(table[op].execute) else None
  }

  /** Registering a command makes its code reach the new handler and leaves every other code alone. */
  lemma LookupAfterAdd(table: CommandTable, op: Opcode, name: string, h: Handler, other: Opcode)
    ensures Lookup(table[op := CommandEntry(name, h)], op) == Some(h)
    ensures other != op ==> Lookup(table[op := CommandEntry(name, h)], other) == Lookup(table, other)
  {
  }

  /**
   * The operation code the SCSI standards (SPC-3, SBC-3) assign to each
   * handler; `Seek` is taken to be a helper of the two SEEK commands with no
   * code of its own. `ReadCapacity16` sits under 0x9E, SERVICE ACTION IN(16),
   * of which READ CAPACITY(16) is service action 0x10: the table is keyed by
   * operation code alone and does not look at the service action.
   */
  function OpcodeOf(h: Handler): (op: Option<Opcode>)
    ensures op.None? <==> h == Seek
  {
    match h
    case TestUnitReady => Some(0x00)
    case Rezero => Some(0x01)
    case RequestSense => Some(0x03)
    case FormatUnit => Some(0x04)
    case ReassignBlocks => Some(0x07)
    case Read6 => Some(0x08)
    case Write6 => Some(0x0A)
    case Seek6 => Some(0x0B)
    case Inquiry => Some(0x12)
    case ModeSelect6 => Some(0x15)
    case Reserve6 => Some(0x16)
    case Release6 => Some(0x17)
    case ModeSense6 => Some(0x1A)
    case StartStopUnit => Some(0x1B)
    case SendDiagnostic => Some(0x1D)
    case PreventAllowMediumRemoval => Some(0x1E)
    case ReadCapacity10 => Some(0x25)
    case Read10 => Some(0x28)
    case Write10 => Some(0x2A)
    case Seek10 => Some(0x2B)
    case Verify10 => Some(0x2F)
    case SynchronizeCache10 => Some(0x35)
    case ReadDefectData10 => Some(0x37)
    case ModeSelect10 => Some(0x55)
    case Reserve10 => Some(0x56)
    case Release10 => Some(0x57)
    case ModeSense10 => Some(0x5A)
    case Read16 => Some(0x88)
    case Write16 => Some(0x8A)
    case Verify16 => Some(0x8F)
    case SynchronizeCache16 => Some(0x91)
    case ReadCapacity16 => Some(0x9E)
    case ReportLuns => Some(0xA0)
    case Seek => None
  }

  /** The display name a handler is registered under. */
  function NameOf(h: Handler): string {
    match h
    case TestUnitReady => "TestUnitReady"
    case Rezero => "Rezero"
    case RequestSense => "RequestSense"
    case FormatUnit => "FormatUnit"
    case ReassignBlocks => "ReassignBlocks"
    case Read6 => "Read6"
    case Write6 => "Write6"
    case Seek6 => "Seek6"
    case Inquiry => "Inquiry"
    case ModeSelect6 => "ModeSelect6"
    case Reserve6 => "Reserve6"
    case Release6 => "Release6"
    case ModeSense6 => "ModeSense6"
    case StartStopUnit => "StartStopUnit"
    case SendDiagnostic => "SendDiagnostic"
    case PreventAllowMediumRemoval => "PreventAllowMediumRemoval"
    case ReadCapacity10 => "ReadCapacity10"
    case Read10 => "Read10"
    case Write10 => "Write10"
    case Seek10 => "Seek10"
    case Verify10 => "Verify10"
    case SynchronizeCache10 => "SynchronizeCache10"
    case ReadDefectData10 => "ReadDefectData10"
    case ModeSelect10 => "ModeSelect10"
    case Reserve10 => "Reserve10"
    case Release10 => "Release10"
    case ModeSense10 => "ModeSense10"
    case Read16 => "Read16"
    case Write16 => "Write16"
    case Verify16 => "Verify16"
    case SynchronizeCache16 => "SynchronizeCache16"
    case ReadCapacity16 => "ReadCapacity16"
    case ReportLuns => "ReportLuns"
    case Seek => "Seek"
  }

  function Entry(h: Handler): CommandEntry {
    CommandEntry(NameOf(h), h)
  }

  /** The handler the SCSI standards assign to an operation code, if `Disk` implements it. */
  function HandlerAt(op: Opcode): (h: Option<Handler>)
    ensures h.Some? ==> h.value != Seek
  {
    match op
    case 0x00 => Some(TestUnitReady)
    case 0x01 => Some(Rezero)
    case 0x03 => Some(RequestSense)
    case 0x04 => Some(FormatUnit)
    case 0x07 => Some(ReassignBlocks)
    case 0x08 => Some(Read6)
    case 0x0A => Some(Write6)
    case 0x0B => Some(Seek6)
    case 0x12 => Some(Inquiry)
    case 0x15 => Some(ModeSelect6)
    case 0x16 => Some(Reserve6)
    case 0x17 => Some(Release6)
    case 0x1A => Some(ModeSense6)
    case 0x1B => Some(StartStopUnit)
    case 0x1D => Some(SendDiagnostic)
    case 0x1E => Some(PreventAllowMediumRemoval)
    case 0x25 => Some(ReadCapacity10)
    case 0x28 => Some(Read10)
    case 0x2A => Some(Write10)
    case 0x2B => Some(Seek10)
    case 0x2F => Some(Verify10)
    case 0x35 => Some(SynchronizeCache10)
    case 0x37 => Some(ReadDefectData10)
    case 0x55 => Some(ModeSelect10)
    case 0x56 => Some(Reserve10)
    case 0x57 => Some(Release10)
    case 0x5A => Some(ModeSense10)
    case 0x88 => Some(Read16)
    case 0x8A => Some(Write16)
    case 0x8F => Some(Verify16)
    case 0x91 => Some(SynchronizeCache16)
    case 0x9E => Some(ReadCapacity16)
    case 0xA0 => Some(ReportLuns)
    case _ => None
  }

  /** The table a newly constructed disk holds: every handler with a code, under that code. */
  function StandardTable(): (t: CommandTable)
    ensures forall op :: op in t <==> HandlerAt(op).Some?
  {
    map op: Opcode | HandlerAt(op).Some? :: Entry(HandlerAt(op).value)
  }

  /** The handlers a new disk registers, one `AddCommand` each: every handler but `Seek`. */
  const Registered: seq<Handler> := [
    TestUnitReady, Rezero, RequestSense, FormatUnit, ReassignBlocks, Read6, Write6, Seek6,
    Inquiry, ModeSelect6, Reserve6, Release6, ModeSense6, StartStopUnit, SendDiagnostic,
    PreventAllowMediumRemoval, ReadCapacity10, Read10, Write10, Seek10, Verify10,
    SynchronizeCache10, ReadDefectData10, ModeSelect10, Reserve10, Release10, ModeSense10,
    Read16, Write16, Verify16, SynchronizeCache16, ReadCapacity16, ReportLuns
  ]

  /** A code's handler is assigned that very code. */
  lemma OpcodeOfHandlerAt(op: Opcode)
    requires HandlerAt(op).Some?
    ensures OpcodeOf(HandlerAt(op).value) == Some(op)
  {
  }

  /** A handler with a code is the handler that code is assigned to. */
  lemma HandlerAtOpcodeOf(h: Handler)
    requires h != Seek
    ensures HandlerAt(OpcodeOf(h).value) == Some(h)
  {
  }

  /** Where a handler with a code stands in the registration list. */
  function RegistrationIndex(h: Handler): (i: nat)
    requires h != Seek
    ensures i < |Registered| && Registered[i] == h
  {
    match h
    case TestUnitReady => 0
    case Rezero => 1
    case RequestSense => 2
    case FormatUnit => 3
    case ReassignBlocks => 4
    case Read6 => 5
    case Write6 => 6
    case Seek6 => 7
    case Inquiry => 8
    case ModeSelect6 => 9
    case Reserve6 => 10
    case Release6 => 11
    case ModeSense6 => 12
    case StartStopUnit => 13
    case SendDiagnostic => 14
    case PreventAllowMediumRemoval => 15
    case ReadCapacity10 => 16
    case Read10 => 17
    case Write10 => 18
    case Seek10 => 19
    case Verify10 => 20
    case SynchronizeCache10 => 21
    case ReadDefectData10 => 22
    case ModeSelect10 => 23
    case Reserve10 => 24
    case Release10 => 25
    case ModeSense10 => 26
    case Read16 => 27
    case Write16 => 28
    case Verify16 => 29
    case SynchronizeCache16 => 30
    case ReadCapacity16 => 31
    case ReportLuns => 32
  }

  /** The registration list holds only handlers that have an operation code. */
  lemma RegisteredHaveCodes(i: nat)
    requires i < |Registered|
    ensures Registered[i] != Seek
  {
  }

  /** The table that registering the handlers `hs` produces. */
  function TableOf(hs: seq<Handler>): (t: CommandTable)
    ensures forall op :: op in t <==> HandlerAt(op).Some? && HandlerAt(op).value in hs
  {
    map op: Opcode | HandlerAt(op).Some? && HandlerAt(op).value in hs :: Entry(HandlerAt(op).value)
  }

  /** Registering one more handler adds exactly its own entry, under its own code. */
  lemma {:induction false} TableOfSnoc(hs: seq<Handler>, h: Handler)
    requires h != Seek
    ensures TableOf(hs + [h]) == TableOf(hs)[OpcodeOf(h).value := Entry(h)]
  {
    HandlerAtOpcodeOf(h);
    var code := OpcodeOf(h).value;
    forall op: Opcode | HandlerAt(op).Some?
      ensures HandlerAt(op).value == h <==> op == code
    {
      OpcodeOfHandlerAt(op);
    }
    var a, b := TableOf(hs + [h]), TableOf(hs)[code := Entry(h)];
    assert forall op :: op in a <==> op in b;
    forall op | op in a
      ensures a[op] == b[op]
    {
    }
  }

  /** Registering the handlers of a list one by one: the step from the first `i` to the first `i + 1`. */
  lemma {:induction false} TableOfPrefixStep(hs: seq<Handler>, i: nat)
    requires i < |hs| && hs[i] != Seek
    ensures TableOf(hs[..i + 1]) == TableOf(hs[..i])[OpcodeOf(hs[i]).value := Entry(hs[i])]
  {
    assert hs[..i + 1] == hs[..i] + [hs[i]];
    TableOfSnoc(hs[..i], hs[i]);
  }

  /** Registering every handler of the list yields the standard table. */
  lemma {:induction false} TableOfRegistered()
    ensures TableOf(Registered[..|Registered|]) == StandardTable()
  {
    assert Registered[..|Registered|] == Registered;
    forall op: Opcode | HandlerAt(op).Some?
      ensures HandlerAt(op).value in Registered
    {
      var i := RegistrationIndex(HandlerAt(op).value);
    }
    assert forall op :: op in TableOf(Registered) <==> op in StandardTable();
  }

  /** Every entry of the standard table sits under its handler's code and carries its handler's name. */
  lemma {:induction false} StandardTableSound(op: Opcode)
    requires op in StandardTable()
    ensures OpcodeOf(StandardTable()[op].execute) == Some(op)
    ensures StandardTable()[op].name == NameOf(StandardTable()[op].execute)
  {
    OpcodeOfHandlerAt(op);
  }

  /** Every handler that has a code is reachable through the standard table. */
  lemma {:induction false} StandardTableComplete(h: Handler)
    requires h != Seek
    ensures OpcodeOf(h).value in StandardTable()
    ensures Lookup(StandardTable(), OpcodeOf(h).value) == Some(h)
  {
    HandlerAtOpcodeOf(h);
  }

  /** No two handlers share an operation code, so each code dispatches to exactly one handler. */
  lemma {:induction false} OpcodesDistinct(h1: Handler, h2: Handler)
    requires OpcodeOf(h1).Some? && OpcodeOf(h1) == OpcodeOf(h2)
    ensures h1 == h2
  {
    StandardTableComplete(h1);
    StandardTableComplete(h2);
  }
}

/** The inverse of the opcode table: the byte that chapter 7 of the Java
    Virtual Machine Specification ("Opcode Mnemonics by Opcode") assigns to
    each mnemonic. The source has no such function; it is the partner that
    shows the table reaches every variant. The mnemonics are handled one
    heading of that chapter at a time. */
module Encoding {
  import opened Wrappers
  import opened Opcodes

  /** The mnemonics listed under "Constants". */
  predicate InConstants(op: Opcode)
  {
    op.Nop? || op.AConstNull? || op.IConstM1? || op.IConst0? || op.IConst1? ||
    op.IConst2? || op.IConst3? || op.IConst4? || op.IConst5? || op.LConst0? ||
    op.LConst1? || op.FConst0? || op.FConst1? || op.FConst2? || op.DConst0? ||
    op.DConst1? || op.BIPush? || op.SIPush? || op.Ldc? || op.LdcW? ||
    op.Ldc2W?
  }

  /** The bytes of the mnemonics listed under "Constants". */
  function ConstantByte(op: Opcode): (b: Byte)
    requires InConstants(op)
    ensures 0x00 <= b <= 0x14
    ensures Decode(b) == Ok(op)
  {
    match op
    case Nop => 0x00
    case AConstNull => 0x01
    case IConstM1 => 0x02
    case IConst0 => 0x03
    case IConst1 => 0x04
    case IConst2 => 0x05
    case IConst3 => 0x06
    case IConst4 => 0x07
    case IConst5 => 0x08
    case LConst0 => 0x09
    case LConst1 => 0x0a
    case FConst0 => 0x0b
    case FConst1 => 0x0c
    case FConst2 => 0x0d
    case DConst0 => 0x0e
    case DConst1 => 0x0f
    case BIPush => 0x10
    case SIPush => 0x11
    case Ldc => 0x12
    case LdcW => 0x13
    case Ldc2W => 0x14
  }

  /** The mnemonics listed under "Loads". */
  predicate InLoads(op: Opcode)
  {
    op.ILoad? || op.LLoad? || op.FLoad? || op.DLoad? || op.ALoad? ||
    op.ILoad0? || op.ILoad1? || op.ILoad2? || op.ILoad3? || op.LLoad0? ||
    op.LLoad1? || op.LLoad2? || op.LLoad3? || op.FLoad0? || op.FLoad1? ||
    op.FLoad2? || op.FLoad3? || op.DLoad0? || op.DLoad1? || op.DLoad2? ||
    op.DLoad3? || op.ALoad0? || op.ALoad1? || op.ALoad2? || op.ALoad3? ||
    op.IALoad? || op.LALoad? || op.FALoad? || op.DALoad? || op.AALoad? ||
    op.BALoad? || op.CALoad? || op.SALoad?
  }

  /** The bytes of the mnemonics listed under "Loads". */
  function LoadByte(op: Opcode): (b: Byte)
    requires InLoads(op)
    ensures 0x15 <= b <= 0x35
    ensures Decode(b) == Ok(op)
  {
    match op
    case ILoad => 0x15
    case LLoad => 0x16
    case FLoad => 0x17
    case DLoad => 0x18
    case ALoad => 0x19
    case ILoad0 => 0x1a
    case ILoad1 => 0x1b
    case ILoad2 => 0x1c
    case ILoad3 => 0x1d
    case LLoad0 => 0x1e
    case LLoad1 => 0x1f
    case LLoad2 => 0x20
    case LLoad3 => 0x21
    case FLoad0 => 0x22
    case FLoad1 => 0x23
    case FLoad2 => 0x24
    case FLoad3 => 0x25
    case DLoad0 => 0x26
    case DLoad1 => 0x27
    case DLoad2 => 0x28
    case DLoad3 => 0x29
    case ALoad0 => 0x2a
    case ALoad1 => 0x2b
    case ALoad2 => 0x2c
    case ALoad3 => 0x2d
    case IALoad => 0x2e
    case LALoad => 0x2f
    case FALoad => 0x30
    case DALoad => 0x31
    case AALoad => 0x32
    case BALoad => 0x33
    case CALoad => 0x34
    case SALoad => 0x35
  }

  /** The mnemonics listed under "Stores". */
  predicate InStores(op: Opcode)
  {
    op.IStore? || op.LStore? || op.FStore? || op.DStore? || op.AStore? ||
    op.IStore0? || op.IStore1? || op.IStore2? || op.IStore3? || op.LStore0? ||
    op.LStore1? || op.LStore2? || op.LStore3? || op.FStore0? || op.FStore1? ||
    op.FStore2? || op.FStore3? || op.DStore0? || op.DStore1? || op.DStore2? ||
    op.DStore3? || op.AStore0? || op.AStore1? || op.AStore2? || op.AStore3? ||
    op.IAStore? || op.LAStore? || op.FAStore? || op.DAStore? || op.AAStore? ||
    op.BAStore? || op.CAStore? || op.SAStore?
  }

  /** The bytes of the mnemonics listed under "Stores". */
  function StoreByte(op: Opcode): (b: Byte)
    requires InStores(op)
    ensures 0x36 <= b <= 0x56
    ensures Decode(b) == Ok(op)
  {
    match op
    case IStore => 0x36
    case LStore => 0x37
    case FStore => 0x38
    case DStore => 0x39
    case AStore => 0x3a
    case IStore0 => 0x3b
    case IStore1 => 0x3c
    case IStore2 => 0x3d
    case IStore3 => 0x3e
    case LStore0 => 0x3f
    case LStore1 => 0x40
    case LStore2 => 0x41
    case LStore3 => 0x42
    case FStore0 => 0x43
    case FStore1 => 0x44
    case FStore2 => 0x45
    case FStore3 => 0x46
    case DStore0 => 0x47
    case DStore1 => 0x48
    case DStore2 => 0x49
    case DStore3 => 0x4a
    case AStore0 => 0x4b
    case AStore1 => 0x4c
    case AStore2 => 0x4d
    case AStore3 => 0x4e
    case IAStore => 0x4f
    case LAStore => 0x50
    case FAStore => 0x51
    case DAStore => 0x52
    case AAStore => 0x53
    case BAStore => 0x54
    case CAStore => 0x55
    case SAStore => 0x56
  }

  /** The mnemonics listed under "Stack". */
  predicate InStack(op: Opcode)
  {
    op.Pop? || op.Pop2? || op.Dup? || op.DupX1? || op.DupX2? || op.Dup2? ||
    op.Dup2X1? || op.Dup2X2? || op.Swap?
  }

  /** The bytes of the mnemonics listed under "Stack". */
  function StackByte(op: Opcode): (b: Byte)
    requires InStack(op)
    ensures 0x57 <= b <= 0x5f
    ensures Decode(b) == Ok(op)
  {
    match op
    case Pop => 0x57
    case Pop2 => 0x58
    case Dup => 0x59
    case DupX1 => 0x5a
    case DupX2 => 0x5b
    case Dup2 => 0x5c
    case Dup2X1 => 0x5d
    case Dup2X2 => 0x5e
    case Swap => 0x5f
  }

  /** The mnemonics listed under "Math". */
  predicate InMath(op: Opcode)
  {
    op.IAdd? || op.LAdd? || op.FAdd? || op.DAdd? || op.ISub? || op.LSub? ||
    op.FSub? || op.DSub? || op.IMul? || op.LMul? || op.FMul? || op.DMul? ||
    op.IDiv? || op.LDiv? || op.FDiv? || op.DDiv? || op.IRem? || op.LRem? ||
    op.FRem? || op.DRem? || op.INeg? || op.LNeg? || op.FNeg? || op.DNeg? ||
    op.IShl? || op.LShl? || op.IShr? || op.LShr? || op.IUShr? || op.LUShr? ||
    op.IAnd? || op.LAnd? || op.IOr? || op.LOr? || op.IXor? || op.LXor? ||
    op.IInc?
  }

  /** The bytes of the mnemonics listed under "Math". */
  function MathByte(op: Opcode): (b: Byte)
    requires InMath(op)
    ensures 0x60 <= b <= 0x84
    ensures Decode(b) == Ok(op)
  {
    match op
    case IAdd => 0x60
    case LAdd => 0x61
    case FAdd => 0x62
    case DAdd => 0x63
    case ISub => 0x64
    case LSub => 0x65
    case FSub => 0x66
    case DSub => 0x67
    case IMul => 0x68
    case LMul => 0x69
    case FMul => 0x6a
    case DMul => 0x6b
    case IDiv => 0x6c
    case LDiv => 0x6d
    case FDiv => 0x6e
    case DDiv => 0x6f
    case IRem => 0x70
    case LRem => 0x71
    case FRem => 0x72
    case DRem => 0x73
    case INeg => 0x74
    case LNeg => 0x75
    case FNeg => 0x76
    case DNeg => 0x77
    case IShl => 0x78
    case LShl => 0x79
    case IShr => 0x7a
    case LShr => 0x7b
    case IUShr => 0x7c
    case LUShr => 0x7d
    case IAnd => 0x7e
    case LAnd => 0x7f
    case IOr => 0x80
    case LOr => 0x81
    case IXor => 0x82
    case LXor => 0x83
    case IInc => 0x84
  }

  /** The mnemonics listed under "Conversions". */
  predicate InConversions(op: Opcode)
  {
    op.I2l? || op.I2f? || op.I2d? || op.L2i? || op.L2f? || op.L2d? ||
    op.F2i? || op.F2l? || op.F2d? || op.D2i? || op.D2l? || op.D2f? ||
    op.I2b? || op.I2c? || op.I2s?
  }

  /** The bytes of the mnemonics listed under "Conversions". */
  function ConversionByte(op: Opcode): (b: Byte)
    requires InConversions(op)
    ensures 0x85 <= b <= 0x93
    ensures Decode(b) == Ok(op)
  {
    match op
    case I2l => 0x85
    case I2f => 0x86
    case I2d => 0x87
    case L2i => 0x88
    case L2f => 0x89
    case L2d => 0x8a
    case F2i => 0x8b
    case F2l => 0x8c
    case F2d => 0x8d
    case D2i => 0x8e
    case D2l => 0x8f
    case D2f => 0x90
    case I2b => 0x91
    case I2c => 0x92
    case I2s => 0x93
  }

  /** The mnemonics listed under "Comparisons". */
  predicate InComparisons(op: Opcode)
  {
    op.LCmp? || op.FCmpL? || op.FCmpG? || op.DCmpL? || op.DCmpG? ||
    op.IfEq? || op.IfNe? || op.IfLt? || op.IfGe? || op.IfGt? || op.IfLe? ||
    op.IfICmpEq? || op.IfICmpNe? || op.IfICmpLt? || op.IfICmpGe? ||
    op.IfICmpGt? || op.IfICmpLe? || op.IfACmpEq? || op.IfACmpNe?
  }

  /** The bytes of the mnemonics listed under "Comparisons". */
  function ComparisonByte(op: Opcode): (b: Byte)
    requires InComparisons(op)
    ensures 0x94 <= b <= 0xa6
    ensures Decode(b) == Ok(op)
  {
    match op
    case LCmp => 0x94
    case FCmpL => 0x95
    case FCmpG => 0x96
    case DCmpL => 0x97
    case DCmpG => 0x98
    case IfEq => 0x99
    case IfNe => 0x9a
    case IfLt => 0x9b
    case IfGe => 0x9c
    case IfGt => 0x9d
    case IfLe => 0x9e
    case IfICmpEq => 0x9f
    case IfICmpNe => 0xa0
    case IfICmpLt => 0xa1
    case IfICmpGe => 0xa2
    case IfICmpGt => 0xa3
    case IfICmpLe => 0xa4
    case IfACmpEq => 0xa5
    case IfACmpNe => 0xa6
  }

  /** The mnemonics listed under "Control". */
  predicate InControl(op: Opcode)
  {
    op.Goto? || op.Jsr? || op.Ret? || op.TableSwitch? || op.LookupSwitch? ||
    op.IReturn? || op.LReturn? || op.FReturn? || op.DReturn? || op.AReturn? ||
    op.Return?
  }

  /** The bytes of the mnemonics listed under "Control". */
  function ControlByte(op: Opcode): (b: Byte)
    requires InControl(op)
    ensures 0xa7 <= b <= 0xb1
    ensures Decode(b) == Ok(op)
  {
    match op
    case Goto => 0xa7
    case Jsr => 0xa8
    case Ret => 0xa9
    case TableSwitch => 0xaa
    case LookupSwitch => 0xab
    case IReturn => 0xac
    case LReturn => 0xad
    case FReturn => 0xae
    case DReturn => 0xaf
    case AReturn => 0xb0
    case Return => 0xb1
  }

  /** The mnemonics listed under "References". */
  predicate InReferences(op: Opcode)
  {
    op.GetStatic? || op.PutStatic? || op.GetField? || op.PutField? ||
    op.InvokeVirtual? || op.InvokeSpecial? || op.InvokeStatic? ||
    op.InvokeInterface? || op.InvokeDynamic? || op.New? || op.NewArray? ||
    op.ANewArray? || op.ArrayLength? || op.AThrow? || op.CheckCast? ||
    op.InstanceOf? || op.MonitorEnter? || op.MonitorExit?
  }

  /** The bytes of the mnemonics listed under "References". */
  function ReferenceByte(op: Opcode): (b: Byte)
    requires InReferences(op)
    ensures 0xb2 <= b <= 0xc3
    ensures Decode(b) == Ok(op)
  {
    match op
    case GetStatic => 0xb2
    case PutStatic => 0xb3
    case GetField => 0xb4
    case PutField => 0xb5
    case InvokeVirtual => 0xb6
    case InvokeSpecial => 0xb7
    case InvokeStatic => 0xb8
    case InvokeInterface => 0xb9
    case InvokeDynamic => 0xba
    case New => 0xbb
    case NewArray => 0xbc
    case ANewArray => 0xbd
    case ArrayLength => 0xbe
    case AThrow => 0xbf
    case CheckCast => 0xc0
    case InstanceOf => 0xc1
    case MonitorEnter => 0xc2
    case MonitorExit => 0xc3
  }

  /** The mnemonics listed under "Extended". */
  predicate InExtended(op: Opcode)
  {
    op.Wide? || op.MultiANewArray? || op.IfNull? || op.IfNonNull? ||
    op.GotoW? || op.JsrW?
  }

  /** The bytes of the mnemonics listed under "Extended". */
  function ExtendedByte(op: Opcode): (b: Byte)
    requires InExtended(op)
    ensures 0xc4 <= b <= 0xc9
    ensures Decode(b) == Ok(op)
  {
    match op
    case Wide => 0xc4
    case MultiANewArray => 0xc5
    case IfNull => 0xc6
    case IfNonNull => 0xc7
    case GotoW => 0xc8
    case JsrW => 0xc9
  }

  /** The mnemonics listed under "Reserved". */
  predicate InReserved(op: Opcode)
  {
    op.Breakpoint? || op.ImpDep1? || op.ImpDep2?
  }

  /** The bytes of the mnemonics listed under "Reserved". */
  function ReservedByte(op: Opcode): (b: Byte)
    requires InReserved(op)
    ensures b == 0xca || b == 0xfe || b == 0xff
    ensures Decode(b) == Ok(op)
  {
    match op
    case Breakpoint => 0xca
    case ImpDep1 => 0xfe
    case ImpDep2 => 0xff
  }

  /** The opcode byte of `op`, which the table decodes back to `op`. */
  function ByteOf(op: Opcode): (b: Byte)
    ensures Decode(b) == Ok(op)
  {
    if InConstants(op) then
      ConstantByte(op)
    else if InLoads(op) then
      LoadByte(op)
    else if InStores(op) then
      StoreByte(op)
    else if InStack(op) then
      StackByte(op)
    else if InMath(op) then
      MathByte(op)
    else if InConversions(op) then
      ConversionByte(op)
    else if InComparisons(op) then
      ComparisonByte(op)
    else if InControl(op) then
      ControlByte(op)
    else if InReferences(op) then
      ReferenceByte(op)
    else if InExtended(op) then
      ExtendedByte(op)
    else
      ReservedByte(op)
  }
}

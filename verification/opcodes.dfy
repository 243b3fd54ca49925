/** The JVM opcode catalog of `jvm/src/opcodes.rs`: the `Opcode` enum, the
    `Error` enum, the byte-to-opcode table (`TryFrom<u8> for Opcode`) and the
    operand-size stub `Opcode::parameter_size`. */
module Opcodes {
  import opened Wrappers

  /** An unsigned 8-bit value, Rust's `u8`. */
  type Byte = b: int | 0 <= b < 256

  /** The one failure of the table: a byte that names no opcode. */
  datatype Error = UnknownOpcode(byte: Byte)

  /** One constructor per mnemonic of chapter 7 of the Java Virtual Machine
      Specification, in the order the source declares them. */
  datatype Opcode =
    AALoad
    | AAStore
    | AConstNull
    | ALoad
    | ALoad0 | ALoad1 | ALoad2 | ALoad3
    | ANewArray
    | AReturn
    | ArrayLength
    | AStore
    | AStore0 | AStore1 | AStore2 | AStore3
    | AThrow
    | BALoad
    | BAStore
    | BIPush
    | Breakpoint
    | CALoad
    | CAStore
    | CheckCast
    | D2f
    | D2i
    | D2l
    | DAdd
    | DALoad
    | DAStore
    | DCmpG
    | DCmpL
    | DConst0
    | DConst1
    | DDiv
    | DLoad
    | DLoad0 | DLoad1 | DLoad2 | DLoad3
    | DMul
    | DNeg
    | DRem
    | DReturn
    | DStore
    | DStore0 | DStore1 | DStore2 | DStore3
    | DSub
    | Dup
    | DupX1
    | DupX2
    | Dup2
    | Dup2X1
    | Dup2X2
    | F2d
    | F2i
    | F2l
    | FAdd
    | FALoad
    | FAStore
    | FCmpG
    | FCmpL
    | FConst0
    | FConst1
    | FConst2
    | FDiv
    | FLoad
    | FLoad0 | FLoad1 | FLoad2 | FLoad3
    | FMul
    | FNeg
    | FRem
    | FReturn
    | FStore
    | FStore0 | FStore1 | FStore2 | FStore3
    | FSub
    | GetField
    | GetStatic
    | Goto
    | GotoW
    | I2b
    | I2c
    | I2d
    | I2f
    | I2l
    | I2s
    | IAdd
    | IALoad
    | IAnd
    | IAStore
    | IConstM1 | IConst0 | IConst1 | IConst2 | IConst3 | IConst4 | IConst5
    | IDiv
    | IfACmpEq | IfACmpNe
    | IfICmpEq | IfICmpGe | IfICmpGt | IfICmpLe | IfICmpLt | IfICmpNe
    | IfEq | IfGe | IfGt | IfLe | IfLt | IfNe
    | IfNonNull | IfNull
    | IInc
    | ILoad
    | ILoad0 | ILoad1 | ILoad2 | ILoad3
    | ImpDep1 | ImpDep2
    | IMul
    | INeg
    | InstanceOf
    | InvokeDynamic
    | InvokeInterface
    | InvokeSpecial
    | InvokeStatic
    | InvokeVirtual
    | IOr
    | IRem
    | IReturn
    | IShl
    | IShr
    | IStore
    | IStore0 | IStore1 | IStore2 | IStore3
    | ISub
    | IUShr
    | IXor
    | Jsr
    | JsrW
    | L2d
    | L2f
    | L2i
    | LAdd
    | LALoad
    | LAnd
    | LAStore
    | LCmp
    | LConst0 | LConst1
    | Ldc
    | LdcW
    | Ldc2W
    | LDiv
    | LLoad
    | LLoad0 | LLoad1 | LLoad2 | LLoad3
    | LMul
    | LNeg
    | LookupSwitch
    | LOr
    | LRem
    | LReturn
    | LShl
    | LShr
    | LStore
    | LStore0 | LStore1 | LStore2 | LStore3
    | LSub
    | LUShr
    | LXor
    | MonitorEnter
    | MonitorExit
    | MultiANewArray
    | New
    | NewArray
    | Nop
    | Pop
    | Pop2
    | PutField
    | PutStatic
    | Ret
    | Return
    | SALoad
    | SAStore
    | SIPush
    | Swap
    | TableSwitch
    | Wide

  /** `TryFrom<u8> for Opcode`: the byte names an opcode, or the call fails
      with `UnknownOpcode` carrying that byte. The arms are exactly those of
      the source's single `match`, listed by byte value sixteen to a row; the
      wildcard closing each row is the source's catch-all arm. */
  function Decode(b: Byte): (r: Result<Opcode, Error>)
  {
    if b < 0x10 then
      match b
      case 0x00 => Ok(Nop)
      case 0x01 => Ok(AConstNull)
      case 0x02 => Ok(IConstM1)
      case 0x03 => Ok(IConst0)
      case 0x04 => Ok(IConst1)
      case 0x05 => Ok(IConst2)
      case 0x06 => Ok(IConst3)
      case 0x07 => Ok(IConst4)
      case 0x08 => Ok(IConst5)
      case 0x09 => Ok(LConst0)
      case 0x0a => Ok(LConst1)
      case 0x0b => Ok(FConst0)
      case 0x0c => Ok(FConst1)
      case 0x0d => Ok(FConst2)
      case 0x0e => Ok(DConst0)
      case 0x0f => Ok(DConst1)
      case _ => Err(UnknownOpcode(b))
    else if b < 0x20 then
      match b
      case 0x10 => Ok(BIPush)
      case 0x11 => Ok(SIPush)
      case 0x12 => Ok(Ldc)
      case 0x13 => Ok(LdcW)
      case 0x14 => Ok(Ldc2W)
      case 0x15 => Ok(ILoad)
      case 0x16 => Ok(LLoad)
      case 0x17 => Ok(FLoad)
      case 0x18 => Ok(DLoad)
      case 0x19 => Ok(ALoad)
      case 0x1a => Ok(ILoad0)
      case 0x1b => Ok(ILoad1)
      case 0x1c => Ok(ILoad2)
      case 0x1d => Ok(ILoad3)
      case 0x1e => Ok(LLoad0)
      case 0x1f => Ok(LLoad1)
      case _ => Err(UnknownOpcode(b))
    else if b < 0x30 then
      match b
      case 0x20 => Ok(LLoad2)
      case 0x21 => Ok(LLoad3)
      case 0x22 => Ok(FLoad0)
      case 0x23 => Ok(FLoad1)
      case 0x24 => Ok(FLoad2)
      case 0x25 => Ok(FLoad3)
      case 0x26 => Ok(DLoad0)
      case 0x27 => Ok(DLoad1)
      case 0x28 => Ok(DLoad2)
      case 0x29 => Ok(DLoad3)
      case 0x2a => Ok(ALoad0)
      case 0x2b => Ok(ALoad1)
      case 0x2c => Ok(ALoad2)
      case 0x2d => Ok(ALoad3)
      case 0x2e => Ok(IALoad)
      case 0x2f => Ok(LALoad)
      case _ => Err(UnknownOpcode(b))
    else if b < 0x40 then
      match b
      case 0x30 => Ok(FALoad)
      case 0x31 => Ok(DALoad)
      case 0x32 => Ok(AALoad)
      case 0x33 => Ok(BALoad)
      case 0x34 => Ok(CALoad)
      case 0x35 => Ok(SALoad)
      case 0x36 => Ok(IStore)
      case 0x37 => Ok(LStore)
      case 0x38 => Ok(FStore)
      case 0x39 => Ok(DStore)
      case 0x3a => Ok(AStore)
      case 0x3b => Ok(IStore0)
      case 0x3c => Ok(IStore1)
      case 0x3d => Ok(IStore2)
      case 0x3e => Ok(IStore3)
      case 0x3f => Ok(LStore0)
      case _ => Err(UnknownOpcode(b))
    else if b < 0x50 then
      match b
      case 0x40 => Ok(LStore1)
      case 0x41 => Ok(LStore2)
      case 0x42 => Ok(LStore3)
      case 0x43 => Ok(FStore0)
      case 0x44 => Ok(FStore1)
      case 0x45 => Ok(FStore2)
      case 0x46 => Ok(FStore3)
      case 0x47 => Ok(DStore0)
      case 0x48 => Ok(DStore1)
      case 0x49 => Ok(DStore2)
      case 0x4a => Ok(DStore3)
      case 0x4b => Ok(AStore0)
      case 0x4c => Ok(AStore1)
      case 0x4d => Ok(AStore2)
      case 0x4e => Ok(AStore3)
      case 0x4f => Ok(IAStore)
      case _ => Err(UnknownOpcode(b))
    else if b < 0x60 then
      match b
      case 0x50 => Ok(LAStore)
      case 0x51 => Ok(FAStore)
      case 0x52 => Ok(DAStore)
      case 0x53 => Ok(AAStore)
      case 0x54 => Ok(BAStore)
      case 0x55 => Ok(CAStore)
      case 0x56 => Ok(SAStore)
      case 0x57 => Ok(Pop)
      case 0x58 => Ok(Pop2)
      case 0x59 => Ok(Dup)
      case 0x5a => Ok(DupX1)
      case 0x5b => Ok(DupX2)
      case 0x5c => Ok(Dup2)
      case 0x5d => Ok(Dup2X1)
      case 0x5e => Ok(Dup2X2)
      case 0x5f => Ok(Swap)
      case _ => Err(UnknownOpcode(b))
    else if b < 0x70 then
      match b
      case 0x60 => Ok(IAdd)
      case 0x61 => Ok(LAdd)
      case 0x62 => Ok(FAdd)
      case 0x63 => Ok(DAdd)
      case 0x64 => Ok(ISub)
      case 0x65 => Ok(LSub)
      case 0x66 => Ok(FSub)
      case 0x67 => Ok(DSub)
      case 0x68 => Ok(IMul)
      case 0x69 => Ok(LMul)
      case 0x6a => Ok(FMul)
      case 0x6b => Ok(DMul)
      case 0x6c => Ok(IDiv)
      case 0x6d => Ok(LDiv)
      case 0x6e => Ok(FDiv)
      case 0x6f => Ok(DDiv)
      case _ => Err(UnknownOpcode(b))
    else if b < 0x80 then
      match b
      case 0x70 => Ok(IRem)
      case 0x71 => Ok(LRem)
      case 0x72 => Ok(FRem)
      case 0x73 => Ok(DRem)
      case 0x74 => Ok(INeg)
      case 0x75 => Ok(LNeg)
      case 0x76 => Ok(FNeg)
      case 0x77 => Ok(DNeg)
      case 0x78 => Ok(IShl)
      case 0x79 => Ok(LShl)
      case 0x7a => Ok(IShr)
      case 0x7b => Ok(LShr)
      case 0x7c => Ok(IUShr)
      case 0x7d => Ok(LUShr)
      case 0x7e => Ok(IAnd)
      case 0x7f => Ok(LAnd)
      case _ => Err(UnknownOpcode(b))
    else if b < 0x90 then
      match b
      case 0x80 => Ok(IOr)
      case 0x81 => Ok(LOr)
      case 0x82 => Ok(IXor)
      case 0x83 => Ok(LXor)
      case 0x84 => Ok(IInc)
      case 0x85 => Ok(I2l)
      case 0x86 => Ok(I2f)
      case 0x87 => Ok(I2d)
      case 0x88 => Ok(L2i)
      case 0x89 => Ok(L2f)
      case 0x8a => Ok(L2d)
      case 0x8b => Ok(F2i)
      case 0x8c => Ok(F2l)
      case 0x8d => Ok(F2d)
      case 0x8e => Ok(D2i)
      case 0x8f => Ok(D2l)
      case _ => Err(UnknownOpcode(b))
    else if b < 0xa0 then
      match b
      case 0x90 => Ok(D2f)
      case 0x91 => Ok(I2b)
      case 0x92 => Ok(I2c)
      case 0x93 => Ok(I2s)
      case 0x94 => Ok(LCmp)
      case 0x95 => Ok(FCmpL)
      case 0x96 => Ok(FCmpG)
      case 0x97 => Ok(DCmpL)
      case 0x98 => Ok(DCmpG)
      case 0x99 => Ok(IfEq)
      case 0x9a => Ok(IfNe)
      case 0x9b => Ok(IfLt)
      case 0x9c => Ok(IfGe)
      case 0x9d => Ok(IfGt)
      case 0x9e => Ok(IfLe)
      case 0x9f => Ok(IfICmpEq)
      case _ => Err(UnknownOpcode(b))
    else if b < 0xb0 then
      match b
      case 0xa0 => Ok(IfICmpNe)
      case 0xa1 => Ok(IfICmpLt)
      case 0xa2 => Ok(IfICmpGe)
      case 0xa3 => Ok(IfICmpGt)
      case 0xa4 => Ok(IfICmpLe)
      case 0xa5 => Ok(IfACmpEq)
      case 0xa6 => Ok(IfACmpNe)
      case 0xa7 => Ok(Goto)
      case 0xa8 => Ok(Jsr)
      case 0xa9 => Ok(Ret)
      case 0xaa => Ok(TableSwitch)
      case 0xab => Ok(LookupSwitch)
      case 0xac => Ok(IReturn)
      case 0xad => Ok(LReturn)
      case 0xae => Ok(FReturn)
      case 0xaf => Ok(DReturn)
      case _ => Err(UnknownOpcode(b))
    else if b < 0xc0 then
      match b
      case 0xb0 => Ok(AReturn)
      case 0xb1 => Ok(Return)
      case 0xb2 => Ok(GetStatic)
      case 0xb3 => Ok(PutStatic)
      case 0xb4 => Ok(GetField)
      case 0xb5 => Ok(PutField)
      case 0xb6 => Ok(InvokeVirtual)
      case 0xb7 => Ok(InvokeSpecial)
      case 0xb8 => Ok(InvokeStatic)
      case 0xb9 => Ok(InvokeInterface)
      case 0xba => Ok(InvokeDynamic)
      case 0xbb => Ok(New)
      case 0xbc => Ok(NewArray)
      case 0xbd => Ok(ANewArray)
      case 0xbe => Ok(ArrayLength)
      case 0xbf => Ok(AThrow)
      case _ => Err(UnknownOpcode(b))
    else if b < 0xd0 then
      match b
      case 0xc0 => Ok(CheckCast)
      case 0xc1 => Ok(InstanceOf)
      case 0xc2 => Ok(MonitorEnter)
      case 0xc3 => Ok(MonitorExit)
      case 0xc4 => Ok(Wide)
      case 0xc5 => Ok(MultiANewArray)
      case 0xc6 => Ok(IfNull)
      case 0xc7 => Ok(IfNonNull)
      case 0xc8 => Ok(GotoW)
      case 0xc9 => Ok(JsrW)
      case 0xca => Ok(Breakpoint)
      case _ => Err(UnknownOpcode(b))
    else
      match b
      case 0xfe => Ok(ImpDep1)
      case 0xff => Ok(ImpDep2)
      case _ => Err(UnknownOpcode(b))
  }

  /** A byte is accepted exactly when it lies outside 0xcb..=0xfd, and a
      rejected byte is reported with `UnknownOpcode` holding that very byte. */
  lemma DecodeAccepts(b: Byte)
    ensures Decode(b).Ok? <==> !(0xcb <= b <= 0xfd)
    ensures Decode(b).Err? ==> Decode(b).error == UnknownOpcode(b)
  {
  }

  /** The opcodes `parameter_size` handles; every other opcode reaches its
      `todo!()` arm and panics. */
  predicate ParameterSizeDefined(op: Opcode)
  {
    op in {IConst0, IConst1, IConst2, IConst3, IConst4, IAdd}
  }

  /** `Opcode::parameter_size`: the number of operand bytes that follow the
      opcode byte, defined only for the handled opcodes, all of which take no
      operands. */
  function ParameterSize(op: Opcode): (n: nat)
    requires ParameterSizeDefined(op)
    ensures n == 0
  {
    match op
    case IConst0 => 0
    case IConst1 => 0
    case IConst2 => 0
    case IConst3 => 0
    case IConst4 => 0
    case IAdd => 0
  }
}

/** The operand sizes that chapter 6 of the Java Virtual Machine Specification
    gives in each instruction's "Format" paragraph, used as the reference for
    `Opcode::parameter_size`. */
module Operands {
  import opened Wrappers
  import opened Opcodes

  /** The number of operand bytes that follow the opcode byte, or `None` when
      the count is not fixed: `tableswitch` and `lookupswitch` are padded to a
      four-byte boundary and carry a variable-length table, `wide` takes the
      operands of the instruction it modifies, and the reserved opcodes have
      no format at all. */
  function OperandBytes(op: Opcode): Option<nat>
  {
    match op
    case BIPush => Some(1)
    case SIPush => Some(2)
    case Ldc => Some(1)
    case LdcW => Some(2)
    case Ldc2W => Some(2)
    case ILoad => Some(1)
    case LLoad => Some(1)
    case FLoad => Some(1)
    case DLoad => Some(1)
    case ALoad => Some(1)
    case IStore => Some(1)
    case LStore => Some(1)
    case FStore => Some(1)
    case DStore => Some(1)
    case AStore => Some(1)
    case IInc => Some(2)
    case IfEq => Some(2)
    case IfNe => Some(2)
    case IfLt => Some(2)
    case IfGe => Some(2)
    case IfGt => Some(2)
    case IfLe => Some(2)
    case IfICmpEq => Some(2)
    case IfICmpNe => Some(2)
    case IfICmpLt => Some(2)
    case IfICmpGe => Some(2)
    case IfICmpGt => Some(2)
    case IfICmpLe => Some(2)
    case IfACmpEq => Some(2)
    case IfACmpNe => Some(2)
    case Goto => Some(2)
    case Jsr => Some(2)
    case Ret => Some(1)
    case TableSwitch => None
    case LookupSwitch => None
    case GetStatic => Some(2)
    case PutStatic => Some(2)
    case GetField => Some(2)
    case PutField => Some(2)
    case InvokeVirtual => Some(2)
    case InvokeSpecial => Some(2)
    case InvokeStatic => Some(2)
    case InvokeInterface => Some(4)
    case InvokeDynamic => Some(4)
    case New => Some(2)
    case NewArray => Some(1)
    case ANewArray => Some(2)
    case CheckCast => Some(2)
    case InstanceOf => Some(2)
    case Wide => None
    case MultiANewArray => Some(3)
    case IfNull => Some(2)
    case IfNonNull => Some(2)
    case GotoW => Some(4)
    case JsrW => Some(4)
    case Breakpoint => None
    case ImpDep1 => None
    case ImpDep2 => None
    case _ => Some(0)
  }

  /** Where `parameter_size` answers at all, it answers what the
      specification's instruction format says. */
  lemma ParameterSizeAgrees(op: Opcode)
    requires ParameterSizeDefined(op)
    ensures OperandBytes(op) == Some(ParameterSize(op))
  {
  }

  /** `iconst_m1` and `iconst_5` take no operands, like `iconst_0` through
      `iconst_4`, but lie outside the opcodes `parameter_size` handles. */
  lemma ParameterSizeMissesOperandless()
    ensures OperandBytes(IConstM1) == Some(0) && !ParameterSizeDefined(IConstM1)
    ensures OperandBytes(IConst5) == Some(0) && !ParameterSizeDefined(IConst5)
  {
  }
}

# JVM opcode catalog

A Dafny model of `jvm/src/opcodes.rs` from jvm.rs, a Java class-file reader
written in Rust. The file holds four things:

- the `Opcode` enum, with one variant per mnemonic of chapter 7 of The Java
  Virtual Machine Specification;
- the `Error` enum, whose one variant `UnknownOpcode(u8)` reports a byte that
  names no opcode;
- `TryFrom<u8> for Opcode`, the byte-to-opcode table;
- `Opcode::parameter_size`, an operand-size stub that answers for six
  opcodes and reaches `todo!()` for every other one.

The model keeps all four as datatypes and pure functions (`opcodes.dfy`).
It then proves what the table promises:

- Bytes 0x00..=0xca, 0xfe and 0xff are accepted.
- Bytes 0xcb..=0xfd are rejected with `UnknownOpcode` holding the very byte
  that was passed in.
- No two bytes name the same opcode.
- Every one of the 205 variants is named by some byte.

That last fact is shown with `ByteOf`, the byte that chapter 7 of the Java
Virtual Machine Specification assigns to each mnemonic. `ByteOf` is the
table's inverse in both directions. The source has no opcode-to-byte
function; `ByteOf` is a reference definition that serves as the partner of
the table.

Further lemmas cover the layout of the table:

- the reserved opcodes sit at 0xca, 0xfe and 0xff;
- the numbered short forms (`iconst_<i>`, `<t>load_<n>`, `<t>store_<n>`)
  occupy runs of consecutive bytes;
- the domain of `parameter_size` is exactly the bytes 0x03..=0x07 and 0x60.

`parameter_size` is also compared with the operand sizes that chapter 6 of
the Java Virtual Machine Specification gives in each instruction's format.

Files:

- `wrappers.dfy`: `Result` and `Option`.
- `opcodes.dfy`: the model: `Byte` (Rust's `u8`), `Error`, `Opcode`,
  `Decode` (`try_from`), `ParameterSizeDefined` and `ParameterSize`.
- `encoding.dfy`: `ByteOf`, the inverse table, one heading of chapter 7 at a
  time.
- `distinctness.dfy`: no two bytes decode to the same opcode.
- `counting.dfy`: generic cardinality lemmas.
- `bijection.dfy`: inverse laws and counts.
- `layout.dfy`: reserved opcodes, numbered runs, and the domain of
  `parameter_size` in bytes.
- `operands.dfy`: the chapter 6 operand sizes, and how `parameter_size`
  relates to them.

`Decode` lists the arms of the source's single `match` by byte value, sixteen
to a row. Each row ends in the source's catch-all arm. The byte-to-opcode
pairs and the catch-all are exactly those of the source.

## Model

| member | source | states |
|---|---|---|
| Opcodes.Decode | jvm/src/opcodes.rs:183-391 | `TryFrom<u8>::try_from`: its arms are the source's 205 byte-to-opcode pairs plus the catch-all `UnknownOpcode(value)`. It carries no contract of its own; its properties are stated by `Opcodes.DecodeAccepts` (which bytes are accepted, and the error), `Encoding.ByteOf` (every variant is reached) and `Distinctness.DecodeInjective` (no two bytes alike). |
| Opcodes.DecodeAccepts | jvm/src/opcodes.rs:183-391 | A byte is accepted exactly when it is not in 0xcb..=0xfd. A rejected byte comes back as `UnknownOpcode` carrying that same byte, and this is the only error. |
| Opcodes.ParameterSize | jvm/src/opcodes.rs:167-177 | Defined only for `IConst0`..`IConst4` and `IAdd` (every other opcode reaches `todo!()`). On those it returns 0 operand bytes. |
| Encoding.ByteOf | jvm/src/opcodes.rs:184-389 | Every variant is decoded from its own byte: `Decode(ByteOf(op)) == Ok(op)`. So no variant of the enum is unreachable from the table. |
| Distinctness.DecodeDistinct | jvm/src/opcodes.rs:184-390 | Two different bytes never decode to the same opcode. |
| Distinctness.DecodeInjective | jvm/src/opcodes.rs:184-390 | Any two bytes that decode alike are the same byte, whether accepted (the opcode names one byte) or rejected (`UnknownOpcode` carries the byte). |
| Bijection.ByteOfDecode | jvm/src/opcodes.rs:184-389 | `ByteOf` undoes the table on every accepted byte. |
| Bijection.DecodesTo | jvm/src/opcodes.rs:184-389 | A byte decodes to `op` if and only if it is `ByteOf(op)`, so each opcode has exactly one byte. |
| Bijection.AcceptedCount | jvm/src/opcodes.rs:184-390 | Exactly 205 of the 256 bytes are accepted and 51 are rejected. |
| Bijection.OpcodeCount | jvm/src/opcodes.rs:8-164 | The accepted bytes name 205 distinct opcodes, and every variant of the enum is among them. |
| Layout.ReservedBytes | jvm/src/opcodes.rs:205-313 | `Breakpoint`, `ImpDep1` and `ImpDep2` are decoded from 0xca, 0xfe and 0xff respectively, and from no other byte. |
| Layout.ConstantRuns | jvm/src/opcodes.rs:282-288 | `IConstM1`..`IConst5` occupy 0x02..=0x08 in order. `LConst0`..`LConst1`, `FConst0`..`FConst2` and `DConst0`..`DConst1` follow at 0x09, 0x0b and 0x0e (their arms are at lines 345-346, 249-251 and 217-218). |
| Layout.LoadRuns | jvm/src/opcodes.rs:308-311 | `ILoad0`..`ILoad3` occupy 0x1a..=0x1d. The `long`, `float`, `double` and reference loads follow in runs of four up to `ALoad3` at 0x2d (their arms are at lines 352-355, 254-257, 221-224 and 189-192). |
| Layout.StoreRuns | jvm/src/opcodes.rs:328-331 | `IStore0`..`IStore3` occupy 0x3b..=0x3e. The other store forms follow in runs of four up to `AStore3` at 0x4e (their arms are at lines 365-368, 263-266, 230-233 and 197-200). |
| Layout.ParameterSizeBytes | jvm/src/opcodes.rs:167-177 | Among decoded opcodes, `parameter_size` answers exactly for bytes 0x03..=0x07 and 0x60. The neighbours 0x02 and 0x08 are outside. |
| Operands.ParameterSizeAgrees | jvm/src/opcodes.rs:167-177 | Where `parameter_size` answers, its answer is the operand count from chapter 6 of the Java Virtual Machine Specification. |
| Operands.ParameterSizeMissesOperandless | jvm/src/opcodes.rs:169-175 | `iconst_m1` and `iconst_5` take no operands in chapter 6, and they lie outside the six opcodes `parameter_size` handles. |

## Left out

- ParameterSize: the `todo!()` panic is a precondition, so the model says nothing about calls on the other 199 opcodes. It does not model that such a call aborts.
- `#[derive(Debug)]` on both enums: formatting is not modelled.
- Instruction-stream decoding is not part of this model: operands, the `wide` prefix and switch padding. `jvm/src/opcodes.rs` only names the opcodes and maps single bytes to them.
- `usize`, the return type of `parameter_size`, is modelled as an unbounded `nat`. Its only value is 0, so no width matters.
- The source has no opcode-to-byte function and no operand size beyond the six opcodes `parameter_size` handles. `ByteOf` and `OperandBytes` are reference definitions taken from chapters 7 and 6 of the Java Virtual Machine Specification, not parts of the source.
- Decode: no `ensures` of its own, because stating even its error case on the function makes its proof too costly; its properties are lemmas instead (`DecodeAccepts`, `ByteOf`, `DecodeInjective`).

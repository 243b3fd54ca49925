/** How the opcode table lays the mnemonics out over the byte range: the
    reserved opcodes at its edges, the numbered short forms in runs of
    consecutive bytes, and the few opcodes `parameter_size` handles. */
module Layout {
  import opened Wrappers
  import opened Opcodes
  import opened Distinctness

  /** The reserved opcodes of section 6.2 of the Java Virtual Machine
      Specification are accepted, at 0xca, 0xfe and 0xff, and no other byte
      names them. */
  lemma ReservedBytes(b: Byte)
    ensures Decode(b) == Ok(Breakpoint) <==> b == 0xca
    ensures Decode(b) == Ok(ImpDep1) <==> b == 0xfe
    ensures Decode(b) == Ok(ImpDep2) <==> b == 0xff
  {
    assert Decode(0xca) == Ok(Breakpoint);
    assert Decode(0xfe) == Ok(ImpDep1);
    assert Decode(0xff) == Ok(ImpDep2);
    if Decode(b) == Ok(Breakpoint) {
      DecodeInjective(0xca, b);
    } else if Decode(b) == Ok(ImpDep1) {
      DecodeInjective(0xfe, b);
    } else if Decode(b) == Ok(ImpDep2) {
      DecodeInjective(0xff, b);
    }
  }

  /** `family[i]` is the opcode of byte `first + i`, for every `i`. */
  predicate Consecutive(first: int, family: seq<Opcode>)
  {
    0 <= first && first + |family| <= 256 &&
    forall i | 0 <= i < |family| :: Decode(first + i) == Ok(family[i])
  }

  /** The constant-pushing short forms occupy consecutive bytes in the order
      of the constant they push: `iconst_m1` through `iconst_5` at 0x02..0x08,
      then the `long`, `float` and `double` constants. */
  lemma ConstantRuns()
    ensures Consecutive(0x02, [IConstM1, IConst0, IConst1, IConst2, IConst3, IConst4, IConst5])
    ensures Consecutive(0x09, [LConst0, LConst1])
    ensures Consecutive(0x0b, [FConst0, FConst1, FConst2])
    ensures Consecutive(0x0e, [DConst0, DConst1])
  {
  }

  /** The `<t>load_<n>` short forms come in runs of four, one per local
      variable index 0..3, for `int`, `long`, `float`, `double` and reference,
      starting at 0x1a. */
  lemma LoadRuns()
    ensures Consecutive(0x1a, [ILoad0, ILoad1, ILoad2, ILoad3])
    ensures Consecutive(0x1e, [LLoad0, LLoad1, LLoad2, LLoad3])
    ensures Consecutive(0x22, [FLoad0, FLoad1, FLoad2, FLoad3])
    ensures Consecutive(0x26, [DLoad0, DLoad1, DLoad2, DLoad3])
    ensures Consecutive(0x2a, [ALoad0, ALoad1, ALoad2, ALoad3])
  {
  }

  /** The `<t>store_<n>` short forms, laid out like the loads from 0x3b. */
  lemma StoreRuns()
    ensures Consecutive(0x3b, [IStore0, IStore1, IStore2, IStore3])
    ensures Consecutive(0x3f, [LStore0, LStore1, LStore2, LStore3])
    ensures Consecutive(0x43, [FStore0, FStore1, FStore2, FStore3])
    ensures Consecutive(0x47, [DStore0, DStore1, DStore2, DStore3])
    ensures Consecutive(0x4b, [AStore0, AStore1, AStore2, AStore3])
  {
  }

  /** Among decoded opcodes, `parameter_size` answers for exactly those of the
      bytes 0x03..0x07 (`iconst_0` through `iconst_4`) and 0x60 (`iadd`); the
      neighbours 0x02 (`iconst_m1`) and 0x08 (`iconst_5`) reach `todo!()`. */
  lemma ParameterSizeBytes(b: Byte)
    requires Decode(b).Ok?
    ensures ParameterSizeDefined(Decode(b).value) <==> 0x03 <= b <= 0x07 || b == 0x60
  {
    var op := Decode(b).value;
    if ParameterSizeDefined(op) {
      var k: Byte :=
        if op == IConst0 then 0x03
        else if op == IConst1 then 0x04
        else if op == IConst2 then 0x05
        else if op == IConst3 then 0x06
        else if op == IConst4 then 0x07
        else 0x60;
      assert Decode(k) == Ok(op);
      DecodeInjective(k, b);
    }
  }
}

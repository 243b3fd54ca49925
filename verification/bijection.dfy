/** The table is a bijection between the 205 accepted bytes and the 205
    variants of `Opcode`, with `ByteOf` as its inverse. */
module Bijection {
  import opened Wrappers
  import opened Opcodes
  import opened Encoding
  import opened Counting
  import opened Distinctness

  /** `ByteOf` undoes the table on every accepted byte. */
  lemma ByteOfDecode(b: Byte)
    requires Decode(b).Ok?
    ensures ByteOf(Decode(b).value) == b
  {
    var op := Decode(b).value;
    DecodeInjective(b, ByteOf(op));
  }

  /** Each opcode is named by exactly one byte, the one `ByteOf` gives. */
  lemma DecodesTo(b: Byte, op: Opcode)
    ensures Decode(b) == Ok(op) <==> b == ByteOf(op)
  {
    if Decode(b) == Ok(op) {
      DecodeInjective(b, ByteOf(op));
    }
  }

  /** The accepted bytes. */
  const Accepted: set<Byte> := set b: Byte | Decode(b).Ok?

  /** 205 of the 256 bytes are accepted and the other 51 are rejected. */
  lemma AcceptedCount()
    ensures |Accepted| == 205
    ensures |set b: Byte | Decode(b).Err?| == 51
  {
    forall b: Byte
      ensures Decode(b).Ok? <==> !(0xcb <= b <= 0xfd)
    {
      DecodeAccepts(b);
    }
    assert Accepted == ByteRange(0, 0xcb) + ByteRange(0xfe, 0x100);
    assert ByteRange(0, 0xcb) * ByteRange(0xfe, 0x100) == {};
    ByteRangeSize(0, 0xcb);
    ByteRangeSize(0xfe, 0x100);
    assert (set b: Byte | Decode(b).Err?) == ByteRange(0xcb, 0xfe);
    ByteRangeSize(0xcb, 0xfe);
  }

  /** The accepted bytes name 205 distinct opcodes, and every variant of the
      enum is among them. */
  lemma OpcodeCount()
    ensures |OkImage(Decode, Accepted)| == 205
    ensures forall op: Opcode :: op in OkImage(Decode, Accepted)
  {
    AcceptedCount();
    forall x, y | x in Accepted && y in Accepted && Decode(x) == Decode(y)
      ensures x == y
    {
      DecodeInjective(x, y);
    }
    InjectiveImageSize(Decode, Accepted);
    forall op: Opcode
      ensures op in OkImage(Decode, Accepted)
    {
      assert ByteOf(op) in Accepted;
    }
  }
}

/** No two bytes name the same opcode. The table is checked one quarter of the
    byte range, or one pair of quarters, at a time. */
module Distinctness {
  import opened Wrappers
  import opened Opcodes


  lemma DistinctInQuarter0(x: Byte, y: Byte)
    requires x < y < 0x40
    requires Decode(x).Ok?
    ensures Decode(x) != Decode(y)
  {
  }

  lemma DistinctInQuarter1(x: Byte, y: Byte)
    requires 0x40 <= x < y < 0x80
    requires Decode(x).Ok?
    ensures Decode(x) != Decode(y)
  {
  }

  lemma DistinctInQuarter2(x: Byte, y: Byte)
    requires 0x80 <= x < y < 0xc0
    requires Decode(x).Ok?
    ensures Decode(x) != Decode(y)
  {
  }

  lemma DistinctInQuarter3(x: Byte, y: Byte)
    requires 0xc0 <= x < y
    requires Decode(x).Ok?
    ensures Decode(x) != Decode(y)
  {
  }

  lemma DistinctAcross01Lower(x: Byte, y: Byte)
    requires x < 0x20
    requires 0x40 <= y < 0x80
    requires Decode(x).Ok?
    ensures Decode(x) != Decode(y)
  {
  }

  lemma DistinctAcross01Upper(x: Byte, y: Byte)
    requires 0x20 <= x < 0x40
    requires 0x40 <= y < 0x80
    requires Decode(x).Ok?
    ensures Decode(x) != Decode(y)
  {
  }

  lemma DistinctAcross02Lower(x: Byte, y: Byte)
    requires x < 0x20
    requires 0x80 <= y < 0xc0
    requires Decode(x).Ok?
    ensures Decode(x) != Decode(y)
  {
  }

  lemma DistinctAcross02Upper(x: Byte, y: Byte)
    requires 0x20 <= x < 0x40
    requires 0x80 <= y < 0xc0
    requires Decode(x).Ok?
    ensures Decode(x) != Decode(y)
  {
  }

  lemma DistinctAcross03(x: Byte, y: Byte)
    requires x < 0x40
    requires 0xc0 <= y
    requires Decode(x).Ok?
    ensures Decode(x) != Decode(y)
  {
  }

  lemma DistinctAcross12Lower(x: Byte, y: Byte)
    requires 0x40 <= x < 0x60
    requires 0x80 <= y < 0xc0
    requires Decode(x).Ok?
    ensures Decode(x) != Decode(y)
  {
  }

  lemma DistinctAcross12Upper(x: Byte, y: Byte)
    requires 0x60 <= x < 0x80
    requires 0x80 <= y < 0xc0
    requires Decode(x).Ok?
    ensures Decode(x) != Decode(y)
  {
  }

  lemma DistinctAcross13(x: Byte, y: Byte)
    requires 0x40 <= x < 0x80
    requires 0xc0 <= y
    requires Decode(x).Ok?
    ensures Decode(x) != Decode(y)
  {
  }

  lemma DistinctAcross23(x: Byte, y: Byte)
    requires 0x80 <= x < 0xc0
    requires 0xc0 <= y
    requires Decode(x).Ok?
    ensures Decode(x) != Decode(y)
  {
  }

  /** Two different bytes never name the same opcode. */
  lemma DecodeDistinct(x: Byte, y: Byte)
    requires x < y
    requires Decode(x).Ok?
    ensures Decode(x) != Decode(y)
  {
    var qx, qy := x / 0x40, y / 0x40;
    if qx == qy {
      if qx == 0 {
        DistinctInQuarter0(x, y);
      } else if qx == 1 {
        DistinctInQuarter1(x, y);
      } else if qx == 2 {
        DistinctInQuarter2(x, y);
      } else {
        DistinctInQuarter3(x, y);
      }
    } else if qx == 0 {
      if qy == 1 {
        if x < 0x20 {
          DistinctAcross01Lower(x, y);
        } else {
          DistinctAcross01Upper(x, y);
        }
      } else if qy == 2 {
        if x < 0x20 {
          DistinctAcross02Lower(x, y);
        } else {
          DistinctAcross02Upper(x, y);
        }
      } else {
        DistinctAcross03(x, y);
      }
    } else if qx == 1 {
      if qy == 2 {
        if x < 0x60 {
          DistinctAcross12Lower(x, y);
        } else {
          DistinctAcross12Upper(x, y);
        }
      } else {
        DistinctAcross13(x, y);
      }
    } else {
      DistinctAcross23(x, y);
    }
  }

  /** The table is injective on all 256 bytes: an accepted byte is the only
      byte that names its opcode, and a rejected byte is the only one whose
      `UnknownOpcode` carries it. */
  lemma DecodeInjective(x: Byte, y: Byte)
    requires Decode(x) == Decode(y)
    ensures x == y
  {
    if Decode(x).Err? {
      DecodeAccepts(x);
      DecodeAccepts(y);
    } else if x < y {
      DecodeDistinct(x, y);
    } else if y < x {
      DecodeDistinct(y, x);
    }
  }
}

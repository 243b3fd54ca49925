/** Cardinality facts about finite sets that the opcode counts rest on. */
module Counting {
  import opened Wrappers
  import opened Opcodes

  predicate Between(lo: int, b: int, hi: int)
  {
    lo <= b < hi
  }

  /** The bytes `lo`, `lo + 1`, ..., `hi - 1`. */
  function ByteRange(lo: int, hi: int): set<Byte>
  {
    set b: Byte | Between(lo, b, hi)
  }

  /** A range of bytes has as many members as its width. */
  lemma {:induction false} ByteRangeSize(lo: int, hi: int)
    requires 0 <= lo <= hi <= 256
    ensures |ByteRange(lo, hi)| == hi - lo
  {
    if lo == hi {
      assert ByteRange(lo, hi) == {};
    } else {
      ByteRangeSize(lo, hi - 1);
      assert ByteRange(lo, hi) == ByteRange(lo, hi - 1) + {hi - 1};
    }
  }

  /** The values that `f` produces on the members of `a` that it accepts. */
  function OkImage<T, U, E>(f: T -> Result<U, E>, a: set<T>): set<U>
  {
    set x | x in a && f(x).Ok? :: f(x).value
  }

  /** A function that accepts every member of `a` and never gives two of them
      the same result has an image as large as `a`. */
  lemma {:induction false} InjectiveImageSize<T, U, E>(f: T -> Result<U, E>, a: set<T>)
    requires forall x | x in a :: f(x).Ok?
    requires forall x, y | x in a && y in a && f(x) == f(y) :: x == y
    ensures |OkImage(f, a)| == |a|
  {
    if a != {} {
      var x :| x in a;
      var rest := a - {x};
      InjectiveImageSize(f, rest);
      assert OkImage(f, a) == OkImage(f, rest) + {f(x).value};
      forall y | y in rest
        ensures f(y).value != f(x).value
      {
        assert f(y) != f(x);
      }
    }
  }
}

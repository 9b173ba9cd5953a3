/** Fixed-width machine integers over Dafny's unbounded `int`. Wherever C++
    truncates, reinterprets or wraps, the model calls a member of this module. */
module MachineWords {
  import opened Arithmetic

  const TWO31 := 0x8000_0000
  const TWO32 := 0x1_0000_0000
  const TWO63 := 0x8000_0000_0000_0000
  const TWO64 := 0x1_0000_0000_0000_0000
  const MIN64 := -TWO63
  const MAX64 := TWO63 - 1

  type u32 = x: int | 0 <= x < TWO32
  type u64 = x: int | 0 <= x < TWO64
  type i32 = x: int | -TWO31 <= x < TWO31
  type i64 = x: int | MIN64 <= x <= MAX64

  /** ULARGE_INTEGER: a 64-bit word with separately assignable halves. */
  datatype ULarge = ULarge(hi: u32, lo: u32) {
    function Quad(): u64 { hi * TWO32 + lo }
  }

  /** Assignment to QuadPart. */
  method Large(q: u64) returns (w: ULarge)
    ensures w.Quad() == q
  {
    w := ULarge(q / TWO32, q % TWO32);
  }

  /** Unsigned addition and subtraction, which wrap. */
  method Add64(x: u64, y: u64) returns (w: ULarge)
    ensures w.Quad() == x + y || w.Quad() == x + y - TWO64
  {
    w := Large(Wrap64(x + y));
  }

  method Sub64(x: u64, y: u64) returns (w: ULarge)
    ensures w.Quad() == x - y || w.Quad() == x - y + TWO64
  {
    w := Large(Wrap64(x - y));
  }

  /** Conversion of any integer to an unsigned 64-bit word. */
  function Wrap64(x: int): u64 { x % TWO64 }

  /** Reinterpretation between signed and unsigned words. */
  function Signed64(q: u64): i64 { if q < TWO63 then q else q - TWO64 }
  function Unsigned64(x: i64): u64 { if x < 0 then x + TWO64 else x }

  /** Negation of a signed word: the most negative number is its own negation. */
  function Neg64(x: i64): i64 { if x == MIN64 then MIN64 else -x }

  function Abs(x: int): nat { if x < 0 then -x else x }

  /** Division truncated toward zero, as in C++. */
  function TruncDiv(n: int, c: int): int
    requires c != 0
  {
    var q := Abs(n) / Abs(c);
    if (n < 0) != (c < 0) then -q else q
  }

  lemma {:induction false} Pow2Of32(n: nat)
    requires n == 8
    ensures Pow2(4 * n) == TWO32
  {
    assert Pow2(2) == 4;
    Pow2Add(2, 2);
    Pow2Add(4, 4);
    Pow2Add(n, n);
    Pow2Add(2 * n, 2 * n);
  }

  lemma {:induction false} Pow2Words(n: nat)
    requires n == 32
    ensures Pow2(2 * n - 1) == TWO63 && Pow2(2 * n) == TWO64
  {
    Pow2Of32(8);
    Pow2Add(n, n);
  }
}

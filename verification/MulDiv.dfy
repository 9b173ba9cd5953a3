/** llMulDiv and Int64x32Div32: (a * b + d) / c computed in 32-bit limbs
    (portable branches of external/baseclasses/arithutil.cpp). */
module MulDiv {
  import opened Arithmetic
  import opened MachineWords

  /** Two 64-bit words as one 128-bit number. */
  function Value128(p0: ULarge, p1: ULarge): nat { p1.Quad() * TWO64 + p0.Quad() }

  /** The sign the code keeps beside the magnitude of a * b + d. A sum of zero
      keeps the sign of the factors. */
  predicate SumIsNegative(a: int, b: int, d: int) {
    if a * b + d == 0 then (a < 0) != (b < 0) else a * b + d < 0
  }

  /** What both functions compute, with no limbs in sight: the quotient of the
      magnitudes, saturated when it needs more than 64 bits. */
  function MulDivSpec(a: int, b: int, c: int, d: int): i64 {
    SaturatedQuotient(Abs(a * b + d), Abs(c), SumIsNegative(a, b, d) != (c < 0))
  }

  lemma {:induction false} SignedProduct(a: int, b: int)
    ensures a * b == if (a < 0) != (b < 0) then -(Abs(a) * Abs(b)) else Abs(a) * Abs(b)
  {
  }

  lemma {:induction false} LimbProduct(ah: int, al: int, bh: int, bl: int)
    ensures (ah * TWO32 + al) * (bh * TWO32 + bl)
         == ah * bh * TWO64 + (al * bh + ah * bl) * TWO32 + al * bl
  {
    assert ah * TWO32 * (bh * TWO32) == (ah * bh) * (TWO32 * TWO32);
  }

  /** A 32-bit by 32-bit product fits 64 bits. */
  method UInt32x32To64(x: u32, y: u32) returns (p: u64)
    ensures p == x * y
  {
    ProductBound(x, y, TWO32 - 1, TWO32 - 1);
    p := x * y;
  }

  /** The limb product: the middle column cannot overflow for magnitudes up to 2^63. */
  method LongMultiply(ua: ULarge, ub: ULarge) returns (p0: ULarge, p1: ULarge)
    requires ua.Quad() <= TWO63 && ub.Quad() <= TWO63
    ensures Value128(p0, p1) == ua.Quad() * ub.Quad()
  {
    LimbProduct(ua.hi, ua.lo, ub.hi, ub.lo);
    ProductBound(ua.lo, ub.hi, TWO32 - 1, TWO31);
    ProductBound(ua.hi, ub.lo, TWO31, TWO32 - 1);
    ProductBound(ua.hi, ub.hi, TWO31, TWO31);
    var low := UInt32x32To64(ua.lo, ub.lo);
    var cross1 := UInt32x32To64(ua.lo, ub.hi);
    var cross2 := UInt32x32To64(ua.hi, ub.lo);
    var high := UInt32x32To64(ua.hi, ub.hi);
    p0 := Large(low);
    var x := Add64(cross1, cross2);
    x := Add64(x.Quad(), p0.hi);
    p0 := p0.(hi := x.lo);
    p1 := Add64(high, x.hi);
  }

  /** d, or -d for a negative product, as a low word and its sign extension. */
  method SignExtend(d: i64, negative: bool) returns (ud0: ULarge, ud1: u64)
    requires d != 0
    ensures ud1 == 0 || ud1 == TWO64 - 1
    ensures ud0.Quad() - (if ud1 == 0 then 0 else TWO64) == if negative then -(d as int) else d
  {
    if negative {
      ud0 := Large(Unsigned64(Neg64(d)));
      ud1 := if d > 0 then TWO64 - 1 else 0;
    } else {
      ud0 := Large(Unsigned64(d));
      ud1 := if d < 0 then TWO64 - 1 else 0;
    }
  }

  /** Adds two 64-bit words half by half; the carry comes back in uliTotal. */
  method AddLowWords(ud0: ULarge, q0: ULarge) returns (p0: ULarge, uliTotal: ULarge)
    ensures uliTotal.Quad() * TWO64 + p0.Quad() == ud0.Quad() + q0.Quad()
    ensures uliTotal.Quad() <= 1
  {
    p0 := q0;
    uliTotal := Add64(ud0.lo, p0.lo);
    p0 := p0.(lo := uliTotal.lo);
    uliTotal := ULarge(0, uliTotal.hi);
    uliTotal := Add64(uliTotal.Quad(), ud0.hi + p0.hi);
    p0 := p0.(hi := uliTotal.lo);
    uliTotal := ULarge(0, uliTotal.hi);
  }

  /** Two's complement negation across both words. */
  method Negate128(q0: ULarge, q1: ULarge) returns (p0: ULarge, p1: ULarge)
    requires Value128(q0, q1) > 0
    ensures Value128(p0, p1) == TWO64 * TWO64 - Value128(q0, q1)
  {
    p0 := Add64(TWO64 - 1 - q0.Quad(), 1);
    p1 := Add64(TWO64 - 1 - q1.Quad(), if p0.Quad() == 0 then 1 else 0);
  }

  /** Adds d to the signed number with magnitude (q0, q1), and renormalizes to
      sign and magnitude: `(a * b) + d` keeps bSign beside a nonnegative value. */
  method AddSigned(q0: ULarge, q1: ULarge, negative: bool, d: i64)
    returns (p0: ULarge, p1: ULarge, bSign: bool)
    requires d != 0
    requires Value128(q0, q1) <= TWO63 * TWO63
    ensures var sum := Value128(q0, q1) + (if negative then -(d as int) else d);
            Value128(p0, p1) == Abs(sum) && (bSign <==> negative != (sum < 0))
  {
    p0, p1, bSign := q0, q1, negative;
    var ud0, ud1 := SignExtend(d, bSign);
    var uliTotal: ULarge;
    p0, uliTotal := AddLowWords(ud0, p0);
    uliTotal := Add64(ud1, uliTotal.Quad());
    p1 := Add64(p1.Quad(), uliTotal.Quad());
    if p1.hi >= TWO31 {
      bSign := !bSign;
      p0, p1 := Negate128(p0, p1);
    }
  }

  /** A dividend of two 32-bit digits, divided one digit at a time. */
  lemma {:induction false} ChainedDivision(high: nat, low: nat, c: nat, h: nat, r: nat, l: nat, rest: nat)
    requires high == c * h + r && r * TWO32 + low == c * l + rest && rest < c
    ensures high * TWO32 + low == c * (h * TWO32 + l) + rest
  {
    assert c * (h * TWO32 + l) == c * h * TWO32 + c * l;
  }

  /** Unsigned division with remainder. */
  lemma {:induction false} ChainedQuotient(high: nat, low: nat, c: nat, h: nat, r: nat, l: nat, rest: nat)
    requires high == c * h + r && r * TWO32 + low == c * l + rest && rest < c
    ensures (high * TWO32 + low) / c == h * TWO32 + l
  {
    ChainedDivision(high, low, c, h, r, l, rest);
    QuotientUnique(high * TWO32 + low, c, h * TWO32 + l, rest);
  }

  method DivRem(n: u64, c: u64) returns (q: u64, r: u64)
    requires c > 0
    ensures n == c * q + r && r < c
  {
    q, r := n / c, n % c;
  }

  lemma {:induction false} QuotientFits(n: nat, c: nat, q: nat, r: nat, b: nat)
    requires n == c * q + r && n < c * b
    ensures q < b
  {
    if q >= b { ProductBound(c, b, c, q); }
  }

  /** A quotient is below b exactly when the dividend is below c * b. */
  lemma {:induction false} QuotientBelow(n: nat, c: nat, b: nat)
    requires c > 0
    ensures n / c < b <==> n < c * b
  {
    var q, r := n / c, n % c;
    assert n == c * q + r;
    if q < b {
      ProductBound(c, q + 1, c, b);
      assert c * (q + 1) == c * q + c;
    } else {
      ProductBound(c, b, c, q);
    }
  }

  /** The 128-bit left shift by one, when no bit is lost. */
  method ShiftLeft128(q0: ULarge, q1: ULarge) returns (p0: ULarge, p1: ULarge)
    requires q1.Quad() < TWO63
    ensures Value128(p0, p1) == 2 * Value128(q0, q1)
  {
    p0, p1 := q0, q1;
    p1 := Add64(p1.Quad(), p1.Quad());
    if p0.hi >= TWO31 {
      p1 := p1.(lo := p1.lo + 1);
    }
    p0 := Add64(p0.Quad(), p0.Quad());
  }

  /** One step keeps: scaled dividend == divided part + remainder. */
  lemma {:induction false} DivisionStep(n: int, w: int, uc: int, u: int, v: int, bit: int)
    requires n * w == uc * u * TWO64 + v
    ensures n * (2 * w) == uc * (2 * u + bit) * TWO64 + (2 * v - bit * uc * TWO64)
  {
    assert n * (2 * w) == 2 * (n * w);
    assert uc * (2 * u + bit) == 2 * (uc * u) + bit * uc;
  }

  /** One iteration of the long division; w is 2^i before it. */
  method LongDivideStep(q0: ULarge, q1: ULarge, uc: u64, result: u64, ghost n: nat, ghost w: nat)
    returns (p0: ULarge, p1: ULarge, ullResult: u64)
    requires q1.Quad() < uc <= TWO63
    requires 0 <= result < w <= TWO63
    requires n * w == uc * result * TWO64 + Value128(q0, q1)
    ensures p1.Quad() < uc
    ensures 0 <= ullResult < 2 * w
    ensures n * (2 * w) == uc * ullResult * TWO64 + Value128(p0, p1)
  {
    var shifted := Add64(result, result);
    p0, p1 := ShiftLeft128(q0, q1);
    ghost var bit := if uc <= p1.Quad() then 1 else 0;
    if uc <= p1.Quad() {
      p1 := Sub64(p1.Quad(), uc);
      shifted := Add64(shifted.Quad(), 1);
    }
    ullResult := shifted.Quad();
    DivisionStep(n, w, uc, result, Value128(q0, q1), bit);
    assert bit * uc * TWO64 == if bit == 1 then uc * TWO64 else 0;
  }

  /** The 64-step shift-and-subtract division of a 128-bit number. After i steps
      the dividend times 2^i is the quotient so far times the divisor, in the
      high word, plus the 128-bit remainder in (p0, p1). */
  method LongDivide(q0: ULarge, q1: ULarge, uc: u64) returns (ullResult: u64)
    requires q1.Quad() < uc <= TWO63
    ensures ullResult == Value128(q0, q1) / uc
  {
    ghost var n := Value128(q0, q1);
    var p0, p1 := q0, q1;
    ullResult := 0;
    for i := 0 to 64
      invariant p1.Quad() < uc
      invariant 0 <= ullResult < Pow2(i)
      invariant n * Pow2(i) == uc * ullResult * TWO64 + Value128(p0, p1)
    {
      Pow2Words(32);
      Pow2Monotone(i, 63);
      p0, p1, ullResult := LongDivideStep(p0, p1, uc, ullResult, n, Pow2(i));
    }
    DividedOut(n, uc, ullResult, p0, p1);
  }

  lemma {:induction false} DividedOut(n: nat, uc: nat, u: nat, p0: ULarge, p1: ULarge)
    requires p1.Quad() < uc
    requires n * Pow2(64) == uc * u * TWO64 + Value128(p0, p1)
    ensures u == n / uc
  {
    Pow2Words(32);
    assert n * TWO64 == uc * u * TWO64 + p1.Quad() * TWO64 + p0.Quad();
    assert n == uc * u + p1.Quad();
    QuotientUnique(n, uc, u, p1.Quad());
  }

  /** `bSign ? -(LONGLONG)q : (LONGLONG)q`. */
  function ApplySign(q: u64, bSign: bool): i64 {
    if bSign then Neg64(Signed64(q)) else Signed64(q)
  }

  /** The absolute value, as an unsigned word: exact even for the most negative number. */
  function Magnitude(x: i64): (m: u64)
    ensures m == Abs(x)
  {
    Unsigned64(if x >= 0 then x else Neg64(x))
  }

  /** A 96-bit number by a 32-bit divisor: two chained 64-by-32 divisions. */
  method DivideByDword(q0: ULarge, p1: ULarge, dwDivisor: u32) returns (quotient: u64)
    requires p1.Quad() < dwDivisor
    ensures quotient == Value128(q0, p1) / dwDivisor
  {
    var p0 := q0;
    var uliDividend := ULarge(p1.lo, p0.hi);
    var high, remainder := DivRem(uliDividend.Quad(), dwDivisor);
    QuotientFits(uliDividend.Quad(), dwDivisor, high, remainder, TWO32);
    var uliResult := ULarge(high, 0);
    p0 := p0.(hi := remainder);
    var low, rest := DivRem(p0.Quad(), dwDivisor);
    QuotientFits(p0.Quad(), dwDivisor, low, rest, TWO32);
    uliResult := Add64(low, uliResult.Quad());
    quotient := uliResult.Quad();
    ChainedQuotient(uliDividend.Quad(), p0.lo, dwDivisor, high, remainder, low, rest);
  }

  /** The quotient of magnitudes under a sign, at its signed extreme when it
      needs more than 64 bits. */
  function SaturatedQuotient(n: nat, uc: nat, negative: bool): i64 {
    if uc == 0 || n / uc >= TWO64 then
      if negative then MIN64 else MAX64
    else
      ApplySign(n / uc, negative)
  }

  /** The test `uc <= p[1]` is true exactly for a zero divisor or a quotient
      that needs more than 64 bits. */
  lemma {:induction false} OverflowTest(p0: ULarge, p1: ULarge, uc: nat, negative: bool)
    ensures uc <= p1.Quad() <==> uc == 0 || Value128(p0, p1) / uc >= TWO64
  {
    if uc > 0 { QuotientBelow(Value128(p0, p1), uc, TWO64); }
  }

  method DivideMagnitude(p0: ULarge, p1: ULarge, uc: u64) returns (quotient: u64)
    requires p1.Quad() < uc <= TWO63
    ensures quotient == Value128(p0, p1) / uc
  {
    if p1.Quad() == 0 {
      var q, r := DivRem(p0.Quad(), uc);
      QuotientUnique(p0.Quad(), uc, q, r);
      return q;
    }
    var ulic := Large(uc);
    if ulic.hi == 0 {
      quotient := DivideByDword(p0, p1, uc);
    } else {
      quotient := LongDivide(p0, p1, uc);
    }
  }

  /** The division of a sign-and-magnitude number, by three paths. */
  method Divide(p0: ULarge, p1: ULarge, uc: u64, bSign: bool) returns (r: i64)
    requires uc <= TWO63
    ensures r == SaturatedQuotient(Value128(p0, p1), uc, bSign)
  {
    OverflowTest(p0, p1, uc, bSign);
    if uc <= p1.Quad() {
      return if bSign then MIN64 else MAX64;
    }
    var quotient := DivideMagnitude(p0, p1, uc);
    r := ApplySign(quotient, bSign);
  }

  /** The magnitude and sign of a * b + d, from the limbs of |a| and |b|. */
  method MultiplyAdd(a: i64, b: i64, d: i64) returns (p0: ULarge, p1: ULarge, bSign: bool)
    ensures Value128(p0, p1) == Abs(a * b + d)
    ensures bSign == SumIsNegative(a, b, d)
  {
    var ua := Large(Magnitude(a));
    var ub := Large(Magnitude(b));
    bSign := (a < 0) != (b < 0);
    ProductBound(ua.Quad(), ub.Quad(), TWO63, TWO63);
    SignedProduct(a, b);
    p0, p1 := LongMultiply(ua, ub);
    if d != 0 {
      p0, p1, bSign := AddSigned(p0, p1, bSign, d);
    }
  }

  /** llMulDiv, for every a, b, c, d. */
  method LlMulDiv(a: i64, b: i64, c: i64, d: i64) returns (r: i64)
    ensures r == MulDivSpec(a, b, c, d)
  {
    var p0, p1, bSign := MultiplyAdd(a, b, d);
    var uc := Magnitude(c);
    if c < 0 {
      bSign := !bSign;
    }
    r := Divide(p0, p1, uc, bSign);
  }

  /** Int64x32Div32: b, c and d are 32-bit, the accumulator has 96 bits. */
  method Int64x32Div32(a: i64, b: i32, c: i32, d: i32) returns (r: i64)
    ensures r == MulDivSpec(a, b, c, d)
  {
    var p0, p1, bSign := MultiplyAdd96(a, b, d);
    var uc: u32 := Magnitude(c);
    if c < 0 {
      bSign := !bSign;
    }
    OverflowTest(p0, ULarge(0, p1), uc, bSign);
    if uc <= p1 {
      return if bSign then MIN64 else MAX64;
    }
    var quotient := DivideByDword96(p0, p1, uc);
    r := ApplySign(quotient, bSign);
  }

  function Value96(p0: ULarge, p1: u32): nat { p1 * TWO64 + p0.Quad() }

  /** EnlargedUnsignedDivide: a 64-by-32 division keeping 32 bits of quotient,
      exact because the high half of the dividend is below the divisor. */
  method EnlargedUnsignedDivide(dividend: ULarge, divisor: u32) returns (q: u32, remainder: u32)
    requires dividend.hi < divisor
    ensures dividend.Quad() == divisor * q + remainder && remainder < divisor
  {
    var wide, rest := DivRem(dividend.Quad(), divisor);
    QuotientFits(dividend.Quad(), divisor, wide, rest, TWO32);
    q, remainder := wide % TWO32, rest % TWO32;
  }

  method DivideByDword96(q0: ULarge, p1: u32, dwDivisor: u32) returns (quotient: u64)
    requires p1 < dwDivisor
    ensures quotient == Value96(q0, p1) / dwDivisor
  {
    var p0 := q0;
    var uliDividend := ULarge(p1, p0.hi);
    var high: u32 := 0;
    if uliDividend.Quad() >= dwDivisor {
      var remainder;
      high, remainder := EnlargedUnsignedDivide(uliDividend, dwDivisor);
      p0 := p0.(hi := remainder);
    }
    var low, rest := EnlargedUnsignedDivide(p0, dwDivisor);
    quotient := ULarge(high, low).Quad();
    ChainedDivision(uliDividend.Quad(), p0.lo, dwDivisor, high, p0.hi, low, rest);
    QuotientUnique(Value96(q0, p1), dwDivisor, quotient, rest);
  }

  /** The product of a 64-bit and a 32-bit magnitude, in 96 bits. */
  method LongMultiply96(ua: ULarge, ub: u32) returns (p0: ULarge, p1: u32)
    requires ua.Quad() <= TWO63 && ub <= TWO31
    ensures Value96(p0, p1) == ua.Quad() * ub
  {
    LimbProduct(ua.hi, ua.lo, 0, ub);
    ProductBound(ua.hi, ub, TWO31, TWO31);
    var low := UInt32x32To64(ua.lo, ub);
    p0 := Large(low);
    p1 := 0;
    if ua.hi != 0 {
      var high := UInt32x32To64(ua.hi, ub);
      var x := Add64(high, p0.hi);
      p0 := p0.(hi := x.lo);
      p1 := x.hi;
    }
  }

  /** Addition modulo 2^32. */
  method Add32(x: u32, y: u32) returns (r: u32)
    ensures r == x + y || r == x + y - TWO32
  {
    r := (x + y) % TWO32;
  }

  method Negate96(q0: ULarge, q1: u32) returns (p0: ULarge, p1: u32)
    requires Value96(q0, q1) > 0
    ensures Value96(p0, p1) == TWO64 * TWO32 - Value96(q0, q1)
  {
    p0 := Add64(TWO64 - 1 - q0.Quad(), 1);
    p1 := Add32(TWO32 - 1 - q1, if p0.Quad() == 0 then 1 else 0);
  }

  /** AddSigned with a 32-bit d and a 32-bit high word. */
  method AddSigned96(q0: ULarge, q1: u32, negative: bool, d: i32)
    returns (p0: ULarge, p1: u32, bSign: bool)
    requires d != 0
    requires Value96(q0, q1) <= TWO63 * TWO31
    ensures var sum := Value96(q0, q1) + (if negative then -(d as int) else d);
            Value96(p0, p1) == Abs(sum) && (bSign <==> negative != (sum < 0))
  {
    p0, p1, bSign := q0, q1, negative;
    var ud0, extension := SignExtend(d, bSign);
    var ud1: u32 := if extension == 0 then 0 else TWO32 - 1;
    var uliTotal: ULarge;
    p0, uliTotal := AddLowWords(ud0, p0);
    var high := Add32(ud1, uliTotal.lo);
    p1 := Add32(p1, high);
    if p1 >= TWO31 {
      bSign := !bSign;
      p0, p1 := Negate96(p0, p1);
    }
  }

  method MultiplyAdd96(a: i64, b: i32, d: i32) returns (p0: ULarge, p1: u32, bSign: bool)
    ensures Value96(p0, p1) == Abs(a * b + d)
    ensures bSign == SumIsNegative(a, b, d)
  {
    var ua := Large(Magnitude(a));
    var ub: u32 := Magnitude(b);
    bSign := (a < 0) != (b < 0);
    ProductBound(ua.Quad(), ub, TWO63, TWO31);
    SignedProduct(a, b);
    p0, p1 := LongMultiply96(ua, ub);
    if d != 0 {
      p0, p1, bSign := AddSigned96(p0, p1, bSign, d);
    }
  }

  /** What the result means: for a nonzero divisor it is the quotient truncated
      toward zero exactly when that quotient fits a signed 64-bit number;
      between 2^63 and 2^64 in magnitude it comes back modulo 2^64; beyond that
      it is the extreme on the quotient's side of zero. */
  lemma {:induction false} QuotientMeaning(a: int, b: int, c: int, d: int)
    requires c != 0
    ensures var r, q := MulDivSpec(a, b, c, d), TruncDiv(a * b + d, c);
            && (r == q <==> MIN64 <= q <= MAX64)
            && (Abs(q) < TWO64 ==> exists k: int :: r == q + k * TWO64)
            && (q >= TWO64 ==> r == MAX64)
            && (q <= -TWO64 ==> r == MIN64)
  {
    var n, uc := Abs(a * b + d), Abs(c);
    var r, q := MulDivSpec(a, b, c, d), TruncDiv(a * b + d, c);
    if n == 0 { QuotientUnique(0, uc, 0, 0); }
    assert n / uc == Abs(q);
    if n / uc < TWO64 {
      assert r == q + (if r == q then 0 else if r < q then -1 else 1) * TWO64;
    }
  }

  /** A zero divisor gives the extreme on the side of a * b + d, or of the
      product's sign when that sum is zero. */
  lemma {:induction false} ZeroDivisor(a: int, b: int, d: int)
    ensures MulDivSpec(a, b, 0, d) == if SumIsNegative(a, b, d) then MIN64 else MAX64
  {
  }

  /** Scaling by b and back loses nothing. */
  lemma {:induction false} ScaleBack(a: i64, b: i64)
    requires b != 0
    ensures MulDivSpec(a, b, b, 0) == a
  {
    SignedProduct(a, b);
    QuotientUnique(Abs(a * b), Abs(b), Abs(a), 0);
  }

  /** 2^62 times 2 is 2^63, one too many: the result is the most negative number. */
  lemma {:induction false} QuotientWraps()
    ensures MulDivSpec(0x4000_0000_0000_0000, 2, 1, 0) == MIN64
    ensures TruncDiv(0x4000_0000_0000_0000 * 2 + 0, 1) == TWO63
  {
  }
}

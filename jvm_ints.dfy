/**
 * The JVM integral types that a generated accessor can return, and the
 * narrowing primitive conversions of section 5.1.3 of the Java Language
 * Specification that the generated code applies to a mapped `Integer`
 * (`Integer.byteValue`, `Integer.intValue` followed by `i2c`, and
 * `Integer.shortValue`). None of them ever fails: they keep the low bits.
 */
module JvmInts {

  newtype int8 = x: int | -0x80 <= x < 0x80
  newtype int16 = x: int | -0x8000 <= x < 0x8000
  newtype char16 = x: int | 0 <= x < 0x1_0000
  newtype int32 = x: int | -0x8000_0000 <= x < 0x8000_0000
  newtype int64 = x: int | -0x8000_0000_0000_0000 <= x < 0x8000_0000_0000_0000

  /** `Integer.byteValue()`: the low 8 bits of the int, sign-extended. */
  function ByteValue(i: int32): (b: int8)
    ensures (b as int - i as int) % 0x100 == 0
  {
    var low := (i as int) % 0x100;
    if low < 0x80 then low as int8 else (low - 0x100) as int8
  }

  /** `Integer.intValue()` then `i2c`: the low 16 bits of the int, unsigned. */
  function CharValue(i: int32): (c: char16)
    ensures (c as int - i as int) % 0x1_0000 == 0
  {
    ((i as int) % 0x1_0000) as char16
  }

  /** `Integer.shortValue()`: the low 16 bits of the int, sign-extended. */
  function ShortValue(i: int32): (s: int16)
    ensures (s as int - i as int) % 0x1_0000 == 0
  {
    var low := (i as int) % 0x1_0000;
    if low < 0x8000 then low as int16 else (low - 0x1_0000) as int16
  }

  /** Two numbers of one residue class that both lie in a window of width m are equal. */
  lemma {:induction false} SameWindowSameResidue(x: int, y: int, lo: int, m: int)
    requires m > 0
    requires lo <= x < lo + m && lo <= y < lo + m
    requires (x - y) % m == 0
    ensures x == y
  {
    var d := x - y;
    assert d == (d / m) * m;
  }

  /** The byte conversion is the only 8-bit value congruent to the int modulo 2^8. */
  lemma ByteValueUnique(i: int32, b: int8)
    requires (b as int - i as int) % 0x100 == 0
    ensures b == ByteValue(i)
  {
    var r := ByteValue(i);
    assert ((b as int - i as int) - (r as int - i as int)) % 0x100 == 0;
    SameWindowSameResidue(b as int, r as int, -0x80, 0x100);
  }

  /** The char conversion is the only unsigned 16-bit value congruent to the int modulo 2^16. */
  lemma CharValueUnique(i: int32, c: char16)
    requires (c as int - i as int) % 0x1_0000 == 0
    ensures c == CharValue(i)
  {
    var r := CharValue(i);
    assert ((c as int - i as int) - (r as int - i as int)) % 0x1_0000 == 0;
    SameWindowSameResidue(c as int, r as int, 0, 0x1_0000);
  }

  /** The short conversion is the only signed 16-bit value congruent to the int modulo 2^16. */
  lemma ShortValueUnique(i: int32, s: int16)
    requires (s as int - i as int) % 0x1_0000 == 0
    ensures s == ShortValue(i)
  {
    var r := ShortValue(i);
    assert ((s as int - i as int) - (r as int - i as int)) % 0x1_0000 == 0;
    SameWindowSameResidue(s as int, r as int, -0x8000, 0x1_0000);
  }

  /** A value that already fits the narrower type comes back unchanged. */
  lemma NarrowingKeepsInRangeValues(i: int32)
    ensures -0x80 <= i < 0x80 ==> ByteValue(i) as int == i as int
    ensures 0 <= i < 0x1_0000 ==> CharValue(i) as int == i as int
    ensures -0x8000 <= i < 0x8000 ==> ShortValue(i) as int == i as int
  {
    if -0x80 <= i < 0x80 {
      ByteValueUnique(i, i as int8);
    }
    if 0 <= i < 0x1_0000 {
      CharValueUnique(i, i as char16);
    }
    if -0x8000 <= i < 0x8000 {
      ShortValueUnique(i, i as int16);
    }
  }

  /** short and char keep the same 16 bits: the short is the char read as a signed number. */
  lemma ShortIsSignedChar(i: int32)
    ensures ShortValue(i) as int
         == if CharValue(i) < 0x8000 then CharValue(i) as int else CharValue(i) as int - 0x1_0000
  {
    var c := CharValue(i) as int;
    var s := if c < 0x8000 then c else c - 0x1_0000;
    assert (s - i as int) % 0x1_0000 == 0 by {
      assert (s - i as int) == (c - i as int) + (s - c);
    }
    ShortValueUnique(i, s as int16);
  }

  lemma MultipleOf256(t: int)
    ensures (t * 0x100) % 0x100 == 0
  {
  }

  /** The low 8 bits of a number are the low 8 bits of its low 16 bits. */
  lemma {:induction false} LowByteOfLowHalf(x: int)
    ensures x % 0x100 == (x % 0x1_0000) % 0x100
  {
    var low := x % 0x1_0000;
    var r := low % 0x100;
    var q := (x / 0x1_0000) * 0x100 + low / 0x100;
    assert x == q * 0x100 + r;
    assert x % 0x100 - r == (q - x / 0x100) * 0x100;
    MultipleOf256(q - x / 0x100);
    SameWindowSameResidue(x % 0x100, r, 0, 0x100);
  }

  /** Narrowing to a byte through a short gives the byte of the original int. */
  lemma ByteOfShort(i: int32)
    ensures ByteValue(ShortValue(i) as int32) == ByteValue(i)
  {
    LowByteOfLowHalf(i as int);
    LowByteOfLowHalf(ShortValue(i) as int);
  }

  /** Examples of the non-saturating narrowing of the Java Language Specification. */
  lemma NarrowingExamples()
    ensures ByteValue(300) == 44
    ensures ByteValue(0x7f) == 0x7f && ByteValue(0x80) == -0x80 && ByteValue(-1) == -1
    ensures CharValue(0x43) == 0x43 && CharValue(-1) == 0xffff && CharValue(0x1_0041) == 0x41
    ensures ShortValue(32767) == 32767 && ShortValue(32768) == -32768 && ShortValue(0xffff) == -1
  {
  }
}

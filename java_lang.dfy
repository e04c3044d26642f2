/**
 * The small part of Java's semantics that the agenda watchface code relies on:
 * references that may be null, thrown exceptions, the fixed-width integer types
 * with their wrap-around, truncating remainder, and String.compareTo.
 */
module JavaLang {

  /** A Java reference that may be null. */
  datatype Option<+T> = None | Some(value: T)

  /** The exceptions the modelled code can throw. */
  datatype JavaError = NullPointer | IndexOutOfBounds

  /** A computation that returns a value or throws. */
  datatype Result<+T> = Ok(value: T) | Throws(error: JavaError)

  const TWO_32: int := 0x1_0000_0000
  const INT_MIN: int := -0x8000_0000
  const INT_MAX: int := 0x7fff_ffff

  /** Java `int`. */
  type Int32 = x: int | -0x8000_0000 <= x < 0x8000_0000
  /** Java `byte` (signed). */
  type Int8 = x: int | -128 <= x < 128

  /** The value of an `int` expression whose exact value is x: Java arithmetic wraps modulo 2^32. */
  function Wrap32(x: int): (r: Int32)
    ensures (r - x) % TWO_32 == 0
    ensures INT_MIN <= x <= INT_MAX ==> r == x
  {
    var m := (x + 0x8000_0000) % TWO_32;
    assert INT_MIN <= x <= INT_MAX ==> m == x + 0x8000_0000;
    m - 0x8000_0000
  }

  /** Java's narrowing cast `(byte) x`. */
  function ToByte(x: int): (r: Int8)
    ensures (r - x) % 256 == 0
    ensures -128 <= x < 128 ==> r == x
  {
    var m := (x + 128) % 256;
    assert -128 <= x < 128 ==> m == x + 128;
    m - 128
  }

  /** The unsigned value a `byte` carries in a uint8 field of the wire format. */
  function Unsigned8(b: Int8): (r: int)
    ensures 0 <= r < 256
    ensures (r - b) % 256 == 0
  {
    if b < 0 then b + 256 else b
  }

  /** Java's `%`, which truncates toward zero (the result takes the sign of a). */
  function JavaRem(a: int, b: int): (r: int)
    requires b != 0
    ensures a >= 0 ==> 0 <= r < if b > 0 then b else -b
    ensures a < 0 ==> r <= 0
  {
    if a >= 0 then a % b else -((-a) % b)
  }

  function Sign(x: int): int
  {
    if x < 0 then -1 else if x == 0 then 0 else 1
  }

  /**
   * String.compareTo: the difference of the first two differing characters,
   * or else the difference of the lengths.
   */
  function CompareStrings(a: string, b: string): int
    decreases |a|
  {
    if a == [] || b == [] then |a| - |b|
    else if a[0] != b[0] then (a[0] as int) - (b[0] as int)
    else CompareStrings(a[1..], b[1..])
  }

  lemma {:induction false} CompareStringsZero(a: string, b: string)
    ensures CompareStrings(a, b) == 0 <==> a == b
    decreases |a|
  {
    if a == [] || b == [] {
    } else if a[0] != b[0] {
    } else {
      CompareStringsZero(a[1..], b[1..]);
      assert a == [a[0]] + a[1..] && b == [b[0]] + b[1..];
    }
  }

  lemma {:induction false} CompareStringsAntisymmetric(a: string, b: string)
    ensures CompareStrings(b, a) == -CompareStrings(a, b)
    decreases |a|
  {
    if a == [] || b == [] {
    } else if a[0] != b[0] {
    } else {
      CompareStringsAntisymmetric(a[1..], b[1..]);
    }
  }

  lemma {:induction false} CompareStringsTransitive(a: string, b: string, c: string)
    requires CompareStrings(a, b) <= 0 && CompareStrings(b, c) <= 0
    ensures CompareStrings(a, c) <= 0
    decreases |a|
  {
    if a == [] || b == [] || c == [] {
    } else if a[0] != b[0] || b[0] != c[0] {
      if a[0] == b[0] {
        // then b[0] != c[0], so c[0] > b[0] == a[0]
      } else if b[0] == c[0] {
      } else {
      }
    } else {
      CompareStringsTransitive(a[1..], b[1..], c[1..]);
    }
  }

  /** `s.substring(0, n)` for n <= |s|, and the whole string otherwise (the callers guard the length). */
  function Prefix(s: string, n: nat): (r: string)
    ensures |r| <= n && r <= s
    ensures |s| <= n ==> r == s
  {
    if |s| <= n then s else s[..n]
  }
}

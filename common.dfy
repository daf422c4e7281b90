/** Small value types shared by every part of the model: optional values,
    results, Java's signed `byte`, and Java's truncating integer arithmetic. */
module Common {

  datatype Option<T> = None | Some(value: T)

  datatype Result<T, E> = Ok(value: T) | Err(error: E)

  /** A Java `byte`: a signed two's-complement 8-bit value. */
  type JByte = b: int | -128 <= b < 128

  /** `b & 0xFF`: the byte read as an unsigned value. */
  function Unsigned(b: JByte): (u: int)
    ensures 0 <= u < 256
    ensures (u - b) % 256 == 0
    ensures b >= 0 ==> u == b
  {
    if b < 0 then b + 256 else b
  }

  /** Java's narrowing `(byte) x` of an int: keep the low eight bits. */
  function ToByte(x: int): (b: JByte)
    ensures (x - b) % 256 == 0
  {
    var m := x % 256;
    if m < 128 then m else m - 256
  }

  /** Reading a byte as unsigned and narrowing it back gives the byte. */
  lemma ByteRoundTrip(b: JByte)
    ensures ToByte(Unsigned(b)) == b
  {
  }

  /** Narrowing an unsigned value and reading it back gives the value. */
  lemma UnsignedRoundTrip(u: int)
    requires 0 <= u < 256
    ensures Unsigned(ToByte(u)) == u
  {
  }

  /** Java's `a / b` for a positive divisor: the quotient is truncated toward zero. */
  function JavaDiv(a: int, b: int): (q: int)
    requires b > 0
    ensures a >= 0 ==> q == a / b
    ensures a < 0 ==> q <= 0
  {
    if a >= 0 then a / b else -((-a) / b)
  }

  /** Java's `a % b` for a positive divisor: the remainder takes the sign of `a`. */
  function JavaRem(a: int, b: int): (r: int)
    requires b > 0
    ensures a == b * JavaDiv(a, b) + r
    ensures a >= 0 ==> 0 <= r < b && r == a % b
    ensures a < 0 ==> -b < r <= 0
  {
    a - b * JavaDiv(a, b)
  }

  /** Java's narrowing of a double to an integer, read on exact reals:
      the fraction is dropped, rounding toward zero. */
  function TruncToInt(x: real): (n: int)
    ensures x >= 0.0 ==> n as real <= x < n as real + 1.0
    ensures x < 0.0 ==> n as real - 1.0 < x <= n as real
  {
    if x >= 0.0 then x.Floor else -((-x).Floor)
  }

  function MinReal(a: real, b: real): real { if a <= b then a else b }

  function MaxReal(a: real, b: real): real { if a >= b then a else b }

  /** A proper subset is smaller than its superset. */
  lemma SubsetIsSmaller<T>(a: set<T>, b: set<T>)
    requires a < b
    ensures |a| < |b|
  {
    var x :| x in b && x !in a;
    SubsetNoLarger(a, b - {x});
  }

  /** A subset is no larger than its superset. */
  lemma {:induction false} SubsetNoLarger<T>(a: set<T>, b: set<T>)
    requires a <= b
    ensures |a| <= |b|
    decreases a
  {
    if a != {} {
      var y :| y in a;
      SubsetNoLarger(a - {y}, b - {y});
    }
  }
}

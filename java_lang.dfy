/** The parts of the Java runtime that Printer and BasicUtils rely on:
    nullable references, Objects.equals, String.indexOf(char) and
    String.hashCode() with its 32-bit two's-complement arithmetic. */
module JavaLang {

  /** A Java reference of type T, which may be null. */
  datatype Nullable<+T> = Null | NonNull(value: T)

  /** The outcome of a Java expression that may throw. Only the exception
      the core can raise is modelled. */
  datatype Result<+T> = Ok(value: T) | NullPointerException

  /** java.util.Objects.equals(a, b): both null, or a non-null a whose
      equals accepts b; the referenced types compare by value equality. */
  function ObjectsEquals<T(==)>(a: Nullable<T>, b: Nullable<T>): (r: bool)
    ensures r <==> a == b
  {
    match a
    case Null => b.Null?
    case NonNull(x) => b.NonNull? && x == b.value
  }

  /** String.indexOf(char): the first position of c in s, or -1 when c does not occur. */
  function IndexOf(s: string, c: char): (r: int)
    ensures -1 <= r < |s|
    ensures r == -1 <==> c !in s
    ensures 0 <= r ==> s[r] == c && c !in s[..r]
  {
    if s == [] then -1
    else if s[0] == c then 0
    else
      var k := IndexOf(s[1..], c);
      if k < 0 then -1
      else
        assert s[..k + 1] == [s[0]] + s[1..][..k];
        k + 1
  }

  const TwoTo31: int := 0x8000_0000
  const TwoTo32: int := 0x1_0000_0000

  /** The range of Java's int. */
  predicate IsInt32(x: int) {
    -TwoTo31 <= x < TwoTo31
  }

  /** The int that Java arithmetic yields for the mathematical value x:
      the unique 32-bit two's-complement value congruent to x modulo 2^32. */
  function ToInt32(x: int): (r: int)
    ensures IsInt32(r)
    ensures (x - r) % TwoTo32 == 0
    ensures IsInt32(x) ==> r == x
  {
    var u := x % TwoTo32;
    if u < TwoTo31 then u else u - TwoTo32
  }

  /** String.hashCode(): h = 31 * h + c over the characters in order, each
      step in int arithmetic; the empty string hashes to 0. */
  function StringHashCode(s: string): (h: int)
    ensures IsInt32(h)
  {
    if s == [] then 0
    else ToInt32(31 * StringHashCode(s[..|s| - 1]) + s[|s| - 1] as int)
  }

  /** The documented value of String.hashCode() before truncation:
      s[0]*31^(n-1) + s[1]*31^(n-2) + ... + s[n-1]. */
  function HashPolynomial(s: string): int {
    if s == [] then 0 else 31 * HashPolynomial(s[..|s| - 1]) + s[|s| - 1] as int
  }

  lemma {:induction false} ToInt32Shift(x: int, k: int)
    ensures ToInt32(x + k * TwoTo32) == ToInt32(x)
  {
    assert (x + k * TwoTo32) % TwoTo32 == x % TwoTo32;
  }

  /** Truncating after every step is the same as truncating once at the
      end, which is what makes the step-wise loop equal the documented formula. */
  lemma {:induction false} ToInt32Step(x: int, c: int)
    ensures ToInt32(31 * ToInt32(x) + c) == ToInt32(31 * x + c)
  {
    var r := ToInt32(x);
    var q := (x - r) / TwoTo32;
    assert x - r == q * TwoTo32;
    assert 31 * x + c == (31 * r + c) + (31 * q) * TwoTo32;
    ToInt32Shift(31 * r + c, 31 * q);
  }

  /** String.hashCode() is the documented polynomial, taken as a Java int. */
  lemma {:induction false} StringHashCodeIsPolynomial(s: string)
    ensures StringHashCode(s) == ToInt32(HashPolynomial(s))
  {
    if s != [] {
      var p := s[..|s| - 1];
      var c := s[|s| - 1] as int;
      StringHashCodeIsPolynomial(p);
      ToInt32Step(HashPolynomial(p), c);
    }
  }
}

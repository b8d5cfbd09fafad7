/**
 * The parts of JavaScript's standard library that the echo app's helpers
 * rely on: Array.prototype.filter / map / findIndex / indexOf / find / reverse,
 * String.prototype.substring with its argument clamping, the decimal text a
 * template literal gives a whole number, and the TypedArray constructor over
 * an ArrayBuffer with its RangeError cases.
 */
module JsBuiltins {

  datatype Option<T> = None | Some(value: T)

  // ---------------------------------------------------------------------------
  // Arrays
  // ---------------------------------------------------------------------------

  /** `s` can be obtained from `t` by deleting elements, keeping the order. */
  predicate IsSubsequence<T(==)>(s: seq<T>, t: seq<T>)
    decreases |t|
  {
    if s == [] then true
    else if t == [] then false
    else if s[0] == t[0] then IsSubsequence(s[1..], t[1..])
    else IsSubsequence(s, t[1..])
  }

  /**
   * `s.filter(p)`: the elements satisfying `p`, each kept as often as it
   * occurs, in their original order.
   */
  function Filter<T(==,!new)>(p: T -> bool, s: seq<T>): (r: seq<T>)
    ensures |r| <= |s|
    ensures forall x :: multiset(r)[x] == if p(x) then multiset(s)[x] else 0
    ensures forall x :: x in r <==> x in s && p(x)
    ensures IsSubsequence(r, s)
  {
    if s == [] then []
    else
      assert s == [s[0]] + s[1..];
      var rest := Filter(p, s[1..]);
      if p(s[0]) then
        assert ([s[0]] + rest)[1..] == rest;
        [s[0]] + rest
      else
        assert rest != [] ==> rest[0] in rest && rest[0] != s[0];
        rest
  }

  /** Filtering with a predicate every element satisfies gives the array back. */
  lemma {:induction false} FilterKeepsAll<T(!new)>(p: T -> bool, s: seq<T>)
    requires forall x :: x in s ==> p(x)
    ensures Filter(p, s) == s
  {
    if s != [] {
      assert s[0] in s;
      assert forall x :: x in s[1..] ==> x in s;
      FilterKeepsAll(p, s[1..]);
      assert s == [s[0]] + s[1..];
    }
  }

  /** `s.map(f)`. */
  function Map<A, B>(f: A -> B, s: seq<A>): (r: seq<B>)
    ensures |r| == |s|
    ensures forall i :: 0 <= i < |s| ==> r[i] == f(s[i])
  {
    seq(|s|, i requires 0 <= i < |s| => f(s[i]))
  }

  /** `s.findIndex(p)`: the first index whose element satisfies `p`, or -1. */
  function FindIndex<T>(s: seq<T>, p: T -> bool): (i: int)
    ensures -1 <= i < |s|
    ensures 0 <= i ==> p(s[i]) && forall j :: 0 <= j < i ==> !p(s[j])
    ensures i == -1 <==> forall j :: 0 <= j < |s| ==> !p(s[j])
  {
    if s == [] then -1
    else if p(s[0]) then 0
    else
      var k := FindIndex(s[1..], p);
      if k == -1 then -1 else k + 1
  }

  /** `s.indexOf(x)` (strict equality): -1 exactly when `x` does not occur. */
  function IndexOf<T(==)>(s: seq<T>, x: T): (i: int)
    ensures -1 <= i < |s|
    ensures i != -1 <==> x in s
    ensures 0 <= i ==> s[i] == x && x !in s[..i]
  {
    FindIndex(s, y => y == x)
  }

  /** `s.find(p)`: the first element satisfying `p`, or undefined. */
  function Find<T>(s: seq<T>, p: T -> bool): (r: Option<T>)
    ensures r.None? <==> forall j :: 0 <= j < |s| ==> !p(s[j])
    ensures r.Some? ==> p(r.value)
    ensures r.Some? ==> exists i :: 0 <= i < |s| && s[i] == r.value && forall j :: 0 <= j < i ==> !p(s[j])
  {
    var i := FindIndex(s, p);
    if i == -1 then None else Some(s[i])
  }

  /** `Array.from(Array(n).keys())`: the indices 0, 1, ..., n - 1. */
  function Keys(n: nat): (r: seq<nat>)
    ensures |r| == n
    ensures forall i :: 0 <= i < n ==> r[i] == i
  {
    seq(n, i => i)
  }

  /** `s.reverse()` (on a fresh array, so only its result matters). */
  function Reverse<T>(s: seq<T>): (r: seq<T>)
    ensures |r| == |s|
    ensures forall i :: 0 <= i < |s| ==> r[i] == s[|s| - 1 - i]
  {
    if s == [] then [] else Reverse(s[1..]) + [s[0]]
  }

  // ---------------------------------------------------------------------------
  // Strict equality
  // ---------------------------------------------------------------------------

  /** The JavaScript values the core compares: undefined, numbers and objects of kind `R`. */
  datatype JsValue<R> = Undefined | Number(n: int) | Object(obj: R)

  /**
   * `a === b`: values of different types are never strictly equal; numbers
   * compare by value. Object identity is modelled as equality of the object.
   */
  function StrictEquals<R(==)>(a: JsValue<R>, b: JsValue<R>): (r: bool)
    ensures a.Number? && b.Number? ==> (r <==> a.n == b.n)
    ensures a.Number? != b.Number? ==> !r
    ensures a.Undefined? != b.Undefined? ==> !r
  {
    match (a, b)
    case (Undefined, Undefined) => true
    case (Number(x), Number(y)) => x == y
    case (Object(x), Object(y)) => x == y
    case _ => false
  }

  // ---------------------------------------------------------------------------
  // Strings
  // ---------------------------------------------------------------------------

  /** How `substring` clamps an integer argument into `0..n`. */
  function Clamp(i: int, n: nat): (c: nat)
    ensures c <= n
    ensures i <= 0 ==> c == 0
    ensures n <= i ==> c == n
    ensures 0 <= i <= n ==> c == i
  {
    if i < 0 then 0 else if i > n then n else i
  }

  /**
   * `s.substring(start, end)` for integer arguments: both are clamped into
   * `0..|s|`, and swapped when the first exceeds the second.
   */
  function Substring(s: string, start: int, end: int): (r: string)
    ensures 0 <= start <= end <= |s| ==> r == s[start..end]
    ensures |r| == if Clamp(start, |s|) <= Clamp(end, |s|)
                   then Clamp(end, |s|) - Clamp(start, |s|)
                   else Clamp(start, |s|) - Clamp(end, |s|)
  {
    var a, b := Clamp(start, |s|), Clamp(end, |s|);
    if a <= b then s[a..b] else s[b..a]
  }

  predicate IsDigit(c: char) {
    '0' <= c <= '9'
  }

  predicate AllDigits(s: string) {
    forall k :: 0 <= k < |s| ==> IsDigit(s[k])
  }

  function DigitChar(d: nat): (c: char)
    requires d < 10
    ensures IsDigit(c)
  {
    (('0' as int) + d) as char
  }

  function DigitValue(c: char): (d: nat)
    requires IsDigit(c)
    ensures d < 10
  {
    (c as int) - ('0' as int)
  }

  /**
   * `${n}` for a whole number `0 <= n < 10^21`: its decimal digits, no
   * leading zero. (JavaScript writes larger numbers in exponent form, and
   * numbers above 2^53 are not all exact; neither is modelled.)
   */
  function DecimalString(n: nat): (s: string)
    ensures |s| >= 1
    ensures AllDigits(s)
    ensures |s| > 1 ==> s[0] != '0'
  {
    if n < 10 then [DigitChar(n)] else DecimalString(n / 10) + [DigitChar(n % 10)]
  }

  /** The number a string of decimal digits denotes (the empty string denotes 0). */
  function DecimalValue(s: string): nat
    requires AllDigits(s)
  {
    if s == [] then 0 else DecimalValue(s[..|s| - 1]) * 10 + DigitValue(s[|s| - 1])
  }

  /** The longest prefix of `s` made of decimal digits. */
  function DigitPrefix(s: string): (p: string)
    ensures AllDigits(p)
    ensures |p| <= |s| && p == s[..|p|]
    ensures |p| < |s| ==> !IsDigit(s[|p|])
  {
    if s != [] && IsDigit(s[0]) then [s[0]] + DigitPrefix(s[1..]) else []
  }

  /** The number a label starts with, read as a person would read "16 bits". */
  function LeadingNumber(s: string): nat {
    DecimalValue(DigitPrefix(s))
  }

  lemma {:induction false} DecimalStringValue(n: nat)
    ensures DecimalValue(DecimalString(n)) == n
  {
    var s := DecimalString(n);
    if n >= 10 {
      DecimalStringValue(n / 10);
      assert s[..|s| - 1] == DecimalString(n / 10);
    }
  }

  lemma {:induction false} DigitPrefixOfDigits(d: string, rest: string)
    requires AllDigits(d)
    requires rest == [] || !IsDigit(rest[0])
    ensures DigitPrefix(d + rest) == d
  {
    if d != [] {
      assert (d + rest)[1..] == d[1..] + rest;
      DigitPrefixOfDigits(d[1..], rest);
    }
  }

  /**
   * A label made of `${n}` followed by a non-digit (or nothing) is read back
   * as `n`.
   */
  lemma LeadingNumberOfDecimal(n: nat, rest: string)
    requires rest == [] || !IsDigit(rest[0])
    ensures LeadingNumber(DecimalString(n) + rest) == n
  {
    DigitPrefixOfDigits(DecimalString(n), rest);
    DecimalStringValue(n);
  }

  /** `s` starts with the decimal digits of `n`, followed by a non-digit. */
  predicate StartsWithNumber(s: string, n: nat) {
    var d := DecimalString(n);
    |d| < |s| && s[..|d|] == d && !IsDigit(s[|d|])
  }

  /** Such a string reads as `n`. */
  lemma LeadingNumberOfLabel(s: string, n: nat)
    requires StartsWithNumber(s, n)
    ensures LeadingNumber(s) == n
  {
    var d := DecimalString(n);
    assert s == d + s[|d|..];
    LeadingNumberOfDecimal(n, s[|d|..]);
  }

  // ---------------------------------------------------------------------------
  // Typed arrays
  // ---------------------------------------------------------------------------

  /** A typed-array view: `length` elements of `elementSize` bytes from `byteOffset`. */
  datatype TypedArray = TypedArray(elementSize: nat, byteOffset: nat, length: nat)

  datatype Construction = Constructed(view: TypedArray) | RangeError

  /**
   * `new XArray(arrayBuffer, byteOffset, length)`, where X has elements of
   * `elementSize` bytes and `length` is already a whole number (a fractional
   * length is truncated by the constructor). The ECMAScript constructor
   * throws a RangeError when the offset is not a multiple of the element size
   * or when the view would reach past the end of the buffer.
   */
  function NewTypedArray(elementSize: nat, bufferByteLength: nat, byteOffset: nat, length: nat): (r: Construction)
    requires elementSize > 0
    ensures r.Constructed? <==>
      byteOffset % elementSize == 0 && byteOffset + length * elementSize <= bufferByteLength
    ensures r.Constructed? ==> r.view == TypedArray(elementSize, byteOffset, length)
  {
    if byteOffset % elementSize != 0 then RangeError
    else if byteOffset + length * elementSize > bufferByteLength then RangeError
    else Constructed(TypedArray(elementSize, byteOffset, length))
  }
}

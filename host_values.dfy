/**
 * Values that cross the host/platform boundary, and the casts the Kotlin and
 * Swift code applies to them.
 *
 * A host dictionary arrives as a map from string keys to tagged values. On
 * Android the message codec hands over an integer as a 32-bit `Int` when it
 * fits and as a 64-bit `Long` otherwise; on iOS every number is an NSNumber.
 * Floating-point numbers are kept opaque (see `Float`).
 */
module HostValues {

  const INT32_MIN: int := -0x8000_0000
  const INT32_MAX: int := 0x7FFF_FFFF
  const INT64_MIN: int := -0x8000_0000_0000_0000
  const INT64_MAX: int := 0x7FFF_FFFF_FFFF_FFFF

  type Int32 = x: int | INT32_MIN <= x <= INT32_MAX
  type Int64 = x: int | INT64_MIN <= x <= INT64_MAX

  /** A floating-point value described symbolically: the IEEE-754 bits the host
      sent, the conversion of an integer, or a value divided by 1000. No
      floating-point arithmetic is interpreted. */
  datatype Float = Bits(bits: bv64) | OfInt(n: Int64) | Thousandth(of: Float)

  const ZERO: Float := Bits(0)

  /** `isInfinite || isNaN`: the exponent field is all ones. An integer
      converts to a finite value, and dividing by 1000 keeps a finite value
      finite and an infinite or NaN value infinite or NaN. */
  predicate IsInfiniteOrNaN(f: Float) {
    match f
    case Bits(b) => (b >> 52) & 0x7FF == 0x7FF
    case OfInt(_) => false
    case Thousandth(x) => IsInfiniteOrNaN(x)
  }

  datatype Value =
    | Null
    | Bool(b: bool)
    | Int(i: Int32)
    | Long(l: Int64)
    | Double(d: Float)
    | Str(s: string)
    | List(elems: seq<Value>)
    | Map(entries: map<string, Value>)

  type Dict = map<string, Value>

  /** The tag the codec gives a 64-bit integer on its way to the platform. */
  function Integer(n: Int64): (v: Value)
    ensures v.Int? <==> INT32_MIN <= n <= INT32_MAX
    ensures v.Int? ==> v.i == n
    ensures v.Long? ==> v.l == n
  {
    if INT32_MIN <= n <= INT32_MAX then Int(n) else Long(n)
  }

  /** `map[key]` on a Kotlin map and `dict[key]` on a Swift dictionary: an
      absent key reads as null. */
  function Get(d: Dict, key: string): Value {
    if key in d then d[key] else Null
  }

  datatype Option<+T> = None | Some(value: T) {
    function GetOr(default: T): T {
      match this
      case Some(v) => v
      case None => default
    }
  }

  /** The outcome of Kotlin code that may throw (a failed cast). */
  datatype Result<+T> = Ok(value: T) | Thrown {
    predicate IsFailure() { Thrown? }
    function PropagateFailure<U>(): Result<U> requires Thrown? { Thrown }
    function Extract(): T requires Ok? { value }
    function ToOption(): Option<T> {
      match this
      case Ok(v) => Some(v)
      case Thrown => None
    }
  }

  /** Two's-complement wrap-around of a 32-bit Kotlin `Int` result. */
  function Wrap32(x: int): (r: Int32)
    ensures (r - x) % 0x1_0000_0000 == 0
    ensures INT32_MIN <= x <= INT32_MAX ==> r == x
  {
    var m := (x - INT32_MIN) % 0x1_0000_0000;
    m + INT32_MIN
  }

  /** A nullable string put into a host map: a Kotlin `null`, or a Swift
      nil kept in a dictionary of optional values, reaches the host as
      null. */
  function NullableString(o: Option<string>): (v: Value)
    ensures v == Null <==> o.None?
    ensures o.Some? ==> v == Str(o.value)
  {
    if o.Some? then Str(o.value) else Null
  }

  /** A boxed number unboxed to a 64-bit `Long` with `Number.toLong()`: an
      integer keeps its value, a double is truncated by the JVM's rules,
      which this model leaves uninterpreted. */
  datatype LongValue = Exact(n: Int64) | Truncated(d: Float)

  function NumberToLong(v: Value): Result<LongValue> {
    match v
    case Int(i) => Ok(Exact(i))
    case Long(l) => Ok(Exact(l))
    case Double(d) => Ok(Truncated(d))
    case _ => Thrown
  }

  /** Unboxing every element of a list of numbers, in order; any element that
      is not a number throws. */
  function NumbersToLongs(xs: seq<Value>): (r: Result<seq<LongValue>>)
    ensures r.Ok? <==> forall i :: 0 <= i < |xs| ==> NumberToLong(xs[i]).Ok?
    ensures r.Ok? ==> |r.value| == |xs| && forall i :: 0 <= i < |xs| ==> r.value[i] == NumberToLong(xs[i]).value
  {
    if xs == [] then Ok([])
    else
      var head :- NumberToLong(xs[0]);
      var tail :- NumbersToLongs(xs[1..]);
      Ok([head] + tail)
  }

  /** `(seconds * 1000).toLong()` on a Kotlin `Int`: the product is taken in
      32 bits and only then widened, so it is exact only up to 2147483
      seconds either way. */
  function IntSecondsToMillis(seconds: Int32): (ms: Int64)
    ensures INT32_MIN <= ms <= INT32_MAX
    ensures (ms - seconds * 1000) % 0x1_0000_0000 == 0
    ensures -2147483 <= seconds <= 2147483 ==> ms == seconds * 1000
  {
    Wrap32(seconds * 1000)
  }

  /** Just past the exact range the product wraps to a negative number of
      milliseconds. */
  lemma MillisWrapAround()
    ensures IntSecondsToMillis(2147483) == 2147483000
    ensures IntSecondsToMillis(2147484) == -2147483296
    ensures IntSecondsToMillis(-2147484) == 2147483296
  {
  }

  // ---- Kotlin casts: `v as T` throws unless v is a T; `v as T?` also accepts null.

  function AsInt(v: Value): Result<Int32> {
    if v.Int? then Ok(v.i) else Thrown
  }

  function AsIntOrNull(v: Value): Result<Option<Int32>> {
    match v
    case Null => Ok(None)
    case Int(i) => Ok(Some(i))
    case _ => Thrown
  }

  function AsLong(v: Value): Result<Int64> {
    if v.Long? then Ok(v.l) else Thrown
  }

  function AsBoolean(v: Value): Result<bool> {
    if v.Bool? then Ok(v.b) else Thrown
  }

  function AsBooleanOrNull(v: Value): Result<Option<bool>> {
    match v
    case Null => Ok(None)
    case Bool(b) => Ok(Some(b))
    case _ => Thrown
  }

  function AsDouble(v: Value): Result<Float> {
    if v.Double? then Ok(v.d) else Thrown
  }

  function AsString(v: Value): Result<string> {
    if v.Str? then Ok(v.s) else Thrown
  }

  function AsStringOrNull(v: Value): Result<Option<string>> {
    match v
    case Null => Ok(None)
    case Str(s) => Ok(Some(s))
    case _ => Thrown
  }

  function AsMap(v: Value): Result<Dict> {
    if v.Map? then Ok(v.entries) else Thrown
  }

  function AsMapOrNull(v: Value): Result<Option<Dict>> {
    match v
    case Null => Ok(None)
    case Map(m) => Ok(Some(m))
    case _ => Thrown
  }

  function AsListOrNull(v: Value): Result<Option<seq<Value>>> {
    match v
    case Null => Ok(None)
    case List(xs) => Ok(Some(xs))
    case _ => Thrown
  }

  /** Using an element of an erased `List<Map<String, Any?>>` as a map casts it. */
  function AsMaps(xs: seq<Value>): (r: Result<seq<Dict>>)
    ensures r.Ok? <==> forall i :: 0 <= i < |xs| ==> xs[i].Map?
    ensures r.Ok? ==> |r.value| == |xs| && forall i :: 0 <= i < |xs| ==> r.value[i] == xs[i].entries
  {
    if xs == [] then Ok([])
    else
      var head :- AsMap(xs[0]);
      var tail :- AsMaps(xs[1..]);
      Ok([head] + tail)
  }

  // ---- Swift conditional casts `v as? T`. Every number the host sends is an
  // NSNumber, and a cast to a Swift number type succeeds when the value
  // converts to that type exactly.

  function Pow2(n: nat): (p: nat)
    ensures p >= 1
  {
    if n == 0 then 1 else 2 * Pow2(n - 1)
  }

  /** The integer an IEEE-754 double bit pattern denotes, when it denotes
      one: zero, or a normal number with no fractional bits. Infinities,
      NaNs and the nonzero subnormals (all strictly between -1 and 1) do
      not. */
  function IntegralValue(b: bv64): Option<int> {
    var e := ((b >> 52) & 0x7FF) as int;
    var significand := (b & 0xF_FFFF_FFFF_FFFF) as int + 0x10_0000_0000_0000;
    var sign := if b >> 63 == 1 then -1 else 1;
    if e == 0x7FF then None
    else if e == 0 then (if b & 0x7FFF_FFFF_FFFF_FFFF == 0 then Some(0) else None)
    else if e >= 1075 then Some(sign * significand * Pow2(e - 1075))
    else if significand % Pow2(1075 - e) == 0 then Some(sign * (significand / Pow2(1075 - e)))
    else None
  }

  /** Whether the integer `n` has an exact double representation: at most
      53 significant bits. */
  predicate ExactInDouble(n: int)
    decreases if n < 0 then -n else n
  {
    (-0x20_0000_0000_0000 <= n <= 0x20_0000_0000_0000) || (n % 2 == 0 && ExactInDouble(n / 2))
  }

  /** `as? Int`: an integer, or a double the host sent that is a whole
      number within 64 bits. */
  function SwiftInt(v: Value): (r: Option<Int64>)
    ensures (v.Int? || v.Long?) ==> r.Some?
    ensures v.Int? ==> r == Some(v.i)
    ensures v.Long? ==> r == Some(v.l)
    ensures r.Some? ==> v.Int? || v.Long? || v.Double?
  {
    match v
    case Int(i) => Some(i)
    case Long(l) => Some(l)
    case Double(Bits(b)) =>
      var n := IntegralValue(b);
      if n.Some? && INT64_MIN <= n.value <= INT64_MAX then Some(n.value) else None
    case _ => None
  }

  /** `as? UInt`: a non-negative whole number within 64 unsigned bits, or
      a boolean `NSNumber`, which bridges to 1 or 0. */
  function SwiftUInt(v: Value): (r: Option<nat>)
    ensures v.Int? ==> (r.Some? <==> v.i >= 0) && (r.Some? ==> r.value == v.i)
    ensures v.Long? ==> (r.Some? <==> v.l >= 0) && (r.Some? ==> r.value == v.l)
    ensures v.Bool? ==> r == Some(if v.b then 1 else 0)
    ensures r.Some? ==> v.Int? || v.Long? || v.Double? || v.Bool?
  {
    match v
    case Bool(b) => Some(if b then 1 else 0)
    case Int(i) => if i >= 0 then Some(i) else None
    case Long(l) => if l >= 0 then Some(l) else None
    case Double(Bits(b)) =>
      var n := IntegralValue(b);
      if n.Some? && 0 <= n.value < 0x1_0000_0000_0000_0000 then Some(n.value) else None
    case _ => None
  }

  /** `as? Double` (also `as? TimeInterval`): a double, or an integer with
      an exact double representation. */
  function SwiftDouble(v: Value): (r: Option<Float>)
    ensures v.Double? ==> r == Some(v.d)
    ensures v.Int? ==> r == Some(OfInt(v.i))
    ensures v.Long? ==> (r.Some? <==> ExactInDouble(v.l)) && (r.Some? ==> r.value == OfInt(v.l))
    ensures r.Some? ==> v.Int? || v.Long? || v.Double?
  {
    match v
    case Double(d) => Some(d)
    case Int(i) => Some(OfInt(i))
    case Long(l) => if ExactInDouble(l) then Some(OfInt(l)) else None
    case _ => None
  }

  /** `as? NSNumber` followed by `doubleValue`: every number, and a boolean,
      which the codec also hands over as an NSNumber. */
  function NumberDoubleValue(v: Value): (r: Option<Float>)
    ensures r.Some? <==> v.Int? || v.Long? || v.Double? || v.Bool?
  {
    match v
    case Double(d) => Some(d)
    case Int(i) => Some(OfInt(i))
    case Long(l) => Some(OfInt(l))
    case Bool(b) => Some(OfInt(if b then 1 else 0))
    case _ => None
  }

  function SwiftBool(v: Value): Option<bool> {
    if v.Bool? then Some(v.b) else None
  }

  function SwiftString(v: Value): Option<string> {
    if v.Str? then Some(v.s) else None
  }

  function SwiftDictionary(v: Value): Option<Dict> {
    if v.Map? then Some(v.entries) else None
  }

  /** `dict[key] = v` on a Swift dictionary: assigning nil removes the key. */
  function SwiftAssign(d: Dict, key: string, v: Option<Value>): Dict {
    if v.Some? then d[key := v.value] else d - {key}
  }

  /** Assigning one key leaves every other present key as it was. */
  lemma AssignKeepsOther(d: Dict, key: string, v: Option<Value>, other: string)
    requires other in d && other != key
    ensures other in SwiftAssign(d, key, v) && SwiftAssign(d, key, v)[other] == d[other]
  {
  }

  /** A Swift optional string stored into a dictionary: nil leaves the key
      out. */
  function OptionalStr(o: Option<string>): (v: Option<Value>)
    ensures v.Some? <==> o.Some?
    ensures o.Some? ==> v.value == Str(o.value)
  {
    if o.Some? then Some(Str(o.value)) else None
  }

  /** A Swift optional double stored into a dictionary whose values are
      themselves optional: nil is kept, and reaches the host as null. */
  function NullableDouble(o: Option<Float>): (v: Value)
    ensures v == Null <==> o.None?
    ensures o.Some? ==> v == Double(o.value)
  {
    if o.Some? then Double(o.value) else Null
  }

  /** A whole double is an `Int`: 3.0 casts to 3. */
  lemma WholeDoubleIsInt()
    ensures SwiftInt(Double(Bits(0x4008_0000_0000_0000))) == Some(3)
  {
    var b: bv64 := 0x4008_0000_0000_0000;
    assert ((b >> 52) & 0x7FF) as int == 1024;
    assert (b & 0xF_FFFF_FFFF_FFFF) as int == 0x8_0000_0000_0000;
    assert b >> 63 == 0;
    Pow2Of51();
    assert IntegralValue(b) == Some(3);
  }

  /** A fraction is not an `Int`: 3.5 does not cast. */
  lemma FractionIsNotInt()
    ensures SwiftInt(Double(Bits(0x400C_0000_0000_0000))) == None
  {
    var b: bv64 := 0x400C_0000_0000_0000;
    assert ((b >> 52) & 0x7FF) as int == 1024;
    assert (b & 0xF_FFFF_FFFF_FFFF) as int == 0xC_0000_0000_0000;
    Pow2Of51();
    assert IntegralValue(b) == None;
  }

  /** Neither is an infinity. */
  lemma InfinityIsNotInt()
    ensures SwiftInt(Double(Bits(0x7FF0_0000_0000_0000))) == None
  {
    var b: bv64 := 0x7FF0_0000_0000_0000;
    assert ((b >> 52) & 0x7FF) as int == 0x7FF;
  }

  lemma Pow2Of51()
    ensures Pow2(51) == 0x8_0000_0000_0000
  {
    assert Pow2(3) == 8 by {
      assert Pow2(1) == 2;
      assert Pow2(2) == 4;
    }
    Pow2Add(1, 3);
    assert Pow2(4) == 16;
    Pow2Add(4, 4);
    assert Pow2(8) == 0x100;
    Pow2Add(8, 8);
    assert Pow2(16) == 0x1_0000;
    Pow2Add(16, 16);
    assert Pow2(32) == 0x1_0000_0000;
    Pow2Add(32, 16);
    assert Pow2(48) == 0x1_0000_0000_0000;
    Pow2Add(48, 3);
  }

  /** An integer is a `Double` when it has an exact representation:
      every 32-bit integer and 2^54 do, 2^53 + 1 does not. */
  lemma IntToDoubleBridging()
    ensures SwiftDouble(Int(3)) == Some(OfInt(3))
    ensures SwiftDouble(Long(0x20_0000_0000_0001)) == None
    ensures SwiftDouble(Long(0x40_0000_0000_0000)) == Some(OfInt(0x40_0000_0000_0000))
  {
  }

  lemma {:induction false} Pow2Add(a: nat, b: nat)
    ensures Pow2(a + b) == Pow2(a) * Pow2(b)
  {
    if a > 0 {
      Pow2Add(a - 1, b);
    }
  }

  /** `as? [Dictionary<String, Any>]`: the array cast succeeds only when every
      element is a dictionary. */
  function SwiftDictionaries(v: Value): (r: Option<seq<Dict>>)
    ensures r.Some? <==> v.List? && forall i :: 0 <= i < |v.elems| ==> v.elems[i].Map?
    ensures r.Some? ==> |r.value| == |v.elems| && forall i :: 0 <= i < |r.value| ==> r.value[i] == v.elems[i].entries
  {
    if v.List? then AsMaps(v.elems).ToOption() else None
  }

  /** Foundation's `URL(string:)`, which this model does not reimplement: any
      check that rejects the empty string. */
  type UrlCheck = f: string -> bool | !f("") witness RejectAll

  function RejectAll(s: string): bool { false }
}

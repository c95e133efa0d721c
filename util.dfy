/** Validators and converters of the rover API: range checks, fixed-width
    integer-to-byte encoders and the string coercions used on the input that
    arrives from the HTTP layer.
 */
module Util {
  import opened Common

  /** A dynamically typed Python value as it travels through a circuit. */
  datatype Value = NoneV | Bool(b: bool) | Int(i: int) | Str(s: string)

  /** The Python name of a value's type, as `type(value).__name__` gives it. */
  function TypeName(v: Value): string {
    match v
    case NoneV => "NoneType"
    case Bool(_) => "bool"
    case Int(_) => "int"
    case Str(_) => "str"
  }

  /** Python truthiness: `None`, `False`, `0` and `''` are false. */
  predicate Truthy(v: Value)
    ensures !Truthy(v) <==> v in {NoneV, Bool(false), Int(0), Str("")}
  {
    match v
    case NoneV => false
    case Bool(b) => b
    case Int(i) => i != 0
    case Str(s) => s != ""
  }

  /** `assert_in_range`: fails exactly when `value` lies outside [start, end]. */
  function AssertInRange(value: int, start: int, end: int): (o: Outcome)
    ensures o.Pass? <==> start <= value <= end
    ensures o.Fail? ==> o.error == XMValueError(OutOfRange(value, start, end))
  {
    if !(start <= value <= end) then Fail(XMValueError(OutOfRange(value, start, end))) else Pass
  }

  /** `assert_uint8` on a value already known to be an integer. */
  function AssertUint8(value: int): (o: Outcome)
    ensures o.Pass? <==> 0 <= value < 256
    ensures o.Fail? ==> o.error.XMValueError?
  {
    AssertInRange(value, 0, 0xFF)
  }

  /** `assert_uint16` on a value already known to be an integer. */
  function AssertUint16(value: int): (o: Outcome)
    ensures o.Pass? <==> 0 <= value < 65536
    ensures o.Fail? ==> o.error.XMValueError?
  {
    AssertInRange(value, 0, 0xFFFF)
  }

  /** `assert_int`: Python's `isinstance(value, int)`, which a `bool` passes too. */
  function AssertInt(v: Value): (o: Outcome)
    ensures o.Pass? <==> v.Int? || v.Bool?
    ensures o.Fail? ==> o.error == XMValueError(WrongType("int", TypeName(v)))
  {
    match v
    case Int(_) => Pass
    case Bool(_) => Pass
    case _ => Fail(XMValueError(WrongType("int", TypeName(v))))
  }

  /** The integer a value that passed `assert_int` stands for (`True` is 1). */
  function IntOf(v: Value): int
    requires v.Int? || v.Bool?
  {
    if v.Int? then v.i else if v.b then 1 else 0
  }

  /** Reading one byte as a signed two's-complement integer. */
  function Int8Of(b: byte): (i: int)
    ensures -128 <= i < 128
  {
    if b < 0x80 then b as int else b as int - 256
  }

  /** `int8_to_byte`: `i.to_bytes(1, 'little', signed=True)`. */
  function Int8ToByte(i: int): (r: Result<seq<byte>>)
    ensures r.Ok? <==> -128 <= i < 128
    ensures r.Ok? ==> |r.value| == 1 && Int8Of(r.value[0]) == i
    ensures r.Err? ==> r.error == OverflowError
  {
    if -128 <= i < 128 then Ok([(if i < 0 then i + 256 else i) as byte]) else Err(OverflowError)
  }

  /** Every byte is the encoding of exactly one value in -128..127. */
  lemma Int8RoundTrip(b: byte)
    ensures Int8ToByte(Int8Of(b)) == Ok([b])
  {
  }

  /** `uint8_to_byte`: `i.to_bytes(1, 'little', signed=False)`. */
  function Uint8ToByte(i: int): (r: Result<seq<byte>>)
    ensures r.Ok? <==> 0 <= i < 256
    ensures r.Ok? ==> |r.value| == 1 && r.value[0] as int == i
    ensures r.Err? ==> r.error == OverflowError
  {
    if 0 <= i < 256 then Ok([i as byte]) else Err(OverflowError)
  }

  /** `uint16_to_bytes`: `struct.pack('!H', value)`, which is big-endian
      (network order): the most significant byte comes first. */
  function Uint16ToBytes(value: int): (r: Result<seq<byte>>)
    ensures r.Ok? <==> 0 <= value < 65536
    ensures r.Ok? ==> |r.value| == 2 && 256 * (r.value[0] as int) + r.value[1] as int == value
    ensures r.Err? ==> r.error == StructError
  {
    if 0 <= value < 65536 then Ok([(value / 256) as byte, (value % 256) as byte]) else Err(StructError)
  }

  /** The encoding is not the little-endian one the documentation mentions. */
  lemma Uint16IsBigEndian()
    ensures Uint16ToBytes(1) == Ok([0x00, 0x01])
    ensures Uint16ToBytes(0x1234) == Ok([0x12, 0x34])
  {
  }

  // ---------------------------------------------------------------------
  // Strings. Lower-casing is ASCII only, and an integer literal is an
  // optional sign followed by decimal digits.

  function LowerChar(c: char): char {
    if 'A' <= c <= 'Z' then (c as int + 32) as char else c
  }

  /** `str.lower()` restricted to ASCII letters. */
  function Lower(s: string): (r: string)
    ensures |r| == |s|
    ensures forall i :: 0 <= i < |s| ==> r[i] == LowerChar(s[i])
    ensures forall i :: 0 <= i < |r| ==> !('A' <= r[i] <= 'Z')
  {
    seq(|s|, i requires 0 <= i < |s| => LowerChar(s[i]))
  }

  lemma LowerIdempotent(s: string)
    ensures Lower(Lower(s)) == Lower(s)
  {
  }

  predicate IsDigit(c: char) {
    '0' <= c <= '9'
  }

  predicate AllDigits(s: string) {
    forall i :: 0 <= i < |s| ==> IsDigit(s[i])
  }

  predicate IsDecimal(s: string) {
    |s| > 0 && AllDigits(s)
  }

  /** The strings `int()` accepts in this model: `[+-]?[0-9]+`. */
  predicate IsIntLiteral(s: string) {
    IsDecimal(s) || (|s| > 1 && (s[0] == '+' || s[0] == '-') && IsDecimal(s[1..]))
  }

  /** The value of a string of decimal digits, most significant first. */
  function DigitsValue(s: string): nat
    requires AllDigits(s)
  {
    if s == [] then 0 else DigitsValue(s[..|s| - 1]) * 10 + (s[|s| - 1] as int - '0' as int)
  }

  /** `str_to_int`: the decimal integer `s` spells, or `XMValueError`. */
  function StrToInt(s: string): (r: Result<int>)
    ensures r.Ok? <==> IsIntLiteral(s)
    ensures r.Err? ==> r.error == XMValueError(Unconvertible)
  {
    if IsDecimal(s) then Ok(DigitsValue(s))
    else if IsIntLiteral(s) then
      if s[0] == '-' then Ok(-(DigitsValue(s[1..]) as int)) else Ok(DigitsValue(s[1..]))
    else Err(XMValueError(Unconvertible))
  }

  function DigitChar(d: nat): char
    requires d < 10
  {
    ('0' as int + d) as char
  }

  /** Python's `str(n)` for a natural number. */
  function NatToStr(n: nat): string
  {
    if n < 10 then [DigitChar(n)] else NatToStr(n / 10) + [DigitChar(n % 10)]
  }

  /** Python's `str(n)`. */
  function IntToStr(n: int): string
  {
    if n < 0 then "-" + NatToStr(-n) else NatToStr(n)
  }

  lemma {:induction false} NatToStrValue(n: nat)
    ensures IsDecimal(NatToStr(n)) && DigitsValue(NatToStr(n)) == n
  {
    if n >= 10 {
      NatToStrValue(n / 10);
      var s := NatToStr(n);
      assert s[..|s| - 1] == NatToStr(n / 10);
    }
  }

  /** Parsing what `str` printed gives the number back. */
  lemma StrToIntRoundTrip(n: int)
    ensures StrToInt(IntToStr(n)) == Ok(n)
  {
    if n < 0 {
      NatToStrValue(-n);
      assert IntToStr(n)[1..] == NatToStr(-n);
    } else {
      NatToStrValue(n);
    }
  }

  predicate NoAsciiLetters(s: string) {
    forall i :: 0 <= i < |s| ==> !('A' <= s[i] <= 'Z') && !('a' <= s[i] <= 'z')
  }

  /** Lower-casing cannot make or unmake an integer literal, and leaves one as it is. */
  lemma LowerIntLiteral(s: string)
    ensures IsIntLiteral(Lower(s)) <==> IsIntLiteral(s)
    ensures IsIntLiteral(s) ==> Lower(s) == s
  {
    var t := Lower(s);
    if IsIntLiteral(s) {
      assert NoAsciiLetters(s) by {
        forall i | 0 <= i < |s| ensures !('A' <= s[i] <= 'Z') && !('a' <= s[i] <= 'z') {
          if i > 0 { assert s[i] == s[1..][i - 1]; }
        }
      }
    }
    if IsIntLiteral(t) {
      assert NoAsciiLetters(t) by {
        forall i | 0 <= i < |t| ensures !('A' <= t[i] <= 'Z') && !('a' <= t[i] <= 'z') {
          if i > 0 { assert t[i] == t[1..][i - 1]; }
        }
      }
      assert NoAsciiLetters(s);
    }
    if NoAsciiLetters(s) {
      assert t == s;
    }
  }

  /** `str_to_bool`: after lower-casing, "true" and "false" are the two truth
      values, an integer literal is true exactly when it is not zero, and
      every other string raises `XMValueError`. */
  function StrToBool(s: string): (r: Result<bool>)
    ensures r.Ok? <==> Lower(s) == "true" || Lower(s) == "false" || IsIntLiteral(s)
    ensures Lower(s) == "true" ==> r == Ok(true)
    ensures Lower(s) == "false" ==> r == Ok(false)
    ensures IsIntLiteral(s) ==> r == Ok(StrToInt(s).value != 0)
    ensures r.Err? ==> r.error == XMValueError(Unconvertible)
  {
    LowerIntLiteral(s);
    var t := Lower(s);
    if t == "true" then Ok(true)
    else if t == "false" then Ok(false)
    else match StrToInt(t)
      case Ok(i) => Ok(i != 0)
      case Err(_) => Err(XMValueError(Unconvertible))
  }

  /** Whatever number is printed, `str_to_bool` of it is "not zero". */
  lemma StrToBoolOfInt(n: int)
    ensures StrToBool(IntToStr(n)) == Ok(n != 0)
  {
    StrToIntRoundTrip(n);
  }

  /** `str_to_bool` ignores letter case. */
  lemma StrToBoolIgnoresCase(s: string)
    ensures StrToBool(Lower(s)) == StrToBool(s)
  {
    LowerIdempotent(s);
    LowerIntLiteral(s);
    LowerIntLiteral(Lower(s));
  }

  /** `str_to_int(x)` for any value `x`: Python's `int(x)`, with the
      `ValueError` of a string that is not a number turned into `XMValueError`. */
  function CoerceInt(v: Value): (r: Result<int>)
    ensures v.Str? ==> r == StrToInt(v.s)
    ensures (v.Int? || v.Bool?) ==> r == Ok(IntOf(v))
    ensures v.NoneV? ==> r == Err(TypeError)
  {
    match v
    case Str(s) => StrToInt(s)
    case Int(i) => Ok(i)
    case Bool(b) => Ok(if b then 1 else 0)
    case NoneV => Err(TypeError)
  }

  /** `str_to_bool(x)` for any value `x`: only strings have `.lower()`. */
  function CoerceBool(v: Value): (r: Result<bool>)
    ensures v.Str? ==> r == StrToBool(v.s)
    ensures !v.Str? ==> r == Err(AttributeError)
  {
    match v
    case Str(s) => StrToBool(s)
    case _ => Err(AttributeError)
  }
}

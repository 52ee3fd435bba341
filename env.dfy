/** The environment loaders of configura (env.go): one function per value
    kind. Each looks the key up in the environment and, when the variable is
    present and its text parses as the kind, returns the parsed value;
    otherwise, absent or malformed alike, it returns the caller's fallback. No
    loader reports an error. The process environment that os.LookupEnv reads
    is an explicit parameter here. */
module Env {
  import opened Wrappers
  import opened GoTypes
  import opened StrConv
  import Utf8

  /** The process environment: variable name to value. */
  type Environment = map<string, string>

  /** strconv.ParseFloat at 32 and at 64 bits, which this model does not
      interpret: None stands for a syntax or range error. */
  datatype FloatSyntax = FloatSyntax(parse32: string -> Option<float32>, parse64: string -> Option<float64>)

  /** The variable `key` is set to signed decimal text whose value lies in [lo, hi). */
  predicate HoldsSigned(env: Environment, key: string, lo: int, hi: int)
  {
    key in env && IsSignedDecimal(env[key]) && lo <= SignedDecimalValue(env[key]) < hi
  }

  /** The variable `key` is set to unsigned decimal text whose value is below `hi`. */
  predicate HoldsUnsigned(env: Environment, key: string, hi: int)
  {
    key in env && IsUnsignedDecimal(env[key]) && DecimalValue(env[key]) < hi
  }

  function Bool(env: Environment, key: string, fallback: bool): (r: bool)
    ensures key in env && env[key] in TrueSpellings ==> r
    ensures key in env && env[key] in FalseSpellings ==> !r
    ensures key !in env || env[key] !in TrueSpellings + FalseSpellings ==> r == fallback
  {
    if key in env then
      match ParseBool(env[key])
      case Ok(b) => b
      case Err(_) => fallback
    else fallback
  }

  /** The value itself whenever the variable is set, even to the empty
      string: only absence gives the fallback. */
  function String(env: Environment, key: string, fallback: string): (r: string)
    ensures key in env ==> r == env[key]
    ensures key !in env ==> r == fallback
  {
    if key in env then env[key] else fallback
  }

  function Int(env: Environment, key: string, fallback: goint): (r: goint)
    ensures HoldsSigned(env, key, -0x8000_0000_0000_0000, 0x8000_0000_0000_0000) ==> r == SignedDecimalValue(env[key])
    ensures !HoldsSigned(env, key, -0x8000_0000_0000_0000, 0x8000_0000_0000_0000) ==> r == fallback
  {
    if key in env then
      match Atoi(env[key])
      case Ok(v) => v
      case Err(_) => fallback
    else fallback
  }

  function Int8(env: Environment, key: string, fallback: int8): (r: int8)
    ensures HoldsSigned(env, key, -0x80, 0x80) ==> r == SignedDecimalValue(env[key])
    ensures !HoldsSigned(env, key, -0x80, 0x80) ==> r == fallback
  {
    if key in env then
      match ParseInt(env[key], 8)
      case Ok(v) => v  // int8(vInt) keeps the value: ParseInt checked 8 bits
      case Err(_) => fallback
    else fallback
  }

  function Int16(env: Environment, key: string, fallback: int16): (r: int16)
    ensures HoldsSigned(env, key, -0x8000, 0x8000) ==> r == SignedDecimalValue(env[key])
    ensures !HoldsSigned(env, key, -0x8000, 0x8000) ==> r == fallback
  {
    if key in env then
      match ParseInt(env[key], 16)
      case Ok(v) => v
      case Err(_) => fallback
    else fallback
  }

  function Int32(env: Environment, key: string, fallback: int32): (r: int32)
    ensures HoldsSigned(env, key, -0x8000_0000, 0x8000_0000) ==> r == SignedDecimalValue(env[key])
    ensures !HoldsSigned(env, key, -0x8000_0000, 0x8000_0000) ==> r == fallback
  {
    if key in env then
      match ParseInt(env[key], 32)
      case Ok(v) => v
      case Err(_) => fallback
    else fallback
  }

  function Int64(env: Environment, key: string, fallback: int64): (r: int64)
    ensures HoldsSigned(env, key, -0x8000_0000_0000_0000, 0x8000_0000_0000_0000) ==> r == SignedDecimalValue(env[key])
    ensures !HoldsSigned(env, key, -0x8000_0000_0000_0000, 0x8000_0000_0000_0000) ==> r == fallback
  {
    if key in env then
      match ParseInt(env[key], 64)
      case Ok(v) => v
      case Err(_) => fallback
    else fallback
  }

  /** ParseUint with bit size 0, that is IntSize. */
  function Uint(env: Environment, key: string, fallback: gouint): (r: gouint)
    ensures HoldsUnsigned(env, key, 0x1_0000_0000_0000_0000) ==> r == DecimalValue(env[key])
    ensures !HoldsUnsigned(env, key, 0x1_0000_0000_0000_0000) ==> r == fallback
  {
    if key in env then
      match ParseUint(env[key], 0)
      case Ok(v) => v
      case Err(_) => fallback
    else fallback
  }

  function Uint8(env: Environment, key: string, fallback: uint8): (r: uint8)
    ensures HoldsUnsigned(env, key, 0x100) ==> r == DecimalValue(env[key])
    ensures !HoldsUnsigned(env, key, 0x100) ==> r == fallback
  {
    if key in env then
      match ParseUint(env[key], 8)
      case Ok(v) => v  // uint8(vUint) keeps the value: ParseUint checked 8 bits
      case Err(_) => fallback
    else fallback
  }

  function Uint16(env: Environment, key: string, fallback: uint16): (r: uint16)
    ensures HoldsUnsigned(env, key, 0x1_0000) ==> r == DecimalValue(env[key])
    ensures !HoldsUnsigned(env, key, 0x1_0000) ==> r == fallback
  {
    if key in env then
      match ParseUint(env[key], 16)
      case Ok(v) => v
      case Err(_) => fallback
    else fallback
  }

  function Uint32(env: Environment, key: string, fallback: uint32): (r: uint32)
    ensures HoldsUnsigned(env, key, 0x1_0000_0000) ==> r == DecimalValue(env[key])
    ensures !HoldsUnsigned(env, key, 0x1_0000_0000) ==> r == fallback
  {
    if key in env then
      match ParseUint(env[key], 32)
      case Ok(v) => v
      case Err(_) => fallback
    else fallback
  }

  function Uint64(env: Environment, key: string, fallback: uint64): (r: uint64)
    ensures HoldsUnsigned(env, key, 0x1_0000_0000_0000_0000) ==> r == DecimalValue(env[key])
    ensures !HoldsUnsigned(env, key, 0x1_0000_0000_0000_0000) ==> r == fallback
  {
    if key in env then
      match ParseUint(env[key], 64)
      case Ok(v) => v
      case Err(_) => fallback
    else fallback
  }

  /** ParseUint with bit size strconv.IntSize. */
  function Uintptr(env: Environment, key: string, fallback: uintptr): (r: uintptr)
    ensures HoldsUnsigned(env, key, 0x1_0000_0000_0000_0000) ==> r == DecimalValue(env[key])
    ensures !HoldsUnsigned(env, key, 0x1_0000_0000_0000_0000) ==> r == fallback
  {
    if key in env then
      match ParseUint(env[key], IntSize)
      case Ok(v) => v
      case Err(_) => fallback
    else fallback
  }

  /** `[]byte(v)`: the UTF-8 bytes of the value whenever the variable is set. */
  function Bytes(env: Environment, key: string, fallback: seq<byte>): (r: seq<byte>)
    ensures key in env ==> r == Utf8.Encode(env[key]) && Utf8.DecodeAll(r) == Utf8.CodePoints(env[key])
    ensures key !in env ==> r == fallback
  {
    if key in env then
      Utf8.DecodeEncode(env[key]);
      Utf8.Encode(env[key])
    else fallback
  }

  /** `[]rune(v)`: the value decoded rune by rune whenever the variable is
      set, which is one rune per character of the value. */
  function Runes(env: Environment, key: string, fallback: seq<rune>): (r: seq<rune>)
    ensures key in env ==> r == Utf8.CodePoints(env[key])
    ensures key !in env ==> r == fallback
  {
    if key in env then
      Utf8.DecodeEncode(env[key]);
      Utf8.DecodeAll(Utf8.Encode(env[key]))
    else fallback
  }

  function Float32(env: Environment, key: string, fallback: float32, floats: FloatSyntax): (r: float32)
    ensures key in env && floats.parse32(env[key]).Some? ==> r == floats.parse32(env[key]).value
    ensures key !in env || floats.parse32(env[key]).None? ==> r == fallback
  {
    if key in env then
      match floats.parse32(env[key])
      case Some(v) => v
      case None => fallback
    else fallback
  }

  function Float64(env: Environment, key: string, fallback: float64, floats: FloatSyntax): (r: float64)
    ensures key in env && floats.parse64(env[key]).Some? ==> r == floats.parse64(env[key]).value
    ensures key !in env || floats.parse64(env[key]).None? ==> r == fallback
  {
    if key in env then
      match floats.parse64(env[key])
      case Some(v) => v
      case None => fallback
    else fallback
  }
}

/** The registry of configura (configura.go): a closed set of seventeen value
    kinds, typed keys, the ConfigImpl object with one map per kind, the
    dispatch that loads a key from the environment into its kind's map, the
    read accessors, and the completeness check with its aggregated error. */
module Configura {
  import opened Wrappers
  import opened GoTypes
  import Env

  /** The seventeen types of the `constraint` type set, one per kind. */
  datatype Kind =
      StringKind
    | IntKind
    | Int8Kind
    | Int16Kind
    | Int32Kind
    | Int64Kind
    | UintKind
    | Uint8Kind
    | Uint16Kind
    | Uint32Kind
    | Uint64Kind
    | UintptrKind
    | BytesKind
    | RunesKind
    | Float32Kind
    | Float64Kind
    | BoolKind

  /** The kinds grouped by the loaders they use. */
  datatype Family = Signed | Unsigned | Text | Floating

  function FamilyOf(k: Kind): Family
  {
    match k
    case IntKind | Int8Kind | Int16Kind | Int32Kind | Int64Kind => Signed
    case UintKind | Uint8Kind | Uint16Kind | Uint32Kind | Uint64Kind | UintptrKind => Unsigned
    case StringKind | BytesKind | RunesKind | BoolKind => Text
    case Float32Kind | Float64Kind => Floating
  }

  /** A value of one of the kinds. Go's nil slice is the empty sequence here. */
  datatype Value =
    | StringValue(s: string)
    | IntValue(i: goint)
    | Int8Value(i8: int8)
    | Int16Value(i16: int16)
    | Int32Value(i32: int32)
    | Int64Value(i64: int64)
    | UintValue(u: gouint)
    | Uint8Value(u8: uint8)
    | Uint16Value(u16: uint16)
    | Uint32Value(u32: uint32)
    | Uint64Value(u64: uint64)
    | UintptrValue(p: uintptr)
    | BytesValue(bytes: seq<byte>)
    | RunesValue(runes: seq<rune>)
    | Float32Value(f32: float32)
    | Float64Value(f64: float64)
    | BoolValue(b: bool)

  function KindOf(v: Value): Kind
  {
    match v
    case StringValue(_) => StringKind
    case IntValue(_) => IntKind
    case Int8Value(_) => Int8Kind
    case Int16Value(_) => Int16Kind
    case Int32Value(_) => Int32Kind
    case Int64Value(_) => Int64Kind
    case UintValue(_) => UintKind
    case Uint8Value(_) => Uint8Kind
    case Uint16Value(_) => Uint16Kind
    case Uint32Value(_) => Uint32Kind
    case Uint64Value(_) => Uint64Kind
    case UintptrValue(_) => UintptrKind
    case BytesValue(_) => BytesKind
    case RunesValue(_) => RunesKind
    case Float32Value(_) => Float32Kind
    case Float64Value(_) => Float64Kind
    case BoolValue(_) => BoolKind
  }

  /** The zero value of each kind: what an accessor returns for an absent key. */
  function Zero(k: Kind): (z: Value)
    ensures KindOf(z) == k
  {
    match k
    case StringKind => StringValue("")
    case IntKind => IntValue(0)
    case Int8Kind => Int8Value(0)
    case Int16Kind => Int16Value(0)
    case Int32Kind => Int32Value(0)
    case Int64Kind => Int64Value(0)
    case UintKind => UintValue(0)
    case Uint8Kind => Uint8Value(0)
    case Uint16Kind => Uint16Value(0)
    case Uint32Kind => Uint32Value(0)
    case Uint64Kind => Uint64Value(0)
    case UintptrKind => UintptrValue(0)
    case BytesKind => BytesValue([])  // nil
    case RunesKind => RunesValue([])  // nil
    case Float32Kind => Float32Value(0)  // 0.0
    case Float64Kind => Float64Value(0)  // 0.0
    case BoolKind => BoolValue(false)
  }

  /** Variable[T]: a key name tagged with the kind T. Two variables are the
      same key only when both the name and the kind agree. */
  datatype Variable = Variable(kind: Kind, name: string)

  /** An argument of ConfigurationKeysRegistered, whose parameter is `...any`:
      a Variable of one of the kinds, or any other value. */
  datatype Arg = Var(v: Variable) | Other

  /** The name checkKey reports for an argument: the key's name, or "" for
      anything that is not a Variable. */
  function ArgName(a: Arg): string
  {
    match a
    case Var(v) => v.name
    case Other => ""
  }

  /** The loader LoadEnvironment calls for a fallback of each kind, with the
      loaded value tagged with that same kind. The seventeen cases are
      grouped by family. */
  function LoadValue(env: Env.Environment, floats: Env.FloatSyntax, name: string, fallback: Value): (r: Value)
    ensures KindOf(r) == KindOf(fallback)
    ensures name !in env ==> r == fallback
  {
    match FamilyOf(KindOf(fallback))
    case Signed => SignedValue(env, name, fallback)
    case Unsigned => UnsignedValue(env, name, fallback)
    case Text => TextValue(env, name, fallback)
    case Floating => FloatingValue(env, floats, name, fallback)
  }

  /** The loaders for the signed integer kinds (int, int8 … int64). */
  function SignedValue(env: Env.Environment, name: string, fallback: Value): (r: Value)
    requires FamilyOf(KindOf(fallback)) == Signed
    ensures KindOf(r) == KindOf(fallback)
    ensures name !in env ==> r == fallback
  {
    match fallback
    case IntValue(f) => IntValue(Env.Int(env, name, f))
    case Int8Value(f) => Int8Value(Env.Int8(env, name, f))
    case Int16Value(f) => Int16Value(Env.Int16(env, name, f))
    case Int32Value(f) => Int32Value(Env.Int32(env, name, f))
    case Int64Value(f) => Int64Value(Env.Int64(env, name, f))
  }

  /** The loaders for the unsigned integer kinds (uint, uint8 … uint64, uintptr). */
  function UnsignedValue(env: Env.Environment, name: string, fallback: Value): (r: Value)
    requires FamilyOf(KindOf(fallback)) == Unsigned
    ensures KindOf(r) == KindOf(fallback)
    ensures name !in env ==> r == fallback
  {
    match fallback
    case UintValue(f) => UintValue(Env.Uint(env, name, f))
    case Uint8Value(f) => Uint8Value(Env.Uint8(env, name, f))
    case Uint16Value(f) => Uint16Value(Env.Uint16(env, name, f))
    case Uint32Value(f) => Uint32Value(Env.Uint32(env, name, f))
    case Uint64Value(f) => Uint64Value(Env.Uint64(env, name, f))
    case UintptrValue(f) => UintptrValue(Env.Uintptr(env, name, f))
  }

  /** The loaders for string, []byte, []rune and bool. */
  function TextValue(env: Env.Environment, name: string, fallback: Value): (r: Value)
    requires FamilyOf(KindOf(fallback)) == Text
    ensures KindOf(r) == KindOf(fallback)
    ensures name !in env ==> r == fallback
  {
    match fallback
    case StringValue(f) => StringValue(Env.String(env, name, f))
    case BytesValue(f) => BytesValue(Env.Bytes(env, name, f))
    case RunesValue(f) => RunesValue(Env.Runes(env, name, f))
    case BoolValue(f) => BoolValue(Env.Bool(env, name, f))
  }

  /** The loaders for float32 and float64. */
  function FloatingValue(env: Env.Environment, floats: Env.FloatSyntax, name: string, fallback: Value): (r: Value)
    requires FamilyOf(KindOf(fallback)) == Floating
    ensures KindOf(r) == KindOf(fallback)
    ensures name !in env ==> r == fallback
  {
    match fallback
    case Float32Value(f) => Float32Value(Env.Float32(env, name, f, floats))
    case Float64Value(f) => Float64Value(Env.Float64(env, name, f, floats))
  }



  /** The contents of a ConfigImpl at one moment: its seventeen maps. */
  datatype Registry = Registry(
    RegString: map<string, string>,
    RegInt: map<string, goint>,
    RegInt8: map<string, int8>,
    RegInt16: map<string, int16>,
    RegInt32: map<string, int32>,
    RegInt64: map<string, int64>,
    RegUint: map<string, gouint>,
    RegUint8: map<string, uint8>,
    RegUint16: map<string, uint16>,
    RegUint32: map<string, uint32>,
    RegUint64: map<string, uint64>,
    RegUintptr: map<string, uintptr>,
    RegBytes: map<string, seq<byte>>,
    RegRunes: map<string, seq<rune>>,
    RegFloat32: map<string, float32>,
    RegFloat64: map<string, float64>,
    RegBool: map<string, bool>
  )
  {
    /** The entry for `v` in the map of its kind, tagged with that kind. */
    function Lookup(v: Variable): Option<Value>
    {
      var name := v.name;
      match v.kind
      case StringKind => if name in RegString then Some(StringValue(RegString[name])) else None
      case IntKind => if name in RegInt then Some(IntValue(RegInt[name])) else None
      case Int8Kind => if name in RegInt8 then Some(Int8Value(RegInt8[name])) else None
      case Int16Kind => if name in RegInt16 then Some(Int16Value(RegInt16[name])) else None
      case Int32Kind => if name in RegInt32 then Some(Int32Value(RegInt32[name])) else None
      case Int64Kind => if name in RegInt64 then Some(Int64Value(RegInt64[name])) else None
      case UintKind => if name in RegUint then Some(UintValue(RegUint[name])) else None
      case Uint8Kind => if name in RegUint8 then Some(Uint8Value(RegUint8[name])) else None
      case Uint16Kind => if name in RegUint16 then Some(Uint16Value(RegUint16[name])) else None
      case Uint32Kind => if name in RegUint32 then Some(Uint32Value(RegUint32[name])) else None
      case Uint64Kind => if name in RegUint64 then Some(Uint64Value(RegUint64[name])) else None
      case UintptrKind => if name in RegUintptr then Some(UintptrValue(RegUintptr[name])) else None
      case BytesKind => if name in RegBytes then Some(BytesValue(RegBytes[name])) else None
      case RunesKind => if name in RegRunes then Some(RunesValue(RegRunes[name])) else None
      case Float32Kind => if name in RegFloat32 then Some(Float32Value(RegFloat32[name])) else None
      case Float64Kind => if name in RegFloat64 then Some(Float64Value(RegFloat64[name])) else None
      case BoolKind => if name in RegBool then Some(BoolValue(RegBool[name])) else None
    }

    /** The registry with `x` stored under `name` in the map of its kind;
        the other sixteen maps are kept as they are. */
    function Store(name: string, x: Value): Registry
    {
      Registry(
        if x.StringValue? then RegString[name := x.s] else RegString,
        if x.IntValue? then RegInt[name := x.i] else RegInt,
        if x.Int8Value? then RegInt8[name := x.i8] else RegInt8,
        if x.Int16Value? then RegInt16[name := x.i16] else RegInt16,
        if x.Int32Value? then RegInt32[name := x.i32] else RegInt32,
        if x.Int64Value? then RegInt64[name := x.i64] else RegInt64,
        if x.UintValue? then RegUint[name := x.u] else RegUint,
        if x.Uint8Value? then RegUint8[name := x.u8] else RegUint8,
        if x.Uint16Value? then RegUint16[name := x.u16] else RegUint16,
        if x.Uint32Value? then RegUint32[name := x.u32] else RegUint32,
        if x.Uint64Value? then RegUint64[name := x.u64] else RegUint64,
        if x.UintptrValue? then RegUintptr[name := x.p] else RegUintptr,
        if x.BytesValue? then RegBytes[name := x.bytes] else RegBytes,
        if x.RunesValue? then RegRunes[name := x.runes] else RegRunes,
        if x.Float32Value? then RegFloat32[name := x.f32] else RegFloat32,
        if x.Float64Value? then RegFloat64[name := x.f64] else RegFloat64,
        if x.BoolValue? then RegBool[name := x.b] else RegBool)
    }
  }

  /** The registry NewConfigImpl starts from: seventeen empty maps. */
  const EmptyRegistry: Registry := Registry(map[], map[], map[], map[], map[], map[], map[], map[], map[], map[], map[], map[], map[], map[], map[], map[], map[])

  /** ConfigImpl: one map per kind from key name to value. */
  class ConfigImpl {
    var RegString: map<string, string>
    var RegInt: map<string, goint>
    var RegInt8: map<string, int8>
    var RegInt16: map<string, int16>
    var RegInt32: map<string, int32>
    var RegInt64: map<string, int64>
    var RegUint: map<string, gouint>
    var RegUint8: map<string, uint8>
    var RegUint16: map<string, uint16>
    var RegUint32: map<string, uint32>
    var RegUint64: map<string, uint64>
    var RegUintptr: map<string, uintptr>
    var RegBytes: map<string, seq<byte>>
    var RegRunes: map<string, seq<rune>>
    var RegFloat32: map<string, float32>
    var RegFloat64: map<string, float64>
    var RegBool: map<string, bool>

    /** The seventeen maps as one value. */
    function State(): Registry
      reads this
    {
      Registry(RegString, RegInt, RegInt8, RegInt16, RegInt32, RegInt64, RegUint, RegUint8, RegUint16, RegUint32, RegUint64, RegUintptr, RegBytes, RegRunes, RegFloat32, RegFloat64, RegBool)
    }

    /** NewConfigImpl: every map empty, so no key of any kind is present. */
    constructor ()
      ensures State() == EmptyRegistry
    {
      RegString := map[];
      RegInt := map[];
      RegInt8 := map[];
      RegInt16 := map[];
      RegInt32 := map[];
      RegInt64 := map[];
      RegUint := map[];
      RegUint8 := map[];
      RegUint16 := map[];
      RegUint32 := map[];
      RegUint64 := map[];
      RegUintptr := map[];
      RegBytes := map[];
      RegRunes := map[];
      RegFloat32 := map[];
      RegFloat64 := map[];
      RegBool := map[];
    }

    /** What reading `v` yields: the stored value, or the zero value of its
        kind when the key is absent. */
    function Get(v: Variable): (r: Value)
      reads this
      ensures KindOf(r) == v.kind
      ensures State().Lookup(v).Some? ==> r == State().Lookup(v).value
      ensures State().Lookup(v).None? ==> r == Zero(v.kind)
    {
      LookupKind(State(), v);
      match State().Lookup(v)
      case Some(x) => x
      case None => Zero(v.kind)
    }

    function String(key: string): (r: string)
      reads this
      ensures StringValue(r) == Get(Variable(StringKind, key))
    {
      if key in RegString then RegString[key] else ""
    }

    function Int(key: string): (r: goint)
      reads this
      ensures IntValue(r) == Get(Variable(IntKind, key))
    {
      if key in RegInt then RegInt[key] else 0
    }

    function Int8(key: string): (r: int8)
      reads this
      ensures Int8Value(r) == Get(Variable(Int8Kind, key))
    {
      if key in RegInt8 then RegInt8[key] else 0
    }

    function Int16(key: string): (r: int16)
      reads this
      ensures Int16Value(r) == Get(Variable(Int16Kind, key))
    {
      if key in RegInt16 then RegInt16[key] else 0
    }

    function Int32(key: string): (r: int32)
      reads this
      ensures Int32Value(r) == Get(Variable(Int32Kind, key))
    {
      if key in RegInt32 then RegInt32[key] else 0
    }

    function Int64(key: string): (r: int64)
      reads this
      ensures Int64Value(r) == Get(Variable(Int64Kind, key))
    {
      if key in RegInt64 then RegInt64[key] else 0
    }

    function Uint(key: string): (r: gouint)
      reads this
      ensures UintValue(r) == Get(Variable(UintKind, key))
    {
      if key in RegUint then RegUint[key] else 0
    }

    function Uint8(key: string): (r: uint8)
      reads this
      ensures Uint8Value(r) == Get(Variable(Uint8Kind, key))
    {
      if key in RegUint8 then RegUint8[key] else 0
    }

    function Uint16(key: string): (r: uint16)
      reads this
      ensures Uint16Value(r) == Get(Variable(Uint16Kind, key))
    {
      if key in RegUint16 then RegUint16[key] else 0
    }

    function Uint32(key: string): (r: uint32)
      reads this
      ensures Uint32Value(r) == Get(Variable(Uint32Kind, key))
    {
      if key in RegUint32 then RegUint32[key] else 0
    }

    function Uint64(key: string): (r: uint64)
      reads this
      ensures Uint64Value(r) == Get(Variable(Uint64Kind, key))
    {
      if key in RegUint64 then RegUint64[key] else 0
    }

    function Uintptr(key: string): (r: uintptr)
      reads this
      ensures UintptrValue(r) == Get(Variable(UintptrKind, key))
    {
      if key in RegUintptr then RegUintptr[key] else 0
    }

    function Bytes(key: string): (r: seq<byte>)
      reads this
      ensures BytesValue(r) == Get(Variable(BytesKind, key))
    {
      if key in RegBytes then RegBytes[key] else []
    }

    function Runes(key: string): (r: seq<rune>)
      reads this
      ensures RunesValue(r) == Get(Variable(RunesKind, key))
    {
      if key in RegRunes then RegRunes[key] else []
    }

    function Float32(key: string): (r: float32)
      reads this
      ensures Float32Value(r) == Get(Variable(Float32Kind, key))
    {
      if key in RegFloat32 then RegFloat32[key] else 0
    }

    function Float64(key: string): (r: float64)
      reads this
      ensures Float64Value(r) == Get(Variable(Float64Kind, key))
    {
      if key in RegFloat64 then RegFloat64[key] else 0
    }

    function Bool(key: string): (r: bool)
      reads this
      ensures BoolValue(r) == Get(Variable(BoolKind, key))
    {
      if key in RegBool then RegBool[key] else false
    }

    /** checkKey: the key's name and whether it is present in its own kind's
        map; anything that is not a Variable gives ("", false). */
    function CheckKey(key: Arg): (r: (string, bool))
      reads this
      ensures key.Var? ==> r == (key.v.name, State().Lookup(key.v).Some?)
      ensures key.Other? ==> r == ("", false)
    {
      match key
      case Other => ("", false)
      case Var(Variable(kind, name)) =>
        match kind
        case StringKind => (name, name in RegString)
        case IntKind => (name, name in RegInt)
        case Int8Kind => (name, name in RegInt8)
        case Int16Kind => (name, name in RegInt16)
        case Int32Kind => (name, name in RegInt32)
        case Int64Kind => (name, name in RegInt64)
        case UintKind => (name, name in RegUint)
        case Uint8Kind => (name, name in RegUint8)
        case Uint16Kind => (name, name in RegUint16)
        case Uint32Kind => (name, name in RegUint32)
        case Uint64Kind => (name, name in RegUint64)
        case UintptrKind => (name, name in RegUintptr)
        case BytesKind => (name, name in RegBytes)
        case RunesKind => (name, name in RegRunes)
        case Float32Kind => (name, name in RegFloat32)
        case Float64Kind => (name, name in RegFloat64)
        case BoolKind => (name, name in RegBool)
    }

    /** The names checkKey reports missing, in argument order, duplicates kept. */
    function Missing(keys: seq<Arg>): seq<string>
      reads this
    {
      if keys == [] then []
      else
        var (name, present) := CheckKey(keys[|keys| - 1]);
        Missing(keys[..|keys| - 1]) + if present then [] else [name]
    }

    /** ConfigurationKeysRegistered: nil exactly when every argument is present
        in its kind's map; otherwise one error listing every missing name. */
    method ConfigurationKeysRegistered(keys: seq<Arg>) returns (err: Option<MissingVariableError>)
      ensures err.None? <==> forall i :: 0 <= i < |keys| ==> CheckKey(keys[i]).1
      ensures err.Some? ==> err.value.Keys == Missing(keys) && |err.value.Keys| > 0
    {
      var missingKeys: seq<string> := [];
      for i := 0 to |keys|
        invariant missingKeys == Missing(keys[..i])
      {
        assert keys[..i + 1][..i] == keys[..i];
        var (keyName, ok) := CheckKey(keys[i]);
        if !ok {
          missingKeys := missingKeys + [keyName];
        }
      }
      assert keys[..|keys|] == keys;
      MissingEmptyIff(this, keys);
      if |missingKeys| > 0 {
        err := Some(MissingVariableError(missingKeys));
      } else {
        err := None;
      }
    }
  }

  /** LoadEnvironment: run the loader of the key's kind and store the result
      under the key's name in that kind's map, replacing any earlier entry.
      Every other key, of this kind or another, keeps its entry. The fallback
      has the key's kind, as Go's type parameter T demands. */
  method LoadEnvironment(config: ConfigImpl, key: Variable, fallback: Value, env: Env.Environment, floats: Env.FloatSyntax)
    requires KindOf(fallback) == key.kind
    modifies config
    ensures config.State() == old(config.State()).Store(key.name, LoadValue(env, floats, key.name, fallback))
  {
    var loaded := LoadValue(env, floats, key.name, fallback);
    Register(config, key.name, loaded);
  }

  /** The map assignment of each case of LoadEnvironment's type switch:
      `x` goes into the map of its own kind under `name`. */
  method Register(config: ConfigImpl, name: string, x: Value)
    modifies config
    ensures config.State() == old(config.State()).Store(name, x)
  {
    match x
    case StringValue(y) => RegisterString(config, name, y);
    case IntValue(y) => RegisterInt(config, name, y);
    case Int8Value(y) => RegisterInt8(config, name, y);
    case Int16Value(y) => RegisterInt16(config, name, y);
    case Int32Value(y) => RegisterInt32(config, name, y);
    case Int64Value(y) => RegisterInt64(config, name, y);
    case UintValue(y) => RegisterUint(config, name, y);
    case Uint8Value(y) => RegisterUint8(config, name, y);
    case Uint16Value(y) => RegisterUint16(config, name, y);
    case Uint32Value(y) => RegisterUint32(config, name, y);
    case Uint64Value(y) => RegisterUint64(config, name, y);
    case UintptrValue(y) => RegisterUintptr(config, name, y);
    case BytesValue(y) => RegisterBytes(config, name, y);
    case RunesValue(y) => RegisterRunes(config, name, y);
    case Float32Value(y) => RegisterFloat32(config, name, y);
    case Float64Value(y) => RegisterFloat64(config, name, y);
    case BoolValue(y) => RegisterBool(config, name, y);
  }

  /** The `Variable[string]` case: RegString[name] = y. */
  method RegisterString(config: ConfigImpl, name: string, y: string)
    modifies config
    ensures config.State() == old(config.State()).Store(name, StringValue(y))
  {
    config.RegString := config.RegString[name := y];
  }

  /** The `Variable[int]` case: RegInt[name] = y. */
  method RegisterInt(config: ConfigImpl, name: string, y: goint)
    modifies config
    ensures config.State() == old(config.State()).Store(name, IntValue(y))
  {
    config.RegInt := config.RegInt[name := y];
  }

  /** The `Variable[int8]` case: RegInt8[name] = y. */
  method RegisterInt8(config: ConfigImpl, name: string, y: int8)
    modifies config
    ensures config.State() == old(config.State()).Store(name, Int8Value(y))
  {
    config.RegInt8 := config.RegInt8[name := y];
  }

  /** The `Variable[int16]` case: RegInt16[name] = y. */
  method RegisterInt16(config: ConfigImpl, name: string, y: int16)
    modifies config
    ensures config.State() == old(config.State()).Store(name, Int16Value(y))
  {
    config.RegInt16 := config.RegInt16[name := y];
  }

  /** The `Variable[int32]` case: RegInt32[name] = y. */
  method RegisterInt32(config: ConfigImpl, name: string, y: int32)
    modifies config
    ensures config.State() == old(config.State()).Store(name, Int32Value(y))
  {
    config.RegInt32 := config.RegInt32[name := y];
  }

  /** The `Variable[int64]` case: RegInt64[name] = y. */
  method RegisterInt64(config: ConfigImpl, name: string, y: int64)
    modifies config
    ensures config.State() == old(config.State()).Store(name, Int64Value(y))
  {
    config.RegInt64 := config.RegInt64[name := y];
  }

  /** The `Variable[uint]` case: RegUint[name] = y. */
  method RegisterUint(config: ConfigImpl, name: string, y: gouint)
    modifies config
    ensures config.State() == old(config.State()).Store(name, UintValue(y))
  {
    config.RegUint := config.RegUint[name := y];
  }

  /** The `Variable[uint8]` case: RegUint8[name] = y. */
  method RegisterUint8(config: ConfigImpl, name: string, y: uint8)
    modifies config
    ensures config.State() == old(config.State()).Store(name, Uint8Value(y))
  {
    config.RegUint8 := config.RegUint8[name := y];
  }

  /** The `Variable[uint16]` case: RegUint16[name] = y. */
  method RegisterUint16(config: ConfigImpl, name: string, y: uint16)
    modifies config
    ensures config.State() == old(config.State()).Store(name, Uint16Value(y))
  {
    config.RegUint16 := config.RegUint16[name := y];
  }

  /** The `Variable[uint32]` case: RegUint32[name] = y. */
  method RegisterUint32(config: ConfigImpl, name: string, y: uint32)
    modifies config
    ensures config.State() == old(config.State()).Store(name, Uint32Value(y))
  {
    config.RegUint32 := config.RegUint32[name := y];
  }

  /** The `Variable[uint64]` case: RegUint64[name] = y. */
  method RegisterUint64(config: ConfigImpl, name: string, y: uint64)
    modifies config
    ensures config.State() == old(config.State()).Store(name, Uint64Value(y))
  {
    config.RegUint64 := config.RegUint64[name := y];
  }

  /** The `Variable[uintptr]` case: RegUintptr[name] = y. */
  method RegisterUintptr(config: ConfigImpl, name: string, y: uintptr)
    modifies config
    ensures config.State() == old(config.State()).Store(name, UintptrValue(y))
  {
    config.RegUintptr := config.RegUintptr[name := y];
  }

  /** The `Variable[[]byte]` case: RegBytes[name] = y. */
  method RegisterBytes(config: ConfigImpl, name: string, y: seq<byte>)
    modifies config
    ensures config.State() == old(config.State()).Store(name, BytesValue(y))
  {
    config.RegBytes := config.RegBytes[name := y];
  }

  /** The `Variable[[]rune]` case: RegRunes[name] = y. */
  method RegisterRunes(config: ConfigImpl, name: string, y: seq<rune>)
    modifies config
    ensures config.State() == old(config.State()).Store(name, RunesValue(y))
  {
    config.RegRunes := config.RegRunes[name := y];
  }

  /** The `Variable[float32]` case: RegFloat32[name] = y. */
  method RegisterFloat32(config: ConfigImpl, name: string, y: float32)
    modifies config
    ensures config.State() == old(config.State()).Store(name, Float32Value(y))
  {
    config.RegFloat32 := config.RegFloat32[name := y];
  }

  /** The `Variable[float64]` case: RegFloat64[name] = y. */
  method RegisterFloat64(config: ConfigImpl, name: string, y: float64)
    modifies config
    ensures config.State() == old(config.State()).Store(name, Float64Value(y))
  {
    config.RegFloat64 := config.RegFloat64[name := y];
  }

  /** The `Variable[bool]` case: RegBool[name] = y. */
  method RegisterBool(config: ConfigImpl, name: string, y: bool)
    modifies config
    ensures config.State() == old(config.State()).Store(name, BoolValue(y))
  {
    config.RegBool := config.RegBool[name := y];
  }

  /** ErrMissingVariable, made by errors.New: a sentinel error with a fixed text. */
  datatype SentinelError = ErrorString(text: string)

  const ErrMissingVariable: SentinelError := ErrorString("missing configuration variables")

  /** missingVariableError: the names of the keys that were not registered. */
  datatype MissingVariableError = MissingVariableError(Keys: seq<string>)
  {
    /** The text of the error: the sentinel's text, a colon, and the names
        separated by ", " ("none" when there are none). */
    function Error(): (s: string)
      ensures ErrMissingVariable.text + ": " <= s
      ensures Keys == [] ==> s[|ErrMissingVariable.text| + 2..] == "none"
      ensures Keys != [] ==> s[|ErrMissingVariable.text| + 2..] == Join(Keys, ", ")
    {
      "missing configuration variables: " + FormattedKeys(Keys)
    }

    /** Every missingVariableError unwraps to the one sentinel. */
    function Unwrap(): (e: SentinelError)
      ensures e == ErrMissingVariable
    {
      ErrMissingVariable
    }
  }

  /** The names one after another, with `sep` between neighbours. */
  function Join(keys: seq<string>, sep: string): string
  {
    if |keys| == 0 then ""
    else if |keys| == 1 then keys[0]
    else keys[0] + sep + Join(keys[1..], sep)
  }

  /** What formatKeys returns. */
  function FormattedKeys(keys: seq<string>): string
  {
    if keys == [] then "none" else Join(keys, ", ")
  }

  /** formatKeys: "none" for no names, otherwise the names joined by ", ",
      built left to right as the source's loop does. */
  method FormatKeys(keys: seq<string>) returns (result: string)
    ensures keys == [] ==> result == "none"
    ensures keys != [] ==> result == Join(keys, ", ")
  {
    if |keys| == 0 {
      return "none";
    }
    result := "";
    for i := 0 to |keys|
      invariant result == Join(keys[..i], ", ")
    {
      ghost var done := keys[..i];
      assert keys[..i + 1] == done + [keys[i]];
      JoinAppend(done, keys[i], ", ");
      if i > 0 {
        result := result + ", ";
      } else {
        assert result + keys[i] == keys[i];
      }
      result := result + keys[i];
    }
    assert keys[..|keys|] == keys;
  }

  // -----------------------------------------------------------------------
  // Lemmas

  /** Joining one more name appends the separator and the name. */
  lemma {:induction false} JoinAppend(keys: seq<string>, key: string, sep: string)
    ensures Join(keys + [key], sep) == if keys == [] then key else Join(keys, sep) + sep + key
  {
    if |keys| > 1 {
      assert (keys + [key])[1..] == keys[1..] + [key];
      JoinAppend(keys[1..], key, sep);
    } else if |keys| == 1 {
      assert (keys + [key])[1..] == [key];
    }
  }

  /** A key found in the registry holds a value of the key's own kind. */
  lemma LookupKind(r: Registry, v: Variable)
    ensures r.Lookup(v).Some? ==> KindOf(r.Lookup(v).value) == v.kind
  {
    match v.kind
    case StringKind =>
    case IntKind =>
    case Int8Kind =>
    case Int16Kind =>
    case Int32Kind =>
    case Int64Kind =>
    case UintKind =>
    case Uint8Kind =>
    case Uint16Kind =>
    case Uint32Kind =>
    case Uint64Kind =>
    case UintptrKind =>
    case BytesKind =>
    case RunesKind =>
    case Float32Kind =>
    case Float64Kind =>
    case BoolKind =>
  }

  /** A stored value is what its key then looks up to. */
  lemma LookupStoreSame(r: Registry, key: Variable, x: Value)
    requires KindOf(x) == key.kind
    ensures r.Store(key.name, x).Lookup(key) == Some(x)
  {
  }

  /** Storing leaves every other name of the same kind as it was. */
  lemma LookupStoreOtherName(r: Registry, key: Variable, x: Value, v: Variable)
    requires KindOf(x) == key.kind && v.kind == key.kind && v.name != key.name
    ensures r.Store(key.name, x).Lookup(v) == r.Lookup(v)
  {
  }

  /** Storing leaves the maps of every other kind as they were, the same
      name included. */
  lemma LookupStoreOtherKind(r: Registry, name: string, x: Value, v: Variable)
    requires v.kind != KindOf(x)
    ensures r.Store(name, x).Lookup(v) == r.Lookup(v)
  {
  }

  /** Storing under a key changes what that key looks up to and nothing
      else: not the same name under another kind, not another name. */
  lemma LookupStore(r: Registry, key: Variable, x: Value, v: Variable)
    requires KindOf(x) == key.kind
    ensures r.Store(key.name, x).Lookup(v) == if v == key then Some(x) else r.Lookup(v)
  {
    if v == key {
      LookupStoreSame(r, key, x);
    } else if v.kind == key.kind {
      LookupStoreOtherName(r, key, x, v);
    } else {
      LookupStoreOtherKind(r, key.name, x, v);
    }
  }

  /** ConfigurationKeysRegistered finds nothing missing exactly when every
      argument is present. */
  lemma {:induction false} MissingEmptyIff(c: ConfigImpl, keys: seq<Arg>)
    ensures c.Missing(keys) == [] <==> forall i :: 0 <= i < |keys| ==> c.CheckKey(keys[i]).1
  {
    if keys != [] {
      var init := keys[..|keys| - 1];
      MissingEmptyIff(c, init);
      assert forall i :: 0 <= i < |init| ==> init[i] == keys[i];
    }
  }

  /** Loading the same key twice leaves every key, that one included,
      reading as if only the second load had happened: the map assignment
      overwrites without a conflict check. */
  lemma LastWriteWins(r: Registry, key: Variable, x: Value, y: Value, v: Variable)
    requires KindOf(x) == key.kind && KindOf(y) == key.kind
    ensures r.Store(key.name, x).Store(key.name, y).Lookup(v) == r.Store(key.name, y).Lookup(v)
  {
    LookupStore(r.Store(key.name, x), key, y, v);
    LookupStore(r, key, x, v);
    LookupStore(r, key, y, v);
  }

  /** The missing names of a concatenation of arguments are the missing
      names of each part, in order. */
  lemma {:induction false} MissingAppend(c: ConfigImpl, a: seq<Arg>, b: seq<Arg>)
    ensures c.Missing(a + b) == c.Missing(a) + c.Missing(b)
    decreases |b|
  {
    if b == [] {
      assert a + b == a;
    } else {
      var init := b[..|b| - 1];
      assert (a + b)[..|a + b| - 1] == a + init;
      assert (a + b)[|a + b| - 1] == b[|b| - 1];
      MissingAppend(c, a, init);
    }
  }

  /** A fresh registry holds nothing. */
  lemma EmptyLookup(v: Variable)
    ensures EmptyRegistry.Lookup(v) == None
  {
  }

  /** Against a fresh registry every key of every kind reads as its kind's
      zero value. */
  lemma FreshReadsZero(c: ConfigImpl)
    requires c.State() == EmptyRegistry
    ensures forall v :: c.Get(v) == Zero(v.kind)
  {
    forall v
      ensures c.Get(v) == Zero(v.kind)
    {
      EmptyLookup(v);
    }
  }

  /** Against a fresh registry every argument is reported missing, in order,
      under the name checkKey gives it. */
  lemma {:induction false} MissingWhenEmpty(c: ConfigImpl, keys: seq<Arg>)
    requires c.State() == EmptyRegistry
    ensures c.Missing(keys) == seq(|keys|, i requires 0 <= i < |keys| => ArgName(keys[i]))
  {
    if keys != [] {
      var init := keys[..|keys| - 1];
      MissingWhenEmpty(c, init);
      var last := keys[|keys| - 1];
      if last.Var? {
        EmptyLookup(last.v);
      }
    }
  }
}

# configura, modelled in Dafny

This project models `configura`, a small Go configuration registry vendored in
the ponrove repository.

A program declares typed keys (`Variable[T]`, a name tagged with one of
seventeen value kinds). It loads each key from the process environment into a
`ConfigImpl`, then checks that every required key was loaded. The pieces are:

- **Loaders** (`env.go`): one per kind. Each reads a variable and parses it.
  If the variable is absent or malformed, it returns the caller's fallback.
  A loader never reports an error.
- **`LoadEnvironment`**: dispatches on the key's kind. It stores the loader's
  result in that kind's map, replacing any earlier entry.
- **Accessors**: return the stored value, or the kind's zero value when the key
  was never loaded.
- **`ConfigurationKeysRegistered`**: collects the names of all missing keys, in
  argument order, into one `missingVariableError`. That error renders as
  `missing configuration variables: A, B` and unwraps to the sentinel
  `ErrMissingVariable`.

The modules are:

- `wrappers.dfy`: `Option` and `Result`.
- `gotypes.dfy`: Go's integer widths on a 64-bit platform, `byte`, `rune`, and
  IEEE bit patterns for `float32`/`float64`.
- `strconv.dfy`: the part of Go's `strconv` the loaders call, base 10 only:
  `ParseBool`, `ParseUint`, `ParseInt` and `Atoi`.
  - The parsers are written as the library computes: a digit loop that stops
    at the first bad character or overflow.
  - Each is proved against declarative definitions of decimal text and its
    value.
- `utf8.dfy`: the conversions `[]byte(s)` (UTF-8 encoding) and `[]rune(s)`
  (Go's rune-by-rune decoding loop). Decoding the encoding of a string gives
  back its code points.
- `env.dfy`: the seventeen loaders. The environment is an explicit
  `map<string, string>`.
- `configura.dfy`: kinds, values, keys, and the `ConfigImpl` class with one
  map field per kind. It also holds the accessors, `LoadEnvironment`,
  `checkKey`, `ConfigurationKeysRegistered`, `formatKeys`, and the error type.

Design points:

- Go's type switch in `LoadEnvironment` becomes two steps:
  - `LoadValue` picks the loader for the fallback's kind.
  - `Register` performs that case's map assignment.
- `Registry` is the value of a `ConfigImpl`'s seventeen maps at one moment.
  - `Registry.Store` is the registry after one assignment.
  - `Registry.Lookup` reads a key from the map of its own kind.
- A `...any` argument of `ConfigurationKeysRegistered` is an `Arg`: either a
  `Variable` or `Other` (any other value).

The missing-name list keeps duplicates, in argument order. An argument that is
not a `Variable` is reported missing under the empty name
(configura.go:340-353). `ConfigImpl.Missing` and `MissingWhenEmpty` state that
behaviour.

## Model

| member | source | states |
|---|---|---|
| Configura.Zero | vendor/github.com/ponrove/configura/configura.go:125-242 | the zero value an accessor falls back to has the requested kind |
| Configura.LoadValue | vendor/github.com/ponrove/configura/configura.go:40-77 | the loaded value has the kind of the key and fallback; an absent variable yields exactly the fallback |
| Configura.SignedValue | vendor/github.com/ponrove/configura/configura.go:44-53 | the int…int64 cases keep the kind and give the fallback when the variable is absent |
| Configura.UnsignedValue | vendor/github.com/ponrove/configura/configura.go:54-65 | the uint…uint64 and uintptr cases keep the kind and give the fallback when the variable is absent |
| Configura.TextValue | vendor/github.com/ponrove/configura/configura.go:42-75 | the string, []byte, []rune and bool cases keep the kind and give the fallback when the variable is absent |
| Configura.FloatingValue | vendor/github.com/ponrove/configura/configura.go:70-73 | the float32 and float64 cases keep the kind and give the fallback when the variable is absent |
| Configura.ConfigImpl.constructor | vendor/github.com/ponrove/configura/configura.go:101-121 | NewConfigImpl: all seventeen maps are empty |
| Configura.ConfigImpl.Get | vendor/github.com/ponrove/configura/configura.go:125-242 | reading a key gives a value of the key's kind: the stored value when present in that kind's map, otherwise the kind's zero value |
| Configura.ConfigImpl.String | vendor/github.com/ponrove/configura/configura.go:125-130 | agrees with Get for a string key: the stored text, or "" when absent |
| Configura.ConfigImpl.Int | vendor/github.com/ponrove/configura/configura.go:132-137 | agrees with Get for an int key: the stored value, or 0 |
| Configura.ConfigImpl.Int8 | vendor/github.com/ponrove/configura/configura.go:139-144 | agrees with Get for an int8 key: the stored value, or 0 |
| Configura.ConfigImpl.Int16 | vendor/github.com/ponrove/configura/configura.go:146-151 | agrees with Get for an int16 key: the stored value, or 0 |
| Configura.ConfigImpl.Int32 | vendor/github.com/ponrove/configura/configura.go:153-158 | agrees with Get for an int32 key: the stored value, or 0 |
| Configura.ConfigImpl.Int64 | vendor/github.com/ponrove/configura/configura.go:160-165 | agrees with Get for an int64 key: the stored value, or 0 |
| Configura.ConfigImpl.Uint | vendor/github.com/ponrove/configura/configura.go:167-172 | agrees with Get for a uint key: the stored value, or 0 |
| Configura.ConfigImpl.Uint8 | vendor/github.com/ponrove/configura/configura.go:174-179 | agrees with Get for a uint8 key: the stored value, or 0 |
| Configura.ConfigImpl.Uint16 | vendor/github.com/ponrove/configura/configura.go:181-186 | agrees with Get for a uint16 key: the stored value, or 0 |
| Configura.ConfigImpl.Uint32 | vendor/github.com/ponrove/configura/configura.go:188-193 | agrees with Get for a uint32 key: the stored value, or 0 |
| Configura.ConfigImpl.Uint64 | vendor/github.com/ponrove/configura/configura.go:195-200 | agrees with Get for a uint64 key: the stored value, or 0 |
| Configura.ConfigImpl.Uintptr | vendor/github.com/ponrove/configura/configura.go:202-207 | agrees with Get for a uintptr key: the stored value, or 0 |
| Configura.ConfigImpl.Bytes | vendor/github.com/ponrove/configura/configura.go:209-214 | agrees with Get for a []byte key: the stored bytes, or nil (empty) |
| Configura.ConfigImpl.Runes | vendor/github.com/ponrove/configura/configura.go:216-221 | agrees with Get for a []rune key: the stored runes, or nil (empty) |
| Configura.ConfigImpl.Float32 | vendor/github.com/ponrove/configura/configura.go:223-228 | agrees with Get for a float32 key: the stored value, or 0.0 |
| Configura.ConfigImpl.Float64 | vendor/github.com/ponrove/configura/configura.go:230-235 | agrees with Get for a float64 key: the stored value, or 0.0 |
| Configura.ConfigImpl.Bool | vendor/github.com/ponrove/configura/configura.go:237-242 | agrees with Get for a bool key: the stored value, or false |
| Configura.ConfigImpl.CheckKey | vendor/github.com/ponrove/configura/configura.go:278-336 | a Variable gives its name and whether it is present in its own kind's map; any other argument gives ("", false) |
| Configura.ConfigImpl.ConfigurationKeysRegistered | vendor/github.com/ponrove/configura/configura.go:340-353 | nil exactly when every argument is present; otherwise the error lists exactly the missing names in argument order, duplicates kept, and the list is non-empty |
| Configura.LoadEnvironment | vendor/github.com/ponrove/configura/configura.go:40-77 | the new registry is the old one with the loader's result stored under the key's name in its kind's map |
| Configura.Register | vendor/github.com/ponrove/configura/configura.go:41-76 | the value goes into the map of its own kind under the name; the other sixteen maps are untouched |
| Configura.RegisterString | vendor/github.com/ponrove/configura/configura.go:43 | the string case's map assignment, nothing else changes |
| Configura.RegisterInt | vendor/github.com/ponrove/configura/configura.go:45 | the int case's map assignment, nothing else changes |
| Configura.RegisterInt8 | vendor/github.com/ponrove/configura/configura.go:47 | the int8 case's map assignment, nothing else changes |
| Configura.RegisterInt16 | vendor/github.com/ponrove/configura/configura.go:49 | the int16 case's map assignment, nothing else changes |
| Configura.RegisterInt32 | vendor/github.com/ponrove/configura/configura.go:51 | the int32 case's map assignment, nothing else changes |
| Configura.RegisterInt64 | vendor/github.com/ponrove/configura/configura.go:53 | the int64 case's map assignment, nothing else changes |
| Configura.RegisterUint | vendor/github.com/ponrove/configura/configura.go:55 | the uint case's map assignment, nothing else changes |
| Configura.RegisterUint8 | vendor/github.com/ponrove/configura/configura.go:57 | the uint8 case's map assignment, nothing else changes |
| Configura.RegisterUint16 | vendor/github.com/ponrove/configura/configura.go:59 | the uint16 case's map assignment, nothing else changes |
| Configura.RegisterUint32 | vendor/github.com/ponrove/configura/configura.go:61 | the uint32 case's map assignment, nothing else changes |
| Configura.RegisterUint64 | vendor/github.com/ponrove/configura/configura.go:63 | the uint64 case's map assignment, nothing else changes |
| Configura.RegisterUintptr | vendor/github.com/ponrove/configura/configura.go:65 | the uintptr case's map assignment, nothing else changes |
| Configura.RegisterBytes | vendor/github.com/ponrove/configura/configura.go:67 | the []byte case's map assignment, nothing else changes |
| Configura.RegisterRunes | vendor/github.com/ponrove/configura/configura.go:69 | the []rune case's map assignment, nothing else changes |
| Configura.RegisterFloat32 | vendor/github.com/ponrove/configura/configura.go:71 | the float32 case's map assignment, nothing else changes |
| Configura.RegisterFloat64 | vendor/github.com/ponrove/configura/configura.go:73 | the float64 case's map assignment, nothing else changes |
| Configura.RegisterBool | vendor/github.com/ponrove/configura/configura.go:75 | the bool case's map assignment, nothing else changes |
| Configura.MissingVariableError.Error | vendor/github.com/ponrove/configura/configura.go:250-252 | the text starts with the sentinel's text and ": ", followed by "none" for no names or the names joined by ", " |
| Configura.MissingVariableError.Unwrap | vendor/github.com/ponrove/configura/configura.go:255-257 | every missingVariableError unwraps to ErrMissingVariable |
| Configura.FormatKeys | vendor/github.com/ponrove/configura/configura.go:260-272 | the loop builds "none" for no names, otherwise the names joined by ", " |
| Configura.JoinAppend | vendor/github.com/ponrove/configura/configura.go:265-270 | one more name adds the separator and that name at the end |
| Configura.LookupKind | vendor/github.com/ponrove/configura/configura.go:81-99 | whatever a key finds in the registry is of the key's own kind |
| Configura.LookupStoreSame | vendor/github.com/ponrove/configura/configura.go:40-77 | after a load, the loaded key reads back the stored value |
| Configura.LookupStoreOtherName | vendor/github.com/ponrove/configura/configura.go:40-77 | a load leaves every other name of the same kind unchanged |
| Configura.LookupStoreOtherKind | vendor/github.com/ponrove/configura/configura.go:82-98 | a load leaves the maps of every other kind unchanged, including the same name under another kind |
| Configura.LookupStore | vendor/github.com/ponrove/configura/configura.go:40-77 | after a load, only the loaded (kind, name) key reads differently, and it reads the stored value |
| Configura.LastWriteWins | vendor/github.com/ponrove/configura/configura.go:43-75 | loading a key twice reads, for every key, as if only the second load had happened |
| Configura.MissingEmptyIff | vendor/github.com/ponrove/configura/configura.go:340-353 | the missing list is empty exactly when checkKey finds every argument present |
| Configura.MissingAppend | vendor/github.com/ponrove/configura/configura.go:341-346 | the missing names of two argument lists in a row are the missing names of each, in order |
| Configura.EmptyLookup | vendor/github.com/ponrove/configura/configura.go:101-121 | a fresh ConfigImpl holds no key of any kind |
| Configura.FreshReadsZero | vendor/github.com/ponrove/configura/configura.go:101-121 | after NewConfigImpl every accessor returns its kind's zero value, for every key of every kind |
| Configura.MissingWhenEmpty | vendor/github.com/ponrove/configura/configura.go:340-353 | against a fresh ConfigImpl every argument is reported missing, in order, under its name ("" for a non-Variable) |
| Env.Bool | vendor/github.com/ponrove/configura/env.go:10-17 | true for the six true spellings, false for the six false spellings, the fallback for anything else or an absent variable |
| Env.String | vendor/github.com/ponrove/configura/env.go:20-25 | the value whenever the variable is set, even to ""; the fallback only when absent |
| Env.Int | vendor/github.com/ponrove/configura/env.go:29-36 | the decimal value when the text is signed decimal within 64 bits; the fallback otherwise |
| Env.Int8 | vendor/github.com/ponrove/configura/env.go:40-47 | the decimal value when the text is signed decimal in [-128, 128); the fallback otherwise, so the int8 conversion loses nothing |
| Env.Int16 | vendor/github.com/ponrove/configura/env.go:51-58 | the decimal value when the text is signed decimal in the int16 range; the fallback otherwise |
| Env.Int32 | vendor/github.com/ponrove/configura/env.go:62-69 | the decimal value when the text is signed decimal in the int32 range; the fallback otherwise |
| Env.Int64 | vendor/github.com/ponrove/configura/env.go:73-80 | the decimal value when the text is signed decimal in the int64 range; the fallback otherwise |
| Env.Uint | vendor/github.com/ponrove/configura/env.go:84-91 | the decimal value when the text is unsigned decimal below 2^64; the fallback otherwise, including any sign |
| Env.Uint8 | vendor/github.com/ponrove/configura/env.go:95-102 | the decimal value when the text is unsigned decimal below 256; the fallback otherwise |
| Env.Uint16 | vendor/github.com/ponrove/configura/env.go:106-113 | the decimal value when the text is unsigned decimal below 2^16; the fallback otherwise |
| Env.Uint32 | vendor/github.com/ponrove/configura/env.go:117-124 | the decimal value when the text is unsigned decimal below 2^32; the fallback otherwise |
| Env.Uint64 | vendor/github.com/ponrove/configura/env.go:128-135 | the decimal value when the text is unsigned decimal below 2^64; the fallback otherwise |
| Env.Uintptr | vendor/github.com/ponrove/configura/env.go:139-147 | the decimal value when the text is unsigned decimal below 2^IntSize; the fallback otherwise |
| Env.Bytes | vendor/github.com/ponrove/configura/env.go:151-156 | the UTF-8 encoding of the value whenever the variable is set, which decodes back to the value's code points; the fallback only when absent |
| Env.Runes | vendor/github.com/ponrove/configura/env.go:160-165 | the value's code points whenever the variable is set; the fallback only when absent |
| Env.Float32 | vendor/github.com/ponrove/configura/env.go:169-176 | the parsed float when the text parses at 32 bits; the fallback when absent or unparsable |
| Env.Float64 | vendor/github.com/ponrove/configura/env.go:180-187 | the parsed float when the text parses at 64 bits; the fallback when absent or unparsable |
| StrConv.DigitRun | vendor/github.com/ponrove/configura/env.go:84-147 | the maximal run of digits from a position: all digits up to the end it returns, and no digit there |
| StrConv.ParseUint | vendor/github.com/ponrove/configura/env.go:84-147 | success exactly for unsigned decimal text whose value fits the bit size, with that value; a range error exactly when the leading digits already exceed it |
| StrConv.ParseInt | vendor/github.com/ponrove/configura/env.go:40-80 | success exactly for signed decimal text whose value lies in the bit size's signed range, with that value |
| StrConv.Atoi | vendor/github.com/ponrove/configura/env.go:29-36 | success exactly for signed decimal text within 64 bits, with that value |
| StrConv.ParseBool | vendor/github.com/ponrove/configura/env.go:10-17 | true exactly for 1 t T TRUE true True, false exactly for 0 f F FALSE false False, an error for every other text |
| StrConv.DecimalValueStep | vendor/github.com/ponrove/configura/env.go:84-147 | a further digit multiplies the value so far by ten and adds the digit |
| StrConv.DecimalValueMonotone | vendor/github.com/ponrove/configura/env.go:84-147 | a longer prefix of digits never has a smaller value, which is why an overflow inside the digits is final |
| StrConv.ScanUintMeaning | vendor/github.com/ponrove/configura/env.go:84-147 | the digit loop gives a range error when the leading digits exceed the maximum, else a syntax error if a non-digit follows, else the value of the text |
| Utf8.EncodeRune | vendor/github.com/ponrove/configura/env.go:151-156 | every character encodes to one to four bytes |
| Utf8.DecodeRune | vendor/github.com/ponrove/configura/env.go:160-165 | decoding consumes between one and four bytes of non-empty input, and none of empty input |
| Utf8.DecodeEncodedRune | vendor/github.com/ponrove/configura/env.go:160-165 | decoding the encoding of a character gives its code point and consumes exactly its bytes |
| Utf8.DecodeTwoBytes | vendor/github.com/ponrove/configura/env.go:160-165 | a two-byte encoding decodes to its code point |
| Utf8.DecodeThreeBytes | vendor/github.com/ponrove/configura/env.go:160-165 | a three-byte encoding decodes to its code point |
| Utf8.DecodeFourBytes | vendor/github.com/ponrove/configura/env.go:160-165 | a four-byte encoding decodes to its code point |
| Utf8.DecodeEncode | vendor/github.com/ponrove/configura/env.go:160-165 | `[]rune(v)` decodes `v`'s UTF-8 bytes back to exactly its code points |

## Left out

- `Merge`, which callers use to combine configurations: its source is not part of this model, so no conflict policy is assumed for it.
- cmd/main.go: process wiring (HTTP router, API, runner, logging) over libraries that are not part of this model.
- `os.LookupEnv`: the process environment is an explicit `map<string, string>` parameter. Process state and its changes over time are not modelled.
- Env.Float32, Env.Float64: `strconv.ParseFloat` is not interpreted. It is a parameter (`FloatSyntax`) returning an IEEE bit pattern or nothing, so rounding and the float syntax are not modelled.
- StrConv.ParseUint, StrConv.ParseInt: only base 10 and the bit sizes the loaders pass (0, 8, 16, 32, 64). The invalid-bit-size error is not modelled, and neither is the returned clamped value that accompanies a range error.
- Env.Uint, Env.Uintptr, Env.Int: a 64-bit platform only (`IntSize` = 64); 32-bit targets are not modelled.
- Env.Bytes, Env.Runes: a Go string may hold bytes that are not valid UTF-8; a Dafny string cannot. Such values, and the U+FFFD replacement `[]rune` produces for them, are not modelled.
- Nil and empty slices are the same empty sequence, so `Bytes`/`Runes` returning nil cannot be told apart from returning an empty slice.
- Configura.LoadEnvironment: the fallback must have the key's kind. Go's type parameter T enforces that statically; the `requires` states it.
- Configura.LastWriteWins: stated key by key through `Lookup`, not as equality of the two registries.
- The sentinel's identity as one allocated error value and `errors.Is`: `Unwrap` returns the one sentinel value, and the chain walk is not modelled.
- Concurrent reads after start-up: the source does not enforce read-only use, and the model has no concurrency.
- Env.Bytes, Env.Runes, Configura.ConfigImpl.Bytes, Configura.ConfigImpl.Runes: slice aliasing is not modelled. In Go, an absent variable makes `Bytes`/`Runes` return the caller's own fallback slice (env.go:155,164). `LoadEnvironment` stores that same slice (configura.go:67,69), and the accessors hand the stored slice out (configura.go:211,218). So writing through either slice changes the registry. Here values are immutable sequences, so the model cannot show this.
- Configura.LoadEnvironment: panics are not modelled. Go panics on a nil `*ConfigImpl`, or on a `ConfigImpl{}` literal whose maps are nil, because assigning into a nil map panics (configura.go:43-75; the type and its fields are exported, configura.go:81-99). Here a `ConfigImpl` is never null and its maps always exist, as after `NewConfigImpl`.

/**
 * The JSON data the decoders work on, and the behaviour of serde's derived
 * deserializers for the field types the protocol uses.
 *
 * A payload reaches the decoder as text; the model takes that text already
 * parsed (`Text`), so the only text-level fact kept is whether it parses.
 * `Value` plays the part of serde_json's `Value`.
 */
module Json {

  /** Signed integers of the widths the record fields are declared with. */
  const I32Min: int := -0x8000_0000
  const I32Max: int := 0x7fff_ffff
  type Int32 = x: int | -0x8000_0000 <= x <= 0x7fff_ffff
  type Int64 = x: int | -0x8000_0000_0000_0000 <= x <= 0x7fff_ffff_ffff_ffff

  datatype Option<+T> = None | Some(value: T)

  /**
   * A parsed JSON value. A number written without fraction or exponent is
   * an `Int`; any other number is a `Float`. An object maps each key to one
   * value.
   */
  datatype Value =
    | Null
    | Bool(b: bool)
    | Int(n: int)
    | Float(r: real)
    | Str(s: string)
    | Arr(items: seq<Value>)
    | Obj(fields: map<string, Value>)

  /** Payload text as the engine delivers it: it either parses to a value or it does not. */
  datatype Text = WellFormed(value: Value) | Malformed

  /** Why a deserializer rejected its input (the diagnostic inside serde_json's error). */
  datatype DecodeError =
    | Syntax                           // the text is not JSON
    | InvalidType(expected: string)    // a value of the wrong JSON type
    | OutOfRange(n: int)               // an integer outside the field's width
    | MissingField(field: string)      // a required key is absent
    | UnknownVariant(variant: string)  // a name no variant of the enum carries

  datatype Result<+T, +E> = Ok(value: T) | Err(error: E) {
    predicate IsFailure() { Err? }
    function PropagateFailure<U>(): Result<U, E> requires Err? { Err(error) }
    function Extract(): T requires Ok? { value }
  }

  /** Why a decoder aborted the process instead of returning. */
  datatype PanicReason =
    | UnknownTaskChainStatus(code: Int32)
    | UnknownSubTaskStatus(code: Int32)
    | UnknownSubTaskDetail(subtask: string)
    | UnwrapFailed(error: DecodeError)

  /** A call that either returns a value or panics. */
  datatype Run<+T> = Returns(value: T) | Panics(reason: PanicReason) {
    predicate IsFailure() { Panics? }
    function PropagateFailure<U>(): Run<U> requires Panics? { Panics(reason) }
    function Extract(): T requires Returns? { value }
  }

  /** `.unwrap()` on a deserialization result. */
  function Unwrap<T>(r: Result<T, DecodeError>): (run: Run<T>)
    ensures run.Returns? <==> r.Ok?
    ensures r.Ok? ==> run.value == r.value
    ensures r.Err? ==> run.reason == UnwrapFailed(r.error)
  {
    match r
    case Ok(x) => Returns(x)
    case Err(e) => Panics(UnwrapFailed(e))
  }

  /** serde_json's `value[key]`: the value at `key`, or `Null` when `v` is not an object or lacks the key. */
  function Index(v: Value, key: string): Value {
    if v.Obj? && key in v.fields then v.fields[key] else Null
  }

  predicate IsInt32(v: Value) {
    v.Int? && I32Min <= v.n <= I32Max
  }

  // Deserializers of the primitive field types.

  function AsString(v: Value): Result<string, DecodeError> {
    if v.Str? then Ok(v.s) else Err(InvalidType("a string"))
  }

  function AsBool(v: Value): Result<bool, DecodeError> {
    if v.Bool? then Ok(v.b) else Err(InvalidType("a boolean"))
  }

  function AsI32(v: Value): Result<Int32, DecodeError> {
    if !v.Int? then Err(InvalidType("i32"))
    else if I32Min <= v.n <= I32Max then Ok(v.n)
    else Err(OutOfRange(v.n))
  }

  function AsI64(v: Value): Result<Int64, DecodeError> {
    if !v.Int? then Err(InvalidType("i64"))
    else if -0x8000_0000_0000_0000 <= v.n <= 0x7fff_ffff_ffff_ffff then Ok(v.n)
    else Err(OutOfRange(v.n))
  }

  /** A required field of a derived struct: `v` must be an object holding `key`; other keys are ignored. */
  function Field(v: Value, key: string): (r: Result<Value, DecodeError>)
    ensures r.Ok? <==> v.Obj? && key in v.fields
    ensures r.Ok? ==> r.value == v.fields[key]
    ensures v.Obj? && key !in v.fields ==> r == Err(MissingField(key))
  {
    if !v.Obj? then Err(InvalidType("a struct"))
    else if key !in v.fields then Err(MissingField(key))
    else Ok(v.fields[key])
  }

  function StringField(v: Value, key: string): (r: Result<string, DecodeError>)
    ensures r.Ok? <==> HasString(v, key)
    ensures r.Ok? ==> v.fields[key] == Str(r.value)
  {
    var x :- Field(v, key);
    AsString(x)
  }

  function BoolField(v: Value, key: string): (r: Result<bool, DecodeError>)
    ensures r.Ok? <==> HasBool(v, key)
    ensures r.Ok? ==> v.fields[key] == Bool(r.value)
  {
    var x :- Field(v, key);
    AsBool(x)
  }

  function I32Field(v: Value, key: string): (r: Result<Int32, DecodeError>)
    ensures r.Ok? <==> HasInt32(v, key)
    ensures r.Ok? ==> v.fields[key] == Int(r.value)
  {
    var x :- Field(v, key);
    AsI32(x)
  }

  function I64Field(v: Value, key: string): (r: Result<Int64, DecodeError>)
    ensures r.Ok? <==> HasInt64(v, key)
    ensures r.Ok? ==> v.fields[key] == Int(r.value)
  {
    var x :- Field(v, key);
    AsI64(x)
  }

  /** Field `key` is present and holds a string. */
  predicate HasString(v: Value, key: string) {
    v.Obj? && key in v.fields && v.fields[key].Str?
  }

  /** Field `key` is present and holds an integer within i32. */
  predicate HasInt32(v: Value, key: string) {
    v.Obj? && key in v.fields && IsInt32(v.fields[key])
  }

  /** Field `key` is present and holds an integer within i64. */
  predicate HasInt64(v: Value, key: string) {
    v.Obj? && key in v.fields && v.fields[key].Int?
    && -0x8000_0000_0000_0000 <= v.fields[key].n <= 0x7fff_ffff_ffff_ffff
  }

  /** Field `key` is present and holds a boolean. */
  predicate HasBool(v: Value, key: string) {
    v.Obj? && key in v.fields && v.fields[key].Bool?
  }

  /** Field `key` is present and `decode` accepts it. */
  predicate HasField<T>(v: Value, key: string, decode: Value -> Result<T, DecodeError>) {
    v.Obj? && key in v.fields && decode(v.fields[key]).Ok?
  }

  /** Field `key` is present and is an array whose every element `decode` accepts. */
  predicate HasArray<T>(v: Value, key: string, decode: Value -> Result<T, DecodeError>) {
    v.Obj? && key in v.fields && DecodeArray(v.fields[key], decode).Ok?
  }

  /**
   * A `Vec<T>`: the elements decoded one by one, in order; the first element
   * that fails decides the error.
   */
  function DecodeItems<T>(items: seq<Value>, decode: Value -> Result<T, DecodeError>): (r: Result<seq<T>, DecodeError>)
    ensures r.Ok? <==> forall i | 0 <= i < |items| :: decode(items[i]).Ok?
    ensures r.Ok? ==> |r.value| == |items| && forall i | 0 <= i < |items| :: decode(items[i]) == Ok(r.value[i])
    decreases |items|
  {
    if items == [] then Ok([])
    else
      var head :- decode(items[0]);
      var tail :- DecodeItems(items[1..], decode);
      Ok([head] + tail)
  }

  function DecodeArray<T>(v: Value, decode: Value -> Result<T, DecodeError>): Result<seq<T>, DecodeError> {
    if v.Arr? then DecodeItems(v.items, decode) else Err(InvalidType("a sequence"))
  }

  function ArrayField<T>(v: Value, key: string, decode: Value -> Result<T, DecodeError>): (r: Result<seq<T>, DecodeError>)
    ensures r.Ok? <==> HasArray(v, key, decode)
    ensures r.Ok? ==> DecodeArray(v.fields[key], decode) == Ok(r.value)
  {
    var x :- Field(v, key);
    DecodeArray(x, decode)
  }

  function StringArrayField(v: Value, key: string): Result<seq<string>, DecodeError> {
    ArrayField(v, key, AsString)
  }

  /** A `HashMap<String, i32>`: an object whose every value is an integer within i32. */
  function DecodeI32Map(v: Value): (r: Result<map<string, Int32>, DecodeError>)
    ensures r.Ok? <==> v.Obj? && forall k | k in v.fields :: IsInt32(v.fields[k])
    ensures r.Ok? ==> r.value.Keys == v.fields.Keys && forall k | k in r.value :: v.fields[k] == Int(r.value[k])
  {
    if !v.Obj? then Err(InvalidType("a map"))
    else if forall k | k in v.fields :: IsInt32(v.fields[k]) then Ok(map k | k in v.fields :: v.fields[k].n)
    else Err(InvalidType("a map of i32 values"))
  }

  // The canonical JSON form of values, as the engine writes them.

  function ArrayJson<T>(xs: seq<T>, encode: T -> Value): Value {
    Arr(seq(|xs|, i requires 0 <= i < |xs| => encode(xs[i])))
  }

  function StringArrayJson(xs: seq<string>): Value {
    ArrayJson(xs, s => Str(s))
  }

  function I32MapJson(m: map<string, Int32>): Value {
    Obj(map k | k in m :: Int(m[k]))
  }

  /** Decoding the canonical form of a sequence gives the sequence back, whenever it does so for each element. */
  lemma ArrayRoundTrip<T>(xs: seq<T>, encode: T -> Value, decode: Value -> Result<T, DecodeError>)
    requires forall x :: decode(encode(x)) == Ok(x)
    ensures DecodeArray(ArrayJson(xs, encode), decode) == Ok(xs)
  {
    var items := ArrayJson(xs, encode).items;
    assert forall i | 0 <= i < |items| :: decode(items[i]) == Ok(xs[i]);
    var r := DecodeItems(items, decode);
    assert r.Ok?;
    assert r.value == xs;
  }

  lemma StringArrayRoundTrip(xs: seq<string>)
    ensures DecodeArray(StringArrayJson(xs), AsString) == Ok(xs)
  {
    ArrayRoundTrip(xs, s => Str(s), AsString);
  }

  lemma I32MapRoundTrip(m: map<string, Int32>)
    ensures DecodeI32Map(I32MapJson(m)) == Ok(m)
  {
    var r := DecodeI32Map(I32MapJson(m));
    assert r.Ok?;
    assert r.value == m;
  }
}

/**
 The generic value tree that crosses between the plugin (JavaScript) and the daemon (Rust).

 A finite number is a real; the encoders only ask whether it is an integer and whether it is
 safe.  Negative zero is not distinguished from zero.
 */
module Values {

  import opened Wrappers
  import Varints

  const MAX_VALUE_DEPTH := 64
  const I64_MAX := 0x7fff_ffff_ffff_ffff

  /** A JavaScript value as `encodeValue` inspects it. */
  datatype JsValue =
    | Undefined
    | Null
    | Boolean(bit: bool)
    | BigInt(big: int)
    | Number(number: real)
    | NonFinite
    | Text(text: string)
    | List(items: seq<JsValue>)
    | Record(fields: map<string, JsValue>)
    | Unsupported  // functions and symbols

  datatype Double = Finite(number: real) | NotFinite

  /** The Protocol Buffers message both sides exchange; `Unset` has no kind. */
  datatype WireValue =
    | NullValue
    | BooleanValue(bit: bool)
    | SignedValue(signed: int)
    | UnsignedValue(unsigned: nat)
    | FloatValue(float: Double)
    | TextValue(text: string)
    | ListValue(items: seq<WireValue>)
    | ObjectValue(fields: map<string, WireValue>)
    | Unset

  /** `serde_json::Value`, with its three number representations. */
  datatype JsonValue =
    | JsonNull
    | JsonBool(bit: bool)
    | PosInt(positive: nat)
    | NegInt(negative: int)
    | JsonFloat(float: real)
    | JsonString(text: string)
    | JsonArray(items: seq<JsonValue>)
    | JsonObject(fields: map<string, JsonValue>)

  datatype ValueError = TooDeep | UnsafeInteger | NonFiniteNumber | UnsupportedType

  predicate IsInteger(x: real)
  {
    x.Floor as real == x
  }

  predicate IsSafe(n: int)
  {
    -Varints.MAX_SAFE_INTEGER <= n <= Varints.MAX_SAFE_INTEGER
  }

  /** The safe integers are those between -2^53 and 2^53. */
  lemma SafeIntegers(n: int)
    ensures IsSafe(n) <==> -0x20_0000_0000_0000 < n < 0x20_0000_0000_0000
  {
  }

  /** All the elements, or the error of the first that failed. */
  function Collect<T>(rs: seq<Result<T, ValueError>>): (r: Result<seq<T>, ValueError>)
    ensures r.Ok? <==> forall i :: 0 <= i < |rs| ==> rs[i].Ok?
    ensures r.Ok? ==> |r.value| == |rs| && forall i :: 0 <= i < |rs| ==> rs[i] == Ok(r.value[i])
  {
    if rs == [] then Ok([])
    else if rs[0].Err? then Err(rs[0].error)
    else match Collect(rs[1..])
         case Ok(tail) => Ok([rs[0].value] + tail)
         case Err(e) => Err(e)
  }

  /** The same over the entries of an object.  Which of several errors is reported depends on the
      iteration order, which is not modelled: any one of them may be. */
  ghost function CollectFields<T>(rs: map<string, Result<T, ValueError>>): (r: Result<map<string, T>, ValueError>)
    ensures r.Ok? <==> forall k <- rs :: rs[k].Ok?
    ensures r.Ok? ==> r.value.Keys == rs.Keys && forall k <- rs :: rs[k] == Ok(r.value[k])
  {
    if k :| k in rs && rs[k].Err? then Err(rs[k].error) else Ok(map k | k in rs :: rs[k].value)
  }

  // ---------------------------------------------------------------- the four passes

  /** `encodeValue` in the plugin. */
  ghost function TsEncode(v: JsValue, depth: nat): Result<WireValue, ValueError>
    decreases v
  {
    if depth > MAX_VALUE_DEPTH then Err(TooDeep)
    else match v
      case Null => Ok(NullValue)
      case Undefined => Ok(NullValue)
      case Boolean(b) => Ok(BooleanValue(b))
      case BigInt(n) =>
        if !IsSafe(n) then Err(UnsafeInteger)
        else Ok(if n >= 0 then UnsignedValue(n) else SignedValue(n))
      case NonFinite => Err(NonFiniteNumber)
      case Number(x) =>
        if IsInteger(x) && !IsSafe(x.Floor) then Err(UnsafeInteger)
        else if IsInteger(x) then
          Ok(if x >= 0.0 then UnsignedValue(x.Floor) else SignedValue(x.Floor))
        else Ok(FloatValue(Finite(x)))
      case Text(s) => Ok(TextValue(s))
      case List(items) =>
        (match Collect(seq(|items|, i requires 0 <= i < |items| => TsEncode(items[i], depth + 1)))
         case Ok(values) => Ok(ListValue(values))
         case Err(e) => Err(e))
      case Record(fields) =>
        (match CollectFields(map k | k in fields && !fields[k].Undefined? :: TsEncode(fields[k], depth + 1))
         case Ok(values) => Ok(ObjectValue(values))
         case Err(e) => Err(e))
      case Unsupported => Err(UnsupportedType)
  }

  /** `decode_value` in the daemon. */
  ghost function RustDecode(w: WireValue, depth: nat): Result<JsonValue, ValueError>
    decreases w
  {
    if depth > MAX_VALUE_DEPTH then Err(TooDeep)
    else match w
      case BooleanValue(b) => Ok(JsonBool(b))
      case SignedValue(n) => Ok(if n < 0 then NegInt(n) else PosInt(n))
      case UnsignedValue(n) => Ok(PosInt(n))
      case FloatValue(Finite(x)) => Ok(JsonFloat(x))
      case FloatValue(NotFinite) => Err(NonFiniteNumber)
      case TextValue(s) => Ok(JsonString(s))
      case ListValue(items) =>
        (match Collect(seq(|items|, i requires 0 <= i < |items| => RustDecode(items[i], depth + 1)))
         case Ok(values) => Ok(JsonArray(values))
         case Err(e) => Err(e))
      case ObjectValue(fields) =>
        (match CollectFields(map k | k in fields :: RustDecode(fields[k], depth + 1))
         case Ok(values) => Ok(JsonObject(values))
         case Err(e) => Err(e))
      case NullValue => Ok(JsonNull)
      case Unset => Ok(JsonNull)
  }

  /** `encode_value` in the daemon: `as_i64` first, then `as_u64`, then `as_f64`. */
  ghost function RustEncode(j: JsonValue, depth: nat): Result<WireValue, ValueError>
    decreases j
  {
    if depth > MAX_VALUE_DEPTH then Err(TooDeep)
    else match j
      case JsonNull => Ok(NullValue)
      case JsonBool(b) => Ok(BooleanValue(b))
      case NegInt(n) => Ok(SignedValue(n))
      case PosInt(n) => Ok(if n <= I64_MAX then SignedValue(n) else UnsignedValue(n))
      case JsonFloat(x) => Ok(FloatValue(Finite(x)))
      case JsonString(s) => Ok(TextValue(s))
      case JsonArray(items) =>
        (match Collect(seq(|items|, i requires 0 <= i < |items| => RustEncode(items[i], depth + 1)))
         case Ok(values) => Ok(ListValue(values))
         case Err(e) => Err(e))
      case JsonObject(fields) =>
        (match CollectFields(map k | k in fields :: RustEncode(fields[k], depth + 1))
         case Ok(values) => Ok(ObjectValue(values))
         case Err(e) => Err(e))
  }

  /** `decodeValue` in the plugin; integers pass through `safeNumber`. */
  ghost function TsDecode(w: WireValue, depth: nat): Result<JsValue, ValueError>
    decreases w
  {
    if depth > MAX_VALUE_DEPTH then Err(TooDeep)
    else match w
      case BooleanValue(b) => Ok(Boolean(b))
      case FloatValue(Finite(x)) => Ok(Number(x))
      case FloatValue(NotFinite) => Ok(NonFinite)
      case TextValue(s) => Ok(Text(s))
      case SignedValue(n) => if IsSafe(n) then Ok(Number(n as real)) else Err(UnsafeInteger)
      case UnsignedValue(n) => if IsSafe(n) then Ok(Number(n as real)) else Err(UnsafeInteger)
      case ListValue(items) =>
        (match Collect(seq(|items|, i requires 0 <= i < |items| => TsDecode(items[i], depth + 1)))
         case Ok(values) => Ok(List(values))
         case Err(e) => Err(e))
      case ObjectValue(fields) =>
        (match CollectFields(map k | k in fields :: TsDecode(fields[k], depth + 1))
         case Ok(values) => Ok(Record(values))
         case Err(e) => Err(e))
      case NullValue => Ok(Null)
      case Unset => Ok(Null)
  }

  // ---------------------------------------------------------------- what survives

  /** The trees a caller may send at a depth: finite, safe integers, no functions, and every
      encoded node within the depth limit.  Undefined fields are not encoded, so they do not count. */
  ghost predicate Portable(v: JsValue, depth: nat)
    decreases v
  {
    depth <= MAX_VALUE_DEPTH
    && match v
       case BigInt(n) => IsSafe(n)
       case Number(x) => IsInteger(x) ==> IsSafe(x.Floor)
       case NonFinite => false
       case Unsupported => false
       case List(items) => forall i :: 0 <= i < |items| ==> Portable(items[i], depth + 1)
       case Record(fields) =>
         forall k :: k in fields && !fields[k].Undefined? ==> Portable(fields[k], depth + 1)
       case _ => true
  }

  /** Undefined reads as null, undefined fields are dropped, and a bigint comes back as a number. */
  function Normalize(v: JsValue): JsValue
  {
    match v
    case Undefined => Null
    case BigInt(n) => Number(n as real)
    case List(items) => List(seq(|items|, i requires 0 <= i < |items| => Normalize(items[i])))
    case Record(fields) => Record(map k | k in fields && !fields[k].Undefined? :: Normalize(fields[k]))
    case _ => v
  }

  /** One trip through the daemon and back. */
  ghost function ThereAndBack(v: JsValue, depth: nat): Result<JsValue, ValueError>
  {
    match TsEncode(v, depth)
    case Err(e) => Err(e)
    case Ok(request) =>
      match RustDecode(request, depth)
      case Err(e) => Err(e)
      case Ok(json) =>
        match RustEncode(json, depth)
        case Err(e) => Err(e)
        case Ok(response) => TsDecode(response, depth)
  }

  lemma CollectIs<T>(rs: seq<Result<T, ValueError>>, vs: seq<T>)
    requires |rs| == |vs| && forall i :: 0 <= i < |rs| ==> rs[i] == Ok(vs[i])
    ensures Collect(rs) == Ok(vs)
  {
    var r := Collect(rs);
    assert r.Ok?;
    forall i | 0 <= i < |vs| ensures r.value[i] == vs[i]
    {
      assert rs[i] == Ok(r.value[i]);
    }
    assert r.value == vs;
  }

  lemma CollectFieldsIs<T>(rs: map<string, Result<T, ValueError>>, vs: map<string, T>)
    requires rs.Keys == vs.Keys && forall k <- rs :: rs[k] == Ok(vs[k])
    ensures CollectFields(rs) == Ok(vs)
  {
    var r := CollectFields(rs);
    forall k | k in vs ensures r.value[k] == vs[k]
    {
      assert rs[k] == Ok(r.value[k]);
    }
    assert r.value == vs;
  }

  /** The JSON the daemon works on for a portable tree. */
  function ToJson(v: JsValue): JsonValue
  {
    match v
    case Undefined => JsonNull
    case Null => JsonNull
    case Boolean(b) => JsonBool(b)
    case BigInt(n) => JsonInteger(n)
    case Number(x) => if IsInteger(x) then JsonInteger(x.Floor) else JsonFloat(x)
    case NonFinite => JsonNull
    case Text(s) => JsonString(s)
    case List(items) => JsonArray(seq(|items|, i requires 0 <= i < |items| => ToJson(items[i])))
    case Record(fields) => JsonObject(map k | k in fields && !fields[k].Undefined? :: ToJson(fields[k]))
    case Unsupported => JsonNull
  }

  function JsonInteger(n: int): JsonValue
  {
    if n < 0 then NegInt(n) else PosInt(n)
  }

  /** The encoder accepts exactly the portable trees. */
  lemma {:induction false} EncodableIffPortable(v: JsValue, depth: nat)
    ensures TsEncode(v, depth).Ok? <==> Portable(v, depth)
    decreases v
  {
    hide TsEncode;
    match v
    case List(items) =>
      EncodableList(items, depth);
      forall i | 0 <= i < |items| ensures TsEncode(items[i], depth + 1).Ok? <==> Portable(items[i], depth + 1)
      {
        EncodableIffPortable(items[i], depth + 1);
      }
    case Record(fields) =>
      EncodableFields(fields, depth);
      forall k | k in fields && !fields[k].Undefined?
        ensures TsEncode(fields[k], depth + 1).Ok? <==> Portable(fields[k], depth + 1)
      {
        EncodableIffPortable(fields[k], depth + 1);
      }
    case _ => EncodableLeaf(v, depth);
  }

  lemma EncodableLeaf(v: JsValue, depth: nat)
    requires !v.List? && !v.Record?
    ensures TsEncode(v, depth).Ok? <==> Portable(v, depth)
  {
  }

  lemma EncodableList(items: seq<JsValue>, depth: nat)
    ensures TsEncode(List(items), depth).Ok?
            <==> depth <= MAX_VALUE_DEPTH && forall i :: 0 <= i < |items| ==> TsEncode(items[i], depth + 1).Ok?
  {
    var rs := seq(|items|, i requires 0 <= i < |items| => TsEncode(items[i], depth + 1));
    assert depth <= MAX_VALUE_DEPTH ==> (TsEncode(List(items), depth).Ok? <==> Collect(rs).Ok?);
    assert forall i :: 0 <= i < |items| ==> rs[i] == TsEncode(items[i], depth + 1);
    hide TsEncode;
  }

  lemma EncodableFields(fields: map<string, JsValue>, depth: nat)
    ensures TsEncode(Record(fields), depth).Ok?
            <==> depth <= MAX_VALUE_DEPTH
                 && forall k :: k in fields && !fields[k].Undefined? ==> TsEncode(fields[k], depth + 1).Ok?
  {
    var rs := map k | k in fields && !fields[k].Undefined? :: TsEncode(fields[k], depth + 1);
    assert depth <= MAX_VALUE_DEPTH ==> (TsEncode(Record(fields), depth).Ok? <==> CollectFields(rs).Ok?);
    assert forall k :: k in fields && !fields[k].Undefined? ==> rs[k] == TsEncode(fields[k], depth + 1);
    hide TsEncode;
  }

  lemma TsEncodeOfList(items: seq<JsValue>, depth: nat, results: seq<WireValue>)
    requires depth <= MAX_VALUE_DEPTH && |results| == |items|
    requires forall i :: 0 <= i < |items| ==> TsEncode(items[i], depth + 1) == Ok(results[i])
    ensures TsEncode(List(items), depth) == Ok(ListValue(results))
  {
    CollectIs(seq(|items|, i requires 0 <= i < |items| => TsEncode(items[i], depth + 1)), results);
  }

  lemma TsEncodeOfFields(fields: map<string, JsValue>, depth: nat, results: map<string, WireValue>)
    requires depth <= MAX_VALUE_DEPTH && results.Keys == (set k | k in fields && !fields[k].Undefined?)
    requires forall k <- results :: TsEncode(fields[k], depth + 1) == Ok(results[k])
    ensures TsEncode(Record(fields), depth) == Ok(ObjectValue(results))
  {
    CollectFieldsIs(map k | k in fields && !fields[k].Undefined? :: TsEncode(fields[k], depth + 1), results);
  }

  lemma RustDecodeOfList(items: seq<WireValue>, depth: nat, results: seq<JsonValue>)
    requires depth <= MAX_VALUE_DEPTH && |results| == |items|
    requires forall i :: 0 <= i < |items| ==> RustDecode(items[i], depth + 1) == Ok(results[i])
    ensures RustDecode(ListValue(items), depth) == Ok(JsonArray(results))
  {
    CollectIs(seq(|items|, i requires 0 <= i < |items| => RustDecode(items[i], depth + 1)), results);
  }

  lemma RustDecodeOfFields(fields: map<string, WireValue>, depth: nat, results: map<string, JsonValue>)
    requires depth <= MAX_VALUE_DEPTH && results.Keys == (fields.Keys)
    requires forall k <- results :: RustDecode(fields[k], depth + 1) == Ok(results[k])
    ensures RustDecode(ObjectValue(fields), depth) == Ok(JsonObject(results))
  {
    CollectFieldsIs(map k | k in fields :: RustDecode(fields[k], depth + 1), results);
  }

  lemma RustEncodeOfList(items: seq<JsonValue>, depth: nat, results: seq<WireValue>)
    requires depth <= MAX_VALUE_DEPTH && |results| == |items|
    requires forall i :: 0 <= i < |items| ==> RustEncode(items[i], depth + 1) == Ok(results[i])
    ensures RustEncode(JsonArray(items), depth) == Ok(ListValue(results))
  {
    CollectIs(seq(|items|, i requires 0 <= i < |items| => RustEncode(items[i], depth + 1)), results);
  }

  lemma RustEncodeOfFields(fields: map<string, JsonValue>, depth: nat, results: map<string, WireValue>)
    requires depth <= MAX_VALUE_DEPTH && results.Keys == (fields.Keys)
    requires forall k <- results :: RustEncode(fields[k], depth + 1) == Ok(results[k])
    ensures RustEncode(JsonObject(fields), depth) == Ok(ObjectValue(results))
  {
    CollectFieldsIs(map k | k in fields :: RustEncode(fields[k], depth + 1), results);
  }

  lemma TsDecodeOfList(items: seq<WireValue>, depth: nat, results: seq<JsValue>)
    requires depth <= MAX_VALUE_DEPTH && |results| == |items|
    requires forall i :: 0 <= i < |items| ==> TsDecode(items[i], depth + 1) == Ok(results[i])
    ensures TsDecode(ListValue(items), depth) == Ok(List(results))
  {
    CollectIs(seq(|items|, i requires 0 <= i < |items| => TsDecode(items[i], depth + 1)), results);
  }

  lemma TsDecodeOfFields(fields: map<string, WireValue>, depth: nat, results: map<string, JsValue>)
    requires depth <= MAX_VALUE_DEPTH && results.Keys == (fields.Keys)
    requires forall k <- results :: TsDecode(fields[k], depth + 1) == Ok(results[k])
    ensures TsDecode(ObjectValue(fields), depth) == Ok(Record(results))
  {
    CollectFieldsIs(map k | k in fields :: TsDecode(fields[k], depth + 1), results);
  }

  lemma LeafArrives(v: JsValue, depth: nat)
    requires Portable(v, depth) && !v.List? && !v.Record?
    ensures TsEncode(v, depth).Ok?
    ensures RustDecode(TsEncode(v, depth).value, depth) == Ok(ToJson(v))
  {
  }

  /** The daemon reads what the plugin meant. */
  lemma {:induction false} RequestArrives(v: JsValue, depth: nat)
    requires Portable(v, depth)
    ensures TsEncode(v, depth).Ok?
    ensures RustDecode(TsEncode(v, depth).value, depth) == Ok(ToJson(v))
    decreases v
  {
    hide TsEncode, RustDecode;
    match v
    case List(items) =>
      forall i | 0 <= i < |items|
        ensures TsEncode(items[i], depth + 1).Ok?
        ensures RustDecode(TsEncode(items[i], depth + 1).value, depth + 1) == Ok(ToJson(items[i]))
      {
        RequestArrives(items[i], depth + 1);
      }
      var ws := seq(|items|, i requires 0 <= i < |items| => TsEncode(items[i], depth + 1).value);
      TsEncodeOfList(items, depth, ws);
      RustDecodeOfList(ws, depth, ToJson(v).items);
    case Record(fields) =>
      forall k | k in fields && !fields[k].Undefined?
        ensures TsEncode(fields[k], depth + 1).Ok?
        ensures RustDecode(TsEncode(fields[k], depth + 1).value, depth + 1) == Ok(ToJson(fields[k]))
      {
        RequestArrives(fields[k], depth + 1);
      }
      var ws := map k | k in fields && !fields[k].Undefined? :: TsEncode(fields[k], depth + 1).value;
      TsEncodeOfFields(fields, depth, ws);
      RustDecodeOfFields(ws, depth, ToJson(v).fields);
    case _ => LeafArrives(v, depth);
  }

  lemma LeafReturns(v: JsValue, depth: nat)
    requires Portable(v, depth) && !v.List? && !v.Record?
    ensures RustEncode(ToJson(v), depth).Ok?
    ensures TsDecode(RustEncode(ToJson(v), depth).value, depth) == Ok(Normalize(v))
  {
  }

  /** The plugin reads back what the daemon held. */
  lemma {:induction false} ResponseReturns(v: JsValue, depth: nat)
    requires Portable(v, depth)
    ensures RustEncode(ToJson(v), depth).Ok?
    ensures TsDecode(RustEncode(ToJson(v), depth).value, depth) == Ok(Normalize(v))
    decreases v
  {
    hide RustEncode, TsDecode;
    match v
    case List(items) =>
      var json := ToJson(v).items;
      forall i | 0 <= i < |items|
        ensures RustEncode(json[i], depth + 1).Ok?
        ensures TsDecode(RustEncode(json[i], depth + 1).value, depth + 1) == Ok(Normalize(items[i]))
      {
        ResponseReturns(items[i], depth + 1);
      }
      var ws := seq(|items|, i requires 0 <= i < |items| => RustEncode(json[i], depth + 1).value);
      RustEncodeOfList(json, depth, ws);
      TsDecodeOfList(ws, depth, Normalize(v).items);
    case Record(fields) =>
      var json := ToJson(v).fields;
      forall k | k in json
        ensures RustEncode(json[k], depth + 1).Ok?
        ensures TsDecode(RustEncode(json[k], depth + 1).value, depth + 1) == Ok(Normalize(fields[k]))
      {
        ResponseReturns(fields[k], depth + 1);
      }
      var ws := map k | k in json :: RustEncode(json[k], depth + 1).value;
      RustEncodeOfFields(json, depth, ws);
      TsDecodeOfFields(ws, depth, Normalize(v).fields);
    case _ => LeafReturns(v, depth);
  }

  /** Inversion: a tree makes the round trip exactly when it is portable, and then comes back
      normalized, although the daemon turns unsigned tags into signed ones on the way. */
  lemma ValueInversion(v: JsValue, depth: nat)
    ensures Portable(v, depth) ==> ThereAndBack(v, depth) == Ok(Normalize(v))
    ensures !Portable(v, depth) ==> ThereAndBack(v, depth).Err?
  {
    EncodableIffPortable(v, depth);
    if Portable(v, depth) {
      RequestArrives(v, depth);
      ResponseReturns(v, depth);
    }
  }

  // ---------------------------------------------------------------- every response, every request

  /** What a JSON value is to JavaScript: all numbers become numbers. */
  function ToJs(j: JsonValue): JsValue
  {
    match j
    case JsonNull => Null
    case JsonBool(b) => Boolean(b)
    case PosInt(n) => Number(n as real)
    case NegInt(n) => Number(n as real)
    case JsonFloat(x) => Number(x)
    case JsonString(s) => Text(s)
    case JsonArray(items) => List(seq(|items|, i requires 0 <= i < |items| => ToJs(items[i])))
    case JsonObject(fields) => Record(map k | k in fields :: ToJs(fields[k]))
  }

  /** The JSON values that can be given to the plugin: within the depth, with safe integers. */
  ghost predicate Deliverable(j: JsonValue, depth: nat)
    decreases j
  {
    depth <= MAX_VALUE_DEPTH
    && match j
       case PosInt(n) => IsSafe(n)
       case NegInt(n) => IsSafe(n)
       case JsonArray(items) => forall i :: 0 <= i < |items| ==> Deliverable(items[i], depth + 1)
       case JsonObject(fields) => forall k :: k in fields ==> Deliverable(fields[k], depth + 1)
       case _ => true
  }

  /** A response of the daemon's own making, on its way to the plugin. */
  ghost function Back(j: JsonValue, depth: nat): Result<JsValue, ValueError>
  {
    match RustEncode(j, depth)
    case Err(e) => Err(e)
    case Ok(w) => TsDecode(w, depth)
  }

  /** Every response arrives as what it is to JavaScript, whatever its numbers are tagged as, exactly if it is
      within the depth and its integers are safe; otherwise there is an error. */
  lemma {:induction false} EveryResponseArrives(j: JsonValue, depth: nat)
    ensures if Deliverable(j, depth) then Back(j, depth) == Ok(ToJs(j)) else Back(j, depth).Err?
    decreases j
  {
    hide RustEncode, TsDecode;
    match j
    case JsonArray(items) =>
      forall i | 0 <= i < |items|
        ensures if Deliverable(items[i], depth + 1) then Back(items[i], depth + 1) == Ok(ToJs(items[i]))
                else Back(items[i], depth + 1).Err?
      {
        EveryResponseArrives(items[i], depth + 1);
      }
      BackOfList(items, depth, ToJs(j).items);
    case JsonObject(fields) =>
      forall k | k in fields
        ensures if Deliverable(fields[k], depth + 1) then Back(fields[k], depth + 1) == Ok(ToJs(fields[k]))
                else Back(fields[k], depth + 1).Err?
      {
        EveryResponseArrives(fields[k], depth + 1);
      }
      BackOfFields(fields, depth, ToJs(j).fields);
    case _ => LeafArrivesBack(j, depth);
  }

  lemma LeafArrivesBack(j: JsonValue, depth: nat)
    requires !j.JsonArray? && !j.JsonObject?
    ensures if Deliverable(j, depth) then Back(j, depth) == Ok(ToJs(j)) else Back(j, depth).Err?
  {
  }

  lemma BackOfList(items: seq<JsonValue>, depth: nat, results: seq<JsValue>)
    requires |results| == |items|
    ensures depth > MAX_VALUE_DEPTH ==> Back(JsonArray(items), depth).Err?
    ensures depth <= MAX_VALUE_DEPTH && (forall i :: 0 <= i < |items| ==> Back(items[i], depth + 1) == Ok(results[i]))
            ==> Back(JsonArray(items), depth) == Ok(List(results))
    ensures (exists i :: 0 <= i < |items| && Back(items[i], depth + 1).Err?) ==> Back(JsonArray(items), depth).Err?
  {
    if depth <= MAX_VALUE_DEPTH {
      var rs := seq(|items|, i requires 0 <= i < |items| => RustEncode(items[i], depth + 1));
      assert forall i :: 0 <= i < |items| ==> rs[i] == RustEncode(items[i], depth + 1);
      var c := Collect(rs);
      assert RustEncode(JsonArray(items), depth) == if c.Ok? then Ok(ListValue(c.value)) else Err(c.error);
      if c.Ok? {
        var ts := seq(|c.value|, i requires 0 <= i < |c.value| => TsDecode(c.value[i], depth + 1));
        assert forall i :: 0 <= i < |items| ==> rs[i] == Ok(c.value[i]) && ts[i] == Back(items[i], depth + 1);
        var d := Collect(ts);
        assert TsDecode(ListValue(c.value), depth) == if d.Ok? then Ok(List(d.value)) else Err(d.error);
        hide RustEncode, TsDecode, Collect;
        if forall i :: 0 <= i < |items| ==> Back(items[i], depth + 1) == Ok(results[i]) {
          CollectIs(ts, results);
        }
      }
    }
  }

  /** The encoded fields of an object, if it is encoded. */
  lemma RustEncodesFields(fields: map<string, JsonValue>, depth: nat) returns (ws: map<string, WireValue>)
    requires depth <= MAX_VALUE_DEPTH
    ensures RustEncode(JsonObject(fields), depth).Ok? <==> forall k :: k in fields ==> RustEncode(fields[k], depth + 1).Ok?
    ensures RustEncode(JsonObject(fields), depth).Ok? ==>
              && RustEncode(JsonObject(fields), depth) == Ok(ObjectValue(ws)) && ws.Keys == fields.Keys
              && forall k :: k in fields ==> RustEncode(fields[k], depth + 1) == Ok(ws[k])
  {
    var rs := map k | k in fields :: RustEncode(fields[k], depth + 1);
    var c := CollectFields(rs);
    assert RustEncode(JsonObject(fields), depth) == if c.Ok? then Ok(ObjectValue(c.value)) else Err(c.error);
    assert forall k :: k in fields ==> rs[k] == RustEncode(fields[k], depth + 1);
    hide RustEncode, CollectFields;
    ws := if c.Ok? then c.value else map[];
  }

  lemma TsDecodesFields(fields: map<string, WireValue>, depth: nat)
    requires depth <= MAX_VALUE_DEPTH
    ensures TsDecode(ObjectValue(fields), depth).Ok? <==> forall k :: k in fields ==> TsDecode(fields[k], depth + 1).Ok?
  {
    var rs := map k | k in fields :: TsDecode(fields[k], depth + 1);
    var c := CollectFields(rs);
    assert TsDecode(ObjectValue(fields), depth) == if c.Ok? then Ok(Record(c.value)) else Err(c.error);
    assert forall k :: k in fields ==> rs[k] == TsDecode(fields[k], depth + 1);
    hide TsDecode, CollectFields;
  }

  lemma BackOfFields(fields: map<string, JsonValue>, depth: nat, results: map<string, JsValue>)
    requires results.Keys == fields.Keys
    ensures depth > MAX_VALUE_DEPTH ==> Back(JsonObject(fields), depth).Err?
    ensures depth <= MAX_VALUE_DEPTH && (forall k :: k in fields ==> Back(fields[k], depth + 1) == Ok(results[k]))
            ==> Back(JsonObject(fields), depth) == Ok(Record(results))
    ensures (exists k :: k in fields && Back(fields[k], depth + 1).Err?) ==> Back(JsonObject(fields), depth).Err?
  {
    if depth <= MAX_VALUE_DEPTH {
      var ws := RustEncodesFields(fields, depth);
      if RustEncode(JsonObject(fields), depth).Ok? {
        TsDecodesFields(ws, depth);
        hide RustEncode, TsDecode;
        if forall k :: k in fields ==> Back(fields[k], depth + 1) == Ok(results[k]) {
          TsDecodeOfFields(ws, depth, results);
        }
      }
    }
    hide RustEncode, TsDecode;
  }

  /** `serde_json` holds integers from -2^63 to 2^64 - 1, the non-negative ones apart. */
  predicate Representable(j: JsonValue)
  {
    match j
    case PosInt(n) => n < Varints.TWO_64
    case NegInt(n) => -I64_MAX - 1 <= n < 0
    case JsonArray(items) => forall i :: 0 <= i < |items| ==> Representable(items[i])
    case JsonObject(fields) => forall k :: k in fields ==> Representable(fields[k])
    case _ => true
  }

  /** The integers of a message fit the 64 bits of their tags: below the cut they are signed, and from it on
      unsigned. */
  predicate FitsTags(w: WireValue, cut: nat)
  {
    match w
    case SignedValue(n) => -0x8000_0000_0000_0000 <= n < cut
    case UnsignedValue(n) => cut <= n < 0x1_0000_0000_0000_0000
    case ListValue(items) => forall i :: 0 <= i < |items| ==> FitsTags(items[i], cut)
    case ObjectValue(fields) => forall k :: k in fields ==> FitsTags(fields[k], cut)
    case _ => true
  }

  /** What the daemon sends fits the message's tags; it uses the unsigned one from 2^63 on. */
  lemma {:induction false} ResponseFitsTags(j: JsonValue, depth: nat)
    requires Representable(j) && RustEncode(j, depth).Ok?
    ensures FitsTags(RustEncode(j, depth).value, 0x8000_0000_0000_0000)
    decreases j
  {
    hide RustEncode;
    match j
    case JsonArray(items) =>
      EncodedIsShallow(j, depth);
      var ws := RustEncodesItems(items, depth);
      forall i | 0 <= i < |items| ensures FitsTags(ws[i], 0x8000_0000_0000_0000)
      {
        ResponseFitsTags(items[i], depth + 1);
      }
    case JsonObject(fields) =>
      EncodedIsShallow(j, depth);
      var ws := RustEncodesFields(fields, depth);
      forall k | k in fields ensures FitsTags(ws[k], 0x8000_0000_0000_0000)
      {
        ResponseFitsTags(fields[k], depth + 1);
      }
    case _ => LeafFitsTags(j, depth);
  }

  lemma EncodedIsShallow(j: JsonValue, depth: nat)
    requires RustEncode(j, depth).Ok?
    ensures depth <= MAX_VALUE_DEPTH
  {
  }

  lemma LeafFitsTags(j: JsonValue, depth: nat)
    requires !j.JsonArray? && !j.JsonObject? && Representable(j) && RustEncode(j, depth).Ok?
    ensures FitsTags(RustEncode(j, depth).value, 0x8000_0000_0000_0000)
  {
  }

  lemma RustEncodesItems(items: seq<JsonValue>, depth: nat) returns (ws: seq<WireValue>)
    requires depth <= MAX_VALUE_DEPTH && RustEncode(JsonArray(items), depth).Ok?
    ensures RustEncode(JsonArray(items), depth) == Ok(ListValue(ws)) && |ws| == |items|
    ensures forall i :: 0 <= i < |items| ==> RustEncode(items[i], depth + 1) == Ok(ws[i])
  {
    var rs := seq(|items|, i requires 0 <= i < |items| => RustEncode(items[i], depth + 1));
    assert RustEncode(JsonArray(items), depth) == Ok(ListValue(Collect(rs).value));
    assert forall i :: 0 <= i < |items| ==> rs[i] == RustEncode(items[i], depth + 1);
    hide RustEncode, Collect;
    ws := Collect(rs).value;
  }

  /** And so does what the plugin sends; it uses the unsigned one from 0 on. */
  lemma {:induction false} RequestFitsTags(v: JsValue, depth: nat)
    requires TsEncode(v, depth).Ok?
    ensures FitsTags(TsEncode(v, depth).value, 0)
    decreases v
  {
    hide TsEncode;
    match v
    case List(items) =>
      var ws := TsEncodesItems(items, depth);
      forall i | 0 <= i < |items| ensures FitsTags(ws[i], 0)
      {
        RequestFitsTags(items[i], depth + 1);
      }
    case Record(fields) =>
      var ws := TsEncodesFields(fields, depth);
      forall k | k in ws ensures FitsTags(ws[k], 0)
      {
        RequestFitsTags(fields[k], depth + 1);
      }
    case _ => LeafRequestFitsTags(v, depth);
  }

  lemma LeafRequestFitsTags(v: JsValue, depth: nat)
    requires !v.List? && !v.Record? && TsEncode(v, depth).Ok?
    ensures FitsTags(TsEncode(v, depth).value, 0)
  {
  }

  lemma TsEncodesItems(items: seq<JsValue>, depth: nat) returns (ws: seq<WireValue>)
    requires TsEncode(List(items), depth).Ok?
    ensures TsEncode(List(items), depth) == Ok(ListValue(ws)) && |ws| == |items|
    ensures forall i :: 0 <= i < |items| ==> TsEncode(items[i], depth + 1) == Ok(ws[i])
  {
    var rs := seq(|items|, i requires 0 <= i < |items| => TsEncode(items[i], depth + 1));
    assert TsEncode(List(items), depth) == Ok(ListValue(Collect(rs).value));
    assert forall i :: 0 <= i < |items| ==> rs[i] == TsEncode(items[i], depth + 1);
    hide TsEncode, Collect;
    ws := Collect(rs).value;
  }

  lemma TsEncodesFields(fields: map<string, JsValue>, depth: nat) returns (ws: map<string, WireValue>)
    requires TsEncode(Record(fields), depth).Ok?
    ensures TsEncode(Record(fields), depth) == Ok(ObjectValue(ws))
    ensures forall k :: k in ws <==> k in fields && !fields[k].Undefined?
    ensures forall k <- ws :: TsEncode(fields[k], depth + 1) == Ok(ws[k])
  {
    var rs := map k | k in fields && !fields[k].Undefined? :: TsEncode(fields[k], depth + 1);
    assert TsEncode(Record(fields), depth) == Ok(ObjectValue(CollectFields(rs).value));
    hide TsEncode, CollectFields;
    ws := CollectFields(rs).value;
  }

  /** To the plugin the tag of an integer makes no difference. */
  lemma TagsDoNotMatter(n: nat, depth: nat)
    ensures TsDecode(SignedValue(n), depth) == TsDecode(UnsignedValue(n), depth)
    ensures TsDecode(SignedValue(n), depth).Ok? <==> depth <= MAX_VALUE_DEPTH && n <= Varints.MAX_SAFE_INTEGER
  {
  }

  /** A message as the number-preserving value it stands for, and when it can be taken for one. */
  function Meaning(w: WireValue): JsonValue
  {
    match w
    case BooleanValue(b) => JsonBool(b)
    case SignedValue(n) => JsonInteger(n)
    case UnsignedValue(n) => JsonInteger(n)
    case FloatValue(Finite(x)) => JsonFloat(x)
    case TextValue(s) => JsonString(s)
    case ListValue(items) => JsonArray(seq(|items|, i requires 0 <= i < |items| => Meaning(items[i])))
    case ObjectValue(fields) => JsonObject(map k | k in fields :: Meaning(fields[k]))
    case _ => JsonNull
  }

  ghost predicate Acceptable(w: WireValue, depth: nat)
    decreases w
  {
    depth <= MAX_VALUE_DEPTH
    && match w
       case FloatValue(x) => x.Finite?
       case ListValue(items) => forall i :: 0 <= i < |items| ==> Acceptable(items[i], depth + 1)
       case ObjectValue(fields) => forall k :: k in fields ==> Acceptable(fields[k], depth + 1)
       case _ => true
  }

  /** The daemon reads every message, of any sender, exactly if it is within the depth and its floats are finite,
      and then as what it stands for. */
  lemma {:induction false} EveryRequestIsRead(w: WireValue, depth: nat)
    ensures if Acceptable(w, depth) then RustDecode(w, depth) == Ok(Meaning(w)) else RustDecode(w, depth).Err?
    decreases w
  {
    hide RustDecode;
    match w
    case ListValue(items) =>
      forall i | 0 <= i < |items|
        ensures if Acceptable(items[i], depth + 1) then RustDecode(items[i], depth + 1) == Ok(Meaning(items[i]))
                else RustDecode(items[i], depth + 1).Err?
      {
        EveryRequestIsRead(items[i], depth + 1);
      }
      RustDecodesItems(items, depth);
      if Acceptable(w, depth) {
        RustDecodeOfList(items, depth, Meaning(w).items);
      }
    case ObjectValue(fields) =>
      forall k | k in fields
        ensures if Acceptable(fields[k], depth + 1) then RustDecode(fields[k], depth + 1) == Ok(Meaning(fields[k]))
                else RustDecode(fields[k], depth + 1).Err?
      {
        EveryRequestIsRead(fields[k], depth + 1);
      }
      RustDecodesFields(fields, depth);
      if Acceptable(w, depth) {
        RustDecodeOfFields(fields, depth, Meaning(w).fields);
      }
    case _ => LeafIsRead(w, depth);
  }

  lemma LeafIsRead(w: WireValue, depth: nat)
    requires !w.ListValue? && !w.ObjectValue?
    ensures if Acceptable(w, depth) then RustDecode(w, depth) == Ok(Meaning(w)) else RustDecode(w, depth).Err?
  {
  }

  lemma RustDecodesItems(items: seq<WireValue>, depth: nat)
    ensures RustDecode(ListValue(items), depth).Ok?
            <==> depth <= MAX_VALUE_DEPTH && forall i :: 0 <= i < |items| ==> RustDecode(items[i], depth + 1).Ok?
  {
    var rs := seq(|items|, i requires 0 <= i < |items| => RustDecode(items[i], depth + 1));
    assert depth <= MAX_VALUE_DEPTH ==> (RustDecode(ListValue(items), depth).Ok? <==> Collect(rs).Ok?);
    assert forall i :: 0 <= i < |items| ==> rs[i] == RustDecode(items[i], depth + 1);
  }

  lemma RustDecodesFields(fields: map<string, WireValue>, depth: nat)
    ensures RustDecode(ObjectValue(fields), depth).Ok?
            <==> depth <= MAX_VALUE_DEPTH && forall k :: k in fields ==> RustDecode(fields[k], depth + 1).Ok?
  {
    var rs := map k | k in fields :: RustDecode(fields[k], depth + 1);
    assert depth <= MAX_VALUE_DEPTH ==> (RustDecode(ObjectValue(fields), depth).Ok? <==> CollectFields(rs).Ok?);
    assert forall k :: k in fields ==> rs[k] == RustDecode(fields[k], depth + 1);
  }
}

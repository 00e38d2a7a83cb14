/** Kotlin values as they travel through the SDK: payload maps sent over method
    channels, intent extras, and the trees the JSON codec converts. */
module Values {

  datatype Option<+T> = None | Some(value: T)

  datatype Result<+T, +E> = Ok(value: T) | Err(error: E)

  /** A Kotlin `Any?`. The first seven alternatives are plain Kotlin values;
      `JObject`, `JArray` and `JNull` are org.json's `JSONObject`, `JSONArray`
      and `JSONObject.NULL`; `Other` is a boxed primitive the model does not
      name (a `Long`, a `Float`, a `Short`, a `Byte` or a `Char`), which
      `JSONObject.wrap` keeps as it is. */
  datatype Value =
    | Null
    | Str(s: string)
    | Int(i: int)
    | Dbl(d: real)
    | Bool(b: bool)
    | KMap(m: map<string, Value>)
    | KList(items: seq<Value>)
    | JObject(fields: map<string, Value>)
    | JArray(elems: seq<Value>)
    | JNull
    | Other(tag: nat)

  /** `Map<String, Any?>`: a method-channel argument, a navigation state, a set
      of intent extras. */
  type Payload = map<string, Value>

  /** `data[key] as? String` (also what `Intent.getStringExtra` yields). */
  function AsString(data: Payload, key: string): (r: Option<string>)
    ensures r.Some? <==> key in data && data[key].Str?
    ensures r.Some? ==> data[key] == Str(r.value)
  {
    if key in data && data[key].Str? then Some(data[key].s) else None
  }

  /** `data[key] as? Int`. */
  function AsInt(data: Payload, key: string): (r: Option<int>)
    ensures r.Some? <==> key in data && data[key].Int?
    ensures r.Some? ==> data[key] == Int(r.value)
  {
    if key in data && data[key].Int? then Some(data[key].i) else None
  }

  /** `data[key] as? Double`. */
  function AsDouble(data: Payload, key: string): (r: Option<real>)
    ensures r.Some? <==> key in data && data[key].Dbl?
    ensures r.Some? ==> data[key] == Dbl(r.value)
  {
    if key in data && data[key].Dbl? then Some(data[key].d) else None
  }

  /** `x ?: default`. */
  function OrElse<T>(x: Option<T>, default: T): (r: T)
    ensures x.Some? ==> r == x.value
    ensures x.None? ==> r == default
  {
    match x
    case Some(v) => v
    case None => default
  }

  /** A `Map<String, String>` seen as a `Map<String, Any?>`. */
  function StrMap(m: map<string, string>): (r: Payload)
    ensures r.Keys == m.Keys
    ensures forall k :: k in m ==> r[k] == Str(m[k])
  {
    map k | k in m :: Str(m[k])
  }
}

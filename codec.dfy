/** `TradeableMessageCodec`: the conversion between org.json trees and Kotlin
    maps and lists, the fixed message envelopes, and the tolerant parsers of
    messages coming back from Flutter.

    Text is not modelled: a `JSONObject` is represented by the tree it holds
    (`JObject(fields)`), `JSONObject(json)` on a string by its outcome (`None`
    when the text is malformed, otherwise the parsed fields), and
    `toString()` is taken to be the text of that tree. */
module MessageCodec {
  import opened Values

  /** The trees org.json holds: no Kotlin `null`, map or list at any depth
      (org.json stores them as `JSONObject.NULL`, `JSONObject`, `JSONArray`). */
  predicate IsJsonTree(v: Value)
    decreases v
  {
    match v
    case Null => false
    case KMap(_) => false
    case KList(_) => false
    case JObject(f) => forall k :: k in f ==> IsJsonTree(f[k])
    case JArray(a) => forall i :: 0 <= i < |a| ==> IsJsonTree(a[i])
    case _ => true
  }

  /** Plain Kotlin values: no org.json node at any depth. */
  predicate IsPlain(v: Value)
    decreases v
  {
    match v
    case JObject(_) => false
    case JArray(_) => false
    case JNull => false
    case KMap(m) => forall k :: k in m ==> IsPlain(m[k])
    case KList(l) => forall i :: 0 <= i < |l| ==> IsPlain(l[i])
    case _ => true
  }

  /** The per-value conversion of `jsonObjectToMap` and `jsonArrayToList`:
      objects become maps, arrays become lists, `JSONObject.NULL` becomes
      `null`, anything else is kept. */
  function ToPlain(v: Value): (r: Value)
    ensures v.JObject? ==> r.KMap? && r.m.Keys == v.fields.Keys
    ensures v.JArray? ==> r.KList? && |r.items| == |v.elems|
    ensures v.JNull? ==> r == Null
    ensures !(v.JObject? || v.JArray? || v.JNull?) ==> r == v
    decreases v
  {
    match v
    case JObject(f) => KMap(map k | k in f :: ToPlain(f[k]))
    case JArray(a) => KList(seq(|a|, i requires 0 <= i < |a| => ToPlain(a[i])))
    case JNull => Null
    case _ => v
  }

  /** `JSONObject.wrap`, as the `JSONObject(Map)` constructor applies it to
      every value: `null` becomes `JSONObject.NULL`, maps become objects,
      lists become arrays, anything else is kept. */
  function Wrap(v: Value): (r: Value)
    ensures v.KMap? ==> r.JObject? && r.fields.Keys == v.m.Keys
    ensures v.KList? ==> r.JArray? && |r.elems| == |v.items|
    ensures v.Null? ==> r == JNull
    ensures !(v.KMap? || v.KList? || v.Null?) ==> r == v
    decreases v
  {
    match v
    case Null => JNull
    case KMap(m) => JObject(map k | k in m :: Wrap(m[k]))
    case KList(l) => JArray(seq(|l|, i requires 0 <= i < |l| => Wrap(l[i])))
    case _ => v
  }

  /** The conversion is total on JSON trees and leaves no org.json node behind. */
  lemma {:induction false} ToPlainIsPlain(v: Value)
    requires IsJsonTree(v)
    ensures IsPlain(ToPlain(v))
    decreases v
  {
    match v
    case JObject(f) =>
      forall k | k in f ensures IsPlain(ToPlain(f[k])) { ToPlainIsPlain(f[k]); }
    case JArray(a) =>
      forall i | 0 <= i < |a| ensures IsPlain(ToPlain(a[i])) { ToPlainIsPlain(a[i]); }
    case _ =>
  }

  /** Wrapping a plain value gives a JSON tree. */
  lemma {:induction false} WrapIsJsonTree(v: Value)
    requires IsPlain(v)
    ensures IsJsonTree(Wrap(v))
    decreases v
  {
    match v
    case KMap(m) =>
      forall k | k in m ensures IsJsonTree(Wrap(m[k])) { WrapIsJsonTree(m[k]); }
    case KList(l) =>
      forall i | 0 <= i < |l| ensures IsJsonTree(Wrap(l[i])) { WrapIsJsonTree(l[i]); }
    case _ =>
  }

  /** Nested maps, lists and nulls survive encoding and decoding unchanged. */
  lemma {:induction false} ToPlainInvertsWrap(v: Value)
    requires IsPlain(v)
    ensures ToPlain(Wrap(v)) == v
    decreases v
  {
    match v
    case KMap(m) =>
      forall k | k in m ensures ToPlain(Wrap(m[k])) == m[k] { ToPlainInvertsWrap(m[k]); }
      assert ToPlain(Wrap(v)).m == m;
    case KList(l) =>
      forall i | 0 <= i < |l| ensures ToPlain(Wrap(l[i])) == l[i] { ToPlainInvertsWrap(l[i]); }
      assert ToPlain(Wrap(v)).items == l;
    case _ =>
  }

  /** A JSON tree converted to Kotlin values and wrapped again is the same tree. */
  lemma {:induction false} WrapInvertsToPlain(v: Value)
    requires IsJsonTree(v)
    ensures Wrap(ToPlain(v)) == v
    decreases v
  {
    match v
    case JObject(f) =>
      forall k | k in f ensures Wrap(ToPlain(f[k])) == f[k] { WrapInvertsToPlain(f[k]); }
      assert Wrap(ToPlain(v)).fields == f;
    case JArray(a) =>
      forall i | 0 <= i < |a| ensures Wrap(ToPlain(a[i])) == a[i] { WrapInvertsToPlain(a[i]); }
      assert Wrap(ToPlain(v)).elems == a;
    case _ =>
  }

  /** The `when (value)` of both conversion loops. */
  method ConvertValue(value: Value) returns (r: Value)
    ensures r == ToPlain(value)
    decreases value, 1
  {
    match value {
      case JObject(f) =>
        var m := JsonObjectToMap(f);
        r := KMap(m);
      case JArray(a) =>
        var l := JsonArrayToList(a);
        r := KList(l);
      case JNull =>
        r := Null;
      case _ =>
        r := value;
    }
  }

  /** `jsonObjectToMap`: one entry per key of the object, each value converted. */
  method JsonObjectToMap(fields: map<string, Value>) returns (m: map<string, Value>)
    ensures m.Keys == fields.Keys
    ensures forall k :: k in fields ==> m[k] == ToPlain(fields[k])
    decreases JObject(fields), 0
  {
    m := map[];
    var keys := fields.Keys;
    while keys != {}
      invariant keys <= fields.Keys
      invariant m.Keys == fields.Keys - keys
      invariant forall k :: k in m ==> m[k] == ToPlain(fields[k])
      decreases keys
    {
      var key :| key in keys;
      var value := ConvertValue(fields[key]);
      m := m[key := value];
      keys := keys - {key};
    }
  }

  /** `jsonArrayToList`: same length and order, each element converted. */
  method JsonArrayToList(elems: seq<Value>) returns (list: seq<Value>)
    ensures |list| == |elems|
    ensures forall i :: 0 <= i < |elems| ==> list[i] == ToPlain(elems[i])
    decreases JArray(elems), 0
  {
    list := [];
    for i := 0 to |elems|
      invariant |list| == i
      invariant forall j :: 0 <= j < i ==> list[j] == ToPlain(elems[j])
    {
      var value := ConvertValue(elems[i]);
      list := list + [value];
    }
  }

  /** `encode(data)`: the fields of `JSONObject(data)`. */
  function Encode(data: Payload): (r: Payload)
    ensures r.Keys == data.Keys
    ensures forall k :: k in data ==> r[k] == Wrap(data[k])
  {
    map k | k in data :: Wrap(data[k])
  }

  /** `decode(json)` on the fields of the parsed object. */
  function Decode(fields: Payload): (r: Payload)
    ensures r.Keys == fields.Keys
    ensures forall k :: k in fields ==> r[k] == ToPlain(fields[k])
  {
    map k | k in fields :: ToPlain(fields[k])
  }

  /** Decoding what was encoded gives back the map, nested values included. */
  lemma DecodeInvertsEncode(data: Payload)
    requires forall k :: k in data ==> IsPlain(data[k])
    ensures Decode(Encode(data)) == data
  {
    forall k | k in data ensures Decode(Encode(data))[k] == data[k] {
      ToPlainInvertsWrap(data[k]);
    }
  }

  /** The map `createCardMessage` encodes. */
  function CardEnvelope(cardType: string, parameters: map<string, string>): (r: Payload)
    ensures r.Keys == {"action", "type", "parameters"}
    ensures forall k :: k in r ==> IsPlain(r[k])
  {
    map["action" := Str("renderCard"), "type" := Str(cardType), "parameters" := KMap(StrMap(parameters))]
  }

  /** The map `createPageMessage` encodes. */
  function PageEnvelope(route: string, parameters: map<string, string>): (r: Payload)
    ensures r.Keys == {"action", "route", "parameters"}
    ensures forall k :: k in r ==> IsPlain(r[k])
  {
    map["action" := Str("navigate"), "route" := Str(route), "parameters" := KMap(StrMap(parameters))]
  }

  lemma StrMapWraps(parameters: map<string, string>)
    ensures Wrap(KMap(StrMap(parameters))) == JObject(StrMap(parameters))
    ensures IsPlain(KMap(StrMap(parameters)))
  {
    assert Wrap(KMap(StrMap(parameters))).fields == StrMap(parameters);
  }

  /** `createCardMessage`: exactly the keys action, type and parameters, with
      the parameters as a nested object of strings. */
  function CreateCardMessage(cardType: string, parameters: map<string, string>): (r: Payload)
    ensures r.Keys == {"action", "type", "parameters"}
    ensures r["action"] == Str("renderCard") && r["type"] == Str(cardType)
    ensures r["parameters"] == JObject(StrMap(parameters))
    ensures Decode(r) == CardEnvelope(cardType, parameters)
  {
    StrMapWraps(parameters);
    DecodeInvertsEncode(CardEnvelope(cardType, parameters));
    Encode(CardEnvelope(cardType, parameters))
  }

  /** `createPageMessage`: exactly the keys action, route and parameters. */
  function CreatePageMessage(route: string, parameters: map<string, string>): (r: Payload)
    ensures r.Keys == {"action", "route", "parameters"}
    ensures r["action"] == Str("navigate") && r["route"] == Str(route)
    ensures r["parameters"] == JObject(StrMap(parameters))
    ensures Decode(r) == PageEnvelope(route, parameters)
  {
    StrMapWraps(parameters);
    DecodeInvertsEncode(PageEnvelope(route, parameters));
    Encode(PageEnvelope(route, parameters))
  }

  datatype CallbackMessage = CallbackMessage(action: string, data: Option<Payload>)

  datatype AnalyticsMessage = AnalyticsMessage(eventName: string, data: Option<Payload>)

  /** `obj.optString(key)`: "" when the key is absent, the string itself when
      it holds one, and otherwise the value's text, `render(v)`. */
  function OptString(obj: Payload, key: string, render: Value -> string): (r: string)
    ensures key !in obj ==> r == ""
    ensures key in obj && obj[key].Str? ==> r == obj[key].s
  {
    if key !in obj then ""
    else match obj[key]
      case Str(s) => s
      case other => render(other)
  }

  /** `obj.optJSONObject(key)?.let { jsonObjectToMap(it) }`. */
  function OptObjectAsMap(obj: Payload, key: string): (r: Option<Payload>)
    ensures r.Some? <==> key in obj && obj[key].JObject?
    ensures r.Some? ==> r.value.Keys == obj[key].fields.Keys
    ensures r.Some? ==> KMap(r.value) == ToPlain(obj[key])
  {
    if key in obj && obj[key].JObject? then Some(Decode(obj[key].fields)) else None
  }

  /** What `parseCallback` and `parseAnalyticsEvent` share: `null` when the
      text does not parse, otherwise the name under `nameKey` and the decoded
      "data" object. */
  function ParseNamed(parsed: Option<Payload>, nameKey: string, render: Value -> string): (r: Option<(string, Option<Payload>)>)
    ensures r.None? <==> parsed.None?
    ensures r.Some? ==> r.value.0 == OptString(parsed.value, nameKey, render)
    ensures r.Some? ==> r.value.1 == OptObjectAsMap(parsed.value, "data")
  {
    match parsed
    case None => None
    case Some(obj) => Some((OptString(obj, nameKey, render), OptObjectAsMap(obj, "data")))
  }

  function ParseCallback(parsed: Option<Payload>, render: Value -> string): (r: Option<CallbackMessage>)
    ensures r.None? <==> parsed.None?
    ensures r.Some? && "action" !in parsed.value ==> r.value.action == ""
    ensures r.Some? && "action" in parsed.value && parsed.value["action"].Str? ==> r.value.action == parsed.value["action"].s
    ensures r.Some? ==> (r.value.data.None? <==> !("data" in parsed.value && parsed.value["data"].JObject?))
  {
    match ParseNamed(parsed, "action", render)
    case None => None
    case Some((action, data)) => Some(CallbackMessage(action, data))
  }

  function ParseAnalyticsEvent(parsed: Option<Payload>, render: Value -> string): (r: Option<AnalyticsMessage>)
    ensures r.None? <==> parsed.None?
    ensures r.Some? && "eventName" !in parsed.value ==> r.value.eventName == ""
    ensures r.Some? && "eventName" in parsed.value && parsed.value["eventName"].Str? ==> r.value.eventName == parsed.value["eventName"].s
    ensures r.Some? ==> (r.value.data.None? <==> !("data" in parsed.value && parsed.value["data"].JObject?))
  {
    match ParseNamed(parsed, "eventName", render)
    case None => None
    case Some((name, data)) => Some(AnalyticsMessage(name, data))
  }

  /** The data of a parsed callback holds only plain Kotlin values. */
  lemma ParsedCallbackDataIsPlain(obj: Payload, render: Value -> string)
    requires IsJsonTree(JObject(obj))
    ensures var r := ParseCallback(Some(obj), render);
      r.Some? && (r.value.data.Some? ==> IsPlain(KMap(r.value.data.value)))
  {
    if "data" in obj && obj["data"].JObject? {
      ToPlainIsPlain(obj["data"]);
    }
  }
}

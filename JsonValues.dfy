/**
  JSON documents as in RFC 8259, the JavaScript values a test can produce, and the
  normalisation `JSON.parse(JSON.stringify(value))` that the assertion applies to every
  result before comparing and storing it.

  Numbers are integers; a non-finite number is its own variant. Functions and `undefined`
  are the values JSON.stringify omits.
 */
module JsonValues {
  import opened Errors

  datatype Json =
    | JNull
    | JBool(b: bool)
    | JNum(n: int)
    | JStr(s: string)
    | JArr(items: seq<Json>)
    | JObj(props: map<string, Json>)

  /** A runtime value handed to the assertion as its result. */
  datatype JsValue =
    | Undefined
    | Callable(name: string)
    | Null
    | Boolean(b: bool)
    | Number(n: int)
    | NonFinite                      // NaN, Infinity, -Infinity
    | Text(s: string)
    | DateValue(iso: Option<string>) // toISOString() of a valid date, None for an invalid one
    | ArrayValue(elems: seq<JsValue>)
    | ObjectValue(props: map<string, JsValue>)

  /** Values that JSON.stringify leaves out of objects and turns into null inside arrays. */
  predicate Omitted(v: JsValue) {
    v.Undefined? || v.Callable?
  }

  /** The JSON text JSON.stringify writes for `v`, read back by JSON.parse. */
  function ToJson(v: JsValue): Json
    requires !Omitted(v)
  {
    match v
    case Null => JNull
    case Boolean(b) => JBool(b)
    case Number(n) => JNum(n)
    case NonFinite => JNull
    case Text(s) => JStr(s)
    case DateValue(iso) => if iso.Some? then JStr(iso.value) else JNull
    case ArrayValue(es) =>
      JArr(seq(|es|, i requires 0 <= i < |es| => if Omitted(es[i]) then JNull else ToJson(es[i])))
    case ObjectValue(ps) =>
      JObj(map k | k in ps && !Omitted(ps[k]) :: ToJson(ps[k]))
  }

  /**
    JSON.parse(JSON.stringify(v)). A top-level `undefined` or function stringifies to
    `undefined`, which JSON.parse refuses: that is the None case.
   */
  function Normalize(v: JsValue): (r: Option<Json>)
    ensures r.None? <==> Omitted(v)
  {
    if Omitted(v) then None else Some(ToJson(v))
  }

  /** The JavaScript value JSON.parse produces for a JSON document. */
  function Embed(j: Json): JsValue {
    match j
    case JNull => Null
    case JBool(b) => Boolean(b)
    case JNum(n) => Number(n)
    case JStr(s) => Text(s)
    case JArr(items) => ArrayValue(seq(|items|, i requires 0 <= i < |items| => Embed(items[i])))
    case JObj(props) => ObjectValue(map k | k in props :: Embed(props[k]))
  }

  /** A parsed JSON document survives the normalisation unchanged. */
  lemma {:induction false} NormalizeEmbed(j: Json)
    ensures Normalize(Embed(j)) == Some(j)
  {
    match j
    case JNull =>
    case JBool(_) =>
    case JNum(_) =>
    case JStr(_) =>
    case JArr(items) =>
      var es := seq(|items|, i requires 0 <= i < |items| => Embed(items[i]));
      forall i | 0 <= i < |items|
        ensures !Omitted(es[i]) && ToJson(es[i]) == items[i]
      {
        NormalizeEmbed(items[i]);
      }
      assert ToJson(Embed(j)).items == items;
    case JObj(props) =>
      var ps := map k | k in props :: Embed(props[k]);
      forall k | k in props
        ensures !Omitted(ps[k]) && ToJson(ps[k]) == props[k]
      {
        NormalizeEmbed(props[k]);
      }
      assert ToJson(Embed(j)).props == props;
  }

  /**
    Normalising is idempotent: a normalised result read back from disk normalises to itself,
    so what is compared in memory is exactly what a later run reads from the file.
   */
  lemma NormalizeIdempotent(v: JsValue)
    requires Normalize(v).Some?
    ensures Normalize(Embed(Normalize(v).value)) == Normalize(v)
  {
    NormalizeEmbed(Normalize(v).value);
  }

  /** A valid date inside an object is stored as its ISO string, undefined properties vanish. */
  lemma DateBecomesIsoString(key: string, iso: string, dropped: string)
    requires key != dropped
    ensures Normalize(ObjectValue(map[key := DateValue(Some(iso)), dropped := Undefined]))
         == Some(JObj(map[key := JStr(iso)]))
  {
    var ps := map[key := DateValue(Some(iso)), dropped := Undefined];
    var kept := map k | k in ps && !Omitted(ps[k]) :: ToJson(ps[k]);
    assert kept.Keys == {key} by {
      assert Omitted(ps[dropped]);
    }
    assert kept == map[key := JStr(iso)];
    assert ToJson(ObjectValue(ps)) == JObj(kept);
  }
}

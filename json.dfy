/** Values as JavaScript sees a parsed JSON document, with the two
    operations the dashboard applies to them: property access and the
    truthiness test behind `x || fallback`. */
module Json {
  import opened Types

  /** Numbers are kept as integers: only their truthiness matters here. */
  datatype Json =
    | JNull
    | JBool(b: bool)
    | JNum(n: int)
    | JStr(s: string)
    | JArr(items: seq<Json>)
    | JObj(fields: map<string, Json>)

  /** JavaScript truthiness: `null`, `false`, `0` and `""` are falsy; every
      array and every object, even an empty one, is truthy. */
  predicate Truthy(j: Json) {
    match j
    case JNull => false
    case JBool(b) => b
    case JNum(n) => n != 0
    case JStr(s) => s != []
    case JArr(_) => true
    case JObj(_) => true
  }

  /** `j.key`: `None` stands for `undefined` (a missing property, or a value
      that is not an object). */
  function Get(j: Json, key: string): (r: Option<Json>)
    ensures r.Some? <==> j.JObj? && key in j.fields
    ensures r.Some? ==> r.value == j.fields[key]
  {
    if j.JObj? && key in j.fields then Some(j.fields[key]) else None
  }

  /** `j.key || fallback`, where a truthy property is read with the shape
      its writer gave it; a truthy property of another shape also yields
      `fallback`. */
  function FieldOr<T>(j: Json, key: string, decode: Json -> Option<T>, fallback: T): (r: T)
    ensures (Get(j, key).Some? && Truthy(Get(j, key).value) && decode(Get(j, key).value).Some?)
              ==> r == decode(Get(j, key).value).value
    ensures Get(j, key).None? || !Truthy(Get(j, key).value) ==> r == fallback
  {
    match Get(j, key)
    case Some(v) =>
      if Truthy(v) then
        match decode(v)
        case Some(x) => x
        case None => fallback
      else fallback
    case None => fallback
  }

  function DecodeString(j: Json): (r: Option<string>)
    ensures r.Some? <==> j.JStr?
    ensures r.Some? ==> j == JStr(r.value)
  {
    if j.JStr? then Some(j.s) else None
  }

  /** Each element of `xs` encoded with `encode`, in order. */
  function EncodeAll<T>(xs: seq<T>, encode: T -> Json): (r: seq<Json>)
    ensures |r| == |xs|
    ensures forall i :: 0 <= i < |xs| ==> r[i] == encode(xs[i])
  {
    if xs == [] then [] else [encode(xs[0])] + EncodeAll(xs[1..], encode)
  }

  /** Every element decoded with `decode`, in order; `None` as soon as one
      element does not decode. */
  function DecodeAll<T>(items: seq<Json>, decode: Json -> Option<T>): (r: Option<seq<T>>)
    ensures r.Some? <==> forall i :: 0 <= i < |items| ==> decode(items[i]).Some?
    ensures r.Some? ==> |r.value| == |items|
                        && forall i :: 0 <= i < |items| ==> r.value[i] == decode(items[i]).value
  {
    if items == [] then Some([])
    else
      match decode(items[0])
      case None => None
      case Some(x) =>
        match DecodeAll(items[1..], decode)
        case None => None
        case Some(rest) => Some([x] + rest)
  }

  /** Decoding what was encoded gives the list back, whenever the element
      codec round-trips. */
  lemma {:induction false} DecodeAllEncodeAll<T>(xs: seq<T>, encode: T -> Json, decode: Json -> Option<T>)
    requires forall x :: decode(encode(x)) == Some(x)
    ensures DecodeAll(EncodeAll(xs, encode), decode) == Some(xs)
  {
    if xs != [] {
      var items := EncodeAll(xs, encode);
      DecodeAllEncodeAll(xs[1..], encode, decode);
      assert items[1..] == EncodeAll(xs[1..], encode);
      assert decode(items[0]) == Some(xs[0]);
      assert [xs[0]] + xs[1..] == xs;
    }
  }

  /** A list of strings as a JSON array. */
  function EncodeStrings(xs: seq<string>): (r: Json)
    ensures r.JArr? && |r.items| == |xs|
  {
    JArr(EncodeAll(xs, s => JStr(s)))
  }

  function DecodeStrings(j: Json): (r: Option<seq<string>>)
    ensures r.Some? ==> j.JArr? && |r.value| == |j.items|
  {
    if j.JArr? then DecodeAll(j.items, DecodeString) else None
  }

  lemma StringsRoundTrip(xs: seq<string>)
    ensures DecodeStrings(EncodeStrings(xs)) == Some(xs)
  {
    DecodeAllEncodeAll(xs, s => JStr(s), DecodeString);
  }
}

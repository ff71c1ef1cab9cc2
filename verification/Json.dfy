/** Decoded JSON values, and reading them; text and its parsing are outside the model. */
module Json {
  import opened Prelude

  datatype Json =
    | Null
    | Bool(b: bool)
    | Num(n: int)
    | Str(s: string)
    | Arr(items: seq<Json>)
    | Obj(fields: map<string, Json>)

  datatype Error = UnsupportedVersion(found: Json) | Malformed(what: string)

  type Decoded<T> = Result<T, Error>

  /** `json[key]`. */
  function Field(json: Json, key: string): Decoded<Json> {
    if json.Obj? && key in json.fields then Ok(json.fields[key]) else Err(Malformed(key))
  }

  /** `json.get(key)`. */
  function Get(json: Json, key: string): Json {
    if json.Obj? && key in json.fields then json.fields[key] else Null
  }

  function AsString(json: Json): Decoded<string> {
    if json.Str? then Ok(json.s) else Err(Malformed("string"))
  }

  function AsInt(json: Json): Decoded<int> {
    if json.Num? then Ok(json.n) else Err(Malformed("number"))
  }

  function AsBool(json: Json): Decoded<bool> {
    if json.Bool? then Ok(json.b) else Err(Malformed("boolean"))
  }

  function AsItems(json: Json): Decoded<seq<Json>> {
    if json.Arr? then Ok(json.items) else Err(Malformed("list"))
  }

  function AsFields(json: Json): Decoded<map<string, Json>> {
    if json.Obj? then Ok(json.fields) else Err(Malformed("object"))
  }

  function StringField(json: Json, key: string): Decoded<string> {
    var value :- Field(json, key);
    AsString(value)
  }

  function IntField(json: Json, key: string): Decoded<int> {
    var value :- Field(json, key);
    AsInt(value)
  }

  function BoolField(json: Json, key: string): Decoded<bool> {
    var value :- Field(json, key);
    AsBool(value)
  }

  function EncodeAll<T>(xs: seq<T>, encode: T -> Json): (r: seq<Json>)
    ensures |r| == |xs| && forall i :: 0 <= i < |xs| ==> r[i] == encode(xs[i])
  {
    if xs == [] then [] else [encode(xs[0])] + EncodeAll(xs[1..], encode)
  }

  function DecodeAll<T>(items: seq<Json>, decode: Json -> Decoded<T>): (r: Decoded<seq<T>>) {
    if items == [] then Ok([])
    else
      var first :- decode(items[0]);
      var rest :- DecodeAll(items[1..], decode);
      Ok([first] + rest)
  }

  /** Decoding undoes encoding item by item when it does so for each item. */
  lemma {:induction false} ListRoundTrip<T(!new)>(xs: seq<T>, encode: T -> Json, decode: Json -> Decoded<T>)
    requires forall x :: decode(encode(x)) == Ok(x)
    ensures DecodeAll(EncodeAll(xs, encode), decode) == Ok(xs)
  {
    if xs != [] {
      assert EncodeAll(xs, encode)[1..] == EncodeAll(xs[1..], encode);
      ListRoundTrip(xs[1..], encode, decode);
      assert xs == [xs[0]] + xs[1..];
    }
  }

  ghost predicate Decodes<T>(fields: map<string, Json>, decode: (string, Json) -> Decoded<T>) {
    forall key :: key in fields ==> decode(key, fields[key]).Ok?
  }

  ghost function DecodeFields<T>(fields: map<string, Json>, decode: (string, Json) -> Decoded<T>)
    : Decoded<map<string, T>>
  {
    if Decodes(fields, decode) then Ok(map key | key in fields :: decode(key, fields[key]).value)
    else Err(Malformed("entry"))
  }

  lemma FieldsDecoded<T>(fields: map<string, Json>, decode: (string, Json) -> Decoded<T>, values: map<string, T>)
    requires fields.Keys == values.Keys
    requires forall key :: key in fields ==> decode(key, fields[key]) == Ok(values[key])
    ensures DecodeFields(fields, decode) == Ok(values)
  {
    assert Decodes(fields, decode);
    assert DecodeFields(fields, decode).value == values;
  }
}

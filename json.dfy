/** The values `request.json()` can produce, and the zod primitive checks the
    handlers' schemas apply to them. JSON has no date type: a date travels as
    a string. */
module Json {
  import opened Common
  import Formats

  /** A parsed JSON value. A number is a finite JavaScript number and a real
      stands for it; a literal that overflows to an infinity (such as `1e400`)
      is outside the model. */
  datatype Json =
    | JNull
    | JBool(b: bool)
    | JNum(n: real)
    | JStr(s: string)
    | JArr(items: seq<Json>)
    | JObj(fields: map<string, Json>)

  /** The value under `key` in an object; None when the key is absent (the
      JavaScript `undefined`) or when `j` is not an object. */
  function Field(j: Json, key: string): (r: Option<Json>)
    ensures r.Some? <==> j.JObj? && key in j.fields
    ensures r.Some? ==> r.value == j.fields[key]
  {
    if j.JObj? && key in j.fields then Some(j.fields[key]) else None
  }

  /** `z.string()` */
  function AsString(j: Json): (r: Option<string>)
    ensures r.Some? <==> j.JStr?
    ensures r.Some? ==> r.value == j.s
  {
    if j.JStr? then Some(j.s) else None
  }

  /** `z.string()` applied to the value under `key`. */
  function StringField(j: Json, key: string): (r: Option<string>)
    ensures r.Some? <==> j.JObj? && key in j.fields && j.fields[key].JStr?
    ensures r.Some? ==> r.value == j.fields[key].s
  {
    var v :- Field(j, key);
    AsString(v)
  }

  /** `z.number()` */
  function AsNumber(j: Json): (r: Option<real>)
    ensures r.Some? <==> j.JNum?
    ensures r.Some? ==> r.value == j.n
  {
    if j.JNum? then Some(j.n) else None
  }

  /** `z.number().int()`: a number whose value is a whole number. */
  function AsInt(j: Json): (r: Option<int>)
    ensures r.Some? <==> j.JNum? && j.n == j.n.Floor as real
    ensures r.Some? ==> r.value as real == j.n
  {
    if j.JNum? && j.n == j.n.Floor as real then Some(j.n.Floor) else None
  }

  /** `z.boolean()` */
  function AsBool(j: Json): (r: Option<bool>)
    ensures r.Some? <==> j.JBool?
    ensures r.Some? ==> r.value == j.b
  {
    if j.JBool? then Some(j.b) else None
  }

  /** `z.array(z.string())`: every element must be a string. */
  function AsStrings(j: Json): (r: Option<seq<string>>)
    ensures r.Some? <==> j.JArr? && forall i :: 0 <= i < |j.items| ==> j.items[i].JStr?
    ensures r.Some? ==> |r.value| == |j.items| &&
                        forall i :: 0 <= i < |j.items| ==> r.value[i] == j.items[i].s
  {
    if j.JArr? then StringsOf(j.items) else None
  }

  function StringsOf(items: seq<Json>): (r: Option<seq<string>>)
    ensures r.Some? <==> forall i :: 0 <= i < |items| ==> items[i].JStr?
    ensures r.Some? ==> |r.value| == |items| &&
                        forall i :: 0 <= i < |items| ==> r.value[i] == items[i].s
  {
    if items == [] then Some([])
    else if !items[0].JStr? then None
    else
      var rest := StringsOf(items[1..]);
      if rest.None? then None else Some([items[0].s] + rest.value)
  }

  /** `z.array(z.number())`: every element must be a number. */
  function AsNumbers(j: Json): (r: Option<seq<real>>)
    ensures r.Some? <==> j.JArr? && forall i :: 0 <= i < |j.items| ==> j.items[i].JNum?
    ensures r.Some? ==> |r.value| == |j.items| &&
                        forall i :: 0 <= i < |j.items| ==> r.value[i] == j.items[i].n
  {
    if j.JArr? then NumbersOf(j.items) else None
  }

  function NumbersOf(items: seq<Json>): (r: Option<seq<real>>)
    ensures r.Some? <==> forall i :: 0 <= i < |items| ==> items[i].JNum?
    ensures r.Some? ==> |r.value| == |items| &&
                        forall i :: 0 <= i < |items| ==> r.value[i] == items[i].n
  {
    if items == [] then Some([])
    else if !items[0].JNum? then None
    else
      var rest := NumbersOf(items[1..]);
      if rest.None? then None else Some([items[0].n] + rest.value)
  }

  // ------------------------------------------------------- object fields

  /** `z.number().int()` applied to the value under `key`. */
  function IntField(j: Json, key: string): (r: Option<int>)
    ensures r.Some? <==> j.JObj? && key in j.fields && AsInt(j.fields[key]).Some?
    ensures r.Some? ==> r == AsInt(j.fields[key])
  {
    var v :- Field(j, key);
    AsInt(v)
  }

  /** `z.number()` applied to the value under `key`. */
  function NumberField(j: Json, key: string): (r: Option<real>)
    ensures r.Some? <==> j.JObj? && key in j.fields && j.fields[key].JNum?
    ensures r.Some? ==> r.value == j.fields[key].n
  {
    var v :- Field(j, key);
    AsNumber(v)
  }

  /** `z.boolean()` applied to the value under `key`. */
  function BoolField(j: Json, key: string): (r: Option<bool>)
    ensures r.Some? <==> j.JObj? && key in j.fields && j.fields[key].JBool?
    ensures r.Some? ==> r.value == j.fields[key].b
  {
    var v :- Field(j, key);
    AsBool(v)
  }

  /** How a date field of a request body is checked. `ZodDate` is `z.date()`,
      which takes only a `Date` object; `IsoText` is an ISO-8601 date-time
      string, as `z.string().datetime()` checks it. */
  datatype DateRule = ZodDate | IsoText

  /** The date under `key`, kept as its text. */
  function DateField(j: Json, key: string, rule: DateRule): (r: Option<string>)
    // JSON has no date type, so no parsed body ever holds a `Date` object
    ensures rule.ZodDate? ==> r.None?
    ensures rule.IsoText? ==>
              (r.Some? <==> StringField(j, key).Some? && Formats.IsIsoDateTime(StringField(j, key).value))
    ensures r.Some? ==> r == StringField(j, key)
  {
    match rule
    case ZodDate => None
    case IsoText =>
      var s :- StringField(j, key);
      if Formats.IsIsoDateTime(s) then Some(s) else None
  }
}

/**
 * JavaScript values as the component sees them, the few pieces of JavaScript
 * semantics it relies on (truthiness, property reads that throw on undefined
 * or null, the JSON round-trip used as a clone), and the shape of an inbound
 * JSON:API write document.
 */
module Json {

  datatype Option<+T> = None | Some(value: T)

  /** A JSON-like JavaScript value. Numbers are integers here. */
  datatype Value =
    | Undefined
    | Null
    | Bool(b: bool)
    | Num(n: int)
    | Str(s: string)
    | Arr(items: seq<Value>)
    | Obj(fields: map<string, Value>)

  /** JavaScript truthiness: undefined, null, false, 0 and "" are falsy. */
  predicate Truthy(v: Value) {
    match v
    case Undefined => false
    case Null => false
    case Bool(b) => b
    case Num(n) => n != 0
    case Str(s) => s != ""
    case _ => true
  }

  /** Truthiness of an optional string property (absent or empty is falsy). */
  predicate Present(o: Option<string>) {
    o.Some? && o.value != ""
  }

  /** `typeof v === 'object'`, which also holds for null and arrays. */
  predicate IsObjectType(v: Value) {
    v.Null? || v.Arr? || v.Obj?
  }

  /**
   * The property `key` of a value that is not undefined or null: a plain
   * object's own entry, and undefined for everything else.
   */
  function Get(v: Value, key: string): (r: Value)
    ensures r != Undefined ==> v.Obj? && key in v.fields && r == v.fields[key]
  {
    if v.Obj? && key in v.fields then v.fields[key] else Undefined
  }

  /** The decimal digits of a natural number, most significant first. */
  function NatString(n: nat): (s: string)
    ensures |s| > 0
    ensures forall i :: 0 <= i < |s| ==> '0' <= s[i] <= '9'
    decreases n
  {
    var digit := ('0' as int + n % 10) as char;
    if n < 10 then [digit] else NatString(n / 10) + [digit]
  }

  /**
   * `String(v)`, the property key JavaScript makes of a value: an array is
   * its elements joined with ',', so `['Comment']` is the key `Comment`.
   */
  function KeyString(v: Value): (s: string)
    ensures v.Str? ==> s == v.s
    ensures v.Arr? && |v.items| == 0 ==> s == ""
    ensures v.Arr? && |v.items| == 1 && v.items[0].Str? ==> s == v.items[0].s
    ensures v.Null? ==> s == "null"
    ensures v.Num? && v.n >= 0 ==> s == NatString(v.n)
    decreases v, 1, 0
  {
    match v
    case Undefined => "undefined"
    case Null => "null"
    case Bool(b) => if b then "true" else "false"
    case Num(n) => if n < 0 then "-" + NatString(-n) else NatString(n)
    case Str(t) => t
    case Arr(_) => JoinedElements(v, 0)
    case Obj(_) => "[object Object]"
  }

  /** `v.items.slice(i).join(',')`: undefined and null elements give the empty string. */
  function JoinedElements(v: Value, i: nat): (s: string)
    requires v.Arr? && i <= |v.items|
    ensures i == |v.items| ==> s == ""
    ensures i + 1 == |v.items| && v.items[i].Str? ==> s == v.items[i].s
    ensures i + 1 < |v.items| ==> ',' in s
    decreases v, 0, |v.items| - i
  {
    if i == |v.items| then ""
    else
      var e := v.items[i];
      var head := if e.Undefined? || e.Null? then "" else KeyString(e);
      if i + 1 == |v.items| then head
      else
        var joined := head + "," + JoinedElements(v, i + 1);
        assert joined[|head|] == ',';
        joined
  }

  /** Two-element and nested arrays give the keys `a,b` and `a,,b`. */
  lemma KeyStringExamples()
    ensures KeyString(Arr([Str("a"), Str("b")])) == "a,b"
    ensures KeyString(Arr([Str("a"), Null, Arr([Str("b")])])) == "a,,b"
  {
    var two := Arr([Str("a"), Str("b")]);
    assert JoinedElements(two, 1) == "b";
    var three := Arr([Str("a"), Null, Arr([Str("b")])]);
    assert JoinedElements(three, 2) == "b";
    assert JoinedElements(three, 1) == ",b";
  }

  /** What a JavaScript throw carries, as far as the component is concerned. */
  datatype Error =
    | TypeError        // a property read or call on undefined or null
    | SyntaxError      // JSON.parse of the text "undefined"
    | HostError(detail: Value)   // an error passed to a callback by host code

  datatype Result<+T> = Ok(value: T) | Err(error: Error) {
    predicate IsFailure() { Err? }
    function PropagateFailure<U>(): Result<U>
      requires Err?
    {
      Err(error)
    }
    function Extract(): T
      requires Ok?
    {
      value
    }
  }

  /** `v[key]` in JavaScript: throws on undefined and null. */
  function Prop(v: Value, key: string): (r: Result<Value>)
    ensures r.Err? <==> (v.Undefined? || v.Null?)
    ensures r.Ok? ==> r.value == Get(v, key)
  {
    if v.Undefined? || v.Null? then Err(TypeError) else Ok(Get(v, key))
  }

  /**
   * `JSON.parse(JSON.stringify(v))`: the identity on plain data, except that
   * `JSON.stringify(undefined)` is undefined and parsing it throws.
   */
  function Clone(v: Value): (r: Result<Value>)
    ensures r.Ok? <==> v != Undefined
    ensures r.Ok? ==> r.value == v
  {
    if v.Undefined? then Err(SyntaxError) else Ok(v)
  }

  /** One entry of `data.relationships` in an inbound document. */
  datatype Relationship = Relationship(data: Value)

  /** The primary resource of an inbound document, `{attributes, relationships}`. */
  datatype Resource = Resource(
    attributes: Option<map<string, Value>>,
    relationships: Option<seq<(string, Relationship)>>)

  /** An inbound write document, `{data: {...}}`. */
  datatype Body = Body(data: Option<Resource>)

  /** A JavaScript object has no two keys with the same name. */
  predicate DistinctNames(rels: seq<(string, Relationship)>) {
    forall i, j :: 0 <= i < j < |rels| ==> rels[i].0 != rels[j].0
  }
}

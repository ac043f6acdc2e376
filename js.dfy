/** The JavaScript values that the adapter reads back from a decoded
    response body, and the semantics of reading a property from one.

    `response.json()` produces a value built from JSON text. An object may
    repeat a member name in that text; the decoded object then holds the
    value of the LAST such member. `undefined` never comes out of JSON but
    is what a read of a missing property yields, so it is a value here too. */
module Js {
  import opened Results

  datatype JsValue =
    | Undefined
    | Null
    | Bool(b: bool)
    | Num(n: real)
    | Str(s: string)
    | Arr(items: seq<JsValue>)
    | Obj(members: seq<(string, JsValue)>)

  /** The only two properties the adapter ever reads from a response body. */
  datatype Field = Prediction | Probability

  function Name(f: Field): string {
    match f
    case Prediction => "prediction"
    case Probability => "probability"
  }

  /** Member `i` is the last one in `members` named `key`. */
  predicate IsLastMember(members: seq<(string, JsValue)>, key: string, i: int) {
    0 <= i < |members| && members[i].0 == key &&
    forall j :: i < j < |members| ==> members[j].0 != key
  }

  /** The value of property `key` in an object decoded from `members`:
      the last member with that name, or `undefined` when there is none. */
  function Get(members: seq<(string, JsValue)>, key: string): (v: JsValue)
    ensures (forall i :: 0 <= i < |members| ==> members[i].0 != key) ==> v == Undefined
    ensures forall i :: IsLastMember(members, key, i) ==> v == members[i].1
    decreases |members|
  {
    if |members| == 0 then Undefined
    else if members[|members| - 1].0 == key then members[|members| - 1].1
    else
      var front := members[..|members| - 1];
      assert forall i :: IsLastMember(members, key, i) ==> IsLastMember(front, key, i);
      Get(front, key)
  }

  /** `value.field` in JavaScript: a TypeError on `null` and `undefined`;
      a property lookup on an object; `undefined` on any other value, since
      neither name is a property of numbers, strings, booleans or arrays. */
  function Read(value: JsValue, field: Field): (r: Result<JsValue>)
    ensures r.Err? <==> value.Null? || value.Undefined?
    ensures r.Err? ==> r.failure == TypeError
    ensures r.Ok? && value.Obj? ==> r.value == Get(value.members, Name(field))
    ensures r.Ok? && !value.Obj? ==> r.value == Undefined
  {
    match value
    case Undefined => Err(TypeError)
    case Null => Err(TypeError)
    case Obj(members) => Ok(Get(members, Name(field)))
    case _ => Ok(Undefined)
  }

  /** Whether JavaScript's ToString throws on a decoded value. An object
      with its own `toString` member throws a TypeError: JSON cannot make that
      member callable, and the inherited `valueOf` returns the object itself,
      so no primitive results. An array's ToString joins its elements, so it
      throws when one of them does. Every other value converts. */
  predicate ToStringThrows(v: JsValue)
    ensures ToStringThrows(v) ==> v.Obj? || v.Arr?
    decreases v
  {
    match v
    case Obj(members) => exists i :: 0 <= i < |members| && members[i].0 == "toString"
    case Arr(items) => exists i :: 0 <= i < |items| && ToStringThrows(items[i])
    case _ => false
  }

  /** JavaScript's `parseFloat(v)`: ToString, then the longest leading
      decimal literal, with `None` for NaN. Only the string grammar is a
      parameter, `parseString`; everything ToString fixes is spelt out.
      A number prints as text that parses back to itself. `undefined`,
      `null`, booleans and plain objects print as words that are not
      numbers. An array prints as its elements joined by commas, and no
      decimal literal runs past a comma, so only the first element counts. */
  function ParseFloat(v: JsValue, parseString: string -> Option<real>): (p: Option<real>)
    requires !ToStringThrows(v)
    ensures v.Num? ==> p == Some(v.n)
    ensures v.Str? ==> p == parseString(v.s)
    ensures v.Undefined? || v.Null? || v.Bool? || v.Obj? ==> p == None
    ensures v.Arr? && v.items == [] ==> p == None
    decreases v
  {
    match v
    case Num(n) => Some(n)
    case Str(s) => parseString(s)
    case Arr(items) =>
      if |items| == 0 then None
      else
        assert !ToStringThrows(items[0]);
        ParseFloat(items[0], parseString)
    case _ => None
  }

  /** A member appended after the others overrides every earlier one of the
      same name, and leaves every other name's value alone. */
  lemma GetAfterAppend(members: seq<(string, JsValue)>, key: string, v: JsValue, other: string)
    ensures Get(members + [(key, v)], key) == v
    ensures other != key ==> Get(members + [(key, v)], other) == Get(members, other)
  {
  }
}

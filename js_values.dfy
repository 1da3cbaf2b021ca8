/**
 * A small model of JavaScript values, enough for the duck-typed reply
 * lookup `extractBotMessage` (js/main.js) and the truthiness tests of
 * `handleWebhookResponse`.
 */
module JsValues {

  /** A JavaScript value; arrays are objects whose keys are indices. */
  datatype JsValue =
    | Undefined
    | Null
    | Bool(b: bool)
    | Number(n: real)
    | NaN
    | Str(s: string)
    | Object(fields: map<string, JsValue>)
    | Function

  /** JavaScript truthiness: `undefined`, `null`, `false`, `0`, `NaN` and `""` are falsy, everything else is truthy. */
  predicate Truthy(v: JsValue) {
    match v
    case Undefined => false
    case Null => false
    case Bool(b) => b
    case Number(n) => n != 0.0
    case NaN => false
    case Str(s) => s != []
    case Object(_) => true
    case Function => true
  }

  /** `typeof v === 'object'` (true of `null` as well). */
  predicate IsTypeofObject(v: JsValue) {
    v.Object? || v.Null?
  }

  /** Property read `v.key` on a value that is neither `null` nor `undefined` (the read would throw on those). */
  function Member(v: JsValue, key: string): (r: JsValue)
    requires !v.Null? && !v.Undefined?
  {
    if v.Object? && key in v.fields then v.fields[key] else Undefined
  }

  /** Optional chaining `v?.key`: `undefined` when `v` is `null` or `undefined`. */
  function OptionalMember(v: JsValue, key: string): (r: JsValue) {
    if v.Null? || v.Undefined? then Undefined else Member(v, key)
  }

  /** `a || b`: the left operand when it is truthy, the right one otherwise. */
  function Or(a: JsValue, b: JsValue): (r: JsValue) {
    if Truthy(a) then a else b
  }

  /**
   * The seven places `extractBotMessage` looks for a reply, in the order it
   * tries them: `message`, `response`, `reply`, `text`, `content`,
   * `data?.message`, `result?.message`.
   */
  function Candidates(v: JsValue): (cs: seq<JsValue>)
    requires v.Object?
  {
    [ Member(v, "message"), Member(v, "response"), Member(v, "reply"), Member(v, "text"),
      Member(v, "content"),
      OptionalMember(Member(v, "data"), "message"), OptionalMember(Member(v, "result"), "message") ]
  }

  /** The first truthy value of `cs`, or `null` when there is none: `cs[0] || cs[1] || ... || null`. */
  function FirstTruthy(cs: seq<JsValue>): (r: JsValue) {
    if cs == [] then Null else Or(cs[0], FirstTruthy(cs[1..]))
  }

  /** `FirstTruthy` picks the truthy value of least index, and is `null` only when every value is falsy. */
  lemma {:induction false} FirstTruthyRanked(cs: seq<JsValue>)
    ensures forall k :: 0 <= k < |cs| && Truthy(cs[k]) && (forall j :: 0 <= j < k ==> !Truthy(cs[j])) ==> FirstTruthy(cs) == cs[k]
    ensures (forall k :: 0 <= k < |cs| ==> !Truthy(cs[k])) ==> FirstTruthy(cs) == Null
  {
    if cs != [] {
      FirstTruthyRanked(cs[1..]);
      assert forall k :: 1 <= k < |cs| ==> cs[1..][k - 1] == cs[k];
    }
  }

  /**
   * `extractBotMessage`: a string is returned as it is; for a non-null object
   * the `||` chain over its candidates; `null` for anything else (numbers,
   * booleans, functions, `null`, `undefined`).
   */
  function ExtractBotMessage(response: JsValue): (r: JsValue)
    ensures response.Str? ==> r == response
    ensures !response.Str? && !response.Object? ==> r == Null
    ensures !response.Str? ==> r == Null || Truthy(r)
  {
    if response.Str? then
      response
    else if Truthy(response) && IsTypeofObject(response) then
      Or(Member(response, "message"),
      Or(Member(response, "response"),
      Or(Member(response, "reply"),
      Or(Member(response, "text"),
      Or(Member(response, "content"),
      Or(OptionalMember(Member(response, "data"), "message"),
      Or(OptionalMember(Member(response, "result"), "message"),
      Null)))))))
    else
      Null
  }

  /**
   * For an object, the `||` chain of `extractBotMessage` is `FirstTruthy`
   * over the ranked candidates: by `FirstTruthyRanked`, the first truthy one
   * in rank order, or `null` when none is truthy.
   */
  lemma ExtractIsFirstTruthy(response: JsValue)
    requires response.Object?
    ensures ExtractBotMessage(response) == FirstTruthy(Candidates(response))
  {
    var cs := Candidates(response);
    assert FirstTruthy(cs[7..]) == Null;
    assert FirstTruthy(cs[6..]) == Or(cs[6], Null);
    assert FirstTruthy(cs[5..]) == Or(cs[5], FirstTruthy(cs[6..]));
    assert FirstTruthy(cs[4..]) == Or(cs[4], FirstTruthy(cs[5..]));
    assert FirstTruthy(cs[3..]) == Or(cs[3], FirstTruthy(cs[4..]));
    assert FirstTruthy(cs[2..]) == Or(cs[2], FirstTruthy(cs[3..]));
    assert FirstTruthy(cs[1..]) == Or(cs[1], FirstTruthy(cs[2..]));
    assert FirstTruthy(cs) == Or(cs[0], FirstTruthy(cs[1..]));
  }
}

/**
 * Parsed JSON documents, and the few JavaScript coercions the validators apply
 * to them: truthiness (`!obj`), `typeof`, property access (`obj[key]`),
 * string conversion inside template literals, and `Array.prototype.join`.
 * Numbers are integers: the schemas only ask whether a value is a number.
 */
module Json {
  import opened Prelude

  datatype Json =
    | JNull
    | JBool(b: bool)
    | JNum(n: int)
    | JStr(s: string)
    | JArr(elems: seq<Json>)
    | JObj(members: seq<Member>)

  /** One `"key": value` pair of an object, in document order. */
  datatype Member = Member(key: string, value: Json)

  function Keys(ms: seq<Member>): set<string> {
    set m | m in ms :: m.key
  }

  /** The value stored under `k`, or None when the object has no such own property. */
  function Get(ms: seq<Member>, k: string): (r: Option<Json>)
    ensures r.Some? <==> k in Keys(ms)
    ensures r.Some? ==> Member(k, r.value) in ms
  {
    if ms == [] then None
    else if ms[0].key == k then Some(ms[0].value)
    else Get(ms[1..], k)
  }

  /** JavaScript's `!v` is false: null, false, 0 and "" are the falsy JSON values. */
  predicate Truthy(v: Json) {
    match v
    case JNull => false
    case JBool(b) => b
    case JNum(n) => n != 0
    case JStr(s) => s != ""
    case _ => true
  }

  /** `typeof v`, where None stands for `undefined`. */
  function TypeOf(v: Option<Json>): (r: string)
    ensures r == "undefined" <==> v.None?
  {
    match v
    case None => "undefined"
    case Some(JNull) => "object"
    case Some(JBool(_)) => "boolean"
    case Some(JNum(_)) => "number"
    case Some(JStr(_)) => "string"
    case Some(_) => "object"
  }

  function Digit(d: nat): char
    requires d < 10
  {
    "0123456789"[d]
  }

  /** Decimal notation of a natural number, as `String(n)` writes it. */
  function NatToString(n: nat): (r: string)
    ensures |r| >= 1
    ensures forall i :: 0 <= i < |r| ==> '0' <= r[i] <= '9'
  {
    if n < 10 then [Digit(n)] else NatToString(n / 10) + [Digit(n % 10)]
  }

  function IntToString(i: int): string {
    if i < 0 then "-" + NatToString(-i) else NatToString(i)
  }

  /** The index `i < n` whose decimal notation is `key`, if any. */
  function ArrayIndex(key: string, n: nat, i: nat): (r: Option<nat>)
    decreases n - i
    ensures r.Some? ==> i <= r.value < n && NatToString(r.value) == key
    ensures r.None? ==> forall j :: i <= j < n ==> NatToString(j) != key
  {
    if i >= n then None
    else if NatToString(i) == key then Some(i)
    else ArrayIndex(key, n, i + 1)
  }

  /**
   * `v[key]` for a value that is not null: own properties of objects, and
   * `length` and indices of arrays and strings. Properties inherited from a
   * prototype (methods such as `toString`) are not part of this model.
   */
  function Lookup(v: Json, key: string): (r: Option<Json>)
    ensures v.JObj? ==> r == Get(v.members, key)
    ensures v.JNull? || v.JBool? || v.JNum? ==> r.None?
  {
    match v
    case JObj(ms) => Get(ms, key)
    case JArr(es) =>
      if key == "length" then Some(JNum(|es|))
      else (match ArrayIndex(key, |es|, 0)
            case Some(i) => Some(es[i])
            case None => None)
    case JStr(s) =>
      if key == "length" then Some(JNum(|s|))
      else (match ArrayIndex(key, |s|, 0)
            case Some(i) => Some(JStr([s[i]]))
            case None => None)
    case _ => None
  }

  /**
   * `v.hasOwnProperty(k)`, or None where the call throws a TypeError: on null,
   * and on an object whose own `hasOwnProperty` key hides the inherited method.
   * Arrays and strings own their indices and `length`; numbers and booleans own nothing.
   */
  function HasOwnProperty(v: Json, k: string): (r: Option<bool>)
    ensures r.None? <==> v.JNull? || (v.JObj? && "hasOwnProperty" in Keys(v.members))
    ensures r == Some(true) <==> r.Some? && Lookup(v, k).Some?
  {
    match v
    case JNull => None
    case JObj(ms) => if "hasOwnProperty" in Keys(ms) then None else Some(k in Keys(ms))
    case JArr(_) => Some(Lookup(v, k).Some?)
    case JStr(_) => Some(Lookup(v, k).Some?)
    case _ => Some(false)
  }

  /** `String(v)`, as a template literal `${v}` renders a JSON value. */
  function ToString(v: Json): string
    decreases v, 1
  {
    match v
    case JNull => "null"
    case JBool(b) => if b then "true" else "false"
    case JNum(n) => IntToString(n)
    case JStr(s) => s
    case JArr(es) => JoinFrom(v, 0, ",")
    case JObj(_) => "[object Object]"
  }

  /**
   * `v.elems.slice(i).join(sep)`: elements rendered by `ToString`, except that
   * null renders as the empty string.
   */
  function JoinFrom(v: Json, i: nat, sep: string): string
    requires v.JArr?
    decreases v, 0, |v.elems| - i
  {
    if i >= |v.elems| then ""
    else
      var head := if v.elems[i].JNull? then "" else ToString(v.elems[i]);
      if i + 1 == |v.elems| then head else head + sep + JoinFrom(v, i + 1, sep)
  }

  /** `values.join(sep)`. */
  function Join(values: seq<Json>, sep: string): string {
    JoinFrom(JArr(values), 0, sep)
  }

  /** `${x}` for a value that may be `undefined` (None). */
  function ToStringOrUndefined(v: Option<Json>): string {
    match v
    case None => "undefined"
    case Some(x) => ToString(x)
  }

  /** A string element renders as itself, followed by the separator unless it is the last. */
  lemma JoinFromString(v: Json, i: nat, sep: string)
    requires v.JArr? && i < |v.elems| && v.elems[i].JStr?
    ensures JoinFrom(v, i, sep)
            == if i + 1 == |v.elems| then v.elems[i].s else v.elems[i].s + sep + JoinFrom(v, i + 1, sep)
  {
  }

  /** JavaScript's `!v` holds exactly for the falsy JSON values: null, false, 0 and "". */
  lemma FalsyValues(v: Json)
    ensures !Truthy(v) <==> v == JNull || v == JBool(false) || v == JNum(0) || v == JStr("")
  {
  }

  /** `String(array)` is `array.join(",")`. */
  lemma ArrayTextIsJoin(es: seq<Json>)
    ensures ToString(JArr(es)) == Join(es, ",")
  {
  }

  /**
   * A key that is neither `length` nor starts with a digit names no own
   * property of anything but an object.
   */
  lemma NamedKeyOnlyOnObjects(v: Json, key: string)
    requires key != "length" && key != [] && !('0' <= key[0] <= '9')
    ensures !v.JObj? ==> Lookup(v, key).None?
  {
  }
}

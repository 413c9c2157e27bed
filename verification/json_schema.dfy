/**
 * A JSON Schema checker for the keyword subset the catalog schemas use:
 * `type`, `enum`, `const`, `items`, `required`, `properties`,
 * `additionalProperties` and `oneOf` (sections 6.1.1, 6.1.2, 6.1.3, 6.4.1,
 * 6.5.3, 6.5.4, 6.5.6 and 6.7.3 of JSON Schema Validation, draft-07), plus
 * `nullable` (section 4.7.24 of the OpenAPI 3.0 Schema Object).
 *
 * It behaves like an Ajv validator compiled with `allErrors: true`: every
 * violation is reported, not only the first; the keywords of a data type
 * (`required`, `properties`, `additionalProperties` for objects, `items` for
 * arrays) apply only to data of that type; a failed `oneOf` keeps the errors
 * of its branches and adds its own, while a `oneOf` with exactly one passing
 * branch reports nothing. Each error carries its instance path, the violated
 * keyword with its parameters, Ajv's default message, and the offending data
 * only when the validator is `verbose`.
 */
module JsonSchema {
  import opened Prelude
  import opened Json

  datatype JsonType = StringType | NumberType | BooleanType | ObjectType | ArrayType

  function TypeName(t: JsonType): string {
    match t
    case StringType => "string"
    case NumberType => "number"
    case BooleanType => "boolean"
    case ObjectType => "object"
    case ArrayType => "array"
  }

  /** Ajv's `object` excludes arrays and null. */
  predicate HasType(v: Json, t: JsonType) {
    match t
    case StringType => v.JStr?
    case NumberType => v.JNum?
    case BooleanType => v.JBool?
    case ObjectType => v.JObj?
    case ArrayType => v.JArr?
  }

  /**
   * One schema. An absent keyword is None, `[]` or, for
   * `additionalProperties`, true (the keyword's default).
   */
  datatype Schema = Schema(
    typ: Option<JsonType>,
    nullable: bool,
    enumValues: Option<seq<Json>>,
    constValue: Option<Json>,
    items: Option<Schema>,
    required: seq<string>,
    properties: seq<Property>,
    additionalProperties: bool,
    oneOf: seq<Schema>)

  datatype Property = Property(name: string, schema: Schema)

  function PropertyNames(s: Schema): set<string> {
    set p | p in s.properties :: p.name
  }

  /** One step of an instance path: an object key or an array index. */
  datatype Segment = Key(name: string) | Index(index: nat)

  /** A key as a JSON Pointer token: `~` becomes `~0` and `/` becomes `~1`. */
  function EscapeToken(k: string): string {
    if k == [] then []
    else (if k[0] == '~' then "~0" else if k[0] == '/' then "~1" else [k[0]]) + EscapeToken(k[1..])
  }

  function Token(seg: Segment): string {
    match seg
    case Key(k) => EscapeToken(k)
    case Index(i) => NatToString(i)
  }

  /** Ajv's `instancePath`: empty at the root, otherwise `/token/token...`. */
  function Pointer(path: seq<Segment>): (r: string)
    ensures r == "" <==> path == []
    ensures path != [] ==> r[0] == '/'
  {
    if path == [] then "" else "/" + Token(path[0]) + Pointer(path[1..])
  }

  /** A violated keyword with the parameters Ajv reports for it. */
  datatype Violation =
    | Required(missingProperty: string)
    | Type(typeName: string)
    | Enum(allowedValues: seq<Json>)
    | Const(allowedValue: Json)
    | AdditionalProperties(additionalProperty: string)
    | OneOf

  datatype SchemaError = SchemaError(
    path: seq<Segment>,
    violation: Violation,
    message: string,
    data: Option<Json>)

  /** Ajv's default English message for each keyword. */
  function Message(viol: Violation): (r: string)
    ensures r != ""
  {
    match viol
    case Required(p) => "must have required property '" + p + "'"
    case Type(t) => "must be " + t
    case Enum(_) => "must be equal to one of the allowed values"
    case Const(_) => "must be equal to constant"
    case AdditionalProperties(_) => "must NOT have additional properties"
    case OneOf => "must match exactly one schema in oneOf"
  }

  /** Every error carries Ajv's message, and data exactly in verbose mode. */
  predicate Reported(es: seq<SchemaError>, verbose: bool) {
    forall e :: e in es ==> e.message == Message(e.violation) && (e.data.Some? <==> verbose)
  }

  /** An error about `v` itself. */
  function Report(viol: Violation, v: Json, verbose: bool): (e: SchemaError)
    ensures Reported([e], verbose)
  {
    SchemaError([], viol, Message(viol), if verbose then Some(v) else None)
  }

  /** The errors of a child value, seen from its parent through `seg`. */
  function Under(seg: Segment, es: seq<SchemaError>): (r: seq<SchemaError>)
    ensures forall e :: e in es ==> e.(path := [seg] + e.path) in r
    ensures forall e :: e in r ==> e.path != [] && e.path[0] == seg && e.(path := e.path[1..]) in es
    ensures forall verbose :: Reported(es, verbose) ==> Reported(r, verbose)
    ensures |r| == |es|
  {
    var r := seq(|es|, i requires 0 <= i < |es| => es[i].(path := [seg] + es[i].path));
    assert forall i :: 0 <= i < |es| ==> r[i].(path := r[i].path[1..]) == es[i];
    r
  }

  function TypeErrors(s: Schema, v: Json, verbose: bool): (r: seq<SchemaError>)
    ensures forall e :: e in r ==> e.path == [] && e.violation.Type?
  {
    match s.typ
    case Some(t) =>
      if HasType(v, t) || (s.nullable && v.JNull?) then [] else [Report(Type(TypeName(t)), v, verbose)]
    case None => []
  }

  function EnumErrors(s: Schema, v: Json, verbose: bool): (r: seq<SchemaError>)
    ensures forall e :: e in r ==> e.path == [] && e.violation.Enum?
  {
    match s.enumValues
    case Some(vals) => if v in vals then [] else [Report(Enum(vals), v, verbose)]
    case None => []
  }

  function ConstErrors(s: Schema, v: Json, verbose: bool): (r: seq<SchemaError>)
    ensures forall e :: e in r ==> e.path == [] && e.violation.Const?
  {
    match s.constValue
    case Some(c) => if v == c then [] else [Report(Const(c), v, verbose)]
    case None => []
  }

  /** One error per name of `req` that the object lacks, in the order of `req`. */
  function RequiredErrors(req: seq<string>, v: Json, verbose: bool): (r: seq<SchemaError>)
    requires v.JObj?
    ensures Reported(r, verbose)
    ensures forall e :: e in r ==>
              && e.path == [] && e.violation.Required?
              && e.violation.missingProperty in req && e.violation.missingProperty !in Keys(v.members)
    ensures forall f :: f in req && f !in Keys(v.members) ==> Report(Required(f), v, verbose) in r
  {
    if req == [] then []
    else
      (if req[0] in Keys(v.members) then [] else [Report(Required(req[0]), v, verbose)])
      + RequiredErrors(req[1..], v, verbose)
  }

  /** One error per member of `ms` whose key is not declared, in member order. */
  function UndeclaredErrors(ms: seq<Member>, declared: set<string>, v: Json, verbose: bool): (r: seq<SchemaError>)
    ensures Reported(r, verbose)
    ensures forall e :: e in r ==>
              && e.path == [] && e.violation.AdditionalProperties?
              && e.violation.additionalProperty in Keys(ms) && e.violation.additionalProperty !in declared
    ensures forall k :: k in Keys(ms) && k !in declared ==> Report(AdditionalProperties(k), v, verbose) in r
  {
    if ms == [] then []
    else
      (if ms[0].key in declared then [] else [Report(AdditionalProperties(ms[0].key), v, verbose)])
      + UndeclaredErrors(ms[1..], declared, v, verbose)
  }

  function AdditionalErrors(s: Schema, v: Json, verbose: bool): (r: seq<SchemaError>)
    requires v.JObj?
    ensures forall e :: e in r ==>
              && e.path == [] && e.violation.AdditionalProperties? && !s.additionalProperties
              && e.violation.additionalProperty in Keys(v.members)
              && e.violation.additionalProperty !in PropertyNames(s)
    ensures !s.additionalProperties ==>
              forall k :: k in Keys(v.members) && k !in PropertyNames(s) ==>
                Report(AdditionalProperties(k), v, verbose) in r
  {
    if s.additionalProperties then [] else UndeclaredErrors(v.members, PropertyNames(s), v, verbose)
  }

  /** The errors of the declared properties `i..` that the object has, each under its key. */
  function PropertyErrors(s: Schema, v: Json, i: nat, verbose: bool): (r: seq<SchemaError>)
    requires v.JObj?
    decreases s, 0, |s.properties| - i
    ensures Reported(r, verbose)
    ensures forall e :: e in r ==>
              && e.path != [] && e.path[0].Key?
              && e.path[0].name in Keys(v.members) && e.path[0].name in PropertyNames(s)
  {
    if i >= |s.properties| then []
    else
      var p := s.properties[i];
      (match Get(v.members, p.name)
       case Some(x) => Under(Key(p.name), Check(p.schema, x, verbose))
       case None => [])
      + PropertyErrors(s, v, i + 1, verbose)
  }

  /** The errors of the elements `i..` of an array, each under its index. */
  function ItemErrors(s: Schema, es: seq<Json>, i: nat, verbose: bool): (r: seq<SchemaError>)
    requires s.items.Some?
    decreases s, 0, |es| - i
    ensures Reported(r, verbose)
  {
    if i >= |es| then []
    else Under(Index(i), Check(s.items.value, es[i], verbose)) + ItemErrors(s, es, i + 1, verbose)
  }

  /** The errors of the `oneOf` branches `i..` against `v` itself. */
  function BranchErrors(s: Schema, v: Json, i: nat, verbose: bool): (r: seq<SchemaError>)
    decreases s, 0, |s.oneOf| - i
    ensures Reported(r, verbose)
  {
    if i >= |s.oneOf| then [] else Check(s.oneOf[i], v, verbose) + BranchErrors(s, v, i + 1, verbose)
  }

  /** Whether each `oneOf` branch accepts `v`, in branch order. */
  function BranchVerdicts(s: Schema, v: Json, verbose: bool): (r: seq<bool>)
    decreases s, 0
    ensures |r| == |s.oneOf|
  {
    seq(|s.oneOf|, j requires 0 <= j < |s.oneOf| => Check(s.oneOf[j], v, verbose) == [])
  }

  /** How many of `bs` hold. */
  function CountTrue(bs: seq<bool>): (r: nat)
    ensures r <= |bs|
  {
    if bs == [] then 0 else (if bs[0] then 1 else 0) + CountTrue(bs[1..])
  }

  predicate ExactlyOne(bs: seq<bool>) {
    exists j :: 0 <= j < |bs| && bs[j] && forall k :: 0 <= k < |bs| && k != j ==> !bs[k]
  }

  function OneOfErrors(s: Schema, v: Json, verbose: bool): (r: seq<SchemaError>)
    decreases s, 1
    ensures Reported(r, verbose)
    ensures s.oneOf == [] ==> r == []
  {
    if s.oneOf == [] || CountTrue(BranchVerdicts(s, v, verbose)) == 1 then []
    else BranchErrors(s, v, 0, verbose) + [Report(OneOf, v, verbose)]
  }

  /**
   * All violations of `s` by `v`; `v` is valid exactly when the list is empty.
   * Instance paths are relative to `v`.
   */
  function Check(s: Schema, v: Json, verbose: bool): (r: seq<SchemaError>)
    decreases s, 2
    ensures Reported(r, verbose)
  {
    TypeErrors(s, v, verbose) + EnumErrors(s, v, verbose) + ConstErrors(s, v, verbose)
    + (if v.JObj? then RequiredErrors(s.required, v, verbose) + AdditionalErrors(s, v, verbose)
                       + PropertyErrors(s, v, 0, verbose)
       else [])
    + (if v.JArr? && s.items.Some? then ItemErrors(s, v.elems, 0, verbose) else [])
    + OneOfErrors(s, v, verbose)
  }

  /**
   * `v` satisfies `s`: the meaning of each keyword, stated without error
   * lists. `Check` reports nothing exactly when this holds (`CheckEmptyIff`).
   */
  predicate Conforms(s: Schema, v: Json)
    decreases s, 2
  {
    && LocalConforms(s, v)
    && (v.JObj? ==> MembersConform(s, v))
    && (v.JArr? && s.items.Some? ==> forall i :: 0 <= i < |v.elems| ==> Conforms(s.items.value, v.elems[i]))
    && (s.oneOf != [] ==> ExactlyOne(seq(|s.oneOf|, j requires 0 <= j < |s.oneOf| => Conforms(s.oneOf[j], v))))
  }

  /** The keywords about `v` itself: `type` (with `nullable`), `enum` and `const`. */
  predicate LocalConforms(s: Schema, v: Json) {
    && (s.typ.Some? ==> HasType(v, s.typ.value) || (s.nullable && v.JNull?))
    && (s.enumValues.Some? ==> v in s.enumValues.value)
    && (s.constValue.Some? ==> v == s.constValue.value)
  }

  /** The object keywords: `required`, `additionalProperties` and `properties`. */
  predicate MembersConform(s: Schema, v: Json)
    requires v.JObj?
    decreases s, 1
  {
    && (forall f :: f in s.required ==> f in Keys(v.members))
    && (!s.additionalProperties ==> Keys(v.members) <= PropertyNames(s))
    && (forall j :: 0 <= j < |s.properties| && s.properties[j].name in Keys(v.members) ==>
          Conforms(s.properties[j].schema, Get(v.members, s.properties[j].name).value))
  }

  /** The violations reported at the root of the checked value. */
  function RootViolations(es: seq<SchemaError>): set<Violation> {
    set e | e in es && e.path == [] :: e.violation
  }

  /**
   * An error a declared property `j >= i` produces, prefixed by its key, is
   * among the property errors from `i` on.
   */
  lemma {:induction false} PropertyErrorsInclude(s: Schema, v: Json, i: nat, j: nat, x: Json, e: SchemaError, verbose: bool)
    requires v.JObj? && i <= j < |s.properties|
    requires Get(v.members, s.properties[j].name) == Some(x)
    requires e in Check(s.properties[j].schema, x, verbose)
    ensures e.(path := [Key(s.properties[j].name)] + e.path) in PropertyErrors(s, v, i, verbose)
    decreases j - i
  {
    var p := s.properties[i];
    var head := match Get(v.members, p.name)
                case Some(y) => Under(Key(p.name), Check(p.schema, y, verbose))
                case None => [];
    assert PropertyErrors(s, v, i, verbose) == head + PropertyErrors(s, v, i + 1, verbose);
    if i < j {
      PropertyErrorsInclude(s, v, i + 1, j, x, e, verbose);
    } else {
      assert head == Under(Key(p.name), Check(p.schema, x, verbose));
    }
  }

  /** A violation inside a declared property shows up in the parent's check, under the key. */
  lemma PropertyViolation(s: Schema, v: Json, j: nat, x: Json, e: SchemaError, verbose: bool)
    requires v.JObj? && j < |s.properties|
    requires Get(v.members, s.properties[j].name) == Some(x)
    requires e in Check(s.properties[j].schema, x, verbose)
    ensures e.(path := [Key(s.properties[j].name)] + e.path) in Check(s, v, verbose)
  {
    PropertyErrorsInclude(s, v, 0, j, x, e, verbose);
    var e' := e.(path := [Key(s.properties[j].name)] + e.path);
    var pre := TypeErrors(s, v, verbose) + EnumErrors(s, v, verbose) + ConstErrors(s, v, verbose);
    var obj := RequiredErrors(s.required, v, verbose) + AdditionalErrors(s, v, verbose) + PropertyErrors(s, v, 0, verbose);
    assert e' in obj;
    assert Check(s, v, verbose) == pre + obj + [] + OneOfErrors(s, v, verbose);
  }

  /**
   * The shape of every error of an object checked against a schema without a
   * root `oneOf`: root errors are type, enum or const violations, missing
   * required properties, or (only for a closed schema) members the schema does
   * not declare; every other error lies under a key the object has and the
   * schema declares.
   */
  lemma CheckObjectShape(s: Schema, v: Json, verbose: bool)
    requires v.JObj? && s.oneOf == []
    ensures forall e :: e in Check(s, v, verbose) && e.path == [] ==>
              || e.violation.Type? || e.violation.Enum? || e.violation.Const?
              || (e.violation.Required? && e.violation.missingProperty in s.required
                  && e.violation.missingProperty !in Keys(v.members))
              || (e.violation.AdditionalProperties? && !s.additionalProperties
                  && e.violation.additionalProperty in Keys(v.members)
                  && e.violation.additionalProperty !in PropertyNames(s))
    ensures forall e :: e in Check(s, v, verbose) && e.path != [] ==>
              && e.path[0].Key?
              && e.path[0].name in Keys(v.members) && e.path[0].name in PropertyNames(s)
  {
    var t, n, c := TypeErrors(s, v, verbose), EnumErrors(s, v, verbose), ConstErrors(s, v, verbose);
    var q, a, p := RequiredErrors(s.required, v, verbose), AdditionalErrors(s, v, verbose), PropertyErrors(s, v, 0, verbose);
    assert OneOfErrors(s, v, verbose) == [];
    assert Check(s, v, verbose) == t + n + c + (q + a + p) + [] + [];
    forall e | e in Check(s, v, verbose)
      ensures e in t || e in n || e in c || e in q || e in a || e in p
    {
    }
  }

  /** For a schema without a root `oneOf`, a root `required` violation names exactly the missing required properties. */
  lemma RootRequiredIff(s: Schema, v: Json, verbose: bool, f: string)
    requires v.JObj? && s.oneOf == []
    ensures Required(f) in RootViolations(Check(s, v, verbose)) <==> f in s.required && f !in Keys(v.members)
  {
    CheckObjectShape(s, v, verbose);
    if f in s.required && f !in Keys(v.members) {
      var e := Report(Required(f), v, verbose);
      assert e in RequiredErrors(s.required, v, verbose);
      CheckContainsRequired(s, v, verbose, e);
    }
  }

  /**
   * For a schema without a root `oneOf`, a root `additionalProperties`
   * violation names exactly the undeclared members, and only when the schema
   * is closed.
   */
  lemma RootAdditionalIff(s: Schema, v: Json, verbose: bool, k: string)
    requires v.JObj? && s.oneOf == []
    ensures AdditionalProperties(k) in RootViolations(Check(s, v, verbose))
            <==> !s.additionalProperties && k in Keys(v.members) && k !in PropertyNames(s)
  {
    CheckObjectShape(s, v, verbose);
    if !s.additionalProperties && k in Keys(v.members) && k !in PropertyNames(s) {
      var e := Report(AdditionalProperties(k), v, verbose);
      assert e in AdditionalErrors(s, v, verbose);
      CheckContainsAdditional(s, v, verbose, e);
    }
  }

  lemma CheckContainsRequired(s: Schema, v: Json, verbose: bool, e: SchemaError)
    requires v.JObj? && e in RequiredErrors(s.required, v, verbose)
    ensures e in Check(s, v, verbose)
  {
    var pre := TypeErrors(s, v, verbose) + EnumErrors(s, v, verbose) + ConstErrors(s, v, verbose);
    var obj := RequiredErrors(s.required, v, verbose) + AdditionalErrors(s, v, verbose) + PropertyErrors(s, v, 0, verbose);
    assert e in obj;
    assert Check(s, v, verbose) == pre + obj + [] + OneOfErrors(s, v, verbose);
  }

  lemma CheckContainsAdditional(s: Schema, v: Json, verbose: bool, e: SchemaError)
    requires v.JObj? && e in AdditionalErrors(s, v, verbose)
    ensures e in Check(s, v, verbose)
  {
    var pre := TypeErrors(s, v, verbose) + EnumErrors(s, v, verbose) + ConstErrors(s, v, verbose);
    var obj := RequiredErrors(s.required, v, verbose) + AdditionalErrors(s, v, verbose) + PropertyErrors(s, v, 0, verbose);
    assert e in obj;
    assert Check(s, v, verbose) == pre + obj + [] + OneOfErrors(s, v, verbose);
  }

  /** The checker reports no violation exactly when the value conforms to the schema. */
  lemma {:induction false} CheckEmptyIff(s: Schema, v: Json, verbose: bool)
    decreases s, 3
    ensures Check(s, v, verbose) == [] <==> Conforms(s, v)
  {
    var t, n, c := TypeErrors(s, v, verbose), EnumErrors(s, v, verbose), ConstErrors(s, v, verbose);
    var obj := if v.JObj? then RequiredErrors(s.required, v, verbose) + AdditionalErrors(s, v, verbose)
                               + PropertyErrors(s, v, 0, verbose)
               else [];
    var arr := if v.JArr? && s.items.Some? then ItemErrors(s, v.elems, 0, verbose) else [];
    var o := OneOfErrors(s, v, verbose);
    assert Check(s, v, verbose) == t + n + c + obj + arr + o;
    assert t + n + c == [] <==> LocalConforms(s, v);
    if v.JObj? {
      MembersEmptyIff(s, v, verbose);
    }
    if v.JArr? && s.items.Some? {
      ItemErrorsEmptyIff(s, v.elems, 0, verbose);
    }
    OneOfEmptyIff(s, v, verbose);
  }

  lemma MembersEmptyIff(s: Schema, v: Json, verbose: bool)
    requires v.JObj?
    decreases s, 2
    ensures RequiredErrors(s.required, v, verbose) + AdditionalErrors(s, v, verbose) + PropertyErrors(s, v, 0, verbose) == []
            <==> MembersConform(s, v)
  {
    RequiredEmptyIff(s.required, v, verbose);
    AdditionalEmptyIff(s, v, verbose);
    PropertyErrorsEmptyIff(s, v, 0, verbose);
  }

  lemma RequiredEmptyIff(req: seq<string>, v: Json, verbose: bool)
    requires v.JObj?
    ensures RequiredErrors(req, v, verbose) == [] <==> forall f :: f in req ==> f in Keys(v.members)
  {
    var r := RequiredErrors(req, v, verbose);
    if r != [] {
      assert r[0] in r;
    }
  }

  lemma AdditionalEmptyIff(s: Schema, v: Json, verbose: bool)
    requires v.JObj?
    ensures AdditionalErrors(s, v, verbose) == [] <==> (!s.additionalProperties ==> Keys(v.members) <= PropertyNames(s))
  {
    var r := AdditionalErrors(s, v, verbose);
    if r != [] {
      assert r[0] in r;
    }
  }

  lemma {:induction false} PropertyErrorsEmptyIff(s: Schema, v: Json, i: nat, verbose: bool)
    requires v.JObj?
    decreases s, 1, |s.properties| - i
    ensures PropertyErrors(s, v, i, verbose) == [] <==>
              forall j :: i <= j < |s.properties| && s.properties[j].name in Keys(v.members) ==>
                Conforms(s.properties[j].schema, Get(v.members, s.properties[j].name).value)
  {
    if i < |s.properties| {
      var p := s.properties[i];
      var head := match Get(v.members, p.name)
                  case Some(x) => Under(Key(p.name), Check(p.schema, x, verbose))
                  case None => [];
      var rest := PropertyErrors(s, v, i + 1, verbose);
      assert PropertyErrors(s, v, i, verbose) == head + rest;
      PropertyErrorsEmptyIff(s, v, i + 1, verbose);
      var headConforms := p.name in Keys(v.members) ==> Conforms(p.schema, Get(v.members, p.name).value);
      match Get(v.members, p.name) {
        case Some(x) =>
          CheckEmptyIff(p.schema, x, verbose);
          assert head == [] <==> headConforms;
        case None =>
          assert head == [] && headConforms;
      }
      if head == [] && rest == [] {
        forall j | i <= j < |s.properties| && s.properties[j].name in Keys(v.members)
          ensures Conforms(s.properties[j].schema, Get(v.members, s.properties[j].name).value)
        {
          if j == i {
            assert headConforms;
          }
        }
      } else if head != [] {
        assert !headConforms;
        assert head + rest != [];
      } else {
        assert head + rest != [];
      }
    }
  }



  lemma {:induction false} ItemErrorsEmptyIff(s: Schema, es: seq<Json>, i: nat, verbose: bool)
    requires s.items.Some?
    decreases s, 2, |es| - i
    ensures ItemErrors(s, es, i, verbose) == [] <==> forall j :: i <= j < |es| ==> Conforms(s.items.value, es[j])
  {
    if i < |es| {
      CheckEmptyIff(s.items.value, es[i], verbose);
      ItemErrorsEmptyIff(s, es, i + 1, verbose);
    }
  }

  lemma OneOfEmptyIff(s: Schema, v: Json, verbose: bool)
    decreases s, 2
    ensures OneOfErrors(s, v, verbose) == [] <==>
              (s.oneOf != [] ==> ExactlyOne(seq(|s.oneOf|, j requires 0 <= j < |s.oneOf| => Conforms(s.oneOf[j], v))))
  {
    var verdicts := BranchVerdicts(s, v, verbose);
    var meant := seq(|s.oneOf|, j requires 0 <= j < |s.oneOf| => Conforms(s.oneOf[j], v));
    forall j | 0 <= j < |s.oneOf|
      ensures verdicts[j] == meant[j]
    {
      CheckEmptyIff(s.oneOf[j], v, verbose);
    }
    assert verdicts == meant;
    CountTrueOne(verdicts);
  }

  /** Exactly one of `bs` holds when, and only when, `CountTrue` counts one. */
  lemma {:induction false} CountTrueOne(bs: seq<bool>)
    ensures CountTrue(bs) == 0 <==> forall j :: 0 <= j < |bs| ==> !bs[j]
    ensures CountTrue(bs) == 1 <==> ExactlyOne(bs)
  {
    if bs != [] {
      var rest := bs[1..];
      CountTrueOne(rest);
      assert forall j :: 1 <= j < |bs| ==> bs[j] == rest[j - 1];
      if bs[0] {
        if CountTrue(rest) == 0 {
          assert bs[0] && forall k :: 0 <= k < |bs| && k != 0 ==> !bs[k];
        }
      } else if CountTrue(rest) == 1 {
        var j :| 0 <= j < |rest| && rest[j] && forall k :: 0 <= k < |rest| && k != j ==> !rest[k];
        assert bs[j + 1] && forall k :: 0 <= k < |bs| && k != j + 1 ==> !bs[k];
      }
    }
  }

  /** An error of the keywords about `v` itself is among its errors. */
  lemma CheckContainsLocal(s: Schema, v: Json, verbose: bool, e: SchemaError)
    requires e in TypeErrors(s, v, verbose) + EnumErrors(s, v, verbose) + ConstErrors(s, v, verbose)
    ensures e in Check(s, v, verbose)
  {
    var pre := TypeErrors(s, v, verbose) + EnumErrors(s, v, verbose) + ConstErrors(s, v, verbose);
    var o := OneOfErrors(s, v, verbose);
    if v.JObj? {
      var obj := RequiredErrors(s.required, v, verbose) + AdditionalErrors(s, v, verbose) + PropertyErrors(s, v, 0, verbose);
      assert Check(s, v, verbose) == pre + obj + [] + o;
    } else if v.JArr? && s.items.Some? {
      assert Check(s, v, verbose) == pre + [] + ItemErrors(s, v.elems, 0, verbose) + o;
    } else {
      assert Check(s, v, verbose) == pre + [] + [] + o;
    }
  }

  /** A declared property whose value lies outside its `enum` is reported under its key. */
  lemma EnumViolationUnder(s: Schema, v: Json, j: nat, x: Json, verbose: bool)
    requires v.JObj? && j < |s.properties| && Get(v.members, s.properties[j].name) == Some(x)
    requires s.properties[j].schema.enumValues.Some? && x !in s.properties[j].schema.enumValues.value
    ensures var vals := s.properties[j].schema.enumValues.value;
            SchemaError([Key(s.properties[j].name)], Enum(vals), Message(Enum(vals)), if verbose then Some(x) else None)
              in Check(s, v, verbose)
  {
    var ps := s.properties[j].schema;
    var vals := ps.enumValues.value;
    var e := Report(Enum(vals), x, verbose);
    var e' := SchemaError([Key(s.properties[j].name)], Enum(vals), Message(Enum(vals)), if verbose then Some(x) else None);
    assert [Key(s.properties[j].name)] + e.path == e'.path;
    assert e.(path := [Key(s.properties[j].name)] + e.path) == e';
    assert EnumErrors(ps, x, verbose) == [e];
    CheckContainsLocal(ps, x, verbose, e);
    PropertyViolation(s, v, j, x, e, verbose);
  }

  /** A declared property whose value has the wrong JSON type is reported under its key. */
  lemma TypeViolationUnder(s: Schema, v: Json, j: nat, x: Json, verbose: bool)
    requires v.JObj? && j < |s.properties| && Get(v.members, s.properties[j].name) == Some(x)
    requires s.properties[j].schema.typ.Some? && !HasType(x, s.properties[j].schema.typ.value)
    requires !(s.properties[j].schema.nullable && x.JNull?)
    ensures var tn := TypeName(s.properties[j].schema.typ.value);
            SchemaError([Key(s.properties[j].name)], Type(tn), Message(Type(tn)), if verbose then Some(x) else None)
              in Check(s, v, verbose)
  {
    var ps := s.properties[j].schema;
    var tn := TypeName(ps.typ.value);
    var e := Report(Type(tn), x, verbose);
    var e' := SchemaError([Key(s.properties[j].name)], Type(tn), Message(Type(tn)), if verbose then Some(x) else None);
    assert [Key(s.properties[j].name)] + e.path == e'.path;
    assert e.(path := [Key(s.properties[j].name)] + e.path) == e';
    assert TypeErrors(ps, x, verbose) == [e];
    CheckContainsLocal(ps, x, verbose, e);
    PropertyViolation(s, v, j, x, e, verbose);
  }
}

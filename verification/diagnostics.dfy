/**
 * Translation of raw schema errors into diagnostic strings. The three call
 * sites (base layer, variant layer, owner descriptor) share the templates and
 * differ in two ways: which keywords have a dedicated template (the others
 * fall to `<field> <message>`), and the layer suffix (` (base)`, ` (Model)`,
 * ..., or none for the owner descriptor).
 */
module Diagnostics {
  import opened Prelude
  import opened Json
  import opened JsonSchema

  datatype ValidationResult = ValidationResult(isValid: bool, errors: seq<string>)

  /**
   * Which of `const`, `additionalProperties` and `oneOf` a call site renders
   * with a dedicated template; `required`, `type` and `enum` always have one.
   */
  datatype Templates = Templates(hasConst: bool, hasAdditional: bool, hasOneOf: bool)

  /** The base layer of an item: `const`, `additionalProperties` and `oneOf` fall to the default. */
  const BaseLayerTemplates := Templates(false, false, false)
  /** The variant layer of an item: every keyword has its template. */
  const VariantTemplates := Templates(true, true, true)
  /** The owner descriptor: `additionalProperties` has a template, `const` and `oneOf` do not. */
  const OwnerTemplates := Templates(false, true, false)

  /** Both validators are compiled without Ajv's `verbose` option. */
  const Verbose := false

  /** The single diagnostic of a falsy value. */
  function NullDiagnostic(propertyPath: string): string {
    propertyPath + " is null or undefined"
  }

  /** `error.instancePath ? propertyPath + instancePath : propertyPath` */
  function Field(propertyPath: string, e: SchemaError): (r: string)
    ensures r == propertyPath + Pointer(e.path)
  {
    var ptr := Pointer(e.path);
    if ptr != "" then propertyPath + ptr else propertyPath
  }

  /** The key of `target[error.instancePath?.slice(1) || ""]`. */
  function LookupKey(e: SchemaError): string {
    var ptr := Pointer(e.path);
    if ptr == "" then "" else ptr[1..]
  }

  /** The looked-up key is the instance path without its leading `/`, and "" at the root. */
  lemma LookupKeyStripsSlash(e: SchemaError)
    ensures e.path == [] ==> LookupKey(e) == ""
    ensures e.path != [] ==> "/" + LookupKey(e) == Pointer(e.path)
  {
    var ptr := Pointer(e.path);
    if e.path != [] {
      assert ptr == [ptr[0]] + ptr[1..];
    }
  }

  /** `error.message || "validation error"` */
  function MessageOrDefault(e: SchemaError): string {
    if e.message != "" then e.message else "validation error"
  }

  /** The fixed text of a failed `oneOf` in the variant layer. */
  const OneOfText := "should match one of the allowed patterns (false or \"auto\"/\"manual\")"

  /**
   * What follows the field in every template but `required`. `target` is the
   * value the `type` template looks the offending key up in.
   */
  function Detail(t: Templates, e: SchemaError, target: Json): string {
    var fallback := " " + MessageOrDefault(e);
    match e.violation
    case Required(_) => fallback
    case Type(tn) => " should be " + tn + ", got " + TypeOf(Lookup(target, LookupKey(e)))
    case Enum(vals) => " should be one of [" + Join(vals, ", ") + "], got " + ToStringOrUndefined(e.data)
    case Const(c) =>
      if t.hasConst then " should be \"" + ToString(c) + "\", got \"" + ToStringOrUndefined(e.data) + "\""
      else fallback
    case AdditionalProperties(k) =>
      if t.hasAdditional then " has unexpected property: " + k else fallback
    case OneOf =>
      if t.hasOneOf then " " + OneOfText else fallback
  }

  /**
   * The diagnostic without its layer suffix: `required` names the missing
   * property after the caller's path, every other keyword starts with the field.
   */
  function Body(t: Templates, e: SchemaError, propertyPath: string, target: Json): string {
    match e.violation
    case Required(p) => propertyPath + "." + p + " is required"
    case _ => Field(propertyPath, e) + Detail(t, e, target)
  }

  function LayerSuffix(layer: Option<string>): string {
    match layer
    case Some(l) => " (" + l + ")"
    case None => ""
  }

  function Translate(t: Templates, e: SchemaError, propertyPath: string, target: Json, layer: Option<string>): string {
    Body(t, e, propertyPath, target) + LayerSuffix(layer)
  }

  /** The callback a call site applies to each raw error. */
  function Translator(t: Templates, propertyPath: string, target: Json, layer: Option<string>): SchemaError -> string {
    e => Translate(t, e, propertyPath, target, layer)
  }

  function TranslateAll(t: Templates, es: seq<SchemaError>, propertyPath: string, target: Json, layer: Option<string>): (r: seq<string>)
    ensures |r| == |es|
    ensures forall i :: 0 <= i < |es| ==> r[i] == Translate(t, es[i], propertyPath, target, layer)
  {
    Map(Translator(t, propertyPath, target, layer), es)
  }

  /** The `forEach` that pushes the diagnostic of each raw error onto `errors`. */
  method PushDiagnostics(errors: seq<string>, raw: seq<SchemaError>, translate: SchemaError -> string)
    returns (out: seq<string>)
    ensures out == errors + Map(translate, raw)
  {
    out := errors;
    var i := 0;
    while i < |raw|
      invariant 0 <= i <= |raw|
      invariant out == errors + Map(translate, raw[..i])
    {
      assert Map(translate, raw[..i + 1]) == Map(translate, raw[..i]) + [translate(raw[i])];
      out := out + [translate(raw[i])];
      i := i + 1;
    }
    assert raw[..i] == raw;
  }

  /**
   * Every diagnostic starts with the caller's property path and ends with the
   * layer suffix, so it can be traced to the item and to the schema layer.
   */
  lemma TranslateLocates(t: Templates, e: SchemaError, propertyPath: string, target: Json, layer: Option<string>)
    ensures StartsWith(Translate(t, e, propertyPath, target, layer), propertyPath)
    ensures EndsWith(Translate(t, e, propertyPath, target, layer), LayerSuffix(layer))
  {
    var body := Body(t, e, propertyPath, target);
    var suffix := LayerSuffix(layer);
    var rest: string;
    match e.violation {
      case Required(p) =>
        rest := "." + p + " is required";
        AppendAssoc(propertyPath, ".", p);
        AppendAssoc(propertyPath, "." + p, " is required");
      case _ =>
        rest := Pointer(e.path) + Detail(t, e, target);
        AppendAssoc(propertyPath, Pointer(e.path), Detail(t, e, target));
    }
    assert body == propertyPath + rest;
    AppendAssoc(propertyPath, rest, suffix);
    StartsWithAppend(propertyPath, rest + suffix);
    EndsWithAppend(body, suffix);
  }


  /** The `required` template ignores where in the value the property is missing. */
  lemma RequiredIgnoresPath(t: Templates, e1: SchemaError, e2: SchemaError, propertyPath: string, target: Json, layer: Option<string>)
    requires e1.violation.Required? && e1.violation == e2.violation
    ensures Translate(t, e1, propertyPath, target, layer) == Translate(t, e2, propertyPath, target, layer)
    ensures Translate(t, e1, propertyPath, target, layer) == propertyPath + "." + e1.violation.missingProperty + " is required" + LayerSuffix(layer)
  {
  }

  /**
   * The owner descriptor's diagnostics are the item base layer's without the
   * ` (base)` suffix, except for `additionalProperties`, which only the owner
   * validator renders with a template.
   */
  lemma OwnerMatchesBaseLayer(e: SchemaError, propertyPath: string, target: Json)
    requires !e.violation.AdditionalProperties?
    ensures Translate(OwnerTemplates, e, propertyPath, target, None) + " (base)"
            == Translate(BaseLayerTemplates, e, propertyPath, target, Some("base"))
  {
    assert Detail(OwnerTemplates, e, target) == Detail(BaseLayerTemplates, e, target);
    var b := Body(OwnerTemplates, e, propertyPath, target);
    assert b == Body(BaseLayerTemplates, e, propertyPath, target);
    assert LayerSuffix(Some("base")) == " (base)";
    assert Translate(OwnerTemplates, e, propertyPath, target, None) == b + "";
  }

  /** The base and variant layers render `required`, `type` and `enum` the same way, up to the layer name. */
  lemma VariantMatchesBaseLayer(e: SchemaError, propertyPath: string, target: Json)
    requires e.violation.Required? || e.violation.Type? || e.violation.Enum?
    ensures Body(VariantTemplates, e, propertyPath, target) == Body(BaseLayerTemplates, e, propertyPath, target)
  {
  }

  lemma {:induction false} EscapePlainKey(k: string)
    requires '~' !in k && '/' !in k
    ensures EscapeToken(k) == k
  {
    if k != [] {
      assert '~' !in k[1..] && '/' !in k[1..];
      EscapePlainKey(k[1..]);
    }
  }

  /**
   * A `type` violation of a top-level property reports the JavaScript type of
   * that property's value in `target`.
   */
  lemma TypeGotTopLevel(t: Templates, e: SchemaError, propertyPath: string, ms: seq<Member>, k: string)
    requires e.violation.Type? && e.path == [Key(k)] && '~' !in k && '/' !in k
    ensures Body(t, e, propertyPath, JObj(ms))
            == propertyPath + "/" + k + " should be " + e.violation.typeName + ", got " + TypeOf(Get(ms, k))
  {
    TopLevelKey(e, k);
    var a, tn, b, g := " should be ", e.violation.typeName, ", got ", TypeOf(Get(ms, k));
    assert Detail(t, e, JObj(ms)) == a + tn + b + g;
    var f := propertyPath + "/" + k;
    AppendAssoc(propertyPath, "/", k);
    AppendAssoc(f, a, tn);
    AppendAssoc(f, a + tn, b);
    AppendAssoc(f, a + tn + b, g);
  }

  /** An undeclared key, under a template for it, renders as `path has unexpected property: key`. */
  lemma UnexpectedPropertyText(t: Templates, e: SchemaError, propertyPath: string, target: Json, layer: Option<string>)
    requires e.violation.AdditionalProperties? && e.path == [] && t.hasAdditional
    ensures Translate(t, e, propertyPath, target, layer)
            == propertyPath + " has unexpected property: " + e.violation.additionalProperty + LayerSuffix(layer)
  {
    assert Field(propertyPath, e) == propertyPath;
    var a, k := " has unexpected property: ", e.violation.additionalProperty;
    assert Detail(t, e, target) == a + k;
    AppendAssoc(propertyPath, a, k);
  }

  /** The instance path of a top-level key without `~` or `/` is `/key`, and the `type` template looks up the key itself. */
  lemma TopLevelKey(e: SchemaError, k: string)
    requires e.path == [Key(k)] && '~' !in k && '/' !in k
    ensures Pointer(e.path) == "/" + k && LookupKey(e) == k
  {
    EscapePlainKey(k);
    assert Pointer(e.path) == "/" + k + "";
    assert ("/" + k)[1..] == k;
  }


  /**
   * A `type` violation deeper than the top level looks up a key containing
   * `/` (say `authorData/name`), which an object without such keys lacks, so
   * it reports `got undefined`.
   */
  lemma TypeGotNested(t: Templates, e: SchemaError, propertyPath: string, ms: seq<Member>)
    requires e.violation.Type? && |e.path| >= 2
    requires forall m :: m in ms ==> '/' !in m.key
    ensures Body(t, e, propertyPath, JObj(ms))
            == propertyPath + Pointer(e.path) + " should be " + e.violation.typeName + ", got " + "undefined"
  {
    NestedKeyMissing(e, ms);
    var a, tn, b, u := " should be ", e.violation.typeName, ", got ", "undefined";
    assert Detail(t, e, JObj(ms)) == a + tn + b + u;
    var f := propertyPath + Pointer(e.path);
    AppendAssoc(f, a, tn);
    AppendAssoc(f, a + tn, b);
    AppendAssoc(f, a + tn + b, u);
  }

  /** Below the top level the looked-up key contains `/`, so an object without such keys lacks it. */
  lemma NestedKeyMissing(e: SchemaError, ms: seq<Member>)
    requires |e.path| >= 2
    requires forall m :: m in ms ==> '/' !in m.key
    ensures Lookup(JObj(ms), LookupKey(e)).None?
  {
    var tail := Pointer(e.path[1..]);
    var head := Token(e.path[0]);
    assert Pointer(e.path) == "/" + head + tail;
    AppendAssoc("/", head, tail);
    DropFirst('/', head + tail);
    var key := LookupKey(e);
    assert key == head + tail;
    assert key[|head|] == tail[0] == '/';
  }



  /** The diagnostic of each raw error is among the translated list. */
  lemma TranslateAllIncludes(t: Templates, es: seq<SchemaError>, e: SchemaError, propertyPath: string,
                             target: Json, layer: Option<string>)
    requires e in es
    ensures Translate(t, e, propertyPath, target, layer) in TranslateAll(t, es, propertyPath, target, layer)
  {
    var i :| 0 <= i < |es| && es[i] == e;
    assert TranslateAll(t, es, propertyPath, target, layer)[i] == Translate(t, e, propertyPath, target, layer);
  }

  /**
   * The diagnostics of two call sites, one after the other, keep the common
   * path prefix and each site's own layer suffix.
   */
  lemma TwoLayersLocate(t1: Templates, es1: seq<SchemaError>, target1: Json, layer1: Option<string>,
                        t2: Templates, es2: seq<SchemaError>, target2: Json, layer2: Option<string>,
                        propertyPath: string)
    ensures var ds := TranslateAll(t1, es1, propertyPath, target1, layer1) + TranslateAll(t2, es2, propertyPath, target2, layer2);
            && |ds| == |es1| + |es2|
            && (forall i :: 0 <= i < |ds| ==> StartsWith(ds[i], propertyPath))
            && (forall i :: 0 <= i < |es1| ==> EndsWith(ds[i], LayerSuffix(layer1)))
            && (forall i :: |es1| <= i < |ds| ==> EndsWith(ds[i], LayerSuffix(layer2)))
  {
    var b := TranslateAll(t1, es1, propertyPath, target1, layer1);
    var w := TranslateAll(t2, es2, propertyPath, target2, layer2);
    TranslateAllLocates(t1, es1, propertyPath, target1, layer1);
    TranslateAllLocates(t2, es2, propertyPath, target2, layer2);
    ConcatLocates(b, w, propertyPath, LayerSuffix(layer1), LayerSuffix(layer2));
  }

  /** Two lists of located diagnostics, one after the other, stay located. */
  lemma ConcatLocates(b: seq<string>, w: seq<string>, propertyPath: string, suffix1: string, suffix2: string)
    requires forall i :: 0 <= i < |b| ==> StartsWith(b[i], propertyPath) && EndsWith(b[i], suffix1)
    requires forall i :: 0 <= i < |w| ==> StartsWith(w[i], propertyPath) && EndsWith(w[i], suffix2)
    ensures forall i :: 0 <= i < |b + w| ==> StartsWith((b + w)[i], propertyPath)
    ensures forall i :: 0 <= i < |b| ==> EndsWith((b + w)[i], suffix1)
    ensures forall i :: |b| <= i < |b + w| ==> EndsWith((b + w)[i], suffix2)
  {
    assert forall i :: 0 <= i < |b| ==> (b + w)[i] == b[i];
    assert forall i :: |b| <= i < |b + w| ==> (b + w)[i] == w[i - |b|];
  }


  /** `TranslateLocates` for every diagnostic of one call site. */
  lemma TranslateAllLocates(t: Templates, es: seq<SchemaError>, propertyPath: string, target: Json, layer: Option<string>)
    ensures forall i :: 0 <= i < |es| ==>
              && StartsWith(TranslateAll(t, es, propertyPath, target, layer)[i], propertyPath)
              && EndsWith(TranslateAll(t, es, propertyPath, target, layer)[i], LayerSuffix(layer))
  {
    forall i | 0 <= i < |es|
      ensures StartsWith(TranslateAll(t, es, propertyPath, target, layer)[i], propertyPath)
      ensures EndsWith(TranslateAll(t, es, propertyPath, target, layer)[i], LayerSuffix(layer))
    {
      TranslateLocates(t, es[i], propertyPath, target, layer);
    }
  }

  /** A required property the object lacks is named by one of the call site's diagnostics. */
  lemma MissingRequiredDiagnostic(t: Templates, s: Schema, v: Json, verbose: bool, f: string,
                                  propertyPath: string, target: Json, layer: Option<string>)
    requires v.JObj? && f in s.required && f !in Keys(v.members)
    ensures propertyPath + "." + f + " is required" + LayerSuffix(layer)
              in TranslateAll(t, Check(s, v, verbose), propertyPath, target, layer)
  {
    var e := Report(Required(f), v, verbose);
    CheckContainsRequired(s, v, verbose, e);
    TranslateAllIncludes(t, Check(s, v, verbose), e, propertyPath, target, layer);
  }

  /** How an `enum` violation of a top-level property renders without Ajv's `verbose` option. */
  lemma EnumDiagnosticText(t: Templates, e: SchemaError, propertyPath: string, target: Json, layer: Option<string>, k: string)
    requires e.violation.Enum? && e.data.None? && e.path == [Key(k)] && '~' !in k && '/' !in k
    ensures Translate(t, e, propertyPath, target, layer)
            == propertyPath + "/" + k + " should be one of [" + Join(e.violation.allowedValues, ", ") + "], got " + "undefined"
               + LayerSuffix(layer)
  {
    TopLevelKey(e, k);
    var a, j, b, u := " should be one of [", Join(e.violation.allowedValues, ", "), "], got ", "undefined";
    assert Detail(t, e, target) == a + j + b + u;
    var f := propertyPath + "/" + k;
    AppendAssoc(propertyPath, "/", k);
    AppendAssoc(f, a, j);
    AppendAssoc(f, a + j, b);
    AppendAssoc(f, a + j + b, u);
  }


  /**
   * In the base layer `const`, `additionalProperties` and `oneOf` have no
   * template: they render as the field followed by Ajv's message.
   */
  lemma BaseLayerDefaults(e: SchemaError, propertyPath: string, target: Json)
    requires e.violation.Const? || e.violation.AdditionalProperties? || e.violation.OneOf?
    requires e.message == Message(e.violation)
    ensures Translate(BaseLayerTemplates, e, propertyPath, target, Some("base"))
            == Field(propertyPath, e) + " " + Message(e.violation) + " (" + "base" + ")"
  {
    var f, m := Field(propertyPath, e), Message(e.violation);
    assert Detail(BaseLayerTemplates, e, target) == " " + m;
    AppendAssoc(f, " ", m);
    var l := f + " " + m;
    AppendAssoc(l, " (", "base");
    AppendAssoc(l, " (" + "base", ")");
  }


  /** In the variant layer a failed `oneOf` renders the fixed text, whatever the branches said. */
  lemma VariantOneOfText(e: SchemaError, propertyPath: string, target: Json, schemaName: string)
    requires e.violation.OneOf?
    ensures Translate(VariantTemplates, e, propertyPath, target, Some(schemaName))
            == Field(propertyPath, e) + " " + OneOfText + " (" + schemaName + ")"
  {
    var f := Field(propertyPath, e);
    assert Detail(VariantTemplates, e, target) == " " + OneOfText;
    AppendAssoc(f, " ", OneOfText);
    var l := f + " " + OneOfText;
    AppendAssoc(l, " (", schemaName);
    AppendAssoc(l, " (" + schemaName, ")");
  }


  /**
   * In the variant layer a `const` violation names the allowed value; without
   * Ajv's `verbose` option the offending value renders as `"undefined"`.
   */
  lemma VariantConstText(e: SchemaError, propertyPath: string, target: Json, schemaName: string)
    requires e.violation.Const? && e.data.None?
    ensures Translate(VariantTemplates, e, propertyPath, target, Some(schemaName))
            == Field(propertyPath, e) + " should be \"" + ToString(e.violation.allowedValue) + "\", got \"" + "undefined" + "\""
               + " (" + schemaName + ")"
  {
    var f, c := Field(propertyPath, e), ToString(e.violation.allowedValue);
    var p1, p2, u, p3 := " should be \"", "\", got \"", "undefined", "\"";
    assert Detail(VariantTemplates, e, target) == p1 + c + p2 + u + p3;
    AppendAssoc(f, p1, c);
    AppendAssoc(f, p1 + c, p2);
    AppendAssoc(f, p1 + c + p2, u);
    AppendAssoc(f, p1 + c + p2 + u, p3);
    var l := f + p1 + c + p2 + u + p3;
    AppendAssoc(l, " (", schemaName);
    AppendAssoc(l, " (" + schemaName, ")");
  }

}

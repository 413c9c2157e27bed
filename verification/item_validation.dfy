/**
 * Validation of one catalog item: the falsy and expected-type short cuts,
 * the open base schema on the raw item, dispatch on the item's `type` to one
 * of five closed variant schemas, applied to the item without its base keys,
 * and the diagnostics of both layers, base first.
 */
module ItemValidation {
  import opened Prelude
  import opened Json
  import opened JsonSchema
  import opened CatalogSchemas
  import opened Diagnostics

  /** The keys the base schema declares. */
  function BaseKeys(): set<string> {
    PropertyNames(BaseItemSchema)
  }

  lemma BaseKeysListed()
    ensures BaseKeys() == {"_id", "position", "type", "id", "note", "gallery"}
  {
    var ps := BaseItemSchema.properties;
    assert ps[0].name == "_id" && ps[1].name == "position" && ps[2].name == "type";
    assert ps[3].name == "id" && ps[4].name == "note" && ps[5].name == "gallery";
    assert forall p :: p in ps ==> p.name in {"_id", "position", "type", "id", "note", "gallery"};
  }

  /** The set of declared base property names. */
  method GetBaseSchemaProperties() returns (baseProps: set<string>)
    ensures baseProps == BaseKeys()
  {
    baseProps := CollectNames(BaseItemSchema.properties);
  }

  /** The `forEach` that adds each property name to the set, one at a time. */
  method CollectNames(props: seq<Property>) returns (names: set<string>)
    ensures names == set p | p in props :: p.name
  {
    names := {};
    var i := 0;
    while i < |props|
      invariant 0 <= i <= |props|
      invariant names == set p | p in props[..i] :: p.name
    {
      assert props[..i + 1] == props[..i] + [props[i]];
      names := names + {props[i].name};
      i := i + 1;
    }
    assert props[..i] == props;
  }

  /** The members of `ms` whose keys are not in `drop`, in order. */
  function WithoutKeys(ms: seq<Member>, drop: set<string>): (r: seq<Member>)
    ensures forall m :: m in r <==> m in ms && m.key !in drop
  {
    if ms == [] then []
    else
      var last := ms[|ms| - 1];
      assert ms == ms[..|ms| - 1] + [last];
      WithoutKeys(ms[..|ms| - 1], drop) + (if last.key in drop then [] else [last])
  }

  /** `Object.keys` of an array with their values: the indices "0", "1", ... */
  function IndexMembers(es: seq<Json>): (r: seq<Member>)
    ensures |r| == |es|
    ensures forall i :: 0 <= i < |es| ==> r[i] == Member(NatToString(i), es[i])
  {
    seq(|es|, i requires 0 <= i < |es| => Member(NatToString(i), es[i]))
  }

  /**
   * The item with every base-declared key removed, values unchanged. Arrays
   * keep their index keys (none is a base key); every other non-object yields
   * the empty record.
   */
  function Filtered(v: Json): (r: Json)
    ensures r.JObj?
    ensures v.JObj? ==> forall m :: m in r.members <==> m in v.members && m.key !in BaseKeys()
    ensures v.JObj? ==> Keys(r.members) == Keys(v.members) - BaseKeys()
    ensures !v.JObj? && !v.JArr? ==> r.members == []
  {
    match v
    case JObj(ms) => JObj(WithoutKeys(ms, BaseKeys()))
    case JArr(es) => JObj(IndexMembers(es))
    case _ => JObj([])
  }

  /** Builds the filtered record key by key. */
  method FilterBaseProperties(obj: Json) returns (filtered: Json)
    ensures filtered == Filtered(obj)
  {
    var baseProps := GetBaseSchemaProperties();
    var members: seq<Member> := [];
    match obj {
      case JObj(ms) =>
        members := KeepMembers(ms, baseProps);
      case JArr(es) =>
        members := KeepIndices(es);
      case _ =>
    }
    filtered := JObj(members);
  }

  /** The `forEach` over an object's keys that copies each key outside `drop`. */
  method KeepMembers(ms: seq<Member>, drop: set<string>) returns (members: seq<Member>)
    ensures members == WithoutKeys(ms, drop)
  {
    members := [];
    var i := 0;
    while i < |ms|
      invariant 0 <= i <= |ms|
      invariant members == WithoutKeys(ms[..i], drop)
    {
      assert ms[..i + 1][..i] == ms[..i];
      if ms[i].key !in drop {
        members := members + [ms[i]];
      }
      i := i + 1;
    }
    assert ms[..i] == ms;
  }

  /** The same `forEach` over an array, whose keys are its indices and none of them a base key. */
  method KeepIndices(es: seq<Json>) returns (members: seq<Member>)
    ensures members == IndexMembers(es)
  {
    members := [];
    var i := 0;
    while i < |es|
      invariant 0 <= i <= |es|
      invariant members == IndexMembers(es[..i])
    {
      members := members + [Member(NatToString(i), es[i])];
      i := i + 1;
    }
    assert es[..i] == es;
  }

  /** JavaScript's `obj.type` for a truthy item. */
  function TagOf(obj: Json): Option<Json> {
    if obj.JObj? then Get(obj.members, "type") else None
  }

  /**
   * A truthy `expectedType` disagrees with the item's own `type` key. Only an
   * object can have that key: JSON arrays have none.
   */
  predicate TypeMismatch(obj: Json, expectedType: Option<string>) {
    && expectedType.Some? && expectedType.value != ""
    && obj.JObj? && "type" in Keys(obj.members)
    && TagOf(obj) != Some(JStr(expectedType.value))
  }

  datatype Variant = Variant(schemaName: string, schema: Schema)

  /** The variant validator and its layer label, selected by the item's `type`. */
  function VariantFor(obj: Json): Option<Variant> {
    var tag := TagOf(obj);
    if tag == Some(JStr("model")) then Some(Variant("Model", ModelSchema))
    else if tag == Some(JStr("dataset")) then Some(Variant("Dataset", DatasetSchema))
    else if tag == Some(JStr("space")) then Some(Variant("Space", SpaceSchema))
    else if tag == Some(JStr("paper")) then Some(Variant("Paper", PaperSchema))
    else if tag == Some(JStr("collection")) then Some(Variant("Collection", CollectionSchema))
    else None
  }

  /** The layer label; "Base" when no variant applies, which no diagnostic then uses. */
  function SchemaName(obj: Json): string {
    match VariantFor(obj)
    case Some(vr) => vr.schemaName
    case None => "Base"
  }

  function BaseErrors(obj: Json): seq<SchemaError> {
    Check(BaseItemSchema, obj, Verbose)
  }

  function VariantErrors(obj: Json): seq<SchemaError> {
    match VariantFor(obj)
    case Some(vr) => Check(vr.schema, Filtered(obj), Verbose)
    case None => []
  }

  function MismatchDiagnostic(propertyPath: string, expected: string, actual: Option<Json>): string {
    propertyPath + ".type should be \"" + expected + "\", got \"" + ToStringOrUndefined(actual) + "\""
  }

  /** The result `validateApiCollectionItem` returns. */
  function ValidateItem(obj: Json, propertyPath: string, expectedType: Option<string>): ValidationResult {
    if !Truthy(obj) then ValidationResult(false, [NullDiagnostic(propertyPath)])
    else if TypeMismatch(obj, expectedType) then
      ValidationResult(false, [MismatchDiagnostic(propertyPath, expectedType.value, TagOf(obj))])
    else
      ValidationResult(
        BaseErrors(obj) == [] && VariantErrors(obj) == [],
        TranslateAll(BaseLayerTemplates, BaseErrors(obj), propertyPath, obj, Some("base"))
        + TranslateAll(VariantTemplates, VariantErrors(obj), propertyPath, Filtered(obj), Some(SchemaName(obj))))
  }

  method ValidateApiCollectionItem(obj: Json, propertyPath: string, expectedType: Option<string>)
    returns (result: ValidationResult)
    ensures result == ValidateItem(obj, propertyPath, expectedType)
  {
    if !Truthy(obj) {
      return ValidationResult(false, [NullDiagnostic(propertyPath)]);
    }
    if TypeMismatch(obj, expectedType) {
      return ValidationResult(false, [MismatchDiagnostic(propertyPath, expectedType.value, TagOf(obj))]);
    }
    var errors: seq<string> := [];
    var allValid := true;
    ghost var base := TranslateAll(BaseLayerTemplates, BaseErrors(obj), propertyPath, obj, Some("base"));
    ghost var variant := TranslateAll(VariantTemplates, VariantErrors(obj), propertyPath, Filtered(obj), Some(SchemaName(obj)));

    var baseErrors := Check(BaseItemSchema, obj, Verbose);
    if baseErrors != [] {
      allValid := false;
      errors := PushDiagnostics(errors, baseErrors, Translator(BaseLayerTemplates, propertyPath, obj, Some("base")));
    }
    assert errors == base;
    assert allValid == (BaseErrors(obj) == []);

    var specific := VariantFor(obj);
    if specific.Some? {
      var filteredObj := FilterBaseProperties(obj);
      var specificErrors := Check(specific.value.schema, filteredObj, Verbose);
      var translate := Translator(VariantTemplates, propertyPath, filteredObj, Some(specific.value.schemaName));
      assert specificErrors == VariantErrors(obj);
      assert filteredObj == Filtered(obj) && specific.value.schemaName == SchemaName(obj);
      assert Map(translate, specificErrors) == variant;
      if specificErrors != [] {
        allValid := false;
        errors := PushDiagnostics(errors, specificErrors, translate);
      }
    } else {
      assert variant == [];
      assert errors == base + variant;
    }
    result := ValidationResult(allValid, errors);
    ValidateItemSchemaLayers(obj, propertyPath, expectedType);
  }

  /** Past the two short cuts, the result is the two layers' verdicts and diagnostics, base first. */
  lemma ValidateItemSchemaLayers(obj: Json, propertyPath: string, expectedType: Option<string>)
    requires Truthy(obj) && !TypeMismatch(obj, expectedType)
    ensures ValidateItem(obj, propertyPath, expectedType) == ValidationResult(
              BaseErrors(obj) == [] && VariantErrors(obj) == [],
              TranslateAll(BaseLayerTemplates, BaseErrors(obj), propertyPath, obj, Some("base"))
              + TranslateAll(VariantTemplates, VariantErrors(obj), propertyPath, Filtered(obj), Some(SchemaName(obj))))
  {
  }

  /** A falsy item is reported once, as null or undefined, and nothing is checked. */
  lemma FalsyItemRejected(obj: Json, propertyPath: string, expectedType: Option<string>)
    requires !Truthy(obj)
    ensures ValidateItem(obj, propertyPath, expectedType)
            == ValidationResult(false, [propertyPath + " is null or undefined"])
  {
  }

  /**
   * An item whose own `type` differs from a non-empty `expectedType` gets the
   * single mismatch diagnostic; no schema is consulted.
   */
  lemma MismatchShortCut(obj: Json, propertyPath: string, expected: string)
    requires obj.JObj? && expected != ""
    requires Get(obj.members, "type").Some? && Get(obj.members, "type") != Some(JStr(expected))
    ensures ValidateItem(obj, propertyPath, Some(expected))
            == ValidationResult(false, [propertyPath + ".type should be \"" + expected + "\", got \""
                                        + ToString(Get(obj.members, "type").value) + "\""])
  {
  }

  /** An empty `expectedType`, or one the item's tag agrees with (or a missing tag), changes nothing. */
  lemma AgreeingExpectedType(obj: Json, propertyPath: string, expectedType: Option<string>)
    requires !TypeMismatch(obj, expectedType)
    ensures ValidateItem(obj, propertyPath, expectedType) == ValidateItem(obj, propertyPath, None)
  {
  }

  /**
   * Dispatch: exactly the five catalog tags select a variant, and the variant
   * selected is the one whose own `type` constant is the item's tag.
   */
  lemma DispatchMatchesTypeConstant(obj: Json)
    ensures VariantFor(obj).Some? <==>
              TagOf(obj) in {Some(JStr("model")), Some(JStr("dataset")), Some(JStr("space")),
                             Some(JStr("paper")), Some(JStr("collection"))}
    ensures VariantFor(obj).Some? ==>
              && VariantFor(obj).value.schema.properties != []
              && VariantFor(obj).value.schema.properties[0] == Property("type", Constant(StringType, TagOf(obj).value))
  {
  }

  /** With any other tag the result is the base layer's alone. */
  lemma OtherTagsBaseOnly(obj: Json, propertyPath: string)
    requires Truthy(obj) && VariantFor(obj).None?
    ensures ValidateItem(obj, propertyPath, None)
            == ValidationResult(BaseErrors(obj) == [],
                                TranslateAll(BaseLayerTemplates, BaseErrors(obj), propertyPath, obj, Some("base")))
  {
  }

  /**
   * An item is valid exactly when it is truthy, passes the expected-type
   * check, conforms to the base schema and, if its tag selects a variant,
   * its filtered form conforms to that variant.
   */
  lemma ItemValidIff(obj: Json, propertyPath: string, expectedType: Option<string>)
    ensures ValidateItem(obj, propertyPath, expectedType).isValid <==>
              && Truthy(obj) && !TypeMismatch(obj, expectedType)
              && Conforms(BaseItemSchema, obj)
              && (VariantFor(obj).Some? ==> Conforms(VariantFor(obj).value.schema, Filtered(obj)))
  {
    if Truthy(obj) && !TypeMismatch(obj, expectedType) {
      ValidateItemSchemaLayers(obj, propertyPath, expectedType);
      CheckEmptyIff(BaseItemSchema, obj, Verbose);
      match VariantFor(obj) {
        case Some(vr) =>
          assert VariantErrors(obj) == Check(vr.schema, Filtered(obj), Verbose);
          CheckEmptyIff(vr.schema, Filtered(obj), Verbose);
        case None =>
          assert VariantErrors(obj) == [];
      }
    }
  }


  /** An item is valid exactly when it has no diagnostic. */
  lemma ValidIffNoDiagnostics(obj: Json, propertyPath: string, expectedType: Option<string>)
    ensures ValidateItem(obj, propertyPath, expectedType).isValid <==> ValidateItem(obj, propertyPath, expectedType).errors == []
  {
    if Truthy(obj) && !TypeMismatch(obj, expectedType) {
      ValidateItemSchemaLayers(obj, propertyPath, expectedType);
    }
  }

  /**
   * One diagnostic per raw error, all base diagnostics first; each starts with
   * the item's path and ends with its layer: ` (base)`, then the variant's label.
   */
  lemma DiagnosticsInLayerOrder(obj: Json, propertyPath: string)
    requires Truthy(obj)
    ensures var r := ValidateItem(obj, propertyPath, None);
            var nb := |BaseErrors(obj)|;
            && |r.errors| == nb + |VariantErrors(obj)|
            && (forall i :: 0 <= i < |r.errors| ==> StartsWith(r.errors[i], propertyPath))
            && (forall i :: 0 <= i < nb ==> EndsWith(r.errors[i], " (base)"))
            && (forall i :: nb <= i < |r.errors| ==> EndsWith(r.errors[i], " (" + SchemaName(obj) + ")"))
  {
    ValidateItemSchemaLayers(obj, propertyPath, None);
    TwoLayersLocate(BaseLayerTemplates, BaseErrors(obj), obj, Some("base"),
                    VariantTemplates, VariantErrors(obj), Filtered(obj), Some(SchemaName(obj)), propertyPath);
    assert LayerSuffix(Some("base")) == " (base)";
  }

  lemma VariantSchemasHaveNoRootOneOf(obj: Json)
    requires VariantFor(obj).Some?
    ensures VariantFor(obj).value.schema.oneOf == [] && !VariantFor(obj).value.schema.additionalProperties
  {
  }

  /**
   * The variant layer never reports a base key, neither as an unexpected
   * property nor as the first step of an error's path: base keys are filtered
   * out before the variant check.
   */
  lemma VariantIgnoresBaseKeys(obj: Json, k: string)
    requires k in BaseKeys()
    ensures AdditionalProperties(k) !in RootViolations(VariantErrors(obj))
    ensures forall e :: e in VariantErrors(obj) && e.path != [] ==> e.path[0] != Key(k)
  {
    if VariantFor(obj).Some? {
      VariantSchemasHaveNoRootOneOf(obj);
      FilteredCheckIgnoresBaseKeys(VariantFor(obj).value.schema, obj, k);
    }
  }

  /** Any schema without a root `oneOf`, applied to the filtered item, says nothing about base key `k`. */
  lemma FilteredCheckIgnoresBaseKeys(s: Schema, obj: Json, k: string)
    requires obj.JObj? && s.oneOf == [] && k in BaseKeys()
    ensures AdditionalProperties(k) !in RootViolations(Check(s, Filtered(obj), Verbose))
    ensures forall e :: e in Check(s, Filtered(obj), Verbose) && e.path != [] ==> e.path[0] != Key(k)
  {
    var fo := Filtered(obj);
    assert k !in Keys(fo.members);
    CheckObjectShape(s, fo, Verbose);
  }

  /**
   * The variant layer reports a top-level key as unexpected exactly when the
   * item has it and neither the base schema nor the variant declares it.
   */
  lemma VariantUnexpectedIff(obj: Json, k: string)
    requires VariantFor(obj).Some?
    ensures AdditionalProperties(k) in RootViolations(VariantErrors(obj)) <==>
              && obj.JObj? && k in Keys(obj.members)
              && k !in BaseKeys() && k !in PropertyNames(VariantFor(obj).value.schema)
  {
    var vr := VariantFor(obj).value;
    var fo := Filtered(obj);
    VariantSchemasHaveNoRootOneOf(obj);
    VariantOnlyForObjects(obj);
    assert VariantErrors(obj) == Check(vr.schema, fo, Verbose);
    RootAdditionalIff(vr.schema, fo, Verbose, k);
    assert Keys(fo.members) == Keys(obj.members) - BaseKeys();
  }

  /** Only an object has a `type` key, so only an object selects a variant. */
  lemma VariantOnlyForObjects(obj: Json)
    requires VariantFor(obj).Some?
    ensures obj.JObj? && TagOf(obj).Some?
  {
  }


  /** The base schema is open: the base layer never reports an unexpected key of the item itself. */
  lemma BaseOpenAtTopLevel(obj: Json, k: string)
    ensures AdditionalProperties(k) !in RootViolations(BaseErrors(obj))
  {
    if obj.JObj? {
      RootAdditionalIff(BaseItemSchema, obj, Verbose, k);
    } else {
      var t := TypeErrors(BaseItemSchema, obj, Verbose);
      assert BaseErrors(obj) == t + [] + [] + [] + [] + [];
    }
  }

  /** Each base-required property the item lacks is named by a ` (base)` diagnostic. */
  lemma MissingBaseRequiredReported(obj: Json, propertyPath: string, f: string)
    requires obj.JObj? && f in BaseItemSchema.required && f !in Keys(obj.members)
    ensures propertyPath + "." + f + " is required (base)" in ValidateItem(obj, propertyPath, None).errors
  {
    var d := propertyPath + "." + f + " is required (base)";
    assert propertyPath + "." + f + " is required" + LayerSuffix(Some("base")) == d;
    var b := TranslateAll(BaseLayerTemplates, BaseErrors(obj), propertyPath, obj, Some("base"));
    var w := TranslateAll(VariantTemplates, VariantErrors(obj), propertyPath, Filtered(obj), Some(SchemaName(obj)));
    MissingRequiredDiagnostic(BaseLayerTemplates, BaseItemSchema, obj, Verbose, f, propertyPath, obj, Some("base"));
    assert d in b;
    ValidateItemSchemaLayers(obj, propertyPath, None);
    assert ValidateItem(obj, propertyPath, None).errors == b + w;
  }

  /** Each property the selected variant requires and the item lacks is named by a diagnostic of that layer. */
  lemma MissingVariantRequiredReported(obj: Json, propertyPath: string, f: string)
    requires obj.JObj? && VariantFor(obj).Some? && f in VariantFor(obj).value.schema.required
    requires f !in Keys(obj.members)
    ensures propertyPath + "." + f + " is required" + LayerSuffix(Some(SchemaName(obj)))
              in ValidateItem(obj, propertyPath, None).errors
  {
    var layer := Some(SchemaName(obj));
    var fo := Filtered(obj);
    var schema := VariantFor(obj).value.schema;
    assert f !in Keys(fo.members);
    var b := TranslateAll(BaseLayerTemplates, BaseErrors(obj), propertyPath, obj, Some("base"));
    var w := TranslateAll(VariantTemplates, VariantErrors(obj), propertyPath, fo, layer);
    assert VariantErrors(obj) == Check(schema, fo, Verbose);
    MissingRequiredDiagnostic(VariantTemplates, schema, fo, Verbose, f, propertyPath, fo, layer);
    ValidateItemSchemaLayers(obj, propertyPath, None);
    assert ValidateItem(obj, propertyPath, None).errors == b + w;
  }


  /**
   * A tag outside the five is rejected by the base layer's `enum` on `type`;
   * without Ajv's `verbose` option the offending value renders as `undefined`.
   */
  lemma UnrecognisedTagRejected(obj: Json, propertyPath: string)
    requires obj.JObj? && "type" in Keys(obj.members) && VariantFor(obj).None?
    ensures !ValidateItem(obj, propertyPath, None).isValid
    ensures propertyPath + "/" + "type" + " should be one of [" + "model, dataset, space, paper, collection"
            + "], got " + "undefined" + LayerSuffix(Some("base")) in ValidateItem(obj, propertyPath, None).errors
  {
    var tags := Strings(["model", "dataset", "space", "paper", "collection"]);
    var e := SchemaError([Key("type")], Enum(tags), Message(Enum(tags)), None);
    TagEnumText(obj, propertyPath);
    UnrecognisedTagViolation(obj);
    var b := TranslateAll(BaseLayerTemplates, BaseErrors(obj), propertyPath, obj, Some("base"));
    var w := TranslateAll(VariantTemplates, VariantErrors(obj), propertyPath, Filtered(obj), Some(SchemaName(obj)));
    TranslateAllIncludes(BaseLayerTemplates, BaseErrors(obj), e, propertyPath, obj, Some("base"));
    ValidateItemSchemaLayers(obj, propertyPath, None);
    assert ValidateItem(obj, propertyPath, None).errors == b + w;
  }

  /** The base layer's `enum` violation on `type`, rendered. */
  lemma TagEnumText(obj: Json, propertyPath: string)
    ensures var tags := Strings(["model", "dataset", "space", "paper", "collection"]);
            Translate(BaseLayerTemplates, SchemaError([Key("type")], Enum(tags), Message(Enum(tags)), None),
                      propertyPath, obj, Some("base"))
            == propertyPath + "/" + "type" + " should be one of [" + "model, dataset, space, paper, collection"
               + "], got " + "undefined" + LayerSuffix(Some("base"))
  {
    var tags := Strings(["model", "dataset", "space", "paper", "collection"]);
    var e := SchemaError([Key("type")], Enum(tags), Message(Enum(tags)), None);
    TagListText();
    EnumDiagnosticText(BaseLayerTemplates, e, propertyPath, obj, Some("base"), "type");
  }


  /** The base `enum` on `type` lists the five tags in this order. */
  lemma TagListText()
    ensures Join(Strings(["model", "dataset", "space", "paper", "collection"]), ", ")
            == "model, dataset, space, paper, collection"
  {
    TagJoin();
    FlatTagList();
  }

  /** The unfolded list, as one literal. */
  lemma FlatTagList()
    ensures "model" + ", " + ("dataset" + ", " + ("space" + ", " + ("paper" + ", " + "collection")))
            == "model, dataset, space, paper, collection"
  {
  }

  /** `Join` unfolded over the five tags, one separator at a time. */
  lemma TagJoin()
    ensures Join(Strings(["model", "dataset", "space", "paper", "collection"]), ", ")
            == "model" + ", " + ("dataset" + ", " + ("space" + ", " + ("paper" + ", " + "collection")))
  {
    assert Strings(["model", "dataset", "space", "paper", "collection"])
           == [JStr("model"), JStr("dataset"), JStr("space"), JStr("paper"), JStr("collection")];
    var a := JArr([JStr("model"), JStr("dataset"), JStr("space"), JStr("paper"), JStr("collection")]);
    JoinFromString(a, 4, ", ");
    JoinFromString(a, 3, ", ");
    JoinFromString(a, 2, ", ");
    JoinFromString(a, 1, ", ");
    JoinFromString(a, 0, ", ");
  }

  /** The base `enum` on `type` rejects any tag outside the five, at path `/type`. */
  lemma UnrecognisedTagViolation(obj: Json)
    requires obj.JObj? && "type" in Keys(obj.members) && VariantFor(obj).None?
    ensures var tags := Strings(["model", "dataset", "space", "paper", "collection"]);
            SchemaError([Key("type")], Enum(tags), Message(Enum(tags)), None) in BaseErrors(obj)
  {
    var x := Get(obj.members, "type").value;
    var tags := Strings(["model", "dataset", "space", "paper", "collection"]);
    assert tags == [JStr("model"), JStr("dataset"), JStr("space"), JStr("paper"), JStr("collection")];
    assert BaseItemSchema.properties[2].name == "type";
    assert BaseItemSchema.properties[2].schema.enumValues == Some(tags);
    assert x !in tags;
    EnumViolationUnder(BaseItemSchema, obj, 2, x, Verbose);
  }
}

/**
 * Validation of an owner descriptor (a collection's `owner`, an item's
 * `authorData`): a falsy value is reported once as null or undefined;
 * anything else is checked against the closed owner schema and each raw
 * error becomes one diagnostic, without a layer suffix.
 */
module OwnerValidation {
  import opened Prelude
  import opened Json
  import opened JsonSchema
  import opened CatalogSchemas
  import opened Diagnostics

  function OwnerErrors(obj: Json): seq<SchemaError> {
    Check(OwnerSchema, obj, Verbose)
  }

  /** The result `validateApiCollectionOwner` returns. */
  function ValidateOwner(obj: Json, propertyPath: string): ValidationResult {
    if !Truthy(obj) then ValidationResult(false, [NullDiagnostic(propertyPath)])
    else ValidationResult(OwnerErrors(obj) == [], TranslateAll(OwnerTemplates, OwnerErrors(obj), propertyPath, obj, None))
  }

  method ValidateApiCollectionOwner(obj: Json, propertyPath: string) returns (result: ValidationResult)
    ensures result == ValidateOwner(obj, propertyPath)
  {
    if !Truthy(obj) {
      return ValidationResult(false, [NullDiagnostic(propertyPath)]);
    }
    var raw := Check(OwnerSchema, obj, Verbose);
    var isValid := raw == [];
    var errors: seq<string> := [];
    if !isValid {
      errors := PushDiagnostics(errors, raw, Translator(OwnerTemplates, propertyPath, obj, None));
    }
    result := ValidationResult(isValid, errors);
  }

  /** A falsy owner is reported once, as null or undefined, and the schema is not consulted. */
  lemma FalsyOwnerRejected(obj: Json, propertyPath: string)
    requires !Truthy(obj)
    ensures ValidateOwner(obj, propertyPath) == ValidationResult(false, [propertyPath + " is null or undefined"])
  {
  }

  /** An owner is valid exactly when it is truthy and conforms to the owner schema. */
  lemma OwnerValidIff(obj: Json, propertyPath: string)
    ensures ValidateOwner(obj, propertyPath).isValid <==> Truthy(obj) && Conforms(OwnerSchema, obj)
  {
    CheckEmptyIff(OwnerSchema, obj, Verbose);
  }

  /**
   * An owner is valid exactly when it has no diagnostic; there is one
   * diagnostic per raw error, and each starts with the caller's path.
   */
  lemma OwnerDiagnostics(obj: Json, propertyPath: string)
    ensures ValidateOwner(obj, propertyPath).isValid <==> ValidateOwner(obj, propertyPath).errors == []
    ensures Truthy(obj) ==> |ValidateOwner(obj, propertyPath).errors| == |OwnerErrors(obj)|
    ensures forall i :: 0 <= i < |ValidateOwner(obj, propertyPath).errors| ==>
              StartsWith(ValidateOwner(obj, propertyPath).errors[i], propertyPath)
  {
    if Truthy(obj) {
      TranslateAllLocates(OwnerTemplates, OwnerErrors(obj), propertyPath, obj, None);
    } else {
      assert ValidateOwner(obj, propertyPath).errors[0] == propertyPath + " is null or undefined";
    }
  }

  /** Each required owner field the object lacks is named by a diagnostic. */
  lemma MissingOwnerFieldReported(obj: Json, propertyPath: string, f: string)
    requires obj.JObj? && f in OwnerSchema.required && f !in Keys(obj.members)
    ensures !ValidateOwner(obj, propertyPath).isValid
    ensures propertyPath + "." + f + " is required" in ValidateOwner(obj, propertyPath).errors
  {
    assert propertyPath + "." + f + " is required" + LayerSuffix(None) == propertyPath + "." + f + " is required";
    MissingRequiredDiagnostic(OwnerTemplates, OwnerSchema, obj, Verbose, f, propertyPath, obj, None);
  }

  /** The owner schema is closed: each key it does not declare is named as unexpected. */
  lemma UndeclaredOwnerKeyReported(obj: Json, propertyPath: string, k: string)
    requires obj.JObj? && k in Keys(obj.members) && k !in PropertyNames(OwnerSchema)
    ensures !ValidateOwner(obj, propertyPath).isValid
    ensures propertyPath + " has unexpected property: " + k in ValidateOwner(obj, propertyPath).errors
  {
    var e := Report(AdditionalProperties(k), obj, Verbose);
    UndeclaredOwnerKeyText(obj, propertyPath, k);
    assert e in AdditionalErrors(OwnerSchema, obj, Verbose);
    CheckContainsAdditional(OwnerSchema, obj, Verbose, e);
    TranslateAllIncludes(OwnerTemplates, Check(OwnerSchema, obj, Verbose), e, propertyPath, obj, None);
    OwnerLayer(obj, propertyPath);
  }

  /** The owner's `additionalProperties` violation for key `k`, rendered. */
  lemma UndeclaredOwnerKeyText(obj: Json, propertyPath: string, k: string)
    ensures Translate(OwnerTemplates, Report(AdditionalProperties(k), obj, Verbose), propertyPath, obj, None)
            == propertyPath + " has unexpected property: " + k
  {
    var d := propertyPath + " has unexpected property: " + k;
    UnexpectedPropertyText(OwnerTemplates, Report(AdditionalProperties(k), obj, Verbose), propertyPath, obj, None);
    assert LayerSuffix(None) == "";
    assert d + "" == d;
  }


  /** Past the falsy short cut, the verdict and diagnostics are the owner schema's. */
  lemma OwnerLayer(obj: Json, propertyPath: string)
    requires Truthy(obj)
    ensures ValidateOwner(obj, propertyPath)
            == ValidationResult(Check(OwnerSchema, obj, Verbose) == [],
                                TranslateAll(OwnerTemplates, Check(OwnerSchema, obj, Verbose), propertyPath, obj, None))
  {
  }

  /**
   * The owner's keys have no `~` or `/`, so each renders in an instance path
   * as itself.
   */
  lemma OwnerKeysPlain(j: nat)
    requires j < |OwnerSchema.properties|
    ensures '~' !in OwnerSchema.properties[j].name && '/' !in OwnerSchema.properties[j].name
  {
  }

  /**
   * A declared owner field of the wrong JSON type is reported with the type
   * the schema wants and the JavaScript type the field actually has.
   */
  lemma OwnerFieldTypeReported(obj: Json, propertyPath: string, j: nat, x: Json)
    requires obj.JObj? && j < |OwnerSchema.properties|
    requires Get(obj.members, OwnerSchema.properties[j].name) == Some(x)
    requires !HasType(x, OwnerSchema.properties[j].schema.typ.value)
    ensures !ValidateOwner(obj, propertyPath).isValid
    ensures var p := OwnerSchema.properties[j];
            propertyPath + "/" + p.name + " should be " + TypeName(p.schema.typ.value) + ", got " + TypeOf(Some(x))
              in ValidateOwner(obj, propertyPath).errors
  {
    var p := OwnerSchema.properties[j];
    var tn := TypeName(p.schema.typ.value);
    var e := SchemaError([Key(p.name)], Type(tn), Message(Type(tn)), None);
    TypeViolationUnder(OwnerSchema, obj, j, x, Verbose);
    OwnerFieldTypeText(obj, propertyPath, j, x);
    TranslateAllIncludes(OwnerTemplates, Check(OwnerSchema, obj, Verbose), e, propertyPath, obj, None);
    OwnerLayer(obj, propertyPath);
  }

  /** The owner's `type` violation on its `j`-th field, rendered with the field's JavaScript type. */
  lemma OwnerFieldTypeText(obj: Json, propertyPath: string, j: nat, x: Json)
    requires obj.JObj? && j < |OwnerSchema.properties|
    requires Get(obj.members, OwnerSchema.properties[j].name) == Some(x)
    ensures var p := OwnerSchema.properties[j];
            var tn := TypeName(p.schema.typ.value);
            Translate(OwnerTemplates, SchemaError([Key(p.name)], Type(tn), Message(Type(tn)), None), propertyPath, obj, None)
            == propertyPath + "/" + p.name + " should be " + tn + ", got " + TypeOf(Some(x))
  {
    var p := OwnerSchema.properties[j];
    var tn := TypeName(p.schema.typ.value);
    var e := SchemaError([Key(p.name)], Type(tn), Message(Type(tn)), None);
    OwnerKeysPlain(j);
    TypeGotTopLevel(OwnerTemplates, e, propertyPath, obj.members, p.name);
    var d := propertyPath + "/" + p.name + " should be " + tn + ", got " + TypeOf(Some(x));
    assert LayerSuffix(None) == "";
    assert d + "" == d;
  }


  /**
   * A `type` outside `user` and `org` is rejected by the schema's `enum`;
   * without Ajv's `verbose` option the offending value renders as `undefined`.
   */
  lemma UnrecognisedOwnerTypeReported(obj: Json, propertyPath: string, x: Json)
    requires obj.JObj? && Get(obj.members, "type") == Some(x) && x !in [JStr("user"), JStr("org")]
    ensures !ValidateOwner(obj, propertyPath).isValid
    ensures propertyPath + "/" + "type" + " should be one of [" + "user, org" + "], got " + "undefined"
              in ValidateOwner(obj, propertyPath).errors
  {
    var kinds := Strings(["user", "org"]);
    var e := SchemaError([Key("type")], Enum(kinds), Message(Enum(kinds)), None);
    OwnerTypeEnumText(obj, propertyPath);
    OwnerTypeEnumViolation(obj, x);
    var raw := Check(OwnerSchema, obj, Verbose);
    TranslateAllIncludes(OwnerTemplates, raw, e, propertyPath, obj, None);
    OwnerLayer(obj, propertyPath);
  }

  /** The owner's `enum` violation on `type`, rendered. */
  lemma OwnerTypeEnumText(obj: Json, propertyPath: string)
    ensures var kinds := Strings(["user", "org"]);
            Translate(OwnerTemplates, SchemaError([Key("type")], Enum(kinds), Message(Enum(kinds)), None),
                      propertyPath, obj, None)
            == propertyPath + "/" + "type" + " should be one of [" + "user, org" + "], got " + "undefined"
  {
    var kinds := Strings(["user", "org"]);
    var e := SchemaError([Key("type")], Enum(kinds), Message(Enum(kinds)), None);
    OwnerKindsText();
    assert LayerSuffix(None) == "";
    EnumDiagnosticText(OwnerTemplates, e, propertyPath, obj, None, "type");
  }

  /** The owner schema's `enum` on `type` rejects every value other than `user` and `org`, at `/type`. */
  lemma OwnerTypeEnumViolation(obj: Json, x: Json)
    requires obj.JObj? && Get(obj.members, "type") == Some(x) && x !in [JStr("user"), JStr("org")]
    ensures var kinds := Strings(["user", "org"]);
            SchemaError([Key("type")], Enum(kinds), Message(Enum(kinds)), None) in Check(OwnerSchema, obj, Verbose)
  {
    var kinds := Strings(["user", "org"]);
    assert kinds == [JStr("user"), JStr("org")];
    assert OwnerSchema.properties[3].name == "type";
    assert OwnerSchema.properties[3].schema.enumValues == Some(kinds);
    EnumViolationUnder(OwnerSchema, obj, 3, x, Verbose);
  }

  /** The `enum` on the owner's `type` lists `user` and `org`, in this order. */
  lemma OwnerKindsText()
    ensures Join(Strings(["user", "org"]), ", ") == "user, org"
  {
    var a := JArr([JStr("user"), JStr("org")]);
    assert Strings(["user", "org"]) == a.elems;
    JoinFromString(a, 1, ", ");
    JoinFromString(a, 0, ", ");
  }
}

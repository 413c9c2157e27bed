/**
 * The literal schemas of the catalog: the owner descriptor, the model
 * inference provider, the space runtime, the item base schema and the five
 * variant extensions. The owner descriptor schema is written once here; both
 * validators use this one definition.
 */
module CatalogSchemas {
  import opened Prelude
  import opened Json
  import opened JsonSchema

  /** `{ type: t }` */
  function Typed(t: JsonType): Schema {
    Schema(Some(t), false, None, None, None, [], [], true, [])
  }

  const StringField := Typed(StringType)
  const NumberField := Typed(NumberType)
  const BooleanField := Typed(BooleanType)

  /** `{ type: t, nullable: true }` */
  function Nullable(t: JsonType): Schema {
    Typed(t).(nullable := true)
  }

  function Strings(ss: seq<string>): seq<Json> {
    seq(|ss|, i requires 0 <= i < |ss| => JStr(ss[i]))
  }

  /** `{ type: "string", enum: [...] }` */
  function StringEnum(ss: seq<string>): Schema {
    StringField.(enumValues := Some(Strings(ss)))
  }

  /** `{ type: t, const: c }` */
  function Constant(t: JsonType, c: Json): Schema {
    Typed(t).(constValue := Some(c))
  }

  /** `{ type: "array", items: s }` */
  function ArrayOf(s: Schema): Schema {
    Typed(ArrayType).(items := Some(s))
  }

  /** `{ type: "object", required, additionalProperties: false, properties }` */
  function ClosedObject(required: seq<string>, properties: seq<Property>): Schema {
    Schema(Some(ObjectType), false, None, None, None, required, properties, false, [])
  }

  /** `{ oneOf: branches }` */
  function OneOfSchema(branches: seq<Schema>): Schema {
    Schema(None, false, None, None, None, [], [], true, branches)
  }

  const OwnerSchema := ClosedObject(
    ["avatarUrl", "fullname", "type", "name", "isHf", "isHfAdmin", "isMod"],
    [ Property("_id", StringField),
      Property("avatarUrl", StringField),
      Property("fullname", StringField),
      Property("type", StringEnum(["user", "org"])),
      Property("name", StringField),
      Property("isPro", BooleanField),
      Property("isEnterprise", BooleanField),
      Property("isHf", BooleanField),
      Property("isHfAdmin", BooleanField),
      Property("isMod", BooleanField),
      Property("followerCount", NumberField) ])

  const InferenceProviderSchema := ClosedObject(
    ["provider", "modelStatus", "providerStatus", "providerId", "task"],
    [ Property("provider", StringField),
      Property("modelStatus", StringField),
      Property("providerStatus", StringField),
      Property("providerId", StringField),
      Property("task", StringField),
      Property("adapterWeightsPath", StringField),
      Property("adapterType", StringField) ])

  const SpaceRuntimeSchema := ClosedObject(
    ["stage", "hardware", "storage", "replicas"],
    [ Property("stage", StringField),
      Property("hardware", ClosedObject(
        ["current", "requested"],
        [ Property("current", Nullable(StringType)),
          Property("requested", Nullable(StringType)) ])),
      Property("storage", Nullable(StringType)),
      Property("gcTimeout", Nullable(NumberType)),
      Property("replicas", ClosedObject(
        ["requested"],
        [ Property("current", NumberField),
          Property("requested", OneOfSchema([NumberField, StringEnum(["auto"])])) ])),
      Property("devMode", BooleanField),
      Property("domains", ArrayOf(ClosedObject(
        ["domain", "stage"],
        [ Property("domain", StringField),
          Property("stage", StringField) ]))),
      Property("sha", StringField),
      Property("errorMessage", Nullable(StringType)) ])

  /** The base schema is open: keys of the variant extensions pass it. */
  const BaseItemSchema := Schema(
    Some(ObjectType), false, None, None, None,
    ["_id", "position", "type", "id"],
    [ Property("_id", StringField),
      Property("position", NumberField),
      Property("type", StringEnum(["model", "dataset", "space", "paper", "collection"])),
      Property("id", StringField),
      Property("note", ClosedObject(
        ["html", "text"],
        [ Property("html", StringField),
          Property("text", StringField) ])),
      Property("gallery", ArrayOf(StringField)) ],
    true, [])

  /** `gated`: `false`, or one of the strings "auto" and "manual". */
  const GatedSchema := OneOfSchema([Constant(BooleanType, JBool(false)), StringEnum(["auto", "manual"])])

  const ModelSchema := ClosedObject(
    ["author", "authorData", "downloads", "gated", "availableInferenceProviders",
     "lastModified", "likes", "isLikedByUser", "private", "repoType"],
    [ Property("type", Constant(StringType, JStr("model"))),
      Property("author", StringField),
      Property("authorData", OwnerSchema),
      Property("downloads", NumberField),
      Property("gated", GatedSchema),
      Property("availableInferenceProviders", ArrayOf(InferenceProviderSchema)),
      Property("lastModified", StringField),
      Property("likes", NumberField),
      Property("isLikedByUser", BooleanField),
      Property("pipeline_tag", StringField),
      Property("private", BooleanField),
      Property("repoType", StringField),
      Property("widgetOutputUrls", ArrayOf(StringField)),
      Property("numParameters", NumberField) ])

  const DatasetSchema := ClosedObject(
    ["author", "downloads", "gated", "lastModified", "likes", "isLikedByUser", "private", "repoType"],
    [ Property("type", Constant(StringType, JStr("dataset"))),
      Property("author", StringField),
      Property("downloads", NumberField),
      Property("gated", GatedSchema),
      Property("lastModified", StringField),
      Property("likes", NumberField),
      Property("isLikedByUser", BooleanField),
      Property("private", BooleanField),
      Property("repoType", StringField),
      Property("datasetsServerInfo", ClosedObject(
        ["viewer", "numRows", "libraries"],
        [ Property("viewer", StringField),
          Property("numRows", NumberField),
          Property("libraries", ArrayOf(StringField)),
          Property("formats", ArrayOf(StringField)),
          Property("modalities", ArrayOf(StringField)),
          Property("tags", ArrayOf(StringField)) ])) ])

  const SpaceSchema := ClosedObject(
    ["author", "authorData", "createdAt", "lastModified", "likes", "isLikedByUser", "private",
     "repoType", "tags", "pinned", "emoji", "runtime", "title", "trendingScore"],
    [ Property("type", Constant(StringType, JStr("space"))),
      Property("author", StringField),
      Property("authorData", OwnerSchema),
      Property("createdAt", StringField),
      Property("lastModified", StringField),
      Property("likes", NumberField),
      Property("isLikedByUser", BooleanField),
      Property("private", BooleanField),
      Property("repoType", StringField),
      Property("sdk", StringField),
      Property("tags", ArrayOf(StringField)),
      Property("pinned", BooleanField),
      Property("emoji", StringField),
      Property("colorFrom", StringField),
      Property("colorTo", StringField),
      Property("runtime", SpaceRuntimeSchema),
      Property("shortDescription", StringField),
      Property("title", StringField),
      Property("ai_short_description", StringField),
      Property("ai_category", StringField),
      Property("trendingScore", NumberField) ])

  const PaperSchema := ClosedObject(
    ["title", "thumbnailUrl", "upvotes", "isUpvotedByUser", "publishedAt"],
    [ Property("type", Constant(StringType, JStr("paper"))),
      Property("title", StringField),
      Property("thumbnailUrl", StringField),
      Property("upvotes", NumberField),
      Property("isUpvotedByUser", BooleanField),
      Property("publishedAt", StringField) ])

  const CollectionSchema := ClosedObject(
    ["slug", "title", "lastUpdated", "numberItems", "owner", "theme", "shareUrl", "upvotes", "isUpvotedByUser"],
    [ Property("type", Constant(StringType, JStr("collection"))),
      Property("slug", StringField),
      Property("title", StringField),
      Property("description", StringField),
      Property("lastUpdated", StringField),
      Property("numberItems", NumberField),
      Property("owner", OwnerSchema),
      Property("theme", StringField),
      Property("shareUrl", StringField),
      Property("upvotes", NumberField),
      Property("isUpvotedByUser", BooleanField) ])

  /** `gated` accepts exactly `false`, `"auto"` and `"manual"`. */
  lemma GatedValues(v: Json)
    ensures Conforms(GatedSchema, v) <==> v == JBool(false) || v == JStr("auto") || v == JStr("manual")
  {
    var no := Constant(BooleanType, JBool(false));
    var mode := StringEnum(["auto", "manual"]);
    assert Strings(["auto", "manual"]) == [JStr("auto"), JStr("manual")];
    var bs := seq(|GatedSchema.oneOf|, j requires 0 <= j < |GatedSchema.oneOf| => Conforms(GatedSchema.oneOf[j], v));
    assert bs == [Conforms(no, v), Conforms(mode, v)];
    assert Conforms(no, v) <==> v == JBool(false);
    assert Conforms(mode, v) <==> v == JStr("auto") || v == JStr("manual");
    assert LocalConforms(GatedSchema, v);
    assert v.JObj? ==> MembersConform(GatedSchema, v);
    assert Conforms(GatedSchema, v) <==> ExactlyOne(bs);
    assert ExactlyOne(bs) <==> Conforms(no, v) != Conforms(mode, v) by {
      if Conforms(no, v) != Conforms(mode, v) {
        var j := if Conforms(no, v) then 0 else 1;
        assert bs[j] && forall k :: 0 <= k < 2 && k != j ==> !bs[k];
      }
    }
  }

  /** A runtime's `replicas.requested` accepts exactly a number or `"auto"`. */
  lemma ReplicasRequestedValues(v: Json)
    ensures var replicas := SpaceRuntimeSchema.properties[4];
            var requested := replicas.schema.properties[1];
            && replicas.name == "replicas" && requested.name == "requested"
            && (Conforms(requested.schema, v) <==> v.JNum? || v == JStr("auto"))
  {
    var s := SpaceRuntimeSchema.properties[4].schema.properties[1].schema;
    assert s == OneOfSchema([NumberField, StringEnum(["auto"])]);
    var count := NumberField;
    var auto := StringEnum(["auto"]);
    assert Strings(["auto"]) == [JStr("auto")];
    var bs := seq(|s.oneOf|, j requires 0 <= j < |s.oneOf| => Conforms(s.oneOf[j], v));
    assert bs == [Conforms(count, v), Conforms(auto, v)];
    assert Conforms(count, v) <==> v.JNum?;
    assert Conforms(auto, v) <==> v == JStr("auto");
    assert LocalConforms(s, v);
    assert v.JObj? ==> MembersConform(s, v);
    assert Conforms(s, v) <==> ExactlyOne(bs);
    assert ExactlyOne(bs) <==> Conforms(count, v) != Conforms(auto, v) by {
      if Conforms(count, v) != Conforms(auto, v) {
        var j := if Conforms(count, v) then 0 else 1;
        assert bs[j] && forall k :: 0 <= k < 2 && k != j ==> !bs[k];
      }
    }
  }
}

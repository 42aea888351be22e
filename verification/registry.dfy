/**
  The fixed tables that tie the four geometry kinds together: the installed
  ContentType rows, the content-type-to-wire-type table used when rendering a
  Shape, the class-name registry and its reverse, and the field list the
  helpers use for rectangles. The tables are keyed by `str(content_type_id)`.
 */
module Registry {
  import opened PyValues
  import KeyCase

  /** The four geometry models a Shape can point at. */
  datatype GeometryModel = RectangleModel | CircleModel | TextModel | MediaModel
  {
    /** The model's key in `CLASSNAME_TO_MODELS`. */
    function ClassName(): string {
      match this
      case RectangleModel => "Rect"
      case CircleModel => "Circle"
      case TextModel => "Text"
      case MediaModel => "Image"
    }

    /** The ContentType row's `model` name: Django's lower-cased class name. */
    function ModelName(): string {
      match this
      case RectangleModel => "rectangle"
      case CircleModel => "circle"
      case TextModel => "text"
      case MediaModel => "media"
    }
  }

  /** One `CLASSNAME_TO_MODELS` entry; the serializer is the model's own, so it is not a separate field here. */
  datatype Entry = Entry(contentType: nat, model: GeometryModel, fields: seq<string>)

  /** The ContentType rows the tables below assume. */
  const InstalledContentTypes: map<nat, string> :=
    map[1 := "circle", 3 := "media", 4 := "rectangle", 5 := "text"]

  /** `CONTENT_TYPE_TO_TYPE`: the front-end type of a Shape, by content type id. */
  const ContentTypeToType: map<string, string> :=
    map["4" := "v-rect", "1" := "v-circle", "3" := "v-image", "5" := "v-text"]

  /** `CLASSNAME_TO_MODELS`. */
  const ClassNameToModels: map<string, Entry> := map[
    "Rect" := Entry(4, RectangleModel, ["width", "height"]),
    "Circle" := Entry(1, CircleModel, ["radius"]),
    "Text" := Entry(5, TextModel, ["font_family", "font_size", "text"]),
    "Image" := Entry(3, MediaModel, ["width", "height", "media_content"])]

  /** `CONTENT_TYPE_TO_CLASSNAME`. */
  const ContentTypeToClassName: map<string, string> :=
    map["4" := "Rect", "1" := "Circle", "5" := "Text", "3" := "Image"]

  /** `MODELS_TYPE_TO_FIELDS`. */
  const ModelsTypeToFields: map<string, seq<string>> := map["rect" := ["width", "height"]]

  /** The front-end names are "v-" and the lower-cased class name. */
  function WireName(className: string): string {
    "v-" + KeyCase.LowerAll(className)
  }

  /** The two tables keyed by content type cover the same ids: those of the installed rows. */
  lemma TableKeys()
    ensures ContentTypeToType.Keys == ContentTypeToClassName.Keys
    ensures forall id :: id in InstalledContentTypes <==> NatToString(id) in ContentTypeToType
  {
    assert NatToString(1) == "1" && NatToString(3) == "3" && NatToString(4) == "4" && NatToString(5) == "5";
    forall id | NatToString(id) in ContentTypeToType
      ensures id in InstalledContentTypes
    {
      var key := NatToString(id);
      if key == "1" { NatToStringInjective(id, 1); }
      else if key == "3" { NatToStringInjective(id, 3); }
      else if key == "4" { NatToStringInjective(id, 4); }
      else { NatToStringInjective(id, 5); }
    }
  }

  /** `CLASSNAME_TO_MODELS` and `CONTENT_TYPE_TO_CLASSNAME` are mutual inverses. */
  lemma ClassNameTablesInverse()
    ensures forall name :: name in ClassNameToModels ==>
      var key := NatToString(ClassNameToModels[name].contentType);
      key in ContentTypeToClassName && ContentTypeToClassName[key] == name
    ensures forall key :: key in ContentTypeToClassName ==>
      ContentTypeToClassName[key] in ClassNameToModels
      && NatToString(ClassNameToModels[ContentTypeToClassName[key]].contentType) == key
  {
    assert NatToString(1) == "1" && NatToString(3) == "3" && NatToString(4) == "4" && NatToString(5) == "5";
  }

  /** Distinct content types render as distinct front-end types. */
  lemma ContentTypeToTypeInjective()
    ensures forall a, b :: a in ContentTypeToType && b in ContentTypeToType ==>
      (ContentTypeToType[a] == ContentTypeToType[b] <==> a == b)
  {
  }

  /** Each content type's front-end type is the wire name of its class name. */
  lemma WireNamesMatchClassNames()
    ensures forall key :: key in ContentTypeToType ==>
      key in ContentTypeToClassName && ContentTypeToType[key] == WireName(ContentTypeToClassName[key])
  {
    assert WireName("Rect") == "v-rect";
    assert WireName("Circle") == "v-circle";
    assert WireName("Text") == "v-text";
    assert WireName("Image") == "v-image";
  }

  /** The registry's ids name the matching installed ContentType rows. */
  lemma RegistryMatchesInstalledContentTypes()
    ensures forall name :: name in ClassNameToModels ==>
      ClassNameToModels[name].contentType in InstalledContentTypes
      && InstalledContentTypes[ClassNameToModels[name].contentType] == ClassNameToModels[name].model.ModelName()
    ensures forall id :: id in InstalledContentTypes ==>
      exists name :: name in ClassNameToModels && ClassNameToModels[name].contentType == id
  {
    assert ClassNameToModels["Circle"].contentType == 1;
    assert ClassNameToModels["Image"].contentType == 3;
    assert ClassNameToModels["Rect"].contentType == 4;
    assert ClassNameToModels["Text"].contentType == 5;
  }

  /** The registry's field list for a geometry model, as a set. */
  function RegisteredFields(g: GeometryModel): set<string> {
    set f | f in ClassNameToModels[g.ClassName()].fields
  }

  /** Every geometry model has exactly one registry entry, and it names that model. */
  lemma ClassNamesRegistered()
    ensures forall g: GeometryModel :: g.ClassName() in ClassNameToModels && ClassNameToModels[g.ClassName()].model == g
    ensures forall name :: name in ClassNameToModels ==> ClassNameToModels[name].model.ClassName() == name
  {
  }

  /** The helper's rectangle field list is the registry's. */
  lemma RectFieldsAgree()
    ensures ModelsTypeToFields["rect"] == ClassNameToModels["Rect"].fields
  {
  }

  /** The geometry model a content type id names, when it is one of the four. */
  function GeometryFor(modelName: string): (g: Wrappers.Option<GeometryModel>)
    ensures g.Some? <==> modelName in {"rectangle", "circle", "text", "media"}
    ensures g.Some? ==> g.value.ModelName() == modelName
  {
    if modelName == "rectangle" then Wrappers.Some(RectangleModel)
    else if modelName == "circle" then Wrappers.Some(CircleModel)
    else if modelName == "media" then Wrappers.Some(MediaModel)
    else if modelName == "text" then Wrappers.Some(TextModel)
    else Wrappers.None
  }
}

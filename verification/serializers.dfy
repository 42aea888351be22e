/**
  The outbound representation of Shapes and Layouts.

  A Shape is rendered in five steps: the serializer's own data (the Shape's
  columns, its `_id`, its content type id and the geometry row's data under
  `object`; `layout` and `shape_id` are write-only), the geometry data
  flattened into it, `content_type` popped and looked up in
  `CONTENT_TYPE_TO_TYPE`, the two shadow offsets nested into one object, and
  every key camelCased. The result is `{"type": ..., "config": ...}`.
 */
module Serializers {
  import opened Wrappers
  import opened PyValues
  import opened KeyCase
  import opened Utils
  import opened Models
  import opened Store
  import opened Registry

  // ------------------------------------------------------------------
  // Geometry serializers (fields = '__all__')
  // ------------------------------------------------------------------

  function RectangleData(id: nat, r: Rectangle): PyDict {
    map["id" := Int(id), "width" := Float(r.width), "height" := Float(r.height)]
  }

  function CircleData(id: nat, c: Circle): PyDict {
    map["id" := Int(id), "radius" := Float(c.radius)]
  }

  function TextData(id: nat, t: Text): PyDict {
    map["id" := Int(id), "font_family" := Str(t.fontFamily), "font_size" := Int(t.fontSize), "text" := Str(t.text)]
  }

  function MediaContentData(id: nat, m: MediaContent): PyDict {
    map["id" := Int(id),
        "content" := (if m.content.Some? then Str(m.content.value) else Null),
        "original_width" := Int(m.originalWidth), "original_height" := Int(m.originalHeight),
        "alt" := Str(m.alt), "user" := Int(m.user)]
  }

  /** `MediaSerializer.to_representation`: the referenced MediaContent's data
      replaces its id; a missing MediaContent row raises DoesNotExist. */
  function MediaData(st: Store, id: nat, m: Media): (r: Outcome<PyDict>)
    ensures r.Success? <==> m.mediaContent in st.mediaContents
    ensures r.Failure? ==> r.error == DoesNotExist("MediaContent")
    ensures r.Success? ==> r.value.Keys == {"id", "width", "height", "media_content"}
    ensures r.Success? ==> r.value["id"] == Int(id)
    ensures r.Success? ==> r.value["width"] == Float(m.width) && r.value["height"] == Float(m.height)
    ensures r.Success? ==>
      r.value["media_content"] == OrderedDict(MediaContentData(m.mediaContent, st.mediaContents[m.mediaContent]))
  {
    var base := map["id" := Int(id), "width" := Float(m.width), "height" := Float(m.height),
                    "media_content" := Int(m.mediaContent)];
    var contentId := base["media_content"].i;
    if contentId < 0 || contentId !in st.mediaContents then Failure(DoesNotExist("MediaContent"))
    else Success(base["media_content" := OrderedDict(MediaContentData(contentId, st.mediaContents[contentId]))])
  }

  /** The model whose row a geometry model's `get(pk=...)` looks up, as DoesNotExist names it. */
  function ModelClass(g: GeometryModel): string {
    match g
    case RectangleModel => "Rectangle"
    case CircleModel => "Circle"
    case TextModel => "Text"
    case MediaModel => "Media"
  }

  /** The keys of a geometry serializer's data: the row's `id` and its columns. */
  function GeometryKeys(g: GeometryModel): set<string> {
    match g
    case RectangleModel => {"id", "width", "height"}
    case CircleModel => {"id", "radius"}
    case TextModel => {"id", "font_family", "font_size", "text"}
    case MediaModel => {"id", "width", "height", "media_content"}
  }

  /** Every field name a geometry serializer emits besides `id`. */
  const GeometryFieldNames: set<string> :=
    {"width", "height", "radius", "font_family", "font_size", "text", "media_content"}

  /** The registry's field list of each geometry model is exactly what its serializer emits besides `id`. */
  lemma RegistryFieldsAreSerializerFields(g: GeometryModel)
    ensures RegisteredFields(g) == GeometryKeys(g) - {"id"}
    ensures GeometryKeys(g) - {"id"} <= GeometryFieldNames
  {
  }

  /** The geometry row `(g, id)` names exists (and, for Media, so does its MediaContent). */
  predicate Renderable(st: Store, g: GeometryModel, id: nat) {
    match g
    case RectangleModel => id in st.rectangles
    case CircleModel => id in st.circles
    case TextModel => id in st.texts
    case MediaModel => id in st.media && st.media[id].mediaContent in st.mediaContents
  }

  /** `fields` is the geometry row `(g, id)` as its serializer shows it: the
      row's `id` and every column's stored value, with a Media row's
      MediaContent rendered in place of its id. */
  predicate ShowsRow(st: Store, g: GeometryModel, id: nat, fields: PyDict)
    requires Renderable(st, g, id)
  {
    && fields.Keys == GeometryKeys(g)
    && fields["id"] == Int(id)
    && match g
       case RectangleModel =>
         fields["width"] == Float(st.rectangles[id].width) && fields["height"] == Float(st.rectangles[id].height)
       case CircleModel =>
         fields["radius"] == Float(st.circles[id].radius)
       case TextModel =>
         && fields["font_family"] == Str(st.texts[id].fontFamily)
         && fields["font_size"] == Int(st.texts[id].fontSize)
         && fields["text"] == Str(st.texts[id].text)
       case MediaModel =>
         var m := st.media[id];
         && fields["width"] == Float(m.width) && fields["height"] == Float(m.height)
         && fields["media_content"] == OrderedDict(MediaContentData(m.mediaContent, st.mediaContents[m.mediaContent]))
  }

  /** `ShapeSerializer.get_object`: the geometry serializer's data for the
      four geometry models, `{}` for any other content type. */
  function GetObject(st: Store, modelName: string, shapeId: nat): (r: Outcome<Value>)
    ensures GeometryFor(modelName).None? ==> r == Success(Dict(map[]))
    ensures GeometryFor(modelName).Some? ==> var g := GeometryFor(modelName).value;
      && (r.Success? <==> Renderable(st, g, shapeId))
      && (r.Failure? && !(g == MediaModel && shapeId in st.media) ==> r.error == DoesNotExist(ModelClass(g)))
      && (r.Failure? && g == MediaModel && shapeId in st.media ==> r.error == DoesNotExist("MediaContent"))
      && (r.Success? ==> r.value.OrderedDict? && ShowsRow(st, g, shapeId, r.value.fields))
  {
    if modelName == "rectangle" then
      if shapeId in st.rectangles then Success(OrderedDict(RectangleData(shapeId, st.rectangles[shapeId])))
      else Failure(DoesNotExist("Rectangle"))
    else if modelName == "circle" then
      if shapeId in st.circles then Success(OrderedDict(CircleData(shapeId, st.circles[shapeId])))
      else Failure(DoesNotExist("Circle"))
    else if modelName == "media" then
      if shapeId in st.media then
        var data :- MediaData(st, shapeId, st.media[shapeId]);
        Success(OrderedDict(data))
      else Failure(DoesNotExist("Media"))
    else if modelName == "text" then
      if shapeId in st.texts then Success(OrderedDict(TextData(shapeId, st.texts[shapeId])))
      else Failure(DoesNotExist("Text"))
    else Success(Dict(map[]))
  }

  // ------------------------------------------------------------------
  // ShapeSerializer
  // ------------------------------------------------------------------

  /** The Shape's own columns under their serializer field names. */
  function ShapeOwnColumns(s: Shape): PyDict {
    map[
      "x" := Float(s.x), "y" := Float(s.y),
      "offset_x" := Float(s.offsetX), "offset_y" := Float(s.offsetY),
      "scale_x" := Float(s.scaleX), "scale_y" := Float(s.scaleY),
      "rotation" := Float(s.rotation),
      "fill" := Str(s.fill), "stroke" := Str(s.stroke),
      "stroke_width" := Float(s.strokeWidth), "opacity" := Float(s.opacity),
      "shadow_color" := Str(s.shadowColor), "shadow_blurr" := Float(s.shadowBlurr),
      "shadow_offset_x" := Float(s.shadowOffsetX), "shadow_offset_y" := Float(s.shadowOffsetY),
      "shadow_opacity" := Float(s.shadowOpacity),
      "draggable" := Str(s.draggable)]
  }

  const OwnColumnNames: set<string> := {
    "x", "y", "offset_x", "offset_y", "scale_x", "scale_y", "rotation",
    "fill", "stroke", "stroke_width", "opacity",
    "shadow_color", "shadow_blurr", "shadow_offset_x", "shadow_offset_y", "shadow_opacity",
    "draggable"}

  /** The keys the serializer adds to the columns, and the one `format_complex_fields` adds. */
  const AddedKeys: set<string> := {"_id", "content_type", "object", "shadow_offset"}

  lemma ShapeOwnColumnsKeys(s: Shape)
    ensures ShapeOwnColumns(s).Keys == OwnColumnNames
    ensures ShapeOwnColumns(s)["shadow_offset_x"] == Float(s.shadowOffsetX)
    ensures ShapeOwnColumns(s)["shadow_offset_y"] == Float(s.shadowOffsetY)
  {
  }

  /** The column dict holds exactly the Shape's column values, under the columns' names. */
  lemma ShapeOwnColumnsAgree(s: Shape, c: Column)
    ensures c.Name() in ShapeOwnColumns(s) && ShapeOwnColumns(s)[c.Name()] == ColumnValue(s, c)
  {
    match c
    case X => case Y => case OffsetX => case OffsetY => case ScaleX => case ScaleY => case Rotation =>
    case Fill => case Stroke => case StrokeWidth => case Opacity =>
    case ShadowColor => case ShadowBlurr => case ShadowOffsetX => case ShadowOffsetY => case ShadowOpacity =>
    case Draggable =>
  }

  /** The Shape's columns and the keys the pipeline adds do not collide. */
  lemma OwnColumnsAvoidAddedKeys()
    ensures OwnColumnNames !! AddedKeys
  {
  }

  /** The geometry fields collide neither with the Shape's columns nor with the added keys. */
  lemma GeometryFieldsAvoidShapeKeys()
    ensures GeometryFieldNames !! OwnColumnNames + AddedKeys
  {
  }

  /** The serializer's data for a Shape given its `object`: the columns, `_id` and `content_type`. */
  function ShapeDict(id: nat, s: Shape, obj: Value): PyDict {
    ShapeOwnColumns(s) + map["_id" := Int(id), "content_type" := Int(s.contentType), "object" := obj]
  }

  /** `ShapeSerializer(shape).data` before `to_representation` reshapes it:
      `layout` and `shape_id` are write-only and do not appear. Fails when
      `get_object` does. */
  function ShapeData(st: Store, id: nat, s: Shape): (r: Outcome<PyDict>)
    ensures s.contentType !in st.contentTypes ==> r == Failure(DoesNotExist("ContentType"))
    ensures s.contentType in st.contentTypes ==>
      var obj := GetObject(st, st.contentTypes[s.contentType], s.shapeId);
      && (r.Success? <==> obj.Success?)
      && (r.Failure? ==> r.error == obj.error)
      && (r.Success? ==> r.value.Keys == OwnColumnNames + {"_id", "content_type", "object"})
      && (r.Success? ==> forall c: Column :: c.Name() in r.value && r.value[c.Name()] == ColumnValue(s, c))
      && (r.Success? ==> r.value["_id"] == Int(id) && r.value["content_type"] == Int(s.contentType))
      && (r.Success? ==> r.value["object"] == obj.value)
  {
    if s.contentType !in st.contentTypes then Failure(DoesNotExist("ContentType"))
    else
      var obj :- GetObject(st, st.contentTypes[s.contentType], s.shapeId);
      ShapeDictContents(id, s, obj);
      Success(ShapeDict(id, s, obj))
  }

  /** The data holds every column under its name, and the three added keys. */
  lemma ShapeDictContents(id: nat, s: Shape, obj: Value)
    ensures ShapeDict(id, s, obj).Keys == OwnColumnNames + {"_id", "content_type", "object"}
    ensures forall c: Column :: c.Name() in ShapeDict(id, s, obj) && ShapeDict(id, s, obj)[c.Name()] == ColumnValue(s, c)
    ensures ShapeDict(id, s, obj)["_id"] == Int(id) && ShapeDict(id, s, obj)["content_type"] == Int(s.contentType)
    ensures ShapeDict(id, s, obj)["object"] == obj
  {
    ShapeDictKeys(id, s, obj);
    forall c: Column ensures c.Name() in ShapeDict(id, s, obj) && ShapeDict(id, s, obj)[c.Name()] == ColumnValue(s, c) {
      ShapeDictColumn(id, s, obj, c);
    }
  }

  lemma ShapeDictKeys(id: nat, s: Shape, obj: Value)
    ensures ShapeDict(id, s, obj).Keys == OwnColumnNames + {"_id", "content_type", "object"}
    ensures ShapeDict(id, s, obj)["_id"] == Int(id) && ShapeDict(id, s, obj)["content_type"] == Int(s.contentType)
    ensures ShapeDict(id, s, obj)["object"] == obj
  {
    ShapeOwnColumnsKeys(s);
    AddedFields(ShapeOwnColumns(s), Int(id), Int(s.contentType), obj);
  }

  /** Adding `_id`, `content_type` and `object` to any dict. */
  lemma AddedFields(own: PyDict, id: Value, ct: Value, obj: Value)
    ensures var d := own + map["_id" := id, "content_type" := ct, "object" := obj];
      && d.Keys == own.Keys + {"_id", "content_type", "object"}
      && d["_id"] == id && d["content_type"] == ct && d["object"] == obj
  {
  }

  lemma ShapeDictColumn(id: nat, s: Shape, obj: Value, c: Column)
    ensures c.Name() in ShapeDict(id, s, obj) && ShapeDict(id, s, obj)[c.Name()] == ColumnValue(s, c)
  {
    ShapeOwnColumnsAgree(s, c);
    ShapeOwnColumnsKeys(s);
    OwnColumnsAvoidAddedKeys();
    var added := map["_id" := Int(id), "content_type" := Int(s.contentType), "object" := obj];
    assert added.Keys <= AddedKeys;
    assert c.Name() !in added;
  }

  /** `format_complex_fields`: the two flat shadow offsets become one
      `shadow_offset` object; a missing offset is a KeyError, `x` checked first. */
  function FormatComplexFields(rep: PyDict): (r: Outcome<PyDict>)
    ensures "shadow_offset_x" !in rep ==> r == Failure(KeyError("shadow_offset_x"))
    ensures "shadow_offset_x" in rep && "shadow_offset_y" !in rep ==> r == Failure(KeyError("shadow_offset_y"))
    ensures r.Success? <==> "shadow_offset_x" in rep && "shadow_offset_y" in rep
    ensures r.Success? ==> r.value.Keys == rep.Keys - {"shadow_offset_x", "shadow_offset_y"} + {"shadow_offset"}
    ensures r.Success? ==>
      r.value["shadow_offset"] == Dict(map["x" := rep["shadow_offset_x"], "y" := rep["shadow_offset_y"]])
    ensures r.Success? ==> forall k :: k in rep && k !in {"shadow_offset", "shadow_offset_x", "shadow_offset_y"} ==>
      r.value[k] == rep[k]
  {
    if "shadow_offset_x" !in rep then Failure(KeyError("shadow_offset_x"))
    else if "shadow_offset_y" !in rep then Failure(KeyError("shadow_offset_y"))
    else
      var offset := Dict(map["x" := rep["shadow_offset_x"], "y" := rep["shadow_offset_y"]]);
      Success(rep["shadow_offset" := offset] - {"shadow_offset_x", "shadow_offset_y"})
  }

  /** Nesting the offsets loses nothing: the flat fields can be read back out
      of `shadow_offset` (when the input had no `shadow_offset` of its own). */
  lemma FormatComplexFieldsInvertible(rep: PyDict)
    requires "shadow_offset_x" in rep && "shadow_offset_y" in rep && "shadow_offset" !in rep
    ensures var r := FormatComplexFields(rep).value;
      var nested := r["shadow_offset"].fields;
      (r - {"shadow_offset"})["shadow_offset_x" := nested["x"]]["shadow_offset_y" := nested["y"]] == rep
  {
  }

  /** The dict the pipeline renames, stated without the pipeline: the columns
      without the flat offsets, the `_id`, the nested offset and every
      geometry field but `id`. */
  function ConfigSource(own: PyDict, id: Value, geometry: PyDict): PyDict
    requires "shadow_offset_x" in own && "shadow_offset_y" in own
  {
    (own - {"shadow_offset_x", "shadow_offset_y"})
    + map["_id" := id, "shadow_offset" := Dict(map["x" := own["shadow_offset_x"], "y" := own["shadow_offset_y"]])]
    + (geometry - {"id"})
  }

  /** `flatten_dict(rep, 'object')` on a Shape's data: the geometry fields
      other than `id` join the columns at the top level. */
  lemma FlattenShapeData(own: PyDict, id: Value, ct: Value, obj: Value)
    requires own.Keys !! AddedKeys
    requires obj.IsDict()
    requires (obj.fields.Keys - {"id"}) !! (own.Keys + AddedKeys)
    ensures FlattenDict(own + map["_id" := id, "content_type" := ct, "object" := obj], "object")
      == Success(own + map["_id" := id, "content_type" := ct] + (obj.fields - {"id"}))
  {
    var rep := own + map["_id" := id, "content_type" := ct, "object" := obj];
    var flat := FlattenDict(rep, "object").value;
    var nested := obj.fields;
    var expected := own + map["_id" := id, "content_type" := ct] + (nested - {"id"});
    assert flat.Keys == expected.Keys;
    forall k | k in expected ensures flat[k] == expected[k] {
      if k in nested && k != "id" {
        assert expected[k] == nested[k];
      } else {
        assert k in rep && k != "object";
        assert expected[k] == rep[k];
      }
    }
    assert flat == expected;
  }

  /** Popping `content_type` from the flattened data leaves the columns, `_id` and the geometry fields. */
  lemma PopContentType(own: PyDict, id: Value, ct: Value, fields: PyDict)
    requires "content_type" !in own && "content_type" !in fields && "_id" !in fields
    ensures (own + map["_id" := id, "content_type" := ct] + fields) - {"content_type"}
      == own + map["_id" := id] + fields
  {
    var cut := (own + map["_id" := id, "content_type" := ct] + fields) - {"content_type"};
    var expected := own + map["_id" := id] + fields;
    assert cut.Keys == expected.Keys;
    assert cut == expected;
  }

  /** Nesting the offsets of the popped data gives `ConfigSource`. */
  lemma FormatShapeData(own: PyDict, id: Value, geometry: PyDict)
    requires "shadow_offset_x" in own && "shadow_offset_y" in own
    requires own.Keys !! AddedKeys
    requires (geometry.Keys - {"id"}) !! (own.Keys + AddedKeys)
    ensures FormatComplexFields(own + map["_id" := id] + (geometry - {"id"})) == Success(ConfigSource(own, id, geometry))
  {
    var cut := own + map["_id" := id] + (geometry - {"id"});
    var formatted := FormatComplexFields(cut).value;
    var expected := ConfigSource(own, id, geometry);
    assert formatted.Keys == expected.Keys;
    forall k | k in expected ensures formatted[k] == expected[k] {
    }
    assert formatted == expected;
  }

  /** `str(rep.pop('content_type', None))`: "None" when the key is missing or
      holds None, the decimal text of an integer, a string as it is, "True" or
      "False" for a bool. The serializer's data always holds the Shape's
      content type id here. Python's text of a float, list or dict is not
      modelled: it is never a key of `CONTENT_TYPE_TO_TYPE`, and "<other>"
      stands in for it. */
  function ContentTypeKey(rep: PyDict): (key: string)
    ensures "content_type" !in rep ==> key == "None"
    ensures "content_type" in rep && rep["content_type"].Int? && rep["content_type"].i >= 0 ==>
      key == NatToString(rep["content_type"].i as nat)
  {
    if "content_type" !in rep then "None"
    else
      match rep["content_type"]
      case Null => "None"
      case Bool(b) => if b then "True" else "False"
      case Int(i) => if i >= 0 then NatToString(i as nat) else "-" + NatToString(-i as nat)
      case Str(t) => t
      case _ => "<other>"
  }

  /** Everything `to_representation` does after the serializer's own data:
      flatten `object`, pop and look up `content_type`, nest the offsets,
      camelCase the keys, wrap as `{type, config}`. */
  ghost function Reshape(rep: PyDict): (r: Outcome<PyDict>)
    ensures r.Success? ==> r.value.Keys == {"type", "config"} && r.value["config"].Dict?
  {
    var flat :- FlattenDict(rep, "object");
    var key := ContentTypeKey(flat);
    if key !in ContentTypeToType then Failure(KeyError(key))
    else
      var formatted :- FormatComplexFields(flat - {"content_type"});
      Success(Wrap(key, DictKeysSnakeToCamel(formatted)))
  }

  /** The `{type, config}` pair. */
  function Wrap(key: string, config: PyDict): (r: PyDict)
    requires key in ContentTypeToType
    ensures r.Keys == {"type", "config"}
    ensures r["type"] == Str(ContentTypeToType[key]) && r["config"] == Dict(config)
  {
    map["type" := Str(ContentTypeToType[key]), "config" := Dict(config)]
  }

  /** `ShapeSerializer.to_representation`. Its full outcome is stated by
      `ToRepresentationOutcome`. */
  ghost function ToRepresentation(st: Store, id: nat, s: Shape): (r: Outcome<PyDict>)
    ensures s.contentType !in st.contentTypes ==> r == Failure(DoesNotExist("ContentType"))
    ensures r.Success? ==> r.value.Keys == {"type", "config"} && r.value["config"].Dict?
  {
    var rep :- ShapeData(st, id, s);
    Reshape(rep)
  }

  /** On the serializer data of any Shape-like record whose columns avoid the
      added keys and whose geometry fields avoid both, the reshaping ends in
      a KeyError for an unlisted content type and otherwise in the
      camelCased `ConfigSource`. */
  lemma ReshapeShapeDict(own: PyDict, id: Value, ct: nat, obj: Value)
    requires "shadow_offset_x" in own && "shadow_offset_y" in own
    requires own.Keys !! AddedKeys
    requires obj.IsDict()
    requires (obj.fields.Keys - {"id"}) !! (own.Keys + AddedKeys)
    ensures var key := NatToString(ct);
      Reshape(own + map["_id" := id, "content_type" := Int(ct), "object" := obj])
      == if key in ContentTypeToType
         then Success(Wrap(key, DictKeysSnakeToCamel(ConfigSource(own, id, obj.fields))))
         else Failure(KeyError(key))
  {
    FlattenShapeData(own, id, Int(ct), obj);
    var flat := own + map["_id" := id, "content_type" := Int(ct)] + (obj.fields - {"id"});
    assert ContentTypeKey(flat) == NatToString(ct);
    PopContentType(own, id, Int(ct), obj.fields - {"id"});
    FormatShapeData(own, id, obj.fields);
  }

  lemma SubsetDisjoint(a: set<string>, b: set<string>, c: set<string>)
    requires a <= b && b !! c
    ensures a !! c
  {
  }

  // ------------------------------------------------------------------
  // What the pipeline produces
  // ------------------------------------------------------------------

  /** The `config` of a Shape whose geometry serializer emitted `geometry`. */
  ghost function ShapeConfig(id: nat, s: Shape, geometry: PyDict): PyDict {
    ShapeOwnColumnsKeys(s);
    DictKeysSnakeToCamel(ConfigSource(ShapeOwnColumns(s), Int(id), geometry))
  }

  /** Data a geometry serializer can emit: a dict of its `id` and geometry fields. */
  predicate GeometryShaped(obj: Value) {
    obj.IsDict() && obj.fields.Keys - {"id"} <= GeometryFieldNames
  }

  /** A Media row just created is what `get_object` then shows: the request's
      width and height, and the named MediaContent rendered in place of its id. */
  lemma CreatedMediaRenders(st: Store, id: nat, c: MediaCreate)
    requires id !in st.media
    requires Consistent(st)
    requires CreateMedia(st, id, c).Success?
    ensures var o := GetObject(CreateMedia(st, id, c).value, "media", id);
      && o.Success? && o.value.OrderedDict?
      && o.value.fields.Keys == {"id", "width", "height", "media_content"}
      && o.value.fields["id"] == Int(id)
      && o.value.fields["width"] == Float(c.width) && o.value.fields["height"] == Float(c.height)
      && o.value.fields["media_content"]
         == OrderedDict(MediaContentData(c.mediaContent.value, st.mediaContents[c.mediaContent.value]))
  {
    var st' := CreateMedia(st, id, c).value;
    assert st'.media[id] == Media(c.width, c.height, c.mediaContent.value);
    assert Renderable(st', MediaModel, id);
  }

  lemma GetObjectShaped(st: Store, modelName: string, shapeId: nat)
    ensures GetObject(st, modelName, shapeId).Success? ==> GeometryShaped(GetObject(st, modelName, shapeId).value)
  {
    if GeometryFor(modelName).Some? {
      RegistryFieldsAreSerializerFields(GeometryFor(modelName).value);
    }
  }

  /** The Shape's columns and a geometry's fields meet what `ReshapeShapeDict` asks. */
  lemma ShapeFieldsApart(s: Shape, obj: Value)
    requires GeometryShaped(obj)
    ensures "shadow_offset_x" in ShapeOwnColumns(s) && "shadow_offset_y" in ShapeOwnColumns(s)
    ensures ShapeOwnColumns(s).Keys !! AddedKeys
    ensures (obj.fields.Keys - {"id"}) !! (ShapeOwnColumns(s).Keys + AddedKeys)
  {
    ShapeOwnColumnsKeys(s);
    OwnColumnsAvoidAddedKeys();
    GeometryFieldsAvoidShapeKeys();
    SubsetDisjoint(obj.fields.Keys - {"id"}, GeometryFieldNames, OwnColumnNames + AddedKeys);
  }

  /** The four ways `to_representation` can end: the Shape's ContentType row is
      missing, `get_object` raises, the content type is not in
      `CONTENT_TYPE_TO_TYPE` (KeyError), or the `{type, config}` pair. */
  lemma ToRepresentationOutcome(st: Store, id: nat, s: Shape)
    ensures s.contentType !in st.contentTypes ==> ToRepresentation(st, id, s) == Failure(DoesNotExist("ContentType"))
    ensures s.contentType in st.contentTypes ==>
      var obj := GetObject(st, st.contentTypes[s.contentType], s.shapeId);
      var key := NatToString(s.contentType);
      && (obj.Failure? ==> ToRepresentation(st, id, s) == Failure(obj.error))
      && (obj.Success? && key !in ContentTypeToType ==> ToRepresentation(st, id, s) == Failure(KeyError(key)))
      && (obj.Success? && key in ContentTypeToType ==>
            ToRepresentation(st, id, s)
            == Success(Wrap(key, ShapeConfig(id, s, obj.value.fields))))
  {
    if s.contentType in st.contentTypes {
      var obj := GetObject(st, st.contentTypes[s.contentType], s.shapeId);
      if obj.Success? {
        GetObjectShaped(st, st.contentTypes[s.contentType], s.shapeId);
        ShapeFieldsApart(s, obj.value);
        ReshapeShapeDict(ShapeOwnColumns(s), Int(id), s.contentType, obj.value);
      }
    }
  }

  /** A Shape renders exactly when its ContentType row exists, is one of the
      four installed ones, and its geometry row exists. */
  lemma ToRepresentationSucceeds(st: Store, id: nat, s: Shape)
    ensures ToRepresentation(st, id, s).Success? <==>
      && s.contentType in st.contentTypes
      && s.contentType in InstalledContentTypes
      && GetObject(st, st.contentTypes[s.contentType], s.shapeId).Success?
  {
    ToRepresentationOutcome(st, id, s);
    InstalledIffListed(s.contentType);
  }

  /** A rendered Shape has exactly the keys `type` and `config`, with `type`
      looked up by the content type id. */
  lemma ToRepresentationShape(st: Store, id: nat, s: Shape)
    ensures var r := ToRepresentation(st, id, s);
      r.Success? ==>
        && r.value.Keys == {"type", "config"}
        && NatToString(s.contentType) in ContentTypeToType
        && r.value["type"] == Str(ContentTypeToType[NatToString(s.contentType)])
  {
    ToRepresentationOutcome(st, id, s);
    var r := ToRepresentation(st, id, s);
    if r.Success? {
      assert s.contentType in st.contentTypes;
      var obj := GetObject(st, st.contentTypes[s.contentType], s.shapeId);
      var key := NatToString(s.contentType);
      assert obj.Success? && key in ContentTypeToType;
    }
  }

  lemma InstalledIffListed(ct: nat)
    ensures ct in InstalledContentTypes <==> NatToString(ct) in ContentTypeToType
  {
    TableKeys();
  }

  // ------------------------------------------------------------------
  // What `config` holds
  // ------------------------------------------------------------------

  /** The names the config is built from are all snake_case keys. */
  lemma ColumnNamesSnake()
    ensures forall k :: k in OwnColumnNames ==> IsSnakeKey(k)
  {
    PlacementNamesSnake();
    StyleNamesSnake();
    ShadowNamesSnake();
    ShadowOffsetNamesSnake();
  }

  lemma PlacementNamesSnake()
    ensures forall k :: k in {"x", "y", "offset_x", "offset_y", "scale_x", "scale_y", "rotation"} ==> IsSnakeKey(k)
  {
    forall k | k in {"x", "y", "offset_x", "offset_y", "scale_x", "scale_y", "rotation"} ensures IsSnakeKey(k) {
      assert SnakeFrom(k, 0);
      SnakeFromIsSnakeKey(k);
    }
  }

  lemma StyleNamesSnake()
    ensures forall k :: k in {"fill", "stroke", "stroke_width", "opacity", "draggable"} ==> IsSnakeKey(k)
  {
    forall k | k in {"fill", "stroke", "stroke_width", "opacity", "draggable"} ensures IsSnakeKey(k) {
      assert SnakeFrom(k, 0);
      SnakeFromIsSnakeKey(k);
    }
  }

  lemma ShadowNamesSnake()
    ensures forall k :: k in {"shadow_color", "shadow_blurr", "shadow_opacity"} ==> IsSnakeKey(k)
  {
    forall k | k in {"shadow_color", "shadow_blurr", "shadow_opacity"} ensures IsSnakeKey(k) {
      assert SnakeFrom(k, 0);
      SnakeFromIsSnakeKey(k);
    }
  }

  lemma ShadowOffsetNamesSnake()
    ensures forall k :: k in {"shadow_offset_x", "shadow_offset_y"} ==> IsSnakeKey(k)
  {
    OffsetNameSnake("shadow_offset_x");
    OffsetNameSnake("shadow_offset_y");
  }

  /** An offset name is snake_case, shown one index at a time from the end. */
  lemma OffsetNameSnake(k: string)
    requires k == "shadow_offset_x" || k == "shadow_offset_y"
    ensures IsSnakeKey(k)
  {
    assert SnakeFrom(k, 15);
    assert SnakeFrom(k, 14);
    assert SnakeFrom(k, 13);
    assert SnakeFrom(k, 12);
    assert SnakeFrom(k, 11);
    assert SnakeFrom(k, 10);
    assert SnakeFrom(k, 9);
    assert SnakeFrom(k, 8);
    assert SnakeFrom(k, 7);
    assert SnakeFrom(k, 6);
    assert SnakeFrom(k, 5);
    assert SnakeFrom(k, 4);
    assert SnakeFrom(k, 3);
    assert SnakeFrom(k, 2);
    assert SnakeFrom(k, 1);
    assert SnakeFrom(k, 0);
    SnakeFromIsSnakeKey(k);
  }

  lemma GeometryNamesSnake()
    ensures forall k :: k in GeometryFieldNames + {"shadow_offset"} ==> IsSnakeKey(k)
  {
    forall k | k in GeometryFieldNames + {"shadow_offset"} ensures IsSnakeKey(k) {
      assert SnakeFrom(k, 0);
      SnakeFromIsSnakeKey(k);
    }
  }

  /** The names the pipeline drops are snake_case keys outside every field group. */
  lemma DroppedNames()
    ensures IsSnakeKey("content_type")
    ensures forall k :: k in DroppedKeys ==>
      IsSnakeKey(k) && k !in OwnColumnNames && k !in GeometryFieldNames && k !in AddedKeys
  {
    DroppedNamesSnake();
    DroppedNamesApart();
  }

  lemma DroppedNamesSnake()
    ensures IsSnakeKey("content_type")
    ensures forall k :: k in DroppedKeys ==> IsSnakeKey(k)
  {
    forall k | k in DroppedKeys + {"content_type"} ensures IsSnakeKey(k) {
      assert SnakeFrom(k, 0);
      SnakeFromIsSnakeKey(k);
    }
  }

  lemma DroppedNamesApart()
    ensures DroppedKeys !! OwnColumnNames + GeometryFieldNames + AddedKeys
  {
    DroppedNotColumns();
    assert DroppedKeys !! GeometryFieldNames;
    assert DroppedKeys !! AddedKeys;
  }

  lemma DroppedNotColumns()
    ensures DroppedKeys !! OwnColumnNames
  {
    assert "shape_id" !in OwnColumnNames;
    assert "layout" !in OwnColumnNames;
    assert "id" !in OwnColumnNames;
  }

  lemma ConfigSourceKeys(own: PyDict, id: Value, geometry: PyDict)
    requires "shadow_offset_x" in own && "shadow_offset_y" in own
    ensures ConfigSource(own, id, geometry).Keys
      == own.Keys - {"shadow_offset_x", "shadow_offset_y"} + {"_id", "shadow_offset"} + (geometry.Keys - {"id"})
  {
  }

  /** The names the serializer data never carries into `config`: the
      write-only columns and the geometry row's `id`. */
  const DroppedKeys: set<string> := {"shape_id", "layout", "id"}

  /** Columns as the Shape's are: snake_case names, both flat offsets, and
      none of the added or dropped names. */
  predicate ColumnsApart(own: PyDict) {
    && "shadow_offset_x" in own && "shadow_offset_y" in own
    && forall k :: k in own ==> IsSnakeKey(k) && k !in AddedKeys && k !in DroppedKeys
  }

  /** Geometry fields as the serializers emit them: snake_case names other
      than the columns and the added or dropped names, bar the `id`. */
  predicate GeometryApart(own: PyDict, geometry: PyDict) {
    forall k :: k in geometry && k != "id" ==> IsSnakeKey(k) && k !in own && k !in AddedKeys && k !in DroppedKeys
  }

  lemma ShapeColumnsApart(s: Shape)
    ensures ColumnsApart(ShapeOwnColumns(s))
  {
    ShapeOwnColumnsKeys(s);
    ColumnNamesSnake();
    DroppedNames();
    OwnColumnsAvoidAddedKeys();
  }

  lemma ShapeGeometryApart(s: Shape, geometry: PyDict)
    requires geometry.Keys - {"id"} <= GeometryFieldNames
    ensures GeometryApart(ShapeOwnColumns(s), geometry)
  {
    ShapeOwnColumnsKeys(s);
    GeometryNamesSnake();
    DroppedNames();
    GeometryFieldsAvoidShapeKeys();
  }

  lemma ConfigSourceSnake(own: PyDict, id: Value, geometry: PyDict)
    requires ColumnsApart(own) && GeometryApart(own, geometry)
    ensures HasSnakeKeys(ConfigSource(own, id, geometry))
  {
    var source := ConfigSource(own, id, geometry);
    ConfigSourceKeys(own, id, geometry);
    GeometryNamesSnake();
    forall k | k in source ensures IsSnakeKey(k) || k == "_id" {
      if k in own {
      } else if k in geometry && k != "id" {
      } else {
        assert k == "_id" || k == "shadow_offset";
      }
    }
  }

  /** A snake_case name absent from a dict of snake_case keys is absent, camelCased, from the renamed dict. */
  lemma AbsentAfterRename(source: PyDict, name: string)
    requires HasSnakeKeys(source)
    requires IsSnakeKey(name)
    requires name !in source
    ensures SnakeToCamel(name) !in DictKeysSnakeToCamel(source)
  {
    if SnakeToCamel(name) in DictKeysSnakeToCamel(source) {
      var k :| k in source && SnakeToCamel(k) == SnakeToCamel(name);
      SnakeToCamelInjective(k, name);
    }
  }

  /** The dict `config` is built from: columns but the flat offsets, `_id`,
      the nested offset, and geometry fields but `id`, each with its value. */
  lemma ConfigSourceValues(own: PyDict, id: Value, geometry: PyDict)
    requires ColumnsApart(own) && GeometryApart(own, geometry)
    ensures var source := ConfigSource(own, id, geometry);
      && "_id" in source && source["_id"] == id
      && "shadow_offset" in source
      && source["shadow_offset"] == Dict(map["x" := own["shadow_offset_x"], "y" := own["shadow_offset_y"]])
      && (forall k :: k in own && k != "shadow_offset_x" && k != "shadow_offset_y" ==> k in source && source[k] == own[k])
      && (forall k :: k in geometry && k != "id" ==> k in source && source[k] == geometry[k])
  {
    var source := ConfigSource(own, id, geometry);
    forall k | k in own && k != "shadow_offset_x" && k != "shadow_offset_y" ensures k in source && source[k] == own[k] {
      assert k !in AddedKeys;
      assert !(k in geometry && k != "id");
    }
  }

  /** Neither the dropped names, `content_type` nor the flat offsets reach the dict `config` is built from. */
  lemma ConfigSourceAbsent(own: PyDict, id: Value, geometry: PyDict)
    requires ColumnsApart(own) && GeometryApart(own, geometry)
    ensures forall k :: k in DroppedKeys + {"content_type", "shadow_offset_x", "shadow_offset_y"} ==>
      k !in ConfigSource(own, id, geometry)
  {
    ConfigSourceKeys(own, id, geometry);
  }

  /** `ConfigKeys` for any columns and geometry kept apart. */
  lemma RenamedConfigKeys(own: PyDict, id: Value, geometry: PyDict)
    requires ColumnsApart(own) && GeometryApart(own, geometry)
    ensures var config := DictKeysSnakeToCamel(ConfigSource(own, id, geometry));
      && "_id" in config && config["_id"] == id
      && SnakeToCamel("shadow_offset") in config
      && config[SnakeToCamel("shadow_offset")] == Dict(map["x" := own["shadow_offset_x"], "y" := own["shadow_offset_y"]])
      && (forall k :: k in DroppedKeys ==> SnakeToCamel(k) !in config)
      && SnakeToCamel("content_type") !in config
      && SnakeToCamel("shadow_offset_x") !in config
      && SnakeToCamel("shadow_offset_y") !in config
  {
    var source := ConfigSource(own, id, geometry);
    ConfigSourceSnake(own, id, geometry);
    ConfigSourceValues(own, id, geometry);
    ConfigSourceAbsent(own, id, geometry);
    DroppedNamesSnake();
    forall k | k in DroppedKeys ensures SnakeToCamel(k) !in DictKeysSnakeToCamel(source) {
      AbsentAfterRename(source, k);
    }
    AbsentAfterRename(source, "content_type");
    AbsentAfterRename(source, "shadow_offset_x");
    AbsentAfterRename(source, "shadow_offset_y");
  }

  /** `ConfigValues` for any columns and geometry kept apart. */
  lemma RenamedConfigValues(own: PyDict, id: Value, geometry: PyDict)
    requires ColumnsApart(own) && GeometryApart(own, geometry)
    ensures var config := DictKeysSnakeToCamel(ConfigSource(own, id, geometry));
      forall k :: k in own && k != "shadow_offset_x" && k != "shadow_offset_y" ==>
        SnakeToCamel(k) in config && config[SnakeToCamel(k)] == own[k]
    ensures var config := DictKeysSnakeToCamel(ConfigSource(own, id, geometry));
      forall k :: k in geometry && k != "id" ==> SnakeToCamel(k) in config && config[SnakeToCamel(k)] == geometry[k]
  {
    var source := ConfigSource(own, id, geometry);
    ConfigSourceSnake(own, id, geometry);
    ConfigSourceValues(own, id, geometry);
  }

  /** What `config` holds besides the copied fields: the Shape's `_id` under
      `_id`, the nested shadow offset, and neither the geometry `id`,
      `content_type`, the write-only `shape_id` and `layout`, nor the flat
      offsets, under any casing the pipeline produces. */
  lemma ConfigKeys(id: nat, s: Shape, geometry: PyDict)
    requires geometry.Keys - {"id"} <= GeometryFieldNames
    ensures var config := ShapeConfig(id, s, geometry);
      && "_id" in config && config["_id"] == Int(id)
      && "id" !in config
      && SnakeToCamel("shadow_offset") in config
      && config[SnakeToCamel("shadow_offset")] == Dict(map["x" := Float(s.shadowOffsetX), "y" := Float(s.shadowOffsetY)])
      && SnakeToCamel("content_type") !in config
      && SnakeToCamel("shape_id") !in config
      && SnakeToCamel("layout") !in config
      && SnakeToCamel("shadow_offset_x") !in config
      && SnakeToCamel("shadow_offset_y") !in config
  {
    ShapeColumnsApart(s);
    ShapeGeometryApart(s, geometry);
    ShapeOwnColumnsKeys(s);
    RenamedConfigKeys(ShapeOwnColumns(s), Int(id), geometry);
    IdNotRenamed();
  }

  lemma IdNotRenamed()
    ensures SnakeToCamel("id") == "id"
  {
    NoUnderscoreUnchanged("id");
  }

  /** Every other Shape column and every geometry field but `id` reaches
      `config` camelCased, with its value unchanged. */
  lemma ConfigValues(id: nat, s: Shape, geometry: PyDict)
    requires geometry.Keys - {"id"} <= GeometryFieldNames
    ensures var config := ShapeConfig(id, s, geometry);
      forall c: Column :: c != ShadowOffsetX && c != ShadowOffsetY ==>
        SnakeToCamel(c.Name()) in config && config[SnakeToCamel(c.Name())] == ColumnValue(s, c)
    ensures var config := ShapeConfig(id, s, geometry);
      forall k :: k in geometry && k != "id" ==> SnakeToCamel(k) in config && config[SnakeToCamel(k)] == geometry[k]
  {
    var own := ShapeOwnColumns(s);
    ShapeColumnsApart(s);
    ShapeGeometryApart(s, geometry);
    RenamedConfigValues(own, Int(id), geometry);
    forall c: Column | c != ShadowOffsetX && c != ShadowOffsetY
      ensures c.Name() in own && c.Name() != "shadow_offset_x" && c.Name() != "shadow_offset_y"
      ensures own[c.Name()] == ColumnValue(s, c)
    {
      ShapeOwnColumnsAgree(s, c);
      ColumnNamesDistinct(c);
    }
  }

  lemma ColumnNamesDistinct(c: Column)
    ensures c.Name() == "shadow_offset_x" <==> c == ShadowOffsetX
    ensures c.Name() == "shadow_offset_y" <==> c == ShadowOffsetY
  {
  }

  // ------------------------------------------------------------------
  // Rendering and the store
  // ------------------------------------------------------------------

  /** Rendering reads only the ContentType rows, the geometry tables and the MediaContents. */
  lemma RenderingReadsGeometry(a: Store, b: Store, id: nat, s: Shape)
    requires a.contentTypes == b.contentTypes && SameGeometry(a, b) && a.mediaContents == b.mediaContents
    ensures ToRepresentation(a, id, s) == ToRepresentation(b, id, s)
  {
    if s.contentType in a.contentTypes {
      assert GetObject(a, a.contentTypes[s.contentType], s.shapeId) == GetObject(b, b.contentTypes[s.contentType], s.shapeId);
    }
  }

  /** Deleting one Shape changes how no other Shape renders, even one that
      shares its geometry row: the row is not deleted with it. */
  lemma DeleteShapeKeepsOthersRendering(st: Store, gone: nat, id: nat)
    requires gone in st.shapes && Consistent(st)
    requires id in st.shapes && id != gone
    ensures id in DeleteShape(st, gone).shapes
    ensures ToRepresentation(DeleteShape(st, gone), id, DeleteShape(st, gone).shapes[id])
         == ToRepresentation(st, id, st.shapes[id])
  {
    var r := DeleteShape(st, gone);
    DeleteShapesUnchanged(st, gone);
    RenderingReadsGeometry(r, st, id, st.shapes[id]);
  }

  lemma DeleteShapesUnchanged(st: Store, gone: nat)
    requires gone in st.shapes && Consistent(st)
    ensures DeleteShape(st, gone).contentTypes == st.contentTypes
    ensures DeleteShape(st, gone).mediaContents == st.mediaContents
  {
  }

  /** Deleting a MediaContent cascades to the Media rows that show it, so a
      Shape placing one of those Media no longer renders: `get_object` finds
      no Media row. */
  lemma DeleteMediaContentBreaksItsShapes(st: Store, m: nat, id: nat, s: Shape)
    requires m in st.mediaContents && Consistent(st)
    requires s.contentType in st.contentTypes && st.contentTypes[s.contentType] == "media"
    requires s.shapeId in st.media && st.media[s.shapeId].mediaContent == m
    ensures ToRepresentation(DeleteMediaContent(st, m), id, s) == Failure(DoesNotExist("Media"))
  {
    var r := DeleteMediaContent(st, m);
    assert r.contentTypes == st.contentTypes;
    assert s.shapeId !in r.media;
    ToRepresentationOutcome(r, id, s);
  }

  // ------------------------------------------------------------------
  // LayoutSerializer
  // ------------------------------------------------------------------

  /** Each item rendered in turn, stopping at the first failure, as a
      `many=True` serializer does. */
  ghost function RenderEach(render: nat -> Outcome<PyDict>, ids: seq<nat>): (r: Outcome<seq<Value>>)
    ensures r.Success? <==> forall i :: 0 <= i < |ids| ==> render(ids[i]).Success?
    ensures r.Success? ==> |r.value| == |ids|
    ensures r.Success? ==> forall i :: 0 <= i < |ids| ==> r.value[i] == Dict(render(ids[i]).value)
    ensures r.Failure? ==> exists i: nat :: FirstFailure(render, ids, i) && r.error == render(ids[i]).error
    decreases |ids|
  {
    if ids == [] then Success([])
    else
      var head := render(ids[0]);
      if head.Failure? then
        assert FirstFailure(render, ids, 0);
        Failure(head.error)
      else
        var tail := RenderEach(render, ids[1..]);
        if tail.Failure? then
          var i: nat :| FirstFailure(render, ids[1..], i) && tail.error == render(ids[1..][i]).error;
          assert FirstFailure(render, ids, i + 1);
          Failure(tail.error)
        else
          Success([Dict(head.value)] + tail.value)
  }

  /** Item `ids[i]` fails to render and every item before it renders. */
  ghost predicate FirstFailure(render: nat -> Outcome<PyDict>, ids: seq<nat>, i: nat) {
    && i < |ids|
    && render(ids[i]).Failure?
    && forall j :: 0 <= j < i ==> render(ids[j]).Success?
  }

  /** A Shape row rendered by its primary key. */
  ghost function RenderShape(st: Store, id: nat): Outcome<PyDict> {
    if id in st.shapes then ToRepresentation(st, id, st.shapes[id]) else Failure(DoesNotExist("Shape"))
  }

  /** `Shape.objects.filter(layout=id)`: each Shape of the Layout exactly once,
      in the order the database returns them. */
  predicate LayoutQuery(st: Store, id: nat, order: seq<nat>) {
    && (forall i :: 0 <= i < |order| ==> order[i] in st.shapes && st.shapes[order[i]].layout == id)
    && (forall s :: s in st.shapes && st.shapes[s].layout == id ==> s in order)
    && (forall i, j :: 0 <= i < j < |order| ==> order[i] != order[j])
  }

  /** `LayoutSerializer.to_representation`: the Layout's `id` and `template`
      and its Shapes rendered, in query order. */
  ghost function LayoutRepresentation(st: Store, id: nat, order: seq<nat>): (r: Outcome<PyDict>)
    requires id in st.layouts
    requires LayoutQuery(st, id, order)
    ensures r.Success? <==>
      forall s :: s in st.shapes && st.shapes[s].layout == id ==> ToRepresentation(st, s, st.shapes[s]).Success?
    ensures r.Success? ==> r.value.Keys == {"id", "template", "shapes"}
    ensures r.Success? ==> r.value["id"] == Int(id) && r.value["template"] == Int(st.layouts[id].template)
    ensures r.Success? ==> r.value["shapes"].List? && |r.value["shapes"].items| == |order|
    ensures r.Success? ==> forall i :: 0 <= i < |order| ==>
      r.value["shapes"].items[i] == Dict(ToRepresentation(st, order[i], st.shapes[order[i]]).value)
  {
    var shapes :- RenderEach((s: nat) => RenderShape(st, s), order);
    Success(map["id" := Int(id), "template" := Int(st.layouts[id].template), "shapes" := List(shapes)])
  }

  /** The `_id`s in a rendered Layout's `shapes` are its Shapes, each once. */
  lemma LayoutListsItsShapes(st: Store, id: nat, order: seq<nat>)
    requires id in st.layouts
    requires LayoutQuery(st, id, order)
    ensures var r := LayoutRepresentation(st, id, order);
      r.Success? ==> forall i :: 0 <= i < |order| ==> ConfigId(r.value["shapes"].items[i]) == Some(order[i])
  {
    var r := LayoutRepresentation(st, id, order);
    if r.Success? {
      forall i | 0 <= i < |order| ensures ConfigId(r.value["shapes"].items[i]) == Some(order[i]) {
        RenderedConfigId(st, order[i], st.shapes[order[i]]);
      }
    }
  }

  /** The Shape id an item of a `shapes` list carries, as `config._id`. */
  function ConfigId(item: Value): Option<int> {
    if item.Dict? && "config" in item.fields && item.fields["config"].Dict? && "_id" in item.fields["config"].fields
       && item.fields["config"].fields["_id"].Int?
    then Some(item.fields["config"].fields["_id"].i)
    else None
  }

  lemma RenderedConfigId(st: Store, id: nat, s: Shape)
    ensures ToRepresentation(st, id, s).Success? ==> ConfigId(Dict(ToRepresentation(st, id, s).value)) == Some(id)
  {
    ToRepresentationOutcome(st, id, s);
    if ToRepresentation(st, id, s).Success? {
      var obj := GetObject(st, st.contentTypes[s.contentType], s.shapeId);
      GetObjectShaped(st, st.contentTypes[s.contentType], s.shapeId);
      WrappedConfigId(NatToString(s.contentType), id, s, obj.value.fields);
    }
  }

  lemma WrappedConfigId(key: string, id: nat, s: Shape, geometry: PyDict)
    requires key in ContentTypeToType
    requires geometry.Keys - {"id"} <= GeometryFieldNames
    ensures ConfigId(Dict(Wrap(key, ShapeConfig(id, s, geometry)))) == Some(id)
  {
    ConfigKeys(id, s, geometry);
  }

  // ------------------------------------------------------------------
  // A rectangle, end to end
  // ------------------------------------------------------------------

  /** `d.get(k)`. */
  function Get(d: PyDict, k: string): Option<Value> {
    if k in d then Some(d[k]) else None
  }

  /** The `config` of a rendered Shape, if it rendered. */
  function ConfigOf(r: Outcome<PyDict>): PyDict {
    if r.Success? && "config" in r.value && r.value["config"].IsDict() then r.value["config"].fields else map[]
  }

  /** A Shape whose content type is the installed rectangle type and whose
      rectangle row exists renders as a `v-rect`, its config built over the
      rectangle serializer's data. */
  lemma RectangleRenders(st: Store, id: nat, s: Shape)
    requires s.contentType == 4 && 4 in st.contentTypes && st.contentTypes[4] == "rectangle"
    requires s.shapeId in st.rectangles
    ensures var r := ToRepresentation(st, id, s);
      && r.Success?
      && Get(r.value, "type") == Some(Str("v-rect"))
      && ConfigOf(r) == ShapeConfig(id, s, RectangleData(s.shapeId, st.rectangles[s.shapeId]))
  {
    var data := RectangleData(s.shapeId, st.rectangles[s.shapeId]);
    assert GetObject(st, "rectangle", s.shapeId) == Success(OrderedDict(data));
    assert NatToString(4) == "4";
    RendersWith(st, id, s, OrderedDict(data));
    WrappedRectangle(ShapeConfig(id, s, data));
  }

  lemma WrappedRectangle(config: PyDict)
    ensures Get(Wrap("4", config), "type") == Some(Str("v-rect"))
    ensures ConfigOf(Success(Wrap("4", config))) == config
  {
  }

  /** When `get_object` succeeds for a listed content type, the rendering is
      the `{type, config}` pair over the object's fields. */
  lemma RendersWith(st: Store, id: nat, s: Shape, obj: Value)
    requires s.contentType in st.contentTypes
    requires NatToString(s.contentType) in ContentTypeToType
    requires GetObject(st, st.contentTypes[s.contentType], s.shapeId) == Success(obj)
    ensures ToRepresentation(st, id, s) == Success(Wrap(NatToString(s.contentType), ShapeConfig(id, s, obj.fields)))
  {
    ToRepresentationOutcome(st, id, s);
  }

  /** A geometry field whose name has no underscore keeps its name in `config`. */
  lemma FieldInConfig(id: nat, s: Shape, geometry: PyDict, k: string)
    requires geometry.Keys - {"id"} <= GeometryFieldNames
    requires k in geometry && k != "id"
    requires SnakeToCamel(k) == k
    ensures Get(ShapeConfig(id, s, geometry), k) == Some(geometry[k])
  {
    ConfigValues(id, s, geometry);
  }

  lemma SizeNamesPlain()
    ensures SnakeToCamel("width") == "width" && SnakeToCamel("height") == "height"
  {
    NoUnderscoreUnchanged("width");
    NoUnderscoreUnchanged("height");
  }

  /** A Shape column whose name has no underscore keeps its name in `config`. */
  lemma ColumnInConfig(id: nat, s: Shape, geometry: PyDict, c: Column)
    requires geometry.Keys - {"id"} <= GeometryFieldNames
    requires c != ShadowOffsetX && c != ShadowOffsetY
    requires SnakeToCamel(c.Name()) == c.Name()
    ensures Get(ShapeConfig(id, s, geometry), c.Name()) == Some(ColumnValue(s, c))
  {
    ConfigValues(id, s, geometry);
  }

  lemma PlacementNamesPlain()
    ensures SnakeToCamel(X.Name()) == X.Name() && SnakeToCamel(Y.Name()) == Y.Name()
    ensures SnakeToCamel(Draggable.Name()) == Draggable.Name()
  {
    NoUnderscoreUnchanged("x");
    NoUnderscoreUnchanged("y");
    NoUnderscoreUnchanged("draggable");
  }

  /** The config over a rectangle's data: the rectangle's size and the Shape's `_id`, and no geometry `id`. */
  lemma RectangleConfig(id: nat, s: Shape, rowId: nat, rect: Rectangle)
    ensures var config := ShapeConfig(id, s, RectangleData(rowId, rect));
      && Get(config, "_id") == Some(Int(id))
      && "id" !in config
      && Get(config, "width") == Some(Float(rect.width))
      && Get(config, "height") == Some(Float(rect.height))
  {
    var fields := RectangleData(rowId, rect);
    assert fields.Keys - {"id"} <= GeometryFieldNames;
    ConfigKeys(id, s, fields);
    SizeNamesPlain();
    FieldInConfig(id, s, fields, "width");
    FieldInConfig(id, s, fields, "height");
  }

  /** The Shape's placement and `draggable` reach the config of any rendering under their own names. */
  lemma PlacementInConfig(id: nat, s: Shape, geometry: PyDict)
    requires geometry.Keys - {"id"} <= GeometryFieldNames
    ensures var config := ShapeConfig(id, s, geometry);
      && Get(config, "x") == Some(Float(s.x))
      && Get(config, "y") == Some(Float(s.y))
      && Get(config, "draggable") == Some(Str(s.draggable))
  {
    PlacementNamesPlain();
    ColumnInConfig(id, s, geometry, X);
    ColumnInConfig(id, s, geometry, Y);
    ColumnInConfig(id, s, geometry, Draggable);
  }

  /** A Shape created at (1, 30) with every other column left out. */
  function ScenarioShape(): Shape {
    NewShape(ShapeCreate(1, 4, 7, NoShapeOptions.(x := Some(1.0), y := Some(30.0))))
  }

  /** It points at rectangle 7 and keeps the declared defaults: `draggable`
      is the text "True" and the shadow offsets are 0. */
  lemma ScenarioShapeColumns()
    ensures ScenarioShape().contentType == 4 && ScenarioShape().shapeId == 7
    ensures ScenarioShape().x == 1.0 && ScenarioShape().y == 30.0
    ensures ScenarioShape().draggable == "True"
    ensures ScenarioShape().shadowOffsetX == 0.0 && ScenarioShape().shadowOffsetY == 0.0
  {
    var s := ScenarioShape();
    assert ColumnValue(s, X) == Float(1.0) && ColumnValue(s, Y) == Float(30.0);
    assert ColumnValue(s, Draggable) == Str("True");
    assert ColumnValue(s, ShadowOffsetX) == Float(0.0) && ColumnValue(s, ShadowOffsetY) == Float(0.0);
  }

  /** Rendering that Shape over a 1000 by 2000 rectangle: a `v-rect` whose
      config carries the rectangle's size, the placement, the text
      `draggable` default, the zero shadow offset nested under the camelCased
      `shadow_offset`, and the Shape's `_id`. */
  lemma RectangleScenario(st: Store)
    requires 4 in st.contentTypes && st.contentTypes[4] == "rectangle"
    requires 7 in st.rectangles && st.rectangles[7] == Rectangle(1000.0, 2000.0)
    ensures var r := ToRepresentation(st, 3, ScenarioShape());
      var config := ConfigOf(r);
      && r.Success?
      && Get(r.value, "type") == Some(Str("v-rect"))
      && Get(config, "_id") == Some(Int(3))
      && "id" !in config
      && Get(config, "width") == Some(Float(1000.0))
      && Get(config, "height") == Some(Float(2000.0))
      && Get(config, "x") == Some(Float(1.0))
      && Get(config, "y") == Some(Float(30.0))
      && Get(config, "draggable") == Some(Str("True"))
  {
    var s := ScenarioShape();
    ScenarioShapeColumns();
    RectangleRenders(st, 3, s);
    var data := RectangleData(7, Rectangle(1000.0, 2000.0));
    RectangleConfig(3, s, 7, Rectangle(1000.0, 2000.0));
    assert data.Keys - {"id"} <= GeometryFieldNames;
    PlacementInConfig(3, s, data);
  }
}

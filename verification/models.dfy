/**
  The persisted records: Template, Layout, the Shape placement, the four
  geometry records (Rectangle, Text, Circle, Media), MediaContent and
  LayoutShapeRelation, with their column defaults and length bounds.

  Create inputs carry the required columns and optional overrides; update
  inputs make every column optional, as the serializers do when they are bound
  to an existing instance. Creating is "the declared defaults, overridden by
  what was given"; updating is "the current values, overridden by what was
  given".
 */
module Models {
  import opened Wrappers
  import opened PyValues

  // ------------------------------------------------------------------
  // Text columns (CharField, no `blank=True`)
  // ------------------------------------------------------------------

  const TemplateNameMaxLength: nat := 64
  const ColorMaxLength: nat := 32
  const DraggableMaxLength: nat := 16
  const FontFamilyMaxLength: nat := 32
  const AltMaxLength: nat := 128

  /** `str.isspace()`: the characters `str.strip()` removes from either end. */
  predicate IsSpace(c: char) {
    || c == ' ' || '\t' <= c <= '\r' || '\U{1C}' <= c <= '\U{1F}'
    || c == '\U{85}' || c == '\U{A0}' || c == '\U{1680}' || '\U{2000}' <= c <= '\U{200A}'
    || c == '\U{2028}' || c == '\U{2029}' || c == '\U{202F}' || c == '\U{205F}' || c == '\U{3000}'
  }

  /** `s` with its leading white space removed. */
  function TrimStart(s: string): (r: string)
    ensures |r| <= |s| && r == s[|s| - |r|..]
    ensures forall i :: 0 <= i < |s| - |r| ==> IsSpace(s[i])
    ensures |r| > 0 ==> !IsSpace(r[0])
  {
    if |s| > 0 && IsSpace(s[0]) then TrimStart(s[1..]) else s
  }

  /** `s` with its trailing white space removed. */
  function TrimEnd(s: string): (r: string)
    ensures |r| <= |s| && r == s[..|r|]
    ensures forall i :: |r| <= i < |s| ==> IsSpace(s[i])
    ensures |r| > 0 ==> !IsSpace(r[|r| - 1])
  {
    if |s| > 0 && IsSpace(s[|s| - 1]) then TrimEnd(s[..|s| - 1]) else s
  }

  /** `str.strip()`, which a CharField applies to its input (`trim_whitespace`). */
  function Strip(s: string): (r: string)
    ensures |r| <= |s|
    ensures |r| > 0 ==> !IsSpace(r[0]) && !IsSpace(r[|r| - 1])
  {
    TrimEnd(TrimStart(s))
  }

  /** The stripped text is `s` without a run of white space at each end. */
  lemma StripIsInfix(s: string)
    ensures exists i, j ::
      && 0 <= i <= j <= |s| && Strip(s) == s[i..j]
      && (forall k :: 0 <= k < i ==> IsSpace(s[k]))
      && (forall k :: j <= k < |s| ==> IsSpace(s[k]))
  {
    var i, j := StripBounds(s);
  }

  /** Where `Strip` cuts `s`. */
  lemma StripBounds(s: string) returns (i: nat, j: nat)
    ensures i <= j <= |s| && Strip(s) == s[i..j]
    ensures forall k :: 0 <= k < i ==> IsSpace(s[k])
    ensures forall k :: j <= k < |s| ==> IsSpace(s[k])
  {
    var t := TrimStart(s);
    var u := TrimEnd(t);
    i := |s| - |t|;
    j := i + |u|;
    assert t == s[i..] && u == t[..|u|];
    assert Strip(s) == u;
    assert forall k :: 0 <= k < i ==> IsSpace(s[k]);
    TrimmedInfix(s, t, u, i);
  }

  /** When `t` is the suffix of `s` from `i` and `u` is a prefix of `t` followed
      only by white space, `u` is the infix of `s` from `i` and everything
      after it in `s` is white space. */
  lemma TrimmedInfix(s: string, t: string, u: string, i: nat)
    requires i <= |s| && t == s[i..] && |u| <= |t| && u == t[..|u|]
    requires forall k :: |u| <= k < |t| ==> IsSpace(t[k])
    ensures u == s[i..i + |u|]
    ensures forall k :: i + |u| <= k < |s| ==> IsSpace(s[k])
  {
    forall k | i + |u| <= k < |s|
      ensures IsSpace(s[k])
    {
      assert s[k] == t[k - i];
    }
  }

  /** Stripping is idempotent: what the serializer stores passes its own trim unchanged. */
  lemma StripIdempotent(s: string)
    ensures Strip(Strip(s)) == Strip(s)
  {
    var r := Strip(s);
    if |r| > 0 {
      assert TrimStart(r) == r;
      assert TrimEnd(r) == r;
    }
  }

  /** A value strips to nothing exactly when it is all white space. */
  lemma StripBlank(s: string)
    ensures Strip(s) == [] <==> forall i :: 0 <= i < |s| ==> IsSpace(s[i])
  {
    if forall i :: 0 <= i < |s| ==> IsSpace(s[i]) {
      AllSpaceTrims(s);
    } else {
      StripIsInfix(s);
    }
  }

  lemma {:induction false} AllSpaceTrims(s: string)
    requires forall i :: 0 <= i < |s| ==> IsSpace(s[i])
    ensures TrimStart(s) == []
  {
    if |s| > 0 {
      AllSpaceTrims(s[1..]);
    }
  }

  /** Why a CharField rejects a value: after stripping it is blank, longer than
      `max_length`, or holds a NUL character. */
  predicate BadText(value: string, max: nat) {
    var v := Strip(value);
    v == [] || |v| > max || '\0' in v
  }

  /** The field's name when a given value is rejected, as DRF reports it. */
  function TextErrors(field: string, value: Option<string>, max: nat): (errs: set<string>)
    ensures errs == {} || errs == {field}
    ensures field in errs <==> value.Some? && BadText(value.value, max)
  {
    if value.Some? && BadText(value.value, max) then {field} else {}
  }

  /** The validated value: the stripped text. */
  function CleanText(value: Option<string>): (r: Option<string>)
    ensures r.Some? <==> value.Some?
    ensures value.Some? ==> r.value == Strip(value.value)
  {
    if value.Some? then Some(Strip(value.value)) else None
  }

  // ------------------------------------------------------------------
  // Template and Layout
  // ------------------------------------------------------------------

  datatype Template = Template(user: nat, name: string, width: real, height: real)

  datatype Layout = Layout(template: nat)

  const TemplateDefaultWidth: real := 800.0
  const TemplateDefaultHeight: real := 600.0

  datatype TemplateCreate = TemplateCreate(user: nat, name: string, width: Option<real>, height: Option<real>)

  /** What `TemplateSerializer` accepts when bound to an instance: every field optional. */
  datatype TemplateUpdate = TemplateUpdate(user: Option<nat>, name: Option<string>, width: Option<real>, height: Option<real>)

  /** A canvas is 800 by 600 unless the request says otherwise. */
  function NewTemplate(c: TemplateCreate): (t: Template)
    ensures t.user == c.user && t.name == c.name
    ensures c.width.Some? ==> t.width == c.width.value
    ensures c.height.Some? ==> t.height == c.height.value
    ensures c.width.None? ==> t.width == TemplateDefaultWidth
    ensures c.height.None? ==> t.height == TemplateDefaultHeight
  {
    Template(c.user, c.name, c.width.GetOr(TemplateDefaultWidth), c.height.GetOr(TemplateDefaultHeight))
  }

  /** `TemplateSerializer.update`: `user` is dropped from the validated data
      before the rest is applied (so is `shapes`, which a Template does not
      have), hence the owner never changes. Every other given field replaces
      the stored one; an omitted field keeps its value. */
  function ApplyTemplateUpdate(t: Template, u: TemplateUpdate): (r: Template)
    ensures r.user == t.user
    ensures u.name.Some? ==> r.name == u.name.value
    ensures u.width.Some? ==> r.width == u.width.value
    ensures u.height.Some? ==> r.height == u.height.value
    ensures u.name.None? ==> r.name == t.name
    ensures u.width.None? ==> r.width == t.width
    ensures u.height.None? ==> r.height == t.height
  {
    Template(t.user, u.name.GetOr(t.name), u.width.GetOr(t.width), u.height.GetOr(t.height))
  }

  /** Whatever user a PUT names, the stored owner is the one the template was created with. */
  lemma TemplateOwnerNeverChanges(c: TemplateCreate, updates: seq<TemplateUpdate>)
    ensures ApplyTemplateUpdates(NewTemplate(c), updates).user == c.user
  {
    if |updates| > 0 {
      TemplateOwnerNeverChanges(c, updates[..|updates| - 1]);
    }
  }

  function ApplyTemplateUpdates(t: Template, updates: seq<TemplateUpdate>): Template {
    if |updates| == 0 then t
    else ApplyTemplateUpdate(ApplyTemplateUpdates(t, updates[..|updates| - 1]), updates[|updates| - 1])
  }

  lemma TemplateUpdateIdempotent(t: Template, u: TemplateUpdate)
    ensures ApplyTemplateUpdate(ApplyTemplateUpdate(t, u), u) == ApplyTemplateUpdate(t, u)
  {
  }

  /** The owner test: a template of user 1, updated with user 2 and the name
      "test updated", keeps user 1 and takes the new name. */
  lemma TemplateOwnerScenario()
    ensures var t := NewTemplate(TemplateCreate(1, "test", None, None));
      var r := ApplyTemplateUpdate(t, TemplateUpdate(Some(2), Some("test updated"), None, None));
      r == Template(1, "test updated", 800.0, 600.0)
  {
  }

  /** `name` is reported when a given name is blank once stripped, longer
      than 64 characters once stripped, or holds a NUL. */
  function TemplateNameErrors(name: Option<string>): (errs: set<string>)
    ensures "name" in errs <==> name.Some? && BadText(name.value, TemplateNameMaxLength)
    ensures errs <= {"name"}
    ensures name.Some? && "name" !in errs ==> ValidTemplateName(Strip(name.value))
  {
    TextErrors("name", name, TemplateNameMaxLength)
  }

  /** A name that passes validation, as stored: stripped, not blank, within the bound. */
  predicate ValidTemplateName(name: string) {
    0 < |name| <= TemplateNameMaxLength && Strip(name) == name
  }

  // ------------------------------------------------------------------
  // Shape
  // ------------------------------------------------------------------

  /** The placement record. `(contentType, shapeId)` is a generic reference to
      a geometry row: the content type names the geometry table, the id its
      row; nothing in the database ties the two together. */
  datatype Shape = Shape(
    layout: nat,
    contentType: nat,
    shapeId: nat,
    // transform
    x: real, y: real, offsetX: real, offsetY: real, scaleX: real, scaleY: real, rotation: real,
    // style
    fill: string, stroke: string, strokeWidth: real, opacity: real,
    // shadow
    shadowColor: string, shadowBlurr: real, shadowOffsetX: real, shadowOffsetY: real, shadowOpacity: real,
    // a CharField: the default True is stored as the text "True"
    draggable: string)

  predicate ValidShape(s: Shape) {
    && |s.fill| <= ColorMaxLength
    && |s.stroke| <= ColorMaxLength
    && |s.shadowColor| <= ColorMaxLength
    && |s.draggable| <= DraggableMaxLength
  }

  /** The Shape columns that have a declared default (all but the three references). */
  datatype Column =
    | X | Y | OffsetX | OffsetY | ScaleX | ScaleY | Rotation
    | Fill | Stroke | StrokeWidth | Opacity
    | ShadowColor | ShadowBlurr | ShadowOffsetX | ShadowOffsetY | ShadowOpacity
    | Draggable
  {
    /** The column's persisted name, which is also its serializer field name. */
    function Name(): string {
      match this
      case X => "x"
      case Y => "y"
      case OffsetX => "offset_x"
      case OffsetY => "offset_y"
      case ScaleX => "scale_x"
      case ScaleY => "scale_y"
      case Rotation => "rotation"
      case Fill => "fill"
      case Stroke => "stroke"
      case StrokeWidth => "stroke_width"
      case Opacity => "opacity"
      case ShadowColor => "shadow_color"
      case ShadowBlurr => "shadow_blurr"
      case ShadowOffsetX => "shadow_offset_x"
      case ShadowOffsetY => "shadow_offset_y"
      case ShadowOpacity => "shadow_opacity"
      case Draggable => "draggable"
    }

    /** The default the model declares for the column. */
    function Default(): Value {
      match this
      case X => Float(0.0)
      case Y => Float(0.0)
      case OffsetX => Float(0.0)
      case OffsetY => Float(0.0)
      case ScaleX => Float(1.0)
      case ScaleY => Float(1.0)
      case Rotation => Float(0.0)
      case Fill => Str("white")
      case Stroke => Str("black")
      case StrokeWidth => Float(1.0)
      case Opacity => Float(1.0)
      case ShadowColor => Str("black")
      case ShadowBlurr => Float(0.0)
      case ShadowOffsetX => Float(0.0)
      case ShadowOffsetY => Float(0.0)
      case ShadowOpacity => Float(0.0)
      case Draggable => Str("True")
    }
  }

  /** The value a Shape holds in a column, as its serializer emits it. */
  function ColumnValue(s: Shape, c: Column): Value {
    match c
    case X => Float(s.x)
    case Y => Float(s.y)
    case OffsetX => Float(s.offsetX)
    case OffsetY => Float(s.offsetY)
    case ScaleX => Float(s.scaleX)
    case ScaleY => Float(s.scaleY)
    case Rotation => Float(s.rotation)
    case Fill => Str(s.fill)
    case Stroke => Str(s.stroke)
    case StrokeWidth => Float(s.strokeWidth)
    case Opacity => Float(s.opacity)
    case ShadowColor => Str(s.shadowColor)
    case ShadowBlurr => Float(s.shadowBlurr)
    case ShadowOffsetX => Float(s.shadowOffsetX)
    case ShadowOffsetY => Float(s.shadowOffsetY)
    case ShadowOpacity => Float(s.shadowOpacity)
    case Draggable => Str(s.draggable)
  }

  /** The optional columns of a Shape request. */
  datatype ShapeOptions = ShapeOptions(
    x: Option<real>, y: Option<real>, offsetX: Option<real>, offsetY: Option<real>,
    scaleX: Option<real>, scaleY: Option<real>, rotation: Option<real>,
    fill: Option<string>, stroke: Option<string>, strokeWidth: Option<real>, opacity: Option<real>,
    shadowColor: Option<string>, shadowBlurr: Option<real>, shadowOffsetX: Option<real>,
    shadowOffsetY: Option<real>, shadowOpacity: Option<real>,
    draggable: Option<string>)

  const NoShapeOptions := ShapeOptions(None, None, None, None, None, None, None, None, None,
                                       None, None, None, None, None, None, None, None)

  function FloatOpt(o: Option<real>): Option<Value> {
    if o.Some? then Some(Float(o.value)) else None
  }

  function StrOpt(o: Option<string>): Option<Value> {
    if o.Some? then Some(Str(o.value)) else None
  }

  /** The value a request gives for a column, if any. */
  function Given(o: ShapeOptions, c: Column): Option<Value> {
    match c
    case X => FloatOpt(o.x)
    case Y => FloatOpt(o.y)
    case OffsetX => FloatOpt(o.offsetX)
    case OffsetY => FloatOpt(o.offsetY)
    case ScaleX => FloatOpt(o.scaleX)
    case ScaleY => FloatOpt(o.scaleY)
    case Rotation => FloatOpt(o.rotation)
    case Fill => StrOpt(o.fill)
    case Stroke => StrOpt(o.stroke)
    case StrokeWidth => FloatOpt(o.strokeWidth)
    case Opacity => FloatOpt(o.opacity)
    case ShadowColor => StrOpt(o.shadowColor)
    case ShadowBlurr => FloatOpt(o.shadowBlurr)
    case ShadowOffsetX => FloatOpt(o.shadowOffsetX)
    case ShadowOffsetY => FloatOpt(o.shadowOffsetY)
    case ShadowOpacity => FloatOpt(o.shadowOpacity)
    case Draggable => StrOpt(o.draggable)
  }

  /** A create request: the three reference columns are required. */
  datatype ShapeCreate = ShapeCreate(layout: nat, contentType: nat, shapeId: nat, options: ShapeOptions)

  /** An update request: every column optional. */
  datatype ShapeUpdate = ShapeUpdate(layout: Option<nat>, contentType: Option<nat>, shapeId: Option<nat>,
                                     options: ShapeOptions)

  /** Overwrites the columns a request gives. */
  function OverrideColumns(s: Shape, o: ShapeOptions): Shape {
    s.(x := o.x.GetOr(s.x), y := o.y.GetOr(s.y),
       offsetX := o.offsetX.GetOr(s.offsetX), offsetY := o.offsetY.GetOr(s.offsetY),
       scaleX := o.scaleX.GetOr(s.scaleX), scaleY := o.scaleY.GetOr(s.scaleY),
       rotation := o.rotation.GetOr(s.rotation),
       fill := o.fill.GetOr(s.fill), stroke := o.stroke.GetOr(s.stroke),
       strokeWidth := o.strokeWidth.GetOr(s.strokeWidth), opacity := o.opacity.GetOr(s.opacity),
       shadowColor := o.shadowColor.GetOr(s.shadowColor), shadowBlurr := o.shadowBlurr.GetOr(s.shadowBlurr),
       shadowOffsetX := o.shadowOffsetX.GetOr(s.shadowOffsetX),
       shadowOffsetY := o.shadowOffsetY.GetOr(s.shadowOffsetY),
       shadowOpacity := o.shadowOpacity.GetOr(s.shadowOpacity),
       draggable := o.draggable.GetOr(s.draggable))
  }

  lemma OverrideColumnValue(s: Shape, o: ShapeOptions, c: Column)
    ensures ColumnValue(OverrideColumns(s, o), c) == Given(o, c).GetOr(ColumnValue(s, c))
  {
    match c
    case X => case Y => case OffsetX => case OffsetY => case ScaleX => case ScaleY => case Rotation =>
    case Fill => case Stroke => case StrokeWidth => case Opacity =>
    case ShadowColor => case ShadowBlurr => case ShadowOffsetX => case ShadowOffsetY => case ShadowOpacity =>
    case Draggable =>
  }

  /** Applies the optional columns of a request: each given column takes the
      given value, each omitted one keeps its value, the references stay. */
  function ApplyShapeOptions(s: Shape, o: ShapeOptions): (r: Shape)
    ensures forall c: Column :: ColumnValue(r, c) == Given(o, c).GetOr(ColumnValue(s, c))
    ensures r.layout == s.layout && r.contentType == s.contentType && r.shapeId == s.shapeId
  {
    assert forall c: Column :: ColumnValue(OverrideColumns(s, o), c) == Given(o, c).GetOr(ColumnValue(s, c)) by {
      forall c: Column {
        OverrideColumnValue(s, o, c);
      }
    }
    OverrideColumns(s, o)
  }

  /** A new Shape: the given references and columns, the declared default for every omitted column. */
  function NewShape(c: ShapeCreate): (s: Shape)
    ensures s.layout == c.layout && s.contentType == c.contentType && s.shapeId == c.shapeId
    ensures forall col: Column :: ColumnValue(s, col) == Given(c.options, col).GetOr(col.Default())
  {
    var base := Shape(c.layout, c.contentType, c.shapeId, 0.0, 0.0, 0.0, 0.0, 1.0, 1.0, 0.0,
                      "white", "black", 1.0, 1.0, "black", 0.0, 0.0, 0.0, 0.0, "True");
    assert forall col: Column :: ColumnValue(base, col) == col.Default();
    ApplyShapeOptions(base, c.options)
  }

  /** A partial update: the given columns change, every other column keeps its value. */
  function ApplyShapeUpdate(s: Shape, u: ShapeUpdate): (r: Shape)
    ensures r.layout == u.layout.GetOr(s.layout)
    ensures r.contentType == u.contentType.GetOr(s.contentType)
    ensures r.shapeId == u.shapeId.GetOr(s.shapeId)
    ensures forall c: Column :: ColumnValue(r, c) == Given(u.options, c).GetOr(ColumnValue(s, c))
  {
    var moved := s.(layout := u.layout.GetOr(s.layout), contentType := u.contentType.GetOr(s.contentType),
                    shapeId := u.shapeId.GetOr(s.shapeId));
    assert forall c: Column :: ColumnValue(moved, c) == ColumnValue(s, c);
    ApplyShapeOptions(moved, u.options)
  }

  /** The text columns a Shape request is rejected for. */
  function ShapeTextErrors(o: ShapeOptions): (errs: set<string>)
    ensures forall c: Column :: c.Name() in errs <==> Given(o, c).Some? && BadValue(c, Given(o, c).value)
    ensures errs <= TextColumnNames
  {
    TextErrorsPerColumn(o);
    TextErrorSetNames(o);
    TextErrorSet(o)
  }

  function TextErrorSet(o: ShapeOptions): set<string> {
    TextErrors("fill", o.fill, ColorMaxLength) + TextErrors("stroke", o.stroke, ColorMaxLength)
    + TextErrors("shadow_color", o.shadowColor, ColorMaxLength)
    + TextErrors("draggable", o.draggable, DraggableMaxLength)
  }

  lemma TextErrorsPerColumn(o: ShapeOptions)
    ensures forall c: Column :: c.Name() in TextErrorSet(o) <==> Given(o, c).Some? && BadValue(c, Given(o, c).value)
  {
    forall c: Column
      ensures c.Name() in TextErrorSet(o) <==> Given(o, c).Some? && BadValue(c, Given(o, c).value)
    {
      TextErrorsAt(o, c);
    }
  }

  lemma TextErrorsAt(o: ShapeOptions, c: Column)
    ensures c.Name() in TextErrorSet(o) <==> Given(o, c).Some? && BadValue(c, Given(o, c).value)
  {
    if MaxLength(c).None? {
      NumberColumnErrors(o, c);
    } else {
      TextColumnErrors(o, c);
    }
  }

  lemma NumberColumnErrors(o: ShapeOptions, c: Column)
    requires MaxLength(c).None?
    ensures c.Name() !in TextErrorSet(o)
    ensures Given(o, c).Some? ==> !BadValue(c, Given(o, c).value)
  {
    NumberColumnName(c);
    TextErrorSetNames(o);
  }

  /** The names of the four text columns. */
  const TextColumnNames: set<string> := {"fill", "stroke", "shadow_color", "draggable"}

  /** Only text columns are ever reported. */
  lemma TextErrorSetNames(o: ShapeOptions)
    ensures TextErrorSet(o) <= TextColumnNames
  {
  }

  /** A number column's name is none of the four text columns' names. */
  lemma NumberColumnName(c: Column)
    requires MaxLength(c).None?
    ensures c.Name() !in TextColumnNames
  {
  }

  lemma TextColumnErrors(o: ShapeOptions, c: Column)
    requires MaxLength(c).Some?
    ensures c.Name() in TextErrorSet(o) <==> Given(o, c).Some? && BadValue(c, Given(o, c).value)
  {
    var fill := TextErrors("fill", o.fill, ColorMaxLength);
    var stroke := TextErrors("stroke", o.stroke, ColorMaxLength);
    var shadow := TextErrors("shadow_color", o.shadowColor, ColorMaxLength);
    var draggable := TextErrors("draggable", o.draggable, DraggableMaxLength);
    assert fill <= {"fill"} && stroke <= {"stroke"} && shadow <= {"shadow_color"} && draggable <= {"draggable"};
    match c {
      case Fill =>
      case Stroke =>
      case ShadowColor =>
      case Draggable =>
    }
  }

  /** The column's length bound, for the four text columns. */
  function MaxLength(c: Column): Option<nat> {
    match c
    case Fill => Some(ColorMaxLength)
    case Stroke => Some(ColorMaxLength)
    case ShadowColor => Some(ColorMaxLength)
    case Draggable => Some(DraggableMaxLength)
    case _ => None
  }

  /** A value a text column's serializer field rejects. */
  predicate BadValue(c: Column, v: Value) {
    MaxLength(c).Some? && v.Str? && BadText(v.s, MaxLength(c).value)
  }

  /** A given text value after validation: stripped. Numbers pass unchanged. */
  function StripValue(v: Option<Value>): Option<Value> {
    if v.Some? && v.value.Str? then Some(Str(Strip(v.value.s))) else v
  }

  /** The validated options of a Shape request: every given text column stripped. */
  function StripOptions(o: ShapeOptions): (r: ShapeOptions)
    ensures forall c: Column :: Given(r, c) == StripValue(Given(o, c))
  {
    StrippedPerColumn(o);
    StrippedTexts(o)
  }

  function StrippedTexts(o: ShapeOptions): ShapeOptions {
    o.(fill := CleanText(o.fill), stroke := CleanText(o.stroke),
       shadowColor := CleanText(o.shadowColor), draggable := CleanText(o.draggable))
  }

  lemma StrippedPerColumn(o: ShapeOptions)
    ensures forall c: Column :: Given(StrippedTexts(o), c) == StripValue(Given(o, c))
  {
    forall c: Column ensures Given(StrippedTexts(o), c) == StripValue(Given(o, c)) {
      match c {
        case Fill =>
        case Stroke =>
        case ShadowColor =>
        case Draggable =>
        case _ =>
      }
    }
  }

  /** A text column that passed validation holds a stripped, non-blank text within its bound. */
  lemma ValidatedTextFits(o: ShapeOptions, c: Column)
    requires Given(o, c).Some? && MaxLength(c).Some? && !BadValue(c, Given(o, c).value)
    requires Given(o, c).value.Str?
    ensures var v := Given(StripOptions(o), c).value;
      v.Str? && 0 < |v.s| <= MaxLength(c).value && Strip(v.s) == v.s
  {
    StripIdempotent(Given(o, c).value.s);
  }

  /** The columns determine the record, so statements about columns are statements about shapes. */
  lemma ShapeColumnsDetermine(a: Shape, b: Shape)
    requires a.layout == b.layout && a.contentType == b.contentType && a.shapeId == b.shapeId
    requires forall c: Column :: ColumnValue(a, c) == ColumnValue(b, c)
    ensures a == b
  {
    assert ColumnValue(a, X) == ColumnValue(b, X);
    assert ColumnValue(a, Y) == ColumnValue(b, Y);
    assert ColumnValue(a, OffsetX) == ColumnValue(b, OffsetX);
    assert ColumnValue(a, OffsetY) == ColumnValue(b, OffsetY);
    assert ColumnValue(a, ScaleX) == ColumnValue(b, ScaleX);
    assert ColumnValue(a, ScaleY) == ColumnValue(b, ScaleY);
    assert ColumnValue(a, Rotation) == ColumnValue(b, Rotation);
    assert ColumnValue(a, Fill) == ColumnValue(b, Fill);
    assert ColumnValue(a, Stroke) == ColumnValue(b, Stroke);
    assert ColumnValue(a, StrokeWidth) == ColumnValue(b, StrokeWidth);
    assert ColumnValue(a, Opacity) == ColumnValue(b, Opacity);
    assert ColumnValue(a, ShadowColor) == ColumnValue(b, ShadowColor);
    assert ColumnValue(a, ShadowBlurr) == ColumnValue(b, ShadowBlurr);
    assert ColumnValue(a, ShadowOffsetX) == ColumnValue(b, ShadowOffsetX);
    assert ColumnValue(a, ShadowOffsetY) == ColumnValue(b, ShadowOffsetY);
    assert ColumnValue(a, ShadowOpacity) == ColumnValue(b, ShadowOpacity);
    assert ColumnValue(a, Draggable) == ColumnValue(b, Draggable);
  }

  /** A Shape created with nothing but its references has every documented default, and fits its bounds. */
  lemma NewShapeDefaults(layout: nat, contentType: nat, shapeId: nat)
    ensures var s := NewShape(ShapeCreate(layout, contentType, shapeId, NoShapeOptions));
      && s.x == 0.0 && s.y == 0.0 && s.offsetX == 0.0 && s.offsetY == 0.0 && s.rotation == 0.0
      && s.scaleX == 1.0 && s.scaleY == 1.0
      && s.fill == "white" && s.stroke == "black" && s.strokeWidth == 1.0 && s.opacity == 1.0
      && s.shadowColor == "black" && s.shadowBlurr == 0.0 && s.shadowOffsetX == 0.0
      && s.shadowOffsetY == 0.0 && s.shadowOpacity == 0.0 && s.draggable == "True"
      && ValidShape(s)
  {
    var s := NewShape(ShapeCreate(layout, contentType, shapeId, NoShapeOptions));
    PlacementDefaults(s, layout, contentType, shapeId);
    StyleDefaults(s, layout, contentType, shapeId);
  }

  lemma PlacementDefaults(s: Shape, layout: nat, contentType: nat, shapeId: nat)
    requires s == NewShape(ShapeCreate(layout, contentType, shapeId, NoShapeOptions))
    ensures s.x == 0.0 && s.y == 0.0 && s.offsetX == 0.0 && s.offsetY == 0.0 && s.rotation == 0.0
    ensures s.scaleX == 1.0 && s.scaleY == 1.0 && s.draggable == "True"
  {
    assert ColumnValue(s, X) == X.Default();
    assert ColumnValue(s, Y) == Y.Default();
    assert ColumnValue(s, OffsetX) == OffsetX.Default();
    assert ColumnValue(s, OffsetY) == OffsetY.Default();
    assert ColumnValue(s, Rotation) == Rotation.Default();
    assert ColumnValue(s, ScaleX) == ScaleX.Default();
    assert ColumnValue(s, ScaleY) == ScaleY.Default();
    assert ColumnValue(s, Draggable) == Draggable.Default();
  }

  lemma StyleDefaults(s: Shape, layout: nat, contentType: nat, shapeId: nat)
    requires s == NewShape(ShapeCreate(layout, contentType, shapeId, NoShapeOptions))
    ensures s.fill == "white" && s.stroke == "black" && s.strokeWidth == 1.0 && s.opacity == 1.0
    ensures s.shadowColor == "black" && s.shadowBlurr == 0.0 && s.shadowOffsetX == 0.0
    ensures s.shadowOffsetY == 0.0 && s.shadowOpacity == 0.0
    ensures ValidShape(s)
  {
    ColorDefaults(s, layout, contentType, shapeId);
    ShadowDefaults(s, layout, contentType, shapeId);
    assert |s.fill| == 5 && |s.stroke| == 5 && |s.shadowColor| == 5;
  }

  lemma ColorDefaults(s: Shape, layout: nat, contentType: nat, shapeId: nat)
    requires s == NewShape(ShapeCreate(layout, contentType, shapeId, NoShapeOptions))
    ensures s.fill == "white" && s.stroke == "black" && s.strokeWidth == 1.0 && s.opacity == 1.0
    ensures s.shadowColor == "black" && s.draggable == "True"
  {
    assert ColumnValue(s, Fill) == Fill.Default();
    assert ColumnValue(s, Stroke) == Stroke.Default();
    assert ColumnValue(s, StrokeWidth) == StrokeWidth.Default();
    assert ColumnValue(s, Opacity) == Opacity.Default();
    assert ColumnValue(s, ShadowColor) == ShadowColor.Default();
    assert ColumnValue(s, Draggable) == Draggable.Default();
  }

  lemma ShadowDefaults(s: Shape, layout: nat, contentType: nat, shapeId: nat)
    requires s == NewShape(ShapeCreate(layout, contentType, shapeId, NoShapeOptions))
    ensures s.shadowBlurr == 0.0 && s.shadowOffsetX == 0.0
    ensures s.shadowOffsetY == 0.0 && s.shadowOpacity == 0.0
  {
    assert ColumnValue(s, ShadowBlurr) == ShadowBlurr.Default();
    assert ColumnValue(s, ShadowOffsetX) == ShadowOffsetX.Default();
    assert ColumnValue(s, ShadowOffsetY) == ShadowOffsetY.Default();
    assert ColumnValue(s, ShadowOpacity) == ShadowOpacity.Default();
  }

  /** Sending the same partial update twice changes nothing the second time. */
  lemma ShapeUpdateIdempotent(s: Shape, u: ShapeUpdate)
    ensures ApplyShapeUpdate(ApplyShapeUpdate(s, u), u) == ApplyShapeUpdate(s, u)
  {
    var once := ApplyShapeUpdate(s, u);
    ShapeColumnsDetermine(ApplyShapeUpdate(once, u), once);
  }

  /** An update that gives nothing leaves the Shape as it was. */
  lemma EmptyShapeUpdate(s: Shape)
    ensures ApplyShapeUpdate(s, ShapeUpdate(None, None, None, NoShapeOptions)) == s
  {
    ShapeColumnsDetermine(ApplyShapeUpdate(s, ShapeUpdate(None, None, None, NoShapeOptions)), s);
  }

  /** A create request is a default Shape followed by an update with the same values. */
  lemma CreateIsDefaultThenUpdate(c: ShapeCreate)
    ensures NewShape(c) == ApplyShapeUpdate(
      NewShape(ShapeCreate(c.layout, c.contentType, c.shapeId, NoShapeOptions)),
      ShapeUpdate(None, None, None, c.options))
  {
    ShapeColumnsDetermine(NewShape(c), ApplyShapeUpdate(
      NewShape(ShapeCreate(c.layout, c.contentType, c.shapeId, NoShapeOptions)),
      ShapeUpdate(None, None, None, c.options)));
  }

  // ------------------------------------------------------------------
  // Geometry records
  // ------------------------------------------------------------------

  datatype Rectangle = Rectangle(width: real, height: real)

  datatype Text = Text(fontFamily: string, fontSize: int, text: string)

  datatype Circle = Circle(radius: real)

  /** An uploaded file; `content` stands for the stored file's URL (absent when no file was sent). */
  datatype MediaContent = MediaContent(content: Option<string>, originalWidth: int, originalHeight: int,
                                       alt: string, user: nat)

  /** `mediaContent` is the referenced MediaContent's id. */
  datatype Media = Media(width: real, height: real, mediaContent: nat)

  datatype LayoutShapeRelation = LayoutShapeRelation(layout: nat, shape: nat)

  predicate ValidMediaContent(m: MediaContent) {
    |m.alt| <= AltMaxLength
  }

  /** Update inputs for the geometry serializers: every field optional. */
  datatype RectangleUpdate = RectangleUpdate(width: Option<real>, height: Option<real>)

  datatype CircleUpdate = CircleUpdate(radius: Option<real>)

  datatype TextUpdate = TextUpdate(fontFamily: Option<string>, fontSize: Option<int>, text: Option<string>)

  datatype MediaUpdate = MediaUpdate(width: Option<real>, height: Option<real>, mediaContent: Option<nat>)

  function ApplyRectangleUpdate(r: Rectangle, u: RectangleUpdate): (r': Rectangle)
    ensures u.width.None? ==> r'.width == r.width
    ensures u.height.None? ==> r'.height == r.height
    ensures u.width.Some? ==> r'.width == u.width.value
    ensures u.height.Some? ==> r'.height == u.height.value
  {
    Rectangle(u.width.GetOr(r.width), u.height.GetOr(r.height))
  }

  function ApplyCircleUpdate(c: Circle, u: CircleUpdate): (c': Circle)
    ensures u.radius.None? ==> c' == c
    ensures u.radius.Some? ==> c'.radius == u.radius.value
  {
    Circle(u.radius.GetOr(c.radius))
  }

  function ApplyTextUpdate(t: Text, u: TextUpdate): (t': Text)
    ensures u.fontFamily.None? ==> t'.fontFamily == t.fontFamily
    ensures u.fontSize.None? ==> t'.fontSize == t.fontSize
    ensures u.text.None? ==> t'.text == t.text
    ensures u.fontFamily.Some? ==> t'.fontFamily == u.fontFamily.value
    ensures u.fontSize.Some? ==> t'.fontSize == u.fontSize.value
    ensures u.text.Some? ==> t'.text == u.text.value
  {
    Text(u.fontFamily.GetOr(t.fontFamily), u.fontSize.GetOr(t.fontSize), u.text.GetOr(t.text))
  }

  function ApplyMediaUpdate(m: Media, u: MediaUpdate): (m': Media)
    ensures u.width.None? ==> m'.width == m.width
    ensures u.height.None? ==> m'.height == m.height
    ensures u.mediaContent.None? ==> m'.mediaContent == m.mediaContent
    ensures u.width.Some? ==> m'.width == u.width.value
    ensures u.height.Some? ==> m'.height == u.height.value
    ensures u.mediaContent.Some? ==> m'.mediaContent == u.mediaContent.value
  {
    Media(u.width.GetOr(m.width), u.height.GetOr(m.height), u.mediaContent.GetOr(m.mediaContent))
  }

  /** A Media create request. `media_content` may be omitted, but its declared
      default is the empty string, which the foreign key saves as NULL into a
      NOT NULL column: the INSERT fails. */
  datatype MediaCreate = MediaCreate(width: real, height: real, mediaContent: Option<nat>)

  function NewMedia(c: MediaCreate): (r: Outcome<Media>)
    ensures r.Success? <==> c.mediaContent.Some?
    ensures r.Failure? ==> r.error == IntegrityError("media_content")
    ensures r.Success? ==> r.value == Media(c.width, c.height, c.mediaContent.value)
  {
    if c.mediaContent.None? then Failure(IntegrityError("media_content"))
    else Success(Media(c.width, c.height, c.mediaContent.value))
  }

  datatype MediaContentCreate = MediaContentCreate(content: Option<string>, originalWidth: Option<int>,
                                                   originalHeight: Option<int>, alt: Option<string>, user: nat)

  const MediaDefaultSide: int := 100
  const DefaultAlt: string := "Image Description"

  /** A new MediaContent: 100 by 100 and "Image Description" unless given. */
  function NewMediaContent(c: MediaContentCreate): (m: MediaContent)
    ensures m.content == c.content && m.user == c.user
    ensures c.originalWidth.None? ==> m.originalWidth == MediaDefaultSide
    ensures c.originalHeight.None? ==> m.originalHeight == MediaDefaultSide
    ensures c.alt.None? ==> m.alt == DefaultAlt
    ensures c.originalWidth.Some? ==> m.originalWidth == c.originalWidth.value
    ensures c.originalHeight.Some? ==> m.originalHeight == c.originalHeight.value
    ensures c.alt.Some? ==> m.alt == c.alt.value
  {
    MediaContent(c.content, c.originalWidth.GetOr(MediaDefaultSide), c.originalHeight.GetOr(MediaDefaultSide),
                 c.alt.GetOr(DefaultAlt), c.user)
  }

  /** Omitting a MediaContent field is the same as sending its default, and a
      request that gives every field stores exactly the row it describes. */
  lemma NewMediaContentDefaults(c: MediaContentCreate, m: MediaContent)
    ensures NewMediaContent(c)
            == NewMediaContent(MediaContentCreate(c.content, Some(c.originalWidth.GetOr(MediaDefaultSide)),
                                                  Some(c.originalHeight.GetOr(MediaDefaultSide)),
                                                  Some(c.alt.GetOr(DefaultAlt)), c.user))
    ensures NewMediaContent(MediaContentCreate(m.content, Some(m.originalWidth), Some(m.originalHeight),
                                               Some(m.alt), m.user)) == m
  {
  }

  /** The MediaContent defaults fit the column bounds: an omitted alt never fails validation. */
  lemma MediaContentDefaultsValid(c: MediaContentCreate)
    requires c.alt.None?
    ensures ValidMediaContent(NewMediaContent(c))
  {
    assert |DefaultAlt| == 17;
  }

  /** The update lemmas for the geometry serializers: applying an update twice is applying it once. */
  lemma GeometryUpdatesIdempotent(r: Rectangle, ru: RectangleUpdate, c: Circle, cu: CircleUpdate,
                                  t: Text, tu: TextUpdate, m: Media, mu: MediaUpdate)
    ensures ApplyRectangleUpdate(ApplyRectangleUpdate(r, ru), ru) == ApplyRectangleUpdate(r, ru)
    ensures ApplyCircleUpdate(ApplyCircleUpdate(c, cu), cu) == ApplyCircleUpdate(c, cu)
    ensures ApplyTextUpdate(ApplyTextUpdate(t, tu), tu) == ApplyTextUpdate(t, tu)
    ensures ApplyMediaUpdate(ApplyMediaUpdate(m, mu), mu) == ApplyMediaUpdate(m, mu)
  {
  }
}

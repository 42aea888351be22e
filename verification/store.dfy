/**
  The database as a value: one table per model, each a map from primary key
  to row, plus the set of user ids and the installed ContentType rows (id to
  model name). Foreign keys are row ids. `Consistent` says every foreign key
  names an existing row; the delete operations follow the declared
  `on_delete=CASCADE` edges and keep the store consistent.

  The generic pair `(content_type, shape_id)` of a Shape is not a foreign key
  to a geometry table: nothing cascades along it, in either direction.
 */
module Store {
  import opened Wrappers
  import opened PyValues
  import opened Models

  datatype Store = Store(
    users: set<nat>,
    contentTypes: map<nat, string>,
    templates: map<nat, Template>,
    layouts: map<nat, Layout>,
    shapes: map<nat, Shape>,
    rectangles: map<nat, Rectangle>,
    texts: map<nat, Text>,
    circles: map<nat, Circle>,
    mediaContents: map<nat, MediaContent>,
    media: map<nat, Media>,
    relations: map<nat, LayoutShapeRelation>)

  /** Every foreign key names an existing row. */
  predicate Consistent(st: Store) {
    OwnersExist(st) && PlacementsLinked(st) && ContentTypesExist(st) && MediaLinked(st)
  }

  /** `Template.user` and `MediaContent.user`. */
  predicate OwnersExist(st: Store) {
    && (forall t :: t in st.templates ==> st.templates[t].user in st.users)
    && (forall m :: m in st.mediaContents ==> st.mediaContents[m].user in st.users)
  }

  /** `Layout.template`, `Shape.layout`, `LayoutShapeRelation.layout` and `.shape`. */
  predicate PlacementsLinked(st: Store) {
    && (forall l :: l in st.layouts ==> st.layouts[l].template in st.templates)
    && (forall s :: s in st.shapes ==> st.shapes[s].layout in st.layouts)
    && (forall r :: r in st.relations ==> st.relations[r].layout in st.layouts)
    && (forall r :: r in st.relations ==> st.relations[r].shape in st.shapes)
  }

  /** `Shape.content_type`. */
  predicate ContentTypesExist(st: Store) {
    forall s :: s in st.shapes ==> st.shapes[s].contentType in st.contentTypes
  }

  /** `Media.media_content`. */
  predicate MediaLinked(st: Store) {
    forall m :: m in st.media ==> st.media[m].mediaContent in st.mediaContents
  }

  /** The geometry tables, which no foreign key points into. */
  predicate SameGeometry(a: Store, b: Store) {
    a.rectangles == b.rectangles && a.texts == b.texts && a.circles == b.circles && a.media == b.media
  }

  function Restrict<V>(m: map<nat, V>, keep: nat -> bool): (r: map<nat, V>)
    ensures forall k :: k in r <==> k in m && keep(k)
    ensures forall k :: k in r ==> r[k] == m[k]
  {
    map k | k in m && keep(k) :: m[k]
  }

  /** A map that agrees with `b` on every key but `k`, which it lacks, is `b - {k}`. */
  lemma MapWithout<V>(a: map<nat, V>, b: map<nat, V>, k: nat)
    requires forall x :: x in a <==> x in b && x != k
    requires forall x :: x in a ==> a[x] == b[x]
    ensures a == b - {k}
  {
  }

  /** Every row of `r` is a row of `st`, unchanged. */
  predicate KeptRows<V(==)>(r: map<nat, V>, st: map<nat, V>) {
    forall k :: k in r ==> k in st && r[k] == st[k]
  }

  // ------------------------------------------------------------------
  // Cascading deletes
  // ------------------------------------------------------------------

  /** Deleting Shapes removes the LayoutShapeRelation rows that reference them. */
  function DeleteShapes(st: Store, gone: set<nat>): (r: Store)
    ensures forall s :: s in r.shapes <==> s in st.shapes && s !in gone
    ensures forall s :: s in r.shapes ==> r.shapes[s] == st.shapes[s]
    ensures forall x :: x in r.relations <==> x in st.relations && st.relations[x].shape !in gone
    ensures forall x :: x in r.relations ==> r.relations[x] == st.relations[x]
    ensures r.users == st.users && r.contentTypes == st.contentTypes && r.templates == st.templates
    ensures r.layouts == st.layouts && r.mediaContents == st.mediaContents && SameGeometry(r, st)
  {
    st.(shapes := Restrict(st.shapes, s => s !in gone),
        relations := Restrict(st.relations, x => x in st.relations && st.relations[x].shape !in gone))
  }

  /** Deleting Layouts removes their Shapes and their LayoutShapeRelation rows. */
  function DeleteLayouts(st: Store, gone: set<nat>): (r: Store)
    ensures forall l :: l in r.layouts <==> l in st.layouts && l !in gone
    ensures forall s :: s in r.shapes <==> s in st.shapes && st.shapes[s].layout !in gone
    ensures forall x :: x in r.relations <==>
      (x in st.relations && st.relations[x].layout !in gone
       && (st.relations[x].shape in st.shapes ==> st.shapes[st.relations[x].shape].layout !in gone))
    ensures forall l :: l in r.layouts ==> r.layouts[l] == st.layouts[l]
    ensures forall s :: s in r.shapes ==> r.shapes[s] == st.shapes[s]
    ensures forall x :: x in r.relations ==> r.relations[x] == st.relations[x]
    ensures r.users == st.users && r.contentTypes == st.contentTypes && r.templates == st.templates
    ensures r.mediaContents == st.mediaContents && SameGeometry(r, st)
  {
    st.(layouts := Restrict(st.layouts, l => l !in gone),
        shapes := Restrict(st.shapes, s => s in st.shapes && st.shapes[s].layout !in gone),
        relations := Restrict(st.relations, x => x in st.relations && st.relations[x].layout !in gone
                                                 && (st.relations[x].shape in st.shapes ==> st.shapes[st.relations[x].shape].layout !in gone)))
  }

  /** Deleting Templates removes their Layouts, and with them the Layouts' Shapes and relations. */
  function DeleteTemplates(st: Store, gone: set<nat>): (r: Store)
    ensures forall t :: t in r.templates <==> t in st.templates && t !in gone
    ensures forall t :: t in r.templates ==> r.templates[t] == st.templates[t]
    ensures forall l :: l in r.layouts <==> l in st.layouts && st.layouts[l].template !in gone
    ensures forall l :: l in r.layouts ==> r.layouts[l] == st.layouts[l]
    ensures forall s :: s in r.shapes <==> s in st.shapes && !UnderTemplates(st, st.shapes[s].layout, gone)
    ensures forall x :: x in r.relations <==>
      && x in st.relations && !UnderTemplates(st, st.relations[x].layout, gone)
      && (st.relations[x].shape in st.shapes ==> !UnderTemplates(st, st.shapes[st.relations[x].shape].layout, gone))
    ensures KeptRows(r.shapes, st.shapes) && KeptRows(r.relations, st.relations)
    ensures r.users == st.users && r.contentTypes == st.contentTypes
    ensures r.mediaContents == st.mediaContents && SameGeometry(r, st)
  {
    var layoutsGone := set l | l in st.layouts && st.layouts[l].template in gone;
    DeleteLayouts(st.(templates := Restrict(st.templates, t => t !in gone)), layoutsGone)
  }

  /** Layout `l` exists and belongs to one of the Templates `gone`. */
  predicate UnderTemplates(st: Store, l: nat, gone: set<nat>) {
    l in st.layouts && st.layouts[l].template in gone
  }

  /** Deleting MediaContents removes the Media rows that show them. */
  function DeleteMediaContents(st: Store, gone: set<nat>): (r: Store)
    ensures forall m :: m in r.mediaContents <==> m in st.mediaContents && m !in gone
    ensures forall m :: m in r.mediaContents ==> r.mediaContents[m] == st.mediaContents[m]
    ensures forall m :: m in r.media <==> m in st.media && st.media[m].mediaContent !in gone
    ensures forall m :: m in r.media ==> r.media[m] == st.media[m]
    ensures r.rectangles == st.rectangles && r.texts == st.texts && r.circles == st.circles
    ensures r.users == st.users && r.contentTypes == st.contentTypes && r.templates == st.templates
    ensures r.layouts == st.layouts && r.shapes == st.shapes && r.relations == st.relations
  {
    st.(mediaContents := Restrict(st.mediaContents, m => m !in gone),
        media := Restrict(st.media, m => m in st.media && st.media[m].mediaContent !in gone))
  }

  function DeleteTemplate(st: Store, t: nat): (r: Store)
    requires t in st.templates
    requires Consistent(st)
    ensures Consistent(r)
    ensures r.templates == st.templates - {t}
    ensures forall l :: l in r.layouts <==> l in st.layouts && st.layouts[l].template != t
    ensures forall s :: s in r.shapes <==> s in st.shapes && st.layouts[st.shapes[s].layout].template != t
    ensures forall x :: x in r.relations <==>
      && x in st.relations && st.layouts[st.relations[x].layout].template != t
      && st.layouts[st.shapes[st.relations[x].shape].layout].template != t
    ensures KeptRows(r.layouts, st.layouts) && KeptRows(r.shapes, st.shapes) && KeptRows(r.relations, st.relations)
    ensures r.users == st.users && r.contentTypes == st.contentTypes
    ensures r.mediaContents == st.mediaContents && SameGeometry(r, st)
  {
    DeleteTemplatesConsistent(st, {t});
    DeleteTemplatesShapes(st, {t});
    MapWithout(DeleteTemplates(st, {t}).templates, st.templates, t);
    DeleteTemplates(st, {t})
  }

  function DeleteLayout(st: Store, l: nat): (r: Store)
    requires l in st.layouts
    requires Consistent(st)
    ensures Consistent(r)
    ensures r.layouts == st.layouts - {l}
    ensures forall s :: s in r.shapes <==> s in st.shapes && st.shapes[s].layout != l
    ensures forall x :: x in r.relations <==>
      (x in st.relations && st.relations[x].layout != l && st.shapes[st.relations[x].shape].layout != l)
    ensures KeptRows(r.shapes, st.shapes) && KeptRows(r.relations, st.relations)
    ensures r.users == st.users && r.contentTypes == st.contentTypes && r.templates == st.templates
    ensures r.mediaContents == st.mediaContents && SameGeometry(r, st)
  {
    DeleteLayoutsConsistent(st, {l});
    MapWithout(DeleteLayouts(st, {l}).layouts, st.layouts, l);
    DeleteLayouts(st, {l})
  }


  /** Deleting a Shape removes only the Shape and its relation rows: the geometry row it points at stays. */
  function DeleteShape(st: Store, s: nat): (r: Store)
    requires s in st.shapes
    requires Consistent(st)
    ensures Consistent(r)
    ensures r.shapes == st.shapes - {s}
    ensures forall x :: x in r.relations <==> x in st.relations && st.relations[x].shape != s
    ensures KeptRows(r.relations, st.relations)
    ensures r.users == st.users && r.contentTypes == st.contentTypes
    ensures r.layouts == st.layouts && r.templates == st.templates
    ensures r.mediaContents == st.mediaContents && SameGeometry(r, st)
  {
    DeleteShapesConsistent(st, {s});
    MapWithout(DeleteShapes(st, {s}).shapes, st.shapes, s);
    DeleteShapes(st, {s})
  }

  function DeleteMediaContent(st: Store, m: nat): (r: Store)
    requires m in st.mediaContents
    requires Consistent(st)
    ensures Consistent(r)
    ensures r.mediaContents == st.mediaContents - {m}
    ensures forall k :: k in r.media <==> k in st.media && st.media[k].mediaContent != m
    ensures KeptRows(r.media, st.media)
    ensures r.users == st.users && r.contentTypes == st.contentTypes
    ensures r.templates == st.templates && r.layouts == st.layouts
    ensures r.shapes == st.shapes && r.relations == st.relations
    ensures r.rectangles == st.rectangles && r.texts == st.texts && r.circles == st.circles
  {
    DeleteMediaContentsConsistent(st, {m});
    MapWithout(DeleteMediaContents(st, {m}).mediaContents, st.mediaContents, m);
    DeleteMediaContents(st, {m})
  }

  lemma DeleteMediaContentsConsistent(st: Store, gone: set<nat>)
    requires Consistent(st)
    ensures Consistent(DeleteMediaContents(st, gone))
  {
    var r := DeleteMediaContents(st, gone);
    assert MediaLinked(r) by {
      forall k | k in r.media ensures r.media[k].mediaContent in r.mediaContents {
        assert st.media[k].mediaContent in st.mediaContents;
      }
    }
  }

  lemma DeleteShapesConsistent(st: Store, gone: set<nat>)
    requires Consistent(st)
    ensures Consistent(DeleteShapes(st, gone))
  {
    var r := DeleteShapes(st, gone);
    assert PlacementsLinked(r) by {
      forall x | x in r.relations ensures r.relations[x].shape in r.shapes {
        assert st.relations[x].shape in st.shapes;
      }
    }
  }

  /** Deleting Layouts leaves every placement linked, provided every Layout
      kept has its Template: the Template delete relies on this weaker premise. */
  lemma DeleteLayoutsLinked(st: Store, gone: set<nat>)
    requires ContentTypesExist(st)
    requires forall l :: l in st.layouts && l !in gone ==> st.layouts[l].template in st.templates
    requires forall s :: s in st.shapes ==> st.shapes[s].layout in st.layouts
    requires forall x :: x in st.relations ==> st.relations[x].layout in st.layouts && st.relations[x].shape in st.shapes
    ensures PlacementsLinked(DeleteLayouts(st, gone)) && ContentTypesExist(DeleteLayouts(st, gone))
  {
    var r := DeleteLayouts(st, gone);
    assert PlacementsLinked(r) by {
      forall s | s in r.shapes ensures r.shapes[s].layout in r.layouts {
        assert st.shapes[s].layout in st.layouts;
      }
      forall x | x in r.relations ensures r.relations[x].layout in r.layouts && r.relations[x].shape in r.shapes {
        assert st.relations[x].layout in st.layouts && st.relations[x].shape in st.shapes;
      }
    }
  }

  lemma DeleteLayoutsConsistent(st: Store, gone: set<nat>)
    requires Consistent(st)
    ensures Consistent(DeleteLayouts(st, gone))
  {
    DeleteLayoutsLinked(st, gone);
  }

  lemma DeleteTemplatesLinked(st: Store, gone: set<nat>)
    requires PlacementsLinked(st) && ContentTypesExist(st)
    ensures PlacementsLinked(DeleteTemplates(st, gone)) && ContentTypesExist(DeleteTemplates(st, gone))
  {
    var layoutsGone := set l | l in st.layouts && st.layouts[l].template in gone;
    var st' := st.(templates := Restrict(st.templates, t => t !in gone));
    forall l | l in st'.layouts && l !in layoutsGone ensures st'.layouts[l].template in st'.templates {
      assert st.layouts[l].template in st.templates;
    }
    DeleteLayoutsLinked(st', layoutsGone);
  }

  lemma DeleteTemplatesConsistent(st: Store, gone: set<nat>)
    requires Consistent(st)
    ensures Consistent(DeleteTemplates(st, gone))
  {
    DeleteTemplatesLinked(st, gone);
    var r := DeleteTemplates(st, gone);
    assert OwnersExist(r) by {
      forall t | t in r.templates ensures r.templates[t].user in r.users {
        assert st.templates[t].user in st.users;
      }
    }
  }

  /** The Shapes a Template delete keeps are those whose Layout belongs to another Template. */
  lemma DeleteTemplatesShapes(st: Store, gone: set<nat>)
    requires Consistent(st)
    ensures forall s :: s in DeleteTemplates(st, gone).shapes <==>
      s in st.shapes && st.layouts[st.shapes[s].layout].template !in gone
  {
  }

  /** Deleting a user removes their Templates (with everything below them) and their MediaContents (with their Media). */
  function DeleteUser(st: Store, u: nat): (r: Store)
    requires u in st.users
    requires Consistent(st)
    ensures Consistent(r)
    ensures r.users == st.users - {u}
    ensures r.contentTypes == st.contentTypes
    ensures r.rectangles == st.rectangles && r.texts == st.texts && r.circles == st.circles
    ensures KeptRows(r.templates, st.templates) && KeptRows(r.layouts, st.layouts)
    ensures KeptRows(r.shapes, st.shapes) && KeptRows(r.relations, st.relations)
    ensures KeptRows(r.mediaContents, st.mediaContents) && KeptRows(r.media, st.media)
  {
    var contentsGone := OwnedContents(st, u);
    var withoutTemplates := DeleteTemplates(st.(users := st.users - {u}), OwnedTemplates(st, u));
    UserCascadeConsistent(st, u, withoutTemplates, contentsGone);
    DeleteMediaContents(withoutTemplates, contentsGone)
  }

  /** What deleting a user removes: exactly the Templates and MediaContents it owns (and what cascades from those). */
  lemma DeleteUserRemovesOwned(st: Store, u: nat)
    requires u in st.users
    requires Consistent(st)
    ensures var r := DeleteUser(st, u);
      && (forall t :: t in r.templates <==> t in st.templates && st.templates[t].user != u)
      && (forall m :: m in r.mediaContents <==> m in st.mediaContents && st.mediaContents[m].user != u)
      && (forall l :: l in r.layouts <==> l in st.layouts && st.templates[st.layouts[l].template].user != u)
      && (forall s :: s in r.shapes <==> s in st.shapes && LayoutOwner(st, st.shapes[s].layout) != u)
      && (forall x :: x in r.relations <==>
            && x in st.relations && LayoutOwner(st, st.relations[x].layout) != u
            && LayoutOwner(st, st.shapes[st.relations[x].shape].layout) != u)
      && (forall m :: m in r.media <==> m in st.media && st.mediaContents[st.media[m].mediaContent].user != u)
  {
  }

  /** The user owning the Template of an existing Layout. */
  function LayoutOwner(st: Store, l: nat): nat
    requires Consistent(st)
    requires l in st.layouts
  {
    st.templates[st.layouts[l].template].user
  }

  function OwnedTemplates(st: Store, u: nat): set<nat> {
    set t | t in st.templates && st.templates[t].user == u
  }

  function OwnedContents(st: Store, u: nat): set<nat> {
    set m | m in st.mediaContents && st.mediaContents[m].user == u
  }

  predicate UserCascade(st: Store, u: nat, withoutTemplates: Store, contentsGone: set<nat>) {
    && withoutTemplates == DeleteTemplates(st.(users := st.users - {u}), OwnedTemplates(st, u))
    && contentsGone == OwnedContents(st, u)
  }

  lemma UserCascadeConsistent(st: Store, u: nat, withoutTemplates: Store, contentsGone: set<nat>)
    requires Consistent(st)
    requires UserCascade(st, u, withoutTemplates, contentsGone)
    ensures Consistent(DeleteMediaContents(withoutTemplates, contentsGone))
  {
    UserCascadeOwners(st, u, withoutTemplates, contentsGone);
    var st' := st.(users := st.users - {u});
    assert PlacementsLinked(st') && ContentTypesExist(st');
    DeleteTemplatesLinked(st', OwnedTemplates(st, u));
    DeleteMediaContentsKeepsPlacements(withoutTemplates, contentsGone);
    UserCascadeMedia(st, u, withoutTemplates, contentsGone);
  }

  lemma UserCascadeOwners(st: Store, u: nat, withoutTemplates: Store, contentsGone: set<nat>)
    requires Consistent(st)
    requires UserCascade(st, u, withoutTemplates, contentsGone)
    ensures OwnersExist(DeleteMediaContents(withoutTemplates, contentsGone))
  {
  }

  /** Deleting MediaContents touches no placement table. */
  lemma DeleteMediaContentsKeepsPlacements(st: Store, gone: set<nat>)
    requires PlacementsLinked(st) && ContentTypesExist(st)
    ensures PlacementsLinked(DeleteMediaContents(st, gone)) && ContentTypesExist(DeleteMediaContents(st, gone))
  {
  }

  lemma UserCascadeMedia(st: Store, u: nat, withoutTemplates: Store, contentsGone: set<nat>)
    requires Consistent(st)
    requires UserCascade(st, u, withoutTemplates, contentsGone)
    ensures MediaLinked(DeleteMediaContents(withoutTemplates, contentsGone))
  {
  }

  /** A geometry row can be deleted on its own; nothing cascades from it. */
  function DeleteRectangle(st: Store, id: nat): (r: Store)
    requires id in st.rectangles
    requires Consistent(st)
    ensures Consistent(r)
    ensures r.rectangles == st.rectangles - {id}
    ensures r.shapes == st.shapes
    ensures r == st.(rectangles := r.rectangles)
  {
    st.(rectangles := st.rectangles - {id})
  }

  // ------------------------------------------------------------------
  // Writes through the serializers
  // ------------------------------------------------------------------

  function RefError(field: string, id: Option<nat>, table: set<nat>): (errs: set<string>)
    ensures field in errs <==> id.Some? && id.value !in table
    ensures errs <= {field}
  {
    if id.Some? && id.value !in table then {field} else {}
  }

  /** Creating a Template: the owner must exist and the name, once stripped,
      must be neither blank nor too long. The stripped name is stored. */
  function CreateTemplate(st: Store, id: nat, c: TemplateCreate): (r: Outcome<Store>)
    requires id !in st.templates
    requires Consistent(st)
    ensures r.Success? <==> c.user in st.users && !BadText(c.name, TemplateNameMaxLength)
    ensures r.Failure? ==> r.error == ValidationError(RefError("user", Some(c.user), st.users)
                                                      + TemplateNameErrors(Some(c.name)))
    ensures r.Success? ==> Consistent(r.value)
    ensures r.Success? ==> r.value.templates == st.templates[id := NewTemplate(c.(name := Strip(c.name)))]
    ensures r.Success? ==> ValidTemplateName(r.value.templates[id].name)
    ensures r.Success? ==> r.value == st.(templates := r.value.templates)
  {
    var errs := RefError("user", Some(c.user), st.users) + TemplateNameErrors(Some(c.name));
    if errs != {} then Failure(ValidationError(errs))
    else
      var t := NewTemplate(c.(name := Strip(c.name)));
      PutTemplateConsistent(st, id, t);
      Success(st.(templates := st.templates[id := t]))
  }

  /** Storing a Template whose owner exists keeps every foreign key resolving. */
  lemma PutTemplateConsistent(st: Store, id: nat, t: Template)
    requires Consistent(st)
    requires t.user in st.users
    ensures Consistent(st.(templates := st.templates[id := t]))
  {
  }

  /** A PUT on a Template: a named user must exist even though the update then
      ignores it; the stored owner is kept. */
  function UpdateTemplate(st: Store, id: nat, u: TemplateUpdate): (r: Outcome<Store>)
    requires Consistent(st)
    ensures id !in st.templates ==> r == Failure(DoesNotExist("Template"))
    ensures id in st.templates ==>
      (r.Success? <==> (u.user.None? || u.user.value in st.users)
                       && (u.name.None? || !BadText(u.name.value, TemplateNameMaxLength)))
    ensures id in st.templates && r.Failure? ==>
      r.error == ValidationError(RefError("user", u.user, st.users) + TemplateNameErrors(u.name))
    ensures r.Success? ==> Consistent(r.value)
    ensures r.Success? ==> id in r.value.templates && r.value.templates[id].user == st.templates[id].user
    ensures r.Success? ==> r.value.templates.Keys == st.templates.Keys
    ensures r.Success? ==>
      r.value.templates == st.templates[id := ApplyTemplateUpdate(st.templates[id], u.(name := CleanText(u.name)))]
    ensures r.Success? && u.name.Some? ==> ValidTemplateName(r.value.templates[id].name)
    ensures r.Success? ==> r.value == st.(templates := r.value.templates)
  {
    if id !in st.templates then Failure(DoesNotExist("Template"))
    else
      var errs := RefError("user", u.user, st.users) + TemplateNameErrors(u.name);
      if errs != {} then Failure(ValidationError(errs))
      else
        var t := ApplyTemplateUpdate(st.templates[id], u.(name := CleanText(u.name)));
        PutTemplateConsistent(st, id, t);
        Success(st.(templates := st.templates[id := t]))
  }

  function CreateLayout(st: Store, id: nat, template: nat): (r: Outcome<Store>)
    requires id !in st.layouts
    requires Consistent(st)
    ensures r.Success? <==> template in st.templates
    ensures r.Failure? ==> r.error == ValidationError({"template"})
    ensures r.Success? ==> Consistent(r.value) && r.value.layouts == st.layouts[id := Layout(template)]
    ensures r.Success? ==> r.value == st.(layouts := r.value.layouts)
  {
    if template !in st.templates then Failure(ValidationError({"template"}))
    else Success(st.(layouts := st.layouts[id := Layout(template)]))
  }

  /** The fields a Shape request is rejected for: an unknown layout or content
      type, a `shape_id` above `shapeIdMax`, or a text column that is blank, too
      long or holds a NUL once stripped.

      `shape_id` is a `PositiveIntegerField`, whose serializer field takes its
      `max_value` from the database backend's integer range (2147483647 on
      PostgreSQL and SQLite's 64-bit maximum, for instance): the bound is a
      parameter. */
  function ShapeRequestErrors(st: Store, shapeIdMax: nat, layout: Option<nat>, contentType: Option<nat>,
                              shapeId: Option<nat>, o: ShapeOptions): (errs: set<string>)
    ensures "layout" in errs <==> layout.Some? && layout.value !in st.layouts
    ensures "content_type" in errs <==> contentType.Some? && contentType.value !in st.contentTypes
    ensures "shape_id" in errs <==> shapeId.Some? && shapeId.value > shapeIdMax
    ensures forall c: Column :: c.Name() in errs <==> Given(o, c).Some? && BadValue(c, Given(o, c).value)
  {
    var refs := FieldErrors(st, shapeIdMax, layout, contentType, shapeId);
    var texts := ShapeTextErrors(o);
    ColumnsAreNotReferences(refs);
    ReferencesAreNotColumns(texts);
    refs + texts
  }

  /** No text column is named `layout`, `content_type` or `shape_id`. */
  lemma ReferencesAreNotColumns(texts: set<string>)
    requires texts <= TextColumnNames
    ensures "layout" !in texts && "content_type" !in texts && "shape_id" !in texts
  {
  }

  /** The Shape fields other than the text columns that a request is rejected for. */
  function FieldErrors(st: Store, shapeIdMax: nat, layout: Option<nat>, contentType: Option<nat>,
                       shapeId: Option<nat>): (errs: set<string>)
    ensures "layout" in errs <==> layout.Some? && layout.value !in st.layouts
    ensures "content_type" in errs <==> contentType.Some? && contentType.value !in st.contentTypes
    ensures "shape_id" in errs <==> shapeId.Some? && shapeId.value > shapeIdMax
    ensures errs <= {"layout", "content_type", "shape_id"}
  {
    RefError("layout", layout, st.layouts.Keys) + RefError("content_type", contentType, st.contentTypes.Keys)
    + RangeError("shape_id", shapeId, shapeIdMax)
  }

  /** The `max_value` check of an integer field. */
  function RangeError(field: string, v: Option<nat>, max: nat): (errs: set<string>)
    ensures field in errs <==> v.Some? && v.value > max
    ensures errs <= {field}
  {
    if v.Some? && v.value > max then {field} else {}
  }

  /** No column is named `layout`, `content_type` or `shape_id`. */
  lemma ColumnsAreNotReferences(refs: set<string>)
    requires refs <= {"layout", "content_type", "shape_id"}
    ensures forall c: Column :: c.Name() !in refs
  {
    forall c: Column ensures c.Name() !in refs {
      ColumnIsNotReference(c);
    }
  }

  lemma ColumnIsNotReference(c: Column)
    ensures c.Name() != "layout" && c.Name() != "content_type" && c.Name() != "shape_id"
  {
  }

  /** Creating a Shape. `shape_id` is a plain number: it is checked against the
      integer range only, not against any geometry table. */
  function CreateShape(st: Store, shapeIdMax: nat, id: nat, c: ShapeCreate): (r: Outcome<Store>)
    requires id !in st.shapes
    requires Consistent(st)
    ensures r.Success? <==> ShapeRequestErrors(st, shapeIdMax, Some(c.layout), Some(c.contentType), Some(c.shapeId), c.options) == {}
    ensures r.Failure? ==> r.error == ValidationError(ShapeRequestErrors(st, shapeIdMax, Some(c.layout), Some(c.contentType), Some(c.shapeId), c.options))
    ensures r.Success? ==> Consistent(r.value)
    ensures r.Success? ==> r.value.shapes == st.shapes[id := NewShape(c.(options := StripOptions(c.options)))]
    ensures r.Success? ==> SameGeometry(r.value, st)
    ensures r.Success? ==> r.value == st.(shapes := r.value.shapes)
  {
    var errs := ShapeRequestErrors(st, shapeIdMax, Some(c.layout), Some(c.contentType), Some(c.shapeId), c.options);
    if errs != {} then Failure(ValidationError(errs))
    else
      assert "layout" !in errs && "content_type" !in errs;
      var s := NewShape(c.(options := StripOptions(c.options)));
      PutShapeConsistent(st, id, s);
      Success(st.(shapes := st.shapes[id := s]))
  }

  function UpdateShape(st: Store, shapeIdMax: nat, id: nat, u: ShapeUpdate): (r: Outcome<Store>)
    requires Consistent(st)
    ensures id !in st.shapes ==> r == Failure(DoesNotExist("Shape"))
    ensures id in st.shapes ==> (r.Success? <==> ShapeRequestErrors(st, shapeIdMax, u.layout, u.contentType, u.shapeId, u.options) == {})
    ensures r.Success? ==> Consistent(r.value)
    ensures id in st.shapes && r.Failure? ==>
      r.error == ValidationError(ShapeRequestErrors(st, shapeIdMax, u.layout, u.contentType, u.shapeId, u.options))
    ensures r.Success? ==>
      r.value.shapes == st.shapes[id := ApplyShapeUpdate(st.shapes[id], u.(options := StripOptions(u.options)))]
    ensures r.Success? ==> r.value == st.(shapes := r.value.shapes)
  {
    if id !in st.shapes then Failure(DoesNotExist("Shape"))
    else
      var errs := ShapeRequestErrors(st, shapeIdMax, u.layout, u.contentType, u.shapeId, u.options);
      if errs != {} then Failure(ValidationError(errs))
      else
        assert "layout" !in errs && "content_type" !in errs;
        var s := ApplyShapeUpdate(st.shapes[id], u.(options := StripOptions(u.options)));
        PutShapeConsistent(st, id, s);
        Success(st.(shapes := st.shapes[id := s]))
  }

  /** Storing a Shape whose Layout and ContentType exist keeps the store consistent. */
  lemma PutShapeConsistent(st: Store, id: nat, s: Shape)
    requires Consistent(st)
    requires s.layout in st.layouts && s.contentType in st.contentTypes
    ensures Consistent(st.(shapes := st.shapes[id := s]))
  {
  }

  /** Creating a Media row: without `media_content` the declared default cannot be saved. */
  function CreateMedia(st: Store, id: nat, c: MediaCreate): (r: Outcome<Store>)
    requires id !in st.media
    requires Consistent(st)
    ensures c.mediaContent.Some? && c.mediaContent.value !in st.mediaContents ==>
      r == Failure(ValidationError({"media_content"}))
    ensures c.mediaContent.None? ==> r == Failure(IntegrityError("media_content"))
    ensures r.Success? <==> c.mediaContent.Some? && c.mediaContent.value in st.mediaContents
    ensures r.Success? ==> Consistent(r.value)
    ensures r.Success? ==> r.value.media == st.media[id := Media(c.width, c.height, c.mediaContent.value)]
    ensures r.Success? ==> r.value == st.(media := r.value.media)
  {
    if c.mediaContent.Some? && c.mediaContent.value !in st.mediaContents then
      Failure(ValidationError({"media_content"}))
    else
      var m :- NewMedia(c);
      Success(st.(media := st.media[id := m]))
  }

  /** The owner test against the store: with users 1 and 2 and template 1 of
      user 1, a PUT naming user 2 passes validation (user 2 exists), renames
      the template and leaves its owner at 1. */
  lemma TemplatePutScenario(st: Store)
    requires Consistent(st)
    requires st.users == {1, 2}
    requires st.templates == map[1 := NewTemplate(TemplateCreate(1, "test", None, None))]
    ensures var r := UpdateTemplate(st, 1, TemplateUpdate(Some(2), Some("test updated"), None, None));
      r.Success? && r.value.templates[1] == Template(1, "test updated", 800.0, 600.0)
  {
    TestUpdatedNameIsClean();
  }

  /** "test updated" has no surrounding space, fits in 64 characters and holds no NUL. */
  lemma TestUpdatedNameIsClean()
    ensures Strip("test updated") == "test updated"
    ensures !BadText("test updated", TemplateNameMaxLength)
  {
    assert !IsSpace('t');
    assert !IsSpace('d');
  }
}

# UpTemplate shape representation codec, in Dafny

UpTemplate is a Django REST backend for a canvas editor. The editor's users own
Templates. A Template holds Layouts, and a Layout holds Shapes. A Shape is a
placement record that points at one geometry row: a Rectangle, a Circle, a Text,
or a Media (an image backed by a MediaContent upload). The pair
`(content_type, shape_id)` selects the row.

This project models the part of the backend that turns stored rows into the
front end's JSON, and the records and cascades behind it:

- **Key renaming.** `snake_to_camel` and `dict_keys_snake_to_camel` rename
  keys on the way out. `camel_to_snake` renames them on the way in.
- **Dictionary helpers.** `flatten_dict`, `flattern_to_nested`,
  `format_complex_fields`, `ordered_dict_to_dict` and `clone_value_after_index`.
- **Registry tables.** `CONTENT_TYPE_TO_TYPE`, `CLASSNAME_TO_MODELS`,
  `CONTENT_TYPE_TO_CLASSNAME`, `MODELS_TYPE_TO_FIELDS`, and the ContentType
  rows they assume: 1 circle, 3 media, 4 rectangle, 5 text.
- **`ShapeSerializer.get_object`.** It dispatches on the ContentType's model
  name to the geometry serializer. `MediaSerializer` nests the MediaContent's
  data in place of its id.
- **`ShapeSerializer.to_representation`.** The Shape's serializer data goes
  through five steps:
  1. flatten the geometry `object`;
  2. pop `content_type` and look up its wire type;
  3. nest the two shadow offsets;
  4. camelCase every key;
  5. wrap the result as `{type, config}`.
- **`LayoutSerializer.to_representation`.** A Layout renders with its Shapes
  listed in query order.
- **`TemplateSerializer.update`.** It drops `user` before saving, so a
  Template's owner never changes.
- **The records of `models.py`.** They carry their defaults and length bounds.
- **Text validation.** A text column is a `CharField` without `blank=True`, so
  its serializer field strips surrounding white space (`str.strip()`), then
  rejects a blank value, a value longer than `max_length` and a value holding
  a NUL. The stored value is the stripped one.
- **A store of rows.** It has one map per table. Create and update
  operations validate their foreign keys and text columns. Delete operations
  follow every `on_delete=CASCADE` edge, and each one keeps every foreign
  key pointing at an existing row.

Layout of the Dafny modules:

| file | module | contents |
|---|---|---|
| `wrappers.dfy` | `Wrappers` | `Option` and `Result` |
| `values.dfy` | `PyValues` | Python values and dicts, the raised errors, `str()` on ids |
| `keys.dfy` | `KeyCase` | the two key renamings and their dict-level forms |
| `utils.dfy` | `Utils` | the helpers of `utils.py` |
| `models.dfy` | `Models` | the records, defaults, length checks, create and update inputs |
| `store.dfy` | `Store` | the tables, foreign keys and cascades |
| `registry.dfy` | `Registry` | the fixed tables |
| `serializers.dfy` | `Serializers` | `get_object`, the representation pipeline, layouts |

A Python dict is a `map<string, Value>`. Dict equality in Python ignores
order, so the map loses nothing the code or its callers look at. The one
exception is `flattern_to_nested`: its result depends on the order of the
input when the container name equals an input key outside `fields`, so it
takes the items as an ordered list. Every raised exception becomes a
`Failure` of an `Error` value. The errors are `KeyError`, `AttributeError`,
`DoesNotExist` of a model, `ValidationError` with the offending field names,
and `IntegrityError`.

Where the code differs from what the names suggest, the model follows the code:

- **The `_id` exemption.** `snake_to_camel` exempts only the literal key
  `_id`, which is the Shape's primary key. The geometry row's `id` is
  dropped by `flatten_dict`, so no top-level `id` appears in a Shape's config.
- **`draggable` is text.** It is a `CharField` whose default is `True`, so
  the value is stored and emitted as the text `"True"`, not as a boolean.
- **Deleting a Shape keeps its geometry.** The generic pair carries no
  cascade, so the geometry row stays.
- **No inbound expansion.** Nothing turns an inbound `shadowOffset` back into
  the two flat columns.
- **A Template renders without layouts.** `TemplateSerializer` declares a
  read-only `layouts` field, but `Layout.template` sets no `related_name`.
  The reverse accessor is therefore `layout_set`, and a Template's data
  carries no layouts, so the model has none.
- **A Media needs its MediaContent.** `Media.media_content` defaults to `""`.
  A foreign key saves `""` as NULL, and the column is NOT NULL. Creating a
  Media without naming a MediaContent therefore fails on INSERT, and
  `Models.NewMedia` returns an `IntegrityError`.
- **A text column is stripped and must not be blank.** The models only declare
  the length bounds. The columns declare no `blank=True`, so the serializer
  field strips the value and rejects a blank one; the length bound applies
  to the stripped value.
- **A PUT to a Template still checks `user`.** The serializer validates a
  `user` before `update` drops it. A PUT naming a user that does not exist
  fails validation, even though a valid one is ignored.

## Model

| member | source | states |
|---|---|---|
| PyValues.NatToStringInjective | UpTemplate/UpTemplateAPI/serializers.py:144 | `str()` of a content type id is injective, so distinct ids give distinct table keys |
| PyValues.NatToStringRoundTrip | UpTemplate/UpTemplateAPI/serializers.py:144 | the decimal text of an id reads back as the same id |
| KeyCase.SnakeToCamel | UpTemplate/UpTemplateAPI/serializers.py:159-160 | `_id` is returned unchanged; a key with no `_` is unchanged; the result is never longer than the key |
| KeyCase.SnakeToCamelPerCharacter | UpTemplate/UpTemplateAPI/serializers.py:159-160 | for any key but `_id`, the result is the piece-wise rewrite: each `_` directly followed by an ASCII letter is deleted and that letter upper-cased; every other character is kept |
| KeyCase.CamelToSnake | UpTemplate/UpTemplateAPI/utils.py:43 | on ASCII letters: the result has no upper-case ASCII letter; a key without upper-case letters is unchanged; the result is never shorter |
| KeyCase.CamelToSnakePerCharacter | UpTemplate/UpTemplateAPI/utils.py:43 | the result is the piece-wise rewrite: `_` is inserted before each upper-case letter not at position 0, then every ASCII letter is lower-cased |
| KeyCase.SnakeRoundTrip | UpTemplate/UpTemplateAPI/serializers.py:159-160 | for a snake_case key (ASCII letters, digits and `_` only, no upper case, no leading `_`, each `_` followed by a lower-case letter) or `_id`, `camel_to_snake` undoes `snake_to_camel` |
| KeyCase.CamelRoundTrip | UpTemplate/UpTemplateAPI/utils.py:40-45 | for a camelCase key (ASCII letters and digits only, lower-case start) or `_id`, `snake_to_camel` undoes `camel_to_snake` |
| KeyCase.SnakeToCamelInjective | UpTemplate/UpTemplateAPI/serializers.py:163-164 | two different snake_case keys (ASCII, as in `SnakeRoundTrip`) never rename to the same camelCase key |
| KeyCase.CamelToSnakeInjective | UpTemplate/UpTemplateAPI/utils.py:40-45 | two different camelCase keys (ASCII, as in `CamelRoundTrip`) never rename to the same snake_case key |
| KeyCase.DictKeysSnakeToCamel | UpTemplate/UpTemplateAPI/serializers.py:163-164 | the keys are the renamed keys; every value comes from the input; on snake_case keys each renamed key carries its original value |
| KeyCase.DictKeysCamelToSnake | UpTemplate/UpTemplateAPI/utils.py:40-45 | the keys are the renamed keys; every value comes from the input; on camelCase keys each renamed key carries its original value |
| KeyCase.SnakeDictRoundTrip | UpTemplate/UpTemplateAPI/serializers.py:163-164 | renaming a dict of ASCII snake_case keys to camelCase and back gives the same dict |
| KeyCase.CamelDictRoundTrip | UpTemplate/UpTemplateAPI/utils.py:40-45 | renaming a dict of ASCII camelCase keys to snake_case and back gives the same dict |
| KeyCase.CamelKeyPresent | UpTemplate/UpTemplateAPI/serializers.py:163-164 | a camelCase key is in the renamed dict exactly when its snake_case form is in the original |
| Utils.FlattenDict | UpTemplate/UpTemplateAPI/utils.py:26-33 | KeyError when the field is missing; AttributeError when it is not a dict; otherwise the keys are the outer keys minus the field plus the nested keys minus `id`, a nested value wins a collision, and every other outer key, an outer `id` included, keeps its value |
| Utils.FlattenToNestedPartition | UpTemplate/UpTemplateAPI/utils.py:48-56 | unless the container name is an input key outside `fields`, nesting succeeds, the listed keys sit under the container with their values and every other key stays at the top level with its value |
| Utils.FlattenInvertsNest | UpTemplate/UpTemplateAPI/utils.py:26-56 | when the container name is not an input key and `id` is not both listed and present, flattening the nested dict gives back the input |
| Utils.NestThenFlattenLosesId | UpTemplate/UpTemplateAPI/utils.py:30 | when `id` is listed and present, the round trip drops `id`, so the exclusion in the inverse is needed |
| Utils.OrderedDictToDict | UpTemplate/UpTemplateAPI/utils.py:14-20 | a non-dict is returned as is; a dict keeps its key set and every value that is not an OrderedDict, and no value of the result is an OrderedDict |
| Utils.OrderedDictToDictKeepsEquality | UpTemplate/UpTemplateAPI/utils.py:14-20 | the conversion changes no value under Python's dict equality, where an OrderedDict equals the dict with the same items |
| Utils.OrderedDictToDictIdempotent | UpTemplate/UpTemplateAPI/utils.py:14-20 | converting twice is converting once |
| Utils.FirstIndex | UpTemplate/UpTemplateAPI/utils.py:60 | `list.index` gives a position holding the value with no earlier occurrence |
| Utils.CloneValueAfterIndex | UpTemplate/UpTemplateAPI/utils.py:58-64 | the result is one longer and holds the input's elements plus one more copy of the value |
| Utils.CloneValueAfterIndexPlacement | UpTemplate/UpTemplateAPI/utils.py:58-64 | removing the inserted copy gives back the input; the copy sits right after the first occurrence when there is one, else at the end |
| Models.Strip | UpTemplate/UpTemplateAPI/models.py:10 | the stripped value is never longer and neither starts nor ends with white space |
| Models.StripIsInfix | UpTemplate/UpTemplateAPI/models.py:10 | the stripped value is the input without a run of white space at each end |
| Models.StripIdempotent | UpTemplate/UpTemplateAPI/models.py:10 | a stripped value strips to itself, so a stored value passes its own trim unchanged |
| Models.StripBlank | UpTemplate/UpTemplateAPI/models.py:10 | a value strips to the empty text exactly when all of it is white space |
| Models.TextErrors | UpTemplate/UpTemplateAPI/models.py:10 | the field is reported exactly when a value is given and, once stripped, is blank, longer than the bound or holds a NUL |
| Models.CleanText | UpTemplate/UpTemplateAPI/models.py:10 | a given value is kept as its stripped text; an omitted one stays omitted |
| Models.TemplateNameErrors | UpTemplate/UpTemplateAPI/models.py:10 | `name` is reported exactly when a given name, once stripped, is blank, longer than 64 characters or holds a NUL; a name that passes is stored as a stripped, non-blank name of at most 64 characters |
| Models.NewTemplate | UpTemplate/UpTemplateAPI/models.py:8-13 | owner and name are the request's; width and height are the request's when given, else 800 and 600 |
| Models.ApplyTemplateUpdate | UpTemplate/UpTemplateAPI/serializers.py:209-216 | the owner is never changed; each given field is set and each omitted field is kept |
| Models.TemplateOwnerNeverChanges | UpTemplate/UpTemplateAPI/serializers.py:209-216 | after any sequence of updates a Template is still owned by its creator |
| Models.TemplateUpdateIdempotent | UpTemplate/UpTemplateAPI/serializers.py:209-216 | applying the same update twice is applying it once |
| Models.TemplateOwnerScenario | UpTemplate/UpTemplateAPI/tests.py:101-116 | a Template of user 1 named "test", updated with user 2 and name "test updated", keeps user 1 and takes the new name |
| Models.ApplyShapeOptions | UpTemplate/UpTemplateAPI/serializers.py:112-117 | each column takes the request's value when given and keeps its value otherwise; the references are kept |
| Models.NewShape | UpTemplate/UpTemplateAPI/models.py:20-51 | the references are the request's; each column is the request's value when given, else the model's declared default |
| Models.ApplyShapeUpdate | UpTemplate/UpTemplateAPI/serializers.py:112-117 | every reference and column takes the request's value when given and keeps its value otherwise |
| Models.ShapeTextErrors | UpTemplate/UpTemplateAPI/models.py:39-51 | a column is reported exactly when it is one of the four text columns, is given, and once stripped is blank, longer than its bound (32 for the colours, 16 for `draggable`) or holds a NUL |
| Models.StripOptions | UpTemplate/UpTemplateAPI/models.py:39-51 | each given text column is replaced by its stripped text; every other column is unchanged |
| Models.ValidatedTextFits | UpTemplate/UpTemplateAPI/models.py:39-51 | a text column that passes validation is stored non-blank, within its bound and already stripped |
| Models.NewShapeDefaults | UpTemplate/UpTemplateAPI/models.py:29-51 | a Shape created with no columns is at (0, 0), with offsets and rotation 0 and scale 1, fill "white", stroke "black", stroke width and opacity 1, a black shadow with blur, offsets and opacity 0, and `draggable` "True"; it is within every length bound |
| Models.ShapeUpdateIdempotent | UpTemplate/UpTemplateAPI/serializers.py:112-117 | applying the same Shape update twice is applying it once |
| Models.EmptyShapeUpdate | UpTemplate/UpTemplateAPI/serializers.py:112-117 | an update that gives no field leaves the Shape unchanged |
| Models.CreateIsDefaultThenUpdate | UpTemplate/UpTemplateAPI/models.py:20-51 | creating a Shape with columns is creating it with defaults and then updating those columns |
| Models.ApplyRectangleUpdate | UpTemplate/UpTemplateAPI/serializers.py:25-37 | a given width or height replaces the stored one; an omitted one is kept |
| Models.ApplyCircleUpdate | UpTemplate/UpTemplateAPI/serializers.py:40-52 | a given radius replaces the stored one; without one the Circle is unchanged |
| Models.ApplyTextUpdate | UpTemplate/UpTemplateAPI/serializers.py:76-88 | each given font family, font size and text replaces the stored one; each omitted one is kept |
| Models.ApplyMediaUpdate | UpTemplate/UpTemplateAPI/serializers.py:55-66 | each given width, height and MediaContent id replaces the stored one; each omitted one is kept |
| Models.GeometryUpdatesIdempotent | UpTemplate/UpTemplateAPI/serializers.py:25-88 | for Rectangles, Circles, Texts and Media, applying the same partial update twice is applying it once |
| Models.NewMedia | UpTemplate/UpTemplateAPI/models.py:77-81 | a Media is created exactly when a MediaContent is named; otherwise the `""` default, saved as NULL, fails with an IntegrityError |
| Models.NewMediaContent | UpTemplate/UpTemplateAPI/models.py:68-74 | original width and height default to 100 and alt to "Image Description"; given values are kept |
| Models.NewMediaContentDefaults | UpTemplate/UpTemplateAPI/models.py:68-74 | omitting a field is the same as sending its default, and a request giving every field stores exactly the row it describes |
| Models.MediaContentDefaultsValid | UpTemplate/UpTemplateAPI/models.py:73 | the default alt text fits the 128-character bound |
| Store.DeleteTemplate | UpTemplate/UpTemplateAPI/models.py:15-16 | the Template goes, and with it exactly its Layouts, those Layouts' Shapes and the relation rows naming either; every kept row is unchanged; users, ContentTypes, MediaContents and geometry are untouched; every foreign key still resolves |
| Store.DeleteLayout | UpTemplate/UpTemplateAPI/models.py:20-22 | the Layout goes, with exactly its Shapes and the relation rows naming it or one of those Shapes; every kept row is unchanged; users, ContentTypes, Templates, MediaContents and geometry are untouched; every foreign key still resolves |
| Store.DeleteShape | UpTemplate/UpTemplateAPI/models.py:85-87 | the Shape goes with exactly the relation rows naming it; every kept row is unchanged; users, ContentTypes, Templates, Layouts, MediaContents and geometry are untouched; every foreign key still resolves |
| Store.DeleteMediaContent | UpTemplate/UpTemplateAPI/models.py:77-81 | the MediaContent goes with exactly the Media rows using it; every kept Media is unchanged; every other table is untouched; every foreign key still resolves |
| Store.DeleteUser | UpTemplate/UpTemplateAPI/models.py:8-9 | the user goes and every foreign key still resolves; ContentTypes, rectangles, texts and circles are untouched; every row kept in the other tables is unchanged |
| Store.DeleteUserRemovesOwned | UpTemplate/UpTemplateAPI/models.py:74 | after deleting a user, the remaining Templates, MediaContents, Layouts, Shapes, relation rows and Media are exactly those not owned, directly or through a Template or MediaContent, by that user |
| Store.DeleteRectangle | UpTemplate/UpTemplateAPI/models.py:24-26 | deleting a geometry row removes only that Rectangle and changes no other table, so every Shape is kept, and the store stays consistent, since the generic pair is not a foreign key |
| Store.CreateTemplate | UpTemplate/UpTemplateAPI/models.py:8-13 | succeeds exactly when the user exists and the name, once stripped, is neither blank, too long nor holding a NUL; otherwise a ValidationError names the failing fields; on success the new row is the defaulted Template with the stripped name, and no other table changes |
| Store.UpdateTemplate | UpTemplate/UpTemplateAPI/serializers.py:209-216 | DoesNotExist for an unknown id; otherwise succeeds exactly when a given user exists and a given name passes the text check, else a ValidationError naming them; on success the Template takes the update with its name stripped, keeps its owner, the set of Templates is unchanged, and no other table changes |
| Store.CreateLayout | UpTemplate/UpTemplateAPI/models.py:15-16 | succeeds exactly when the Template exists, else a ValidationError naming `template`; on success it adds the Layout and changes no other table |
| Store.ShapeRequestErrors | UpTemplate/UpTemplateAPI/models.py:20-51 | `layout` and `content_type` are reported exactly when they name missing rows; `shape_id` exactly when it exceeds the backend's integer bound; a column exactly when its given text, once stripped, is blank, too long or holds a NUL |
| Store.CreateShape | UpTemplate/UpTemplateAPI/models.py:20-51 | succeeds exactly when the request has no error (references, `shape_id` bound, text columns), else a ValidationError with all of them; on success the new row is `NewShape` of the request with its text columns stripped, and no other table changes |
| Store.UpdateShape | UpTemplate/UpTemplateAPI/serializers.py:112-117 | DoesNotExist for an unknown id; otherwise succeeds exactly when the request has no error, else a ValidationError with all of them; on success it stores the Shape updated with the request's text columns stripped, and no other table changes |
| Store.CreateMedia | UpTemplate/UpTemplateAPI/models.py:77-81 | an IntegrityError with no MediaContent named, a ValidationError for a missing one, otherwise the new Media with the request's width, height and MediaContent, and no other table changes |
| Store.TemplatePutScenario | UpTemplate/UpTemplateAPI/tests.py:101-116 | a PUT of user 2 and name "test updated" to Template 1 of user 1 succeeds, renames it and keeps user 1 |
| Registry.TableKeys | UpTemplate/UpTemplateAPI/serializers.py:259-264 | the two tables keyed by content type cover the same ids, which are exactly the installed ContentType rows |
| Registry.ClassNameTablesInverse | UpTemplate/UpTemplateAPI/serializers.py:232-264 | `CLASSNAME_TO_MODELS` and `CONTENT_TYPE_TO_CLASSNAME` are mutual inverses |
| Registry.ContentTypeToTypeInjective | UpTemplate/UpTemplateAPI/serializers.py:91-96 | distinct content types have distinct wire types |
| Registry.WireNamesMatchClassNames | UpTemplate/UpTemplateAPI/serializers.py:91-96 | each content type's wire type is "v-" and its lower-cased class name |
| Registry.RegistryMatchesInstalledContentTypes | UpTemplate/UpTemplateAPI/serializers.py:232-257 | each registry entry's content type is the installed row of its model, and every installed row has an entry |
| Registry.ClassNamesRegistered | UpTemplate/UpTemplateAPI/serializers.py:232-257 | every geometry model has its entry, and each entry names its own model |
| Registry.RectFieldsAgree | UpTemplate/UpTemplateAPI/utils.py:35-37 | the helper's rectangle fields are the registry's Rect fields |
| Registry.GeometryFor | UpTemplate/UpTemplateAPI/serializers.py:123-135 | exactly the four model names rectangle, circle, media and text select a geometry model, and the one whose name they are |
| Serializers.RegistryFieldsAreSerializerFields | UpTemplate/UpTemplateAPI/serializers.py:232-257 | each registry field list is exactly its serializer's fields other than `id` |
| Serializers.MediaData | UpTemplate/UpTemplateAPI/serializers.py:68-73 | a Media renders exactly when its MediaContent exists, as its id, width and height and that MediaContent's data in place of its id; otherwise MediaContent DoesNotExist |
| Serializers.GetObject | UpTemplate/UpTemplateAPI/serializers.py:120-137 | `{}` for a model name other than the four; otherwise success exactly when the row, and for a Media its MediaContent, exists, showing the serializer's keys, the row's `id` and every column's stored value (for a Media, its MediaContent's data in place of the id); the missing model's DoesNotExist otherwise |
| Serializers.CreatedMediaRenders | UpTemplate/UpTemplateAPI/serializers.py:68-73 | a Media just created is then shown by `get_object` with the request's width and height and the named MediaContent's data |
| Serializers.ShapeOwnColumnsAgree | UpTemplate/UpTemplateAPI/serializers.py:99-109 | the Shape serializer emits every column under its model name with the row's value |
| Serializers.ShapeData | UpTemplate/UpTemplateAPI/serializers.py:99-109 | DoesNotExist for a missing ContentType row; otherwise fails exactly when `get_object` fails; on success the keys are exactly the columns, `_id`, `content_type` and `object` (so never `layout` or `shape_id`), each column carries the row's value, `_id` the Shape's id, `content_type` its content type id and `object` the `get_object` data |
| Serializers.FormatComplexFields | UpTemplate/UpTemplateAPI/serializers.py:167-172 | KeyError for a missing offset; otherwise the two offsets become one `shadow_offset` `{x, y}` and every other key keeps its value |
| Serializers.FormatComplexFieldsInvertible | UpTemplate/UpTemplateAPI/serializers.py:167-172 | putting the two offsets back from `shadow_offset` gives back the input |
| Serializers.ReshapeShapeDict | UpTemplate/UpTemplateAPI/serializers.py:140-156 | on data whose geometry fields avoid the Shape's keys, the reshaping fails with KeyError for an unlisted content type and otherwise wraps the camelCased merged fields |
| Serializers.ToRepresentation | UpTemplate/UpTemplateAPI/serializers.py:140-156 | a missing ContentType row raises DoesNotExist, and a rendered Shape is a `{type, config}` pair whose config is a dict; the complete outcome is stated by `Serializers.ToRepresentationOutcome` |
| Serializers.ToRepresentationOutcome | UpTemplate/UpTemplateAPI/serializers.py:140-156 | the errors propagate in order: a missing ContentType, then `get_object`'s error, then KeyError of an unlisted id; otherwise the wrapped camelCased config |
| Serializers.ToRepresentationSucceeds | UpTemplate/UpTemplateAPI/serializers.py:140-156 | rendering succeeds exactly when the ContentType row exists, is one of the four installed ids, and `get_object` succeeds |
| Serializers.ToRepresentationShape | UpTemplate/UpTemplateAPI/serializers.py:151-154 | a rendered Shape has exactly the keys `type` and `config`, and `type` is the table's entry for its content type |
| Serializers.ConfigKeys | UpTemplate/UpTemplateAPI/serializers.py:140-172 | the config holds `_id` as the Shape's id and `shadowOffset` as `{x, y}`; it holds no `id`, content type, shape id, layout or flat offsets |
| Serializers.ConfigValues | UpTemplate/UpTemplateAPI/serializers.py:149 | every other column and every geometry field but `id` appears under its camelCase name with its value |
| Serializers.RenderingReadsGeometry | UpTemplate/UpTemplateAPI/serializers.py:120-137 | rendering depends only on the ContentType rows, the geometry tables and the MediaContents |
| Serializers.DeleteShapeKeepsOthersRendering | UpTemplate/UpTemplateAPI/models.py:24-26 | deleting one Shape changes no other Shape's rendering |
| Serializers.DeleteMediaContentBreaksItsShapes | UpTemplate/UpTemplateAPI/models.py:81 | after its MediaContent is deleted, a Shape showing that Media fails to render with Media DoesNotExist |
| Serializers.RenderEach | UpTemplate/UpTemplateAPI/serializers.py:185 | a list renders exactly when every item does, item by item in order; otherwise the first failure's error |
| Serializers.LayoutRepresentation | UpTemplate/UpTemplateAPI/serializers.py:183-186 | a Layout renders exactly when all its Shapes do, as `id`, `template` and its Shapes' renderings in query order |
| Serializers.LayoutListsItsShapes | UpTemplate/UpTemplateAPI/serializers.py:185 | the i-th rendered Shape's config `_id` is the i-th Shape id of the query |
| Serializers.RenderedConfigId | UpTemplate/UpTemplateAPI/serializers.py:160 | a rendered Shape's config carries its own primary key under `_id` |
| Serializers.RectangleRenders | UpTemplate/UpTemplateAPI/serializers.py:123-124 | a Shape of the rectangle content type whose rectangle exists renders as `v-rect`, its config built on that rectangle's data |
| Serializers.RectangleConfig | UpTemplate/UpTemplateAPI/serializers.py:142 | over a rectangle's data, the config has the Shape's `_id`, no `id`, and the rectangle's width and height |
| Serializers.PlacementInConfig | UpTemplate/UpTemplateAPI/serializers.py:149 | the config carries the Shape's `x`, `y` and `draggable` under the same names |
| Serializers.ScenarioShapeColumns | UpTemplate/UpTemplateAPI/models.py:29-51 | a Shape created at (1, 30) on rectangle 7 keeps the defaults `draggable` "True" and offsets 0 |
| Serializers.RectangleScenario | UpTemplate/UpTemplateAPI/serializers.py:140-156 | that Shape, rendered as Shape 3 over a 1000 by 2000 rectangle, is a `v-rect` whose config has `_id` 3, no `id`, width 1000, height 2000, x 1, y 30 and `draggable` "True" |

## Left out

- `views.py`, `urls.py` and `admin.py`: request routing, viewsets and admin registration are not part of this model.
- `UserSerializer` and `validate_password`: password hashing is a foreign call.
- `set_cct`: it writes ContentType rows to the database. The model takes the installed rows as fixed.
- Deleting a ContentType row, which would cascade to Shapes: the rows are fixed above.
- Floating-point columns are opaque reals. No arithmetic is done on them, so rounding plays no part.
- The order in which the database returns a Layout's Shapes is a parameter (`order`), constrained only to list each of the Layout's Shapes once.
- `Store.Consistent` stands for the database's foreign key integrity. Operations require it of the store they receive and keep it.
- Transactions, concurrency and the HTTP status codes are not modelled.
- File uploads: a MediaContent's `content` is an optional path text.
- KeyCase.DictKeysSnakeToCamel: when two keys rename to the same key, Python keeps the later key's value, but a map has no order, so the model only states that the value is one of the input's. On snake_case keys, as every key the pipeline renames is, renaming is injective and the value is exact.
- KeyCase.DictKeysCamelToSnake: the same collision choice as above; exact on camelCase keys. It renames with the ASCII-only lowering of `KeyCase.CamelToSnake`.
- Utils.FlattenToNested: its own contract only states that the container key is present; its full behaviour is stated by `Utils.FlattenToNestedPartition`, under that lemma's no-clash condition. When the container name equals an unlisted input key, the outcome depends on the order of the items.
- KeyCase.CamelToSnake: `str.lower()` lowers every cased character, but the model lowers only ASCII letters; for a key with a non-ASCII upper-case letter the result differs.
- KeyCase.CamelToSnakePerCharacter: states the ASCII-only lowering above, so it says nothing about a non-ASCII letter's lower-case form.
- KeyCase.SnakeRoundTrip: stated for keys of ASCII letters, digits and `_` only (every column and field name is one); a key with a non-ASCII character is not covered.
- KeyCase.CamelRoundTrip: stated for ASCII camelCase keys only, because of the lowering above.
- KeyCase.SnakeToCamelInjective: stated for ASCII snake_case keys only.
- KeyCase.CamelToSnakeInjective: stated for ASCII camelCase keys only.
- KeyCase.SnakeDictRoundTrip: stated for dicts whose keys are ASCII snake_case keys only.
- KeyCase.CamelDictRoundTrip: stated for dicts whose keys are ASCII camelCase keys only.
- Input validation of the geometry serializers and of `MediaContentSerializer` (blank checks, stripping and `max_length` of `font_family`, `text` and `alt`) is not modelled: their create and update functions take already validated data.
- Store.ShapeRequestErrors: request ids are natural numbers, so a negative `shape_id`, which the field's `min_value` of 0 rejects, cannot be written; the upper bound `shapeIdMax` is a parameter because Django takes it from the database backend.
- Store.CreateShape: the same negative `shape_id` case as `Store.ShapeRequestErrors`.
- Store.UpdateShape: the same negative `shape_id` case as `Store.ShapeRequestErrors`.
- `str()` of a float, list or dict value under `content_type`: `Serializers.ContentTypeKey` stands in a placeholder that is no table key, because the serializer's data always holds an integer id there.
- The `max_length=32` on `shadow_blurr` is ignored, since Django does not enforce it on a `FloatField`.

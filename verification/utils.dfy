/**
  The dict and list helpers the serializers use to reshape representations:
  `flatten_dict` (lift a nested object's fields into its parent),
  `flattern_to_nested` (push chosen fields down into a nested object),
  `ordered_dict_to_dict` and `clone_value_after_index`.
 */
module Utils {
  import opened Wrappers
  import opened PyValues

  // ------------------------------------------------------------------
  // flatten_dict
  // ------------------------------------------------------------------

  /** `flatten_dict(d, field)`: pops `d[field]` and copies each of its
      entries except `id` into `d`, the nested value winning on a clash.
      `pop` raises KeyError when `field` is absent, and `.items()` raises
      AttributeError when the popped value is not a dict. */
  function FlattenDict(d: PyDict, field: string): (r: Outcome<PyDict>)
    ensures field !in d ==> r == Failure(KeyError(field))
    ensures field in d && !d[field].IsDict() ==> r == Failure(AttributeError("items"))
    ensures r.Success? <==> field in d && d[field].IsDict()
    ensures r.Success? ==> var nested := d[field].fields;
      && (forall k :: k in r.value <==> (k in d && k != field) || (k in nested && k != "id"))
      && (forall k :: k in nested && k != "id" ==> r.value[k] == nested[k])
      && (forall k :: k in d && k != field && (k !in nested || k == "id") ==> r.value[k] == d[k])
  {
    if field !in d then Failure(KeyError(field))
    else if !d[field].IsDict() then Failure(AttributeError("items"))
    else
      var nested := d[field].fields;
      Success((d - {field}) + (nested - {"id"}))
  }

  // ------------------------------------------------------------------
  // flattern_to_nested
  // ------------------------------------------------------------------

  /** `flattern_to_nested(items, fields, field)`: starts from `{field: {}}`
      and walks the items in order, writing a key listed in `fields` into
      `res[field]` and any other key at the top level. A top-level key equal
      to `field` replaces the container; a later listed key then writes into
      that value, which fails with TypeError unless it is a dict. */
  function FlattenToNested(items: Items, fields: seq<string>, field: string): (r: Outcome<PyDict>)
    ensures r.Success? ==> field in r.value
    decreases |items|
  {
    if |items| == 0 then Success(map[field := Dict(map[])])
    else
      var res :- FlattenToNested(items[..|items| - 1], fields, field);
      var (key, value) := items[|items| - 1];
      if key in fields then
        match res[field]
        case Dict(m) => Success(res[field := Dict(m[key := value])])
        case OrderedDict(m) => Success(res[field := OrderedDict(m[key := value])])
        case _ => Failure(TypeError)
      else
        Success(res[key := value])
  }

  /** The entries of `d` whose keys are listed in `fields`. */
  function Select(d: PyDict, fields: seq<string>): (s: PyDict)
    ensures forall k :: k in s <==> k in d && k in fields
  {
    map k | k in d && k in fields :: d[k]
  }

  /** The entries of `d` whose keys are not listed in `fields`. */
  function Reject(d: PyDict, fields: seq<string>): (s: PyDict)
    ensures forall k :: k in s <==> k in d && k !in fields
  {
    map k | k in d && k !in fields :: d[k]
  }

  /** `r` is `d` nested: the listed entries under `field`, the others at the top. */
  predicate NestedAs(r: PyDict, d: PyDict, fields: seq<string>, field: string) {
    && field in r
    && r[field] == Dict(Select(d, fields))
    && r - {field} == Reject(d, fields)
  }

  /** Without a clash between `field` and an unlisted key, nesting always
      succeeds and every input key lands exactly once: under `field` if it is
      listed, at the top level otherwise. */
  lemma {:induction false} FlattenToNestedPartition(items: Items, fields: seq<string>, field: string)
    requires DistinctKeys(items)
    requires !(field in KeysOf(items) && field !in fields)
    ensures FlattenToNested(items, fields, field).Success?
    ensures NestedAs(FlattenToNested(items, fields, field).value, ItemsToDict(items), fields, field)
    decreases |items|
  {
    if |items| > 0 {
      var init := items[..|items| - 1];
      var (key, value) := items[|items| - 1];
      PrefixFacts(items);
      FlattenToNestedPartition(init, fields, field);
      NestStep(FlattenToNested(init, fields, field).value, ItemsToDict(init), fields, field, key, value);
    }
  }

  /** Dropping the last item keeps the keys distinct and removes exactly that item's key. */
  lemma PrefixFacts(items: Items)
    requires DistinctKeys(items) && |items| > 0
    ensures var init := items[..|items| - 1]; var key := items[|items| - 1].0;
      && DistinctKeys(init)
      && KeysOf(init) <= KeysOf(items)
      && key in KeysOf(items)
      && key !in ItemsToDict(init)
      && ItemsToDict(items) == ItemsToDict(init)[key := items[|items| - 1].1]
  {
    var init := items[..|items| - 1];
    var key := items[|items| - 1].0;
    forall k | k in KeysOf(init) ensures k in KeysOf(items) {
      var i :| 0 <= i < |init| && init[i].0 == k;
      assert items[i] == init[i];
    }
    forall i, j | 0 <= i < j < |init| ensures init[i].0 != init[j].0 {
      assert init[i] == items[i] && init[j] == items[j];
    }
    forall i | 0 <= i < |init| ensures init[i].0 != key {
      assert init[i] == items[i];
    }
  }

  /** One iteration of the loop in `flattern_to_nested` keeps `NestedAs`. */
  lemma NestStep(r0: PyDict, d0: PyDict, fields: seq<string>, field: string, key: string, value: Value)
    requires NestedAs(r0, d0, fields, field)
    requires key !in d0
    requires key == field ==> key in fields
    ensures key in fields ==> NestedAs(r0[field := Dict(r0[field].fields[key := value])], d0[key := value], fields, field)
    ensures key !in fields ==> NestedAs(r0[key := value], d0[key := value], fields, field)
  {
    var d := d0[key := value];
    if key in fields {
      assert Select(d, fields) == Select(d0, fields)[key := value];
      assert Reject(d, fields) == Reject(d0, fields);
      assert r0[field := Dict(r0[field].fields[key := value])] - {field} == r0 - {field};
    } else {
      assert Select(d, fields) == Select(d0, fields);
      assert Reject(d, fields) == Reject(d0, fields)[key := value];
      assert r0[key := value] - {field} == (r0 - {field})[key := value];
    }
  }

  /** `flatten_dict` undoes `flattern_to_nested` when the container name is
      not an input key and no listed input key is `id` (which flattening skips). */
  lemma FlattenInvertsNest(items: Items, fields: seq<string>, field: string)
    requires DistinctKeys(items)
    requires field !in KeysOf(items)
    requires !("id" in KeysOf(items) && "id" in fields)
    ensures var nested := FlattenToNested(items, fields, field);
      nested.Success? && FlattenDict(nested.value, field) == Success(ItemsToDict(items))
  {
    FlattenToNestedPartition(items, fields, field);
    var d := ItemsToDict(items);
    var r := FlattenToNested(items, fields, field).value;
    var flat := FlattenDict(r, field).value;
    assert flat == d by {
      forall k | k in d ensures k in flat && flat[k] == d[k] {
        if k in fields {
          assert k != "id";
        } else {
          assert k in r - {field};
        }
      }
    }
  }

  /** A listed `id` does not survive the round trip: `flatten_dict` skips it. */
  lemma NestThenFlattenLosesId(items: Items, fields: seq<string>, field: string)
    requires DistinctKeys(items)
    requires field !in KeysOf(items) && field != "id"
    requires "id" in KeysOf(items) && "id" in fields
    ensures var nested := FlattenToNested(items, fields, field);
      nested.Success? && FlattenDict(nested.value, field).Success?
      && "id" !in FlattenDict(nested.value, field).value
  {
    FlattenToNestedPartition(items, fields, field);
  }

  // ------------------------------------------------------------------
  // ordered_dict_to_dict
  // ------------------------------------------------------------------

  /** `ordered_dict_to_dict(v)`: a non-dict comes back unchanged; a dict
      becomes a plain dict with the same keys, recursing only into values that
      are OrderedDicts (a plain dict value is copied as it is). */
  function OrderedDictToDict(v: Value): (r: Value)
    ensures !v.IsDict() ==> r == v
    ensures v.IsDict() ==> r.Dict? && r.fields.Keys == v.fields.Keys
    ensures v.IsDict() ==> forall k :: k in v.fields && !v.fields[k].OrderedDict? ==> r.fields[k] == v.fields[k]
    ensures v.IsDict() ==> forall k :: k in r.fields ==> !r.fields[k].OrderedDict?
    decreases v
  {
    if v.IsDict() then
      Dict(map k | k in v.fields ::
        if v.fields[k].OrderedDict? then OrderedDictToDict(v.fields[k]) else v.fields[k])
    else v
  }

  /** A value as Python's `==` sees it: an OrderedDict equals the plain dict
      with the same items, at every depth. */
  function Plain(v: Value): Value
    decreases v
  {
    match v
    case Dict(m) => Dict(map k | k in m :: Plain(m[k]))
    case OrderedDict(m) => Dict(map k | k in m :: Plain(m[k]))
    case List(xs) => List(seq(|xs|, i requires 0 <= i < |xs| => Plain(xs[i])))
    case _ => v
  }

  /** The conversion never changes what the value compares equal to, which is
      why the tests can compare its result against plain dict literals. */
  lemma {:induction false} OrderedDictToDictKeepsEquality(v: Value)
    ensures Plain(OrderedDictToDict(v)) == Plain(v)
    decreases v
  {
    if v.IsDict() {
      var r := OrderedDictToDict(v);
      forall k | k in v.fields ensures Plain(r.fields[k]) == Plain(v.fields[k]) {
        if v.fields[k].OrderedDict? {
          OrderedDictToDictKeepsEquality(v.fields[k]);
        }
      }
      assert Plain(r).fields == Plain(v).fields;
    }
  }

  /** Converting twice is converting once. */
  lemma OrderedDictToDictIdempotent(v: Value)
    ensures OrderedDictToDict(OrderedDictToDict(v)) == OrderedDictToDict(v)
  {
    var r := OrderedDictToDict(v);
    if v.IsDict() {
      assert OrderedDictToDict(r).fields == r.fields;
    }
  }

  // ------------------------------------------------------------------
  // clone_value_after_index
  // ------------------------------------------------------------------

  /** `xs.index(v)`: the position of the first occurrence. */
  function FirstIndex<T(==)>(xs: seq<T>, v: T): (i: nat)
    requires v in xs
    ensures i < |xs| && xs[i] == v
    ensures v !in xs[..i]
  {
    if xs[0] == v then 0
    else
      var j := FirstIndex(xs[1..], v);
      assert xs[..j + 1] == [xs[0]] + xs[1..][..j];
      j + 1
  }

  /** Where `clone_value_after_index` puts the copy: right after the first
      occurrence of `v`, or at the end when there is none. */
  function ClonePosition<T(==)>(v: T, xs: seq<T>): (p: nat)
    ensures p <= |xs|
  {
    if v in xs then FirstIndex(xs, v) + 1 else |xs|
  }

  /** `clone_value_after_index(v, xs)`. */
  function CloneValueAfterIndex<T(==)>(v: T, xs: seq<T>): (r: seq<T>)
    ensures |r| == |xs| + 1
    ensures multiset(r) == multiset(xs) + multiset{v}
  {
    if v in xs then
      var i := FirstIndex(xs, v);
      assert xs == xs[..i + 1] + xs[i + 1..];
      xs[..i + 1] + [v] + xs[i + 1..]
    else
      xs + [v]
  }

  /** The copy sits at `ClonePosition`; taking it out gives back the input,
      so every other element keeps its order. When `v` was present, the copy
      directly follows its first occurrence, which is still the first. */
  lemma CloneValueAfterIndexPlacement<T>(v: T, xs: seq<T>)
    ensures var r := CloneValueAfterIndex(v, xs); var p := ClonePosition(v, xs);
      && r[p] == v
      && r[..p] + r[p + 1..] == xs
      && (v in xs ==> p >= 1 && r[p - 1] == v && v !in r[..p - 1])
      && (v !in xs ==> p == |xs|)
  {
    var r := CloneValueAfterIndex(v, xs);
    var p := ClonePosition(v, xs);
    if v in xs {
      var i := FirstIndex(xs, v);
      assert r[..p] == xs[..i + 1];
      assert r[p + 1..] == xs[i + 1..];
      assert r[..p - 1] == xs[..i];
    } else {
      assert r[..p] == xs;
    }
  }
}

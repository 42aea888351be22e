/**
  The Python values the serializers and helpers pass around: JSON-like scalars,
  lists and string-keyed dicts. Numbers are opaque: nothing in the modelled code
  does arithmetic on a field value, so a float is a `real` that is only copied
  and compared.
 */
module PyValues {
  import opened Wrappers

  datatype Value =
    | Null
    | Bool(b: bool)
    | Int(i: int)
    | Float(r: real)
    | Str(s: string)
    | List(items: seq<Value>)
    | Dict(fields: map<string, Value>)
      /** A `collections.OrderedDict`, as DRF returns for serializer data.
          It compares equal to a plain dict with the same items. */
    | OrderedDict(fields: map<string, Value>)
  {
    /** `isinstance(v, dict)`: an OrderedDict is a dict too. */
    predicate IsDict() {
      Dict? || OrderedDict?
    }
  }

  /** A dict as the code compares it: by its key/value pairs, whatever the order. */
  type PyDict = map<string, Value>

  /** A dict's `items()` in insertion order, for the one helper whose result depends on it. */
  type Items = seq<(string, Value)>

  /** The exceptions the modelled code raises or lets escape. */
  datatype Error =
    | KeyError(key: string)
    | AttributeError(name: string)
      /** Item assignment on a value that is not a dict. */
    | TypeError
      /** `Model.objects.get(pk=...)` found no row of the named model. */
    | DoesNotExist(model: string)
      /** DRF's `ValidationError`, naming every offending field at once. */
    | ValidationError(fields: set<string>)
      /** A row the database refuses on INSERT (`IntegrityError`): a foreign key
          default of `""` is saved as NULL into a NOT NULL column. */
    | IntegrityError(field: string)

  type Outcome<T> = Result<T, Error>

  predicate DistinctKeys(items: Items) {
    forall i, j :: 0 <= i < j < |items| ==> items[i].0 != items[j].0
  }

  function KeysOf(items: Items): set<string> {
    set i | 0 <= i < |items| :: items[i].0
  }

  /** `dict(items)`: a later item overwrites an earlier one with the same key. */
  function ItemsToDict(items: Items): (d: PyDict)
    ensures d.Keys == KeysOf(items)
    ensures DistinctKeys(items) ==> forall i :: 0 <= i < |items| ==> d[items[i].0] == items[i].1
  {
    if |items| == 0 then map[]
    else
      var init := items[..|items| - 1];
      var last := items[|items| - 1];
      assert KeysOf(items) == KeysOf(init) + {last.0} by {
        forall k | k in KeysOf(items) ensures k in KeysOf(init) + {last.0} {
          var i :| 0 <= i < |items| && items[i].0 == k;
          if i < |items| - 1 { assert init[i] == items[i]; }
        }
      }
      var d := ItemsToDict(init)[last.0 := last.1];
      assert DistinctKeys(items) ==> forall i :: 0 <= i < |items| ==> d[items[i].0] == items[i].1 by {
        if DistinctKeys(items) {
          forall i | 0 <= i < |items| ensures d[items[i].0] == items[i].1 {
            if i < |items| - 1 {
              assert init[i] == items[i];
              assert items[i].0 != last.0;
            }
          }
        }
      }
      d
  }

  // ---- str(n) for the content-type ids the registry tables are keyed by ----

  function DigitChar(d: nat): (c: char)
    requires d < 10
    ensures '0' <= c <= '9'
    ensures DigitValue(c) == d
  {
    ('0' as int + d) as char
  }

  function DigitValue(c: char): nat {
    if '0' <= c <= '9' then (c as int - '0' as int) as nat else 0
  }

  /** `str(n)` for a non-negative Python int: decimal digits, no leading zero. */
  function NatToString(n: nat): (r: string)
    ensures |r| >= 1
    ensures forall i :: 0 <= i < |r| ==> '0' <= r[i] <= '9'
    ensures n < 10 <==> |r| == 1
    ensures n >= 10 ==> r[0] != '0'
  {
    if n < 10 then [DigitChar(n)] else NatToString(n / 10) + [DigitChar(n % 10)]
  }

  /** Reads a string of decimal digits back as a number (`int(s)`). */
  function DecimalValue(s: string): nat {
    if |s| == 0 then 0 else DecimalValue(s[..|s| - 1]) * 10 + DigitValue(s[|s| - 1])
  }

  /** `int(str(n)) == n`: the rendering loses nothing, so distinct ids give distinct keys. */
  lemma {:induction false} NatToStringRoundTrip(n: nat)
    ensures DecimalValue(NatToString(n)) == n
  {
    if n >= 10 {
      var s := NatToString(n);
      assert s[..|s| - 1] == NatToString(n / 10);
      assert DigitValue(s[|s| - 1]) == n % 10;
      NatToStringRoundTrip(n / 10);
      assert DecimalValue(s) == (n / 10) * 10 + n % 10;
    }
  }

  lemma NatToStringInjective(m: nat, n: nat)
    requires NatToString(m) == NatToString(n)
    ensures m == n
  {
    NatToStringRoundTrip(m);
    NatToStringRoundTrip(n);
  }
}

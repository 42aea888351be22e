/**
  The two key-renaming rules of the API: `snake_to_camel` (outbound, persisted
  field name to wire name) and `camel_to_snake` (inbound), the dict-level
  versions that rename every key of a dict, and the round trips between them.
 */
module KeyCase {
  import opened PyValues

  predicate IsUpper(c: char) { 'A' <= c <= 'Z' }

  predicate IsLower(c: char) { 'a' <= c <= 'z' }

  /** The regex class `[a-zA-Z]`. */
  predicate IsLetter(c: char) { IsUpper(c) || IsLower(c) }

  /** `str.upper()` on one ASCII character. */
  function ToUpper(c: char): (u: char)
    ensures IsLower(c) ==> IsUpper(u)
    ensures !IsLower(c) ==> u == c
  {
    if IsLower(c) then (c as int - 32) as char else c
  }

  /** `str.lower()` on one ASCII character. */
  function ToLower(c: char): (l: char)
    ensures IsUpper(c) ==> IsLower(l)
    ensures !IsUpper(c) ==> l == c
  {
    if IsUpper(c) then (c as int + 32) as char else c
  }

  lemma CaseInverse(c: char)
    ensures IsLower(c) ==> ToLower(ToUpper(c)) == c
    ensures IsUpper(c) ==> ToUpper(ToLower(c)) == c
  {
  }

  // ------------------------------------------------------------------
  // snake_to_camel
  // ------------------------------------------------------------------

  /** `re.sub(r'_([a-zA-Z])', lambda m: m.group(1).upper(), s)`, scanning from
      position `i`: where `_` and a letter start at `i`, both are replaced by
      the upper-cased letter and the scan resumes after them; otherwise the
      character at `i` is kept. */
  function SubUnderscoreLetter(s: string, i: nat): (r: string)
    requires i <= |s|
    ensures |r| <= |s| - i
    ensures (forall j :: i <= j < |s| ==> s[j] != '_') ==> r == s[i..]
    decreases |s| - i
  {
    if i == |s| then ""
    else if s[i] == '_' && i + 1 < |s| && IsLetter(s[i + 1]) then
      [ToUpper(s[i + 1])] + SubUnderscoreLetter(s, i + 2)
    else
      [s[i]] + SubUnderscoreLetter(s, i + 1)
  }

  /** `snake_to_camel`: the Shape primary key `_id` keeps its name. */
  function SnakeToCamel(key: string): (r: string)
    ensures key == "_id" ==> r == key
    ensures (forall j :: 0 <= j < |key| ==> key[j] != '_') ==> r == key
    ensures |r| <= |key|
  {
    if key == "_id" then key else SubUnderscoreLetter(key, 0)
  }

  /** Whether position `i` of `s` is an `_` that the regex consumes. */
  predicate IsJoiningUnderscore(s: string, i: int) {
    0 <= i && i + 1 < |s| && s[i] == '_' && IsLetter(s[i + 1])
  }

  /** What position `i` of `s` becomes under the rule stated character by
      character: a joining `_` disappears, the letter after it is upper-cased,
      every other character is kept. */
  function Piece(s: string, i: nat): string
    requires i < |s|
  {
    if IsJoiningUnderscore(s, i) then ""
    else if IsJoiningUnderscore(s, i - 1) then [ToUpper(s[i])]
    else [s[i]]
  }

  /** The concatenation of `Piece(s, j)` for `j` from `i` to the end. */
  function Pieces(s: string, i: nat): string
    requires i <= |s|
    decreases |s| - i
  {
    if i == |s| then "" else Piece(s, i) + Pieces(s, i + 1)
  }

  lemma {:induction false} SubUnderscoreLetterIsPieces(s: string, i: nat)
    requires i <= |s|
    requires !IsJoiningUnderscore(s, i - 1)
    ensures SubUnderscoreLetter(s, i) == Pieces(s, i)
    decreases |s| - i
  {
    if i < |s| {
      if IsJoiningUnderscore(s, i) {
        SubUnderscoreLetterIsPieces(s, i + 2);
        assert Pieces(s, i + 1) == [ToUpper(s[i + 1])] + Pieces(s, i + 2);
      } else {
        SubUnderscoreLetterIsPieces(s, i + 1);
      }
    }
  }

  /** Every key but `_id` is renamed exactly as the per-character rule says. */
  lemma SnakeToCamelPerCharacter(key: string)
    requires key != "_id"
    ensures SnakeToCamel(key) == Pieces(key, 0)
  {
    SubUnderscoreLetterIsPieces(key, 0);
  }

  // ------------------------------------------------------------------
  // camel_to_snake
  // ------------------------------------------------------------------

  /** `re.sub(r'(?=[A-Z])', '_', s)` where no position is the start of the key. */
  function UnderscoreBeforeUpper(s: string): (r: string)
    ensures |r| >= |s|
  {
    if |s| == 0 then ""
    else (if IsUpper(s[0]) then "_" else "") + [s[0]] + UnderscoreBeforeUpper(s[1..])
  }

  /** `re.sub(r'(?<!^)(?=[A-Z])', '_', key)`: an `_` before every upper-case
      letter except one at position 0. */
  function InsertUnderscores(key: string): string {
    if |key| == 0 then "" else [key[0]] + UnderscoreBeforeUpper(key[1..])
  }

  /** `str.lower()` on an ASCII key. */
  function LowerAll(s: string): (r: string)
    ensures |r| == |s|
    ensures forall i :: 0 <= i < |s| ==> r[i] == ToLower(s[i])
  {
    seq(|s|, i requires 0 <= i < |s| => ToLower(s[i]))
  }

  /** `camel_to_snake`'s key rule. */
  function CamelToSnake(key: string): (r: string)
    ensures forall i :: 0 <= i < |r| ==> !IsUpper(r[i])
    ensures (forall i :: 0 <= i < |key| ==> !IsUpper(key[i])) ==> r == key
    ensures |r| >= |key|
  {
    NoUpperUnchanged(key);
    LowerAll(InsertUnderscores(key))
  }

  lemma {:induction false} UnderscoreBeforeUpperNoUpper(s: string)
    requires forall i :: 0 <= i < |s| ==> !IsUpper(s[i])
    ensures UnderscoreBeforeUpper(s) == s
  {
    if |s| > 0 {
      UnderscoreBeforeUpperNoUpper(s[1..]);
    }
  }

  lemma NoUpperUnchanged(key: string)
    ensures (forall i :: 0 <= i < |key| ==> !IsUpper(key[i])) ==>
              LowerAll(InsertUnderscores(key)) == key
  {
    if (forall i :: 0 <= i < |key| ==> !IsUpper(key[i])) && |key| > 0 {
      UnderscoreBeforeUpperNoUpper(key[1..]);
    }
  }

  /** Position `i` of `key` under the per-character statement of the rule:
      an `_` before an upper-case letter that is not first, then the
      lower-cased character. */
  function SnakePiece(key: string, i: nat): string
    requires i < |key|
  {
    (if i > 0 && IsUpper(key[i]) then "_" else "") + [ToLower(key[i])]
  }

  function SnakePieces(key: string, i: nat): string
    requires i <= |key|
    decreases |key| - i
  {
    if i == |key| then "" else SnakePiece(key, i) + SnakePieces(key, i + 1)
  }

  lemma LowerAllConcat(a: string, b: string)
    ensures LowerAll(a + b) == LowerAll(a) + LowerAll(b)
  {
  }

  lemma {:induction false} UnderscoreBeforeUpperPieces(key: string, i: nat)
    requires 1 <= i <= |key|
    ensures LowerAll(UnderscoreBeforeUpper(key[i..])) == SnakePieces(key, i)
    decreases |key| - i
  {
    if i < |key| {
      var s := key[i..];
      assert s[1..] == key[i + 1..];
      UnderscoreBeforeUpperPieces(key, i + 1);
      var head := (if IsUpper(s[0]) then "_" else "") + [s[0]];
      LowerAllConcat(head, UnderscoreBeforeUpper(s[1..]));
    }
  }

  /** `camel_to_snake`'s regex-then-lower two-step equals the per-character rule. */
  lemma CamelToSnakePerCharacter(key: string)
    ensures CamelToSnake(key) == SnakePieces(key, 0)
  {
    if |key| > 0 {
      UnderscoreBeforeUpperPieces(key, 1);
      LowerAllConcat([key[0]], UnderscoreBeforeUpper(key[1..]));
    }
  }

  // ------------------------------------------------------------------
  // Round trips
  // ------------------------------------------------------------------

  /** The characters of the model's field names: ASCII letters, digits and `_`.
      On these `str.lower()` and `str.upper()` change ASCII letters only. */
  predicate IsKeyChar(c: char) {
    IsLetter(c) || '0' <= c <= '9' || c == '_'
  }

  /** A persisted field name: ASCII only, no upper-case letter, no leading `_`,
      and every `_` joins two words (it is followed by a lower-case letter). */
  predicate IsSnakeKey(key: string) {
    && (|key| > 0 ==> key[0] != '_')
    && (forall i :: 0 <= i < |key| ==> IsKeyChar(key[i]))
    && (forall i :: 0 <= i < |key| ==> !IsUpper(key[i]))
    && (forall i :: 0 <= i < |key| && key[i] == '_' ==> i + 1 < |key| && IsLower(key[i + 1]))
  }

  lemma NoUnderscoreUnchanged(key: string)
    requires forall j :: 0 <= j < |key| ==> key[j] != '_'
    ensures SnakeToCamel(key) == key
  {
  }

  /** `IsSnakeKey`'s per-character conditions from position `i` on, checked
      one character at a time, so that they can be evaluated on a literal. */
  predicate SnakeFrom(key: string, i: nat)
    requires i <= |key|
    decreases |key| - i
  {
    || i == |key|
    || (&& IsKeyChar(key[i])
        && !IsUpper(key[i])
        && (key[i] == '_' ==> i + 1 < |key| && IsLower(key[i + 1]))
        && SnakeFrom(key, i + 1))
  }

  lemma {:induction false} SnakeFromCharacters(key: string, i: nat)
    requires i <= |key| && SnakeFrom(key, i)
    ensures forall j :: i <= j < |key| ==> IsKeyChar(key[j]) && !IsUpper(key[j])
    ensures forall j :: i <= j < |key| && key[j] == '_' ==> j + 1 < |key| && IsLower(key[j + 1])
    decreases |key| - i
  {
    if i < |key| {
      SnakeFromCharacters(key, i + 1);
    }
  }

  /** The character-by-character check decides `IsSnakeKey`. */
  lemma SnakeFromIsSnakeKey(key: string)
    requires |key| > 0 ==> key[0] != '_'
    requires SnakeFrom(key, 0)
    ensures IsSnakeKey(key)
  {
    SnakeFromCharacters(key, 0);
  }

  /** A wire field name: ASCII only, a lower-case first letter and no `_`. */
  predicate IsCamelKey(key: string) {
    && |key| > 0
    && IsLower(key[0])
    && (forall i :: 0 <= i < |key| ==> IsKeyChar(key[i]) && key[i] != '_')
  }

  lemma UnderscoreBeforeUpperCons(c: char, rest: string)
    ensures UnderscoreBeforeUpper([c] + rest)
            == (if IsUpper(c) then "_" else "") + [c] + UnderscoreBeforeUpper(rest)
  {
    assert ([c] + rest)[1..] == rest;
  }

  lemma {:induction false} SnakeSuffixRoundTrip(key: string, i: nat)
    requires IsSnakeKey(key)
    requires i <= |key|
    ensures LowerAll(UnderscoreBeforeUpper(SubUnderscoreLetter(key, i))) == key[i..]
    decreases |key| - i
  {
    if i < |key| {
      if key[i] == '_' {
        JoinedWordRoundTrip(key, i);
      } else {
        PlainCharRoundTrip(key, i);
      }
    }
  }

  /** The step of `SnakeSuffixRoundTrip` at a character the regex keeps. */
  lemma {:induction false} PlainCharRoundTrip(key: string, i: nat)
    requires IsSnakeKey(key)
    requires i < |key| && key[i] != '_'
    ensures LowerAll(UnderscoreBeforeUpper(SubUnderscoreLetter(key, i))) == key[i..]
    decreases |key| - i, 0
  {
    var c := key[i];
    var rest := SubUnderscoreLetter(key, i + 1);
    assert !IsUpper(c);
    calc {
      LowerAll(UnderscoreBeforeUpper(SubUnderscoreLetter(key, i)));
      { assert SubUnderscoreLetter(key, i) == [c] + rest; }
      LowerAll(UnderscoreBeforeUpper([c] + rest));
      { UnderscoreBeforeUpperCons(c, rest); }
      LowerAll([c] + UnderscoreBeforeUpper(rest));
      { LowerAllConcat([c], UnderscoreBeforeUpper(rest)); }
      LowerAll([c]) + LowerAll(UnderscoreBeforeUpper(rest));
      { SnakeSuffixRoundTrip(key, i + 1); assert LowerAll([c]) == [c]; }
      [c] + key[i + 1..];
    }
    assert key[i..] == [c] + key[i + 1..];
  }

  /** The step of `SnakeSuffixRoundTrip` at a joining underscore. */
  lemma {:induction false} JoinedWordRoundTrip(key: string, i: nat)
    requires IsSnakeKey(key)
    requires i < |key| && key[i] == '_'
    ensures LowerAll(UnderscoreBeforeUpper(SubUnderscoreLetter(key, i))) == key[i..]
    decreases |key| - i, 0
  {
    assert i + 1 < |key| && IsLower(key[i + 1]);
    var l := key[i + 1];
    JoinedWordStep(key, i);
    SnakeSuffixRoundTrip(key, i + 2);
    JoinedWordLowered(l, SubUnderscoreLetter(key, i + 2), key[i + 2..]);
    JointSlice(key, i);
  }

  /** The suffix at a joining underscore: `_`, the letter, then the rest. */
  lemma JointSlice(key: string, i: nat)
    requires i + 1 < |key| && key[i] == '_'
    ensures key[i..] == "_" + [key[i + 1]] + key[i + 2..]
  {
  }

  /** Inbound renaming of an upper-cased letter followed by a rewritten rest
      gives back `_`, the letter and whatever the rest lowers to. */
  lemma JoinedWordLowered(l: char, rest: string, suffix: string)
    requires IsLower(l)
    requires LowerAll(UnderscoreBeforeUpper(rest)) == suffix
    ensures LowerAll(UnderscoreBeforeUpper([ToUpper(l)] + rest)) == "_" + [l] + suffix
  {
    var u := ToUpper(l);
    calc {
      LowerAll(UnderscoreBeforeUpper([u] + rest));
      { UnderscoreBeforeUpperCons(u, rest); }
      LowerAll("_" + [u] + UnderscoreBeforeUpper(rest));
      { LowerAllConcat("_" + [u], UnderscoreBeforeUpper(rest)); }
      LowerAll("_" + [u]) + LowerAll(UnderscoreBeforeUpper(rest));
      { LowerJoint(l); }
      "_" + [l] + suffix;
    }
  }

  /** `re.sub` at a joining underscore: the next letter is upper-cased and the rest rewritten. */
  lemma JoinedWordStep(key: string, i: nat)
    requires i + 1 < |key| && key[i] == '_' && IsLetter(key[i + 1])
    ensures SubUnderscoreLetter(key, i) == [ToUpper(key[i + 1])] + SubUnderscoreLetter(key, i + 2)
  {
  }

  /** Lower-casing the inserted `_` and the upper-cased letter gives back the snake_case pair. */
  lemma LowerJoint(l: char)
    requires IsLower(l)
    ensures LowerAll("_" + [ToUpper(l)]) == "_" + [l]
  {
    CaseInverse(l);
  }

  /** Outbound then inbound gives back every persisted field name (and `_id`). */
  lemma SnakeRoundTrip(key: string)
    requires IsSnakeKey(key) || key == "_id"
    ensures CamelToSnake(SnakeToCamel(key)) == key
  {
    if key != "_id" && |key| > 0 {
      var t := SubUnderscoreLetter(key, 0);
      assert t[0] == key[0];
      InsertUnderscoresAfterLowerStart(t);
      SnakeSuffixRoundTrip(key, 0);
    }
  }

  /** When the key does not start upper-case, the start-of-key exception changes nothing. */
  lemma InsertUnderscoresAfterLowerStart(t: string)
    requires |t| > 0 ==> !IsUpper(t[0])
    ensures InsertUnderscores(t) == UnderscoreBeforeUpper(t)
  {
  }

  lemma {:induction false} CamelSuffixRoundTrip(p: string, w: string)
    requires forall i :: 0 <= i < |w| ==> w[i] != '_'
    ensures SubUnderscoreLetter(p + LowerAll(UnderscoreBeforeUpper(w)), |p|) == w
    decreases |w|, 1
  {
    if |w| > 0 {
      if IsUpper(w[0]) {
        UpperCharRoundTrip(p, w);
      } else {
        LowerCharRoundTrip(p, w);
      }
    }
  }

  /** The step of `CamelSuffixRoundTrip` at an upper-case letter: it became `_`
      and its lower-case form, which the outbound rule joins back. */
  lemma {:induction false} UpperCharRoundTrip(p: string, w: string)
    requires forall i :: 0 <= i < |w| ==> w[i] != '_'
    requires |w| > 0 && IsUpper(w[0])
    ensures SubUnderscoreLetter(p + LowerAll(UnderscoreBeforeUpper(w)), |p|) == w
    decreases |w|, 0
  {
    var c := w[0];
    var tail := UnderscoreBeforeUpper(w[1..]);
    assert UnderscoreBeforeUpper(w) == "_" + [c] + tail;
    LowerAllConcat("_" + [c], tail);
    LowerUpperJoint(c);
    var p' := p + "_" + [ToLower(c)];
    var s := p' + LowerAll(tail);
    assert p + LowerAll(UnderscoreBeforeUpper(w)) == s;
    assert s[|p|] == '_' && s[|p| + 1] == ToLower(c);
    JoinedWordStep(s, |p|);
    CaseInverse(c);
    CamelSuffixRoundTrip(p', w[1..]);
    assert w == [c] + w[1..];
  }

  /** Lower-casing the inserted `_` and an upper-case letter. */
  lemma LowerUpperJoint(c: char)
    requires IsUpper(c)
    ensures LowerAll("_" + [c]) == "_" + [ToLower(c)]
    ensures IsLower(ToLower(c))
  {
  }

  /** The step of `CamelSuffixRoundTrip` at any other character: it is kept both ways. */
  lemma {:induction false} LowerCharRoundTrip(p: string, w: string)
    requires forall i :: 0 <= i < |w| ==> w[i] != '_'
    requires |w| > 0 && !IsUpper(w[0])
    ensures SubUnderscoreLetter(p + LowerAll(UnderscoreBeforeUpper(w)), |p|) == w
    decreases |w|, 0
  {
    var c := w[0];
    var rest := LowerAll(UnderscoreBeforeUpper(w[1..]));
    LowerAllConcat([c], UnderscoreBeforeUpper(w[1..]));
    var p' := p + [c];
    var s := p' + rest;
    assert p + LowerAll(UnderscoreBeforeUpper(w)) == s;
    assert s[|p|] == c;
    assert SubUnderscoreLetter(s, |p|) == [c] + SubUnderscoreLetter(s, |p'|);
    CamelSuffixRoundTrip(p', w[1..]);
    assert w == [c] + w[1..];
  }

  /** Inbound then outbound gives back every wire field name (and `_id`). */
  lemma CamelRoundTrip(key: string)
    requires IsCamelKey(key) || key == "_id"
    ensures SnakeToCamel(CamelToSnake(key)) == key
  {
    if key != "_id" {
      var t := CamelToSnake(key);
      LowerAllConcat([key[0]], UnderscoreBeforeUpper(key[1..]));
      assert t == [key[0]] + LowerAll(UnderscoreBeforeUpper(key[1..]));
      assert t != "_id";
      CamelSuffixRoundTrip([key[0]], key[1..]);
      assert key == [key[0]] + key[1..];
    }
  }

  /** Renaming is one-to-one on persisted names, so no two fields of a shape
      collide on the wire. */
  lemma SnakeToCamelInjective(a: string, b: string)
    requires IsSnakeKey(a) || a == "_id"
    requires IsSnakeKey(b) || b == "_id"
    requires SnakeToCamel(a) == SnakeToCamel(b)
    ensures a == b
  {
    SnakeRoundTrip(a);
    SnakeRoundTrip(b);
  }

  lemma CamelToSnakeInjective(a: string, b: string)
    requires IsCamelKey(a) || a == "_id"
    requires IsCamelKey(b) || b == "_id"
    requires CamelToSnake(a) == CamelToSnake(b)
    ensures a == b
  {
    CamelRoundTrip(a);
    CamelRoundTrip(b);
  }

  // ------------------------------------------------------------------
  // Dict-level renaming
  // ------------------------------------------------------------------

  /** No other key of `d` is renamed to the same key as `k`. */
  ghost predicate Unclashed(d: PyDict, rename: string -> string, k: string) {
    forall k' :: k' in d && rename(k') == rename(k) ==> k' == k
  }

  /** `{rename(k): v for k, v in d.items()}`. When two keys are renamed alike,
      Python keeps the value of the later one in insertion order; a map has no
      order, so the model keeps the value of one of them. */
  ghost function RenameKeys(d: PyDict, rename: string -> string): (r: PyDict)
    ensures r.Keys == Image(d, rename)
  {
    map n | n in Image(d, rename) :: var k :| k in d && rename(k) == n; d[k]
  }

  /** Each renamed key holds the value of a key renamed to it, and of the only one when there is no clash. */
  lemma RenameKeysValues(d: PyDict, rename: string -> string)
    ensures forall n :: n in RenameKeys(d, rename) ==> RenameKeys(d, rename)[n] in d.Values
    ensures forall k :: k in d && Unclashed(d, rename, k) ==> RenameKeys(d, rename)[rename(k)] == d[k]
  {
    var r := RenameKeys(d, rename);
    forall n | n in r ensures r[n] in d.Values {
      var k :| k in d && rename(k) == n && r[n] == d[k];
    }
    forall k | k in d && Unclashed(d, rename, k) ensures r[rename(k)] == d[k] {
      var n := rename(k);
      var k' :| k' in d && rename(k') == n && r[n] == d[k'];
    }
  }

  /** The renamed key set. */
  ghost function Image(d: PyDict, rename: string -> string): set<string> {
    set k | k in d :: rename(k)
  }

  /** Renaming with `rename`, then with a function that undoes it on `d`'s
      keys, gives `d` back. */
  lemma RenameKeysRoundTrip(d: PyDict, rename: string -> string, undo: string -> string)
    requires forall k :: k in d ==> undo(rename(k)) == k
    ensures RenameKeys(RenameKeys(d, rename), undo) == d
  {
    var r := RenameKeys(d, rename);
    RenameKeysValues(r, undo);
    RenamedValues(d, rename, undo);
    UndoUnclashed(d, rename, undo);
    var back := RenameKeys(r, undo);
    forall k | k in d ensures k in back && back[k] == d[k] {
      var n := rename(k);
      assert n in r;
      assert Unclashed(r, undo, n);
      assert back[undo(n)] == r[n];
    }
    forall k | k in back ensures k in d {
      var n :| n in r && undo(n) == k;
      var k0 :| k0 in d && rename(k0) == n;
    }
  }

  /** With an undo function, no two keys are renamed alike, so each renamed
      key carries the value of the key it came from. */
  lemma RenamedValues(d: PyDict, rename: string -> string, undo: string -> string)
    requires forall k :: k in d ==> undo(rename(k)) == k
    ensures forall k :: k in d ==> RenameKeys(d, rename)[rename(k)] == d[k]
  {
    forall k | k in d ensures Unclashed(d, rename, k) {
      forall k' | k' in d && rename(k') == rename(k) ensures k' == k {
        assert undo(rename(k')) == undo(rename(k));
      }
    }
    RenameKeysValues(d, rename);
  }

  lemma UndoUnclashed(d: PyDict, rename: string -> string, undo: string -> string)
    requires forall k :: k in d ==> undo(rename(k)) == k
    ensures forall n :: n in RenameKeys(d, rename) ==> Unclashed(RenameKeys(d, rename), undo, n)
  {
    var r := RenameKeys(d, rename);
    forall n | n in r ensures Unclashed(r, undo, n) {
      forall n' | n' in r && undo(n') == undo(n) ensures n' == n {
        var k :| k in d && rename(k) == n;
        var k' :| k' in d && rename(k') == n';
      }
    }
  }

  /** Every key is a persisted field name or `_id`. */
  ghost predicate HasSnakeKeys(d: PyDict) {
    forall k :: k in d ==> IsSnakeKey(k) || k == "_id"
  }

  /** Every key is a wire field name or `_id`. */
  ghost predicate HasCamelKeys(d: PyDict) {
    forall k :: k in d ==> IsCamelKey(k) || k == "_id"
  }

  lemma SnakeKeysUnclashed(d: PyDict)
    ensures HasSnakeKeys(d) ==> forall k :: k in d ==> Unclashed(d, SnakeToCamel, k)
  {
    if HasSnakeKeys(d) {
      forall k | k in d ensures Unclashed(d, SnakeToCamel, k) {
        forall k' | k' in d && SnakeToCamel(k') == SnakeToCamel(k) ensures k' == k {
          SnakeToCamelInjective(k, k');
        }
      }
    }
  }

  /** `dict_keys_snake_to_camel`: every key renamed, every value kept. */
  ghost function DictKeysSnakeToCamel(d: PyDict): (r: PyDict)
    ensures r.Keys == set k | k in d :: SnakeToCamel(k)
    ensures forall n :: n in r ==> r[n] in d.Values
    ensures HasSnakeKeys(d) ==> forall k :: k in d ==> r[SnakeToCamel(k)] == d[k]
  {
    SnakeKeysUnclashed(d);
    RenameKeysValues(d, SnakeToCamel);
    RenameKeys(d, SnakeToCamel)
  }

  lemma CamelKeysUnclashed(d: PyDict)
    ensures HasCamelKeys(d) ==> forall k :: k in d ==> Unclashed(d, CamelToSnake, k)
  {
    if HasCamelKeys(d) {
      forall k | k in d ensures Unclashed(d, CamelToSnake, k) {
        forall k' | k' in d && CamelToSnake(k') == CamelToSnake(k) ensures k' == k {
          CamelToSnakeInjective(k, k');
        }
      }
    }
  }

  /** `camel_to_snake` on a dict: every key renamed, every value kept. */
  ghost function DictKeysCamelToSnake(d: PyDict): (r: PyDict)
    ensures r.Keys == set k | k in d :: CamelToSnake(k)
    ensures forall n :: n in r ==> r[n] in d.Values
    ensures HasCamelKeys(d) ==> forall k :: k in d ==> r[CamelToSnake(k)] == d[k]
  {
    CamelKeysUnclashed(d);
    RenameKeysValues(d, CamelToSnake);
    RenameKeys(d, CamelToSnake)
  }

  /** A persisted dict survives the trip to the wire and back. */
  lemma SnakeDictRoundTrip(d: PyDict)
    requires HasSnakeKeys(d)
    ensures DictKeysCamelToSnake(DictKeysSnakeToCamel(d)) == d
  {
    forall k | k in d ensures CamelToSnake(SnakeToCamel(k)) == k {
      SnakeRoundTrip(k);
    }
    RenameKeysRoundTrip(d, SnakeToCamel, CamelToSnake);
  }

  /** A wire dict survives the trip to storage and back. */
  lemma CamelDictRoundTrip(d: PyDict)
    requires HasCamelKeys(d)
    ensures DictKeysSnakeToCamel(DictKeysCamelToSnake(d)) == d
  {
    forall k | k in d ensures SnakeToCamel(CamelToSnake(k)) == k {
      CamelRoundTrip(k);
    }
    RenameKeysRoundTrip(d, CamelToSnake, SnakeToCamel);
  }

  /** After camelCasing a dict of snake keys, a wire name is present exactly
      when its snake_case form was. */
  lemma CamelKeyPresent(d: PyDict, n: string)
    requires HasSnakeKeys(d)
    requires IsCamelKey(n)
    ensures n in DictKeysSnakeToCamel(d) <==> CamelToSnake(n) in d
  {
    if CamelToSnake(n) in d {
      CamelRoundTrip(n);
      assert SnakeToCamel(CamelToSnake(n)) == n;
    }
    if n in DictKeysSnakeToCamel(d) {
      var k :| k in d && SnakeToCamel(k) == n;
      SnakeRoundTrip(k);
    }
  }
}

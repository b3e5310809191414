/** JavaScript values as they arrive from JSON (request bodies, search
    results, tool results), with the operators the source applies to them:
    truthiness, `??`, `||`, property reads, `String(v)`, object spread and
    `Array.prototype.slice`/`filter(Boolean)`. */
module JsValue {
  import opened Wrappers
  import opened JsText

  /** A JavaScript value reachable from parsed JSON, plus `undefined`.
      Numbers are integers in this model. An object maps its own keys to
      values; a key bound to `Undefined` is present but undefined, as in
      `{ _score: undefined }`. */
  datatype Json =
    | Undefined
    | Null
    | Bool(b: bool)
    | Num(n: int)
    | Str(s: string)
    | Arr(items: seq<Json>)
    | Obj(fields: map<string, Json>)

  /** `v === null || v === undefined` */
  predicate Nullish(v: Json)
  {
    v.Undefined? || v.Null?
  }

  /** `Boolean(v)` */
  predicate Truthy(v: Json)
  {
    match v
    case Undefined => false
    case Null => false
    case Bool(b) => b
    case Num(n) => n != 0
    case Str(s) => s != ""
    case Arr(_) => true
    case Obj(_) => true
  }

  lemma NullishIsFalsy(v: Json)
    requires Nullish(v)
    ensures !Truthy(v)
  {
  }

  /** `a ?? b` */
  function Coalesce(a: Json, b: Json): Json
  {
    if Nullish(a) then b else a
  }

  /** `a || b` */
  function Or(a: Json, b: Json): Json
  {
    if Truthy(a) then a else b
  }

  /** `a && b` */
  function And(a: Json, b: Json): Json
  {
    if Truthy(a) then b else a
  }

  /** `v.key` (equally `v?.key`) for the named, non-index keys this code
      reads. A non-object has none of them; reading from `null` or
      `undefined` throws in JavaScript, and each caller that does so without
      `?.` checks `Nullish` itself. */
  function Get(v: Json, key: string): Json
  {
    if v.Obj? && key in v.fields then v.fields[key] else Undefined
  }

  /** `String(v)`, the text a template literal `${v}` inserts. */
  function ToStr(v: Json): string
    decreases v
  {
    match v
    case Undefined => "undefined"
    case Null => "null"
    case Bool(b) => if b then "true" else "false"
    case Num(n) => IntToString(n)
    case Str(s) => s
    case Arr(items) =>
      JoinWith(",", seq(|items|, i requires 0 <= i < |items| =>
        if Nullish(items[i]) then "" else ToStr(items[i])))
    case Obj(_) => "[object Object]"
  }

  /** `values.join(sep)`: `null` and `undefined` elements render as "". */
  function JoinValues(sep: string, values: seq<Json>): string
  {
    JoinWith(sep, seq(|values|, i requires 0 <= i < |values| =>
      if Nullish(values[i]) then "" else ToStr(values[i])))
  }

  /** Joining with the empty separator renders the two lists one after the
      other. */
  lemma JoinValuesAppend(sep: string, x: seq<Json>, y: seq<Json>)
    requires sep == ""
    ensures JoinValues(sep, x + y) == JoinValues(sep, x) + JoinValues(sep, y)
  {
    var rx := seq(|x|, i requires 0 <= i < |x| => if Nullish(x[i]) then "" else ToStr(x[i]));
    var ry := seq(|y|, i requires 0 <= i < |y| => if Nullish(y[i]) then "" else ToStr(y[i]));
    var xy := x + y;
    var rxy := seq(|xy|, i requires 0 <= i < |xy| => if Nullish(xy[i]) then "" else ToStr(xy[i]));
    assert rxy == rx + ry;
    JoinEmptySepAppend(rx, ry);
  }

  /** The own enumerable properties of `values` viewed as an array:
      keys "0", "1", ... */
  function IndexedEntries(values: seq<Json>): (m: map<string, Json>)
    decreases |values|
  {
    if values == [] then map[]
    else IndexedEntries(values[..|values| - 1])[NatToString(|values| - 1) := values[|values| - 1]]
  }

  /** The properties `{ ...v }` copies: an object's own fields, the
      characters of a string or the elements of an array under their
      indices, and nothing for any other value. */
  function Spread(v: Json): map<string, Json>
  {
    match v
    case Obj(m) => m
    case Str(s) => IndexedEntries(seq(|s|, i requires 0 <= i < |s| => Str([s[i]])))
    case Arr(items) => IndexedEntries(items)
    case _ => map[]
  }

  /** `s.filter(Boolean)` */
  function FilterTruthy(s: seq<Json>): (r: seq<Json>)
    ensures |r| <= |s|
    ensures forall i :: 0 <= i < |r| ==> Truthy(r[i])
    ensures forall i :: 0 <= i < |r| ==> r[i] in s
    ensures forall i :: 0 <= i < |s| && Truthy(s[i]) ==> s[i] in r
    ensures (forall i :: 0 <= i < |s| ==> Truthy(s[i])) ==> r == s
  {
    if s == [] then []
    else if Truthy(s[0]) then [s[0]] + FilterTruthy(s[1..])
    else FilterTruthy(s[1..])
  }

  /** Filtering a list with one more element at the end keeps that
      element exactly when it is truthy. */
  lemma {:induction false} FilterTruthySnoc(s: seq<Json>, x: Json)
    ensures FilterTruthy(s + [x]) == FilterTruthy(s) + (if Truthy(x) then [x] else [])
  {
    if s == [] {
      assert s + [x] == [x];
      assert [x][1..] == [];
    } else {
      assert (s + [x])[0] == s[0];
      assert (s + [x])[1..] == s[1..] + [x];
      FilterTruthySnoc(s[1..], x);
    }
  }

  /** The length `s.slice(0, end)` keeps: a negative `end` counts from the
      end of `s`. */
  function SliceLength(len: nat, end: int): (k: nat)
    ensures k <= len
    ensures 0 <= end ==> k == if end < len then end else len
    ensures end < 0 ==> k == if len + end > 0 then len + end else 0
  {
    if end < 0 then (if len + end > 0 then len + end else 0)
    else if end < len then end else len
  }

  /** `s.slice(0, end)` */
  function SliceTo<T>(s: seq<T>, end: int): seq<T>
  {
    s[..SliceLength(|s|, end)]
  }
}

/** The vendor-mode result normaliser of the chat handler: whatever shape the
    search tool returned, pick out one list of vendor-like records. */
module ResultNormalizer {
  import opened Wrappers
  import opened JsValue

  /** `Array.isArray(x) && x.length`: the elements of a non-empty array. */
  function NonEmptyArray(v: Json): (r: Option<seq<Json>>)
    ensures r.Some? <==> v.Arr? && |v.items| > 0
    ensures r.Some? ==> r.value == v.items
  {
    if v.Arr? && |v.items| > 0 then Some(v.items) else None
  }

  /** One `matches` entry flattened: its metadata's fields, then `_score`
      (`score ?? similarity ?? undefined`) and `_id` (`id ?? undefined`).
      Reading `.metadata` of a `null` entry throws. */
  function MatchRecord(m: Json): (r: Completion<Json>)
    ensures r.Throw? <==> Nullish(m)
    ensures r.Normal? ==> r.value.Obj? && "_score" in r.value.fields && "_id" in r.value.fields
  {
    if Nullish(m) then Throw
    else
      var score := Coalesce(Coalesce(Get(m, "score"), Get(m, "similarity")), Undefined);
      var id := Coalesce(Get(m, "id"), Undefined);
      Normal(Obj(Spread(Coalesce(Get(m, "metadata"), Obj(map[])))["_score" := score]["_id" := id]))
  }

  /** Where a `hits` entry keeps its fields: the first non-nullish of
      `document`, `payload`, `metadata`, else the hit itself. */
  function HitSource(h: Json): Json
  {
    Coalesce(Coalesce(Coalesce(Get(h, "document"), Get(h, "payload")), Get(h, "metadata")), h)
  }

  /** One `hits` entry flattened: its source's fields, then `_score`
      (`score ?? _score ?? undefined`) and `_id`. */
  function HitRecord(h: Json): (r: Completion<Json>)
    ensures r.Throw? <==> Nullish(h)
    ensures r.Normal? ==> r.value.Obj? && "_score" in r.value.fields && "_id" in r.value.fields
  {
    if Nullish(h) then Throw
    else
      var score := Coalesce(Coalesce(Get(h, "score"), Get(h, "_score")), Undefined);
      var id := Coalesce(Get(h, "id"), Undefined);
      Normal(Obj(Spread(HitSource(h))["_score" := score]["_id" := id]))
  }

  /** `matches.map(MatchRecord)`: one record per entry, in order. */
  function MapMatches(ms: seq<Json>): (r: Completion<seq<Json>>)
    ensures r.Throw? <==> exists i :: 0 <= i < |ms| && Nullish(ms[i])
    ensures r.Normal? ==> |r.value| == |ms|
    ensures r.Normal? ==> forall i :: 0 <= i < |ms| ==> MatchRecord(ms[i]) == Normal(r.value[i])
  {
    if ms == [] then Normal([])
    else
      var head := MatchRecord(ms[0]);
      var rest := MapMatches(ms[1..]);
      if head.Throw? || rest.Throw? then Throw
      else Normal([head.value] + rest.value)
  }

  /** `hits.map(HitRecord)`: one record per entry, in order. */
  function MapHits(hs: seq<Json>): (r: Completion<seq<Json>>)
    ensures r.Throw? <==> exists i :: 0 <= i < |hs| && Nullish(hs[i])
    ensures r.Normal? ==> |r.value| == |hs|
    ensures r.Normal? ==> forall i :: 0 <= i < |hs| ==> HitRecord(hs[i]) == Normal(r.value[i])
  {
    if hs == [] then Normal([])
    else
      var head := HitRecord(hs[0]);
      var rest := MapHits(hs[1..]);
      if head.Throw? || rest.Throw? then Throw
      else Normal([head.value] + rest.value)
  }

  /** The shape chain, before the truthy filter: `vendors`, `results`,
      `items` as they are, `matches` and `hits` flattened, the result itself
      when it is an array, and otherwise nothing. `result?.key` never throws. */
  function SelectVendors(result: Json): (r: Completion<seq<Json>>)
    ensures r == Normal([]) <==>
      NonEmptyArray(Get(result, "vendors")).None? && NonEmptyArray(Get(result, "results")).None? &&
      NonEmptyArray(Get(result, "items")).None? && NonEmptyArray(Get(result, "matches")).None? &&
      NonEmptyArray(Get(result, "hits")).None? && NonEmptyArray(result).None?
    ensures r.Throw? ==> NonEmptyArray(Get(result, "matches")).Some? || NonEmptyArray(Get(result, "hits")).Some?
  {
    if NonEmptyArray(Get(result, "vendors")).Some? then Normal(Get(result, "vendors").items)
    else if NonEmptyArray(Get(result, "results")).Some? then Normal(Get(result, "results").items)
    else if NonEmptyArray(Get(result, "items")).Some? then Normal(Get(result, "items").items)
    else if NonEmptyArray(Get(result, "matches")).Some? then MapMatches(Get(result, "matches").items)
    else if NonEmptyArray(Get(result, "hits")).Some? then MapHits(Get(result, "hits").items)
    else if NonEmptyArray(result).Some? then Normal(result.items)
    else Normal([])
  }

  /** The normaliser: the selected list with its falsy entries removed. It
      throws only when the selected list is a `matches` or `hits` array
      holding a `null` or `undefined` entry. */
  function Normalize(result: Json): (r: Completion<seq<Json>>)
    ensures r.Normal? ==> forall i :: 0 <= i < |r.value| ==> Truthy(r.value[i])
  {
    var selected := SelectVendors(result);
    if selected.Throw? then Throw else Normal(FilterTruthy(selected.value))
  }

  /** The normaliser as the handler runs it: `vendors` is reassigned along
      the shape chain, then the falsy entries are filtered out one by one. */
  method NormalizeVendors(result: Json) returns (r: Completion<seq<Json>>)
    ensures r == Normalize(result)
  {
    var vendors: seq<Json> := [];
    if NonEmptyArray(Get(result, "vendors")).Some? {
      vendors := Get(result, "vendors").items;
    } else if NonEmptyArray(Get(result, "results")).Some? {
      vendors := Get(result, "results").items;
    } else if NonEmptyArray(Get(result, "items")).Some? {
      vendors := Get(result, "items").items;
    } else if NonEmptyArray(Get(result, "matches")).Some? {
      var mapped := MapMatches(Get(result, "matches").items);
      if mapped.Throw? {
        return Throw;
      }
      vendors := mapped.value;
    } else if NonEmptyArray(Get(result, "hits")).Some? {
      var mapped := MapHits(Get(result, "hits").items);
      if mapped.Throw? {
        return Throw;
      }
      vendors := mapped.value;
    } else if NonEmptyArray(result).Some? {
      vendors := result.items;
    } else {
      vendors := [];
    }
    assert SelectVendors(result) == Normal(vendors);
    var kept := KeepTruthy(vendors);
    r := Normal(kept);
  }

  /** `vendors.filter(Boolean)`, one entry at a time. */
  method KeepTruthy(vendors: seq<Json>) returns (kept: seq<Json>)
    ensures kept == FilterTruthy(vendors)
  {
    kept := [];
    var i := 0;
    while i < |vendors|
      invariant 0 <= i <= |vendors|
      invariant kept == FilterTruthy(vendors[..i])
    {
      var v := vendors[i];
      assert vendors[..i + 1] == vendors[..i] + [v];
      FilterTruthySnoc(vendors[..i], v);
      if Truthy(v) {
        kept := kept + [v];
      }
      i := i + 1;
    }
    assert vendors[..|vendors|] == vendors;
  }

  /** A non-empty `vendors` array wins; only its falsy entries are dropped. */
  lemma VendorsSelected(result: Json)
    requires NonEmptyArray(Get(result, "vendors")).Some?
    ensures Normalize(result) == Normal(FilterTruthy(Get(result, "vendors").items))
  {
  }

  /** Without `vendors`, a non-empty `results` array is taken. */
  lemma ResultsSelected(result: Json)
    requires NonEmptyArray(Get(result, "vendors")).None?
    requires NonEmptyArray(Get(result, "results")).Some?
    ensures Normalize(result) == Normal(FilterTruthy(Get(result, "results").items))
  {
  }

  /** Without `vendors` and `results`, a non-empty `items` array is taken. */
  lemma ItemsSelected(result: Json)
    requires NonEmptyArray(Get(result, "vendors")).None? && NonEmptyArray(Get(result, "results")).None?
    requires NonEmptyArray(Get(result, "items")).Some?
    ensures Normalize(result) == Normal(FilterTruthy(Get(result, "items").items))
  {
  }

  /** Next, `matches` is flattened; every record is an object, so the
      filter keeps them all. */
  lemma MatchesSelected(result: Json)
    requires NonEmptyArray(Get(result, "vendors")).None? && NonEmptyArray(Get(result, "results")).None?
    requires NonEmptyArray(Get(result, "items")).None?
    requires NonEmptyArray(Get(result, "matches")).Some?
    ensures Normalize(result) == MapMatches(Get(result, "matches").items)
  {
    var mapped := MapMatches(Get(result, "matches").items);
    if mapped.Normal? {
      forall i | 0 <= i < |mapped.value|
        ensures Truthy(mapped.value[i])
      {
        assert MatchRecord(Get(result, "matches").items[i]) == Normal(mapped.value[i]);
      }
    }
  }

  /** Next, `hits` is flattened, all records kept. */
  lemma HitsSelected(result: Json)
    requires NonEmptyArray(Get(result, "vendors")).None? && NonEmptyArray(Get(result, "results")).None?
    requires NonEmptyArray(Get(result, "items")).None? && NonEmptyArray(Get(result, "matches")).None?
    requires NonEmptyArray(Get(result, "hits")).Some?
    ensures Normalize(result) == MapHits(Get(result, "hits").items)
  {
    var mapped := MapHits(Get(result, "hits").items);
    if mapped.Normal? {
      forall i | 0 <= i < |mapped.value|
        ensures Truthy(mapped.value[i])
      {
        assert HitRecord(Get(result, "hits").items[i]) == Normal(mapped.value[i]);
      }
    }
  }

  /** Failing all five keys, a non-empty top-level array is the list; and
      anything else gives no vendors. */
  lemma TopLevelArraySelected(result: Json)
    requires NonEmptyArray(Get(result, "vendors")).None? && NonEmptyArray(Get(result, "results")).None?
    requires NonEmptyArray(Get(result, "items")).None? && NonEmptyArray(Get(result, "matches")).None?
    requires NonEmptyArray(Get(result, "hits")).None?
    ensures NonEmptyArray(result).Some? ==> Normalize(result) == Normal(FilterTruthy(result.items))
    ensures NonEmptyArray(result).None? ==> Normalize(result) == Normal([])
  {
  }

  /** The keys the chain looks at, highest priority first. */
  const ShapeKeys: seq<string> := ["vendors", "results", "items", "matches", "hits"]

  /** When the normaliser throws. */
  lemma NormalizeThrowsOnlyOnNullishEntry(result: Json)
    ensures Normalize(result).Throw? <==>
      (NonEmptyArray(Get(result, "vendors")).None? && NonEmptyArray(Get(result, "results")).None?
       && NonEmptyArray(Get(result, "items")).None?
       && ((NonEmptyArray(Get(result, "matches")).Some?
            && exists i :: 0 <= i < |Get(result, "matches").items| && Nullish(Get(result, "matches").items[i]))
           || (NonEmptyArray(Get(result, "matches")).None? && NonEmptyArray(Get(result, "hits")).Some?
               && exists i :: 0 <= i < |Get(result, "hits").items| && Nullish(Get(result, "hits").items[i]))))
  {
  }

  /** An `undefined` result (no `execute` to call) gives no vendors. */
  lemma UndefinedGivesNone()
    ensures Normalize(Undefined) == Normal([])
  {
    assert SelectVendors(Undefined) == Normal([]);
  }

  /** A key whose value is not a non-empty array is skipped as if absent. */
  lemma {:induction false} EmptyShapeFallsThrough(fields: map<string, Json>, key: string)
    requires key in ShapeKeys && key in fields
    requires NonEmptyArray(fields[key]).None?
    ensures Normalize(Obj(fields)) == Normalize(Obj(fields - {key}))
  {
    var a, b := Obj(fields), Obj(fields - {key});
    forall k | k in ShapeKeys
      ensures NonEmptyArray(Get(a, k)) == NonEmptyArray(Get(b, k))
    {
      if k != key {
        assert Get(a, k) == Get(b, k);
      } else {
        assert Get(b, k) == Undefined;
      }
    }
    assert SelectVendors(a) == SelectVendors(b);
  }

  /** Selection looks at the raw length; falsy entries are removed only
      afterwards, so `{ vendors: [null], results: [x] }` yields no vendors
      rather than falling through to `results`. */
  lemma FilterRunsAfterSelection(x: Json)
    requires Truthy(x)
    ensures Normalize(Obj(map["vendors" := Arr([Null]), "results" := Arr([x])])) == Normal([])
  {
    var r := Obj(map["vendors" := Arr([Null]), "results" := Arr([x])]);
    assert Get(r, "vendors") == Arr([Null]);
    assert SelectVendors(r) == Normal([Null]);
    assert FilterTruthy([Null]) == [];
  }

  /** The `matches` branch: one record per match and in order; each record
      carries `_score` and `_id` and otherwise the metadata's own fields,
      which `_score`/`_id` override. */
  lemma MatchesBranchRecords(result: Json, i: nat, key: string)
    requires NonEmptyArray(Get(result, "vendors")).None? && NonEmptyArray(Get(result, "results")).None?
    requires NonEmptyArray(Get(result, "items")).None?
    requires NonEmptyArray(Get(result, "matches")).Some?
    requires forall j :: 0 <= j < |Get(result, "matches").items| ==> !Nullish(Get(result, "matches").items[j])
    requires i < |Get(result, "matches").items|
    ensures SelectVendors(result).Normal? && |SelectVendors(result).value| == |Get(result, "matches").items|
    ensures var m := Get(result, "matches").items[i];
            var rec := SelectVendors(result).value[i];
            Get(rec, "_id") == Coalesce(Get(m, "id"), Undefined)
            && Get(rec, "_score") == Coalesce(Coalesce(Get(m, "score"), Get(m, "similarity")), Undefined)
            && (key != "_id" && key != "_score" && Get(m, "metadata").Obj? ==> Get(rec, key) == Get(Get(m, "metadata"), key))
  {
    var ms := Get(result, "matches").items;
    assert MapMatches(ms).Normal?;
    assert MatchRecord(ms[i]) == Normal(MapMatches(ms).value[i]);
  }

  /** The `hits` branch: `document` wins over `payload`, `payload` over
      `metadata`, and a hit with none of them contributes its own fields. */
  lemma HitsBranchRecords(result: Json, i: nat, key: string)
    requires NonEmptyArray(Get(result, "vendors")).None? && NonEmptyArray(Get(result, "results")).None?
    requires NonEmptyArray(Get(result, "items")).None? && NonEmptyArray(Get(result, "matches")).None?
    requires NonEmptyArray(Get(result, "hits")).Some?
    requires forall j :: 0 <= j < |Get(result, "hits").items| ==> !Nullish(Get(result, "hits").items[j])
    requires i < |Get(result, "hits").items|
    requires key != "_id" && key != "_score"
    ensures SelectVendors(result).Normal? && |SelectVendors(result).value| == |Get(result, "hits").items|
    ensures var h := Get(result, "hits").items[i];
            var rec := SelectVendors(result).value[i];
            Get(rec, "_id") == Coalesce(Get(h, "id"), Undefined)
            && Get(rec, "_score") == Coalesce(Coalesce(Get(h, "score"), Get(h, "_score")), Undefined)
            && (Get(h, "document").Obj? ==> Get(rec, key) == Get(Get(h, "document"), key))
            && (Nullish(Get(h, "document")) && Get(h, "payload").Obj? ==> Get(rec, key) == Get(Get(h, "payload"), key))
            && (Nullish(Get(h, "document")) && Nullish(Get(h, "payload")) && Get(h, "metadata").Obj? ==>
                  Get(rec, key) == Get(Get(h, "metadata"), key))
            && (Nullish(Get(h, "document")) && Nullish(Get(h, "payload")) && Nullish(Get(h, "metadata")) && h.Obj? ==>
                  Get(rec, key) == Get(h, key))
  {
    var hs := Get(result, "hits").items;
    assert MapHits(hs).Normal?;
    assert HitRecord(hs[i]) == Normal(MapHits(hs).value[i]);
  }

  /** The worked example of a `hits` response: one record with the
      document's name, `_id` "1" and `_score` 9. */
  lemma HitsExample()
    ensures Normalize(Obj(map["hits" := Arr([Obj(map["id" := Str("1"), "score" := Num(9),
                                                     "document" := Obj(map["name" := Str("Foo")])])])]))
            == Normal([Obj(map["name" := Str("Foo"), "_score" := Num(9), "_id" := Str("1")])])
  {
    var hit := Obj(map["id" := Str("1"), "score" := Num(9), "document" := Obj(map["name" := Str("Foo")])]);
    var r := Obj(map["hits" := Arr([hit])]);
    assert Get(r, "vendors") == Undefined && Get(r, "results") == Undefined;
    assert Get(r, "items") == Undefined && Get(r, "matches") == Undefined;
    assert Get(r, "hits") == Arr([hit]);
    assert HitSource(hit) == Obj(map["name" := Str("Foo")]);
    var rec := Obj(map["name" := Str("Foo"), "_score" := Num(9), "_id" := Str("1")]);
    assert HitRecord(hit) == Normal(rec);
    assert [hit][1..] == [];
    assert MapHits([hit][1..]) == Normal([]);
    assert [rec] + [] == [rec];
    assert MapHits([hit]) == Normal([rec]);
    assert [rec][1..] == [];
    assert FilterTruthy([rec]) == [rec];
  }
}

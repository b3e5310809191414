/** The `execute` function of the vector-database search tool: it asks the
    index for the `k` nearest matches of the query and projects each match
    to a flat vendor record. The embedding request and the index query are
    one abstract `backend` whose answer is the index response or a failure;
    any failure, including one in the projection, becomes `{ vendors: [] }`. */
module VectorSearch {
  import opened Wrappers
  import opened JsValue

  /** `topK ?? 5` */
  const DefaultTopK := 5

  /** What the embedding request followed by the index query produced. */
  datatype IndexOutcome = Answered(response: Json) | Failed

  /** The metadata fields copied into a vendor record, each defaulting to
      the empty string. */
  const TextFields: seq<string> := ["name", "location", "category", "price_range", "description"]

  /** `metadata?.key || ''` */
  function TextField(metadata: Json, key: string): Json
  {
    Or(Get(metadata, key), Str(""))
  }

  /** One match projected to a vendor record. Reading `.id` of a `null` or
      `undefined` match throws. */
  function VendorRecord(m: Json): (r: Completion<Json>)
    ensures r.Throw? <==> Nullish(m)
    ensures r.Normal? ==>
      r.value.Obj? && r.value.fields.Keys == {"id", "score", "name", "location", "category", "price_range", "description"}
    ensures r.Normal? ==> Get(r.value, "id") == Get(m, "id") && Get(r.value, "score") == Get(m, "score")
    ensures r.Normal? ==> forall i :: 0 <= i < |TextFields| ==>
      (Truthy(Get(Get(m, "metadata"), TextFields[i])) ==> Get(r.value, TextFields[i]) == Get(Get(m, "metadata"), TextFields[i]))
      && (!Truthy(Get(Get(m, "metadata"), TextFields[i])) ==> Get(r.value, TextFields[i]) == Str(""))
  {
    if Nullish(m) then Throw
    else
      var meta := Get(m, "metadata");
      Normal(Obj(map["id" := Get(m, "id"), "score" := Get(m, "score"),
                     "name" := TextField(meta, "name"), "location" := TextField(meta, "location"),
                     "category" := TextField(meta, "category"), "price_range" := TextField(meta, "price_range"),
                     "description" := TextField(meta, "description")]))
  }

  /** `matches.map(VendorRecord)` */
  function ProjectMatches(ms: seq<Json>): (r: Completion<seq<Json>>)
    ensures r.Throw? <==> exists i :: 0 <= i < |ms| && Nullish(ms[i])
    ensures r.Normal? ==> |r.value| == |ms|
    ensures r.Normal? ==> forall i :: 0 <= i < |ms| ==> VendorRecord(ms[i]) == Normal(r.value[i])
  {
    if ms == [] then Normal([])
    else
      var head := VendorRecord(ms[0]);
      var rest := ProjectMatches(ms[1..]);
      if head.Throw? || rest.Throw? then Throw
      else Normal([head.value] + rest.value)
  }

  /** `response.matches?.map(VendorRecord) ?? []`: no `matches` gives no
      vendors; a `matches` that is not an array has no `map` and throws, as
      does reading `matches` of a `null` response. */
  function Project(response: Json): (r: Completion<seq<Json>>)
    ensures Nullish(response) ==> r.Throw?
    ensures !Nullish(response) && Nullish(Get(response, "matches")) ==> r == Normal([])
    ensures !Nullish(response) && Get(response, "matches").Arr? ==> r == ProjectMatches(Get(response, "matches").items)
    ensures r.Normal? ==> forall i :: 0 <= i < |r.value| ==> r.value[i].Obj?
  {
    if Nullish(response) then Throw
    else
      var matches := Get(response, "matches");
      if Nullish(matches) then Normal([])
      else if matches.Arr? then ProjectMatches(matches.items)
      else Throw
  }

  /** `{ vendors }` */
  function VendorsResult(vendors: seq<Json>): Json
  {
    Obj(map["vendors" := Arr(vendors)])
  }

  /** The vendors `execute` answers with: the projected matches, or none
      when the backend or the projection failed. */
  function FoundVendors(query: string, topK: Option<int>, backend: (string, int) -> IndexOutcome): (r: seq<Json>)
    ensures forall i :: 0 <= i < |r| ==> r[i].Obj?
    ensures backend(query, if topK.Some? then topK.value else DefaultTopK).Failed? ==> r == []
  {
    var k := if topK.Some? then topK.value else DefaultTopK;
    match backend(query, k)
    case Failed => []
    case Answered(response) =>
      var vendors := Project(response);
      if vendors.Throw? then [] else vendors.value
  }

  /** The tool's `execute`. It never throws: every failure is answered with
      `{ vendors: [] }`. */
  function Execute(query: string, topK: Option<int>, backend: (string, int) -> IndexOutcome): (r: Json)
    ensures r.Obj? && r.fields.Keys == {"vendors"} && r.fields["vendors"] == Arr(FoundVendors(query, topK, backend))
  {
    VendorsResult(FoundVendors(query, topK, backend))
  }

  /** Only the answer to the one query `(query, topK ?? 5)` matters. */
  lemma OnlyOneQueryMatters(query: string, topK: Option<int>, b1: (string, int) -> IndexOutcome,
                            b2: (string, int) -> IndexOutcome)
    requires b1(query, if topK.Some? then topK.value else 5) == b2(query, if topK.Some? then topK.value else 5)
    ensures Execute(query, topK, b1) == Execute(query, topK, b2)
    ensures Execute(query, None, b1) == Execute(query, Some(5), b1)
  {
  }

  /** An answer whose matches hold no `null` entry gives exactly one record
      per match, in order; record `i` copies match `i`'s `id` and `score`. */
  lemma OneRecordPerMatch(query: string, topK: Option<int>, backend: (string, int) -> IndexOutcome, i: nat)
    requires var k := if topK.Some? then topK.value else DefaultTopK;
             backend(query, k).Answered? && !Nullish(backend(query, k).response)
             && Get(backend(query, k).response, "matches").Arr?
             && forall j :: 0 <= j < |Get(backend(query, k).response, "matches").items| ==>
                  !Nullish(Get(backend(query, k).response, "matches").items[j])
    requires i < |Get(backend(query, if topK.Some? then topK.value else DefaultTopK).response, "matches").items|
    ensures var ms := Get(backend(query, if topK.Some? then topK.value else DefaultTopK).response, "matches").items;
            var vs := Execute(query, topK, backend).fields["vendors"].items;
            |vs| == |ms| && Get(vs[i], "id") == Get(ms[i], "id") && Get(vs[i], "score") == Get(ms[i], "score")
            && VendorRecord(ms[i]) == Normal(vs[i])
  {
    var k := if topK.Some? then topK.value else DefaultTopK;
    var ms := Get(backend(query, k).response, "matches").items;
    assert ProjectMatches(ms).Normal?;
  }

  /** An answer without `matches` gives no vendors. */
  lemma MissingMatchesGiveNone(query: string, topK: Option<int>, backend: (string, int) -> IndexOutcome)
    requires var k := if topK.Some? then topK.value else DefaultTopK;
             backend(query, k).Answered? && !Nullish(backend(query, k).response)
             && Get(backend(query, k).response, "matches") == Undefined
    ensures Execute(query, topK, backend) == VendorsResult([])
  {
  }

  /** A `null` match is a failure: the whole result is then empty. */
  lemma NullMatchEmptiesResult(query: string, topK: Option<int>, backend: (string, int) -> IndexOutcome, j: nat)
    requires var k := if topK.Some? then topK.value else DefaultTopK;
             backend(query, k).Answered? && Get(backend(query, k).response, "matches").Arr?
             && j < |Get(backend(query, k).response, "matches").items|
             && Nullish(Get(backend(query, k).response, "matches").items[j])
    ensures Execute(query, topK, backend) == VendorsResult([])
  {
  }
}

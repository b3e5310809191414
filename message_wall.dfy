/** What the message wall shows for one message: its text with sentinel
    blocks removed (assistant messages only), the vendor cards taken from a
    structured tool result or else from a hits sentinel, and the details and
    reviews payloads it hands to the side panels. */
module MessageWall {
  import opened Wrappers
  import opened JsText
  import opened JsValue
  import opened Sentinel

  /** A message as the wall receives it: its role, its `parts` (normally an
      array of part objects, possibly absent) and the legacy `text` field. */
  datatype WallMessage = WallMessage(role: string, parts: Json, text: Json)

  /** The declared part type: an array `parts` holds objects, never `null`
      or `undefined` (reading `type` of those would throw). */
  predicate WellTyped(m: WallMessage)
  {
    m.parts.Arr? ==> forall i :: 0 <= i < |m.parts.items| ==> !Nullish(m.parts.items[i])
  }

  /** A part that contributes text: type "text" and a string `text`. */
  predicate IsTextPiece(p: Json)
  {
    Get(p, "type") == Str("text") && Get(p, "text").Str?
  }

  /** The `text` of the contributing parts, in order. */
  function TextPieces(parts: seq<Json>): (r: seq<string>)
    ensures |r| <= |parts|
  {
    if parts == [] then []
    else if IsTextPiece(parts[0]) then [Get(parts[0], "text").s] + TextPieces(parts[1..])
    else TextPieces(parts[1..])
  }

  lemma {:induction false} TextPiecesAppend(a: seq<Json>, b: seq<Json>)
    ensures TextPieces(a + b) == TextPieces(a) + TextPieces(b)
  {
    if a == [] {
      assert a + b == b;
    } else {
      assert (a + b)[0] == a[0];
      assert (a + b)[1..] == a[1..] + b;
      TextPiecesAppend(a[1..], b);
    }
  }

  /** `messageToText` */
  function MessageToText(m: WallMessage): string
    requires WellTyped(m)
  {
    if m.parts.Arr? then JoinWith("", TextPieces(m.parts.items))
    else if m.text.Str? then m.text.s
    else ""
  }

  /** With an array of parts, the legacy `text` is ignored, even when the
      array is empty; without one, a string `text` is the whole text. */
  lemma PartsOverrideText(m: WallMessage, other: Json)
    requires WellTyped(m)
    ensures m.parts.Arr? ==> MessageToText(m) == MessageToText(m.(text := other))
    ensures m.parts == Arr([]) ==> MessageToText(m) == ""
    ensures !m.parts.Arr? && m.text.Str? ==> MessageToText(m) == m.text.s
    ensures !m.parts.Arr? && !m.text.Str? ==> MessageToText(m) == ""
  {
  }

  /** The text of the parts `a + b` is the text of `a` followed by that of
      `b`: parts contribute in order, with nothing between them. */
  lemma TextInPartOrder(role: string, a: seq<Json>, b: seq<Json>, text: Json)
    requires forall i :: 0 <= i < |a| ==> !Nullish(a[i])
    requires forall i :: 0 <= i < |b| ==> !Nullish(b[i])
    ensures MessageToText(WallMessage(role, Arr(a + b), text))
            == MessageToText(WallMessage(role, Arr(a), text)) + MessageToText(WallMessage(role, Arr(b), text))
  {
    TextPiecesAppend(a, b);
    JoinEmptySepAppend(TextPieces(a), TextPieces(b));
  }

  /** A text part contributes its text; any other part contributes nothing. */
  lemma OnlyStringTextPartsCount(role: string, p: Json, text: Json)
    requires !Nullish(p)
    ensures MessageToText(WallMessage(role, Arr([p]), text)) == if IsTextPiece(p) then Get(p, "text").s else ""
  {
    assert [p][1..] == [];
    if IsTextPiece(p) {
      assert TextPieces([p]) == [Get(p, "text").s] + [];
    }
  }

  /** `type === "tool-result" && tool === "vendor_hits" && Array.isArray(result)` */
  predicate IsHitsPart(p: Json)
  {
    Get(p, "type") == Str("tool-result") && Get(p, "tool") == Str("vendor_hits") && Get(p, "result").Arr?
  }

  /** A truthy result of the given tool. */
  predicate IsPayloadPart(p: Json, tool: string)
  {
    Get(p, "type") == Str("tool-result") && Get(p, "tool") == Str(tool) && Truthy(Get(p, "result"))
  }

  /** The first hits part at or after `from`. */
  function FirstHitsFrom(parts: seq<Json>, from: nat): (r: Option<nat>)
    requires from <= |parts|
    ensures r.Some? ==> from <= r.value < |parts| && IsHitsPart(parts[r.value])
    ensures r.Some? ==> forall j :: from <= j < r.value ==> !IsHitsPart(parts[j])
    ensures r.None? ==> forall j :: from <= j < |parts| ==> !IsHitsPart(parts[j])
    decreases |parts| - from
  {
    if from == |parts| then None
    else if IsHitsPart(parts[from]) then Some(from)
    else FirstHitsFrom(parts, from + 1)
  }

  /** The last part before `until` carrying a truthy result of `tool`. */
  function LastPayloadIndex(parts: seq<Json>, tool: string, until: nat): (r: Option<nat>)
    requires until <= |parts|
    ensures r.Some? ==> r.value < until && IsPayloadPart(parts[r.value], tool)
    ensures r.Some? ==> forall k :: r.value < k < until ==> !IsPayloadPart(parts[k], tool)
    ensures r.None? ==> forall k :: 0 <= k < until ==> !IsPayloadPart(parts[k], tool)
    decreases until
  {
    if until == 0 then None
    else if IsPayloadPart(parts[until - 1], tool) then Some(until - 1)
    else LastPayloadIndex(parts, tool, until - 1)
  }

  /** The payload of that part, or `null` when there is none. */
  function LastPayload(parts: seq<Json>, tool: string, until: nat): Json
    requires until <= |parts|
  {
    var i := LastPayloadIndex(parts, tool, until);
    if i.Some? then Get(parts[i.value], "result") else Null
  }

  /** `maxCards = 6` */
  const DefaultMaxCards := 6

  function CardLimit(maxCards: Option<int>): int
  {
    if maxCards.Some? then maxCards.value else DefaultMaxCards
  }

  /** The hits taken from structured parts: the first hits part's result,
      cut to the card limit. */
  function StructuredHits(parts: seq<Json>, limit: int): Option<seq<Json>>
  {
    var i := FirstHitsFrom(parts, 0);
    if i.Some? then Some(SliceTo(Get(parts[i.value], "result").items, limit)) else None
  }

  /** The sentinel fallback: extracted hits, cut only when longer than the
      limit. */
  function SentinelHits(raw: string, limit: int, parse: string -> Option<Json>): Option<seq<Json>>
  {
    var h := ExtractVendorHits(raw, parse);
    if h.Some? && |h.value| > limit then Some(SliceTo(h.value, limit)) else h
  }

  /** What the wall renders for one message. `hits` is `vendorHits`; the
      cards are shown when it is a non-empty list. */
  datatype View = View(humanText: string, hits: Option<seq<Json>>, details: Json, reviews: Json)

  function Cards(v: View): seq<Json>
  {
    if v.hits.Some? then v.hits.value else []
  }

  /** The view of one message, as the render body computes it. */
  function ViewOf(m: WallMessage, maxCards: Option<int>, parse: string -> Option<Json>): (r: View)
    requires WellTyped(m)
    ensures CardLimit(maxCards) >= 0 && r.hits.Some? ==> |r.hits.value| <= CardLimit(maxCards)
    ensures |r.humanText| <= |MessageToText(m)|
  {
    var raw := MessageToText(m);
    var limit := CardLimit(maxCards);
    var parts := if m.parts.Arr? then m.parts.items else [];
    var structured := if m.parts.Arr? then StructuredHits(parts, limit) else None;
    var hits := if structured.Some? then structured else SentinelHits(raw, limit, parse);
    var details := if m.parts.Arr? then LastPayload(parts, "vendor_details", |parts|) else Null;
    var reviews := if m.parts.Arr? then LastPayload(parts, "vendor_reviews", |parts|) else Null;
    View(if m.role == "assistant" then StripSentinels(raw) else raw, hits, details, reviews)
  }

  /** The loop over parts that stops at the first hits part. */
  method FindStructuredHits(parts: seq<Json>, limit: int) returns (hits: Option<seq<Json>>)
    ensures hits == StructuredHits(parts, limit)
  {
    hits := None;
    var i := 0;
    while i < |parts|
      invariant 0 <= i <= |parts|
      invariant forall j :: 0 <= j < i ==> !IsHitsPart(parts[j])
    {
      if IsHitsPart(parts[i]) {
        assert FirstHitsFrom(parts, 0) == Some(i);
        return Some(SliceTo(Get(parts[i], "result").items, limit));
      }
      i := i + 1;
    }
  }

  /** The loop that keeps the last details payload and the last reviews
      payload. */
  method KeepLastPayloads(parts: seq<Json>) returns (details: Json, reviews: Json)
    ensures details == LastPayload(parts, "vendor_details", |parts|)
    ensures reviews == LastPayload(parts, "vendor_reviews", |parts|)
  {
    details, reviews := Null, Null;
    var k := 0;
    while k < |parts|
      invariant 0 <= k <= |parts|
      invariant details == LastPayload(parts, "vendor_details", k)
      invariant reviews == LastPayload(parts, "vendor_reviews", k)
    {
      if IsPayloadPart(parts[k], "vendor_details") {
        details := Get(parts[k], "result");
      }
      if IsPayloadPart(parts[k], "vendor_reviews") {
        reviews := Get(parts[k], "result");
      }
      k := k + 1;
    }
  }

  /** The per-message render body: the two loops over parts, the sentinel
      fallback and the text to show. */
  method RenderMessage(m: WallMessage, maxCards: Option<int>, parse: string -> Option<Json>) returns (view: View)
    requires WellTyped(m)
    ensures view == ViewOf(m, maxCards, parse)
  {
    var raw := MessageToText(m);
    var limit := CardLimit(maxCards);
    var hits: Option<seq<Json>> := None;
    var details: Json := Null;
    var reviews: Json := Null;
    if m.parts.Arr? {
      hits := FindStructuredHits(m.parts.items, limit);
      details, reviews := KeepLastPayloads(m.parts.items);
    }
    if hits.None? {
      hits := ExtractVendorHits(raw, parse);
      if hits.Some? && |hits.value| > limit {
        hits := Some(SliceTo(hits.value, limit));
      }
    }
    var human := if m.role == "assistant" then StripSentinels(raw) else raw;
    view := View(human, hits, details, reviews);
  }

  /** Cutting only a longer list is the same as always slicing. */
  lemma SentinelCutIsSlice(h: seq<Json>, limit: int)
    ensures (if |h| > limit then SliceTo(h, limit) else h) == SliceTo(h, limit)
  {
    if |h| <= limit {
      assert SliceLength(|h|, limit) == |h|;
    }
  }

  /** The first hits part decides: its result, cut to `maxCards` (6 when not
      given), whatever the text or later parts hold. */
  lemma FirstHitsPartWins(m: WallMessage, maxCards: Option<int>, parse: string -> Option<Json>, i: nat)
    requires WellTyped(m) && m.parts.Arr? && i < |m.parts.items|
    requires IsHitsPart(m.parts.items[i]) && forall j :: 0 <= j < i ==> !IsHitsPart(m.parts.items[j])
    ensures ViewOf(m, maxCards, parse).hits
            == Some(SliceTo(Get(m.parts.items[i], "result").items, if maxCards.Some? then maxCards.value else 6))
  {
    assert FirstHitsFrom(m.parts.items, 0) == Some(i);
  }

  /** An empty structured result still counts as found: no cards, and the
      sentinel in the text is not consulted. */
  lemma EmptyStructuredHitsSuppressSentinel(m: WallMessage, maxCards: Option<int>, parse: string -> Option<Json>, i: nat)
    requires WellTyped(m) && m.parts.Arr? && i < |m.parts.items|
    requires IsHitsPart(m.parts.items[i]) && Get(m.parts.items[i], "result") == Arr([])
    requires forall j :: 0 <= j < i ==> !IsHitsPart(m.parts.items[j])
    ensures ViewOf(m, maxCards, parse).hits == Some([])
    ensures Cards(ViewOf(m, maxCards, parse)) == []
  {
    FirstHitsPartWins(m, maxCards, parse, i);
  }

  /** Without a hits part, the hits come from the text's sentinel block,
      cut to the limit. */
  lemma SentinelFallback(m: WallMessage, maxCards: Option<int>, parse: string -> Option<Json>)
    requires WellTyped(m)
    requires m.parts.Arr? ==> forall j :: 0 <= j < |m.parts.items| ==> !IsHitsPart(m.parts.items[j])
    ensures var h := ExtractVendorHits(MessageToText(m), parse);
            ViewOf(m, maxCards, parse).hits == if h.Some? then Some(SliceTo(h.value, CardLimit(maxCards))) else None
  {
    var h := ExtractVendorHits(MessageToText(m), parse);
    if h.Some? {
      SentinelCutIsSlice(h.value, CardLimit(maxCards));
    }
  }

  /** Details and reviews are taken from the last truthy matching part,
      with or without hits, and only assistant text loses its sentinels. */
  lemma PayloadsAndText(m: WallMessage, maxCards: Option<int>, parse: string -> Option<Json>, j: nat)
    requires WellTyped(m) && m.parts.Arr? && j < |m.parts.items|
    requires IsPayloadPart(m.parts.items[j], "vendor_details")
    requires forall k :: j < k < |m.parts.items| ==> !IsPayloadPart(m.parts.items[k], "vendor_details")
    ensures ViewOf(m, maxCards, parse).details == Get(m.parts.items[j], "result")
    ensures m.role == "assistant" ==> ViewOf(m, maxCards, parse).humanText == StripSentinels(MessageToText(m))
    ensures m.role != "assistant" ==> ViewOf(m, maxCards, parse).humanText == MessageToText(m)
  {
  }

  /** Whatever the parts hold: only assistant text loses its sentinels, and
      details and reviews are the last truthy results of their tools, `null`
      without a `parts` array. */
  lemma DisplayedText(m: WallMessage, maxCards: Option<int>, parse: string -> Option<Json>)
    requires WellTyped(m)
    ensures ViewOf(m, maxCards, parse).humanText ==
      if m.role == "assistant" then StripSentinels(MessageToText(m)) else MessageToText(m)
    ensures m.parts.Arr? ==>
      ViewOf(m, maxCards, parse).reviews == LastPayload(m.parts.items, "vendor_reviews", |m.parts.items|)
    ensures m.parts.Arr? ==>
      ViewOf(m, maxCards, parse).details == LastPayload(m.parts.items, "vendor_details", |m.parts.items|)
    ensures !m.parts.Arr? ==> ViewOf(m, maxCards, parse).details == Null && ViewOf(m, maxCards, parse).reviews == Null
  {
  }

  /** The reviews come from the last truthy `vendor_reviews` part. */
  lemma ReviewsFromLastPart(m: WallMessage, maxCards: Option<int>, parse: string -> Option<Json>, j: nat)
    requires WellTyped(m) && m.parts.Arr? && j < |m.parts.items|
    requires IsPayloadPart(m.parts.items[j], "vendor_reviews")
    requires forall k :: j < k < |m.parts.items| ==> !IsPayloadPart(m.parts.items[k], "vendor_reviews")
    ensures ViewOf(m, maxCards, parse).reviews == Get(m.parts.items[j], "result")
  {
  }

  /** Without a truthy part of the tool, the payload is `null`. */
  lemma NoPayloadPartGivesNull(parts: seq<Json>, tool: string)
    requires forall k :: 0 <= k < |parts| ==> !IsPayloadPart(parts[k], tool)
    ensures LastPayload(parts, tool, |parts|) == Null
  {
  }

  /** The price shown on a card: "₹min - ₹max" ("NA" for a missing bound)
      when one bound is truthy, else the raw record's `price_range` when
      truthy, else "Price not provided". */
  function CardPrice(vendor: Json): (r: Json)
    requires !Nullish(vendor)
    ensures Truthy(r)
  {
    var lo, hi := Get(vendor, "price_min"), Get(vendor, "price_max");
    if Truthy(lo) || Truthy(hi) then
      Str("\U{20B9}" + ToStr(Coalesce(lo, Str("NA"))) + " - " + "\U{20B9}" + ToStr(Coalesce(hi, Str("NA"))))
    else Or(Get(Get(vendor, "raw"), "price_range"), Str("Price not provided"))
  }

  /** Both bounds give the rupee range. */
  lemma CardPriceRange(lo: nat, hi: nat)
    requires lo > 0
    ensures CardPrice(Obj(map["price_min" := Num(lo), "price_max" := Num(hi)]))
            == Str("\U{20B9}" + NatToString(lo) + " - " + "\U{20B9}" + NatToString(hi))
  {
    var v := Obj(map["price_min" := Num(lo), "price_max" := Num(hi)]);
    assert Get(v, "price_min") == Num(lo) && Get(v, "price_max") == Num(hi);
  }

  /** A missing upper bound reads "NA". */
  lemma CardPriceMissingBound(lo: nat)
    requires lo > 0
    ensures CardPrice(Obj(map["price_min" := Num(lo)])) == Str("\U{20B9}" + NatToString(lo) + " - " + "\U{20B9}" + "NA")
  {
    var v := Obj(map["price_min" := Num(lo)]);
    assert Get(v, "price_min") == Num(lo) && Get(v, "price_max") == Undefined;
  }

  /** Without truthy bounds the card falls back to `raw.price_range`, and
      to the literal when that is falsy or there is no `raw`. */
  lemma CardPriceFallback(vendor: Json)
    requires !Nullish(vendor)
    requires !Truthy(Get(vendor, "price_min")) && !Truthy(Get(vendor, "price_max"))
    ensures Truthy(Get(Get(vendor, "raw"), "price_range")) ==> CardPrice(vendor) == Get(Get(vendor, "raw"), "price_range")
    ensures !Truthy(Get(Get(vendor, "raw"), "price_range")) ==> CardPrice(vendor) == Str("Price not provided")
  {
  }

  /** The card image: the first entry of a non-empty `images` array, else
      none (`null`). */
  function CardImage(vendor: Json): (r: Json)
    requires !Nullish(vendor)
    ensures Get(vendor, "images").Arr? && |Get(vendor, "images").items| > 0 ==> r == Get(vendor, "images").items[0]
    ensures !(Get(vendor, "images").Arr? && |Get(vendor, "images").items| > 0) ==> r == Null
  {
    var images := Get(vendor, "images");
    if images.Arr? && |images.items| > 0 then images.items[0] else Null
  }

  /** The payload of the Reviews button: `vendor_id` is `id ?? raw?.id`,
      `vendor_name` the record's name. */
  function ReviewsRequest(vendor: Json): (r: Json)
    requires !Nullish(vendor)
    ensures !Nullish(Get(vendor, "id")) ==> Get(r, "vendor_id") == Get(vendor, "id")
    ensures Nullish(Get(vendor, "id")) ==> Get(r, "vendor_id") == Get(Get(vendor, "raw"), "id")
    ensures Get(r, "vendor_name") == Get(vendor, "name")
  {
    Obj(map["vendor_id" := Coalesce(Get(vendor, "id"), Get(Get(vendor, "raw"), "id")),
            "vendor_name" := Get(vendor, "name")])
  }

  /** A non-empty `images` array shows its first entry; an empty one shows none. */
  lemma CardImageExamples(first: Json, rest: seq<Json>)
    ensures CardImage(Obj(map["images" := Arr([first] + rest)])) == first
    ensures CardImage(Obj(map["images" := Arr([])])) == Null
    ensures CardImage(Obj(map["images" := Str("a.png")])) == Null
  {
  }

  /** A `null` id falls back to the raw record's id; a present id, even a
      falsy one such as 0, is kept. */
  lemma ReviewsIdFallback(x: Json, name: Json)
    ensures Get(ReviewsRequest(Obj(map["id" := Null, "raw" := Obj(map["id" := x]), "name" := name])), "vendor_id") == x
    ensures Get(ReviewsRequest(Obj(map["id" := Num(0), "raw" := Obj(map["id" := x])])), "vendor_id") == Num(0)
    ensures Get(ReviewsRequest(Obj(map["name" := name])), "vendor_id") == Undefined
  {
  }
}

# Vivah.AI chat core in Dafny

Vivah.AI is a chat assistant for wedding planning in Mumbai. This project
models three of its pieces:

- **The chat endpoint.** The `POST` handler does the following:
  - It accepts a `{ messages }` or `{ message }` body and reads the latest
    user text.
  - It sends that text to moderation. Flagged text gets a denial stream.
  - It detects vendor queries with a naive keyword test.
  - For a vendor query it searches the vector database (topK 8). It then
    normalises whatever shape the result has into a vendor list. It streams
    one message: a numbered listing of at most 8 vendors, a "nothing found"
    note, or an apology.
  - Any other query goes to the language model. If the model call throws,
    a fallback message is streamed instead.
- **The vector-database search tool.** Its `execute` looks up `topK ?? 5`
  matches. It projects each match to a flat record. Any failure becomes
  `{ vendors: [] }`.
- **The message wall.** It turns a UI message into text. It picks vendor
  cards from a structured `vendor_hits` tool result. When there is none, it
  falls back to a JSON block between the `__VENDOR_HITS_JSON__` markers. It
  strips every sentinel block from the text it displays. It also keeps the
  last details and reviews payloads, and derives each card's price, image
  and Reviews-button payload.

JavaScript values are modelled as `JsValue.Json`. The model writes out each
JavaScript operator the code relies on: truthiness, `??`, `||`, property
reads, `String(v)`, object spread, `slice` and `filter(Boolean)`. An
exception is the `Throw` case of `Completion`.

The collaborators are parameters:
- the moderation service;
- the search tool object;
- the language model call;
- the embedding and index backend;
- `JSON.parse`.

The stream writer is a class whose `Write` appends to a recorded event
sequence. The imperative parts are methods, each proved equal to a
function that specifies it:
- the handler (`Post`, `AnswerText`);
- the nested search `try`s (`CallSearch`);
- the normaliser, which reassigns `vendors` (`NormalizeVendors`, `KeepTruthy`);
- the two loops over message parts (`FindStructuredHits`, `KeepLastPayloads`).

Behaviours of the code a caller might not expect:
- **The normaliser can throw.** A `null` entry in `matches` makes reading
  `m.metadata` throw (route.ts line 189). A `null` entry in `hits` makes
  reading `h.document` throw (route.ts line 195). Vendor mode's `catch` then
  writes the apology.
- **The min/max price is glued to the city.** For a record without
  `price_range`, the `.replace(/(^, )|(^, $)/, "")` removes the `", "` before
  "approx". A record holding only min 100 and max 200 is listed as
  `1. Unnamed vendor – Vendor, Mumbaiapprox 100-200`
  (`VendorFormatter.MinMaxPriceGluedToCity`).
- **A falsy contact can leak into the line.** `v.metadata && v.metadata.phone`
  can yield a falsy value that is not nullish, such as `0`. The line then
  ends in that value with no ", contact: " prefix
  (`VendorFormatter.FalsyMetadataLeaks`).
- **Selection uses the raw length.** The normaliser chooses a result shape
  by raw array length, and only afterwards removes falsy entries. So
  `{ vendors: [null], results: [x] }` gives no vendors.

## Model

| member | source | states |
|---|---|---|
| JsText.Contains | app/api/chat/route.ts:62 | `includes` is true exactly when the pattern occurs at some position of the text |
| JsText.IndexFrom | components/messages/message-wall.tsx:56-57 | the index found is an occurrence at or after the start position, and no earlier occurrence from that position exists; `None` exactly when there is none |
| JsText.ToLower | app/api/chat/route.ts:42 | lower-casing keeps the length and maps each character through the ASCII case map |
| JsText.TrimStart | app/api/chat/route.ts:148 | the result is a suffix of the input, and only whitespace was removed before it |
| JsText.TrimEnd | app/api/chat/route.ts:148 | the result is a prefix of the input, and only whitespace was removed after it |
| JsText.TrimEndsNotWhitespace | app/api/chat/route.ts:148 | a trimmed string is empty, or neither its first nor its last character is whitespace |
| JsText.TrimIsInfix | components/messages/message-wall.tsx:75 | the trimmed string is a slice of the input, and everything cut on either side is whitespace |
| JsText.TrimKeepsTrimmed | app/api/chat/route.ts:148 | trimming is idempotent |
| JsText.NatToString | app/api/chat/route.ts:234 | the decimal rendering of a number is non-empty and all digits, with a leading `0` only for zero |
| JsText.NatToStringRoundTrip | app/api/chat/route.ts:234 | reading the rendered digits back as a decimal gives the number |
| JsValue.FilterTruthy | app/api/chat/route.ts:205 | `filter(Boolean)` keeps exactly the truthy entries: each kept entry is truthy and from the input, each truthy entry is kept, and an all-truthy list is unchanged |
| JsValue.FilterTruthySnoc | app/api/chat/route.ts:205 | filtering a list extended by one entry extends the filtered list exactly when that entry is truthy |
| JsValue.SliceLength | components/messages/message-wall.tsx:171 | `slice(0, end)` keeps `min(end, length)` entries; a negative end counts from the end |
| Intent.SomeIncluded | app/api/chat/route.ts:62 | `some(k => t.includes(k))` is true exactly when some keyword occurs in the text |
| Intent.SomeIncludedAppend | app/api/chat/route.ts:62 | trying the vendor list and then the city list is the same as trying one list that concatenates them |
| Intent.MentionsKeyword | app/api/chat/route.ts:44-62 | true exactly when one of the 14 vendor keywords or the 2 city keywords occurs |
| Intent.IsVendorQuery | app/api/chat/route.ts:40-63 | missing or empty text is never a vendor query; otherwise it is one exactly when its lower-cased form contains a vendor or city keyword |
| Intent.CoreOf | app/api/chat/route.ts:44-60 | every keyword is one of 11 core keywords followed by a suffix |
| Intent.KeywordOf | app/api/chat/route.ts:44-60 | every core keyword is itself one of the keywords |
| Intent.CoreKeywordsSuffice | app/api/chat/route.ts:44-62 | the plural forms and "decorator" are redundant: the test holds exactly when one of the 11 core keywords occurs |
| Intent.ToLowerAppend | app/api/chat/route.ts:42 | lower-casing distributes over concatenation |
| Intent.KeywordInAnyCase | app/api/chat/route.ts:42-62 | a keyword written in any casing, anywhere in the text, makes it a vendor query |
| Intent.NoWordBoundaries | app/api/chat/route.ts:62 | "djembe" is a vendor query, because "dj" occurs inside a word |
| Intent.MixedCaseKeyword | app/api/chat/route.ts:42-62 | "Need a DJ in Bombay" is a vendor query |
| ChatRequest.NormalizeBody | app/api/chat/route.ts:72-97 | a body that is not JSON gets "invalid JSON body"; a `null` or `undefined` body throws; an array `messages` is the history; otherwise a string `message` becomes a one-message history; "no messages provided" is returned exactly when neither applies |
| ChatRequest.UserMessages | app/api/chat/route.ts:29 | the role filter throws exactly when some entry is `null` or `undefined` |
| ChatRequest.UserMessagesAreTheUsers | app/api/chat/route.ts:29 | the filter keeps every user message and nothing but user messages of the history |
| ChatRequest.UserMessagesSnoc | app/api/chat/route.ts:29 | filtering a history extended by one message extends the filtered history exactly when that message is a user message |
| ChatRequest.TextPartValues | app/api/chat/route.ts:32-35 | the text-part map throws exactly when some part is `null` or `undefined` |
| ChatRequest.TextPartValuesAppend | app/api/chat/route.ts:32-35 | the values of parts `a + b` are those of `a` followed by those of `b`, and the map throws exactly when either half throws |
| ChatRequest.OneTextPart | app/api/chat/route.ts:33-34 | a single part gives its `text` ("" without one) when it is a text part, nothing when it is another part, and throws when it is nullish |
| ChatRequest.MessageText | app/api/chat/route.ts:32-35 | reading a message's text throws exactly when `parts` is not an array or holds a nullish part |
| JsValue.JoinValuesAppend | app/api/chat/route.ts:35 | `join("")` of `x + y` is the join of `x` followed by the join of `y` |
| ChatRequest.MessageTextInPartOrder | app/api/chat/route.ts:32-35 | the text of parts `a + b` is the joined text of `a` followed by that of `b` |
| ChatRequest.LatestUserText | app/api/chat/route.ts:28-38 | a text it returns is never empty: an empty joined text gives `null` |
| ChatRequest.LatestUserTextOrEmpty | app/api/chat/route.ts:99 | `?? ""` throws exactly when the latest-text read throws; it gives "" exactly when there is no text, and otherwise the text itself |
| ChatRequest.LaterNonUserMessageIgnored | app/api/chat/route.ts:29 | appending a message of another role does not change the latest user text |
| ChatRequest.LastUserMessageWins | app/api/chat/route.ts:28-38 | appending a user message makes its own joined text parts the answer, `None` when empty |
| ChatRequest.SingleMessageText | app/api/chat/route.ts:84-92 | a `{ message: s }` body yields exactly `s` as the latest user text, or none when `s` is empty |
| ChatRequest.NoUserMessageNoText | app/api/chat/route.ts:29-30 | a history without user messages yields no text |
| ResultNormalizer.NonEmptyArray | app/api/chat/route.ts:181 | `Array.isArray(x) && x.length` holds exactly for a non-empty array, and yields its elements |
| ResultNormalizer.MatchRecord | app/api/chat/route.ts:188-192 | flattening a match throws exactly when the match is nullish; a record is an object holding `_score` and `_id` |
| ResultNormalizer.HitRecord | app/api/chat/route.ts:194-198 | flattening a hit throws exactly when the hit is nullish; a record is an object holding `_score` and `_id` |
| ResultNormalizer.MapMatches | app/api/chat/route.ts:188-192 | one record per match, in order; throws exactly when an entry is nullish |
| ResultNormalizer.MapHits | app/api/chat/route.ts:194-198 | one record per hit, in order; throws exactly when an entry is nullish |
| ResultNormalizer.SelectVendors | app/api/chat/route.ts:181-203 | selection finds nothing exactly when none of `vendors`, `results`, `items`, `matches`, `hits` and the result itself is a non-empty array; it throws only in the `matches` or `hits` branch |
| ResultNormalizer.Normalize | app/api/chat/route.ts:178-205 | every vendor in a normalised list is truthy |
| ResultNormalizer.VendorsSelected | app/api/chat/route.ts:181-182 | a non-empty `vendors` array wins, with only its falsy entries dropped |
| ResultNormalizer.ResultsSelected | app/api/chat/route.ts:183-184 | without a non-empty `vendors`, a non-empty `results` array is taken, with only its falsy entries dropped |
| ResultNormalizer.ItemsSelected | app/api/chat/route.ts:185-186 | without the two earlier keys, a non-empty `items` array is taken, with only its falsy entries dropped |
| ResultNormalizer.MatchesSelected | app/api/chat/route.ts:187-192 | without the three earlier keys, a non-empty `matches` array gives its flattened records, none dropped |
| ResultNormalizer.HitsSelected | app/api/chat/route.ts:193-198 | without the four earlier keys, a non-empty `hits` array gives its flattened records, none dropped |
| ResultNormalizer.TopLevelArraySelected | app/api/chat/route.ts:199-205 | without any of the five keys, a non-empty array result gives its truthy entries, and anything else gives no vendors |
| ResultNormalizer.NormalizeVendors | app/api/chat/route.ts:178-205 | the step-by-step reassignment of `vendors` computes the normaliser |
| ResultNormalizer.KeepTruthy | app/api/chat/route.ts:205 | the loop computes `filter(Boolean)` |
| ResultNormalizer.NormalizeThrowsOnlyOnNullishEntry | app/api/chat/route.ts:181-205 | the normaliser throws exactly when the `matches` or `hits` branch is selected and that array holds a nullish entry |
| ResultNormalizer.UndefinedGivesNone | app/api/chat/route.ts:181-203 | an `undefined` result normalises to no vendors |
| ResultNormalizer.EmptyShapeFallsThrough | app/api/chat/route.ts:181-203 | a key whose value is not a non-empty array is skipped as if absent |
| ResultNormalizer.FilterRunsAfterSelection | app/api/chat/route.ts:181-205 | `{ vendors: [null], results: [x] }` gives no vendors, because selection uses the raw length |
| ResultNormalizer.MatchesBranchRecords | app/api/chat/route.ts:187-192 | in the `matches` branch, record `i` carries match `i`'s metadata fields, with `_score` = `score ?? similarity` and `_id` = `id` |
| ResultNormalizer.HitsBranchRecords | app/api/chat/route.ts:193-198 | in the `hits` branch, a record takes its fields from `document`, else `payload`, else `metadata`, else the hit itself; `_score` = `score ?? _score`; `_id` = `id` |
| ResultNormalizer.HitsExample | app/api/chat/route.ts:193-198 | a worked `hits` response gives the document's name with its `_score` and `_id` |
| VendorFormatter.FirstPresent | app/api/chat/route.ts:215-223 | an `??` chain over absent keys gives the fallback |
| VendorFormatter.FirstPresentPicks | app/api/chat/route.ts:215-223 | an `??` chain gives the value of the first key holding a non-nullish value |
| VendorFormatter.FallbackShown | app/api/chat/route.ts:215-223 | with every key absent, the fallback text is shown |
| VendorFormatter.MapNumbered | app/api/chat/route.ts:214 | the `map` makes one line per vendor, and line `i` renders vendor `i` under number `first + i` |
| VendorFormatter.OpeningLetter | app/api/chat/route.ts:207-238 | the delta is never empty; it opens with "I" (the note) exactly for an empty list, else with "H" (the header) |
| VendorFormatter.HeaderOpensListing | app/api/chat/route.ts:237-238 | the listing opens with "H" whatever lines follow the header |
| VendorFormatter.EmptyListEchoesQuery | app/api/chat/route.ts:207-212 | no vendors give the note, which quotes the query verbatim |
| VendorFormatter.ListingLines | app/api/chat/route.ts:214-238 | a non-empty list gives the header and then `min(n, 8)` lines joined by newlines, where line `i` renders vendor `i` numbered `i + 1` |
| VendorFormatter.LineStartsWithNumber | app/api/chat/route.ts:234 | each line opens with its number followed by ". " |
| VendorFormatter.BodyWithoutContact | app/api/chat/route.ts:234 | a line without contact is "name – category, city" followed directly by the price part |
| VendorFormatter.DefaultsLine | app/api/chat/route.ts:215-234 | an empty record is listed as "n. Unnamed vendor – Vendor, Mumbai" |
| VendorFormatter.AbsentFieldsGiveDefaults | app/api/chat/route.ts:215-223 | without any known key, name, category and city are "Unnamed vendor", "Vendor" and "Mumbai" |
| VendorFormatter.NoPricePart | app/api/chat/route.ts:224-231 | the price part is empty exactly when none of `price_range`, `min_price` and `max_price` is truthy |
| VendorFormatter.PriceRangeSuffix | app/api/chat/route.ts:225-226 | a truthy `price_range` gives ", approx " followed by the range |
| VendorFormatter.MinMaxPriceSuffix | app/api/chat/route.ts:227-231 | without a range, a truthy bound gives "approx mn[-]mx" with the dash only when both bounds are truthy, and without the leading ", " |
| VendorFormatter.BothBoundsSuffix | app/api/chat/route.ts:227-231 | two positive bounds give "approx lo-hi" |
| VendorFormatter.MinMaxPriceGluedToCity | app/api/chat/route.ts:224-234 | a record with only bounds 100 and 200 is listed ending in "Mumbaiapprox 100-200" |
| VendorFormatter.PriceFieldsOnlyGiveDefaults | app/api/chat/route.ts:215-233 | a record holding only price fields shows the default name, category and city, and no contact |
| VendorFormatter.ZeroMinPrice | app/api/chat/route.ts:227-230 | a zero lower bound is present but falsy: no dash, "approx 0500" |
| VendorFormatter.ContactSuffixTruthy | app/api/chat/route.ts:232-233 | a truthy contact is shown after ", contact: ", taken from `phone`, then `contact`, then the metadata phone |
| VendorFormatter.FalsyMetadataLeaks | app/api/chat/route.ts:232-234 | a `metadata` of 0 makes the contact part a bare "0" |
| Sentinel.BlockLength | components/messages/message-wall.tsx:74 | a block matches at the front exactly when the text opens with the start marker and an end marker follows; its length covers both markers |
| Sentinel.BlockAt | components/messages/message-wall.tsx:74 | a match is non-empty, and there is none exactly when none of the four alternatives matches |
| Sentinel.RemoveBlocks | components/messages/message-wall.tsx:74-75 | a length bound only: the replace never lengthens the text; what it keeps and drops is stated by `KeepsFirst`, `SkipsBlock`, `BlockDropped` and `StripOneBlock` |
| Sentinel.Between | components/messages/message-wall.tsx:56-57 | the lazy capture is absent exactly when the start marker does not occur or no end marker follows its first occurrence |
| Sentinel.HitsOfParsed | components/messages/message-wall.tsx:61-63 | a parsed array is the hits itself, else an array under `result`; `null` exactly when neither |
| Sentinel.ExtractVendorHits | components/messages/message-wall.tsx:54-68 | empty text or a missing block gives `null`; any hits found are those of the parsed payload; and when a block is present and its payload parses, the result is exactly the hits of that payload |
| Sentinel.StripSentinels | components/messages/message-wall.tsx:71-76 | the displayed text is never longer than the input, and it is empty or neither starts nor ends with whitespace |
| Sentinel.MarkersOpenWithUnderscore | components/messages/message-wall.tsx:74 | each start marker is non-empty and opens with an underscore |
| Sentinel.AbsentMarkerNoBlock | components/messages/message-wall.tsx:74 | a start marker that does not occur opens no block |
| Sentinel.NoMarkerKept | components/messages/message-wall.tsx:74 | text with no start marker is unchanged by the replace |
| Sentinel.NoMarkerOnlyTrims | components/messages/message-wall.tsx:71-76 | stripping "" gives ""; text with no start marker is only trimmed |
| Sentinel.OtherCharNoBlock | components/messages/message-wall.tsx:74 | a marker opening with an underscore matches nowhere that another character stands |
| Sentinel.NoBlockAtOtherChar | components/messages/message-wall.tsx:74 | no block begins at a character other than an underscore |
| Sentinel.KeepsFirst | components/messages/message-wall.tsx:74 | where no block starts, the replace keeps the character and goes on |
| Sentinel.SkipsBlock | components/messages/message-wall.tsx:74 | where a block starts, the replace drops it and resumes right after it |
| Sentinel.UnderscoreFreeKept | components/messages/message-wall.tsx:74 | underscore-free text in front of the rest is kept verbatim |
| Sentinel.KeepsPlainChar | components/messages/message-wall.tsx:74 | a character other than an underscore is kept |
| Sentinel.ClosingMarkerFound | components/messages/message-wall.tsx:74 | the lazy match closes at the first end marker after the start marker |
| Sentinel.FrontBlock | components/messages/message-wall.tsx:74 | a whole block at the front has the length of its three pieces |
| Sentinel.StartsDistinct | components/messages/message-wall.tsx:74 | no text opens with two different start markers |
| Sentinel.OnlyAlternativeMatches | components/messages/message-wall.tsx:74 | when one alternative matches, no other does |
| Sentinel.BlockDropped | components/messages/message-wall.tsx:74 | a whole block at the front is removed |
| Sentinel.StripOneBlock | components/messages/message-wall.tsx:71-76 | a block of any of the four kinds after plain text is removed, and the text around it is kept and trimmed |
| Sentinel.StripAfterPlainText | components/messages/message-wall.tsx:74-75 | after underscore-free text, stripping depends only on what the rest reduces to |
| Sentinel.FirstMarkerAfterPlainText | components/messages/message-wall.tsx:56-57 | a marker right after underscore-free text is found at that position |
| Sentinel.PlainTextOpensNothing | components/messages/message-wall.tsx:56-57 | underscore-free text in front of a marker holds no earlier occurrence of it |
| Sentinel.OpenedAfterExtend | components/messages/message-wall.tsx:56-57 | text appended after the first start marker does not move it |
| Sentinel.BetweenRoundTrip | components/messages/message-wall.tsx:56-57 | wrapping a payload in a marker pair after any text that holds no earlier start marker, and then matching, gives the payload back when the payload holds no end marker |
| Sentinel.HitsRoundTrip | components/messages/message-wall.tsx:54-68 | embedding a payload in a hits block after any text that holds no earlier hits marker, and extracting it, gives back the hits of the parsed payload |
| Sentinel.HitsAfterPlainText | components/messages/message-wall.tsx:54-68 | the same round trip after underscore-free text |
| MessageWall.TextPieces | components/messages/message-wall.tsx:43-45 | a length bound only: there are no more text pieces than parts; the pieces themselves are stated by `TextPiecesAppend` and `OnlyStringTextPartsCount` |
| MessageWall.TextPiecesAppend | components/messages/message-wall.tsx:43-45 | the pieces of `a + b` are those of `a` followed by those of `b` |
| MessageWall.PartsOverrideText | components/messages/message-wall.tsx:39-51 | an array `parts` decides and the legacy `text` is ignored; without `parts`, a string `text` is used, else "" |
| MessageWall.TextInPartOrder | components/messages/message-wall.tsx:42-46 | the text of parts `a + b` is that of `a` followed by that of `b` |
| MessageWall.OnlyStringTextPartsCount | components/messages/message-wall.tsx:44-45 | a text part with a string `text` contributes that text; any other part contributes nothing |
| MessageWall.FirstHitsFrom | components/messages/message-wall.tsx:169-175 | the index found is a hits part with no hits part before it; `None` means there is no hits part |
| MessageWall.LastPayloadIndex | components/messages/message-wall.tsx:177-184 | the index found is a truthy result of the tool with none after it; `None` means there is none |
| MessageWall.FindStructuredHits | components/messages/message-wall.tsx:168-175 | the loop that breaks at the first hits part yields its result cut to the limit |
| MessageWall.KeepLastPayloads | components/messages/message-wall.tsx:177-184 | the loop keeps the last truthy details result and the last truthy reviews result |
| MessageWall.ViewOf | components/messages/message-wall.tsx:162-194 | the cards shown never exceed a non-negative limit, and the displayed text is never longer than the message text |
| MessageWall.RenderMessage | components/messages/message-wall.tsx:162-194 | the render body computes the specified view: text, hits, details and reviews |
| MessageWall.SentinelCutIsSlice | components/messages/message-wall.tsx:190 | cutting only a longer list is the same as always slicing |
| MessageWall.FirstHitsPartWins | components/messages/message-wall.tsx:168-175 | the first hits part decides, cut to `maxCards` (6 by default), whatever the text holds |
| MessageWall.EmptyStructuredHitsSuppressSentinel | components/messages/message-wall.tsx:168-191 | an empty structured result still counts as found: no fallback and no cards |
| MessageWall.SentinelFallback | components/messages/message-wall.tsx:187-191 | without a hits part, the hits are those extracted from the text, cut to the limit |
| MessageWall.DisplayedText | components/messages/message-wall.tsx:177-194 | for every message an assistant's text has its sentinels stripped and other roles' text is shown as is; with a `parts` array the details and reviews are the last truthy results of their tools, and without one both are `null` |
| MessageWall.PayloadsAndText | components/messages/message-wall.tsx:177-179 | the details are the result of the truthy details part after which no other one follows |
| MessageWall.ReviewsFromLastPart | components/messages/message-wall.tsx:181-182 | the reviews are the result of the truthy reviews part after which no other one follows |
| MessageWall.NoPayloadPartGivesNull | components/messages/message-wall.tsx:177-184 | without a truthy part of a tool its payload stays `null` |
| MessageWall.CardPrice | components/messages/message-wall.tsx:97-100 | a card always shows some price text: the value is always truthy |
| MessageWall.CardPriceRange | components/messages/message-wall.tsx:97-99 | two bounds give "₹lo - ₹hi" |
| MessageWall.CardPriceMissingBound | components/messages/message-wall.tsx:97-99 | a missing upper bound reads "NA" |
| MessageWall.CardPriceFallback | components/messages/message-wall.tsx:97-100 | without truthy bounds the card shows `raw.price_range` when truthy, else "Price not provided" |
| MessageWall.CardImage | components/messages/message-wall.tsx:96 | the image is the first entry of a non-empty `images` array, else `null` |
| MessageWall.ReviewsRequest | components/messages/message-wall.tsx:141-146 | the Reviews payload's `vendor_id` is `id` when present, else `raw.id`; its `vendor_name` is the name |
| MessageWall.CardImageExamples | components/messages/message-wall.tsx:96 | a non-empty `images` array shows its first entry; an empty array or a non-array shows `null` |
| MessageWall.ReviewsIdFallback | components/messages/message-wall.tsx:143 | a `null` id falls back to `raw.id`, a falsy but present id such as 0 is kept, and with neither the id is `undefined` |
| VectorSearch.VendorRecord | app/api/chat/tools/search-vector-database.ts:49-57 | projecting a match throws exactly when it is nullish; a record has the seven keys, copies `id` and `score`, and copies each truthy metadata text field or gives "" |
| VectorSearch.ProjectMatches | app/api/chat/tools/search-vector-database.ts:49-57 | one record per match, in order; throws exactly when an entry is nullish |
| VectorSearch.Project | app/api/chat/tools/search-vector-database.ts:48-57 | a nullish response throws; missing `matches` gives no vendors; an array gives its projection; every vendor is an object |
| VectorSearch.FoundVendors | app/api/chat/tools/search-vector-database.ts:32-63 | every vendor is an object, and a backend failure gives none |
| VectorSearch.Execute | app/api/chat/tools/search-vector-database.ts:29-64 | the answer is always an object with only a `vendors` array, holding the found vendors |
| VectorSearch.OnlyOneQueryMatters | app/api/chat/tools/search-vector-database.ts:33-46 | only the backend's answer to `(query, topK ?? 5)` matters, and a missing topK means 5 |
| VectorSearch.OneRecordPerMatch | app/api/chat/tools/search-vector-database.ts:48-59 | matches without a nullish entry give one record per match, in order, each copying its match's `id` and `score` |
| VectorSearch.MissingMatchesGiveNone | app/api/chat/tools/search-vector-database.ts:48-59 | an answer without `matches` gives `{ vendors: [] }` |
| VectorSearch.NullMatchEmptiesResult | app/api/chat/tools/search-vector-database.ts:49-63 | a `null` match makes the projection throw, which gives `{ vendors: [] }` |
| ChatRoute.StreamWriter.Write | app/api/chat/route.ts:113 | writing appends exactly the one event |
| ChatRoute.DenialText | app/api/chat/route.ts:118-120 | the denial is the service's message when non-empty, else the default text |
| ChatRoute.SearchResult | app/api/chat/route.ts:152-168 | no `execute` gives `undefined`; a resolving `execute` gives its value; the result throws exactly when both calls fail |
| ChatRoute.VendorOutcome | app/api/chat/route.ts:146-205 | vendor mode fails exactly when the search or the normaliser throws; otherwise it gives the normalised list for the trimmed text |
| ChatRoute.WriteDenial | app/api/chat/route.ts:110-125 | the denial stream appends exactly the five framed events carrying the message |
| ChatRoute.WriteFallback | app/api/chat/route.ts:290-304 | the fallback stream appends exactly the five framed events carrying the fallback text |
| ChatRoute.CallSearch | app/api/chat/route.ts:152-168 | the nested `try`s compute the specified search result |
| ChatRoute.ComposeVendorDelta | app/api/chat/route.ts:146-246 | the vendor `try` with its `catch` computes the specified delta |
| ChatRoute.WriteVendorReply | app/api/chat/route.ts:140-260 | the vendor stream appends start, text-start, the delta, text-end and finish |
| ChatRoute.Handle | app/api/chat/route.ts:69-308 | the handler answers 400 exactly for a rejected body, and fails exactly when reading the body or the latest user text throws |
| ChatRoute.Reply | app/api/chat/route.ts:102-307 | a reply is never a 400 or a failure; it is the model's stream exactly when the text is not denied, is not a vendor query and the model call succeeds; `VendorReplyDelta` and `ModelFailureFallsBack` state the other two outcomes |
| ChatRoute.VendorReplyDelta | app/api/chat/route.ts:136-263 | a vendor query that passes moderation gets the one vendor stream whose delta is the vendor-mode text, whatever the model would do |
| ChatRoute.ModelFailureFallsBack | app/api/chat/route.ts:266-306 | text that passes moderation and is not a vendor query gets exactly the five fallback events when the model call throws |
| ChatRoute.Post | app/api/chat/route.ts:69-308 | the handler run step by step gives the specified response |
| ChatRoute.AnswerText | app/api/chat/route.ts:102-307 | moderation, vendor mode and normal mode give the specified reply to the text |
| ChatRoute.RejectedBodies | app/api/chat/route.ts:72-97 | unparseable bodies, and bodies with neither `messages` nor a string `message`, get 400 whatever the collaborators do |
| ChatRoute.EveryStreamFramed | app/api/chat/route.ts:110-307 | every stream the handler writes is framed under the denial, vendor or fallback id |
| ChatRoute.ReplyFramed | app/api/chat/route.ts:102-307 | every stream a reply writes is framed under its own id |
| ChatRoute.SingleTextFramed | app/api/chat/route.ts:113-123 | a single-text stream is framed |
| ChatRoute.EmptyTextSkipsModeration | app/api/chat/route.ts:104 | empty text never reaches moderation or vendor mode: the model answers, or the fallback does |
| ChatRoute.ModerationFailureIgnored | app/api/chat/route.ts:108-133 | a moderation failure, or no result, acts like "not flagged" |
| ChatRoute.FlaggedTextDenied | app/api/chat/route.ts:104-127 | flagged non-empty text gets exactly the five denial events, whatever the search and the model would do |
| ChatRoute.VendorModeIffVendorQuery | app/api/chat/route.ts:136-137 | past moderation, the vendor stream is written exactly for vendor queries |
| ChatRoute.ReplyVendorIff | app/api/chat/route.ts:136-263 | once moderation lets the text through, a reply is the vendor stream exactly for a vendor query |
| ChatRoute.OtherIdNotFramed | app/api/chat/route.ts:142-144 | a single-text stream is framed under its own id only |
| ChatRoute.ListedOutcome | app/api/chat/route.ts:207-238 | a search and a normalisation that do not throw yield the listing (or note) of the normalised vendors for the trimmed query |
| ChatRoute.ListingIsNotApology | app/api/chat/route.ts:207-245 | neither the listing nor the note equals the apology |
| ChatRoute.ApologyOnlyOnFailure | app/api/chat/route.ts:240-246 | the apology is written exactly when both search calls failed or the normaliser threw |
| ChatRoute.MissingExecuteGivesNote | app/api/chat/route.ts:155-212 | without `execute`, the result is `undefined` and the note is written |
| ChatRoute.DirectCallAfterFailure | app/api/chat/route.ts:159-163 | after `execute` fails, the delta is what a tool whose `execute` is the direct call would give |
| ChatRoute.RetriedSearch | app/api/chat/route.ts:159-168 | after `execute` fails, the result is that of the direct call with the same query and topK |
| ChatRoute.SameSearchSameDelta | app/api/chat/route.ts:146-246 | the delta depends on the tool only through the raw search result |
| ChatRoute.ProjectToolResolves | app/api/chat/route.ts:155-158 | the project's own tool always answers through `execute` with `{ vendors }` |
| ChatRoute.SearchResultNormalised | app/api/chat/route.ts:181-182 | a `{ vendors }` result of object records normalises to exactly those records |
| ChatRoute.ProjectToolListsItsRecords | app/api/chat/route.ts:146-238 | with the project's own tool, vendor mode never apologises: it lists the tool's records for the trimmed text |
| ChatRoute.RecordsListed | app/api/chat/route.ts:181-238 | a search answering `{ vendors }` with object records lists exactly those records |

## Left out

- Numbers are integers. Floating-point scores and prices are not modelled.
- `toLowerCase` is modelled on ASCII letters only. Full Unicode case mapping is not modelled.
- `String(v)` of an object is "[object Object]". Custom `toString` methods are not modelled.
- The moderation service, the language model stream, the embedding request and the index query are opaque. They appear as parameters or outcomes (`ModerationOutcome`, `ModelOutcome`, `IndexOutcome`). The normal-mode stream is the single value `ModelReply`.
- `JSON.parse` in the message wall is a parameter. A payload it rejects is `None`, which models the caught exception.
- Logging is not modelled. This covers every `console` call, including the raw-result `JSON.stringify` and its `try` (route.ts lines 170-176).
- `maxDuration`, the zod parameter schema and its `.default(5)` are not modelled. The default topK is modelled only through `topK ?? 5`.
- Writer exceptions are not modelled, so the `try`s around `text-end` and `finish` in the `finally` add nothing.
- Rendering is not modelled: JSX, styling, the card's name/rating/description fields and `key`s. The model stops at the view values: text, hits, details, reviews, price, image and the Reviews payload.
- The `window` events and `React.useEffect` dispatch are not modelled. The model computes the payloads they would carry.
- MessageWall.MessageToText: assumes the declared message and part types (a present message whose `parts` holds no `null`). The `if (!m)` guard and a `null` part are not modelled.
- Cards: a `null` entry in a hits array is not modelled (`CardPrice`, `CardImage` and `ReviewsRequest` require a non-nullish vendor).
- A `maxCards` that is not an integer is not modelled.
- The session and vendor routes, the layout, and the other library files are not part of this model.

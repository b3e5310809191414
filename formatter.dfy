/** The vendor-mode text of the chat handler: a numbered listing of at most
    eight normalised vendors, or a note that nothing was found. */
module VendorFormatter {
  import opened Wrappers
  import opened JsText
  import opened JsValue

  /** `vendors.slice(0, 8)` */
  const MaxListed := 8

  const NameKeys: seq<string> := ["name", "title", "vendor_name", "provider"]
  const CategoryKeys: seq<string> := ["category", "vendor_type", "sub_category", "type", "tag"]
  const CityKeys: seq<string> := ["city", "location", "town"]

  const EnDash := "\U{2013}"

  /** `v.k0 ?? v.k1 ?? ... ?? fallback` */
  function FirstPresent(v: Json, keys: seq<string>, fallback: Json): (r: Json)
    ensures (forall i :: 0 <= i < |keys| ==> Nullish(Get(v, keys[i]))) ==> r == fallback
  {
    if keys == [] then fallback
    else Coalesce(Get(v, keys[0]), FirstPresent(v, keys[1..], fallback))
  }

  /** The first key holding a non-nullish value gives the result. */
  lemma {:induction false} FirstPresentPicks(v: Json, keys: seq<string>, fallback: Json, i: nat)
    requires i < |keys| && !Nullish(Get(v, keys[i]))
    requires forall j :: 0 <= j < i ==> Nullish(Get(v, keys[j]))
    ensures FirstPresent(v, keys, fallback) == Get(v, keys[i])
  {
    if i > 0 {
      FirstPresentPicks(v, keys[1..], fallback, i - 1);
    }
  }

  /** With every key absent, the fallback string is shown. */
  lemma FallbackShown(v: Json, keys: seq<string>, fallback: string)
    requires forall k :: Get(v, k) == Undefined
    ensures ToStr(FirstPresent(v, keys, Str(fallback))) == fallback
  {
    assert forall i :: 0 <= i < |keys| ==> Nullish(Get(v, keys[i]));
  }

  function DisplayName(v: Json): string
  {
    ToStr(FirstPresent(v, NameKeys, Str("Unnamed vendor")))
  }

  function DisplayCategory(v: Json): string
  {
    ToStr(FirstPresent(v, CategoryKeys, Str("Vendor")))
  }

  function DisplayCity(v: Json): string
  {
    ToStr(FirstPresent(v, CityKeys, Str("Mumbai")))
  }

  /** `s.replace(/(^, )|(^, $)/, "")`: the first alternative matches whenever
      the second could, so this drops a leading ", " and nothing else. */
  function ReplaceLeadingCommaSpace(s: string): string
  {
    if |s| >= 2 && s[..2] == ", " then s[2..] else s
  }

  /** The price part of a listing line. */
  function PriceSuffix(v: Json): string
  {
    var range := Get(v, "price_range");
    var lo, hi := Get(v, "min_price"), Get(v, "max_price");
    if Truthy(range) then ", approx " + ToStr(range)
    else if Truthy(lo) || Truthy(hi) then
      var mn := Coalesce(lo, Str(""));
      var mx := Coalesce(hi, Str(""));
      ReplaceLeadingCommaSpace(", approx " + ToStr(mn) + (if Truthy(mn) && Truthy(mx) then "-" else "") + ToStr(mx))
    else ""
  }

  /** `v.phone ?? v.contact ?? (v.metadata && v.metadata.phone) ?? ""` */
  function ContactValue(v: Json): Json
  {
    var meta := Get(v, "metadata");
    Coalesce(Coalesce(Coalesce(Get(v, "phone"), Get(v, "contact")), And(meta, Get(meta, "phone"))), Str(""))
  }

  /** The contact part: prefixed with ", contact: " only when truthy; a falsy
      value is still interpolated as it is. */
  function ContactSuffix(v: Json): string
  {
    var c := ContactValue(v);
    if Truthy(c) then ", contact: " + ToStr(c) else ToStr(c)
  }

  /** `${idx + 1}. ${name} – ${category}, ${city}${price}${contact}` with
      `n` standing for `idx + 1`. */
  function VendorLine(n: nat, v: Json): string
  {
    NatToString(n) + ". " + LineBody(v)
  }

  /** The line after its number. */
  function LineBody(v: Json): string
  {
    DisplayName(v) + " " + EnDash + " " + DisplayCategory(v) + ", " + DisplayCity(v) + PriceSuffix(v) + ContactSuffix(v)
  }

  /** `vs.map((v, idx) => line(first + idx, v))` */
  function MapNumbered(vs: seq<Json>, first: nat, line: (nat, Json) -> string): (r: seq<string>)
    ensures |r| == |vs|
    ensures forall i :: 0 <= i < |vs| ==> r[i] == line(first + i, vs[i])
  {
    if vs == [] then [] else [line(first, vs[0])] + MapNumbered(vs[1..], first + 1, line)
  }

  /** The listing lines, numbered from `first`. */
  function NumberedLines(vs: seq<Json>, first: nat): seq<string>
  {
    MapNumbered(vs, first, VendorLine)
  }

  /** The note's text before and after the quoted query. */
  const NoteBefore := "I couldn" + "\U{2019}" + "t find any vendors in my database for that request. I searched for: \""
  const NoteAfter := "\".\n\nYou can: 1) specify a neighbourhood (e.g., \"Powai\"), 2) give a budget, "
                     + "3) allow me to search the web for vendor options, or 4) add vendors to the database."

  function NoVendorsMessage(query: string): string
  {
    NoteBefore + query + NoteAfter
  }

  function ListingHeader(query: string): string
  {
    "Here are some vendors I found for \"" + query + "\":\n\n"
  }

  /** The single text delta of a successful vendor search. */
  function FormatVendorList(vendors: seq<Json>, query: string): string
  {
    if |vendors| == 0 then NoVendorsMessage(query)
    else ListingHeader(query) + JoinWith("\n", NumberedLines(SliceTo(vendors, MaxListed), 1))
  }

  /** The note opens with "I", the listing with "H". */
  lemma OpeningLetter(vendors: seq<Json>, query: string)
    ensures |FormatVendorList(vendors, query)| > 0
    ensures FormatVendorList(vendors, query)[0] == if |vendors| == 0 then 'I' else 'H'
  {
    if |vendors| == 0 {
      assert NoteBefore[0] == 'I';
      assert NoVendorsMessage(query)[0] == NoteBefore[0];
    } else {
      HeaderOpensListing(query, JoinWith("\n", NumberedLines(SliceTo(vendors, MaxListed), 1)));
    }
  }

  lemma HeaderOpensListing(query: string, lines: string)
    ensures |ListingHeader(query) + lines| > 0 && (ListingHeader(query) + lines)[0] == 'H'
  {
    assert ListingHeader(query)[0] == 'H';
  }

  /** An empty list gives the note, which quotes the query verbatim. */
  lemma EmptyListEchoesQuery(query: string)
    ensures Contains(FormatVendorList([], query), query)
    ensures FormatVendorList([], query) == NoVendorsMessage(query)
  {
    ContainsInfix(NoteBefore, query, NoteAfter);
  }

  /** A non-empty list gives the header echoing the query and then
      `min(n, 8)` lines, numbered from 1 in input order. */
  lemma ListingLines(vendors: seq<Json>, query: string)
    requires |vendors| > 0
    ensures var lines := NumberedLines(SliceTo(vendors, MaxListed), 1);
            FormatVendorList(vendors, query) == ListingHeader(query) + JoinWith("\n", lines)
            && |lines| == (if |vendors| < MaxListed then |vendors| else MaxListed)
            && forall i :: 0 <= i < |lines| ==> lines[i] == VendorLine(i + 1, vendors[i])
  {
  }

  /** Every line opens with its number and ". ". */
  lemma LineStartsWithNumber(n: nat, v: Json)
    ensures var p := NatToString(n) + ". "; |p| <= |VendorLine(n, v)| && VendorLine(n, v)[..|p|] == p
  {
    PrefixOfConcat(NatToString(n) + ". ", LineBody(v));
  }

  /** The line body from its five parts, with an empty contact part. */
  lemma BodyWithoutContact(v: Json, name: string, category: string, city: string, price: string)
    requires DisplayName(v) == name && DisplayCategory(v) == category && DisplayCity(v) == city
    requires PriceSuffix(v) == price && ContactSuffix(v) == ""
    ensures LineBody(v) == name + " " + EnDash + " " + category + ", " + city + price
  {
  }

  /** A record with none of the known fields shows the literal defaults. */
  lemma DefaultsLine(n: nat)
    ensures VendorLine(n, Obj(map[])) == NatToString(n) + ". " + ("Unnamed vendor" + " " + EnDash + " " + "Vendor" + ", " + "Mumbai")
  {
    var v := Obj(map[]);
    AbsentFieldsGiveDefaults(v);
    assert PriceSuffix(v) == "";
    assert ContactSuffix(v) == "";
    BodyWithoutContact(v, "Unnamed vendor", "Vendor", "Mumbai", "");
  }

  /** With none of the name, category and city keys present, each falls
      back to its literal. */
  lemma AbsentFieldsGiveDefaults(v: Json)
    requires forall k :: Get(v, k) == Undefined
    ensures DisplayName(v) == "Unnamed vendor"
    ensures DisplayCategory(v) == "Vendor"
    ensures DisplayCity(v) == "Mumbai"
  {
    FallbackShown(v, NameKeys, "Unnamed vendor");
    FallbackShown(v, CategoryKeys, "Vendor");
    FallbackShown(v, CityKeys, "Mumbai");
  }

  /** The price part is empty exactly when no price field is truthy. */
  lemma NoPricePart(v: Json)
    ensures PriceSuffix(v) == "" <==>
      !Truthy(Get(v, "price_range")) && !Truthy(Get(v, "min_price")) && !Truthy(Get(v, "max_price"))
  {
  }

  /** A truthy `price_range` wins and keeps its ", approx " prefix. */
  lemma PriceRangeSuffix(v: Json)
    requires Truthy(Get(v, "price_range"))
    ensures PriceSuffix(v) == ", approx " + ToStr(Get(v, "price_range"))
  {
  }

  /** Without a price range, the min/max form loses its leading ", " to the
      `.replace`, so it is glued to the city; the dash appears only when both
      bounds are truthy. */
  lemma MinMaxPriceSuffix(v: Json)
    requires !Truthy(Get(v, "price_range"))
    requires Truthy(Get(v, "min_price")) || Truthy(Get(v, "max_price"))
    ensures var mn := Coalesce(Get(v, "min_price"), Str(""));
            var mx := Coalesce(Get(v, "max_price"), Str(""));
            PriceSuffix(v) == "approx " + ToStr(mn) + (if Truthy(mn) && Truthy(mx) then "-" else "") + ToStr(mx)
  {
    var mn := Coalesce(Get(v, "min_price"), Str(""));
    var mx := Coalesce(Get(v, "max_price"), Str(""));
    var s := ", approx " + ToStr(mn) + (if Truthy(mn) && Truthy(mx) then "-" else "") + ToStr(mx);
    assert s[..2] == ", ";
    assert s[2..] == "approx " + ToStr(mn) + (if Truthy(mn) && Truthy(mx) then "-" else "") + ToStr(mx);
  }

  /** Two truthy bounds and no range give "approx lo-hi", without the
      leading ", ". */
  lemma BothBoundsSuffix(lo: nat, hi: nat)
    requires lo > 0 && hi > 0
    ensures PriceSuffix(Obj(map["min_price" := Num(lo), "max_price" := Num(hi)]))
            == "approx " + NatToString(lo) + "-" + NatToString(hi)
  {
    var v := Obj(map["min_price" := Num(lo), "max_price" := Num(hi)]);
    assert Get(v, "price_range") == Undefined;
    assert Get(v, "min_price") == Num(lo) && Get(v, "max_price") == Num(hi);
    MinMaxPriceSuffix(v);
  }

  /** The city and the min/max price run together: a record holding only the
      bounds 100 and 200 is listed as
      "1. Unnamed vendor – Vendor, Mumbaiapprox 100-200". */
  lemma MinMaxPriceGluedToCity(n: nat, lo: nat, hi: nat)
    requires lo > 0 && hi > 0
    ensures VendorLine(n, Obj(map["min_price" := Num(lo), "max_price" := Num(hi)]))
            == NatToString(n) + ". " + ("Unnamed vendor" + " " + EnDash + " " + "Vendor" + ", " + "Mumbai"
                                        + ("approx " + NatToString(lo) + "-" + NatToString(hi)))
  {
    var v := Obj(map["min_price" := Num(lo), "max_price" := Num(hi)]);
    BothBoundsSuffix(lo, hi);
    assert v.fields.Keys == {"min_price", "max_price"};
    PriceFieldsOnlyGiveDefaults(v);
    BodyWithoutContact(v, "Unnamed vendor", "Vendor", "Mumbai", "approx " + NatToString(lo) + "-" + NatToString(hi));
  }

  /** A record holding only price fields shows the name, category, city and
      contact defaults. */
  lemma PriceFieldsOnlyGiveDefaults(v: Json)
    requires v.Obj? && v.fields.Keys <= {"price_range", "min_price", "max_price"}
    ensures DisplayName(v) == "Unnamed vendor"
    ensures DisplayCategory(v) == "Vendor"
    ensures DisplayCity(v) == "Mumbai"
    ensures ContactSuffix(v) == ""
  {
    forall i | 0 <= i < |NameKeys| ensures Nullish(Get(v, NameKeys[i])) {
      assert NameKeys[i] !in v.fields;
    }
    forall i | 0 <= i < |CategoryKeys| ensures Nullish(Get(v, CategoryKeys[i])) {
      assert CategoryKeys[i] !in v.fields;
    }
    forall i | 0 <= i < |CityKeys| ensures Nullish(Get(v, CityKeys[i])) {
      assert CityKeys[i] !in v.fields;
    }
    assert "phone" !in v.fields && "contact" !in v.fields && "metadata" !in v.fields;
  }

  /** A zero lower bound is present but falsy: no dash, "approx 0500". */
  lemma ZeroMinPrice()
    ensures PriceSuffix(Obj(map["min_price" := Num(0), "max_price" := Num(500)])) == "approx 0500"
  {
    var v := Obj(map["min_price" := Num(0), "max_price" := Num(500)]);
    assert Get(v, "price_range") == Undefined;
    assert Get(v, "min_price") == Num(0) && Get(v, "max_price") == Num(500);
    MinMaxPriceSuffix(v);
    assert NatToString(0) == "0" && NatToString(500) == "500";
  }

  /** A truthy phone, contact or metadata phone is shown after
      ", contact: ", in that order of preference. */
  lemma ContactSuffixTruthy(v: Json)
    requires Truthy(ContactValue(v))
    ensures ContactSuffix(v) == ", contact: " + ToStr(ContactValue(v))
    ensures !Nullish(Get(v, "phone")) ==> ContactValue(v) == Get(v, "phone")
    ensures Nullish(Get(v, "phone")) && !Nullish(Get(v, "contact")) ==> ContactValue(v) == Get(v, "contact")
    ensures Nullish(Get(v, "phone")) && Nullish(Get(v, "contact")) ==>
      Truthy(Get(v, "metadata")) && ContactValue(v) == Get(Get(v, "metadata"), "phone")
  {
  }

  /** A falsy but non-nullish `metadata` (here 0) leaks into the line:
      the contact part is "0", without the ", contact: " prefix. */
  lemma FalsyMetadataLeaks()
    ensures ContactSuffix(Obj(map["metadata" := Num(0)])) == "0"
  {
    var v := Obj(map["metadata" := Num(0)]);
    assert Get(v, "phone") == Undefined && Get(v, "contact") == Undefined;
    assert Get(v, "metadata") == Num(0);
    assert ContactValue(v) == Num(0);
    assert NatToString(0) == "0";
  }
}

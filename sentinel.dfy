/** The sentinel blocks an assistant reply may carry: machine-readable JSON
    wrapped in start and end markers. The message wall strips them from the
    text it shows and reads vendor hits out of the first hits block. The
    regular expressions of the source are modelled by explicit marker
    search: a block runs from a start marker to the NEAREST following end
    marker of the same pair. */
module Sentinel {
  import opened Wrappers
  import opened JsText
  import opened JsValue

  const HitsStart := "__VENDOR_HITS_JSON__"
  const HitsEnd := "__END_VENDOR_HITS_JSON__"
  const DetailsStart := "__VENDOR_DETAILS_JSON__"
  const DetailsEnd := "__END_VENDOR_DETAILS_JSON__"
  const ReviewsStart := "__VENDOR_REVIEWS_JSON__"
  const ReviewsEnd := "__END_VENDOR_REVIEWS_JSON__"
  /** The guide pair has three underscores on its inner side. */
  const GuideStart := "__GUIDE_JSON___"
  const GuideEnd := "___END_GUIDE_JSON___"

  /** The four alternatives of the stripping expression, in the order it
      tries them. */
  const Starts: seq<string> := [HitsStart, DetailsStart, ReviewsStart, GuideStart]
  const Ends: seq<string> := [HitsEnd, DetailsEnd, ReviewsEnd, GuideEnd]

  /** A block of the pair `start`/`end` at the very front of `s`: its
      length, start marker to nearest end marker inclusive. */
  function BlockLength(s: string, start: string, end: string): (r: Option<nat>)
    ensures r.Some? ==> |start| + |end| <= r.value <= |s|
    ensures r.Some? <==> |start| <= |s| && s[..|start|] == start && IndexFrom(s, end, |start|).Some?
  {
    if |start| <= |s| && s[..|start|] == start then
      var e := IndexFrom(s, end, |start|);
      if e.Some? then Some(e.value + |end|) else None
    else None
  }

  /** Alternative `j` of the stripping expression at the front of `s`. */
  function Alternative(s: string, j: nat): Option<nat>
    requires j < |Starts|
  {
    BlockLength(s, Starts[j], Ends[j])
  }

  /** The first alternative that matches at the front of `s`. */
  function BlockAt(s: string): (r: Option<nat>)
    ensures r.Some? ==> 0 < r.value <= |s|
    ensures r.None? <==> forall j :: 0 <= j < |Starts| ==> Alternative(s, j).None?
  {
    if Alternative(s, 0).Some? then Alternative(s, 0)
    else if Alternative(s, 1).Some? then Alternative(s, 1)
    else if Alternative(s, 2).Some? then Alternative(s, 2)
    else Alternative(s, 3)
  }

  /** `text.replace(sentinelRegex, "")` with the global flag: scanning left
      to right, a block starting here is dropped and the scan resumes after
      it; otherwise one character is kept. */
  function RemoveBlocks(s: string): (r: string)
    ensures |r| <= |s|
    decreases |s|
  {
    if s == [] then []
    else
      var b := BlockAt(s);
      if b.Some? then RemoveBlocks(s[b.value..]) else [s[0]] + RemoveBlocks(s[1..])
  }

  /** `stripSentinelFromText` */
  function StripSentinels(text: string): (r: string)
    ensures |r| <= |text|
    ensures r == [] || (!IsJsWhitespace(r[0]) && !IsJsWhitespace(r[|r| - 1]))
  {
    if text == "" then ""
    else
      TrimEndsNotWhitespace(RemoveBlocks(text));
      Trim(RemoveBlocks(text))
  }

  /** The text between the first `start` marker and the nearest `end`
      marker after it, as the capture group of a lazy match. A later start
      marker cannot give an earlier match: an end marker after it also
      follows the first one. */
  function Between(text: string, start: string, end: string): (r: Option<string>)
    ensures r.None? <==> IndexOf(text, start).None?
                         || IndexFrom(text, end, IndexOf(text, start).value + |start|).None?
  {
    var i := IndexOf(text, start);
    if i.None? then None
    else
      var from := i.value + |start|;
      var e := IndexFrom(text, end, from);
      if e.None? then None else Some(text[from..e.value])
  }

  /** The capture group of the hits extraction expression. */
  function HitsPayload(text: string): Option<string>
  {
    Between(text, HitsStart, HitsEnd)
  }

  /** What a parsed payload yields: an array itself, or the array under
      `result` of a truthy value; anything else gives nothing. */
  function HitsOfParsed(parsed: Json): (r: Option<seq<Json>>)
    ensures parsed.Arr? ==> r == Some(parsed.items)
    ensures !parsed.Arr? && Get(parsed, "result").Arr? ==> r == Some(Get(parsed, "result").items)
    ensures r.None? <==> !parsed.Arr? && !Get(parsed, "result").Arr?
  {
    if parsed.Arr? then Some(parsed.items)
    else if Truthy(parsed) && Get(parsed, "result").Arr? then Some(Get(parsed, "result").items)
    else None
  }

  /** `extractVendorHitsFromText`. `parse` stands for `JSON.parse`, with
      `None` for a payload it rejects (the exception is caught). */
  function ExtractVendorHits(text: string, parse: string -> Option<Json>): (r: Option<seq<Json>>)
    ensures text == "" ==> r.None?
    ensures HitsPayload(text).None? ==> r.None?
    ensures r.Some? ==> parse(HitsPayload(text).value).Some?
                        && r == HitsOfParsed(parse(HitsPayload(text).value).value)
    ensures text != "" && HitsPayload(text).Some? && parse(HitsPayload(text).value).Some? ==>
      r == HitsOfParsed(parse(HitsPayload(text).value).value)
  {
    if text == "" then None
    else
      var payload := HitsPayload(text);
      if payload.None? then None
      else
        var parsed := parse(payload.value);
        if parsed.None? then None else HitsOfParsed(parsed.value)
  }

  predicate NoUnderscore(s: string)
  {
    forall i :: 0 <= i < |s| ==> s[i] != '_'
  }

  /** The payload holds no end marker of its own, not even one finished by
      the marker that closes it. */
  predicate ClosedBy(payload: string, end: string)
  {
    IndexOf(payload + end, end) == Some(|payload|)
  }

  /** The block's own start marker is the first one in `a + start`: `a`
      holds none, not even one finished by the block's marker. */
  predicate OpenedAfter(a: string, start: string)
  {
    IndexOf(a + start, start) == Some(|a|)
  }

  /** Every start marker is non-empty and opens with an underscore. */
  lemma MarkersOpenWithUnderscore(j: nat)
    requires j < |Starts|
    ensures |Starts[j]| > 0 && Starts[j][0] == '_'
  {
  }

  /** A start marker that does not occur opens no block. */
  lemma AbsentMarkerNoBlock(s: string, start: string, end: string)
    requires !Contains(s, start)
    ensures BlockLength(s, start, end).None?
  {
    if |start| <= |s| {
      assert s[0..|start|] == s[..|start|];
      assert !OccursAt(start, s, 0);
    }
  }

  /** Text in which no start marker occurs comes out of the scan unchanged. */
  lemma {:induction false} NoMarkerKept(s: string)
    requires forall j :: 0 <= j < |Starts| ==> !Contains(s, Starts[j])
    ensures RemoveBlocks(s) == s
    decreases |s|
  {
    if s != [] {
      forall j | 0 <= j < |Starts|
        ensures Alternative(s, j).None? && !Contains(s[1..], Starts[j])
      {
        AbsentMarkerNoBlock(s, Starts[j], Ends[j]);
        ContainsTail(s, Starts[j]);
      }
      KeepsFirst(s);
      NoMarkerKept(s[1..]);
    }
  }

  /** Empty text gives "", and text without any start marker is only
      trimmed. */
  lemma NoMarkerOnlyTrims(s: string)
    requires forall j :: 0 <= j < |Starts| ==> !Contains(s, Starts[j])
    ensures StripSentinels("") == ""
    ensures StripSentinels(s) == Trim(s)
  {
    NoMarkerKept(s);
  }

  /** A marker opening with an underscore opens no block at a character
      that is not one. */
  lemma OtherCharNoBlock(s: string, start: string, end: string)
    requires s != [] && s[0] != '_' && start != [] && start[0] == '_'
    ensures BlockLength(s, start, end).None?
  {
    if |start| <= |s| {
      assert s[..|start|][0] == s[0];
    }
  }

  /** No block begins at a character that is not an underscore. */
  lemma NoBlockAtOtherChar(s: string)
    requires s != [] && s[0] != '_'
    ensures BlockAt(s).None?
  {
    forall j | 0 <= j < |Starts|
      ensures Alternative(s, j).None?
    {
      MarkersOpenWithUnderscore(j);
      OtherCharNoBlock(s, Starts[j], Ends[j]);
    }
  }

  /** Where no block starts, the scan keeps the first character. */
  lemma KeepsFirst(s: string)
    requires s != [] && BlockAt(s).None?
    ensures RemoveBlocks(s) == [s[0]] + RemoveBlocks(s[1..])
  {
  }

  /** Where a block starts, the scan resumes right after it. */
  lemma SkipsBlock(s: string)
    requires BlockAt(s).Some?
    ensures RemoveBlocks(s) == RemoveBlocks(s[BlockAt(s).value..])
  {
  }

  /** Text without underscores in front of the rest is kept as it is. */
  lemma {:induction false} UnderscoreFreeKept(a: string, b: string)
    requires NoUnderscore(a)
    ensures RemoveBlocks(a + b) == a + RemoveBlocks(b)
  {
    if a == [] {
      assert a + b == b;
    } else {
      UnderscoreFreeKept(a[1..], b);
      KeepsPlainChar(a[0], a[1..] + b);
      ConsAssoc(a, b);
      ConsAssoc(a, RemoveBlocks(b));
    }
  }

  /** A character other than an underscore is kept. */
  lemma KeepsPlainChar(c: char, t: string)
    requires c != '_'
    ensures RemoveBlocks([c] + t) == [c] + RemoveBlocks(t)
  {
    var s := [c] + t;
    NoBlockAtOtherChar(s);
    KeepsFirst(s);
    assert s[1..] == t;
  }

  /** The end marker closing `payload` is the nearest one after the start
      marker, even when more text follows. */
  lemma ClosingMarkerFound(start: string, payload: string, end: string, rest: string)
    requires ClosedBy(payload, end)
    ensures IndexFrom(start + payload + end + rest, end, |start|) == Some(|start| + |payload|)
  {
    var t := payload + end + rest;
    assert IndexFrom(t, end, 0) == Some(|payload|) by {
      assert IndexFrom(payload + end, end, 0) == Some(|payload|);
      IndexFromExtend(payload + end, rest, end, 0);
    }
    assert IndexFrom(start + t, end, |start|) == Some(|start| + |payload|) by {
      IndexFromShift(start, t, end, 0);
    }
    RegroupTail(start, payload, end, rest);
  }

  /** A whole block at the front has the length of its three pieces. */
  lemma FrontBlock(start: string, payload: string, end: string, rest: string)
    requires ClosedBy(payload, end)
    ensures BlockLength(start + payload + end + rest, start, end) == Some(|start| + |payload| + |end|)
  {
    RegroupTail(start, payload, end, rest);
    PrefixOfConcat(start, payload + end + rest);
    ClosingMarkerFound(start, payload, end, rest);
  }

  /** The four start markers differ early: none is a prefix of text that
      starts with another. */
  lemma StartsDistinct(s: string, i: nat, j: nat)
    requires i < |Starts| && j < |Starts| && i != j
    requires |Starts[j]| <= |s| && s[..|Starts[j]|] == Starts[j]
    ensures !(|Starts[i]| <= |s| && s[..|Starts[i]|] == Starts[i])
  {
    var k := if i == 3 || j == 3 then 2 else 9;
    assert s[k] == Starts[j][k];
    assert Starts[i][k] != Starts[j][k];
  }

  /** When alternative `j` matches, no other one does, so it is the block. */
  lemma OnlyAlternativeMatches(s: string, j: nat)
    requires j < |Starts| && Alternative(s, j).Some?
    ensures BlockAt(s) == Alternative(s, j)
  {
    forall i | 0 <= i < |Starts| && i != j
      ensures Alternative(s, i).None?
    {
      StartsDistinct(s, i, j);
    }
  }

  /** One whole block at the front is dropped. */
  lemma BlockDropped(j: nat, payload: string, rest: string)
    requires j < |Starts| && ClosedBy(payload, Ends[j])
    ensures RemoveBlocks(Starts[j] + payload + Ends[j] + rest) == RemoveBlocks(rest)
  {
    var s := Starts[j] + payload + Ends[j] + rest;
    FrontBlock(Starts[j], payload, Ends[j], rest);
    OnlyAlternativeMatches(s, j);
    SkipsBlock(s);
    SuffixOfConcat(Starts[j] + payload + Ends[j], rest);
  }

  /** A block after underscore-free text is removed and the text around it
      is kept, then trimmed. */
  lemma StripOneBlock(a: string, j: nat, payload: string, b: string)
    requires NoUnderscore(a) && j < |Starts| && ClosedBy(payload, Ends[j])
    ensures StripSentinels(a + Starts[j] + payload + Ends[j] + b) == Trim(a + RemoveBlocks(b))
  {
    BlockDropped(j, payload, b);
    RegroupFive(a, Starts[j], payload, Ends[j], b);
    StripAfterPlainText(a, Starts[j] + payload + Ends[j] + b, b);
  }

  /** Underscore-free text followed by text that strips like `b` strips
      like itself followed by `b`. */
  lemma StripAfterPlainText(a: string, block: string, b: string)
    requires NoUnderscore(a) && RemoveBlocks(block) == RemoveBlocks(b)
    ensures StripSentinels(a + block) == Trim(a + RemoveBlocks(b))
  {
    UnderscoreFreeKept(a, block);
  }

  /** A marker right after underscore-free text is the first occurrence of
      that marker. */
  lemma FirstMarkerAfterPlainText(a: string, marker: string, rest: string)
    requires NoUnderscore(a) && marker != [] && marker[0] == '_'
    ensures IndexOf(a + marker + rest, marker) == Some(|a|)
  {
    var s := a + marker + rest;
    forall i | 0 <= i < |a|
      ensures !OccursAt(marker, s, i)
    {
      assert s[i] == a[i];
    }
    assert s[|a|..|a| + |marker|] == marker;
    IndexFromSkip(s, marker, 0, |a|);
  }

  /** The middle piece of a concatenation is the slice between the lengths
      of what precedes it. */
  lemma MiddleOfConcat(x: string, y: string, z: string)
    ensures (x + y + z)[|x|..|x| + |y|] == y
  {
  }

  /** Underscore-free text opens no block of its own. */
  lemma PlainTextOpensNothing(a: string, start: string)
    requires NoUnderscore(a) && start != [] && start[0] == '_'
    ensures OpenedAfter(a, start)
  {
    FirstMarkerAfterPlainText(a, start, []);
    assert a + start + [] == a + start;
  }

  /** Whatever follows it, the block's start marker stays the first one. */
  lemma OpenedAfterExtend(a: string, start: string, rest: string)
    requires OpenedAfter(a, start)
    ensures IndexOf(a + start + rest, start) == Some(|a|)
  {
    IndexFromExtend(a + start, rest, start, 0);
  }

  /** Wrapping a payload in a marker pair and searching for the pair gives
      back the payload, whenever no start marker comes before the block's. */
  lemma BetweenRoundTrip(a: string, start: string, payload: string, end: string, b: string)
    requires OpenedAfter(a, start) && ClosedBy(payload, end)
    ensures Between(a + start + payload + end + b, start, end) == Some(payload)
  {
    var front := a + start;
    var s := front + payload + end + b;
    assert IndexOf(s, start) == Some(|a|) by {
      OpenedAfterExtend(a, start, payload + end + b);
      RegroupTail(front, payload, end, b);
    }
    assert IndexFrom(s, end, |front|) == Some(|front| + |payload|) by {
      ClosingMarkerFound(front, payload, end, b);
    }
    assert s[|front|..|front| + |payload|] == payload by {
      MiddleOfConcat(front, payload, end + b);
      RegroupTail(front, payload, end, b);
    }
  }

  /** Embedding a payload in the first hits block and extracting it gives
      back the hits of the parsed payload, whatever precedes the block
      (details, reviews or guide blocks included) and whatever follows it. */
  lemma HitsRoundTrip(a: string, payload: string, b: string, parse: string -> Option<Json>)
    requires OpenedAfter(a, HitsStart) && ClosedBy(payload, HitsEnd)
    ensures HitsPayload(a + HitsStart + payload + HitsEnd + b) == Some(payload)
    ensures ExtractVendorHits(a + HitsStart + payload + HitsEnd + b, parse)
            == if parse(payload).Some? then HitsOfParsed(parse(payload).value) else None
  {
    BetweenRoundTrip(a, HitsStart, payload, HitsEnd, b);
  }

  /** The special case of plain text before the hits block. */
  lemma HitsAfterPlainText(a: string, payload: string, b: string, parse: string -> Option<Json>)
    requires NoUnderscore(a) && ClosedBy(payload, HitsEnd)
    ensures ExtractVendorHits(a + HitsStart + payload + HitsEnd + b, parse)
            == if parse(payload).Some? then HitsOfParsed(parse(payload).value) else None
  {
    MarkersOpenWithUnderscore(0);
    PlainTextOpensNothing(a, HitsStart);
    HitsRoundTrip(a, payload, b, parse);
  }
}

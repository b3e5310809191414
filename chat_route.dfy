/** The POST handler of the chat route. It rejects bad bodies with status
    400, short-circuits flagged text with a denial, answers vendor questions
    straight from the vector search, and otherwise hands the history to the
    model. The collaborators (moderation, the search tool, the model) are
    abstract outcomes; every stream the handler writes itself is one text
    message framed by start/finish events. */
module ChatRoute {
  import opened Wrappers
  import opened JsText
  import opened JsValue
  import opened Intent
  import opened ChatRequest
  import opened ResultNormalizer
  import opened VendorFormatter
  import VectorSearch

  /** The UI-message stream parts the handler writes. */
  datatype Event =
    | Start
    | TextStart(id: string)
    | TextDelta(id: string, delta: string)
    | TextEnd(id: string)
    | Finish

  /** The writer handed to a stream's `execute`: it records what is written,
      in order. */
  class StreamWriter {
    var events: seq<Event>

    constructor ()
      ensures events == []
    {
      events := [];
    }

    method Write(e: Event)
      modifies this
      ensures events == old(events) + [e]
    {
      events := events + [e];
    }
  }

  const DenialId := "moderation-denial-text"
  const VendorId := "vendor-response"
  const FallbackId := "fallback-response"

  const DefaultDenial := "Your message violates our guidelines. I can't answer that."
  const VendorApology :=
    "Something " + "went wrong while fetching vendors. Please try again in a moment, or ask me to search the web for vendor options."
  const FallbackText :=
    "Sorry " + "\U{2014}" + " I'm having trouble generating a reply right now. Please try again in a few seconds."

  /** The `topK` vendor mode asks for. */
  const VendorTopK := 8

  /** One text message: start, text-start, a single delta, text-end, finish,
      all under one id. */
  function SingleText(id: string, delta: string): seq<Event>
  {
    [Start, TextStart(id), TextDelta(id, delta), TextEnd(id), Finish]
  }

  /** The shape every self-written stream has. */
  predicate Framed(events: seq<Event>, id: string)
  {
    |events| == 5 && events[0] == Start && events[1] == TextStart(id)
    && events[2].TextDelta? && events[2].id == id
    && events[3] == TextEnd(id) && events[4] == Finish
  }

  /** What the moderation service answered: `flagged` and the optional
      `denialMessage` of its result, or no result at all. */
  datatype ModerationVerdict = ModerationVerdict(flagged: bool, denialMessage: Option<string>)
  datatype ModerationOutcome = ModerationThrew | ModerationAnswered(verdict: Option<ModerationVerdict>)

  /** `moderationResult?.flagged`; a moderation failure counts as not
      flagged. */
  predicate Flagged(m: ModerationOutcome)
  {
    m.ModerationAnswered? && m.verdict.Some? && m.verdict.value.flagged
  }

  /** `moderationResult.denialMessage || default` */
  function DenialText(v: ModerationVerdict): (r: string)
    ensures v.denialMessage.Some? && v.denialMessage.value != "" ==> r == v.denialMessage.value
    ensures v.denialMessage.None? || v.denialMessage.value == "" ==> r == DefaultDenial
  {
    if v.denialMessage.Some? && v.denialMessage.value != "" then v.denialMessage.value else DefaultDenial
  }

  /** The settled outcome of awaiting one call. */
  datatype Call = Resolves(value: Json) | Fails

  /** The two ways the handler tries to call the search tool: its optional
      `execute({ query, topK })` and a direct call `tool(query, topK)`. */
  datatype SearchTool = SearchTool(execute: Option<(string, int) -> Call>, direct: (string, int) -> Call)

  /** The raw search result: `undefined` when there is no `execute`; the
      direct call only when `execute` failed; `Throw` when both failed. */
  function SearchResult(tool: SearchTool, query: string): (r: Completion<Json>)
    ensures tool.execute.None? ==> r == Normal(Undefined)
    ensures tool.execute.Some? && tool.execute.value(query, VendorTopK).Resolves? ==>
      r == Normal(tool.execute.value(query, VendorTopK).value)
    ensures r.Throw? <==> tool.execute.Some? && tool.execute.value(query, VendorTopK).Fails?
                          && tool.direct(query, VendorTopK).Fails?
  {
    if tool.execute.None? then Normal(Undefined)
    else
      var first := tool.execute.value(query, VendorTopK);
      if first.Resolves? then Normal(first.value)
      else
        var second := tool.direct(query, VendorTopK);
        if second.Resolves? then Normal(second.value) else Throw
  }

  /** What vendor mode found for the trimmed text: the normalised vendor
      list, or `Throw` when both search calls failed or the normaliser
      threw. */
  function VendorOutcome(text: string, tool: SearchTool): (r: Completion<seq<Json>>)
    ensures r.Throw? <==> SearchResult(tool, Trim(text)).Throw? || Normalize(SearchResult(tool, Trim(text)).value).Throw?
    ensures r.Normal? ==> r == Normalize(SearchResult(tool, Trim(text)).value)
  {
    var result := SearchResult(tool, Trim(text));
    if result.Throw? then Throw else Normalize(result.value)
  }

  /** The one delta of the vendor stream: the listing or the note for the
      trimmed text, or the apology. */
  function VendorDelta(text: string, tool: SearchTool): string
  {
    var outcome := VendorOutcome(text, tool);
    if outcome.Throw? then VendorApology else FormatVendorList(outcome.value, Trim(text))
  }

  /** What the handler answers with. `Failure` is an exception escaping the
      handler, which the framework turns into an error response. */
  datatype Response =
    | BadRequest(error: string)
    | EventStream(events: seq<Event>)
    | ModelReply
    | Failure

  /** Whether the model call started a stream or threw. */
  datatype ModelOutcome = ModelStreams | ModelThrew

  /** The handler's decision, from the parsed body and the collaborators'
      outcomes. */
  function Handle(parsed: Option<Json>, moderation: ModerationOutcome, tool: SearchTool, model: ModelOutcome): (r: Response)
    ensures r.BadRequest? <==> NormalizeBody(parsed).Normal? && NormalizeBody(parsed).value.Rejected?
    ensures r.Failure? <==> NormalizeBody(parsed).Throw?
                            || (NormalizeBody(parsed).value.History?
                                && LatestUserTextOrEmpty(NormalizeBody(parsed).value.messages).Throw?)
  {
    var body := NormalizeBody(parsed);
    if body.Throw? then Failure
    else if body.value.Rejected? then BadRequest(body.value.error)
    else
      var latest := LatestUserTextOrEmpty(body.value.messages);
      if latest.Throw? then Failure else Reply(latest.value, moderation, tool, model)
  }

  /** The answer to the latest user text: the denial, the vendor stream,
      the model's reply or the fallback, first applicable wins. */
  function Reply(text: string, moderation: ModerationOutcome, tool: SearchTool, model: ModelOutcome): (r: Response)
    ensures !r.BadRequest? && !r.Failure?
    ensures r == ModelReply <==> !(text != "" && Flagged(moderation)) && !IsVendorQuery(Some(text)) && model.ModelStreams?
  {
    if text != "" && Flagged(moderation) then EventStream(SingleText(DenialId, DenialText(moderation.verdict.value)))
    else if IsVendorQuery(Some(text)) then EventStream(SingleText(VendorId, VendorDelta(text, tool)))
    else if model.ModelStreams? then ModelReply
    else EventStream(SingleText(FallbackId, FallbackText))
  }

  /** The denial stream's `execute`. */
  method WriteDenial(w: StreamWriter, message: string)
    modifies w
    ensures w.events == old(w.events) + SingleText(DenialId, message)
  {
    w.Write(Start);
    w.Write(TextStart(DenialId));
    w.Write(TextDelta(DenialId, message));
    w.Write(TextEnd(DenialId));
    w.Write(Finish);
  }

  /** The fallback stream's `execute`, used when the model call throws. */
  method WriteFallback(w: StreamWriter)
    modifies w
    ensures w.events == old(w.events) + SingleText(FallbackId, FallbackText)
  {
    w.Write(Start);
    w.Write(TextStart(FallbackId));
    w.Write(TextDelta(FallbackId, FallbackText));
    w.Write(TextEnd(FallbackId));
    w.Write(Finish);
  }

  /** The search calls of vendor mode, as the nested `try`s make them. */
  method CallSearch(tool: SearchTool, query: string) returns (result: Completion<Json>)
    ensures result == SearchResult(tool, query)
  {
    if tool.execute.None? {
      return Normal(Undefined);
    }
    var first := tool.execute.value(query, VendorTopK);
    if first.Resolves? {
      return Normal(first.value);
    }
    var second := tool.direct(query, VendorTopK);
    if second.Resolves? {
      return Normal(second.value);
    }
    return Throw;
  }

  /** The body of vendor mode's `try`, with its `catch`: the delta to write. */
  method ComposeVendorDelta(text: string, tool: SearchTool) returns (delta: string)
    ensures delta == VendorDelta(text, tool)
  {
    var query := Trim(text);
    var result := CallSearch(tool, query);
    if result.Throw? {
      return VendorApology;
    }
    var vendors := NormalizeVendors(result.value);
    if vendors.Throw? {
      return VendorApology;
    }
    delta := FormatVendorList(vendors.value, query);
  }

  /** The vendor stream's `execute`: the two opening events, the delta, then
      the closing events its `finally` writes. */
  method WriteVendorReply(w: StreamWriter, text: string, tool: SearchTool)
    modifies w
    ensures w.events == old(w.events) + SingleText(VendorId, VendorDelta(text, tool))
  {
    w.Write(Start);
    w.Write(TextStart(VendorId));
    var delta := ComposeVendorDelta(text, tool);
    w.Write(TextDelta(VendorId, delta));
    w.Write(TextEnd(VendorId));
    w.Write(Finish);
  }

  /** `POST`, step by step as the handler runs. */
  method Post(parsed: Option<Json>, moderation: ModerationOutcome, tool: SearchTool, model: ModelOutcome)
    returns (resp: Response)
    ensures resp == Handle(parsed, moderation, tool, model)
  {
    var body := NormalizeBody(parsed);
    if body.Throw? {
      return Failure;
    }
    if body.value.Rejected? {
      return BadRequest(body.value.error);
    }
    var latest := LatestUserTextOrEmpty(body.value.messages);
    if latest.Throw? {
      return Failure;
    }
    resp := AnswerText(latest.value, moderation, tool, model);
  }

  /** The part of `POST` after the latest user text is known: moderation,
      then vendor mode, then the model with its fallback. */
  method AnswerText(text: string, moderation: ModerationOutcome, tool: SearchTool, model: ModelOutcome)
    returns (resp: Response)
    ensures resp == Reply(text, moderation, tool, model)
  {
    if text != "" && Flagged(moderation) {
      var w := new StreamWriter();
      WriteDenial(w, DenialText(moderation.verdict.value));
      return EventStream(w.events);
    }
    if IsVendorQuery(Some(text)) {
      var w := new StreamWriter();
      WriteVendorReply(w, text, tool);
      return EventStream(w.events);
    }
    if model.ModelStreams? {
      return ModelReply;
    }
    var w := new StreamWriter();
    WriteFallback(w);
    resp := EventStream(w.events);
  }

  /** Text that passes moderation and is not a vendor query, when the model
      call throws, gets exactly the five fallback events. */
  lemma ModelFailureFallsBack(parsed: Option<Json>, moderation: ModerationOutcome, tool: SearchTool)
    requires NormalizeBody(parsed).Normal? && NormalizeBody(parsed).value.History?
    requires var t := LatestUserTextOrEmpty(NormalizeBody(parsed).value.messages);
             t.Normal? && !(t.value != "" && Flagged(moderation)) && !IsVendorQuery(Some(t.value))
    ensures Handle(parsed, moderation, tool, ModelThrew) == EventStream(SingleText(FallbackId, FallbackText))
  {
  }

  /** A vendor query that passes moderation gets the one vendor stream whose
      delta is the vendor-mode text, whatever the model would do. */
  lemma VendorReplyDelta(text: string, moderation: ModerationOutcome, tool: SearchTool, model: ModelOutcome)
    requires !(text != "" && Flagged(moderation)) && IsVendorQuery(Some(text))
    ensures Reply(text, moderation, tool, model) == EventStream(SingleText(VendorId, VendorDelta(text, tool)))
  {
  }

  /** Bodies that are not JSON, or that carry neither `messages` nor a
      string `message`, get status 400 whatever the collaborators would do. */
  lemma RejectedBodies(parsed: Option<Json>, moderation: ModerationOutcome, tool: SearchTool, model: ModelOutcome)
    ensures parsed.None? ==> Handle(parsed, moderation, tool, model) == BadRequest("invalid JSON body")
    ensures parsed.Some? && !Nullish(parsed.value) && !Get(parsed.value, "messages").Arr?
            && !Get(parsed.value, "message").Str? ==>
      Handle(parsed, moderation, tool, model) == BadRequest("no messages provided")
  {
  }

  /** Every stream the handler writes itself is framed: start and
      text-start first, one delta, text-end and finish last. */
  lemma EveryStreamFramed(parsed: Option<Json>, moderation: ModerationOutcome, tool: SearchTool, model: ModelOutcome)
    ensures var r := Handle(parsed, moderation, tool, model);
            r.EventStream? ==> Framed(r.events, DenialId) || Framed(r.events, VendorId) || Framed(r.events, FallbackId)
  {
    var body := NormalizeBody(parsed);
    if body.Normal? && body.value.History? {
      var latest := LatestUserTextOrEmpty(body.value.messages);
      if latest.Normal? {
        ReplyFramed(latest.value, moderation, tool, model);
      }
    }
  }

  /** Each stream `Reply` writes is framed under its own id. */
  lemma ReplyFramed(text: string, moderation: ModerationOutcome, tool: SearchTool, model: ModelOutcome)
    ensures var r := Reply(text, moderation, tool, model);
            r.EventStream? ==> Framed(r.events, DenialId) || Framed(r.events, VendorId) || Framed(r.events, FallbackId)
  {
    if text != "" && Flagged(moderation) {
      SingleTextFramed(DenialId, DenialText(moderation.verdict.value));
    } else if IsVendorQuery(Some(text)) {
      SingleTextFramed(VendorId, VendorDelta(text, tool));
    } else {
      SingleTextFramed(FallbackId, FallbackText);
    }
  }

  lemma SingleTextFramed(id: string, delta: string)
    ensures Framed(SingleText(id, delta), id)
  {
  }

  /** Empty text is never sent to moderation: the answer does not depend on
      the moderation outcome, and it is the model's or the fallback. */
  lemma EmptyTextSkipsModeration(parsed: Option<Json>, m1: ModerationOutcome, m2: ModerationOutcome,
                                 tool: SearchTool, model: ModelOutcome)
    requires NormalizeBody(parsed).Normal? && NormalizeBody(parsed).value.History?
    requires LatestUserTextOrEmpty(NormalizeBody(parsed).value.messages) == Normal("")
    ensures Handle(parsed, m1, tool, model) == Handle(parsed, m2, tool, model)
    ensures Handle(parsed, m1, tool, model) == if model.ModelStreams? then ModelReply
                                               else EventStream(SingleText(FallbackId, FallbackText))
  {
    assert !IsVendorQuery(Some(""));
  }

  /** A moderation failure, or no moderation result, is treated as a
      verdict of "not flagged". */
  lemma ModerationFailureIgnored(parsed: Option<Json>, tool: SearchTool, model: ModelOutcome)
    ensures Handle(parsed, ModerationThrew, tool, model)
            == Handle(parsed, ModerationAnswered(Some(ModerationVerdict(false, None))), tool, model)
    ensures Handle(parsed, ModerationAnswered(None), tool, model)
            == Handle(parsed, ModerationAnswered(Some(ModerationVerdict(false, None))), tool, model)
  {
  }

  /** Flagged text gets exactly the five denial events, carrying the
      service's message or the default; neither the search nor the model
      has any say. */
  lemma FlaggedTextDenied(parsed: Option<Json>, v: ModerationVerdict, tool: SearchTool, model: ModelOutcome)
    requires NormalizeBody(parsed).Normal? && NormalizeBody(parsed).value.History?
    requires var t := LatestUserTextOrEmpty(NormalizeBody(parsed).value.messages); t.Normal? && t.value != ""
    requires v.flagged
    ensures Handle(parsed, ModerationAnswered(Some(v)), tool, model)
            == EventStream([Start, TextStart(DenialId), TextDelta(DenialId, DenialText(v)), TextEnd(DenialId), Finish])
  {
  }

  /** Past moderation, the vendor stream is written exactly for vendor
      queries. */
  lemma VendorModeIffVendorQuery(parsed: Option<Json>, moderation: ModerationOutcome, tool: SearchTool,
                                 model: ModelOutcome)
    requires NormalizeBody(parsed).Normal? && NormalizeBody(parsed).value.History?
    requires var t := LatestUserTextOrEmpty(NormalizeBody(parsed).value.messages);
             t.Normal? && !(t.value != "" && Flagged(moderation))
    ensures var r := Handle(parsed, moderation, tool, model);
            var text := LatestUserTextOrEmpty(NormalizeBody(parsed).value.messages).value;
            (r.EventStream? && Framed(r.events, VendorId)) <==> IsVendorQuery(Some(text))
  {
    var text := LatestUserTextOrEmpty(NormalizeBody(parsed).value.messages).value;
    assert Handle(parsed, moderation, tool, model) == Reply(text, moderation, tool, model);
    ReplyVendorIff(text, moderation, tool, model);
  }

  /** `Reply` writes the vendor stream exactly for vendor queries, once
      moderation has let the text through. */
  lemma ReplyVendorIff(text: string, moderation: ModerationOutcome, tool: SearchTool, model: ModelOutcome)
    requires !(text != "" && Flagged(moderation))
    ensures var r := Reply(text, moderation, tool, model);
            (r.EventStream? && Framed(r.events, VendorId)) <==> IsVendorQuery(Some(text))
  {
    if IsVendorQuery(Some(text)) {
      SingleTextFramed(VendorId, VendorDelta(text, tool));
    } else {
      assert FallbackId != VendorId by {
        assert FallbackId[0] != VendorId[0];
      }
      OtherIdNotFramed(FallbackId, VendorId, FallbackText);
    }
  }

  /** A single-text stream is framed under its own id only. */
  lemma OtherIdNotFramed(id: string, other: string, delta: string)
    requires id != other
    ensures !Framed(SingleText(id, delta), other)
  {
    assert SingleText(id, delta)[1] == TextStart(id);
  }

  /** A search that did not fail is answered with the listing (or note)
      of the normalised vendors. */
  lemma ListedOutcome(text: string, tool: SearchTool)
    requires SearchResult(tool, Trim(text)).Normal? && Normalize(SearchResult(tool, Trim(text)).value).Normal?
    ensures VendorDelta(text, tool) == FormatVendorList(Normalize(SearchResult(tool, Trim(text)).value).value, Trim(text))
  {
  }

  /** Neither the listing nor the note reads like the apology: they open
      with "H" and "I", the apology with "S". */
  lemma ListingIsNotApology(vs: seq<Json>, query: string)
    ensures FormatVendorList(vs, query) != VendorApology
  {
    assert VendorApology[0] == 'S';
    OpeningLetter(vs, query);
  }

  /** The apology is written exactly when both search calls failed or the
      normaliser threw. */
  lemma ApologyOnlyOnFailure(text: string, tool: SearchTool)
    ensures VendorDelta(text, tool) == VendorApology <==>
      SearchResult(tool, Trim(text)).Throw? || Normalize(SearchResult(tool, Trim(text)).value).Throw?
  {
    var outcome := VendorOutcome(text, tool);
    if outcome.Normal? {
      ListingIsNotApology(outcome.value, Trim(text));
    }
  }

  /** Without `execute`, the result is `undefined`, which normalises to no
      vendors: the note is written. */
  lemma MissingExecuteGivesNote(text: string, tool: SearchTool)
    requires tool.execute.None?
    ensures VendorDelta(text, tool) == NoVendorsMessage(Trim(text))
  {
    assert SearchResult(tool, Trim(text)) == Normal(Undefined);
    UndefinedGivesNone();
    ListedOutcome(text, tool);
    EmptyListEchoesQuery(Trim(text));
  }

  /** A failed `execute` falls back to the direct call with the same query
      and `topK`. */
  lemma DirectCallAfterFailure(text: string, tool: SearchTool)
    requires tool.execute.Some? && tool.execute.value(Trim(text), VendorTopK).Fails?
    ensures VendorDelta(text, tool) == VendorDelta(text, SearchTool(Some(tool.direct), tool.direct))
  {
    RetriedSearch(tool, Trim(text));
    SameSearchSameDelta(text, tool, SearchTool(Some(tool.direct), tool.direct));
  }

  /** After a failed `execute`, the search result is what `execute` would
      have given had it been the direct call. */
  lemma RetriedSearch(tool: SearchTool, query: string)
    requires tool.execute.Some? && tool.execute.value(query, VendorTopK).Fails?
    ensures SearchResult(tool, query) == SearchResult(SearchTool(Some(tool.direct), tool.direct), query)
  {
  }

  /** The delta depends on the tool only through the raw search result. */
  lemma SameSearchSameDelta(text: string, t1: SearchTool, t2: SearchTool)
    requires SearchResult(t1, Trim(text)) == SearchResult(t2, Trim(text))
    ensures VendorDelta(text, t1) == VendorDelta(text, t2)
  {
    assert VendorOutcome(text, t1) == VendorOutcome(text, t2);
  }

  /** The handler's view of the project's own search tool: `execute` is
      the tool's function, and the tool object itself is not callable, so a
      direct call always fails. */
  function ProjectSearchTool(backend: (string, int) -> VectorSearch.IndexOutcome): SearchTool
  {
    SearchTool(Some((q: string, k: int) => Resolves(VectorSearch.Execute(q, Some(k), backend))),
               (q: string, k: int) => Fails)
  }

  /** The project's tool always answers through `execute`. */
  lemma ProjectToolResolves(backend: (string, int) -> VectorSearch.IndexOutcome, query: string)
    ensures SearchResult(ProjectSearchTool(backend), query)
            == Normal(VectorSearch.VendorsResult(VectorSearch.FoundVendors(query, Some(VendorTopK), backend)))
  {
  }

  /** Whatever the tool returns, the normaliser takes its `vendors` as they
      are: the first branch when it is non-empty, and no vendors otherwise. */
  lemma SearchResultNormalised(vs: seq<Json>)
    requires forall i :: 0 <= i < |vs| ==> vs[i].Obj?
    ensures Normalize(VectorSearch.VendorsResult(vs)) == Normal(vs)
  {
    var r := VectorSearch.VendorsResult(vs);
    assert Get(r, "vendors") == Arr(vs);
    if vs == [] {
      assert Get(r, "results") == Undefined && Get(r, "items") == Undefined;
      assert Get(r, "matches") == Undefined && Get(r, "hits") == Undefined;
      assert SelectVendors(r) == Normal([]);
    } else {
      assert SelectVendors(r) == Normal(vs);
    }
  }

  /** With the project's own search tool, vendor mode never apologises: it
      lists the tool's records for the trimmed text (or writes the note
      when there are none). */
  lemma ProjectToolListsItsRecords(text: string, backend: (string, int) -> VectorSearch.IndexOutcome)
    ensures VendorDelta(text, ProjectSearchTool(backend))
            == FormatVendorList(VectorSearch.FoundVendors(Trim(text), Some(VendorTopK), backend), Trim(text))
  {
    var vs := VectorSearch.FoundVendors(Trim(text), Some(VendorTopK), backend);
    ProjectToolResolves(backend, Trim(text));
    RecordsListed(text, ProjectSearchTool(backend), vs);
  }

  /** A search answering `{ vendors }` with vendor records lists exactly
      those records. */
  lemma RecordsListed(text: string, tool: SearchTool, vs: seq<Json>)
    requires SearchResult(tool, Trim(text)) == Normal(VectorSearch.VendorsResult(vs))
    requires forall i :: 0 <= i < |vs| ==> vs[i].Obj?
    ensures VendorDelta(text, tool) == FormatVendorList(vs, Trim(text))
  {
    SearchResultNormalised(vs);
    ListedOutcome(text, tool);
  }
}

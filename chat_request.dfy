/** The request side of the chat handler: accepting `{ messages }` or
    `{ message }` bodies and reading the latest user utterance out of the
    message history. Messages are the raw JSON the client sent. */
module ChatRequest {
  import opened Wrappers
  import opened JsText
  import opened JsValue

  /** What body normalisation decides: a message history to work on, or a
      400 response carrying an error text. */
  datatype Body = History(messages: seq<Json>) | Rejected(error: string)

  const InvalidJsonError := "invalid JSON body"
  const NoMessagesError := "no messages provided"

  /** The minimal message built from a `{ message: string }` body: id "m1",
      role "user", one text part. */
  function SingleUserMessage(text: string): Json
  {
    Obj(map["id" := Str("m1"), "role" := Str("user"),
            "parts" := Arr([Obj(map["type" := Str("text"), "text" := Str(text)])])])
  }

  /** Body normalisation. `parsed` is the outcome of `req.json()`: `None`
      when the body is not JSON. Reading `.messages` of a `null` or
      `undefined` body throws. */
  function NormalizeBody(parsed: Option<Json>): (r: Completion<Body>)
    ensures parsed.None? ==> r == Normal(Rejected(InvalidJsonError))
    ensures parsed.Some? && Nullish(parsed.value) ==> r.Throw?
    ensures parsed.Some? && Get(parsed.value, "messages").Arr? ==>
      r == Normal(History(Get(parsed.value, "messages").items))
    ensures parsed.Some? && !Nullish(parsed.value) && !Get(parsed.value, "messages").Arr?
            && Get(parsed.value, "message").Str? ==>
      r == Normal(History([SingleUserMessage(Get(parsed.value, "message").s)]))
    ensures r == Normal(Rejected(NoMessagesError)) <==>
      parsed.Some? && !Nullish(parsed.value) && !Get(parsed.value, "messages").Arr?
      && !Get(parsed.value, "message").Str?
  {
    match parsed
    case None => Normal(Rejected(InvalidJsonError))
    case Some(body) =>
      if Nullish(body) then Throw
      else if Get(body, "messages").Arr? then Normal(History(Get(body, "messages").items))
      else if Get(body, "message").Str? then Normal(History([SingleUserMessage(Get(body, "message").s)]))
      else Normal(Rejected(NoMessagesError))
  }

  predicate IsUserMessage(m: Json)
  {
    Get(m, "role") == Str("user")
  }

  /** `messages.filter((m) => m.role === "user")`: throws as soon as an entry
      is `null` or `undefined`. */
  function UserMessages(ms: seq<Json>): (r: Completion<seq<Json>>)
    ensures r.Throw? <==> exists i :: 0 <= i < |ms| && Nullish(ms[i])
  {
    if ms == [] then Normal([])
    else if Nullish(ms[0]) then Throw
    else
      var rest := UserMessages(ms[1..]);
      if rest.Throw? then Throw
      else if IsUserMessage(ms[0]) then Normal([ms[0]] + rest.value)
      else rest
  }

  /** The filter keeps the user messages and nothing else. */
  lemma {:induction false} UserMessagesAreTheUsers(ms: seq<Json>)
    requires UserMessages(ms).Normal?
    ensures forall m :: m in UserMessages(ms).value ==> m in ms && IsUserMessage(m)
    ensures forall i :: 0 <= i < |ms| && IsUserMessage(ms[i]) ==> ms[i] in UserMessages(ms).value
  {
    if ms != [] {
      UserMessagesAreTheUsers(ms[1..]);
      forall i | 1 <= i < |ms|
        ensures ms[i] == ms[1..][i - 1]
      {
      }
    }
  }

  predicate IsTextPart(p: Json)
  {
    Get(p, "type") == Str("text")
  }

  /** `"text" in part ? part.text : ""` for a part whose type is "text". */
  function PartText(p: Json): Json
  {
    if p.Obj? && "text" in p.fields then p.fields["text"] else Str("")
  }

  /** `parts.filter((p) => p.type === "text").map(PartText)`: throws as soon
      as a part is `null` or `undefined`. */
  function TextPartValues(parts: seq<Json>): (r: Completion<seq<Json>>)
    ensures r.Throw? <==> exists i :: 0 <= i < |parts| && Nullish(parts[i])
  {
    if parts == [] then Normal([])
    else if Nullish(parts[0]) then Throw
    else
      var rest := TextPartValues(parts[1..]);
      if rest.Throw? then Throw
      else if IsTextPart(parts[0]) then Normal([PartText(parts[0])] + rest.value)
      else rest
  }

  /** The values of `a + b` are those of `a` followed by those of `b`. */
  lemma {:induction false} TextPartValuesAppend(a: seq<Json>, b: seq<Json>)
    ensures TextPartValues(a + b) ==
      match TextPartValues(a)
      case Throw => Throw
      case Normal(x) => (match TextPartValues(b) case Throw => Throw case Normal(y) => Normal(x + y))
  {
    if a == [] {
      assert a + b == b;
      if TextPartValues(b).Normal? {
        assert [] + TextPartValues(b).value == TextPartValues(b).value;
      }
    } else {
      assert (a + b)[0] == a[0];
      assert (a + b)[1..] == a[1..] + b;
      TextPartValuesAppend(a[1..], b);
      var ra, rb := TextPartValues(a[1..]), TextPartValues(b);
      if !Nullish(a[0]) && ra.Normal? && rb.Normal? && IsTextPart(a[0]) {
        assert [PartText(a[0])] + ra.value + rb.value == [PartText(a[0])] + (ra.value + rb.value);
      }
    }
  }

  /** A text part contributes its `text` (or "" without one); any other
      part contributes nothing. */
  lemma OneTextPart(p: Json)
    ensures TextPartValues([p]) ==
      if Nullish(p) then Throw else Normal(if IsTextPart(p) then [PartText(p)] else [])
  {
    assert [p][1..] == [];
    if IsTextPart(p) {
      assert [PartText(p)] + [] == [PartText(p)];
    }
  }

  /** The text of parts `a + b` is the text of `a` followed by that of `b`. */
  lemma MessageTextInPartOrder(m: Json, a: seq<Json>, b: seq<Json>)
    requires Get(m, "parts") == Arr(a + b)
    requires forall i :: 0 <= i < |a| ==> !Nullish(a[i])
    requires forall i :: 0 <= i < |b| ==> !Nullish(b[i])
    ensures MessageText(m) ==
      Normal(JoinValues("", TextPartValues(a).value) + JoinValues("", TextPartValues(b).value))
  {
    TextPartValuesAppend(a, b);
    JoinValuesAppend("", TextPartValues(a).value, TextPartValues(b).value);
  }

  /** The concatenated text of one message's text parts, or `Throw` when its
      `parts` is not an array (`.filter` is then not a function) or holds a
      `null` part. */
  function MessageText(m: Json): (r: Completion<string>)
    ensures r.Throw? <==>
      !Get(m, "parts").Arr? || exists i :: 0 <= i < |Get(m, "parts").items| && Nullish(Get(m, "parts").items[i])
  {
    match Get(m, "parts")
    case Arr(parts) =>
      (match TextPartValues(parts)
       case Throw => Throw
       case Normal(values) => Normal(JoinValues("", values)))
    case _ => Throw
  }

  /** `getLatestUserText`: the text of the LAST message whose role is "user";
      `None` when there is none or its text is empty. */
  function LatestUserText(ms: seq<Json>): (r: Completion<Option<string>>)
    ensures r.Normal? && r.value.Some? ==> r.value.value != ""
  {
    match UserMessages(ms)
    case Throw => Throw
    case Normal(users) =>
      if users == [] then Normal(None)
      else match MessageText(users[|users| - 1])
        case Throw => Throw
        case Normal(text) => Normal(if text == "" then None else Some(text))
  }

  /** `getLatestUserText(messages) ?? ""` */
  function LatestUserTextOrEmpty(ms: seq<Json>): (r: Completion<string>)
    ensures r.Throw? <==> LatestUserText(ms).Throw?
    ensures r.Normal? ==> (r.value == "" <==> LatestUserText(ms).value.None?)
    ensures r.Normal? && r.value != "" ==> LatestUserText(ms).value == Some(r.value)
  {
    match LatestUserText(ms)
    case Throw => Throw
    case Normal(t) => Normal(if t.Some? then t.value else "")
  }

  /** Only the last user message counts: a later message of another role
      changes nothing. */
  lemma {:induction false} LaterNonUserMessageIgnored(ms: seq<Json>, m: Json)
    requires !Nullish(m) && !IsUserMessage(m)
    ensures LatestUserText(ms + [m]) == LatestUserText(ms)
  {
    UserMessagesSnoc(ms, m);
  }

  /** Appending a user message makes its own text the answer, whatever came
      before (as long as no earlier entry is `null`). */
  lemma {:induction false} LastUserMessageWins(ms: seq<Json>, u: Json)
    requires forall i :: 0 <= i < |ms| ==> !Nullish(ms[i])
    requires IsUserMessage(u)
    ensures LatestUserText(ms + [u]) ==
      match MessageText(u)
      case Throw => Throw
      case Normal(text) => Normal(if text == "" then None else Some(text))
  {
    UserMessagesSnoc(ms, u);
  }

  lemma {:induction false} UserMessagesSnoc(ms: seq<Json>, m: Json)
    requires !Nullish(m)
    ensures UserMessages(ms + [m]) ==
      match UserMessages(ms)
      case Throw => Throw
      case Normal(us) => Normal(if IsUserMessage(m) then us + [m] else us)
  {
    if ms == [] {
      assert ms + [m] == [m];
      assert [m][1..] == [];
      assert UserMessages([m][1..]) == Normal([]);
      assert [m] + [] == [m];
    } else {
      var s := ms + [m];
      assert s[0] == ms[0];
      assert s[1..] == ms[1..] + [m];
      UserMessagesSnoc(ms[1..], m);
      if !Nullish(ms[0]) {
        match UserMessages(ms[1..])
        case Throw =>
        case Normal(rest) =>
          var us := if IsUserMessage(ms[0]) then [ms[0]] + rest else rest;
          assert UserMessages(ms) == Normal(us);
          var rest' := if IsUserMessage(m) then rest + [m] else rest;
          assert UserMessages(s[1..]) == Normal(rest');
          if IsUserMessage(ms[0]) && IsUserMessage(m) {
            assert [ms[0]] + rest' == us + [m];
          }
      }
    }
  }

  /** A `{ message: s }` body becomes exactly one user message whose text is
      `s`; an empty `s` counts as no text. */
  lemma SingleMessageText(s: string)
    ensures LatestUserText([SingleUserMessage(s)]) == Normal(if s == "" then None else Some(s))
  {
    var m := SingleUserMessage(s);
    var part := Obj(map["type" := Str("text"), "text" := Str(s)]);
    assert Get(m, "role") == Str("user");
    assert [m][1..] == [];
    assert UserMessages([m][1..]) == Normal([]);
    assert [m] + [] == [m];
    assert UserMessages([m]) == Normal([m]);
    assert Get(m, "parts") == Arr([part]);
    assert [part][1..] == [];
    assert TextPartValues([part][1..]) == Normal([]);
    assert IsTextPart(part) && PartText(part) == Str(s);
    assert [Str(s)] + [] == [Str(s)];
    assert TextPartValues([part]) == Normal([Str(s)]);
    assert JoinValues("", [Str(s)]) == s;
  }

  /** A history without user messages yields no text. */
  lemma {:induction false} NoUserMessageNoText(ms: seq<Json>)
    requires forall i :: 0 <= i < |ms| ==> !Nullish(ms[i]) && !IsUserMessage(ms[i])
    ensures LatestUserText(ms) == Normal(None)
  {
    if ms != [] {
      NoUserMessageNoText(ms[..|ms| - 1]);
      assert ms == ms[..|ms| - 1] + [ms[|ms| - 1]];
      LaterNonUserMessageIgnored(ms[..|ms| - 1], ms[|ms| - 1]);
    }
  }
}

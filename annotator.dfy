/**
 * The analysis endpoint (app.py lines 87-117): the request body is
 * checked for a manuscript, the optional settings get their defaults,
 * the prompt goes to the generation service, and whatever comes back is
 * normalised into the JSON the client receives.
 *
 * The generation service together with the JSON parse of its reply is a
 * parameter `remote`: it takes the prompt and gives an `Outcome`.
 */
module Annotator {
  import opened Wrappers
  import opened Json
  import opened Text
  import opened Whitespace
  import opened Prompt

  /** A value of the request body: a JSON string, or JSON null (Python's None). */
  datatype Field = FString(s: string) | FNull

  /** The request body: absent (JSON null, or `get_json` returning None), or an object. */
  type Body = Option<map<string, Field>>

  /**
   * How a replacement field renders a value: a string as itself, None as
   * `None`. A null setting thus renders as a name that neither table
   * knows, so it adds no instruction, just as `.get(None, "")` misses.
   */
  function Display(f: Field): (r: string)
    ensures f.FString? ==> r == f.s
    ensures f.FNull? ==> r == "None"
    ensures f.FNull? ==> StyleInstruction(r) == "" && CreativityInstruction(r) == ""
  {
    match f
    case FString(s) => s
    case FNull => "None"
  }

  /** The four arguments the endpoint passes on to the prompt builder. */
  datatype Request = Request(text: string, creativity: string, style: string, description: Option<string>)

  /** `not data or 'text' not in data`: the request is turned away. */
  predicate Rejected(body: Body) {
    body.None? || body.value == map[] || "text" !in body.value
  }

  /** `data.get(key, default)` on a body that is an object. */
  function Setting(fields: map<string, Field>, key: string, default: string): Field {
    if key in fields then fields[key] else FString(default)
  }

  /**
   * The book description as the prompt builder receives it. A null one
   * never gives a context section; a string one gives it exactly when it
   * holds a character that is not whitespace.
   */
  function DescriptionOf(f: Field): (r: Option<string>)
    ensures f.FNull? <==> r.None?
    ensures f.FString? ==> r == Some(f.s)
    ensures f.FNull? ==> !Describes(r)
    ensures f.FString? ==> (Describes(r) <==> !AllSpace(f.s))
  {
    match f
    case FString(s) =>
      DescribesIff(Some(s));
      Some(s)
    case FNull => None
  }

  /**
   * The check of the body and the defaults for the three optional
   * settings. Only the presence of `text` is checked, not its content.
   */
  function Validate(body: Body): (r: Option<Request>)
    ensures r.None? <==> Rejected(body)
    ensures r.Some? ==> r.value.text == Display(body.value["text"])
    ensures r.Some? && "creativity_level" !in body.value ==> r.value.creativity == "balanced"
    ensures r.Some? && "narrator_style" !in body.value ==> r.value.style == "neutral storyteller"
    ensures r.Some? && "book_description" !in body.value ==> r.value.description == Some("")
    ensures r.Some? && "creativity_level" in body.value ==> r.value.creativity == Display(body.value["creativity_level"])
    ensures r.Some? && "narrator_style" in body.value ==> r.value.style == Display(body.value["narrator_style"])
    ensures r.Some? && "book_description" in body.value ==> r.value.description == DescriptionOf(body.value["book_description"])
  {
    if Rejected(body) then
      None
    else
      var fields := body.value;
      Some(Request(
        Display(fields["text"]),
        Display(Setting(fields, "creativity_level", "balanced")),
        Display(Setting(fields, "narrator_style", "neutral storyteller")),
        DescriptionOf(Setting(fields, "book_description", ""))))
  }

  /** The reply of the endpoint: an HTTP status and a JSON payload. */
  datatype Response = Response(status: int, payload: Json)

  /** The payload of a turned-away request. */
  const ErrorPayload: Json := JObject(map["error" := JString("No text provided")])

  /** The start of the fallback segment's text; the error message follows it. */
  const FallbackLead: string := "Sorry, an error occurred during AI analysis. Details: "

  /** The fixed feedback of the fallback segment. */
  const FallbackFeedback: string := "There was a problem generating the performance script. Please try uploading the file again."

  /** The emoji of the fallback segment, as the source file has it. */
  const FallbackEmoji: string := "\U{E05E}\U{4E2A}"

  /** The one-segment script returned when the call or the parse fails. */
  function Fallback(msg: string): (r: Json)
    ensures r.JArray? && |r.items| == 1 && r.items[0].JObject?
    ensures r.items[0].fields.Keys == {"text", "type", "feedback", "emotion_emoji"}
    ensures r.items[0].fields["type"] == JString("normal")
    ensures r.items[0].fields["feedback"] == JString(FallbackFeedback)
    ensures r.items[0].fields["emotion_emoji"] == JString(FallbackEmoji)
    ensures r.items[0].fields["text"] == JString(FallbackLead + msg)
  {
    JArray([JObject(map[
      "text" := JString(FallbackLead + msg),
      "type" := JString("normal"),
      "feedback" := JString(FallbackFeedback),
      "emotion_emoji" := JString(FallbackEmoji)])])
  }

  /** The error message a fallback script carries, if `j` is one. */
  function FallbackDetails(j: Json): (r: Option<string>)
  {
    if j.JArray? && |j.items| == 1 && j.items[0].JObject?
       && j.items[0].fields.Keys == {"text", "type", "feedback", "emotion_emoji"}
       && j.items[0].fields["type"] == JString("normal")
       && j.items[0].fields["feedback"] == JString(FallbackFeedback)
       && j.items[0].fields["emotion_emoji"] == JString(FallbackEmoji)
       && j.items[0].fields["text"].JString?
       && |FallbackLead| <= |j.items[0].fields["text"].s|
       && j.items[0].fields["text"].s[..|FallbackLead|] == FallbackLead
    then Some(j.items[0].fields["text"].s[|FallbackLead|..])
    else None
  }

  /** The error message can be read back from the fallback script. */
  lemma FallbackDetailsOfFallback(msg: string)
    ensures FallbackDetails(Fallback(msg)) == Some(msg)
  {
    var t := FallbackLead + msg;
    assert t[..|FallbackLead|] == FallbackLead;
    assert t[|FallbackLead|..] == msg;
  }

  /** Only a fallback script yields an error message, and it is the script of that message. */
  lemma FallbackDetailsOnlyFallback(j: Json)
    requires FallbackDetails(j).Some?
    ensures j == Fallback(FallbackDetails(j).value)
  {
    var o := j.items[0];
    var t := o.fields["text"].s;
    assert t == FallbackLead + t[|FallbackLead|..];
    var f := Fallback(FallbackDetails(j).value);
    assert o.fields == f.items[0].fields;
    assert j.items == f.items;
  }

  /** Different error messages give different fallback scripts. */
  lemma FallbackInjective(m1: string, m2: string)
    requires Fallback(m1) == Fallback(m2)
    ensures m1 == m2
  {
    FallbackDetailsOfFallback(m1);
    FallbackDetailsOfFallback(m2);
  }

  /** The value returned by the analysis function for an outcome of the remote call. */
  function Normalise(o: Outcome): (r: Json)
    ensures o.Parsed? ==> r == o.value
    ensures o.Failed? ==> r == Fallback(o.msg) && FallbackDetails(r) == Some(o.msg)
  {
    match o
    case Parsed(v) =>
      v
    case Failed(msg) =>
      FallbackDetailsOfFallback(msg);
      Fallback(msg)
  }

  /**
   * A failure reaches the client as a script of one segment; a reply that
   * happens to parse to that very script cannot be told apart from it.
   */
  lemma FailureLooksLikeFallback(msg: string)
    ensures Normalise(Failed(msg)) == Normalise(Parsed(Fallback(msg)))
    ensures FallbackDetails(Normalise(Failed(msg))) == Some(msg)
  {
    FallbackDetailsOfFallback(msg);
  }

  /** The prompt a template gives for an accepted request. */
  function PromptOf(tp: Template, req: Request): string {
    Compose(tp, req.text, req.creativity, req.style, req.description)
  }

  /**
   * The endpoint over a prompt template: 400 with the error payload for a
   * turned-away request, otherwise 200 with the normalised outcome of the
   * remote call on the prompt for the request.
   */
  function Respond(tp: Template, body: Body, remote: string -> Outcome): (r: Response)
    ensures r.status == 400 <==> Rejected(body)
    ensures r.status == 400 ==> r.payload == ErrorPayload
    ensures r.status != 400 ==> r.status == 200
    ensures !Rejected(body) ==> r.payload == Normalise(remote(PromptOf(tp, Validate(body).value)))
  {
    match Validate(body)
    case None => Response(400, ErrorPayload)
    case Some(req) => Response(200, Normalise(remote(PromptOf(tp, req))))
  }

  /** The endpoint of the service: `Respond` with the service's own template. */
  function Analyze(body: Body, remote: string -> Outcome): Response {
    Respond(Narration, body, remote)
  }

  /** Only the presence of `text` is checked: an empty manuscript is accepted. */
  lemma EmptyTextAccepted(tp: Template, remote: string -> Outcome)
    ensures Respond(tp, Some(map["text" := FString("")]), remote).status == 200
  {
    var fields := map["text" := FString("")];
    assert "text" in fields;
    var none: map<string, Field> := map[];
    assert "text" !in none;
    assert fields != none;
    assert !Rejected(Some(fields));
  }

  /** A body with only a manuscript gets the three defaults. */
  lemma DefaultsApplied(text: Field)
    ensures Validate(Some(map["text" := text])) == Some(Request(Display(text), "balanced", "neutral storyteller", Some("")))
  {
    var fields := map["text" := text];
    assert !Rejected(Some(fields));
    assert fields["text"] == text;
    assert Setting(fields, "creativity_level", "balanced") == FString("balanced");
    assert Setting(fields, "narrator_style", "neutral storyteller") == FString("neutral storyteller");
    assert Setting(fields, "book_description", "") == FString("");
  }

  /**
   * An accepted request whose description is missing, null, empty or
   * whitespace only is sent the prompt of no description at all; any
   * other description is inserted as the context section.
   */
  lemma DescriptionOnlyThroughContext(tp: Template, body: Body)
    requires !Rejected(body)
    ensures var req := Validate(body).value;
      var plain := Compose(tp, req.text, req.creativity, req.style, None);
      var k := ContextOffset(tp, req.creativity, req.style);
      && k <= |plain|
      && PromptOf(tp, req) == plain[..k] + ContextSection(tp, req.description) + plain[k..]
      && (!Describes(req.description) ==> PromptOf(tp, req) == plain)
  {
    var req := Validate(body).value;
    DescriptionOnlyAddsContext(tp, req.text, req.creativity, req.style, req.description);
  }

  /** The manuscript of an accepted request ends the prompt, verbatim, before the closing text. */
  lemma ManuscriptEndsPrompt(tp: Template, body: Body)
    requires !Rejected(body)
    ensures EndsWith(PromptOf(tp, Validate(body).value), tp.manuscriptLead, Display(body.value["text"]), tp.closing)
  {
    var req := Validate(body).value;
    var section := ContextSection(tp, req.description);
    ManuscriptLast(tp, req.text, req.creativity, req.style, section);
    assert PromptOf(tp, req) == Render(tp, req.text, req.creativity, req.style, section);
  }

  /**
   * For every outcome of the remote call, an accepted request is answered with
   * 200: a failure becomes the fallback script of its message.
   */
  lemma AcceptedAlwaysSucceeds(tp: Template, body: Body, remote: string -> Outcome)
    requires !Rejected(body)
    ensures var r := Respond(tp, body, remote);
      var o := remote(PromptOf(tp, Validate(body).value));
      && r.status == 200
      && (o.Failed? ==> FallbackDetails(r.payload) == Some(o.msg))
      && (o.Parsed? ==> r.payload == o.value)
  {
  }
}

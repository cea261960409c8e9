/**
 * The `format-with-ai` edge function: how it answers a request, as a total
 * function of the request, the configured API key and the reply of the
 * generation API (which is only consulted when the function calls it).
 */
module FormatWithAi {
  import opened Wrappers
  import opened JsText

  // ---------------------------------------------------------------------------
  // Inputs and outputs
  // ---------------------------------------------------------------------------

  /** An HTTP header: name and value. */
  type Header = (string, string)

  /** The cross-origin headers sent with every response. */
  const CorsHeaders: seq<Header> := [
    ("Access-Control-Allow-Origin", "*"),
    ("Access-Control-Allow-Headers", "authorization, x-client-info, apikey, content-type")
  ]

  /** The headers of every JSON response: the content type, then the cross-origin ones. */
  const JsonHeaders: seq<Header> := [("Content-Type", "application/json")] + CorsHeaders

  /** The writing voices a request may ask for. */
  datatype Tone = Casual | Professional | Story

  /** The voice used when a request names none. */
  const DefaultTone := Professional

  /** The request body: unreadable as JSON (with the parser's message), or a format request. */
  datatype RequestBody =
    | MalformedBody(reason: string)
    | FormatRequest(content: string, tone: Option<Tone>)

  /** An incoming request: its HTTP method and its body. */
  datatype Request = Request(httpMethod: string, body: RequestBody)

  /** The JSON of the generation API's reply: unreadable, or the first candidate's text if any. */
  datatype ReplyData =
    | UnparsableReply(reason: string)
    | ReplyJson(text: Option<string>)

  /** The generation API's reply: no answer at all (with the transport's message), or a status and data. */
  datatype GeminiReply =
    | Unreachable(reason: string)
    | Answered(status: nat, data: ReplyData)

  /** The JSON object a response carries: none, the formatted content, or an error message. */
  datatype Payload =
    | NoPayload
    | FormattedPayload(formattedContent: string)
    | ErrorPayload(error: string)

  /** An HTTP response: status, headers in order, and payload. */
  datatype Response = Response(status: nat, headers: seq<Header>, payload: Payload)

  /** The call the function makes to the generation API: the URL and the prompt text it posts. */
  datatype GeminiCall = GeminiCall(url: string, prompt: string)

  /** What handling a request amounts to: the call made, if any, and the response. */
  datatype Outcome = Outcome(call: Option<GeminiCall>, response: Response)

  const MissingKeyMessage := "GEMINI_API_KEY not configured"
  const UpstreamErrorPrefix := "Gemini API error: "
  const NoContentMessage := "No content generated from Gemini API"
  const GeminiEndpoint := "https://generativelanguage.googleapis.com/v1beta/models/gemini-1.5-flash-latest:generateContent?key="

  // ---------------------------------------------------------------------------
  // Prompt
  // ---------------------------------------------------------------------------

  /**
   * The voice instruction for each tone. Each sentence is written as its
   * opening words plus the rest so that the verifier, which does not look
   * inside long literals, sees the letter each one starts with.
   */
  function Instruction(tone: Tone): string {
    match tone
    case Casual => "Keep it casual" + " and playful, but still readable and well-structured."
    case Professional => "Make it neutral" + "-professional, suitable for business documents."
    case Story => "Format it as" + " an engaging narrative with storytelling elements."
  }

  /** The fixed prompt text before the tone instruction (it ends with the "Tone" step). */
  const PromptHead := "You are a professional content formatter and editor.\n\nTake the following messy, unstructured, and casual content and transform it into a clean, properly formatted, well-organized text. Follow the steps below:\n\n### GOAL:\nMake it clear, grammatically correct, and presentable, while preserving the original meaning and tone unless instructed otherwise.\n\n---\n\n### INSTRUCTIONS:\n\n1. **Fix Grammar & Typos**: Correct spelling, grammar, and punctuation errors. Replace internet slang or shorthand (like \"u\", \"lol\", \"idk\", \"cuz\", \"btw\", \"tbh\") with appropriate professional language.\n\n2. **Structure into Paragraphs**: Break the long content into meaningful paragraphs for easier readability. Ensure each paragraph presents a clear idea.\n\n3. **Add Subheadings** (H2): If the content naturally shifts topics, insert relevant subheadings to guide the reader. Subheadings should be short and descriptive.\n\n4. **Format Sentences**: Keep the sentence length readable. Split run-on sentences into multiple ones where appropriate.\n\n5. **Smart Punctuation**: Use correct punctuation like em-dashes (\U{2014}), ellipses (\U{2026}) only when necessary, and smart quotes (\" \").\n\n6. **Tone**: "
  /** The fixed prompt text between the tone instruction and the content (it ends with the INPUT header). */
  const PromptMiddle := "\n\n7. **Optional Enhancements** (if natural):\n   - Add a brief introductory sentence at the top (1-2 lines).\n   - Add a conclusion/summary if the content seems to end abruptly.\n   - If the content sounds repetitive, condense it without losing the point.\n\n---\n\n### OUTPUT FORMAT:\n- Return clean HTML with proper tags (h2, p, strong, em).\n- Use h2 for subheadings.\n- Use proper paragraph tags.\n- No extra commentary \U{2014} just return the cleaned content.\n\n---\n\n### INPUT (Messy Text):\n"
  /** The fixed prompt text after the content. */
  const PromptTail := "\n\nPlease format this content according to the instructions above."

  /** The prompt sent for `content` in `tone`. */
  function Prompt(content: string, tone: Tone): string {
    PromptHead + Instruction(tone) + PromptMiddle + content + PromptTail
  }

  /** The tone whose instruction follows `head` in `prompt`, read off the instruction's first letter. */
  function ToneAfter(prompt: string, head: string): Option<Tone> {
    if |prompt| > |head| && prompt[..|head|] == head then
      match prompt[|head|]
      case 'K' => Some(Casual)
      case 'M' => Some(Professional)
      case 'F' => Some(Story)
      case _ => None
    else None
  }

  /** The text between `head`, the instruction, `middle` and `tail` in `prompt`. */
  function ContentAfter(prompt: string, head: string, middle: string, tail: string): Option<string> {
    match ToneAfter(prompt, head)
    case None => None
    case Some(tone) =>
      var start := |head| + |Instruction(tone)| + |middle|;
      if start + |tail| <= |prompt| then Some(prompt[start..|prompt| - |tail|]) else None
  }

  /** The tone a prompt was built for. */
  function ToneOfPrompt(prompt: string): Option<Tone> {
    ToneAfter(prompt, PromptHead)
  }

  /** The content a prompt carries after its INPUT header. */
  function ContentOfPrompt(prompt: string): Option<string> {
    ContentAfter(prompt, PromptHead, PromptMiddle, PromptTail)
  }

  /** Whatever the fixed text before it, the instruction names its tone. */
  lemma ReadBackTone(head: string, rest: string, tone: Tone)
    ensures ToneAfter(head + Instruction(tone) + rest, head) == Some(tone)
  {
    var p := head + Instruction(tone) + rest;
    assert p == head + (Instruction(tone) + rest);
    assert p[..|head|] == head;
    assert p[|head|] == Instruction(tone)[0];
  }

  /** Whatever the fixed text around them, the instruction and the content can be read back. */
  lemma ReadBackAnyTemplate(head: string, middle: string, tail: string, content: string, tone: Tone)
    ensures var p := head + Instruction(tone) + middle + content + tail;
            ToneAfter(p, head) == Some(tone) && ContentAfter(p, head, middle, tail) == Some(content)
  {
    var p := head + Instruction(tone) + middle + content + tail;
    assert p == head + Instruction(tone) + (middle + content + tail);
    ReadBackTone(head, middle + content + tail, tone);
    ConcatParts(head, Instruction(tone), middle, content, tail);
  }

  /**
   * The prompt carries exactly the instruction of its tone and the content
   * verbatim: both can be read back from it.
   */
  lemma PromptRoundTrip(content: string, tone: Tone)
    ensures ToneOfPrompt(Prompt(content, tone)) == Some(tone)
    ensures ContentOfPrompt(Prompt(content, tone)) == Some(content)
  {
    ReadBackAnyTemplate(PromptHead, PromptMiddle, PromptTail, content, tone);
  }

  /** Different contents or tones give different prompts. */
  lemma PromptInjective(c1: string, t1: Tone, c2: string, t2: Tone)
    requires Prompt(c1, t1) == Prompt(c2, t2)
    ensures c1 == c2 && t1 == t2
  {
    PromptRoundTrip(c1, t1);
    PromptRoundTrip(c2, t2);
  }

  // ---------------------------------------------------------------------------
  // Handler
  // ---------------------------------------------------------------------------

  /** A fetch response is `ok` exactly for a status in 200..299. */
  predicate IsOk(status: nat) {
    200 <= status <= 299
  }

  /**
   * What the function makes of the generation API's reply: the text, or the
   * message it throws. Only an ok reply with non-empty text succeeds.
   */
  function Receive(reply: GeminiReply): (r: Result<string, string>)
    ensures r.Success? <==>
              && reply.Answered? && IsOk(reply.status)
              && reply.data.ReplyJson? && reply.data.text.Some? && reply.data.text.value != ""
    ensures r.Success? ==> r.value == reply.data.text.value
  {
    match reply
    case Unreachable(reason) => Failure(reason)
    case Answered(status, data) =>
      if !IsOk(status) then Failure(UpstreamErrorPrefix + DecimalString(status))
      else
        match data
        case UnparsableReply(reason) => Failure(reason)
        case ReplyJson(text) =>
          if text.None? || text.value == "" then Failure(NoContentMessage) else Success(text.value)
  }

  /**
   * The guarded part of the handler: the call it makes, if any, and the
   * formatted text it ends with or the message of the error it throws.
   */
  function Attempt(body: RequestBody, apiKey: Option<string>, reply: GeminiReply): (a: (Option<GeminiCall>, Result<string, string>))
    ensures a.0.Some? <==> body.FormatRequest? && apiKey.Some? && apiKey.value != ""
    ensures a.0.None? ==> a.1.Failure?
    ensures a.0.Some? ==> a.1 == Receive(reply)
  {
    match body
    case MalformedBody(reason) => (None, Failure(reason))
    case FormatRequest(content, tone) =>
      if apiKey.None? || apiKey.value == "" then (None, Failure(MissingKeyMessage))
      else
        var call := GeminiCall(GeminiEndpoint + apiKey.value, Prompt(content, tone.GetOr(DefaultTone)));
        (Some(call), Receive(reply))
  }

  /**
   * The edge function. A preflight `OPTIONS` request is answered at once with
   * the cross-origin headers and no body. Any other request ends in 200 with
   * the formatted content, or in 500 with the error message, both as JSON;
   * only a well-formed request with a configured key reaches the generation
   * API, and the call it makes carries that key and the prompt for the
   * request's content and tone (professional by default).
   */
  function Handle(req: Request, apiKey: Option<string>, reply: GeminiReply): (o: Outcome)
    ensures req.httpMethod == "OPTIONS" ==> o == Outcome(None, Response(200, CorsHeaders, NoPayload))
    ensures req.httpMethod != "OPTIONS" ==>
              && o.response.headers == JsonHeaders
              && (o.response.status == 200 <==> o.response.payload.FormattedPayload?)
              && (o.response.status == 500 <==> o.response.payload.ErrorPayload?)
              && (o.response.status == 200 || o.response.status == 500)
    ensures o.response.payload.FormattedPayload? ==> o.call.Some? && o.response.payload.formattedContent != ""
    ensures o.call.Some? <==>
              && req.httpMethod != "OPTIONS" && req.body.FormatRequest?
              && apiKey.Some? && apiKey.value != ""
    ensures o.call.Some? ==>
              o.call.value == GeminiCall(GeminiEndpoint + apiKey.value,
                                         Prompt(req.body.content, req.body.tone.GetOr(DefaultTone)))
  {
    if req.httpMethod == "OPTIONS" then
      Outcome(None, Response(200, CorsHeaders, NoPayload))
    else
      var (call, result) := Attempt(req.body, apiKey, reply);
      match result
      case Success(text) => Outcome(call, Response(200, JsonHeaders, FormattedPayload(text)))
      case Failure(message) => Outcome(call, Response(500, JsonHeaders, ErrorPayload(message)))
  }

  // ---------------------------------------------------------------------------
  // Properties of the handler
  // ---------------------------------------------------------------------------

  /** The three tones have three different instructions. */
  lemma InstructionsDistinct(t1: Tone, t2: Tone)
    requires Instruction(t1) == Instruction(t2)
    ensures t1 == t2
  {
    ReadBackTone("", "", t1);
    ReadBackTone("", "", t2);
    assert "" + Instruction(t1) + "" == Instruction(t1);
    assert "" + Instruction(t2) + "" == Instruction(t2);
  }

  /** A request that names no tone is formatted in the professional voice. */
  lemma ToneDefaultsToProfessional(httpMethod: string, content: string, key: string, reply: GeminiReply)
    requires httpMethod != "OPTIONS" && key != ""
    ensures Handle(Request(httpMethod, FormatRequest(content, None)), Some(key), reply).call
            == Some(GeminiCall(GeminiEndpoint + key, Prompt(content, Professional)))
  {
  }

  /** A body that cannot be read fails with the parser's message, before the key is even looked at. */
  lemma MalformedBodyFails(httpMethod: string, reason: string, apiKey: Option<string>, reply: GeminiReply)
    requires httpMethod != "OPTIONS"
    ensures Handle(Request(httpMethod, MalformedBody(reason)), apiKey, reply)
            == Outcome(None, Response(500, JsonHeaders, ErrorPayload(reason)))
  {
  }

  /** Without a key (absent or empty) the function fails at once and calls nothing. */
  lemma MissingKeyFails(req: Request, apiKey: Option<string>, reply: GeminiReply)
    requires req.httpMethod != "OPTIONS" && req.body.FormatRequest?
    requires apiKey.None? || apiKey.value == ""
    ensures Handle(req, apiKey, reply) == Outcome(None, Response(500, JsonHeaders, ErrorPayload(MissingKeyMessage)))
  {
  }

  /**
   * A reply whose status is not ok fails with the status in the message, and
   * the status can be read back from the message.
   */
  lemma UpstreamStatusFails(req: Request, key: string, status: nat, data: ReplyData)
    requires req.httpMethod != "OPTIONS" && req.body.FormatRequest? && key != ""
    requires !IsOk(status)
    ensures var o := Handle(req, Some(key), Answered(status, data));
            && o.response == Response(500, JsonHeaders, ErrorPayload(UpstreamErrorPrefix + DecimalString(status)))
            && UpstreamErrorPrefix <= o.response.payload.error
            && IsDigits(o.response.payload.error[|UpstreamErrorPrefix|..])
            && ParseDecimal(o.response.payload.error[|UpstreamErrorPrefix|..]) == status
  {
    var message := UpstreamErrorPrefix + DecimalString(status);
    assert message[|UpstreamErrorPrefix|..] == DecimalString(status);
    ParseDecimalString(status);
  }

  /** An ok reply without text, or with empty text, fails with the no-content message. */
  lemma NoTextFails(req: Request, key: string, status: nat, text: Option<string>)
    requires req.httpMethod != "OPTIONS" && req.body.FormatRequest? && key != ""
    requires IsOk(status) && (text.None? || text.value == "")
    ensures Handle(req, Some(key), Answered(status, ReplyJson(text))).response
            == Response(500, JsonHeaders, ErrorPayload(NoContentMessage))
  {
  }

  /** An ok reply with text answers 200 with exactly that text as the formatted content. */
  lemma TextSucceeds(req: Request, key: string, status: nat, text: string)
    requires req.httpMethod != "OPTIONS" && req.body.FormatRequest? && key != ""
    requires IsOk(status) && text != ""
    ensures Handle(req, Some(key), Answered(status, ReplyJson(Some(text)))).response
            == Response(200, JsonHeaders, FormattedPayload(text))
  {
  }

  /** When no call is made, the reply of the generation API makes no difference. */
  lemma ReplyUnusedWithoutCall(req: Request, apiKey: Option<string>, r1: GeminiReply, r2: GeminiReply)
    requires Handle(req, apiKey, r1).call.None?
    ensures Handle(req, apiKey, r1) == Handle(req, apiKey, r2)
  {
  }

  /**
   * Every error response carries one of the handler's own messages or the
   * message of the failure it caught: the unreadable body, the missing key,
   * the transport failure, the status, the unreadable reply or the missing
   * text.
   */
  lemma ErrorMessages(req: Request, apiKey: Option<string>, reply: GeminiReply)
    requires Handle(req, apiKey, reply).response.payload.ErrorPayload?
    ensures var error := Handle(req, apiKey, reply).response.payload.error;
            || (req.body.MalformedBody? && error == req.body.reason)
            || error == MissingKeyMessage
            || (reply.Unreachable? && error == reply.reason)
            || (reply.Answered? && !IsOk(reply.status) && error == UpstreamErrorPrefix + DecimalString(reply.status))
            || (reply.Answered? && reply.data.UnparsableReply? && error == reply.data.reason)
            || error == NoContentMessage
  {
  }
}

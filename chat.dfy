/** The chatbot endpoint of `api/chat.ts`: CORS preflight, POST only, a per-client limit
    of ten requests a minute (with expired records swept first and rate headers on every
    POST), message validation and sanitising, then one call to the language model with a
    fixed event context. */
module Chat {
  import opened Wrappers
  import opened Strings
  import opened Http
  import opened RateLimit

  const RateLimitWindow: nat := 60 * 1000
  const MaxRequestsPerWindow: nat := 10
  const MaxMessageLength: nat := 500

  /** The instructions placed before every user message, as written in the source
      (including the spaces that end its first two lines and the indentation of the
      template literal). */
  const EventContext: string :=
    "You are a helpful assistant for the Maha Satchandi Mahayagya event. \n"
    + "    This is a spiritual event with donations, schedules, and updates. \n"
    + "    Answer questions about the event, donation process, schedules, and general information.\n"
    + "    Keep responses concise and helpful."

  /** The `X-RateLimit-*` headers: the limit, the remaining count as text, and the reset
      time (sent as an ISO date). */
  datatype RateHeaders = RateHeaders(limit: string, remaining: string, resetTime: int)

  datatype ChatBody =
    | Preflight
    | MethodNotAllowed
    | TooManyRequests(retryAfter: int)
    | MessageRequired
    | MessageTooLong
    | KeyMissing
    | Reply(text: string)
    | GenerationFailed(details: string, apiKeyConfigured: bool)

  /** A response: the rate headers (set on every POST) and the body. */
  datatype ChatResponse = ChatResponse(headers: Option<RateHeaders>, body: ChatBody)

  function Status(b: ChatBody): (code: nat)
    ensures code == 200 <==> b.Preflight? || b.Reply?
  {
    match b
    case Preflight => 200
    case MethodNotAllowed => 405
    case TooManyRequests(_) => 429
    case MessageRequired => 400
    case MessageTooLong => 400
    case KeyMissing => 500
    case Reply(_) => 200
    case GenerationFailed(_, _) => 500
  }

  /** `message.trim().slice(0, 500)`. */
  function Sanitize(message: string): (r: string)
    ensures |r| <= MaxMessageLength && |r| <= |Trim(message)| && r == Trim(message)[..|r|]
    ensures |Trim(message)| <= MaxMessageLength ==> r == Trim(message)
  {
    Take(Trim(message), MaxMessageLength)
  }

  /** A message that passed the length check is only trimmed: the slice never cuts it. */
  lemma SanitizeOfAcceptedIsTrim(message: string)
    requires |message| <= MaxMessageLength
    ensures Sanitize(message) == Trim(message)
  {
  }

  /** The text sent to the model. */
  function Prompt(sanitized: string): (p: string)
    ensures |p| == |EventContext| + 8 + |sanitized|
    ensures p[..|EventContext|] == EventContext
    ensures p[|p| - |sanitized|..] == sanitized
  {
    var p := EventContext + "\n\nUser: " + sanitized;
    assert p[|p| - |sanitized|..] == sanitized;
    p
  }

  /** The model is always given the full event context, and the user's text is recovered
      from the prompt: two different messages never share a prompt. */
  lemma PromptInjective(a: string, b: string)
    requires Prompt(a) == Prompt(b)
    ensures a == b
  {
    var head := EventContext + "\n\nUser: ";
    assert Prompt(a) == head + a && Prompt(b) == head + b;
    assert a == Prompt(a)[|head|..];
    assert b == Prompt(b)[|head|..];
  }

  /** What the endpoint answers to a POST the rate limiter let through. `apiKey` is the
      `GEMINI_API_KEY` setting; `generate` stands for the model, giving its reply text or
      the message of the error it throws. */
  function AfterRateLimit(field: BodyField, apiKey: string, generate: string -> Result<string, string>): (b: ChatBody)
    ensures b.Reply? <==> field.Str? && field.s != [] && |field.s| <= MaxMessageLength && apiKey != []
                          && generate(Prompt(Sanitize(field.s))).Ok?
    ensures b.Reply? ==> b.text == generate(Prompt(Trim(field.s))).value
    ensures b == MessageRequired <==> field.Missing? || field.NonString? || field == Str("")
    ensures b == MessageTooLong <==> field.Str? && |field.s| > MaxMessageLength
    ensures b == KeyMissing <==> field.Str? && field.s != [] && |field.s| <= MaxMessageLength && apiKey == []
    ensures field.NoBody? ==> b == GenerationFailed(field.error, apiKey != [])
    ensures field.Str? && field.s != [] && |field.s| <= MaxMessageLength && apiKey != []
            && generate(Prompt(Trim(field.s))).Err? ==>
            b == GenerationFailed(generate(Prompt(Trim(field.s))).error, true)
    ensures b.GenerationFailed? ==> (b.apiKeyConfigured <==> apiKey != [])
    ensures b.GenerationFailed? && !field.NoBody? ==> b.apiKeyConfigured
  {
    match field
    case NoBody(error) => GenerationFailed(error, apiKey != [])
    case Missing => MessageRequired
    case NonString => MessageRequired
    case Str(message) =>
      if message == [] then MessageRequired
      else if |message| > MaxMessageLength then MessageTooLong
      else
        var sanitizedMessage := Sanitize(message);
        SanitizeOfAcceptedIsTrim(message);
        if apiKey == [] then KeyMissing
        else
          match generate(Prompt(sanitizedMessage))
          case Ok(text) => Reply(text)
          case Err(error) => GenerationFailed(error, true)
  }

  /** The chat handler. OPTIONS and methods other than POST leave the limiter alone. A
      POST sweeps expired records, is counted against its client, carries the rate
      headers, and is refused with the seconds left (rounded up) when the window is full. */
  method Handle(limiter: RateLimiter, req: Request, now: int, apiKey: string,
                generate: string -> Result<string, string>)
    returns (resp: ChatResponse)
    requires limiter.max == MaxRequestsPerWindow && limiter.window == RateLimitWindow
    modifies limiter
    ensures req.httpMethod == "OPTIONS" ==>
              resp == ChatResponse(None, Preflight) && limiter.entries == old(limiter.entries)
    ensures req.httpMethod != "OPTIONS" && req.httpMethod != "POST" ==>
              resp == ChatResponse(None, MethodNotAllowed) && limiter.entries == old(limiter.entries)
    ensures req.httpMethod == "POST" ==>
              var ip := ClientIp(req.forwardedFor, req.realIp);
              var (d, e) := WindowCheck(old(limiter.Lookup(ip)), now, MaxRequestsPerWindow, RateLimitWindow);
              && limiter.entries == Sweep(old(limiter.entries), now)[ip := e]
              && resp.headers == Some(RateHeaders(IntToString(MaxRequestsPerWindow), IntToString(d.remaining), d.resetTime))
              && resp.body == if d.allowed then AfterRateLimit(req.field, apiKey, generate)
                              else TooManyRequests(CeilDiv(d.resetTime - now, 1000))
  {
    if req.httpMethod == "OPTIONS" {
      return ChatResponse(None, Preflight);
    }
    if req.httpMethod != "POST" {
      return ChatResponse(None, MethodNotAllowed);
    }
    var clientIp := ClientIp(req.forwardedFor, req.realIp);
    ghost var before := limiter.entries;
    limiter.Cleanup(now);
    SweepPreservesDecision(before, clientIp, now, MaxRequestsPerWindow, RateLimitWindow);
    var rateLimit := limiter.Check(clientIp, now);
    var headers := RateHeaders(IntToString(MaxRequestsPerWindow), IntToString(rateLimit.remaining), rateLimit.resetTime);
    if !rateLimit.allowed {
      var retryAfter := CeilDiv(rateLimit.resetTime - now, 1000);
      return ChatResponse(Some(headers), TooManyRequests(retryAfter));
    }
    resp := ChatResponse(Some(headers), AfterRateLimit(req.field, apiKey, generate));
  }

  /** A message of blanks passes validation and reaches the model as an empty user line. */
  lemma BlankMessageReachesModel(message: string, apiKey: string, generate: string -> Result<string, string>)
    requires message != [] && |message| <= MaxMessageLength && AllWhitespace(message) && apiKey != []
    requires generate(Prompt("")).Ok?
    ensures AfterRateLimit(Str(message), apiKey, generate) == Reply(generate(Prompt("")).value)
  {
    assert Trim(message) == [];
  }
}

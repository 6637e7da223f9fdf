/**
 * `lambda_handler` of lambda/index.py: a chat request is answered by the primary
 * generation endpoint (FASTAPI_URL) when it is configured and reachable, and otherwise
 * by the managed model service (Bedrock), whose client is created lazily once per process.
 * The two network calls are abstract inputs; the calls the handler makes are recorded.
 */
module Handler {
  import opened Wrappers
  import Arn

  // ---------------------------------------------------------------- configuration

  const DefaultModelId: string := "us.amazon.nova-lite-v1:0"
  const BedrockService: string := "bedrock-runtime"
  const PrimaryTimeoutSeconds: nat := 30
  const PrimaryMaxNewTokens: nat := 256
  const SecondaryMaxTokens: nat := 512

  /** Process configuration, read from the environment when the module is loaded. */
  datatype Config = Config(fastapiUrl: string, modelId: string)

  /** Python's `s.rstrip("/")`: drop every trailing '/'. */
  function RStripSlash(s: string): (r: string)
    decreases |s|
    ensures |r| <= |s| && r == s[..|r|]
    ensures forall k :: |r| <= k < |s| ==> s[k] == '/'
    ensures r == "" || r[|r| - 1] != '/'
    ensures r != "" <==> exists k :: 0 <= k < |s| && s[k] != '/'
  {
    if |s| > 0 && s[|s| - 1] == '/' then RStripSlash(s[..|s| - 1]) else s
  }

  /** `os.getenv(key, default)`. */
  function GetEnv(env: map<string, string>, key: string, default: string): string {
    if key in env then env[key] else default
  }

  /** The module-level constants FASTAPI_URL and MODEL_ID. FASTAPI_URL is the variable with
      its trailing slashes removed, or "" when it is unset, so the primary endpoint counts as
      configured exactly when the variable is set and holds something other than slashes;
      an unset MODEL_ID falls back to the default model, a set one is taken as it is. */
  function LoadConfig(env: map<string, string>): (c: Config)
    ensures "FASTAPI_URL" in env ==> c.fastapiUrl == RStripSlash(env["FASTAPI_URL"])
    ensures "FASTAPI_URL" !in env ==> c.fastapiUrl == ""
    ensures c.fastapiUrl != "" <==>
      "FASTAPI_URL" in env && exists k :: 0 <= k < |env["FASTAPI_URL"]| && env["FASTAPI_URL"][k] != '/'
    ensures "MODEL_ID" in env ==> c.modelId == env["MODEL_ID"]
    ensures "MODEL_ID" !in env ==> c.modelId == DefaultModelId
  {
    Config(RStripSlash(GetEnv(env, "FASTAPI_URL", "")), GetEnv(env, "MODEL_ID", DefaultModelId))
  }

  // ---------------------------------------------------------------- data

  /** One entry of the conversation history. */
  datatype Turn = Turn(role: string, content: string)

  /** The event's `requestContext.authorizer`: absent or falsy (the lookup is skipped),
      present with a `claims` block, or truthy with no `claims` to read (a non-empty dict
      without the key raises KeyError, any other truthy value raises TypeError). */
  datatype Authorizer = NoAuthorizer | WithClaims | WithoutClaims

  /** The body's `message` field: absent, a string, or a value that `message[:120]` cannot
      slice (a number, a boolean, `null`, an object). */
  datatype MessageField = NoMessage | Text(text: string) | NotSliceable

  /** The body's `conversationHistory` field: absent (it defaults to `[]`), a list of turns,
      or some other value (`null`, a string, an object) that has no `append`. */
  datatype HistoryField = NoHistory | TurnList(turns: seq<Turn>) | NotAList {
    /** The turns to extend, when the field can be appended to. */
    function Turns(): seq<Turn> {
      if TurnList? then turns else []
    }
  }

  /** The decoded `event["body"]`: either missing, not JSON or not a JSON object, or an
      object with its `message` and `conversationHistory` fields. */
  datatype RequestBody =
    | Undecodable
    | Decoded(message: MessageField, conversationHistory: HistoryField)

  /** What the POST to the primary endpoint ends in: a decoded reply object whose
      `generated_text` and `text` fields may be absent; a URLError, HTTPError or
      TimeoutError; or any other exception (a body that is not JSON, for one). */
  datatype PrimaryOutcome =
    | PrimaryReplied(generatedText: Option<string>, text: Option<string>)
    | PrimaryUnreachable
    | PrimaryCrashed

  /** One element of a Bedrock message's `content` list. */
  datatype ContentBlock = TextBlock(text: string) | OtherBlock

  /** What `invoke_model` ends in: it raises; it returns a body whose
      `output.message.content` is the given list; or it returns a body without that path. */
  datatype SecondaryOutcome =
    | InvokeFailed
    | SecondaryReplied(content: seq<ContentBlock>)
    | ReplyWithoutMessage

  datatype Client = Client(service: string, region: string)

  datatype PrimaryRequest = PrimaryRequest(prompt: string, maxNewTokens: nat, doSample: bool)
  datatype BedrockMessage = BedrockMessage(role: string, content: seq<ContentBlock>)
  datatype SecondaryRequest = SecondaryRequest(messages: seq<BedrockMessage>, maxTokens: nat)

  /** An external call the handler makes. */
  datatype Call =
    | PostPrimary(url: string, request: PrimaryRequest, timeoutSeconds: nat)
    | CreateClient(client: Client)
    | InvokeModel(region: string, modelId: string, payload: SecondaryRequest)

  /** The exception that escapes the handler (there is no handler-level catch). */
  datatype Failure =
    | ClaimsMissing
    | BodyNotDecodable
    | MessageMissing
    | MessageNotText
    | PrimaryRaised
    | SecondaryRaised
    | SecondaryReplyMalformed
    | HistoryNotAppendable

  datatype ResponseBody = ResponseBody(success: bool, response: string, conversationHistory: seq<Turn>, via: string)
  datatype Response = Response(statusCode: int, headers: seq<(string, string)>, body: ResponseBody)
  datatype Outcome = Returned(response: Response) | Raised(failure: Failure)

  /** The inputs of one invocation: the event's authorizer and body,
      `context.invoked_function_arn`, and what the two backends would answer. */
  datatype Invocation = Invocation(
    authorizer: Authorizer, body: RequestBody, invokedFunctionArn: string,
    primary: PrimaryOutcome, secondary: SecondaryOutcome)

  /** What one invocation does: its outcome, the external calls it makes in order, and the
      process-wide Bedrock client afterwards. */
  datatype Effect = Effect(outcome: Outcome, calls: seq<Call>, client: Option<Client>)

  // ---------------------------------------------------------------- the pieces

  function PrimaryRequestFor(message: string): PrimaryRequest {
    PrimaryRequest(message, PrimaryMaxNewTokens, true)
  }

  function SecondaryRequestFor(message: string): SecondaryRequest {
    SecondaryRequest([BedrockMessage("user", [TextBlock(message)])], SecondaryMaxTokens)
  }

  /** The CORS headers of every returned response, as name/value pairs in the order the
      handler's dict literal lists them. */
  function CorsHeaders(): seq<(string, string)> {
    [
      ("Content-Type", "application/json"),
      ("Access-Control-Allow-Origin", "*"),
      ("Access-Control-Allow-Headers", "Content-Type,X-Amz-Date,Authorization,X-Api-Key,X-Amz-Security-Token"),
      ("Access-Control-Allow-Methods", "OPTIONS,POST")
    ]
  }

  /** `resp_json.get("generated_text") or resp_json.get("text", "")`: a non-empty
      `generated_text` wins, otherwise `text`, otherwise the empty string. */
  function PrimaryReply(generatedText: Option<string>, text: Option<string>): (r: string)
    ensures generatedText.Some? && generatedText.value != "" ==> r == generatedText.value
    ensures (generatedText.None? || generatedText.value == "") && text.Some? ==> r == text.value
    ensures (generatedText.None? || generatedText.value == "") && text.None? ==> r == ""
  {
    match generatedText
    case Some(g) => if g != "" then g else text.GetOr("")
    case None => text.GetOr("")
  }

  /** `bed_json["output"]["message"]["content"][0]["text"]`, or the exception it raises. */
  function SecondaryReply(o: SecondaryOutcome): (r: Result<string, Failure>)
    ensures r.Ok? <==> o.SecondaryReplied? && |o.content| > 0 && o.content[0].TextBlock?
    ensures r.Ok? ==> r.value == o.content[0].text
    ensures o.InvokeFailed? ==> r == Err(SecondaryRaised)
    ensures !o.InvokeFailed? && !r.Ok? ==> r == Err(SecondaryReplyMalformed)
  {
    match o
    case InvokeFailed => Err(SecondaryRaised)
    case ReplyWithoutMessage => Err(SecondaryReplyMalformed)
    case SecondaryReplied(content) =>
      if |content| > 0 && content[0].TextBlock? then Ok(content[0].text) else Err(SecondaryReplyMalformed)
  }

  /** The handler gets past reading the event: the claims lookup, the body decoding and
      the message slice all succeed. */
  predicate Decodes(inv: Invocation) {
    !inv.authorizer.WithoutClaims? && inv.body.Decoded? && inv.body.message.Text?
  }

  /** The primary endpoint is skipped or failed with a network-class error, so the handler
      goes on to Bedrock. */
  predicate FallsBack(cfg: Config, primary: PrimaryOutcome) {
    cfg.fastapiUrl == "" || primary.PrimaryUnreachable?
  }

  /** The invocation reaches the Bedrock branch: the request decoded, and either no
      primary endpoint is configured or the primary failed with a network-class error. */
  predicate TakesFallback(cfg: Config, inv: Invocation) {
    Decodes(inv) && FallsBack(cfg, inv.primary)
  }

  function Via(usedFallback: bool): string {
    if usedFallback then "bedrock" else "fastapi"
  }

  /** The 200 envelope: the reply, the history with the assistant turn appended, the tag. */
  function Envelope(history: seq<Turn>, reply: string, usedFallback: bool): Response {
    Response(200, CorsHeaders(), ResponseBody(true, reply, history + [Turn("assistant", reply)], Via(usedFallback)))
  }

  /** The append and the envelope (lambda/index.py:121-140): a history that is not a list
      raises at `append`; otherwise the reply comes back with status 200, `success`, the
      CORS headers, the history extended by one assistant turn, and the backend's tag. */
  function Answer(history: HistoryField, reply: string, usedFallback: bool): (r: Outcome)
    ensures history.NotAList? ==> r == Raised(HistoryNotAppendable)
    ensures !history.NotAList? ==>
      && r.Returned?
      && r.response.statusCode == 200
      && r.response.headers == CorsHeaders()
      && r.response.body.success
      && r.response.body.response == reply
      && r.response.body.conversationHistory == history.Turns() + [Turn("assistant", reply)]
      && r.response.body.via == (if usedFallback then "bedrock" else "fastapi")
  {
    if history.NotAList? then Raised(HistoryNotAppendable)
    else Returned(Envelope(history.Turns(), reply, usedFallback))
  }

  // ---------------------------------------------------------------- one invocation

  /** What the Bedrock branch yields: the reply or the failure to raise, the calls it made,
      and the process's client afterwards. */
  datatype BedrockStep = BedrockStep(reply: Result<string, Failure>, calls: seq<Call>, client: Option<Client>)

  /** The Bedrock branch: create the client if the process has none, with the region of
      this invocation's ARN; invoke the model once; take its reply or its failure. */
  function Fallback(cfg: Config, client: Option<Client>, message: string, arn: string,
                    secondary: SecondaryOutcome): (b: BedrockStep)
    ensures client.Some? ==> b.client == client
    ensures client.None? ==> b.client == Some(Client(BedrockService, Arn.ExtractRegion(arn)))
    ensures b.client.Some?
    ensures |b.calls| == (if client.None? then 2 else 1)
    ensures client.None? ==> b.calls[0] == CreateClient(b.client.value)
    ensures b.calls[|b.calls| - 1] == InvokeModel(b.client.value.region, cfg.modelId, SecondaryRequestFor(message))
    ensures b.reply == SecondaryReply(secondary)
  {
    var bedrock := if client.Some? then client.value
                   else Client(BedrockService, Arn.ExtractRegion(arn));
    var calls := (if client.Some? then [] else [CreateClient(bedrock)])
                 + [InvokeModel(bedrock.region, cfg.modelId, SecondaryRequestFor(message))];
    BedrockStep(SecondaryReply(secondary), calls, Some(bedrock))
  }

  /** The outcome once a reply is in hand, or the failure the backend raised. */
  function Conclude(history: HistoryField, reply: Result<string, Failure>, usedFallback: bool): Outcome {
    match reply
    case Ok(text) => Answer(history, text, usedFallback)
    case Err(f) => Raised(f)
  }

  /** Routing once the request is decoded: POST to the primary when configured; use its
      reply (even an empty one); let a non-network exception escape; fall back otherwise. */
  function Serve(cfg: Config, client: Option<Client>, message: string, history: HistoryField,
                 arn: string, primary: PrimaryOutcome, secondary: SecondaryOutcome): (e: Effect)
    // The primary is asked first when it is configured.
    ensures cfg.fastapiUrl != "" ==>
      |e.calls| > 0 && e.calls[0] == PostPrimary(cfg.fastapiUrl, PrimaryRequestFor(message), PrimaryTimeoutSeconds)
    // A primary reply is used as it is, even the empty one; nothing falls back.
    ensures cfg.fastapiUrl != "" && primary.PrimaryReplied? ==>
      && e.outcome == Answer(history, PrimaryReply(primary.generatedText, primary.text), false)
      && e.client == client
      && |e.calls| == 1
    // Any other primary exception escapes; Bedrock is not tried.
    ensures cfg.fastapiUrl != "" && primary.PrimaryCrashed? ==>
      e.outcome == Raised(PrimaryRaised) && e.client == client && |e.calls| == 1
    // Otherwise the Bedrock branch runs once, after the primary request if there was one,
    // and its reply is answered or its failure raised.
    ensures FallsBack(cfg, primary) ==>
      var b := Fallback(cfg, client, message, arn, secondary);
      && e.outcome == Conclude(history, b.reply, true)
      && e.client == b.client
      && e.calls == (if cfg.fastapiUrl != "" then [e.calls[0]] else []) + b.calls
  {
    var configured := cfg.fastapiUrl != "";
    var primaryCalls :=
      if configured then [PostPrimary(cfg.fastapiUrl, PrimaryRequestFor(message), PrimaryTimeoutSeconds)] else [];
    if configured && primary.PrimaryCrashed? then
      Effect(Raised(PrimaryRaised), primaryCalls, client)
    else if configured && primary.PrimaryReplied? then
      Effect(Answer(history, PrimaryReply(primary.generatedText, primary.text), false), primaryCalls, client)
    else
      var b := Fallback(cfg, client, message, arn, secondary);
      Effect(Conclude(history, b.reply, true), primaryCalls + b.calls, b.client)
  }

  /** The order of the calls: the primary only first and only when configured; Bedrock only
      on the fallback path and last; a client created only there, when the process had
      none, just before that invocation. A returned envelope is tagged `bedrock` exactly
      when the fallback was taken. */
  lemma ServeCallOrder(cfg: Config, client: Option<Client>, message: string, history: HistoryField,
                       arn: string, primary: PrimaryOutcome, secondary: SecondaryOutcome)
    ensures var e := Serve(cfg, client, message, history, arn, primary, secondary);
      && (forall k :: 0 <= k < |e.calls| && e.calls[k].PostPrimary? ==> k == 0 && cfg.fastapiUrl != "")
      && (forall k :: 0 <= k < |e.calls| && e.calls[k].InvokeModel? ==> FallsBack(cfg, primary) && k == |e.calls| - 1)
      && (forall k :: 0 <= k < |e.calls| && e.calls[k].CreateClient? ==>
            FallsBack(cfg, primary) && client.None? && k == |e.calls| - 2)
      && (!FallsBack(cfg, primary) ==> e.client == client)
      && (e.outcome.Returned? ==> (e.outcome.response.body.via == "bedrock" <==> FallsBack(cfg, primary)))
  {
    var e := Serve(cfg, client, message, history, arn, primary, secondary);
    if FallsBack(cfg, primary) {
      var b := Fallback(cfg, client, message, arn, secondary);
      var p := if cfg.fastapiUrl != "" then 1 else 0;
      assert forall k :: p <= k < |e.calls| ==> e.calls[k] == b.calls[k - p];
    }
  }

  /** The lazy `bedrock_client` after one invocation: kept once set; otherwise created, with
      the region of this invocation's ARN, exactly when the invocation falls back. */
  function NextClient(cfg: Config, client: Option<Client>, inv: Invocation): (next: Option<Client>)
    ensures client.Some? ==> next == client
    ensures client.None? && TakesFallback(cfg, inv) ==>
      next == Some(Client(BedrockService, Arn.ExtractRegion(inv.invokedFunctionArn)))
    ensures client.None? && !TakesFallback(cfg, inv) ==> next == None
  {
    if client.Some? || !TakesFallback(cfg, inv) then client
    else Some(Client(BedrockService, Arn.ExtractRegion(inv.invokedFunctionArn)))
  }

  /** What one call of `lambda_handler` does, given the configuration and the client the
      process holds beforehand. */
  function Invoke(cfg: Config, client: Option<Client>, inv: Invocation): (e: Effect)
    // A missing claims block, a body that is not an object, or a missing or unsliceable
    // message raises before any call is made, in the order the handler reads them.
    ensures !Decodes(inv) ==> e.calls == [] && e.client == client && e.outcome.Raised?
    ensures inv.authorizer.WithoutClaims? ==> e.outcome == Raised(ClaimsMissing)
    ensures !inv.authorizer.WithoutClaims? && inv.body.Undecodable? ==> e.outcome == Raised(BodyNotDecodable)
    ensures !inv.authorizer.WithoutClaims? && inv.body.Decoded? ==>
      && (inv.body.message.NoMessage? ==> e.outcome == Raised(MessageMissing))
      && (inv.body.message.NotSliceable? ==> e.outcome == Raised(MessageNotText))
    // A decoded request is routed with its message and its history field.
    ensures Decodes(inv) ==>
      e == Serve(cfg, client, inv.body.message.text, inv.body.conversationHistory,
                 inv.invokedFunctionArn, inv.primary, inv.secondary)
    // The process's client afterwards follows the lazy-initialisation rule, whatever
    // Bedrock then answers.
    ensures e.client == NextClient(cfg, client, inv)
    // Every returned envelope extends the input history by the assistant turn carrying the
    // reply, and its tag names the backend that answered.
    ensures e.outcome.Returned? ==>
      var r := e.outcome.response;
      && Decodes(inv)
      && !inv.body.conversationHistory.NotAList?
      && r.statusCode == 200
      && r.headers == CorsHeaders()
      && r.body.success
      && r.body.conversationHistory == inv.body.conversationHistory.Turns() + [Turn("assistant", r.body.response)]
      && (r.body.via == "bedrock" <==> TakesFallback(cfg, inv))
  {
    if inv.authorizer.WithoutClaims? then Effect(Raised(ClaimsMissing), [], client)
    else
      match inv.body
      case Undecodable => Effect(Raised(BodyNotDecodable), [], client)
      case Decoded(field, history) =>
        if field.NoMessage? then Effect(Raised(MessageMissing), [], client)
        else if field.NotSliceable? then Effect(Raised(MessageNotText), [], client)
        else Serve(cfg, client, field.text, history, inv.invokedFunctionArn, inv.primary, inv.secondary)
  }

  /** The calls of one invocation, in order: the primary at most once, first, and only when
      it is configured and the request decoded; the model at most once, last, and only on the
      fallback path; a client created at most once, just before that, by a cold process. */
  lemma InvokeCallOrder(cfg: Config, client: Option<Client>, inv: Invocation)
    ensures var e := Invoke(cfg, client, inv);
      && (forall k :: 0 <= k < |e.calls| && e.calls[k].PostPrimary? ==>
            k == 0 && Decodes(inv) && cfg.fastapiUrl != "")
      && (forall k :: 0 <= k < |e.calls| && e.calls[k].InvokeModel? ==>
            TakesFallback(cfg, inv) && k == |e.calls| - 1)
      && (forall k :: 0 <= k < |e.calls| && e.calls[k].CreateClient? ==>
            TakesFallback(cfg, inv) && client.None? && k == |e.calls| - 2)
  {
    if Decodes(inv) {
      ServeCallOrder(cfg, client, inv.body.message.text, inv.body.conversationHistory,
                     inv.invokedFunctionArn, inv.primary, inv.secondary);
    }
  }

  /** The history of a returned envelope is the input history plus one assistant turn. */
  lemma HistoryGrowsByOne(cfg: Config, client: Option<Client>, inv: Invocation)
    requires Invoke(cfg, client, inv).outcome.Returned?
    ensures var h := inv.body.conversationHistory.Turns();
            var r := Invoke(cfg, client, inv).outcome.response.body;
            && |r.conversationHistory| == |h| + 1
            && r.conversationHistory[..|h|] == h
            && r.conversationHistory[|h|] == Turn("assistant", r.response)
  {
  }

  /** A configured, healthy primary answering "hello" to "hi" with an empty history. */
  lemma ExamplePrimaryAnswers(client: Option<Client>, arn: string, secondary: SecondaryOutcome)
    ensures var e := Invoke(Config("https://example.ngrok.app/generate", DefaultModelId), client,
                            Invocation(NoAuthorizer, Decoded(Text("hi"), TurnList([])), arn, PrimaryReplied(Some("hello"), None), secondary));
            e.outcome == Returned(Response(200, CorsHeaders(),
                                  ResponseBody(true, "hello", [Turn("assistant", "hello")], "fastapi")))
            && e.client == client
  {
  }

  /** A cold process with no primary endpoint: Bedrock answers, from the ARN's region. */
  lemma ExampleColdFallback(history: seq<Turn>)
    ensures var e := Invoke(Config("", DefaultModelId), None,
                            Invocation(NoAuthorizer, Decoded(Text("hi"), TurnList(history)), "arn:aws:lambda:eu-west-1:123:function:f",
                                       PrimaryUnreachable, SecondaryReplied([TextBlock("hello")])));
            && e.outcome == Returned(Envelope(history, "hello", true))
            && e.client == Some(Client(BedrockService, "eu-west-1"))
            && e.calls == [CreateClient(Client(BedrockService, "eu-west-1")),
                           InvokeModel("eu-west-1", DefaultModelId, SecondaryRequestFor("hi"))]
  {
    Arn.ExampleRegion();
  }

  /** A `null` history is only noticed at the append: by then the cold process has created
      its client and Bedrock has been called, and the handler still raises. */
  lemma ExampleNullHistoryAfterFallback()
    ensures var e := Invoke(Config("", DefaultModelId), None,
                            Invocation(WithClaims, Decoded(Text("hi"), NotAList), "arn:aws:lambda:eu-west-1:123:function:f",
                                       PrimaryUnreachable, SecondaryReplied([TextBlock("hello")])));
            && e.outcome == Raised(HistoryNotAppendable)
            && e.client == Some(Client(BedrockService, "eu-west-1"))
            && e.calls == [CreateClient(Client(BedrockService, "eu-west-1")),
                           InvokeModel("eu-west-1", DefaultModelId, SecondaryRequestFor("hi"))]
  {
    Arn.ExampleRegion();
  }

  // ---------------------------------------------------------------- the process

  /** One warm Lambda process: the module's constants and its global `bedrock_client`. */
  class LambdaProcess {
    const fastapiUrl: string
    const modelId: string
    var bedrockClient: Option<Client>

    /** Loading the module: constants from the environment, no Bedrock client yet. */
    constructor (env: map<string, string>)
      ensures Config(fastapiUrl, modelId) == LoadConfig(env)
      ensures bedrockClient == None
    {
      var cfg := LoadConfig(env);
      fastapiUrl := cfg.fastapiUrl;
      modelId := cfg.modelId;
      bedrockClient := None;
    }

    /** `lambda_handler(event, context)`, with the event's authorizer and body already
        decoded and the two backends' answers given. `calls` records the external calls in
        the order made. */
    method Handle(authorizer: Authorizer, body: RequestBody, invokedFunctionArn: string,
                  primary: PrimaryOutcome, secondary: SecondaryOutcome)
      returns (outcome: Outcome, ghost calls: seq<Call>)
      modifies this
      ensures Effect(outcome, calls, bedrockClient) ==
        Invoke(Config(fastapiUrl, modelId), old(bedrockClient),
               Invocation(authorizer, body, invokedFunctionArn, primary, secondary))
      ensures old(bedrockClient).Some? ==> bedrockClient == old(bedrockClient)
    {
      calls := [];
      if authorizer.WithoutClaims? {
        return Raised(ClaimsMissing), calls;
      }
      if body.Undecodable? {
        return Raised(BodyNotDecodable), calls;
      }
      if body.message.NoMessage? {
        return Raised(MessageMissing), calls;
      }
      var conversationHistory := body.conversationHistory;
      if body.message.NotSliceable? {
        return Raised(MessageNotText), calls;
      }
      outcome, calls := Route(body.message.text, conversationHistory, invokedFunctionArn, primary, secondary);
    }

    /** The handler from the first backend call on (lambda/index.py:59-140): ask the
        primary, fall back to Bedrock, append the reply and build the envelope. */
    method Route(message: string, conversationHistory: HistoryField, invokedFunctionArn: string,
                 primary: PrimaryOutcome, secondary: SecondaryOutcome)
      returns (outcome: Outcome, ghost calls: seq<Call>)
      modifies this
      ensures Effect(outcome, calls, bedrockClient) ==
        Serve(Config(fastapiUrl, modelId), old(bedrockClient), message, conversationHistory,
              invokedFunctionArn, primary, secondary)
    {
      calls := [];
      var assistantResponse := "";
      var usedFallback := false;
      if fastapiUrl != "" {
        calls := [PostPrimary(fastapiUrl, PrimaryRequestFor(message), PrimaryTimeoutSeconds)];
        match primary
        case PrimaryReplied(generatedText, text) =>
          assistantResponse := PrimaryReply(generatedText, text);
        case PrimaryUnreachable =>
          usedFallback := true;
        case PrimaryCrashed =>
          return Raised(PrimaryRaised), calls;
      } else {
        usedFallback := true;
      }

      if usedFallback {
        var reply, bedrockCalls := CallBedrock(message, invokedFunctionArn, secondary);
        calls := calls + bedrockCalls;
        if reply.Err? {
          return Raised(reply.error), calls;
        }
        assistantResponse := reply.value;
      }

      if conversationHistory.NotAList? {
        return Raised(HistoryNotAppendable), calls;
      }
      var turns := conversationHistory.Turns() + [Turn("assistant", assistantResponse)];
      outcome := Returned(Response(200, CorsHeaders(),
        ResponseBody(true, assistantResponse, turns, Via(usedFallback))));
    }

    /** The Bedrock branch of the handler: build `bedrock_client` on first use, with the
        region of this invocation's ARN, then invoke the model once and read its reply. */
    method CallBedrock(message: string, invokedFunctionArn: string, secondary: SecondaryOutcome)
      returns (reply: Result<string, Failure>, ghost calls: seq<Call>)
      modifies this
      ensures BedrockStep(reply, calls, bedrockClient) ==
        Fallback(Config(fastapiUrl, modelId), old(bedrockClient), message, invokedFunctionArn, secondary)
      ensures old(bedrockClient).Some? ==> bedrockClient == old(bedrockClient)
    {
      calls := [];
      if bedrockClient.None? {
        var region := Arn.ExtractRegion(invokedFunctionArn);
        bedrockClient := Some(Client(BedrockService, region));
        calls := [CreateClient(bedrockClient.value)];
      }
      calls := calls + [InvokeModel(bedrockClient.value.region, modelId, SecondaryRequestFor(message))];
      reply := SecondaryReply(secondary);
    }
  }

  // ---------------------------------------------------------------- across invocations

  /** The Bedrock client a process holds after serving `invs` in order from a cold start
      (each invocation's `Invoke(...).client` is its `NextClient`). */
  function Lifetime(cfg: Config, invs: seq<Invocation>): Option<Client>
    decreases |invs|
  {
    if invs == [] then None
    else NextClient(cfg, Lifetime(cfg, invs[..|invs| - 1]), invs[|invs| - 1])
  }

  /** Invocation `k` is the first of `invs` to reach the Bedrock branch. */
  ghost predicate IsFirstFallback(cfg: Config, invs: seq<Invocation>, k: int) {
    && 0 <= k < |invs|
    && TakesFallback(cfg, invs[k])
    && forall m :: 0 <= m < k ==> !TakesFallback(cfg, invs[m])
  }

  /** The client is absent until the first fallback, and from then on is the one built
      from the first fallback invocation's ARN. */
  lemma {:induction false} LifetimeClient(cfg: Config, invs: seq<Invocation>)
    ensures (forall m :: 0 <= m < |invs| ==> !TakesFallback(cfg, invs[m])) ==> Lifetime(cfg, invs) == None
    ensures forall k :: IsFirstFallback(cfg, invs, k) ==>
      Lifetime(cfg, invs) == Some(Client(BedrockService, Arn.ExtractRegion(invs[k].invokedFunctionArn)))
    decreases |invs|
  {
    if invs != [] {
      var n := |invs| - 1;
      var front := invs[..n];
      LifetimeClient(cfg, front);
      assert forall m :: 0 <= m < n ==> front[m] == invs[m];
      forall k | IsFirstFallback(cfg, invs, k)
        ensures Lifetime(cfg, invs) == Some(Client(BedrockService, Arn.ExtractRegion(invs[k].invokedFunctionArn)))
      {
        if k < n {
          assert IsFirstFallback(cfg, front, k);
        }
      }
    }
  }

  /** On the fallback path the last call invokes the model in the region of the client the
      process holds afterwards, and a process that already had a client creates none. */
  lemma FallbackCalls(cfg: Config, client: Option<Client>, inv: Invocation)
    requires TakesFallback(cfg, inv)
    ensures var e := Invoke(cfg, client, inv);
            && |e.calls| > 0
            && e.calls[|e.calls| - 1].InvokeModel?
            && e.calls[|e.calls| - 1].region == NextClient(cfg, client, inv).value.region
            && (client.Some? ==> forall c :: c in e.calls ==> !c.CreateClient?)
  {
    var message, history := inv.body.message.text, inv.body.conversationHistory;
    var e := Serve(cfg, client, message, history, inv.invokedFunctionArn, inv.primary, inv.secondary);
    var b := Fallback(cfg, client, message, inv.invokedFunctionArn, inv.secondary);
    ServeCallOrder(cfg, client, message, history, inv.invokedFunctionArn, inv.primary, inv.secondary);
    assert e.calls[|e.calls| - 1] == b.calls[|b.calls| - 1];
  }

  /** Before invocation `i`, a process whose first fallback was `k` holds no client when
      `i == k` and the client built from invocation `k`'s ARN when `i > k`. */
  lemma ClientBeforeFallback(cfg: Config, invs: seq<Invocation>, k: nat, i: nat)
    requires IsFirstFallback(cfg, invs, k)
    requires k <= i < |invs|
    ensures k == i ==> Lifetime(cfg, invs[..i]) == None
    ensures k < i ==>
      Lifetime(cfg, invs[..i]) == Some(Client(BedrockService, Arn.ExtractRegion(invs[k].invokedFunctionArn)))
  {
    var front := invs[..i];
    LifetimeClient(cfg, front);
    assert forall m :: 0 <= m < i ==> front[m] == invs[m];
    if k < i {
      assert IsFirstFallback(cfg, front, k);
    }
  }

  /** Every fallback invocation talks to Bedrock in the region of the first fallback
      invocation's ARN, and only that first one creates a client. */
  lemma FallbackUsesFirstRegion(cfg: Config, invs: seq<Invocation>, k: nat, i: nat)
    requires IsFirstFallback(cfg, invs, k)
    requires k <= i < |invs| && TakesFallback(cfg, invs[i])
    ensures var e := Invoke(cfg, Lifetime(cfg, invs[..i]), invs[i]);
            && |e.calls| > 0
            && e.calls[|e.calls| - 1].InvokeModel?
            && e.calls[|e.calls| - 1].region == Arn.ExtractRegion(invs[k].invokedFunctionArn)
            && (i > k ==> forall c :: c in e.calls ==> !c.CreateClient?)
  {
    ClientBeforeFallback(cfg, invs, k, i);
    FallbackCalls(cfg, Lifetime(cfg, invs[..i]), invs[i]);
  }
}

# simplechat Lambda handler, modelled in Dafny

The repository is a single AWS Lambda handler, `lambda/index.py`. It takes a chat message and
the conversation so far. It first forwards the message to a primary text-generation endpoint
(a FastAPI service, `FASTAPI_URL`). When that endpoint is not configured, or fails with a
network-class error, it falls back to Amazon Bedrock. It then appends the assistant's reply to
the history and returns a JSON envelope tagged `via: "fastapi"` or `via: "bedrock"`.

The model has three files:

- `wrappers.dfy` (module `Wrappers`): `Option` and `Result`.
- `arn.dfy` (module `Arn`): `extract_region_from_arn`, a pure function. The regular expression
  `arn:aws:lambda:([^:]+):` is specified by `IsMatch(s, i, j)`. That means the literal prefix
  starts at `i`, one or more non-colon characters follow, and the closing colon is at `j`.
  `Search` returns the leftmost such `i`. The parser's result is that match's group, or
  `"us-east-1"` when there is no match.
- `handler.dfy` (module `Handler`): `lambda_handler`. The class `LambdaProcess` is one warm
  Lambda process. Its `const` fields are the module constants `FASTAPI_URL` (after
  `rstrip("/")`) and `MODEL_ID`. Its one mutable field is the global `bedrock_client`.
  Three methods follow the source step by step. `Handle` reads the event in the source's
  order. `Route` asks the primary, falls back, appends the reply and builds the envelope.
  `CallBedrock` creates the client lazily and invokes the model. Each method's
  postcondition equates its outcome, the calls it made and the new client with a pure
  function: `Invoke`, `Serve` and `Fallback` respectively. The contracts of those functions,
  of `Answer` and of `NextClient` state the routing policy. `Lifetime` folds `NextClient`
  over a series of invocations, so the "client is built once, from the first fallback's
  ARN" property can be stated across invocations.

The two network calls are inputs. `PrimaryOutcome` is what the HTTP POST ends in: a reply
object with optional `generated_text` and `text` fields, a URLError/HTTPError/TimeoutError, or
any other exception. `SecondaryOutcome` is what `invoke_model` ends in. `Handle` also returns
a ghost trace of the external calls it makes (`Call`): the POST with its payload and timeout,
the client creation with its region, and the `invoke_model` call with its region, model id and
payload. The handler has no handler-level `try`. So an exception that escapes it is
`Raised(Failure)`, never a 500 envelope.

The event fields are read in this order, and each can raise before any external call:

- an authorizer that is present and truthy but has no `claims` raises KeyError when it is a
  dict, or TypeError when it is not (lambda/index.py:47-48); a falsy one (`{}`, `null`,
  `false`, `""`) is skipped;
- a body that is missing or not JSON raises at lambda/index.py:52; one that is JSON but not an
  object raises at line 53, where `body["message"]` indexes it;
- a missing `message` raises KeyError (lambda/index.py:53);
- a `message` that cannot be sliced, such as a number or `null`, raises TypeError at
  `message[:120]` (lambda/index.py:56).

A `conversationHistory` that is present but not a list (`null`, a string, an object) gets past
lambda/index.py:54. It only raises at the `append` on line 121. By then the primary has been
asked when it is configured. On the fallback path Bedrock has also been called, and a cold
process has created its client.

## What the handler does not do

- There is no outer error boundary. A bad body, a missing message or a Bedrock failure raises
  out of the handler; no 500 response is built.
- Only the assistant turn is appended to the history; no user turn is added.
- The backend tag is the field `via`, with the values `fastapi` and `bedrock`.
- A primary reply with neither `generated_text` nor `text` gives the empty response `""`.
- The region pattern requires the literal prefix `arn:aws:lambda:`; any other ARN yields
  `us-east-1`.
- An empty `FASTAPI_URL` does not fail at start-up; every invocation that gets past reading the
  event goes straight to Bedrock.

## Model

| member | source | states |
|---|---|---|
| `Arn.NextColon` | lambda/index.py:33 | the first ':' at or after a position, or none, with no colon skipped over |
| `Arn.MatchEndUnique` | lambda/index.py:33 | a match starting at a given position has only one possible closing colon |
| `Arn.MatchAt` | lambda/index.py:33 | returns a closing colon exactly when the pattern matches at that start, and that colon is a real match end |
| `Arn.Search` | lambda/index.py:33 | `re.search`: the leftmost match start at or after a position, with no match at any earlier start; none means no position matches |
| `Arn.ExtractRegion` | lambda/index.py:28-34 | the region is always non-empty and colon-free; with no match anywhere it is `"us-east-1"` |
| `Arn.ExtractRegionLeftmost` | lambda/index.py:33-34 | when some match exists, the region is exactly the text between the leftmost match's prefix and its closing colon |
| `Arn.RegionOfFunctionArn` | lambda/index.py:31-34 | every `arn:aws:lambda:{region}:{rest}` with a non-empty, colon-free region yields that region |
| `Arn.ExampleRegion` | lambda/index.py:28-34 | `arn:aws:lambda:eu-west-1:123:function:f` yields `eu-west-1` |
| `Arn.ExampleNoClosingColon` | lambda/index.py:33-34 | `arn:aws:lambda:us-west-2`, which has no closing colon, yields the default `us-east-1` |
| `Handler.RStripSlash` | lambda/index.py:17 | `rstrip("/")` returns the longest prefix not ending in '/', with only slashes removed; it is empty exactly when the input is all slashes |
| `Handler.LoadConfig` | lambda/index.py:17-20 | `FASTAPI_URL` is the variable with trailing slashes stripped, or `""` when unset; the endpoint counts as configured exactly when the variable is set and holds something other than slashes; `MODEL_ID` is taken as set, else defaults to `us.amazon.nova-lite-v1:0` |
| `Handler.PrimaryReply` | lambda/index.py:83 | a non-empty `generated_text` wins, else `text`, else `""` |
| `Handler.SecondaryReply` | lambda/index.py:112-118 | the reply is the text of the first content block when there is one; a failed invocation raises; a reply without that path raises a malformed-reply failure |
| `Handler.Answer` | lambda/index.py:121-140 | a history that is not a list raises at `append`; otherwise status 200, `success`, the CORS headers, the reply as `response`, the history extended by one assistant turn, and the tag `bedrock` or `fastapi` |
| `Handler.Fallback` | lambda/index.py:93-118 | a held client is kept; otherwise one is created for `bedrock-runtime` in the ARN's region, as the first of two calls; the model is invoked once, last, in the client's region with the configured model id and the user message; Bedrock's reply or failure is the result |
| `Handler.Serve` | lambda/index.py:59-140 | the primary is posted first when configured; its reply is used as it is and nothing falls back; a non-network exception escapes with no Bedrock call; otherwise the Bedrock branch runs after the primary request and its reply is answered or its failure raised |
| `Handler.ServeCallOrder` | lambda/index.py:63-118 | the POST only first and only when configured; `invoke_model` only on the fallback path and last; a client created only on that path, by a process with none, just before the invocation; the client unchanged off that path; a returned tag is `bedrock` exactly on that path |
| `Handler.NextClient` | lambda/index.py:93-97 | the client is kept once set; otherwise it is created, with this ARN's region, exactly when the invocation reaches the Bedrock branch |
| `Handler.Invoke` | lambda/index.py:46-140 | the claims, body, message and message-type failures raise in that order before any call and leave the client alone; a decoded request is routed by `Serve`; the new client is `NextClient`'s; a returned envelope comes from a decoded request with an appendable history, has status 200, `success`, the CORS headers, history `H + [assistant reply]`, and `via == "bedrock"` iff the fallback was taken |
| `Handler.InvokeCallOrder` | lambda/index.py:52-118 | the POST at most once, first, and only for a decoded request with the endpoint configured; `invoke_model` at most once, last, and only on the fallback path; a client created at most once, just before the invocation, and only by a process with none |
| `Handler.HistoryGrowsByOne` | lambda/index.py:121-137 | a returned history has length `|H|+1`, starts with `H` unchanged, and ends with the assistant turn carrying the response |
| `Handler.ExamplePrimaryAnswers` | lambda/index.py:63-140 | "hi" with a primary replying `generated_text: "hello"` returns `response: "hello"`, history `[assistant: hello]`, via `fastapi`, with the client untouched |
| `Handler.ExampleColdFallback` | lambda/index.py:89-118 | in a cold process with no primary, the client is created in `eu-west-1` from the ARN, Bedrock is called once with the user message, and its reply is returned via `bedrock` |
| `Handler.ExampleNullHistoryAfterFallback` | lambda/index.py:54-121 | a `null` history in a cold process with no primary still creates the client in `eu-west-1` and calls Bedrock, and then raises at the append |
| `Handler.LambdaProcess.constructor` | lambda/index.py:17-23 | module load: configuration from the environment, no Bedrock client |
| `Handler.LambdaProcess.Handle` | lambda/index.py:40-141 | the handler's outcome, its external calls and the new `bedrock_client` are those of `Invoke`; a client once set is never changed |
| `Handler.LambdaProcess.Route` | lambda/index.py:59-140 | the outcome, calls and new client from the first backend call on are those of `Serve` |
| `Handler.LambdaProcess.CallBedrock` | lambda/index.py:93-118 | the reply, calls and new client of the Bedrock branch are those of `Fallback`; a client once set is never changed |
| `Handler.LifetimeClient` | lambda/index.py:23 | across invocations from a cold start, the client stays absent until the first fallback invocation, then equals the client built from that invocation's ARN |
| `Handler.FallbackCalls` | lambda/index.py:93-116 | on the fallback path the last call invokes the model in the region of the client held afterwards, and a process that already had a client creates none |
| `Handler.ClientBeforeFallback` | lambda/index.py:23-96 | before the first fallback invocation the process holds no client; before any later invocation it holds the client built from the first fallback's ARN |
| `Handler.FallbackUsesFirstRegion` | lambda/index.py:93-118 | every later fallback invocation calls Bedrock in the first fallback's region and creates no client |

## Left out

- The HTTP request (`urllib.request.urlopen`) and the Bedrock `invoke_model` call are foreign
  network calls. They are the inputs `PrimaryOutcome` and `SecondaryOutcome`; the model records
  the request it would send.
- JSON encoding and decoding are left out. The event body arrives as the already-decoded
  `RequestBody`; a body that is missing, not JSON, or not an object is `Undecodable`
  (the first two raise at lambda/index.py:52, the last at line 53). The
  response body stays a datatype and is not serialised.
- `PrimaryReply`: `generated_text` and `text` are modelled as optional strings, so truthiness
  means "non-empty". A non-string JSON value or a `null` `text` is not modelled. A reply that is
  not a JSON object is one of the `PrimaryCrashed` exceptions.
- The history entries are modelled as `{role, content}` string pairs; entries of any other
  shape are not modelled (they are copied through unchanged). The in-place `append`
  becomes reassignment of a local `seq`. The list comes freshly out of `json.loads`, so nothing
  else can see the aliasing.
- The floating-point generation parameters (`temperature` 0.7, `top_p`/`topP` 0.9) are not
  modelled. The request payloads keep the integer `max_new_tokens` 256, `do_sample` and
  `maxTokens` 512. The `contentType` of the Bedrock call is not modelled either, nor the
  `Content-Type: application/json` header of the primary request (lambda/index.py:78).
- The response headers are an ordered list of name/value pairs, in the order of the dict
  literal at lambda/index.py:127-132, rather than a dictionary.
- `boto3.client` is modelled as always succeeding; a failure while constructing the client is
  not modelled.
- Logging with `print` (lambda/index.py:43, 49, 56-57, 84, 87, 97, 111, 124) is left out.
  It only writes to the log, with two exceptions. The `message[:120]` slice on line 56 can
  raise, and that raise is modelled (`NotSliceable`). The `.get` on `claims` at line 49 can
  also raise; the next bullet lists that raise as not modelled. The event that line 43 serialises is taken to be
  JSON-serialisable, as a Lambda event is.
- The Cognito lookup (lambda/index.py:46-49) is modelled only as far as it can raise: a truthy
  authorizer with no `claims` to read, whether a non-empty dict without the key or not a dict
  at all (`WithoutClaims`). Two raise paths there are not modelled: a `requestContext` that is present
  but not a dict (for example `null`) raises AttributeError at line 47, and a `claims` value
  that is not a dict raises at `.get` on line 49. Both raise before any call. The e-mail or
  user name that the lookup logs is not kept.
- `message` is modelled as a string, absent, or a value that cannot be sliced. A list, which
  `message[:120]` does slice and which then flows into both request payloads, is not modelled.
- A process with concurrent invocations is not modelled. The source runs one invocation at a
  time per process.

# Campaign manager worker and generator core, in Dafny

This project models the message-handling core of the campaign manager. That
core is two Python services:

- The **worker** takes campaign-generation requests off a RabbitMQ queue. It
  parses each message in one of three shapes and asks the generator service
  over HTTP for the content. It then publishes a result envelope, or an
  error envelope, back to the NestJS service on the result queue.
- The **generator** builds the prompts it sends to Gemini. It draws a
  placeholder image when none is generated, and it saves the first image a
  Gemini response carries.

A retry executor with exponential backoff and jitter sits in
`python-generator/exponential_backoff.py`. Only the worker uses it: it
retries the publication of a result. The generator makes no retries. Each
service checks its environment at start-up.

The model is split into these modules:

- `Backoff` (`backoff.dfy`): the retry executor. `execute` and
  `sync_exponential_backoff` run the same attempt loop and differ only in
  the sleep: `time.sleep` refuses a negative length, `asyncio.sleep` does
  not. So both call one loop method, `Attempts`, with a `strictSleep` flag.
  One pass of that loop is the method `TryOnce`. The loop is proved equal
  to a recursive specification, `RunFrom`. The executor's promises are
  lemmas about that function: the attempt count, the first success, the
  re-raise on the last attempt, an immediate stop when `should_retry`
  refuses, and capped delays.
- `MessageParsing` (`parsing.dfy`): `parse_campaign_message` over the value
  that `json.loads` produced.
- `Producer` (`producer.dfy`): `send_result`. This covers the envelope, the
  AMQP message, the transient-error test and the publication's retry
  budget. The broker channel is a class whose list of accepted messages the
  method extends.
- `Consumer` (`consumer.dfy`): `process_campaign_message`,
  `delegate_to_generator` and `extract_campaign_id_from_error`. The method
  is proved equal to a functional specification, `Handle`.
- `WorkerConfig` and `GeneratorConfig` (`worker_config.dfy`,
  `generator_config.dfy`): each service's `Config`. Each has a validation
  loop and its settings with their defaults. They share `Environment`
  (`environment.dfy`).
- `GeneratorUtils` (`generator_utils.dfy`): the two prompt templates, the
  enhanced placeholder (as the list of drawing calls made on a canvas) and
  `process_image_response`.
- `Json`, `Text` and `Wrappers`: the Python values and string operations
  the code relies on:
  - dicts as insertion-ordered entries, with `d[key]` and `key in d`;
  - `repr`, `str.strip`, `str.lower`/`upper` and `int()`;
  - the exceptions each raises, with the text `str(e)` gives.

Some behaviours of the code are worth stating plainly:

- A top-level JSON array is refused with "Expected dict". The array
  alternative in `python-worker/utils.py:27` sits inside the dict test, so
  it can never hold.
- The generator HTTP call is not retried. `make_http_request` makes one
  call.
- A malformed message fails with the exception Python raises:
  `JSONDecodeError`, `KeyError`, `TypeError` or `ValueError`. There is no
  single malformed-message error.
- The delay is `min(int(base + jitter), max_delay_ms)`, computed from the
  failed attempt's own number.
- When the first `send_result` raises, the worker sends a second, error
  result. It does not just log and acknowledge.

## Model

| member | source | states |
|---|---|---|
| Backoff.NewRetryOptions | python-generator/exponential_backoff.py:11-22 | the dataclass defaults are kept as given, and a missing `should_retry` becomes a predicate that always says yes |
| Backoff.CalculateDelay | python-generator/exponential_backoff.py:72-80 | the delay never exceeds `max_delay_ms` |
| Backoff.DelayBounds | python-generator/exponential_backoff.py:72-80 | with non-negative settings, the delay lies within `[0, max_delay_ms]` |
| Backoff.DelayAtLeastBase | python-generator/exponential_backoff.py:72-80 | with non-negative settings, the jitter only adds: the delay is at least the capped, truncated base delay |
| Backoff.DelayAtMostJittered | python-generator/exponential_backoff.py:72-80 | with non-negative settings, the delay is at most the capped, truncated base delay plus its whole jitter allowance `base * jitter_factor` |
| Backoff.BaseDelayGrows | python-generator/exponential_backoff.py:73-76 | with a multiplier of at least 1, the base delay never shrinks from one attempt to the next |
| Backoff.RunFrom | python-generator/exponential_backoff.py:36-70 | the specification of the attempt loop from a given attempt: its ending, attempt count, `should_retry` calls and delays; its properties are `RunFromFacts` and the lemmas after it |
| Backoff.RunFromFacts | python-generator/exponential_backoff.py:34-70 | a run from any attempt: 1 to `max_retries + 1 - start` attempts; every attempt but the last failed and was retried; the delays are the computed ones; `should_retry` saw attempts in order, each below `max_retries`; the last attempt decides the ending; `raise last_error` with `None` never happens |
| Backoff.RunDelayFacts | python-generator/exponential_backoff.py:36-68 | a run from any attempt makes 1 to `max_retries + 1 - start` attempts and sleeps `_calculate_delay` of each failed attempt but the last, in order |
| Backoff.RunConsultedFacts | python-generator/exponential_backoff.py:49-60 | a run from any attempt asks `should_retry` about its attempts in order, each below `max_retries`, about all but possibly the last |
| Backoff.RunEndingFacts | python-generator/exponential_backoff.py:36-70 | a run from any attempt: every attempt but the last failed and was retried; the last one's outcome decides the ending (its value, its own error, or the sleep's ValueError); `raise None` never happens |
| Backoff.AttemptsBounded | python-generator/exponential_backoff.py:36-70 | the operation runs between 1 and `max_retries + 1` times; with a negative budget it never runs and `raise None` results |
| Backoff.ReturnsFirstSuccess | python-generator/exponential_backoff.py:36-44 | a returned value is the last attempt's result, and every earlier attempt failed |
| Backoff.LastAttemptReraises | python-generator/exponential_backoff.py:49-54 | when the last allowed attempt fails, its own error is raised and `should_retry` is not asked about it |
| Backoff.RefusedRetryStops | python-generator/exponential_backoff.py:56-60 | an error raised before the last allowed attempt is one `should_retry` refused for that attempt, with no delay after it |
| Backoff.ShouldRetryArguments | python-generator/exponential_backoff.py:49-60 | `should_retry` is called with attempt numbers 0, 1, … in order, each below `max_retries`, at most once per attempt |
| Backoff.DelaysCapped | python-generator/exponential_backoff.py:62-68 | one delay separates each two consecutive attempts; each is `_calculate_delay` of the failed attempt, so at most `max_delay_ms` |
| Backoff.RunReaches | python-generator/exponential_backoff.py:36-68 | when attempts `start` to `k - 1` all fail and are retried, the run ends as the run from `k` does, `k - start` attempts later |
| Backoff.StopsAtFirstSuccess | python-generator/exponential_backoff.py:36-44 | retried failures up to a first success at attempt `k` return that success after exactly `k + 1` attempts |
| Backoff.StopsAtFirstRefusal | python-generator/exponential_backoff.py:56-60 | the first refusal by `should_retry` at attempt `k` raises that attempt's error after exactly `k + 1` attempts, whatever budget is left |
| Backoff.AlwaysFailingExhausts | python-generator/exponential_backoff.py:36-54 | an operation that always fails with retryable errors runs exactly `max_retries + 1` times and raises the last error |
| Backoff.SyncMatchesAsync | python-generator/exponential_backoff.py:92-144 | with non-negative delay settings, the blocking variant behaves exactly as `execute`: same ending, attempts, predicate calls and delays |
| Backoff.SyncRejectsNegativeDelay | python-generator/exponential_backoff.py:128-142 | with a negative `max_delay_ms`, `time.sleep` stops the blocking variant with a ValueError, while `execute` goes on to a second attempt |
| Backoff.RetryStep | python-generator/exponential_backoff.py:56-68 | one retried failure is one attempt, one predicate call and one computed delay, followed by the run from the next attempt |
| Backoff.ExponentialBackoff.constructor | python-generator/exponential_backoff.py:26-27 | `options or RetryOptions()`: the given options, else the defaults |
| Backoff.LoopStep | python-generator/exponential_backoff.py:37-68 | one attempt of the loop, for each way it can go: a success or a final or refused error ends the run there; a retried failure adds the attempt, its predicate call and its delay, and the run goes on from the next attempt |
| Backoff.TryOnce | python-generator/exponential_backoff.py:37-68 | one pass of the loop either finishes the run, with the outcome `RunFrom` gives, or hands the next pass the attempts, predicate calls and delays so far |
| Backoff.Attempts | python-generator/exponential_backoff.py:34-70 | the attempt loop's ending, attempt count, predicate calls and delays are those of the specification `RunFrom` |
| Backoff.ExponentialBackoff.Execute | python-generator/exponential_backoff.py:29-70 | `execute` is the attempt loop over this executor's options, with the asynchronous sleep |
| Backoff.WithExponentialBackoff | python-generator/exponential_backoff.py:83-89 | a fresh executor's run with the given options, or with the defaults |
| Backoff.SyncExponentialBackoff | python-generator/exponential_backoff.py:92-144 | the blocking variant, with default options when none are given, is the same attempt loop with a strict sleep that refuses negative lengths |
| Json.Get | python-worker/utils.py:18-19 | a key is found exactly when the dict has an entry for it, and the value returned is that entry's value |
| Json.Repr | python-worker/utils.py:32 | `repr` of a parsed value, as an f-string shows it: `None`, `True`, `False`; an int as its decimal text, which `int()` reads back (no digit limit modelled); a string as `repr` of the string; a float as its own text; a dict in braces and a list in brackets |
| Json.Subscript | python-worker/utils.py:24-25 | `v[key]` succeeds exactly when `v` is a dict holding `key` and returns its value; a dict without it raises `KeyError(key)` |
| MessageParsing.Fields | python-worker/utils.py:23-25 | both fields are read exactly when the value is a dict holding both; a missing one raises a `KeyError` for the first key missing, in the order `campaignId` then `prompt`; a non-dict raises a `TypeError` |
| MessageParsing.ParseCampaignMessage | python-worker/utils.py:11-36 | a body that is not JSON raises its decode error; a parsed request comes only from a top-level dict |
| MessageParsing.FlatShapeWins | python-worker/utils.py:18-20 | both keys at the top level are taken as they are, whatever `data` or `"0"` hold |
| MessageParsing.DataEnvelopeDecides | python-worker/utils.py:22-25 | otherwise a dict under `data` decides: success exactly when it holds both fields, which are read from it; otherwise a `KeyError` with no fall-through to `"0"` |
| MessageParsing.ZeroKeyDecides | python-worker/utils.py:27-30 | otherwise a `"0"` entry decides: success exactly when it is a dict holding both fields; a `KeyError` for a dict missing one; a `TypeError` when it is not a dict |
| MessageParsing.UnrecognizedFormat | python-worker/utils.py:31-32 | a dict matching no shape raises "Unrecognized message format: " followed by its `repr` |
| MessageParsing.ExpectedDict | python-worker/utils.py:33-34 | any non-dict top level, an array included, raises "Expected dict, got: <class '…'>" naming its type |
| MessageParsing.ParsedFromMessage | python-worker/utils.py:16-36 | every parsed request is the `campaignId` and `prompt` of one dict: the message, its `data` or its `"0"` |
| Producer.AnyOccurs | python-worker/producer.py:41-43 | true exactly when some keyword occurs as a substring |
| Producer.ShouldRetryPublish | python-worker/producer.py:39-43 | true exactly when one of connection, timeout, temporary or unavailable occurs in the lower-cased error text |
| Producer.ShouldRetryPublishIgnoresCase | python-worker/producer.py:40 | the decision is the same for the error text upper-cased or lower-cased |
| Producer.ConnectionErrorsAreTransient | python-worker/producer.py:39-43 | any text containing "Connection" is retried |
| Producer.PublishRetryOptions | python-worker/producer.py:45-52 | 3 retries, 1000 ms initial delay, 10000 ms cap, the default multiplier 2.0 and jitter 0.1, and `should_retry_publish` as predicate |
| Producer.MessageId | python-worker/producer.py:15 | the result's `campaignId` when present, else "unknown" |
| Producer.ResultMessage | python-worker/producer.py:20-35 | the AMQP message `send_result` builds; its contents are stated by `ResultMessageCarries` |
| Producer.ResultMessageCarries | python-worker/producer.py:20-35 | the published message's body has pattern `campaign.result` and the result unchanged under `data`; its header pattern is the same; its message id is the campaign id or "unknown"; it is routed to the result queue on the default exchange |
| Producer.PublishOutcome | python-worker/producer.py:45-54 | publication succeeds exactly when some attempt within the run succeeds; otherwise the error raised is the last attempt's |
| Producer.PublishBudget | python-worker/producer.py:45-54 | the publish call is made one to four times, with each pause between 0 and 10000 ms |
| Producer.LastingErrorStops | python-worker/producer.py:39-54 | an error naming no transient condition is raised after one attempt, with no pause |
| Producer.TransientErrorsExhaust | python-worker/producer.py:39-54 | transient errors on every call lead to exactly four calls and raise the fourth call's error |
| Producer.Channel.constructor | python-worker/producer.py:33-35 | a channel starts with no published messages |
| Producer.Channel.Publish | python-worker/producer.py:33-35 | the message is appended to what the channel has accepted |
| Producer.SendResult | python-worker/producer.py:14-54 | the outcome is `PublishOutcome`, and the result message is appended to the channel exactly when publication succeeded |
| Consumer.CampaignIdIn | python-worker/consumer.py:94-105 | some id exactly when the value is a dict holding `campaignId`, and it is that entry's value |
| Consumer.ExtractCampaignIdFromError | python-worker/consumer.py:86-110 | a body that is not JSON, or not a dict, gives "unknown"; otherwise the top-level `campaignId`, else the `campaignId` of a dict under `data`, else that of a dict under `"0"`, else "unknown" |
| Consumer.ExtractedFromMessage | python-worker/consumer.py:86-110 | the id is "unknown" or the `campaignId` of the message, its `data` or its `"0"` |
| Consumer.ExtractAgreesWithParse | python-worker/consumer.py:86-105 | when parsing succeeds and a top-level `campaignId` comes with a `prompt`, the recovered id is the parsed one |
| Consumer.ExtractDiffersFromParse | python-worker/consumer.py:92-93 | a top-level `campaignId` without a `prompt`, beside a full `data` request: the parser reads `data`, the error path the top-level id |
| Consumer.GeneratedFields | python-worker/consumer.py:69-74 | the three fields are read exactly when the response is a dict holding all three, and they are its entries |
| Consumer.DelegateToGenerator | python-worker/consumer.py:56-83 | the envelope always has the four keys in order; `error` is `None` exactly when the generator answered with all fields, which are passed on; otherwise it is an error result for the requested id with "Generation service error: " followed by the call's exception text, or by `str()` of the `KeyError` or `TypeError` that reading the first missing field raised |
| Consumer.Handle | python-worker/consumer.py:16-53 | the specification of `process_campaign_message`: the results sent for one delivery; its properties are `HandleSendsAtMostTwice`, `ParseFailureReportsOnce` and `ParsedRequestIsDelegated` |
| Consumer.HandleSendsAtMostTwice | python-worker/consumer.py:16-53 | one or two `send_result` calls, two exactly when the request parsed and its result failed to publish; at most one message reaches the queue, and it is the last result sent |
| Consumer.ParseFailureReportsOnce | python-worker/consumer.py:36-51 | an unparsable message gives exactly one error result, for the recovered id, carrying `str(e)` |
| Consumer.ParsedRequestIsDelegated | python-worker/consumer.py:25-51 | a parsed request's first result is the generator's envelope for it; a second result is an error result for the id `extract_campaign_id_from_error` recovers from the body, carrying the publish error |
| Consumer.HandleReply | python-worker/consumer.py:32-53 | the specification of the part after the generator's reply: the result is sent; when that publication raises, the error result for the id recovered from the body, carrying the publish error, is sent, and its own failure is swallowed |
| Consumer.ReportFailure | python-worker/consumer.py:36-53 | the `except` branch: the report is the error result for the id recovered from the body with the failure's text, and the channel gains exactly what its `send_result` publishes |
| Consumer.PublishGenerated | python-worker/consumer.py:32-53 | the results sent and the messages published are those of the specification `HandleReply` |
| Consumer.ProcessCampaignMessage | python-worker/consumer.py:16-53 | the results sent and the messages published are those of the specification `Handle` |
| Environment.GetEnv | python-worker/config.py:18 | a value exactly when the variable is set, and it is the set value |
| Environment.GetEnvOr | python-worker/config.py:46 | the set value, even when empty, else the default |
| Environment.MissingVarsMembers | python-worker/config.py:17-20 | a variable is collected as missing exactly when it is required and its value is unusable |
| Text.Strip | python-worker/config.py:19 | `str.strip()`: the result is a slice of the text, everything cut off on either side is whitespace, and the result neither starts nor ends with whitespace |
| Text.StrRepr | python-worker/utils.py:32 | `repr` of a string: opened and closed by the same quote, `"` exactly when the string holds `'` and no `"`, else `'`; a string with no quote of that kind, no backslash and no control character appears unchanged between the quotes |
| Text.ReprBodyPlain | python-worker/utils.py:32 | inside `repr`, characters other than the chosen quote, the backslash and control characters are copied unchanged |
| Text.StripEmptyIffAllSpace | python-worker/config.py:19 | `value.strip() == ""` exactly when every character is whitespace |
| Text.ParseInt | python-worker/config.py:54 | `int()` on a text: a refused text gives the `ValueError` text `invalid literal for int() with base 10: ` followed by the text's `repr` cut to 200 characters; which texts it accepts, and their values, are stated by `ParseIntAcceptance`, `ParseIntOfTrimmed` and `ParseIntOfIntToString` |
| Text.ErrorRepr | python-worker/config.py:54 | the `%.200R` of `int()`'s error message: a prefix of the text's `repr`, 200 characters long or the whole `repr` when that is shorter |
| Text.ParseIntAcceptance | python-worker/config.py:54 | `int()` succeeds exactly on a text made of an optional `+` or `-` sign and a decimal literal with `_` separators, with only whitespace around them; it then gives the literal's value, negated after a minus sign |
| Text.ParseIntOfSignedLiteral | python-worker/config.py:54 | a text made of a signed literal with only whitespace around it is read as that literal's value |
| Text.ParseStrippedSigned | python-worker/config.py:54 | once the whitespace is stripped, the text is read exactly when it is a signed literal, as that literal's value |
| Text.StripOfSpaceAround | python-worker/config.py:19 | `strip()` leaves exactly the slice that has only whitespace around it and none at its ends |
| Text.ParseIntOfTrimmed | python-worker/config.py:54 | `int()` of a text that neither starts nor ends with whitespace, an optional minus sign and a decimal literal is that literal's value, negated after a minus sign |
| Text.ParseIntOfIntToString | python-worker/config.py:54 | `int()` reads back every integer's decimal text |
| Text.LowerOfUpper | python-worker/config.py:50 | upper-casing loses nothing but case |
| WorkerConfig.ValidateEnvironment | python-worker/config.py:13-34 | a ValueError naming `RABBITMQ_URL` exactly when it is unset, empty or blank; a warning exactly when `GENERATOR_URL` is unset or empty |
| WorkerConfig.RabbitmqUrl | python-worker/config.py:36-38 | the value of `RABBITMQ_URL` as given, `None` when unset |
| WorkerConfig.GeneratorUrl | python-worker/config.py:40-46 | the value of `GENERATOR_URL` as given, `http://python-generator:8000` when unset |
| WorkerConfig.LogLevel | python-worker/config.py:48-50 | `INFO` when unset; otherwise the value upper-cased: no lower-case letter is left, and it equals the value up to case |
| WorkerConfig.RabbitmqConnectionTimeout | python-worker/config.py:52-54 | 300 when unset; a set value gives exactly what `Text.ParseInt` gives for it, so a text that is not an integer literal fails (`ParseIntAcceptance`); a set value `str(n)` reads as `n`; a failure happens only for a set value and is the `ValueError` text of `int()` naming it |
| WorkerConfig.HealthCheckInterval | python-worker/config.py:56-58 | 30 when unset; a set value gives exactly what `Text.ParseInt` gives for it, so a text that is not an integer literal fails (`ParseIntAcceptance`); a set value `str(n)` reads as `n`; a failure happens only for a set value and is the `ValueError` text of `int()` naming it |
| GeneratorConfig.ValidateEnvironment | python-generator/config.py:14-29 | a ValueError naming `GEMINI_API_KEY` exactly when it is unset, blank or the sample value |
| GeneratorConfig.GeminiApiKey | python-generator/config.py:31-33 | the value of `GEMINI_API_KEY` as given, `None` when unset |
| GeneratorConfig.OutputDir | python-generator/config.py:35-37 | the value of `OUTPUT_DIR` as given, `/app/output` when unset |
| GeneratorConfig.TextModelName | python-generator/config.py:39-41 | the value of `GEMINI_TEXT_MODEL` as given, `gemini-2.0-flash` when unset |
| GeneratorConfig.ImageModelName | python-generator/config.py:43-47 | the value of `GEMINI_IMAGE_MODEL` as given, `gemini-2.0-flash-preview-image-generation` when unset |
| GeneratorConfig.LogLevel | python-generator/config.py:49-51 | `INFO` when unset; otherwise the value upper-cased: no lower-case letter is left, and it equals the value up to case |
| GeneratorConfig.ServerHost | python-generator/config.py:53-55 | the value of `SERVER_HOST` as given, `0.0.0.0` when unset |
| GeneratorConfig.ServerPort | python-generator/config.py:57-59 | 8000 when unset; a set value gives exactly what `Text.ParseInt` gives for it, so a text that is not an integer literal fails (`ParseIntAcceptance`); a set value `str(n)` reads as `n`; a failure happens only for a set value and is the `ValueError` text of `int()` naming it |
| GeneratorUtils.Fill | python-generator/utils.py:14-74 | the filled template is the head, the request and the tail, in that order |
| GeneratorUtils.MarketingPrompt | python-generator/utils.py:14-46 | `create_marketing_prompt`: the marketing template with the request at its one substitution point; its properties are `MarketingPromptKeepsRequest`, `TemplateMarkers` and `PromptsInjective` |
| GeneratorUtils.ImagePrompt | python-generator/utils.py:49-74 | `create_image_prompt`: the image template with the request at its one substitution point; its properties are `ImagePromptKeepsRequest`, `TemplateMarkers` and `PromptsInjective` |
| GeneratorUtils.MarketingPromptKeepsRequest | python-generator/utils.py:14-46 | the user's request is read back unchanged from between the marketing template's head and tail |
| GeneratorUtils.ImagePromptKeepsRequest | python-generator/utils.py:49-74 | the user's request is read back unchanged from between the image template's head and tail |
| GeneratorUtils.TemplateMarkers | python-generator/utils.py:16-52 | the request directly follows `**ORIGINAL REQUEST:** ` in one template and `based on this concept: ` in the other |
| GeneratorUtils.PromptsInjective | python-generator/utils.py:14-74 | different requests never give the same prompt |
| GeneratorUtils.CampaignLabel | python-generator/utils.py:96 | "Campaign: " then the first 12 characters of the id, or all of them |
| GeneratorUtils.PromptLabel | python-generator/utils.py:97 | "Prompt: " then the whole prompt up to 40 characters, else its first 40 and "..." |
| GeneratorUtils.TextLines | python-generator/utils.py:92-100 | seven lines, the third and sixth empty, with the campaign and prompt labels in fourth and fifth place |
| GeneratorUtils.PlaceholderStartY | python-generator/utils.py:102-103 | five lines are non-empty whatever the inputs, so the text starts at y = 412 |
| GeneratorUtils.GradientShadeRange | python-generator/utils.py:83-85 | the gradient shade runs from 240 to 254 and never darkens down the image |
| GeneratorUtils.GradientOps | python-generator/utils.py:83-85 | row `y` gets the full-width line in shade `(g, g + 8, 255)` |
| GeneratorUtils.CenteredXBalanced | python-generator/utils.py:107-109 | a line no wider than the image fits, and its left and right margins differ by at most one pixel |
| GeneratorUtils.LineOpsAt | python-generator/utils.py:105-113 | the two calls for a non-empty line `i` come right after the calls for the non-empty lines before it |
| GeneratorUtils.TextOpsPlacement | python-generator/utils.py:105-113 | two calls per non-empty line, in order; line `i` is drawn at `start_y + 40 * i`, shadow first, offset by 2 pixels; empty lines keep their slot |
| GeneratorUtils.PlaceholderFilenameRoundTrip | python-generator/utils.py:115 | the file name gives back the campaign id and the 8 uuid digits it was made from |
| GeneratorUtils.JoinPath | python-generator/utils.py:116 | the directory, then the file name, joined by one separator |
| GeneratorUtils.Canvas.constructor | python-generator/utils.py:80-81 | a new image of the given size and background colour, with nothing drawn |
| GeneratorUtils.Canvas.Draw | python-generator/utils.py:85 | a drawing call is appended to the ones made |
| GeneratorUtils.DrawGradient | python-generator/utils.py:83-85 | the gradient loop draws exactly `GradientOps`, row by row |
| GeneratorUtils.DrawLines | python-generator/utils.py:105-113 | the text loop draws exactly `TextOps` for the lines |
| GeneratorUtils.CreateEnhancedPlaceholder | python-generator/utils.py:77-124 | a 1024 by 1024 image on a `#f0f8ff` background, with the gradient then the text drawn; the path in the output directory when saving succeeded, else "" |
| GeneratorUtils.FirstImagePart | python-generator/utils.py:133-137 | the first part that is not a text part and carries image data, or none |
| GeneratorUtils.ProcessImageResponse | python-generator/utils.py:127-155 | `None` without candidates or parts, or without an image part; otherwise the saved path for the first image part, or `None` when its image could not be decoded or saved |

## Left out

- Real time and randomness: the executor's sleeps become a list of delays, and each `random.random()` draw is an input (`jitter`). `datetime.now()` and `uuid.uuid4()` are also inputs.
- Logging: left out, except the `GENERATOR_URL` warning that the worker's `_validate_environment` logs, which `WorkerConfig.ValidateEnvironment` returns as `warnings`. The `Using GENERATOR_URL` info line of the `generator_url` property and the success messages are not modelled.
- Backoff.CalculateDelay: floating point is read as exact real arithmetic. Rounding, and the `OverflowError` of a huge `backoff_multiplier ** attempt`, are not modelled.
- Backoff.ExponentialBackoff.Execute: an exception raised by `should_retry` itself, and non-`Exception` errors (cancellation, `KeyboardInterrupt`), are not modelled. The operation's failures are its `Err` outcomes.
- The broker: `aio_pika`, connections, queues, `message.process()` acknowledgement and `message.body.decode()` are not modelled. The body arrives as the value `json.loads` produced, or as its decode error.
- JSON: parsing and `json.dumps` serialisation are not modelled. A dict with a repeated key is not ruled out: lookup finds the first entry for a key, where Python's `json.loads` keeps the last. A float is kept as its `repr` text.
- Text.ParseInt: `int()` also accepts the non-ASCII decimal digits (Arabic-Indic, fullwidth and others); the model accepts only `0`-`9` and refuses the rest.
- Text.ParseInt: since Python 3.11, `int()` refuses a literal of more than 4300 digits with a different `ValueError` ("Exceeds the limit (4300 digits) for integer string conversion…"); the model reads literals of any length.
- Text.ParseIntOfIntToString: for the same reason it does not hold in Python past 4300 digits, where `str(n)` itself raises; the model has no such limit.
- Json.Repr: an int of more than 4300 digits makes Python's `repr` raise; the model writes it out.
- Text.StrRepr: `repr` of non-ASCII characters that Python does not print as they are is only approximated.
- Producer.ShouldRetryPublish: `str.lower()` is modelled for ASCII letters only, as are `Text.Lower` and `Text.Upper`. Other letters keep their case.
- Consumer.DelegateToGenerator: the HTTP call of `make_http_request` (httpx, status checks, timeouts) is an input, the reply. Its exception text is given, not derived.
- Producer.SendResult: the message timestamp is not modelled.
- GeneratorUtils.JoinPath: path normalisation by `pathlib` is not modelled. An absolute file name and repeated or trailing separators in the directory are not handled as `Path` does.
- GeneratorUtils.CreateEnhancedPlaceholder: PIL is replaced by the recorded drawing calls. Font metrics are the `measure` input. Failures are limited to `save`: other exceptions on the way, and the default font's loading, are not modelled.
- GeneratorUtils.ProcessImageResponse: the decoding and saving of the image are one input, `saves`. A candidate whose `content` is `None` is merged with one whose `parts` are `None`. The size in the log line is not modelled.
- The module-level `config = Config()` instances, `main.py`, `app.py` and `test_api.py` are not part of this model.

/**
 * python-worker/consumer.py: what the worker does with one inbound
 * message — parse it, ask the generator service, send the result back —
 * and the error envelope it sends instead when any of that raises.
 */
module Consumer {
  import opened Wrappers
  import opened Json
  import opened MessageParsing
  import opened Backoff
  import opened Producer

  /** The `campaignId` a value holds when it is a dict holding one. */
  function CampaignIdIn(v: Json): (r: Option<Json>)
    ensures r.Some? <==> ObjectHas(v, "campaignId")
    ensures r.Some? ==> Get(v.members, "campaignId") == r
  {
    if ObjectHas(v, "campaignId") then Get(v.members, "campaignId") else None
  }

  /** `d` holds a dict under `key`, and that dict has a `campaignId`. */
  predicate NestsId(d: Dict, key: string) {
    Get(d, key).Some? && ObjectHas(Get(d, key).value, "campaignId")
  }

  /**
   * `extract_campaign_id_from_error(raw_body)`: the top-level `campaignId`,
   * else the one under `data`, else the one under `"0"`, else "unknown";
   * it never raises.
   */
  function ExtractCampaignIdFromError(body: Body): (id: Json)
    ensures body.NotJson? || !body.value.Object? ==> id == Str("unknown")
    ensures body.Decoded? && body.value.Object? && HasKey(body.value.members, "campaignId") ==>
      Get(body.value.members, "campaignId") == Some(id)
    ensures (body.Decoded? && body.value.Object? && !HasKey(body.value.members, "campaignId") &&
             NestsId(body.value.members, "data")) ==>
      Get(Get(body.value.members, "data").value.members, "campaignId") == Some(id)
    ensures (body.Decoded? && body.value.Object? && !HasKey(body.value.members, "campaignId") &&
             !NestsId(body.value.members, "data") && NestsId(body.value.members, "0")) ==>
      Get(Get(body.value.members, "0").value.members, "campaignId") == Some(id)
    ensures (body.Decoded? && body.value.Object? && !HasKey(body.value.members, "campaignId") &&
             !NestsId(body.value.members, "data") && !NestsId(body.value.members, "0")) ==>
      id == Str("unknown")
  {
    match body
    case NotJson(_) => Str("unknown")
    case Decoded(data) =>
      if !data.Object? then Str("unknown")
      else
        var d := data.members;
        if HasKey(d, "campaignId") then At(d, "campaignId")
        else if CampaignIdIn(At(d, "data")).Some? then CampaignIdIn(At(d, "data")).value
        else if CampaignIdIn(At(d, "0")).Some? then CampaignIdIn(At(d, "0")).value
        else Str("unknown")
  }

  /** The id recovered is "unknown" or a `campaignId` read from one of the three places a request may sit. */
  lemma ExtractedFromMessage(body: Body)
    ensures var id := ExtractCampaignIdFromError(body);
      id == Str("unknown") ||
      (body.Decoded? && body.value.Object? &&
       exists src :: Source(body.value.members, src) && CampaignIdIn(src) == Some(id))
  {
    var id := ExtractCampaignIdFromError(body);
    if body.Decoded? && body.value.Object? {
      var d := body.value.members;
      if HasKey(d, "campaignId") {
        assert Source(d, Object(d)) && CampaignIdIn(Object(d)) == Some(id);
      } else if CampaignIdIn(At(d, "data")).Some? {
        assert Source(d, At(d, "data"));
      } else if CampaignIdIn(At(d, "0")).Some? {
        assert Source(d, At(d, "0"));
      }
    }
  }

  /**
   * Where the parser succeeds, the id recovered for an error report is the
   * one it parsed, unless the top level holds a `campaignId` without a
   * `prompt` (see `ExtractDiffersFromParse`).
   */
  lemma ExtractAgreesWithParse(body: Body)
    requires ParseCampaignMessage(body).Success?
    requires HasKey(body.value.members, "campaignId") ==> HasKey(body.value.members, "prompt")
    ensures ExtractCampaignIdFromError(body) == ParseCampaignMessage(body).value.0
  {
  }

  /**
   * The two readings part ways on a message with a top-level `campaignId`,
   * no top-level `prompt`, and a complete request under `data`: the parser
   * reads `data`, the error path reports the top-level id.
   */
  lemma ExtractDiffersFromParse()
    ensures var inner := [("campaignId", Str("b")), ("prompt", Str("p"))];
      var body := Decoded(Object([("campaignId", Str("a")), ("data", Object(inner))]));
      && ParseCampaignMessage(body) == Success((Str("b"), Str("p")))
      && ExtractCampaignIdFromError(body) == Str("a")
  {
    var inner := [("campaignId", Str("b")), ("prompt", Str("p"))];
    var d := [("campaignId", Str("a")), ("data", Object(inner))];
    assert d[1..] == [("data", Object(inner))];
    assert !HasKey(d, "prompt") by {
      assert d[0].0 != "prompt" by { assert d[0].0[0] != "prompt"[0]; }
      assert d[1].0 != "prompt" by { assert d[1].0[0] != "prompt"[0]; }
    }
    assert Get(d, "data") == Some(Object(inner)) by {
      assert d[0].0 != "data" by { assert d[0].0[0] != "data"[0]; }
    }
    assert inner[1..] == [("prompt", Str("p"))];
    assert Get(inner, "prompt") == Some(Str("p")) by {
      assert inner[0].0 != "prompt" by { assert inner[0].0[0] != "prompt"[0]; }
    }
  }

  /** The JSON body POSTed to the generator's `/generate`. */
  function GeneratorRequest(campaignId: Json, prompt: Json): Dict {
    [("campaignId", campaignId), ("prompt", prompt)]
  }

  /** How the HTTP call to the generator ended: it raised with some text, or returned a decoded JSON body. */
  datatype GeneratorReply = CallFailed(message: string) | Replied(response: Json)

  /** The generator service, as the reply it gives to each request. */
  type GeneratorRequestReply = Dict -> GeneratorReply

  /** The result dict sent back to the NestJS service. */
  function ResultEnvelope(campaignId: Json, generatedText: Json, imagePath: Json, error: Json): Dict {
    [("campaignId", campaignId), ("generatedText", generatedText), ("imagePath", imagePath), ("error", error)]
  }

  /** A result that reports `error` for `campaignId`, with empty text and image. */
  function ErrorResult(campaignId: Json, error: string): Dict {
    ResultEnvelope(campaignId, Str(""), Str(""), Str(error))
  }

  /** `response["campaignId"], response["generatedText"], response["imagePath"]`, in that order. */
  function GeneratedFields(response: Json): (r: Result<(Json, Json, Json), Fault>)
    ensures r.Success? <==>
      ObjectHas(response, "campaignId") && ObjectHas(response, "generatedText") && ObjectHas(response, "imagePath")
    ensures r.Success? ==>
      && Get(response.members, "campaignId") == Some(r.value.0)
      && Get(response.members, "generatedText") == Some(r.value.1)
      && Get(response.members, "imagePath") == Some(r.value.2)
  {
    match Subscript(response, "campaignId")
    case Failure(e) => Failure(e)
    case Success(id) =>
      match Subscript(response, "generatedText")
      case Failure(e) => Failure(e)
      case Success(text) =>
        match Subscript(response, "imagePath")
        case Failure(e) => Failure(e)
        case Success(image) => Success((id, text, image))
  }

  /** The generator answered with a dict holding all three fields the worker reads. */
  predicate Answered(reply: GeneratorReply) {
    && reply.Replied?
    && ObjectHas(reply.response, "campaignId")
    && ObjectHas(reply.response, "generatedText")
    && ObjectHas(reply.response, "imagePath")
  }

  /**
   * `delegate_to_generator(campaign_id, prompt)`, given how the call went.
   * It never raises: a complete answer is passed on with `error: None`, and
   * anything else becomes an error result for the id the worker asked about.
   */
  function DelegateToGenerator(campaignId: Json, reply: GeneratorReply): (r: Dict)
    ensures |r| == 4 && r[0].0 == "campaignId" && r[1].0 == "generatedText" && r[2].0 == "imagePath" && r[3].0 == "error"
    ensures r[3].1 == Null <==> Answered(reply)
    ensures Answered(reply) ==>
      && Get(reply.response.members, "campaignId") == Some(r[0].1)
      && Get(reply.response.members, "generatedText") == Some(r[1].1)
      && Get(reply.response.members, "imagePath") == Some(r[2].1)
    ensures !Answered(reply) ==>
      && r[0].1 == campaignId && r[1].1 == Str("") && r[2].1 == Str("")
      && r[3].1.Str? && "Generation service error: " <= r[3].1.s
    ensures reply.CallFailed? ==> r == ErrorResult(campaignId, "Generation service error: " + reply.message)
    ensures reply.Replied? && GeneratedFields(reply.response).Failure? ==>
      r == ErrorResult(campaignId, "Generation service error: " + StrOf(GeneratedFields(reply.response).error))
  {
    match reply
    case CallFailed(m) => ErrorResult(campaignId, "Generation service error: " + m)
    case Replied(response) =>
      match GeneratedFields(response)
      case Failure(f) => ErrorResult(campaignId, "Generation service error: " + StrOf(f))
      case Success((id, text, image)) => ResultEnvelope(id, text, image, Null)
  }

  /** How the publish calls of one `send_result` go: outcome and jitter draw per attempt. */
  datatype Delivery = Delivery(publish: nat -> Outcome<(), string>, jitter: nat -> Unit)

  /** What handling one message did: the results passed to `send_result`, and the messages that reached the queue. */
  datatype Handling = Handling(sends: seq<Dict>, published: seq<WireMessage>)

  /** The messages one `send_result` call leaves on the queue. */
  function Sent(queueName: string, resultData: Dict, delivery: Delivery): seq<WireMessage> {
    if PublishOutcome(delivery.publish, delivery.jitter).Ok? then [ResultMessage(queueName, resultData)] else []
  }

  /**
   * `process_campaign_message`, step by step: the generator is asked only
   * for a parsed request, and an exception from parsing or from the first
   * `send_result` leads to one error result, whose own failure is swallowed.
   */
  function Handle(queueName: string, body: Body, generator: GeneratorRequestReply,
                  first: Delivery, second: Delivery): Handling {
    match ParseCampaignMessage(body)
    case Failure(f) =>
      var report := ErrorResult(ExtractCampaignIdFromError(body), StrOf(f));
      Handling([report], Sent(queueName, report, second))
    case Success((id, prompt)) =>
      HandleReply(queueName, body, DelegateToGenerator(id, generator(GeneratorRequest(id, prompt))), first, second)
  }

  /** The rest of the `try` once the generator's result is in: send it, and report the failure if that raised. */
  function HandleReply(queueName: string, body: Body, result: Dict, first: Delivery, second: Delivery): Handling {
    match PublishOutcome(first.publish, first.jitter)
    case Ok(_) => Handling([result], [ResultMessage(queueName, result)])
    case Err(e) =>
      var report := ErrorResult(ExtractCampaignIdFromError(body), e);
      Handling([result, report], Sent(queueName, report, second))
  }

  /** A result with empty text and image reporting an error for `campaignId`. */
  predicate IsErrorResult(r: Dict) {
    |r| == 4 && r[3].1.Str? && r == ErrorResult(r[0].1, r[3].1.s)
  }

  /**
   * One message leads to one or two `send_result` calls, the second only
   * when the first raised, and to at most one message on the queue: the
   * last result sent, when its publication went through.
   */
  lemma HandleSendsAtMostTwice(queueName: string, body: Body, generator: GeneratorRequestReply, first: Delivery, second: Delivery)
    ensures var h := Handle(queueName, body, generator, first, second);
      && 1 <= |h.sends| <= 2
      && (|h.sends| == 2 <==>
            ParseCampaignMessage(body).Success? && PublishOutcome(first.publish, first.jitter).Err?)
      && |h.published| <= 1
      && (|h.published| == 1 ==> h.published[0] == ResultMessage(queueName, h.sends[|h.sends| - 1]))
  {
  }

  /** A message that does not parse produces exactly one result: the error result for the id recovered from it. */
  lemma ParseFailureReportsOnce(queueName: string, body: Body, generator: GeneratorRequestReply, first: Delivery, second: Delivery)
    requires ParseCampaignMessage(body).Failure?
    ensures var h := Handle(queueName, body, generator, first, second);
      && h.sends == [ErrorResult(ExtractCampaignIdFromError(body), StrOf(ParseCampaignMessage(body).error))]
      && IsErrorResult(h.sends[0])
  {
  }

  /**
   * A parsed request is answered by the generator's envelope; when sending
   * it fails for good, an error result follows, for the id recovered from
   * the body and carrying the publish error.
   */
  lemma ParsedRequestIsDelegated(queueName: string, body: Body, generator: GeneratorRequestReply, first: Delivery, second: Delivery)
    requires ParseCampaignMessage(body).Success?
    ensures var (id, prompt) := ParseCampaignMessage(body).value;
      var h := Handle(queueName, body, generator, first, second);
      && h.sends[0] == DelegateToGenerator(id, generator(GeneratorRequest(id, prompt)))
      && (|h.sends| == 2 ==>
            && IsErrorResult(h.sends[1])
            && h.sends[1][0].1 == ExtractCampaignIdFromError(body)
            && PublishOutcome(first.publish, first.jitter) == Err(h.sends[1][3].1.s))
  {
  }

  /** The `except` branch: the error result for the id recovered from the body, passed to `send_result`. */
  method ReportFailure(channel: Channel, queueName: string, body: Body, failure: string, second: Delivery)
    returns (report: Dict)
    modifies channel
    ensures report == ErrorResult(ExtractCampaignIdFromError(body), failure)
    ensures channel.published == old(channel.published) + Sent(queueName, report, second)
  {
    report := ErrorResult(ExtractCampaignIdFromError(body), failure);
    var _ := SendResult(channel, queueName, report, second.publish, second.jitter);
  }

  /** Sending the generator's result, then the error report if that publication raised. */
  method PublishGenerated(channel: Channel, queueName: string, body: Body, result: Dict, first: Delivery, second: Delivery)
    returns (sends: seq<Dict>)
    modifies channel
    ensures sends == HandleReply(queueName, body, result, first, second).sends
    ensures channel.published == old(channel.published) + HandleReply(queueName, body, result, first, second).published
  {
    sends := [result];
    var sent := SendResult(channel, queueName, result, first.publish, first.jitter);
    if sent.Err? {
      var report := ReportFailure(channel, queueName, body, sent.error, second);
      sends := sends + [report];
    }
  }

  /**
   * `await process_campaign_message(message, channel, result_queue)` for a
   * body already decoded: the results it passes to `send_result`, in
   * order, and the messages it leaves on the channel.
   */
  method ProcessCampaignMessage(channel: Channel, queueName: string, body: Body,
                                generator: GeneratorRequestReply, first: Delivery, second: Delivery)
    returns (sends: seq<Dict>)
    modifies channel
    ensures sends == Handle(queueName, body, generator, first, second).sends
    ensures channel.published == old(channel.published) + Handle(queueName, body, generator, first, second).published
  {
    var parsed := ParseCampaignMessage(body);
    if parsed.Success? {
      var (id, prompt) := parsed.value;
      var result := DelegateToGenerator(id, generator(GeneratorRequest(id, prompt)));
      sends := PublishGenerated(channel, queueName, body, result, first, second);
    } else {
      var report := ReportFailure(channel, queueName, body, StrOf(parsed.error), second);
      sends := [report];
    }
  }
}

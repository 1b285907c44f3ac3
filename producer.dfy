/**
 * `send_result` of python-worker/producer.py: the NestJS-style envelope a
 * result is wrapped in, the AMQP message carrying it, the keyword test that
 * tells a transient publishing error from a lasting one, and the retry
 * budget the publication runs under.
 */
module Producer {
  import opened Wrappers
  import opened Text
  import opened Json
  import opened Backoff

  /** The words `should_retry_publish` looks for in an error's text. */
  const TransientKeywords: seq<string> := ["connection", "timeout", "temporary", "unavailable"]

  /** `any(keyword in s for keyword in keywords)`. */
  function AnyOccurs(s: string, keywords: seq<string>): (r: bool)
    ensures r <==> exists i :: 0 <= i < |keywords| && Occurs(keywords[i], s)
  {
    if keywords == [] then false
    else
      ContainsIffOccurs(s, keywords[0]);
      var rest := AnyOccurs(s, keywords[1..]);
      assert forall i :: 0 < i < |keywords| ==> keywords[1..][i - 1] == keywords[i];
      Contains(s, keywords[0]) || rest
  }

  /** `should_retry_publish(error, attempt)`: the attempt number plays no part. */
  function ShouldRetryPublish(error: string, attempt: int): (r: bool)
    ensures r <==> exists i :: 0 <= i < |TransientKeywords| && Occurs(TransientKeywords[i], Lower(error))
  {
    AnyOccurs(Lower(error), TransientKeywords)
  }

  /** The test ignores case: an error text upper-cased or lower-cased is judged as the original. */
  lemma ShouldRetryPublishIgnoresCase(error: string, attempt: int)
    ensures ShouldRetryPublish(Upper(error), attempt) == ShouldRetryPublish(error, attempt)
    ensures ShouldRetryPublish(Lower(error), attempt) == ShouldRetryPublish(error, attempt)
  {
    LowerOfUpper(error);
    LowerOfLower(error);
  }

  /** An error whose text names a connection problem, in any case, is retried. */
  lemma ConnectionErrorsAreTransient(prefix: string, suffix: string, attempt: int)
    ensures ShouldRetryPublish(prefix + "Connection" + suffix, attempt)
  {
    var e := prefix + "Connection" + suffix;
    var i := |prefix|;
    assert Lower(e)[i..i + 10] == "connection";
    assert OccursAt(TransientKeywords[0], Lower(e), i);
  }

  /** The `RetryOptions` the publication runs under. */
  function PublishRetryOptions(): (o: RetryOptions<string>)
    ensures o.maxRetries == 3 && o.initialDelayMs == 1000 && o.maxDelayMs == 10000
    ensures o.backoffMultiplier == 2.0 && o.jitterFactor == 0.1
    ensures forall e, a :: o.shouldRetry(e, a) == ShouldRetryPublish(e, a)
  {
    NewRetryOptions(maxRetries := 3, initialDelayMs := 1000, maxDelayMs := 10000, shouldRetry := Some(ShouldRetryPublish))
  }

  /** An AMQP message as handed to the exchange (its timestamp is not modelled). */
  datatype WireMessage = WireMessage(body: Json, messageId: Json, headers: Dict, exchange: string, routingKey: string)

  /** `result_data.get("campaignId", "unknown")`. */
  function MessageId(resultData: Dict): (id: Json)
    ensures HasKey(resultData, "campaignId") ==> Get(resultData, "campaignId") == Some(id)
    ensures !HasKey(resultData, "campaignId") ==> id == Str("unknown")
  {
    Get(resultData, "campaignId").GetOr(Str("unknown"))
  }

  /** The message `_send_message` publishes on the default exchange, routed to the result queue. */
  function ResultMessage(queueName: string, resultData: Dict): WireMessage {
    WireMessage(
      Object([("pattern", Str("campaign.result")), ("data", Object(resultData))]),
      MessageId(resultData),
      [("pattern", Str("campaign.result"))],
      "",
      queueName)
  }

  /**
   * What a consumer of the result queue reads back: the pattern
   * `campaign.result`, the result data unchanged under `data`, the same
   * pattern in the headers, and the campaign id (or "unknown") as message id.
   */
  lemma ResultMessageCarries(queueName: string, resultData: Dict)
    ensures var m := ResultMessage(queueName, resultData);
      && Subscript(m.body, "pattern") == Success(Str("campaign.result"))
      && Subscript(m.body, "data") == Success(Object(resultData))
      && Get(m.headers, "pattern") == Some(Str("campaign.result"))
      && m.exchange == "" && m.routingKey == queueName
      && (HasKey(resultData, "campaignId") ==> Get(resultData, "campaignId") == Some(m.messageId))
      && (!HasKey(resultData, "campaignId") ==> m.messageId == Str("unknown"))
  {
    var members := ResultMessage(queueName, resultData).body.members;
    assert members[1..] == [("data", Object(resultData))];
    assert members[0].0 != "data" by { assert members[0].0[0] != "data"[0]; }
    assert Get(members, "data") == Some(Object(resultData));
  }

  /**
   * How the publication ends when attempt `k` of the publish call does
   * `publish(k)`: published, or the error of the attempt that gave up.
   */
  function PublishOutcome(publish: nat -> Outcome<(), string>, jitter: nat -> Unit): (r: Outcome<(), string>)
    ensures var run := RunAll(PublishRetryOptions(), publish, jitter, false);
      && (r.Ok? <==> exists k :: 0 <= k < run.attempts && publish(k).Ok?)
      && (r.Err? ==> publish(run.attempts - 1) == Err(r.error))
  {
    var run := RunAll(PublishRetryOptions(), publish, jitter, false);
    RunFromFacts(PublishRetryOptions(), publish, jitter, false, 0, None);
    assert forall k :: 0 <= k < run.attempts - 1 ==> Retried(PublishRetryOptions(), publish, k);
    if run.ending.Returned? then Ok(()) else Err(run.ending.error)
  }

  /**
   * The publication's budget: the publish call is made one to four times,
   * and every pause between two calls lasts between 0 and 10000 ms.
   */
  lemma PublishBudget(publish: nat -> Outcome<(), string>, jitter: nat -> Unit)
    ensures var run := RunAll(PublishRetryOptions(), publish, jitter, false);
      && 1 <= run.attempts <= 4
      && |run.delays| == run.attempts - 1
      && forall i :: 0 <= i < |run.delays| ==> 0 <= run.delays[i] <= 10000
  {
    var o := PublishRetryOptions();
    var run := RunAll(o, publish, jitter, false);
    AttemptsBounded(o, publish, jitter, false);
    DelaysCapped(o, publish, jitter, false);
    forall i | 0 <= i < |run.delays| ensures 0 <= run.delays[i] <= 10000 {
      DelayBounds(o, i, jitter(i));
    }
  }

  /** A publish error that names no transient condition is raised after the first attempt, without a pause. */
  lemma LastingErrorStops(publish: nat -> Outcome<(), string>, jitter: nat -> Unit)
    requires publish(0).Err? && !ShouldRetryPublish(publish(0).error, 0)
    ensures var run := RunAll(PublishRetryOptions(), publish, jitter, false);
      run.ending == Raised(publish(0).error) && run.attempts == 1 && run.delays == []
  {
    StopsAtFirstRefusal(PublishRetryOptions(), publish, jitter, false, 0);
    DelaysCapped(PublishRetryOptions(), publish, jitter, false);
  }

  /** Transient errors on every call exhaust the budget: four calls, and the fourth call's error is raised. */
  lemma TransientErrorsExhaust(publish: nat -> Outcome<(), string>, jitter: nat -> Unit)
    requires forall k: nat :: publish(k).Err? && ShouldRetryPublish(publish(k).error, k)
    ensures var run := RunAll(PublishRetryOptions(), publish, jitter, false);
      run.ending == Raised(publish(3).error) && run.attempts == 4
  {
    AlwaysFailingExhausts(PublishRetryOptions(), publish, jitter);
  }

  /** The broker channel, as far as publishing goes: the messages it has accepted, in order. */
  class Channel {
    var published: seq<WireMessage>

    constructor ()
      ensures published == []
    {
      published := [];
    }

    /** `channel.default_exchange.publish(message, routing_key=...)` once it went through. */
    method Publish(message: WireMessage)
      modifies this
      ensures published == old(published) + [message]
    {
      published := published + [message];
    }
  }

  /**
   * `await send_result(channel, result_queue, result_data)`: the publish
   * call run under the executor; the message lands on the channel exactly
   * when some attempt went through.
   */
  method SendResult(channel: Channel, queueName: string, resultData: Dict,
                    publish: nat -> Outcome<(), string>, jitter: nat -> Unit)
    returns (r: Outcome<(), string>)
    modifies channel
    ensures r == PublishOutcome(publish, jitter)
    ensures channel.published == old(channel.published) + (if r.Ok? then [ResultMessage(queueName, resultData)] else [])
  {
    var ending, attempts, consulted, delays := WithExponentialBackoff(publish, Some(PublishRetryOptions()), jitter);
    RunFromFacts(PublishRetryOptions(), publish, jitter, false, 0, None);
    if ending.Returned? {
      channel.Publish(ResultMessage(queueName, resultData));
      r := Ok(());
    } else {
      r := Err(ending.error);
    }
  }
}

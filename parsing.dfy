/**
 * `parse_campaign_message` of python-worker/utils.py: the three shapes an
 * inbound campaign request may take, tried in order, over the value
 * `json.loads` produced.
 */
module MessageParsing {
  import opened Wrappers
  import opened Json

  /** A message body after `json.loads`: a JSON value, or the `JSONDecodeError` text. */
  datatype Body = NotJson(message: string) | Decoded(value: Json)

  /** `(campaign_id, prompt)`: whatever values the message holds under those keys. */
  type Request = (Json, Json)

  /** `v["campaignId"], v["prompt"]`, in that order, with the first exception either raises. */
  function Fields(v: Json): (r: Result<Request, Fault>)
    ensures r.Success? <==> ObjectHas(v, "campaignId") && ObjectHas(v, "prompt")
    ensures r.Success? ==> Get(v.members, "campaignId") == Some(r.value.0) && Get(v.members, "prompt") == Some(r.value.1)
    ensures r.Failure? && v.Object? ==>
      r.error == KeyError(if ObjectHas(v, "campaignId") then "prompt" else "campaignId")
    ensures r.Failure? && !v.Object? ==> r.error.TypeError?
  {
    match Subscript(v, "campaignId")
    case Failure(e) => Failure(e)
    case Success(id) =>
      match Subscript(v, "prompt")
      case Failure(e) => Failure(e)
      case Success(p) => Success((id, p))
  }

  /** The value stored under `key` when `d` holds it, else `null` (never consulted then). */
  function At(d: Dict, key: string): Json {
    Get(d, key).GetOr(Null)
  }

  /**
   * `parse_campaign_message(raw_body)`. The array alternative of the third
   * test sits inside the dict test and can never hold, so a top-level JSON
   * array is refused as "Expected dict".
   */
  function ParseCampaignMessage(body: Body): (r: Result<Request, Fault>)
    ensures body.NotJson? ==> r == Failure(JsonDecodeError(body.message))
    ensures r.Success? ==> body.Decoded? && body.value.Object?
  {
    match body
    case NotJson(m) => Failure(JsonDecodeError(m))
    case Decoded(data) =>
      if !data.Object? then
        Failure(ValueError("Expected dict, got: <class '" + TypeName(data) + "'>"))
      else
        var d := data.members;
        if HasKey(d, "campaignId") && HasKey(d, "prompt") then
          Success((At(d, "campaignId"), At(d, "prompt")))
        else if HasKey(d, "data") && At(d, "data").Object? then
          Fields(At(d, "data"))
        else if HasKey(d, "0") then
          Fields(At(d, "0"))
        else
          Failure(ValueError("Unrecognized message format: " + Repr(data)))
  }

  /** The flat shape wins: both keys at the top level are taken, whatever `data` or `"0"` hold. */
  lemma FlatShapeWins(d: Dict, id: Json, prompt: Json)
    requires Get(d, "campaignId") == Some(id) && Get(d, "prompt") == Some(prompt)
    ensures ParseCampaignMessage(Decoded(Object(d))) == Success((id, prompt))
  {
  }

  /**
   * Without the flat shape, an object under `data` decides: both fields are
   * read from it, and a missing one is a `KeyError`, not a fall-through to
   * `"0"`.
   */
  lemma DataEnvelopeDecides(d: Dict, inner: Dict)
    requires !(HasKey(d, "campaignId") && HasKey(d, "prompt"))
    requires Get(d, "data") == Some(Object(inner))
    ensures var r := ParseCampaignMessage(Decoded(Object(d)));
      && (r.Success? <==> HasKey(inner, "campaignId") && HasKey(inner, "prompt"))
      && (r.Success? ==> Get(inner, "campaignId") == Some(r.value.0) && Get(inner, "prompt") == Some(r.value.1))
      && (r.Failure? ==> r.error == KeyError(if HasKey(inner, "campaignId") then "prompt" else "campaignId"))
  {
  }

  /**
   * Without the first two shapes, a `"0"` entry decides: both fields are
   * read from it; a missing one is a `KeyError`, and a `"0"` value that is
   * not an object fails with a `TypeError`. A `data` entry that is not an
   * object does not stop this.
   */
  lemma ZeroKeyDecides(d: Dict, zero: Json)
    requires !(HasKey(d, "campaignId") && HasKey(d, "prompt"))
    requires !(HasKey(d, "data") && At(d, "data").Object?)
    requires Get(d, "0") == Some(zero)
    ensures var r := ParseCampaignMessage(Decoded(Object(d)));
      && (r.Success? <==> ObjectHas(zero, "campaignId") && ObjectHas(zero, "prompt"))
      && (r.Success? ==> Get(zero.members, "campaignId") == Some(r.value.0) && Get(zero.members, "prompt") == Some(r.value.1))
      && (r.Failure? && zero.Object? ==> r.error == KeyError(if ObjectHas(zero, "campaignId") then "prompt" else "campaignId"))
      && (!zero.Object? ==> r.Failure? && r.error.TypeError?)
  {
  }

  /** An object matching none of the three shapes is refused, showing its `repr`. */
  lemma UnrecognizedFormat(d: Dict)
    requires !(HasKey(d, "campaignId") && HasKey(d, "prompt"))
    requires !(HasKey(d, "data") && At(d, "data").Object?)
    requires !HasKey(d, "0")
    ensures ParseCampaignMessage(Decoded(Object(d))) == Failure(ValueError("Unrecognized message format: " + Repr(Object(d))))
  {
  }

  /** Anything but an object at the top level is refused, a JSON array included. */
  lemma ExpectedDict(data: Json)
    requires !data.Object?
    ensures var r := ParseCampaignMessage(Decoded(data));
      && r.Failure? && r.error.ValueError?
      && r.error.message == "Expected dict, got: <class '" + TypeName(data) + "'>"
      && (data.Array? ==> r.error.message == "Expected dict, got: <class 'list'>")
  {
  }

  /** `src` is one of the three places a request is read from: the message itself, its `data` or its `"0"`. */
  ghost predicate Source(d: Dict, src: Json) {
    src == Object(d) || Get(d, "data") == Some(src) || Get(d, "0") == Some(src)
  }

  /** A parsed request is always one dict's `campaignId` and `prompt`, that dict being one of the three places. */
  lemma ParsedFromMessage(body: Body)
    ensures var r := ParseCampaignMessage(body);
      r.Success? ==>
        exists src :: Source(body.value.members, src) && src.Object? &&
                      Get(src.members, "campaignId") == Some(r.value.0) && Get(src.members, "prompt") == Some(r.value.1)
  {
    var r := ParseCampaignMessage(body);
    if r.Success? {
      var d := body.value.members;
      if HasKey(d, "campaignId") && HasKey(d, "prompt") {
        assert Source(d, Object(d));
      } else if HasKey(d, "data") && At(d, "data").Object? {
        assert Source(d, At(d, "data"));
      } else {
        assert Source(d, At(d, "0"));
      }
    }
  }
}

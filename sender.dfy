/**
 * `Sender::sendJson`: one JSON request through the shared Curl client, never
 * throwing. Errors of the transport become an `ok = false` outcome with the
 * exception's message as body, and every outcome that is not a success leaves
 * one warning in the log.
 */
module Sender {
  import opened Wrappers
  import opened PhpStrings
  import opened PhpValues
  import opened Transport

  /** The array `sendJson` returns: `ok`, `status` (or null) and `body` (or null). */
  datatype Outcome = Outcome(ok: bool, status: Option<int>, body: Option<string>)

  /** The arguments of one `sendJson` call. */
  datatype Request = Request(
    url: string,
    payload: Value,
    headers: map<string, string>,
    connectTimeout: int,
    timeout: int,
    verb: string)

  /** One call and what it returned. */
  datatype Call = Call(request: Request, outcome: Outcome)

  const JsonContentType: map<string, string> := map["Content-Type" := "application/json"]

  const NonSuccessWarning := "[Stellion_Pricemind] Non-2xx response"
  const SendFailedWarning := "[Stellion_Pricemind] Send failed"

  /**
   * The outcome of a request that was issued: success exactly for a 2xx
   * status; a transport failure has no status and carries its message.
   */
  function OutcomeOf(reply: Reply): (o: Outcome)
    ensures o.ok <==> reply.Response? && ClassOf(reply.status) == Some(Successful)
    ensures reply.Response? ==> o.status == Some(reply.status) && o.body == Some(reply.body)
    ensures reply.Failure? ==> o.status == None && o.body == Some(reply.message)
  {
    IsOkIsSuccessfulClass(if reply.Response? then reply.status else 0);
    match reply
    case Response(s, b) => Outcome(IsOk(s), Some(s), Some(b))
    case Failure(m) => Outcome(false, None, Some(m))
  }

  /** What is logged for a reply: one warning unless it was a 2xx response. */
  function WarningsFor(reply: Reply): (w: seq<LogEntry>)
    ensures |w| <= 1
    ensures w == [] <==> OutcomeOf(reply).ok
    ensures forall i :: 0 <= i < |w| ==> w[i].level == Warning
  {
    match reply
    case Response(s, _) => if IsOk(s) then [] else [LogEntry(Warning, NonSuccessWarning)]
    case Failure(_) => [LogEntry(Warning, SendFailedWarning)]
  }

  /**
   * The merged headers always carry a content type; a header the caller gives
   * keeps the caller's value, `Content-Type` included.
   */
  lemma CallerHeadersWin(headers: map<string, string>)
    ensures "Content-Type" in JsonContentType + headers
    ensures forall k :: k in headers ==> (JsonContentType + headers)[k] == headers[k]
    ensures "Content-Type" !in headers ==> (JsonContentType + headers)["Content-Type"] == "application/json"
    ensures (JsonContentType + headers).Keys == headers.Keys + {"Content-Type"}
  {
  }

  class JsonSender {
    const curl: Curl
    const logger: Logger
    /** The JSON serializer, an oracle. */
    const serialize: Value -> string
    /** Every call made through this sender, oldest first. */
    ghost var calls: seq<Call>

    constructor (curl: Curl, logger: Logger, serialize: Value -> string)
      ensures this.curl == curl && this.logger == logger && this.serialize == serialize
      ensures calls == []
    {
      this.curl := curl;
      this.logger := logger;
      this.serialize := serialize;
      calls := [];
    }

    /**
     * The client options `sendJson` sets before posting: the JSON content type
     * merged under the caller's headers (a caller's `Content-Type` wins), the
     * timeouts where the client supports them, and a verb other than POST
     * forced through the custom-request option where that is supported.
     */
    method Configure(headers: map<string, string>, connectTimeoutSeconds: int, timeoutSeconds: int, verb: string)
      modifies curl`headers, curl`connectTimeout, curl`timeout, curl`customRequest
      ensures curl.headers == JsonContentType + headers
      ensures curl.connectTimeout == (if curl.hasSetConnectTimeout then Some(connectTimeoutSeconds) else old(curl.connectTimeout))
      ensures curl.timeout == (if curl.hasSetTimeout then Some(timeoutSeconds) else old(curl.timeout))
      ensures curl.customRequest == (if ToUpper(verb) != "POST" && curl.hasSetOption then Some(ToUpper(verb)) else old(curl.customRequest))
    {
      curl.SetHeaders(JsonContentType + headers);
      if curl.hasSetConnectTimeout {
        curl.SetConnectTimeout(connectTimeoutSeconds);
      }
      if curl.hasSetTimeout {
        curl.SetTimeout(timeoutSeconds);
      }
      var methodUpper := ToUpper(verb);
      if methodUpper != "POST" && curl.hasSetOption {
        curl.SetCustomRequest(methodUpper);
      }
    }

    /**
     * Posts the body once and reads the outcome back; a transport failure or
     * a status outside 2xx leaves one warning in the log.
     */
    method PostAndClassify(endpointUrl: string, body: string) returns (r: Outcome)
      modifies curl`exchanges, curl`status, curl`body, logger
      ensures curl.exchanges == old(curl.exchanges) + [curl.Next(PostEntry, endpointUrl, body)]
      ensures r == OutcomeOf(curl.network(curl.Next(PostEntry, endpointUrl, body)))
      ensures logger.entries == old(logger.entries) + WarningsFor(curl.network(curl.Next(PostEntry, endpointUrl, body)))
    {
      ghost var ex := curl.Next(PostEntry, endpointUrl, body);
      var error := curl.Post(endpointUrl, body);
      assert curl.Next(PostEntry, endpointUrl, body) == ex;
      if error.Some? {
        logger.Log(Warning, SendFailedWarning);
        r := Outcome(false, None, Some(error.value));
      } else {
        var status := curl.status;
        var responseBody := curl.body;
        var ok := status >= 200 && status < 300;
        if !ok {
          logger.Log(Warning, NonSuccessWarning);
        }
        r := Outcome(ok, Some(status), Some(responseBody));
      }
    }

    /**
     * An empty URL is a no-op that reports success. Otherwise the client is
     * configured as `Configure` states and the serialized payload is posted
     * exactly once, whatever the verb.
     */
    method SendJson(endpointUrl: string, payload: Value, headers: map<string, string> := map[],
                    connectTimeoutSeconds: int := 1, timeoutSeconds: int := 2, verb: string := "POST")
      returns (r: Outcome)
      modifies this`calls, curl, logger
      ensures calls == old(calls) + [Call(Request(endpointUrl, payload, headers, connectTimeoutSeconds, timeoutSeconds, verb), r)]
      ensures endpointUrl == "" ==> r == Outcome(true, None, None) && unchanged(curl) && unchanged(logger)
      ensures endpointUrl != "" ==>
        && curl.headers == JsonContentType + headers
        && curl.connectTimeout == (if curl.hasSetConnectTimeout then Some(connectTimeoutSeconds) else old(curl.connectTimeout))
        && curl.timeout == (if curl.hasSetTimeout then Some(timeoutSeconds) else old(curl.timeout))
        && curl.customRequest == (if ToUpper(verb) != "POST" && curl.hasSetOption then Some(ToUpper(verb)) else old(curl.customRequest))
        && curl.exchanges == old(curl.exchanges) + [curl.Next(PostEntry, endpointUrl, serialize(payload))]
        && r == OutcomeOf(curl.network(curl.Next(PostEntry, endpointUrl, serialize(payload))))
        && logger.entries == old(logger.entries) + WarningsFor(curl.network(curl.Next(PostEntry, endpointUrl, serialize(payload))))
    {
      var request := Request(endpointUrl, payload, headers, connectTimeoutSeconds, timeoutSeconds, verb);
      if endpointUrl == "" {
        r := Outcome(true, None, None);
      } else {
        Configure(headers, connectTimeoutSeconds, timeoutSeconds, verb);
        var body := serialize(payload);
        r := PostAndClassify(endpointUrl, body);
      }
      calls := calls + [Call(request, r)];
    }
  }

  /**
   * The custom verb outlives the call that set it: after a `PUT` through a
   * client that has `setOption`, a later plain `POST` on the same client
   * still goes out with the `PUT` custom request, because nothing clears the
   * option.
   */
  method CustomVerbSticks(network: Exchange -> Reply, serialize: Value -> string, url: string, payload: Value)
    returns (first: Exchange, second: Exchange)
    requires url != ""
    ensures first.entry == PostEntry && first.customRequest == Some("PUT")
    ensures second.entry == PostEntry && second.customRequest == Some("PUT")
    ensures first.url == url && second.url == url
  {
    var curl := new Curl(true, true, true, network);
    var logger := new Logger();
    var sender := new JsonSender(curl, logger, serialize);
    assert ToUpper("PUT") == "PUT";
    assert ToUpper("POST") == "POST";
    var putOutcome := sender.SendJson(url, payload, map[], 1, 2, "PUT");
    var postOutcome := sender.SendJson(url, payload, map[], 1, 2, "POST");
    first, second := curl.exchanges[0], curl.exchanges[1];
  }
}

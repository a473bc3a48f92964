/**
 * The collaborators the HTTP code talks to: Magento's Curl client, reduced to
 * the state the module sets and reads back, and the PSR logger. What the
 * network answers is an oracle, `network`, consulted once per request with
 * the request exactly as issued; which optional setter methods the client
 * offers (`method_exists`) are capability flags.
 */
module Transport {
  import opened Wrappers

  /** The client method a request went through: `get` or `post`. */
  datatype Entry = GetEntry | PostEntry

  /** One request as the client issued it, with the options in force at that moment. */
  datatype Exchange = Exchange(
    entry: Entry,
    url: string,
    body: string,
    headers: map<string, string>,
    connectTimeout: Option<int>,
    timeout: Option<int>,
    customRequest: Option<string>)

  /** What came back: a status and a body, or the message of the exception the client threw. */
  datatype Reply = Response(status: int, body: string) | Failure(message: string)

  /** The response classes of section 15 of RFC 9110, named by the first digit of the status code. */
  datatype StatusClass = Informational | Successful | Redirection | ClientError | ServerError

  function ClassOf(status: int): Option<StatusClass> {
    if 100 <= status < 600 then
      Some([Informational, Successful, Redirection, ClientError, ServerError][status / 100 - 1])
    else None
  }

  /** The module's success test, `$status >= 200 && $status < 300`. */
  predicate IsOk(status: int) {
    status >= 200 && status < 300
  }

  /** The success test accepts exactly the Successful (2xx) class of section 15.3 of RFC 9110. */
  lemma IsOkIsSuccessfulClass(status: int)
    ensures IsOk(status) <==> ClassOf(status) == Some(Successful)
  {
  }

  /** The edges of the success range: 199 and 300 fail, 200 and 299 succeed. */
  lemma SuccessBoundaries()
    ensures !IsOk(199) && IsOk(200) && IsOk(299) && !IsOk(300)
  {
  }

  class Curl {
    const hasSetConnectTimeout: bool
    const hasSetTimeout: bool
    const hasSetOption: bool
    const network: Exchange -> Reply

    var headers: map<string, string>
    var connectTimeout: Option<int>
    var timeout: Option<int>
    var customRequest: Option<string>
    var status: int
    var body: string
    /** Every request issued so far, oldest first. */
    var exchanges: seq<Exchange>

    constructor (hasSetConnectTimeout: bool, hasSetTimeout: bool, hasSetOption: bool, network: Exchange -> Reply)
      ensures this.hasSetConnectTimeout == hasSetConnectTimeout && this.hasSetTimeout == hasSetTimeout
      ensures this.hasSetOption == hasSetOption && this.network == network
      ensures headers == map[] && connectTimeout == None && timeout == None && customRequest == None
      ensures status == 0 && body == "" && exchanges == []
    {
      this.hasSetConnectTimeout := hasSetConnectTimeout;
      this.hasSetTimeout := hasSetTimeout;
      this.hasSetOption := hasSetOption;
      this.network := network;
      headers, connectTimeout, timeout, customRequest := map[], None, None, None;
      status, body, exchanges := 0, "", [];
    }

    /** The request `entry(url, body)` would issue now. */
    function Next(entry: Entry, url: string, body: string): Exchange
      reads this
    {
      Exchange(entry, url, body, headers, connectTimeout, timeout, customRequest)
    }

    method SetHeaders(h: map<string, string>)
      modifies this`headers
      ensures headers == h
    {
      headers := h;
    }

    method SetConnectTimeout(seconds: int)
      requires hasSetConnectTimeout
      modifies this`connectTimeout
      ensures connectTimeout == Some(seconds)
    {
      connectTimeout := Some(seconds);
    }

    method SetTimeout(seconds: int)
      requires hasSetTimeout
      modifies this`timeout
      ensures timeout == Some(seconds)
    {
      timeout := Some(seconds);
    }

    /** `setOption(CURLOPT_CUSTOMREQUEST, $verb)`; the option stays set for later requests. */
    method SetCustomRequest(verb: string)
      requires hasSetOption
      modifies this`customRequest
      ensures customRequest == Some(verb)
    {
      customRequest := Some(verb);
    }

    /**
     * Issues one request and records it. On a response, status and body are
     * stored; on a transport failure they are left as they were and the
     * exception's message is returned.
     */
    method Issue(entry: Entry, url: string, data: string) returns (error: Option<string>)
      modifies this`exchanges, this`status, this`body
      ensures exchanges == old(exchanges) + [Next(entry, url, data)]
      ensures match network(Next(entry, url, data))
              case Response(s, b) => error == None && status == s && body == b
              case Failure(m) => error == Some(m) && status == old(status) && body == old(body)
    {
      var ex := Next(entry, url, data);
      exchanges := exchanges + [ex];
      match network(ex)
      case Response(s, b) =>
        status, body := s, b;
        error := None;
      case Failure(m) =>
        error := Some(m);
    }

    method Post(url: string, data: string) returns (error: Option<string>)
      modifies this`exchanges, this`status, this`body
      ensures exchanges == old(exchanges) + [Next(PostEntry, url, data)]
      ensures match network(Next(PostEntry, url, data))
              case Response(s, b) => error == None && status == s && body == b
              case Failure(m) => error == Some(m) && status == old(status) && body == old(body)
    {
      error := Issue(PostEntry, url, data);
    }

    method Get(url: string) returns (error: Option<string>)
      modifies this`exchanges, this`status, this`body
      ensures exchanges == old(exchanges) + [Next(GetEntry, url, "")]
      ensures match network(Next(GetEntry, url, ""))
              case Response(s, b) => error == None && status == s && body == b
              case Failure(m) => error == Some(m) && status == old(status) && body == old(body)
    {
      error := Issue(GetEntry, url, "");
    }
  }

  datatype Level = Warning | Error

  datatype LogEntry = LogEntry(level: Level, message: string)

  class Logger {
    var entries: seq<LogEntry>

    constructor ()
      ensures entries == []
    {
      entries := [];
    }

    method Log(level: Level, message: string)
      modifies this
      ensures entries == old(entries) + [LogEntry(level, message)]
    {
      entries := entries + [LogEntry(level, message)];
    }
  }
}

/**
 * `ProductPriceChangeObserver::execute`, run after a product is saved. It
 * compares the price, the special price and the special-price dates before
 * and after the save as strings; when one of them changed and the module is
 * configured for the product's website, it posts the price to the pricing API
 * and then puts each changed date into its custom field. Every call that does
 * not come back ok is stored as a failed request with the API key masked;
 * a store that refuses the record does not stop anything.
 */
module PriceObserver {
  import opened Wrappers
  import opened PhpStrings
  import opened PhpValues
  import opened UrlEncoding
  import opened Sender
  import opened ApiClient
  import opened Sequences

  /** The fixed machine names of the two date custom fields in the pricing API. */
  const SpecialFromField := "special_price_start_date"
  const SpecialToField := "special_price_end_date"

  /** `['X-API-Key' => '***']`, the headers a failed request is stored with. */
  const RedactedHeaders := Object([("X-API-Key", Str("***"))])

  /** One product attribute as loaded (`getOrigData`) and as saved (`getData`); `None` is `null`. */
  datatype Field = Field(before: Option<string>, after: Option<string>)

  /** The product of the save event, as far as `execute` reads it. */
  datatype Product = Product(
    sku: Option<string>,
    storeId: Value,
    price: Field,
    special: Field,
    fromDate: Field,
    toDate: Field)

  /** What `execute` reads off the product's store: the website code and the base currency. */
  datatype Store = Store(websiteCode: Option<string>, baseCurrency: Option<string>)

  /**
   * The settings and store data the requests are built from; `channelNumber`
   * is the integer cast of the channel id that the custom-field updates send.
   */
  datatype Context = Context(baseUrl: string, apiKey: string, channelId: string, channelNumber: int, currency: string)

  // ---------------------------------------------------------------------------
  // Change detection
  // ---------------------------------------------------------------------------

  /** A field changed when its values differ as strings; `null` and `''` count as equal. */
  predicate Changed(f: Field) {
    PhpStrings.Str(f.before) != PhpStrings.Str(f.after)
  }

  /** The price changed, or it had no original value at all. */
  predicate PriceChanged(p: Product) {
    p.price.before.None? || Changed(p.price)
  }

  predicate AnyChanged(p: Product) {
    PriceChanged(p) || Changed(p.special) || Changed(p.fromDate) || Changed(p.toDate)
  }

  /** The module is configured for a website when it has both an API key and a channel id. */
  predicate Configured(c: Context) {
    c.apiKey != "" && c.channelId != ""
  }

  // ---------------------------------------------------------------------------
  // Requests
  // ---------------------------------------------------------------------------

  function ApiKeyHeader(apiKey: string): map<string, string> {
    map["X-API-Key" := apiKey]
  }

  /** The price endpoint: the channel id is one percent-encoded path segment. */
  function PriceEndpoint(c: Context): string {
    RTrim(c.baseUrl, '/') + "/v1/channels/" + RawUrlEncode(c.channelId) + "/prices"
  }

  function CustomFieldsEndpoint(c: Context): string {
    RTrim(c.baseUrl, '/') + "/v1/custom-fields"
  }

  /**
   * The `special_price` sent: the new value as given only when it is set and
   * positive; removing it, zero, a negative amount or text that is not a
   * number all send `null`, which clears it.
   */
  function SpecialPriceValue(special: Option<string>): (v: Value)
    ensures v == Null || (special.Some? && v == Str(special.value))
    ensures v != Null <==> special.Some? && special.value != "" && IsPositiveNumber(special.value)
  {
    if special.Some? && special.value != "" && IsPositiveNumber(special.value) then Str(special.value) else Null
  }

  /** The price payload; `special_price` is only sent when the special price changed. */
  function PricePayload(p: Product, currency: string): Value {
    Object([("product_sku", Str(PhpStrings.Str(p.sku))), ("price", Str(PhpStrings.Str(p.price.after))),
            ("currency", Str(currency)), ("includes_tax", Bool(true))]
           + (if Changed(p.special) then [("special_price", SpecialPriceValue(p.special.after))] else []))
  }

  /** The payload of one custom-field update. */
  function DatePayload(channelId: int, machineName: string, sku: string, value: string): Value {
    Object([("channel_id", Int(channelId)), ("machine_name", Str(machineName)),
            ("product_sku", Str(sku)), ("value", Str(value))])
  }

  function PriceRequest(p: Product, c: Context): Request {
    Request(PriceEndpoint(c), PricePayload(p, c.currency), ApiKeyHeader(c.apiKey), 1, 2, "POST")
  }

  /** The update of one date field; the channel id is sent as its integer cast. */
  function DateRequest(c: Context, machineName: string, sku: string, value: string): Request {
    Request(CustomFieldsEndpoint(c), DatePayload(c.channelNumber, machineName, sku, value),
            ApiKeyHeader(c.apiKey), 1, 2, "PUT")
  }

  /** The update of one date field when it changed, nothing otherwise. */
  function OptionalDate(changed: bool, c: Context, machineName: string, sku: string, value: string): seq<Request> {
    if changed then [DateRequest(c, machineName, sku, value)] else []
  }

  /** The custom-field updates: the from date, then the to date, each only when it changed. */
  function DateRequests(p: Product, c: Context): seq<Request> {
    OptionalDate(Changed(p.fromDate), c, SpecialFromField, PhpStrings.Str(p.sku), PhpStrings.Str(p.fromDate.after))
    + OptionalDate(Changed(p.toDate), c, SpecialToField, PhpStrings.Str(p.sku), PhpStrings.Str(p.toDate.after))
  }

  /** The requests `execute` sends, in order. */
  function Plan(p: Product, c: Context): seq<Request> {
    if !AnyChanged(p) || !Configured(c) then [] else [PriceRequest(p, c)] + DateRequests(p, c)
  }

  /** The requests of a sequence of calls. */
  function RequestsOf(calls: seq<Call>): seq<Request> {
    seq(|calls|, i requires 0 <= i < |calls| => calls[i].request)
  }

  /** Nothing is sent when nothing changed or the module is not configured, and otherwise at least the price. */
  lemma PlanEmpty(p: Product, c: Context)
    ensures Plan(p, c) == [] <==> !AnyChanged(p) || !Configured(c)
  {
  }

  /** A product without an original price always counts as changed, whatever its new price. */
  lemma NullOriginalPriceIsChange(p: Product)
    requires p.price.before.None?
    ensures AnyChanged(p)
  {
  }

  /** One request for the price, plus one per changed date, even when only a date changed. */
  lemma PlanLength(p: Product, c: Context)
    requires AnyChanged(p) && Configured(c)
    ensures |Plan(p, c)| == 1 + (if Changed(p.fromDate) then 1 else 0) + (if Changed(p.toDate) then 1 else 0)
  {
  }

  /**
   * The price is posted exactly once, first, to the price endpoint with the
   * price payload; every later request is a PUT to the custom-field endpoint.
   */
  lemma PlanPriceFirst(p: Product, c: Context)
    requires AnyChanged(p) && Configured(c)
    ensures var plan := Plan(p, c);
            && plan != []
            && plan[0].verb == "POST" && plan[0].url == PriceEndpoint(c) && plan[0].payload == PricePayload(p, c.currency)
            && (forall i :: 1 <= i < |plan| ==> plan[i].verb == "PUT" && plan[i].url == CustomFieldsEndpoint(c))
  {
    var plan := Plan(p, c);
    var dates := DateRequests(p, c);
    forall i | 1 <= i < |plan|
      ensures plan[i] == dates[i - 1]
    {
    }
  }

  /**
   * The from date comes before the to date: a changed from date is the first
   * update, for `special_price_start_date`, and a changed to date the last,
   * for `special_price_end_date`; both carry the integer channel id and the SKU.
   */
  lemma DateRequestsOrder(p: Product, c: Context)
    ensures var dates := DateRequests(p, c);
            && (Changed(p.fromDate) ==>
                  dates[0].payload == DatePayload(c.channelNumber, SpecialFromField, PhpStrings.Str(p.sku), PhpStrings.Str(p.fromDate.after)))
            && (Changed(p.toDate) ==>
                  dates[|dates| - 1].payload == DatePayload(c.channelNumber, SpecialToField, PhpStrings.Str(p.sku), PhpStrings.Str(p.toDate.after)))
  {
  }

  /** Every request carries the API key and the 1 s connect and 2 s total timeouts. */
  lemma PlanHeaders(p: Product, c: Context)
    ensures forall r :: r in Plan(p, c) ==> r.headers == ApiKeyHeader(c.apiKey) && r.connectTimeout == 1 && r.timeout == 2
  {
  }

  /**
   * The payload has a `special_price` member exactly when the special price
   * changed, and then it holds `SpecialPriceValue` of the new value.
   */
  lemma SpecialPriceMember(p: Product, currency: string)
    ensures Get(PricePayload(p, currency), "special_price")
            == if Changed(p.special) then Some(SpecialPriceValue(p.special.after)) else None
  {
    var base := [("product_sku", Str(PhpStrings.Str(p.sku))), ("price", Str(PhpStrings.Str(p.price.after))),
                 ("currency", Str(currency)), ("includes_tax", Bool(true))];
    assert !IsCanonicalInt("special_price");
    if Changed(p.special) {
      ObjectLastMember(base, "special_price", SpecialPriceValue(p.special.after));
    } else {
      assert base + [] == base;
      GetObjectAbsent(base, "special_price");
    }
  }

  /** A positive decimal such as `"12.50"` is sent as given. */
  lemma SpecialPriceSentExample()
    ensures SpecialPriceValue(Some("12.50")) == Str("12.50")
  {
    var s := "12.50";
    assert !IsNumericSpace(s[0]);
    assert SkipNumericSpace(s) == s;
    assert IsDigit(s[0]) && s[0] != '0';
  }

  /** A zero amount written with decimals, `"0.00"`, clears the special price. */
  lemma SpecialPriceZeroExample()
    ensures SpecialPriceValue(Some("0.00")) == Null
  {
    var s := "0.00";
    assert !IsNumericSpace(s[0]);
    assert SkipNumericSpace(s) == s;
    assert s[1..] == ".00" && s[2..] == "00" && s[3..] == "0" && s[4..] == "";
    assert !PositiveMantissa(s[4..], true);
    assert !PositiveMantissa(s[3..], true);
    assert !PositiveMantissa(s[2..], true);
    assert !PositiveMantissa(s[1..], false);
  }

  /** A negative amount, `"-3"`, clears the special price. */
  lemma SpecialPriceNegativeExample()
    ensures SpecialPriceValue(Some("-3")) == Null
  {
    var s := "-3";
    assert !IsNumericSpace(s[0]);
    assert SkipNumericSpace(s) == s;
  }

  /** Text that is not a number, such as `"abc"`, clears the special price. */
  lemma SpecialPriceTextExample()
    ensures SpecialPriceValue(Some("abc")) == Null
  {
    var s := "abc";
    assert !IsNumericSpace(s[0]);
    assert SkipNumericSpace(s) == s;
    assert !IsDigit(s[0]);
  }

  /** A custom-field payload carries the integer channel id, the machine name, the SKU and the value. */
  lemma DatePayloadMembers(channelId: int, machineName: string, sku: string, value: string)
    ensures var v := DatePayload(channelId, machineName, sku, value);
            && Get(v, "channel_id") == Some(Int(channelId))
            && Get(v, "machine_name") == Some(Str(machineName))
            && Get(v, "product_sku") == Some(Str(sku))
            && Get(v, "value") == Some(Str(value))
  {
    var members := [("channel_id", Int(channelId)), ("machine_name", Str(machineName)),
                    ("product_sku", Str(sku)), ("value", Str(value))];
    assert !IsCanonicalInt("channel_id") && !IsCanonicalInt("machine_name");
    assert !IsCanonicalInt("product_sku") && !IsCanonicalInt("value");
    GetObjectMember(members, 0);
    GetObjectMember(members, 1);
    GetObjectMember(members, 2);
    GetObjectMember(members, 3);
  }

  // ---------------------------------------------------------------------------
  // Failed requests
  // ---------------------------------------------------------------------------

  /** A row of the failed-request table as `execute` fills it. */
  datatype FailedRecord = FailedRecord(
    endpoint: string,
    verb: string,
    headers: string,
    payload: string,
    error: string,
    retryCount: int,
    status: int,
    nextAttemptAt: Option<string>)

  /** The record of a failed call: the key masked, the response body (or error message) as the error, no retry yet. */
  function RecordOf(call: Call, encode: Value -> string): FailedRecord {
    FailedRecord(call.request.url, call.request.verb, encode(RedactedHeaders), encode(call.request.payload),
                 PhpStrings.Str(call.outcome.body), 0, 0, None)
  }

  predicate Failed(call: Call) {
    !call.outcome.ok
  }

  /** What one call adds to the store: its record when it failed and the store takes it. */
  function RecordedOne(call: Call, encode: Value -> string, accepts: FailedRecord -> bool): seq<FailedRecord> {
    if Failed(call) && accepts(RecordOf(call, encode)) then [RecordOf(call, encode)] else []
  }

  /** What a sequence of calls adds to the store, in order. */
  function Recorded(calls: seq<Call>, encode: Value -> string, accepts: FailedRecord -> bool): seq<FailedRecord> {
    if calls == [] then []
    else Recorded(calls[..|calls| - 1], encode, accepts) + RecordedOne(calls[|calls| - 1], encode, accepts)
  }

  lemma RecordedSnoc(calls: seq<Call>, call: Call, encode: Value -> string, accepts: FailedRecord -> bool)
    ensures Recorded(calls + [call], encode, accepts) == Recorded(calls, encode, accepts) + RecordedOne(call, encode, accepts)
  {
    assert (calls + [call])[..|calls|] == calls;
  }

  lemma {:induction false} RecordedAppend(a: seq<Call>, b: seq<Call>, encode: Value -> string, accepts: FailedRecord -> bool)
    ensures Recorded(a + b, encode, accepts) == Recorded(a, encode, accepts) + Recorded(b, encode, accepts)
    decreases |b|
  {
    if b == [] {
      assert a + b == a;
    } else {
      var init := b[..|b| - 1];
      var last := b[|b| - 1];
      assert b == init + [last];
      AppendAssoc(a, init, [last]);
      RecordedSnoc(a + init, last, encode, accepts);
      RecordedAppend(a, init, encode, accepts);
      AppendAssoc(Recorded(a, encode, accepts), Recorded(init, encode, accepts), RecordedOne(last, encode, accepts));
    }
  }

  /** A stored record is exactly the record of a failed call that the store accepted. */
  lemma {:induction false} RecordedMembers(calls: seq<Call>, encode: Value -> string, accepts: FailedRecord -> bool, r: FailedRecord)
    ensures r in Recorded(calls, encode, accepts) <==>
      exists i :: 0 <= i < |calls| && Failed(calls[i]) && r == RecordOf(calls[i], encode) && accepts(r)
  {
    if calls != [] {
      var n := |calls|;
      var init := calls[..n - 1];
      RecordedMembers(init, encode, accepts, r);
      if exists i :: 0 <= i < n && Failed(calls[i]) && r == RecordOf(calls[i], encode) && accepts(r) {
        var i :| 0 <= i < n && Failed(calls[i]) && r == RecordOf(calls[i], encode) && accepts(r);
        if i < n - 1 {
          assert init[i] == calls[i];
        }
      }
      if r in Recorded(init, encode, accepts) {
        var i :| 0 <= i < n - 1 && Failed(init[i]) && r == RecordOf(init[i], encode) && accepts(r);
        assert calls[i] == init[i];
      }
    }
  }

  /** Every stored record has the key masked and starts with no retry, status 0 and no next attempt. */
  lemma RecordedRedacted(calls: seq<Call>, encode: Value -> string, accepts: FailedRecord -> bool)
    ensures forall r :: r in Recorded(calls, encode, accepts) ==>
      r.headers == encode(RedactedHeaders) && r.retryCount == 0 && r.status == 0 && r.nextAttemptAt.None?
  {
    forall r | r in Recorded(calls, encode, accepts)
      ensures r.headers == encode(RedactedHeaders) && r.retryCount == 0 && r.status == 0 && r.nextAttemptAt.None?
    {
      RecordedMembers(calls, encode, accepts, r);
    }
  }

  /** With a store that takes every record, there is exactly one record per failed call. */
  lemma {:induction false} RecordedCount(calls: seq<Call>, encode: Value -> string, accepts: FailedRecord -> bool)
    requires forall r :: accepts(r)
    ensures |Recorded(calls, encode, accepts)| == |Indices(calls, Failed)|
  {
    if calls == [] {
      assert Indices(calls, Failed) == {};
    } else {
      var n := |calls|;
      RecordedCount(calls[..n - 1], encode, accepts);
      IndicesSnoc(calls, Failed);
      assert n - 1 !in Indices(calls[..n - 1], Failed);
    }
  }

  /** The failed-request table: `save` stores the record or throws, which is reported as `false`. */
  class FailureStore {
    const accepts: FailedRecord -> bool
    var records: seq<FailedRecord>

    constructor (accepts: FailedRecord -> bool)
      ensures this.accepts == accepts && records == []
    {
      this.accepts := accepts;
      records := [];
    }

    method Save(r: FailedRecord) returns (ok: bool)
      modifies this`records
      ensures ok == accepts(r)
      ensures records == old(records) + (if ok then [r] else [])
    {
      ok := accepts(r);
      if ok {
        records := records + [r];
      }
    }
  }

  class PriceChangeObserver {
    const sender: JsonSender
    const client: Client
    const scopeConfig: ConfigReader
    /** `storeManager->getStore($id)`. */
    const storeOf: int -> Store
    /** `json_encode`. */
    const jsonEncode: Value -> string
    const failures: FailureStore

    constructor (sender: JsonSender, client: Client, scopeConfig: ConfigReader, storeOf: int -> Store,
                 jsonEncode: Value -> string, failures: FailureStore)
      ensures this.sender == sender && this.client == client && this.scopeConfig == scopeConfig
      ensures this.storeOf == storeOf && this.jsonEncode == jsonEncode && this.failures == failures
    {
      this.sender := sender;
      this.client := client;
      this.scopeConfig := scopeConfig;
      this.storeOf := storeOf;
      this.jsonEncode := jsonEncode;
      this.failures := failures;
    }

    /** `(string)` of the value stored at `path` at the scope of the product's website, read directly. */
    function WebsiteSetting(p: Product, path: string): string
    {
      PhpStrings.Str(scopeConfig(path, WebsiteScope(PhpStrings.Str(storeOf(ToInteger(p.storeId)).websiteCode))))
    }

    /**
     * The settings for the product's website: base URL and API key through the
     * client, the channel id read at website scope, the store's base currency.
     */
    function ContextOf(p: Product): Context {
      var store := storeOf(ToInteger(p.storeId));
      var code := PhpStrings.Str(store.websiteCode);
      Context(client.GetBaseUrl(Some(code)), client.GetApiKey(Some(code)),
              PhpStrings.Str(scopeConfig(ChannelIdPath, WebsiteScope(code))),
              ToInt(PhpStrings.Str(scopeConfig(ChannelIdPath, WebsiteScope(code)))), PhpStrings.Str(store.baseCurrency))
    }

    /**
     * What the reads give: a base URL without a trailing `/`, a key without
     * surrounding whitespace, the channel id as stored at website scope and
     * its integer cast, and the store's currency.
     */
    lemma ContextFacts(p: Product)
      ensures var c := ContextOf(p);
        && (c.baseUrl == [] || c.baseUrl[|c.baseUrl| - 1] != '/')
        && (c.apiKey == [] || (!IsTrimChar(c.apiKey[0]) && !IsTrimChar(c.apiKey[|c.apiKey| - 1])))
        && c.channelId == WebsiteSetting(p, ChannelIdPath)
        && c.channelNumber == ToInt(c.channelId)
        && c.currency == PhpStrings.Str(storeOf(ToInteger(p.storeId)).baseCurrency)
    {
    }

    /** The reads of `execute` between the change test and the configuration test. */
    method ReadContext(p: Product) returns (c: Context)
      ensures c == ContextOf(p)
      ensures c.baseUrl == [] || c.baseUrl[|c.baseUrl| - 1] != '/'
      ensures c.apiKey == [] || (!IsTrimChar(c.apiKey[0]) && !IsTrimChar(c.apiKey[|c.apiKey| - 1]))
      ensures c.channelId == WebsiteSetting(p, ChannelIdPath)
      ensures c.channelNumber == ToInt(c.channelId)
    {
      ContextFacts(p);
      var store := storeOf(ToInteger(p.storeId));
      var websiteCode := PhpStrings.Str(store.websiteCode);
      var baseUrl := client.GetBaseUrl(Some(websiteCode));
      var apiKey := client.GetApiKey(Some(websiteCode));
      var channelId := PhpStrings.Str(scopeConfig(ChannelIdPath, WebsiteScope(websiteCode)));
      c := Context(baseUrl, apiKey, channelId, ToInt(channelId), PhpStrings.Str(store.baseCurrency));
    }

    /** One `sendJson` and, when it is not ok, the attempt to store its failure. */
    method SendAndRecord(request: Request) returns (outcome: Outcome)
      modifies sender`calls, sender.curl, sender.logger, failures`records
      ensures sender.calls == old(sender.calls) + [Call(request, outcome)]
      ensures failures.records == old(failures.records) + RecordedOne(Call(request, outcome), jsonEncode, failures.accepts)
    {
      outcome := sender.SendJson(request.url, request.payload, request.headers,
                                 request.connectTimeout, request.timeout, request.verb);
      if !outcome.ok {
        var saved := failures.Save(RecordOf(Call(request, outcome), jsonEncode));
      }
    }

    /** The price request (lines of `execute` that build and send it), with its failure recorded. */
    method SendPrice(p: Product, c: Context) returns (ghost call: Call)
      modifies sender`calls, sender.curl, sender.logger, failures`records
      ensures call.request == PriceRequest(p, c)
      ensures sender.calls == old(sender.calls) + [call]
      ensures failures.records == old(failures.records) + Recorded([call], jsonEncode, failures.accepts)
      ensures RequestsOf([call]) == [PriceRequest(p, c)]
    {
      var endpoint := RTrim(c.baseUrl, '/') + "/v1/channels/" + RawUrlEncode(c.channelId) + "/prices";
      var payload := PricePayload(p, c.currency);
      var request := Request(endpoint, payload, map["X-API-Key" := c.apiKey], 1, 2, "POST");
      var result := SendAndRecord(request);
      call := Call(request, result);
      RecordedSnoc([], call, jsonEncode, failures.accepts);
      assert [] + [call] == [call];
    }

    /** One custom-field update, with its failure recorded. */
    method SendDate(c: Context, machineName: string, sku: string, value: string) returns (ghost call: Call)
      modifies sender`calls, sender.curl, sender.logger, failures`records
      ensures call.request == DateRequest(c, machineName, sku, value)
      ensures sender.calls == old(sender.calls) + [call]
      ensures failures.records == old(failures.records) + RecordedOne(call, jsonEncode, failures.accepts)
    {
      var payloadCF := DatePayload(c.channelNumber, machineName, sku, value);
      var endpointCF := RTrim(c.baseUrl, '/') + "/v1/custom-fields";
      var request := Request(endpointCF, payloadCF, map["X-API-Key" := c.apiKey], 1, 2, "PUT");
      var result := SendAndRecord(request);
      call := Call(request, result);
    }

    /** Bookkeeping: two batches of calls made one after the other keep the calls and the records in step. */
    lemma Combine(a: seq<Call>, b: seq<Call>, calls0: seq<Call>, records0: seq<FailedRecord>)
      requires sender.calls == (calls0 + a) + b
      requires failures.records == (records0 + Recorded(a, jsonEncode, failures.accepts)) + Recorded(b, jsonEncode, failures.accepts)
      ensures sender.calls == calls0 + (a + b)
      ensures RequestsOf(a + b) == RequestsOf(a) + RequestsOf(b)
      ensures failures.records == records0 + Recorded(a + b, jsonEncode, failures.accepts)
    {
      RecordedAppend(a, b, jsonEncode, failures.accepts);
      AppendAssoc(calls0, a, b);
      AppendAssoc(records0, Recorded(a, jsonEncode, failures.accepts), Recorded(b, jsonEncode, failures.accepts));
    }

    /** One date update of the date block, sent only when its field changed. */
    method SendDateIfChanged(changed: bool, c: Context, machineName: string, sku: string, value: string)
      returns (ghost made: seq<Call>)
      modifies sender`calls, sender.curl, sender.logger, failures`records
      ensures sender.calls == old(sender.calls) + made
      ensures RequestsOf(made) == OptionalDate(changed, c, machineName, sku, value)
      ensures failures.records == old(failures.records) + Recorded(made, jsonEncode, failures.accepts)
    {
      made := [];
      if changed {
        var call := SendDate(c, machineName, sku, value);
        made := [call];
        RecordedSnoc([], call, jsonEncode, failures.accepts);
        assert [] + [call] == [call];
      }
    }

    /** The date block of `execute`: the from date, then the to date, each only when it changed. */
    method SendDates(p: Product, c: Context) returns (ghost made: seq<Call>)
      modifies sender`calls, sender.curl, sender.logger, failures`records
      ensures sender.calls == old(sender.calls) + made
      ensures RequestsOf(made) == DateRequests(p, c)
      ensures failures.records == old(failures.records) + Recorded(made, jsonEncode, failures.accepts)
    {
      made := [];
      var fromChanged := Changed(p.fromDate);
      var toChanged := Changed(p.toDate);
      if fromChanged || toChanged {
        var sku := PhpStrings.Str(p.sku);
        var fromMade := SendDateIfChanged(fromChanged, c, SpecialFromField, sku, PhpStrings.Str(p.fromDate.after));
        var toMade := SendDateIfChanged(toChanged, c, SpecialToField, sku, PhpStrings.Str(p.toDate.after));
        made := fromMade + toMade;
        Combine(fromMade, toMade, old(sender.calls), old(failures.records));
      }
    }

    /**
     * `execute`: the calls made are exactly the planned requests, in order,
     * and the store gains exactly the records of the failed ones it accepts.
     * A refused record does not stop the later requests, and nothing escapes.
     */
    method Execute(p: Product) returns (ghost made: seq<Call>)
      modifies sender`calls, sender.curl, sender.logger, failures`records
      ensures sender.calls == old(sender.calls) + made
      ensures RequestsOf(made) == Plan(p, ContextOf(p))
      ensures failures.records == old(failures.records) + Recorded(made, jsonEncode, failures.accepts)
      ensures made == [] ==> unchanged(sender.curl) && unchanged(sender.logger)
    {
      made := [];
      var priceChanged := p.price.before.None? || Changed(p.price);
      var specialChanged := Changed(p.special);
      var fromChanged := Changed(p.fromDate);
      var toChanged := Changed(p.toDate);
      if !priceChanged && !specialChanged && !fromChanged && !toChanged {
        PlanEmpty(p, ContextOf(p));
        return;
      }
      var c := ReadContext(p);
      if c.apiKey == "" || c.channelId == "" {
        PlanEmpty(p, c);
        return;
      }
      assert AnyChanged(p) && Configured(c);
      made := SendAll(p, c);
    }

    /** The requests of a configured `execute` with a change: the price, then the changed dates. */
    method SendAll(p: Product, c: Context) returns (ghost made: seq<Call>)
      requires AnyChanged(p) && Configured(c)
      modifies sender`calls, sender.curl, sender.logger, failures`records
      ensures sender.calls == old(sender.calls) + made
      ensures made != [] && RequestsOf(made) == Plan(p, c)
      ensures failures.records == old(failures.records) + Recorded(made, jsonEncode, failures.accepts)
    {
      var first := SendPrice(p, c);
      var dates := SendDates(p, c);
      made := [first] + dates;
      Combine([first], dates, old(sender.calls), old(failures.records));
    }
  }
}

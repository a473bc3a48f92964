/**
 * `Client`: the module's settings as read from Magento's scoped configuration
 * (base URL and API key) and the three GET helpers that call the pricing API.
 * Every helper degrades to an empty result (`[]` or `null`) instead of
 * throwing: on a missing key, a transport error, a status outside 2xx or a
 * response that is not shaped `{"data": [...]}`.
 */
module ApiClient {
  import opened Wrappers
  import opened PhpStrings
  import opened PhpValues
  import opened UrlEncoding
  import opened Transport

  const BaseUrlPath := "stellion_pricemind/api/base_url"
  const ApiKeyPath := "stellion_pricemind/api/access_key"
  const ChannelIdPath := "stellion_pricemind/api/channel_id"

  /** The timeout, in seconds, the GET helpers set on the client. */
  const GetTimeoutSeconds := 10

  /** A configuration scope a value is read at. */
  datatype Scope = DefaultScope | WebsiteScope(code: string)

  /**
   * `ScopeConfigInterface::getValue($path, $scope, $code)`. Which stored value
   * a website scope inherits from the default scope is the store's business,
   * so a reader is any function of path and scope.
   */
  type ConfigReader = (string, Scope) -> Option<string>

  /** The scope a website code selects: website scope exactly when the code is truthy. */
  function ScopeFor(websiteCode: Option<string>): (scope: Scope)
    ensures scope.WebsiteScope? <==> Truthy(websiteCode)
    ensures scope.WebsiteScope? ==> scope.code == websiteCode.value
  {
    if Truthy(websiteCode) then WebsiteScope(websiteCode.value) else DefaultScope
  }

  /** The headers every GET helper sends. */
  function ApiHeaders(apiKey: string): map<string, string> {
    map["Content-Type" := "application/json", "X-API-Key" := apiKey]
  }

  /**
   * The `data` member of a decoded body, when the body decoded to an array
   * whose `data` is itself an array; nothing otherwise (also when decoding
   * failed).
   */
  function DataOf(decoded: Option<Value>): (data: Option<Value>)
    ensures data.Some? <==> decoded.Some? && Get(decoded.value, "data").Some? && Get(decoded.value, "data").value.Arr?
    ensures data.Some? ==> data == Get(decoded.value, "data") && decoded.value.Arr?
  {
    if decoded.Some? && decoded.value.Arr? then
      var d := Get(decoded.value, "data");
      if d.Some? && d.value.Arr? then d else None
    else None
  }

  /** `$data['product_domain_id'] ?? null`, cast with `(int)` when set. */
  function DomainIdOf(data: Value): (id: Option<int>)
    ensures id.Some? <==> Isset(data, "product_domain_id")
    ensures id.Some? ==> id.value == ToInteger(Get(data, "product_domain_id").value)
  {
    var v := GetOr(data, "product_domain_id", Null);
    if v != Null then Some(ToInteger(v)) else None
  }

  /** The path of the product-domain lookup: the channel id as one segment, the SKU as one query value. */
  function ProductDomainPath(channelId: string, sku: string): string {
    "/v1/channels/" + RawUrlEncode(channelId) + "/product-domain?sku=" + RawUrlEncode(sku)
  }

  /** The path of the active-source lookup. */
  function ActiveSourcePath(channelId: string): string {
    "/v1/channels/" + RawUrlEncode(channelId) + "/sources/active"
  }

  class Client {
    const scopeConfig: ConfigReader
    /** `$this->request->getParam('website')`. */
    const requestWebsite: Option<string>
    /** The encryptor: the plain text, or nothing when decryption throws. */
    const decrypt: string -> Option<string>
    /** The JSON unserializer: the decoded value, or nothing when it throws. */
    const unserialize: string -> Option<Value>
    const curl: Curl

    constructor (scopeConfig: ConfigReader, requestWebsite: Option<string>, decrypt: string -> Option<string>,
                 unserialize: string -> Option<Value>, curl: Curl)
      ensures this.scopeConfig == scopeConfig && this.requestWebsite == requestWebsite
      ensures this.decrypt == decrypt && this.unserialize == unserialize && this.curl == curl
    {
      this.scopeConfig := scopeConfig;
      this.requestWebsite := requestWebsite;
      this.decrypt := decrypt;
      this.unserialize := unserialize;
      this.curl := curl;
    }

    /** The website code a call uses: the one given, or else the request's `website` parameter. */
    function ResolveWebsite(websiteCode: Option<string>): (code: Option<string>)
      ensures websiteCode.Some? ==> code == websiteCode
      ensures websiteCode.None? ==> code == requestWebsite
    {
      if websiteCode.Some? then websiteCode else requestWebsite
    }

    /** `(string)` of the value stored at `path` for the scope a website code selects. */
    function Setting(path: string, websiteCode: Option<string>): string {
      PhpStrings.Str(scopeConfig(path, ScopeFor(ResolveWebsite(websiteCode))))
    }

    /**
     * `getBaseUrl`: the configured URL with every trailing `/` removed and
     * nothing else changed.
     */
    function GetBaseUrl(websiteCode: Option<string>): (url: string)
      ensures url == [] || url[|url| - 1] != '/'
      ensures |url| <= |Setting(BaseUrlPath, websiteCode)|
      ensures url == Setting(BaseUrlPath, websiteCode)[..|url|]
      ensures forall i :: |url| <= i < |Setting(BaseUrlPath, websiteCode)| ==> Setting(BaseUrlPath, websiteCode)[i] == '/'
    {
      RTrimStripsTrailing(Setting(BaseUrlPath, websiteCode), '/');
      RTrim(Setting(BaseUrlPath, websiteCode), '/')
    }

    /** Configuring the base URL with or without trailing slashes makes no difference. */
    lemma BaseUrlIgnoresTrailingSlashes(websiteCode: Option<string>, k: nat)
      ensures RTrim(Setting(BaseUrlPath, websiteCode) + Repeat('/', k), '/') == GetBaseUrl(websiteCode)
    {
      RTrimIgnoresTrailing(Setting(BaseUrlPath, websiteCode), '/', k);
    }

    /**
     * `getApiKey`: empty when nothing is stored (the encryptor is not
     * consulted) or when decryption fails; otherwise the decrypted key with
     * surrounding whitespace removed. A key never starts or ends with whitespace.
     */
    function GetApiKey(websiteCode: Option<string>): (key: string)
      ensures Setting(ApiKeyPath, websiteCode) == "" ==> key == ""
      ensures Setting(ApiKeyPath, websiteCode) != "" && decrypt(Setting(ApiKeyPath, websiteCode)).None? ==> key == ""
      ensures Setting(ApiKeyPath, websiteCode) != "" && decrypt(Setting(ApiKeyPath, websiteCode)).Some? ==>
                key == Trim(decrypt(Setting(ApiKeyPath, websiteCode)).value)
      ensures key == [] || (!IsTrimChar(key[0]) && !IsTrimChar(key[|key| - 1]))
    {
      var encrypted := Setting(ApiKeyPath, websiteCode);
      if encrypted == "" then ""
      else match decrypt(encrypted)
        case None => ""
        case Some(plain) => Trim(plain)
    }

    /**
     * What a GET helper makes of a reply: the `data` array of a 2xx response
     * whose body decodes to an array holding an array `data`; nothing for a
     * transport error, any other status, or any other body.
     */
    function ResponseData(reply: Reply): (data: Option<Value>)
      ensures data.Some? ==> reply.Response? && IsOk(reply.status) && data.value.Arr?
      ensures reply.Response? && IsOk(reply.status) ==> data == DataOf(unserialize(reply.body))
    {
      match reply
      case Failure(_) => None
      case Response(status, body) => if IsOk(status) then DataOf(unserialize(body)) else None
    }

    /** The data a GET of `url` issued in the current client state yields, if the client can set a timeout. */
    function FetchedData(url: string): Option<Value>
      reads curl
    {
      if curl.hasSetTimeout then ResponseData(curl.network(curl.Next(GetEntry, url, ""))) else None
    }

    /**
     * The client state after one GET helper's request: the API headers are
     * set; when the client has `setTimeout`, the 10-second timeout is set and
     * exactly one GET of `url` was issued; when it has not, calling it throws
     * and no request is issued.
     */
    twostate predicate Fetched(url: string, apiKey: string)
      reads curl
    {
      && curl.headers == ApiHeaders(apiKey)
      && curl.connectTimeout == old(curl.connectTimeout)
      && curl.customRequest == old(curl.customRequest)
      && if curl.hasSetTimeout then
           && curl.timeout == Some(GetTimeoutSeconds)
           && curl.exchanges == old(curl.exchanges) + [curl.Next(GetEntry, url, "")]
         else
           && curl.timeout == old(curl.timeout)
           && curl.exchanges == old(curl.exchanges)
    }

    /** The request and response handling the three GET helpers share. */
    method Fetch(url: string, apiKey: string) returns (data: Option<Value>)
      modifies curl`headers, curl`timeout, curl`exchanges, curl`status, curl`body
      ensures Fetched(url, apiKey)
      ensures data == FetchedData(url)
    {
      curl.SetHeaders(ApiHeaders(apiKey));
      if !curl.hasSetTimeout {
        // Calling the missing `setTimeout` throws an Error; the helper's catch yields the empty result.
        return None;
      }
      curl.SetTimeout(GetTimeoutSeconds);
      ghost var ex := curl.Next(GetEntry, url, "");
      var error := curl.Get(url);
      assert curl.Next(GetEntry, url, "") == ex;
      if error.Some? {
        return None;
      }
      var status := curl.status;
      var body := curl.body;
      if status < 200 || status >= 300 {
        return None;
      }
      var decoded := unserialize(body);
      data := DataOf(decoded);
    }

    /**
     * `listChannels`: without an API key, `[]` and no request; otherwise one
     * GET of `<base>/v1/channels` and its `data` array, or `[]` when the
     * response is unusable.
     */
    method ListChannels() returns (channels: Value)
      modifies curl`headers, curl`timeout, curl`exchanges, curl`status, curl`body
      ensures channels.Arr?
      ensures GetApiKey(None) == "" ==> channels == Arr([]) && unchanged(curl)
      ensures GetApiKey(None) != "" ==>
        && Fetched(GetBaseUrl(None) + "/v1/channels", GetApiKey(None))
        && channels == FetchedData(GetBaseUrl(None) + "/v1/channels").GetOr(Arr([]))
    {
      var apiKey := GetApiKey(None);
      if apiKey == "" {
        return Arr([]);
      }
      var url := GetBaseUrl(None) + "/v1/channels";
      var data := Fetch(url, apiKey);
      channels := data.GetOr(Arr([]));
    }

    /**
     * `getActiveChannelSource`: without an API key, `null` and no request;
     * otherwise one GET of the channel's active-source path and its `data`
     * array, or `null` when the response is unusable.
     */
    method GetActiveChannelSource(channelId: string, websiteCode: Option<string>) returns (source: Option<Value>)
      modifies curl`headers, curl`timeout, curl`exchanges, curl`status, curl`body
      ensures source.Some? ==> source.value.Arr?
      ensures GetApiKey(websiteCode) == "" ==> source == None && unchanged(curl)
      ensures GetApiKey(websiteCode) != "" ==>
        && Fetched(GetBaseUrl(websiteCode) + ActiveSourcePath(channelId), GetApiKey(websiteCode))
        && source == FetchedData(GetBaseUrl(websiteCode) + ActiveSourcePath(channelId))
    {
      var apiKey := GetApiKey(websiteCode);
      if apiKey == "" {
        return None;
      }
      var url := GetBaseUrl(websiteCode) + ActiveSourcePath(channelId);
      source := Fetch(url, apiKey);
    }

    /**
     * `lookupProductDomainIdBySKU`: without an API key, `null` and no
     * request; otherwise one GET of the product-domain path, and the integer
     * cast of `data.product_domain_id` when the response is usable and that
     * member is set.
     */
    method LookupProductDomainIdBySku(channelId: string, sku: string, websiteCode: Option<string>) returns (id: Option<int>)
      modifies curl`headers, curl`timeout, curl`exchanges, curl`status, curl`body
      ensures GetApiKey(websiteCode) == "" ==> id == None && unchanged(curl)
      ensures GetApiKey(websiteCode) != "" ==>
        && Fetched(GetBaseUrl(websiteCode) + ProductDomainPath(channelId, sku), GetApiKey(websiteCode))
        && var data := FetchedData(GetBaseUrl(websiteCode) + ProductDomainPath(channelId, sku));
           id == (if data.Some? then DomainIdOf(data.value) else None)
    {
      var apiKey := GetApiKey(websiteCode);
      if apiKey == "" {
        return None;
      }
      var url := GetBaseUrl(websiteCode) + ProductDomainPath(channelId, sku);
      var data := Fetch(url, apiKey);
      if data.Some? {
        id := DomainIdOf(data.value);
      } else {
        id := None;
      }
    }
  }
}

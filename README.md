# Pricemind connector for Magento — verified model

This project models the core of the Stellion Pricemind Magento module in Dafny and proves properties of that model. The module pushes product price changes to the Pricemind pricing API. It has five parts, one Dafny module each:

- **`PriceObserver`** models `ProductPriceChangeObserver::execute`.
  - It runs after a product save and compares price, special price and the special-price dates as strings.
  - When something changed and the website has an API key and a channel id, it posts the price.
  - Then it puts each changed date into its custom field.
  - Every call that does not come back ok leaves one failure record, with the API key masked.
  - `Execute` is proved against `Plan`: the calls it makes are exactly the planned requests, in order. The failure store gains exactly the records of the failed calls that it accepts.
- **`Sender`** models `Sender::sendJson`.
  - Its state is the shared Curl client: headers, timeouts, custom verb, and the log of issued requests.
  - `SendJson` never fails. An empty URL is a no-op that reports success.
  - Otherwise the payload is posted exactly once, whatever the verb.
  - The outcome is ok exactly for a 2xx status, which is the Successful class of section 15.3 of RFC 9110.
  - A transport exception becomes `{ok: false, status: null, body: message}`.
  - Any outcome that is not ok leaves one warning in the log.
  - The custom verb set for a PUT stays set on the shared client, so a later POST on that client still goes out as PUT (`CustomVerbSticks`).
- **`ApiClient`** models `Client`.
  - `getBaseUrl` and `getApiKey` read the scoped configuration.
  - Three GET helpers (`listChannels`, `getActiveChannelSource`, `lookupProductDomainIdBySKU`) share one rule. A missing key means no request. A transport error, a status outside 2xx, or a body that is not `{"data": [...]}` gives an empty result.
  - Channel ids and SKUs are percent-encoded following section 2.3 of RFC 3986. `DecodeRawUrlEncode` proves that the encoding round-trips through the UTF-8 bytes.
- **`ChannelBackend`** models `Channel::afterSave`.
  - It fetches the channel's active source and classifies it as Magento or not.
  - It runs the five-stage machine-name search, which is proved equal to "the first non-empty candidate".
  - It writes the flag, type and title at the selected scope. A refused write ends the sequence.
- **`ChannelsSource`** models `Channels::toOptionArray`: the placeholder, then one option per channel with a non-empty `channel_id`, in order.

Supporting modules:

- `PhpStrings` holds PHP's string casts, `trim`/`rtrim`, ASCII `strtolower`/`strtoupper`, `(int)` as a leading-digit parse, and `(float) $s > 0` on decimal strings.
- `PhpValues` holds PHP arrays as ordered `(key, value)` entries, with PHP's integer-string key normalisation.
- `UrlEncoding` holds `rawurlencode`.
- `Transport` holds the Curl client and the logger.
- `Wrappers` and `Sequences` are generic helpers.

Foreign code is passed in as an oracle:

| Oracle | Stands for | Where it lives |
|---|---|---|
| `Curl.network` | the network | consulted once per request, with the request as issued |
| `decrypt` | the encryptor | a parameter |
| `unserialize` | the JSON unserializer | a parameter |
| `serialize`, `jsonEncode` | the JSON serializers | parameters |
| `storeOf` | the store manager | a parameter |
| `ConfigReader` | Magento's scoped configuration | a parameter |
| `ConfigWriter.rejects`, `FailureStore.accepts` | whether a database write throws | predicates on the writer and the store |

The `method_exists` checks on the Curl client are capability flags.

Where the code and the unit tests disagree, the model follows the code:

- **Price POST on a date-only change.** `execute` posts the price whenever something changed, including when only a date changed. So a date-only change also posts the price: one POST plus one PUT per changed date (`PlanLength`), where the test expects only the PUTs.
- **Empty channel id.** `afterSave` with an empty channel id writes nothing (`AfterSave`).
- **Channel options.** The option source reads `channel_id`, not `id`, uses the placeholder `-- Please select a channel --`, and caches nothing.

## Model

| member | source | states |
|---|---|---|
| Transport.IsOkIsSuccessfulClass | app/code/Stellion/Pricemind/Model/Sender.php:56 | the success test `200 <= status < 300` holds exactly for the Successful class of section 15.3 of RFC 9110 |
| Transport.SuccessBoundaries | app/code/Stellion/Pricemind/Model/Sender.php:56 | 199 and 300 are failures, 200 and 299 successes |
| Sender.OutcomeOf | app/code/Stellion/Pricemind/Model/Sender.php:54-69 | ok iff the reply is a 2xx response; a response carries its status and body; a transport failure has no status and its message as body |
| Sender.WarningsFor | app/code/Stellion/Pricemind/Model/Sender.php:57-68 | at most one warning is logged, and none exactly when the outcome is ok |
| Sender.CallerHeadersWin | app/code/Stellion/Pricemind/Model/Sender.php:32-34 | the merged headers always hold a content type, keep every caller header with the caller's value, and add only `Content-Type` |
| Sender.JsonSender.constructor | app/code/Stellion/Pricemind/Model/Sender.php:18-23 | the sender keeps its client, logger and serializer and has made no call |
| Sender.JsonSender.Configure | app/code/Stellion/Pricemind/Model/Sender.php:32-50 | headers are the JSON content type merged under the caller's; each timeout is set only when the client supports it; a verb other than POST (upper-cased) is set as the custom request only when supported, otherwise the option is unchanged |
| Sender.JsonSender.PostAndClassify | app/code/Stellion/Pricemind/Model/Sender.php:45-70 | exactly one post of the body is issued; the outcome is `OutcomeOf` the reply and the log gains `WarningsFor` it |
| Sender.JsonSender.SendJson | app/code/Stellion/Pricemind/Model/Sender.php:25-71 | an empty URL returns `{ok: true, null, null}` and touches neither client nor log; otherwise the client is configured, the serialized payload posted once whatever the verb, and the outcome and log follow the reply; every call is recorded |
| Sender.CustomVerbSticks | app/code/Stellion/Pricemind/Model/Sender.php:46-52 | after a `PUT` on a client with `setOption`, a later `POST` on the same client is still issued with the `PUT` custom request: the option is never cleared |
| ApiClient.ScopeFor | app/code/Stellion/Pricemind/Model/Api/Client.php:55-59 | website scope exactly when the website code is truthy, with that code; default scope otherwise |
| ApiClient.Client.ResolveWebsite | app/code/Stellion/Pricemind/Model/Api/Client.php:55 | the given website code, else the request's `website` parameter |
| ApiClient.Client.GetBaseUrl | app/code/Stellion/Pricemind/Model/Api/Client.php:53-62 | the configured URL with all trailing `/` removed: a prefix of it, not ending in `/`, with only `/` cut off |
| ApiClient.Client.BaseUrlIgnoresTrailingSlashes | app/code/Stellion/Pricemind/Model/Api/Client.php:61 | adding any number of trailing slashes to the setting does not change the base URL |
| ApiClient.Client.GetApiKey | app/code/Stellion/Pricemind/Model/Api/Client.php:64-82 | `''` without decrypting when nothing is stored, `''` when decryption throws, else the trimmed decrypted key; a key never starts or ends with whitespace |
| ApiClient.DataOf | app/code/Stellion/Pricemind/Model/Api/Client.php:109-114 | a usable body is exactly an array whose `data` member is an array, and then `data` is the result |
| ApiClient.DomainIdOf | app/code/Stellion/Pricemind/Model/Api/Client.php:181-182 | the integer cast of `product_domain_id` when it is set (not null), nothing otherwise |
| ApiClient.Client.ResponseData | app/code/Stellion/Pricemind/Model/Api/Client.php:101-114 | data only from a 2xx response whose decoded body is usable; transport errors and other statuses give nothing |
| ApiClient.Client.Fetch | app/code/Stellion/Pricemind/Model/Api/Client.php:94-114 | sets the API headers and the 10 s timeout, issues exactly one GET of the URL (none when the client has no `setTimeout`, which throws), and returns the reply's data |
| ApiClient.Client.ListChannels | app/code/Stellion/Pricemind/Model/Api/Client.php:84-119 | without a key `[]` and the client untouched; otherwise one GET of `<base>/v1/channels` and its `data` array, `[]` when unusable |
| ApiClient.Client.GetActiveChannelSource | app/code/Stellion/Pricemind/Model/Api/Client.php:121-154 | without a key `null` and no request; otherwise one GET of the encoded active-source path and its `data` array, `null` when unusable |
| ApiClient.Client.LookupProductDomainIdBySku | app/code/Stellion/Pricemind/Model/Api/Client.php:156-187 | without a key `null` and no request; otherwise one GET of the encoded product-domain path and `DomainIdOf` the usable data, `null` otherwise |
| ApiClient.Client.constructor | app/code/Stellion/Pricemind/Model/Api/Client.php:37-51 | the client keeps its configuration reader, request parameter, encryptor, unserializer and Curl client |
| PhpStrings.Str | app/code/Stellion/Pricemind/Observer/ProductPriceChangeObserver.php:66-69 | `(string)` of a string-or-null: `null` becomes `''`, a string is unchanged |
| PhpStrings.RTrimStripsTrailing | app/code/Stellion/Pricemind/Model/Api/Client.php:61 | `rtrim` keeps a prefix that does not end in the character and drops only copies of it |
| PhpStrings.RTrimIgnoresTrailing | app/code/Stellion/Pricemind/Observer/ProductPriceChangeObserver.php:85 | extra trailing copies of the character do not change `rtrim`'s result |
| PhpStrings.Trim | app/code/Stellion/Pricemind/Model/Api/Client.php:77 | the result is the middle of the input between its leading and trailing whitespace, and neither starts nor ends with whitespace |
| PhpStrings.ToUpper | app/code/Stellion/Pricemind/Model/Sender.php:43 | same length; every ASCII lower-case letter upper-cased, nothing else changed |
| PhpStrings.ToLower | app/code/Stellion/Pricemind/Model/Config/Backend/Channel.php:59 | same length; every ASCII upper-case letter lower-cased, nothing else changed |
| PhpStrings.ToIntOfIntToString | app/code/Stellion/Pricemind/Observer/ProductPriceChangeObserver.php:132 | `(int)(string)$i == $i` for every integer |
| PhpStrings.CanonicalIntRoundTrip | app/code/Stellion/Pricemind/Observer/ProductPriceChangeObserver.php:132 | `(string)(int)$s == $s` for every string written the way PHP writes an integer |
| PhpStrings.ToIntOfDigits | app/code/Stellion/Pricemind/Observer/ProductPriceChangeObserver.php:132 | `(int)` of a digit string, signed or not, is the number the digits denote |
| PhpStrings.NonNumericIsNotPositive | app/code/Stellion/Pricemind/Observer/ProductPriceChangeObserver.php:96 | a string that does not start (after whitespace and sign) with a digit or point is never positive |
| PhpStrings.PositiveIntIsPositiveNumber | app/code/Stellion/Pricemind/Observer/ProductPriceChangeObserver.php:96 | the decimal rendering of every positive integer counts as positive |
| PhpValues.KeyOfCanonical | app/code/Stellion/Pricemind/Model/Config/Backend/Channel.php:84 | `$a[$s]` addresses a string key exactly when `$s` is not a canonical integer, else the integer it writes |
| PhpValues.GetOr | app/code/Stellion/Pricemind/Model/Config/Source/Channels.php:30 | `$v[name] ?? $default`: the member when set and not null, the default otherwise |
| PhpValues.Values | app/code/Stellion/Pricemind/Model/Config/Source/Channels.php:28 | `foreach` sees the array's values in order |
| PhpValues.GetObjectMember | app/code/Stellion/Pricemind/Observer/ProductPriceChangeObserver.php:87-92 | a member of an array literal under a non-numeric name is read back with its value |
| PhpValues.ObjectLastMember | app/code/Stellion/Pricemind/Observer/ProductPriceChangeObserver.php:94-101 | a member appended under a fresh name is read back |
| PhpValues.GetObjectAbsent | app/code/Stellion/Pricemind/Observer/ProductPriceChangeObserver.php:94-101 | a name no member carries is absent |
| UrlEncoding.RawUrlEncodeAlphabet | app/code/Stellion/Pricemind/Model/Api/Client.php:128 | the encoding holds only unreserved characters and `%` |
| UrlEncoding.RawUrlEncodeUnreserved | app/code/Stellion/Pricemind/Model/Api/Client.php:162 | a string of unreserved characters is left as it is |
| UrlEncoding.DecodeRawUrlEncode | app/code/Stellion/Pricemind/Model/Api/Client.php:162 | percent-decoding the encoding gives back the UTF-8 bytes of the input |
| ChannelBackend.WebsiteCodeOf | app/code/Stellion/Pricemind/Model/Config/Backend/Channel.php:42 | the scope code as a string at websites scope, none otherwise |
| ChannelBackend.TargetOf | app/code/Stellion/Pricemind/Model/Config/Backend/Channel.php:44-45 | websites scope with the integer scope id exactly when the code is truthy; default scope with id 0 otherwise |
| ChannelBackend.ArrayMember | app/code/Stellion/Pricemind/Model/Config/Backend/Channel.php:56-57 | the member when it is an array, `[]` otherwise |
| ChannelBackend.MagentoTypeAnyCase | app/code/Stellion/Pricemind/Model/Config/Backend/Channel.php:59 | any spelling of the type that upper-cases to `MAGENTO` (every mix of letter cases) makes the source a Magento source |
| PhpStrings.LowerOfUpper | app/code/Stellion/Pricemind/Model/Config/Backend/Channel.php:59 | `strtolower(strtoupper($s)) == strtolower($s)`: lower-casing ignores any earlier change of case |
| ChannelBackend.CustomFieldMap | app/code/Stellion/Pricemind/Model/Config/Backend/Channel.php:75-81 | `custom_field` when set and not empty, else `custom_fields` when set |
| ChannelBackend.FirstNonEmpty | app/code/Stellion/Pricemind/Model/Config/Backend/Channel.php:83-144 | empty exactly when every candidate is empty |
| ChannelBackend.FirstNonEmptyAt | app/code/Stellion/Pricemind/Model/Config/Backend/Channel.php:83-144 | the first non-empty candidate is the result |
| ChannelBackend.FirstNonEmptyOfFive | app/code/Stellion/Pricemind/Model/Config/Backend/Channel.php:83-144 | running the five stages one after another, each only while the holder is empty, is taking the first non-empty candidate |
| ChannelBackend.DetectedWhenAttributeSet | app/code/Stellion/Pricemind/Model/Config/Backend/Channel.php:139-144 | a configured attribute always yields a machine name |
| ChannelBackend.DetectedPrecedence | app/code/Stellion/Pricemind/Model/Config/Backend/Channel.php:83-144 | a stage's candidate wins exactly when every earlier stage found nothing |
| ChannelBackend.InverseFindsFirst | app/code/Stellion/Pricemind/Model/Config/Backend/Channel.php:91-98 | the inverse search yields the key of the first entry naming the attribute |
| ChannelBackend.ListFindsFirst | app/code/Stellion/Pricemind/Model/Config/Backend/Channel.php:108-127 | the list search yields the machine name of the first matching item |
| ChannelBackend.FindInverse | app/code/Stellion/Pricemind/Model/Config/Backend/Channel.php:91-98 | the loop with `break` computes the inverse search |
| ChannelBackend.ScanList | app/code/Stellion/Pricemind/Model/Config/Backend/Channel.php:108-128 | the one shared loop fills each still-empty holder with that end's list search result |
| ChannelBackend.SpecialPriceAttr | app/code/Stellion/Pricemind/Model/Config/Backend/Channel.php:66-72 | `''` when `special_price` is unset or not an array; otherwise the `(string)` of the named member when it is set, `''` when it is not |
| ChannelBackend.ReadSpecialPriceAttrs | app/code/Stellion/Pricemind/Model/Config/Backend/Channel.php:66-72 | both attributes are `''` unless `special_price` is an array, and each is then read as `SpecialPriceAttr` states |
| ChannelBackend.ReadCustomFieldMap | app/code/Stellion/Pricemind/Model/Config/Backend/Channel.php:75-81 | the statements compute `CustomFieldMap` |
| ChannelBackend.SearchCustomFieldMap | app/code/Stellion/Pricemind/Model/Config/Backend/Channel.php:82-129 | each end gets the first non-empty of the direct, inverse and list stages |
| ChannelBackend.ApplyFallbacks | app/code/Stellion/Pricemind/Model/Config/Backend/Channel.php:130-144 | an empty holder takes the explicit name, then the attribute itself |
| ChannelBackend.DetectMachineNames | app/code/Stellion/Pricemind/Model/Config/Backend/Channel.php:65-144 | the detected names are the first non-empty of the five candidates in priority order |
| ChannelBackend.WritesShape | app/code/Stellion/Pricemind/Model/Config/Backend/Channel.php:147-155 | one to three writes, all at the target scope, the `'1'`/`'0'` flag first; type and title exactly when non-empty, with their values; no other key, so no machine name |
| ChannelBackend.NoSourceWritesFlagOnly | app/code/Stellion/Pricemind/Model/Config/Backend/Channel.php:148-154 | without an array source only `source_is_magento = '0'` is written |
| ChannelBackend.PersistedIsAcceptedPrefix | app/code/Stellion/Pricemind/Model/Config/Backend/Channel.php:147-159 | what reaches the store is the longest prefix of the writes the store accepts |
| ChannelBackend.PersistedCons | app/code/Stellion/Pricemind/Model/Config/Backend/Channel.php:148-159 | a write goes through, and the rest are tried, exactly when the store accepts it |
| ChannelBackend.ConfigWriter.Save | app/code/Stellion/Pricemind/Model/Config/Backend/Channel.php:148 | the write is stored exactly when the store accepts it |
| ChannelBackend.InspectSource | app/code/Stellion/Pricemind/Model/Config/Backend/Channel.php:53-145 | the heuristic's verdict is `IsMagentoSource`; type and title are the `(string)` of the members or `''` |
| ChannelBackend.ChannelSetting.Classify | app/code/Stellion/Pricemind/Model/Config/Backend/Channel.php:47-64 | the source is the client's fetch result; verdict, type and title are those of an array source and `false`, `''`, `''` otherwise |
| ChannelBackend.ChannelSetting.AfterSave | app/code/Stellion/Pricemind/Model/Config/Backend/Channel.php:37-162 | an empty channel id writes nothing and makes no request; otherwise the active source is fetched for the saved website and the store gains the accepted prefix of the planned writes |
| ChannelBackend.ChannelSetting.SaveAll | app/code/Stellion/Pricemind/Model/Config/Backend/Channel.php:147-154 | the store gains the accepted prefix of flag, type and title |
| ChannelBackend.ChannelSetting.SaveDetails | app/code/Stellion/Pricemind/Model/Config/Backend/Channel.php:149-154 | the store gains the accepted prefix of type and title |
| ChannelBackend.ChannelSetting.SaveTitle | app/code/Stellion/Pricemind/Model/Config/Backend/Channel.php:152-154 | the title is stored when non-empty and accepted |
| ChannelBackend.ChannelSetting.constructor | app/code/Stellion/Pricemind/Model/Config/Backend/Channel.php:21-35 | the setting keeps its client, writer, value, scope, scope code and scope id |
| ChannelsSource.ChannelLabel | app/code/Stellion/Pricemind/Model/Config/Source/Channels.php:29 | the `name` when set, the `channel_id` string otherwise |
| ChannelsSource.ListedAppend | app/code/Stellion/Pricemind/Model/Config/Source/Channels.php:28-38 | options of a concatenation are the options of each part in order |
| ChannelsSource.ListedMembers | app/code/Stellion/Pricemind/Model/Config/Source/Channels.php:28-38 | an option is produced exactly for a channel with a non-empty id, and is that channel's label and id |
| ChannelsSource.ListedCount | app/code/Stellion/Pricemind/Model/Config/Source/Channels.php:27-38 | there is one option per channel with a non-empty id |
| ChannelsSource.BuildOptions | app/code/Stellion/Pricemind/Model/Config/Source/Channels.php:20-40 | the loop yields the placeholder followed by the listed channels' options in order |
| ChannelsSource.ChannelOptionSource.ToOptionArray | app/code/Stellion/Pricemind/Model/Config/Source/Channels.php:18-41 | without a key the channels are `[]` and the client is untouched; with one, the client has the API headers, the 10 s timeout and exactly one more GET of `<base>/v1/channels`, and the channels are its data; the options are the placeholder and one per listed channel |
| ChannelsSource.ChannelOptionSource.constructor | app/code/Stellion/Pricemind/Model/Config/Source/Channels.php:13-16 | the source keeps its client |
| PriceObserver.PlanEmpty | app/code/Stellion/Pricemind/Observer/ProductPriceChangeObserver.php:66-83 | nothing is sent exactly when no field changed or the website lacks a key or a channel id |
| PriceObserver.NullOriginalPriceIsChange | app/code/Stellion/Pricemind/Observer/ProductPriceChangeObserver.php:66 | a product without an original price always counts as changed |
| PriceObserver.PlanLength | app/code/Stellion/Pricemind/Observer/ProductPriceChangeObserver.php:103-173 | one price request plus one per changed date, also when only a date changed |
| PriceObserver.PlanPriceFirst | app/code/Stellion/Pricemind/Observer/ProductPriceChangeObserver.php:85-105 | the price is posted once, first, to the encoded price endpoint with the price payload; every later request is a PUT to the custom-field endpoint |
| PriceObserver.DateRequestsOrder | app/code/Stellion/Pricemind/Observer/ProductPriceChangeObserver.php:127-173 | a changed from date is the first update, for `special_price_start_date`; a changed to date the last, for `special_price_end_date`; both carry the integer channel id and the SKU |
| PriceObserver.PlanHeaders | app/code/Stellion/Pricemind/Observer/ProductPriceChangeObserver.php:103-173 | every request carries the API key and the 1 s / 2 s timeouts |
| PriceObserver.SpecialPriceMember | app/code/Stellion/Pricemind/Observer/ProductPriceChangeObserver.php:94-101 | `special_price` is in the payload exactly when the special price changed, holding the new value when positive and `null` otherwise |
| PriceObserver.SpecialPriceValue | app/code/Stellion/Pricemind/Observer/ProductPriceChangeObserver.php:96-100 | the value sent is the new value or `null`, and the new value exactly when it is set, non-empty and positive |
| PriceObserver.SpecialPriceSentExample | app/code/Stellion/Pricemind/Observer/ProductPriceChangeObserver.php:96 | `"12.50"` is sent as given |
| PriceObserver.SpecialPriceZeroExample | app/code/Stellion/Pricemind/Observer/ProductPriceChangeObserver.php:96 | `"0.00"` sends `null` |
| PriceObserver.SpecialPriceNegativeExample | app/code/Stellion/Pricemind/Observer/ProductPriceChangeObserver.php:96 | `"-3"` sends `null` |
| PriceObserver.SpecialPriceTextExample | app/code/Stellion/Pricemind/Observer/ProductPriceChangeObserver.php:96 | `"abc"` sends `null` |
| PriceObserver.DatePayloadMembers | app/code/Stellion/Pricemind/Observer/ProductPriceChangeObserver.php:137-142 | a custom-field payload carries the integer channel id, the machine name, the SKU and the value |
| PriceObserver.RecordedAppend | app/code/Stellion/Pricemind/Observer/ProductPriceChangeObserver.php:103-192 | the records of two batches of calls are those of each batch in order |
| PriceObserver.RecordedMembers | app/code/Stellion/Pricemind/Observer/ProductPriceChangeObserver.php:107-124 | a stored record is exactly the record of a failed call that the store accepted |
| PriceObserver.RecordedRedacted | app/code/Stellion/Pricemind/Observer/ProductPriceChangeObserver.php:109-118 | every stored record has the key masked, no retry, status 0 and no next attempt |
| PriceObserver.RecordedCount | app/code/Stellion/Pricemind/Observer/ProductPriceChangeObserver.php:107-124 | with a store that takes every record, one record per failed call |
| PriceObserver.FailureStore.Save | app/code/Stellion/Pricemind/Observer/ProductPriceChangeObserver.php:107-123 | the record is stored exactly when the store accepts it; a refusal is swallowed |
| PriceObserver.PriceChangeObserver.ContextFacts | app/code/Stellion/Pricemind/Observer/ProductPriceChangeObserver.php:74-79 | the base URL read for the product's website has no trailing `/`, the key no surrounding whitespace, the channel id is the `(string)` of the website-scope setting, its number is `(int)` of it, and the currency is the store's |
| PriceObserver.PriceChangeObserver.ReadContext | app/code/Stellion/Pricemind/Observer/ProductPriceChangeObserver.php:74-79 | the reads give the context `execute` uses: base URL without trailing `/`, trimmed key, the website-scope channel id and its integer cast |
| PriceObserver.PriceChangeObserver.SendAndRecord | app/code/Stellion/Pricemind/Observer/ProductPriceChangeObserver.php:103-124 | one call, and its record added exactly when it failed and the store accepted it |
| PriceObserver.PriceChangeObserver.SendPrice | app/code/Stellion/Pricemind/Observer/ProductPriceChangeObserver.php:85-124 | the call made is the planned price request, with its failure recorded |
| PriceObserver.PriceChangeObserver.SendDate | app/code/Stellion/Pricemind/Observer/ProductPriceChangeObserver.php:137-162 | the call made is the planned custom-field PUT, with its failure recorded |
| PriceObserver.PriceChangeObserver.SendDateIfChanged | app/code/Stellion/Pricemind/Observer/ProductPriceChangeObserver.php:136-163 | a date update is made exactly when its field changed |
| PriceObserver.PriceChangeObserver.SendDates | app/code/Stellion/Pricemind/Observer/ProductPriceChangeObserver.php:127-196 | the calls made are the planned date updates in order, and the records follow them |
| PriceObserver.PriceChangeObserver.SendAll | app/code/Stellion/Pricemind/Observer/ProductPriceChangeObserver.php:85-196 | the calls made are the whole plan for a configured change |
| PriceObserver.PriceChangeObserver.Execute | app/code/Stellion/Pricemind/Observer/ProductPriceChangeObserver.php:52-197 | the calls made are exactly the planned requests in order; the store gains exactly the accepted records of the failed ones; with no call, client and log are untouched |
| PriceObserver.PriceChangeObserver.constructor | app/code/Stellion/Pricemind/Observer/ProductPriceChangeObserver.php:34-50 | the observer keeps its collaborators |

## Left out

- Logging outside `Sender`. The warnings and errors of `Client`, of `afterSave`'s catch and of the observer's catches are not recorded. Only their effect is modelled: the error is swallowed.
- The outer `catch` of the observer's date block (`ProductPriceChangeObserver.php:193-195`) is not modelled. Nothing inside that block can throw in the model: `sendJson` never throws, and failures to save a record are caught further in.
- Floating point. `(float) $s > 0` is modelled for decimal strings (`ddd[.ddd]` after whitespace and sign). Exponents, `INF`/`NAN` and hexadecimal forms are not.
- 64-bit integer overflow of `(int)` casts. Integers are unbounded.
- JSON floats. `Value` has no float case, so a decoded body whose `product_domain_id` (`Client.php:182`) or whose channel `channel_id` or `name` (`Channels.php:29-30`) is a JSON number with a fraction or an exponent cannot be expressed.
- ToInt: does not model `(int)` of a numeric string with an exponent. PHP 7.1 and later give 1000 for `(int)"1e3"`; the model gives 1. This concerns the channel id at `ProductPriceChangeObserver.php:132` and the scope id at `Channel.php:45`.
- Exceptions from `storeManager->getStore()`, `getWebsite()` and `scopeConfig->getValue()` (`ProductPriceChangeObserver.php:74-79`). They sit outside any `try` and would escape `execute`; the model's `storeOf` and configuration reader are total.
- Strings that are not valid UTF-8. Strings are sequences of Unicode characters, so PHP byte strings that are not valid UTF-8 cannot be represented.
- Which configuration value a website scope inherits from the default scope. The store decides that; the model takes any reader of path and scope.
- Magento's Curl client itself. Requests go to the `network` oracle. The client's `setOption` keeps its value across requests, and the model keeps that behaviour rather than leaving it out (see `CustomVerbSticks`).
- Object-manager lookups and constructor injection. Collaborators are passed in explicitly.
- The admin form block, the failed-request resource model and its collection.
- What `json_encode`, the serializer and the encryptor produce. They are oracles.
- `parent::afterSave()` and Magento's event dispatch.
- DetectMachineNames: the result is computed as `afterSave` does, but nothing is written, because the code no longer persists machine names.
- Sender.JsonSender.SendJson: does not model an exception thrown by `setHeaders`, the timeout setters or the serializer. Only the transport's post can fail in the model.

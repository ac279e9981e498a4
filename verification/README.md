# Akamai cache-purge module for Drupal — a verified model

The akamai Drupal module purges URLs from the Akamai CDN. It posts CCU v2
"purge" requests and keeps a per-purge history of the status responses it
receives. It also provides settings forms and a manual cache-clearing form,
and it re-checks the stored credentials when they change. This project
models the module's own logic in Dafny and proves properties of it.

The modules are:

- `Php`: the PHP value and array semantics that the module relies on.
  - Truthiness and loose `== TRUE`.
  - NULL for a missing key.
  - Ordered arrays whose assignment overwrites in place or appends.
  - Array literals with repeated keys.
  - `array_filter`, `key`, and `explode`/`implode`.
- `StatusStorage`: the keyed status store. A class holds the table from purge id to history.
- `PurgeStatus`: the summary of one purge's history. It has the collation loop as a method and the summary fields as `const` fields tied to specification functions.
- `StatusLog`: the older, unkeyed append-only log.
- `ConfigForm` and `AkamaiConfigForm`: the one-hot domain and action mappings and the integer-field validation.
- `AkamaiContentControlClient`: the purge request built by `clearUrl`/`purgeUrl` and the swallowed send failure.
- `AkamaiClient`: the EdgeGrid client configuration written by `createClientConfig`.
- `CacheControlForm`: the split of the submitted paths and the default selections.
- `ConfigSubscriber`: the rule that decides when `akamai.valid_credentials` is rewritten.

Some inputs become parameters:

- The request clock (`REQUEST_TIME`) is a parameter `now`.
- The credential check `isAuthorized()` is a boolean parameter.
- The outcome of sending a request is a parameter: answered, or a `RequestException`.
- Drupal's state store is a field of the class that owns it.

PHP 7 semantics are used throughout. The module is written for Drupal 8.

## Model

| member | source | states |
|---|---|---|
| StatusStorage.Stamped | src/StatusStorage.php:75-77 | the stored copy carries `request_made_at` = request time; every other field is kept and no other key is added |
| StatusStorage.ResponseStatus | src/StatusStorage.php:63-65 | the response body with `urls_queued` set to the queued URLs; every other field is kept |
| StatusStorage.StatusStorage.SaveResponseStatus | src/StatusStorage.php:59-66 | the new table is the old one after saving the body with its queued URLs attached |
| StatusStorage.StatusStorage.Save | src/StatusStorage.php:75-82 | the new table is the old one with the stamped status appended to the history of its own purge id |
| StatusStorage.StatusStorage.Get | src/StatusStorage.php:113-126 | the history is returned exactly when the id is a key, and FALSE otherwise |
| StatusStorage.StatusStorage.Delete | src/StatusStorage.php:134-145 | the new table is the old one without that id |
| StatusStorage.SaveAppends | src/StatusStorage.php:75-82 | a save adds exactly one entry at the end of its id's history; the earlier entries are unchanged and the new one is stamped with the request time |
| StatusStorage.SaveKeepsOthers | src/StatusStorage.php:78 | a save leaves every other purge id's history unchanged |
| StatusStorage.SaveIllegalIdIsIgnored | src/StatusStorage.php:78 | a status whose purge id is an array (an illegal offset) is not stored |
| StatusStorage.SavesAccumulate | src/StatusStorage.php:75-82 | successive saves under one id, each in a request at its own time, append all the statuses in order, each stamped with its own request time; nothing is overwritten |
| StatusStorage.ThreeSavesCollate | src/Tests/AkamaiStatusLogTest.php:80-85 | three saves of one status in one request under a fresh id give a history of three entries |
| StatusStorage.DeleteRemovesOnly | src/StatusStorage.php:134-137 | after a delete, looking up that id gives FALSE; other ids are unchanged; deleting an absent id changes nothing |
| PurgeStatus.CollateUrls | src/PurgeStatus.php:69-77 | the nested loops produce every queued URL of every request, request by request and in order |
| PurgeStatus.MostRecent | src/PurgeStatus.php:79 | `array_pop` of the copy gives the last snapshot, and NULL exactly for an empty history |
| PurgeStatus.Description | src/PurgeStatus.php:87-92 | the description is `purgeStatus` when present, else `detail`, else NULL |
| PurgeStatus.PurgeStatus.constructor | src/PurgeStatus.php:65-94 | the whole history is kept, and every summary field is the function of that history it should be |
| PurgeStatus.PurgeStatus.GetPurgeId | src/PurgeStatus.php:102-104 | the purge id of the last kept snapshot, NULL for an empty history |
| PurgeStatus.PurgeStatus.GetLastCheckedTime | src/PurgeStatus.php:112-114 | the request time of the last kept snapshot, NULL for an empty history |
| PurgeStatus.PurgeStatus.GetUrls | src/PurgeStatus.php:123-125 | a URL is listed exactly when some request of the purge queued it |
| PurgeStatus.PurgeStatus.GetSupportId | src/PurgeStatus.php:133-135 | the support id of the last kept snapshot, NULL for an empty history |
| PurgeStatus.PurgeStatus.GetDescription | src/PurgeStatus.php:143-145 | the last snapshot's `purgeStatus`, else its `detail`, else NULL |
| PurgeStatus.PurgeStatus.GetHttpCode | src/PurgeStatus.php:153-155 | the HTTP status of the last kept snapshot, NULL for an empty history |
| PurgeStatus.PurgeStatus.IsComplete | src/PurgeStatus.php:163-165 | complete exactly when the description loosely equals 'Done': the string "Done", TRUE or 0 |
| PurgeStatus.PurgeStatus.GetMostRecentRequest | src/PurgeStatus.php:173-175 | the last kept request, and NULL for an empty history |
| PurgeStatus.CollatedUrlsAppend | src/PurgeStatus.php:69-77 | collation distributes over concatenation of histories |
| PurgeStatus.CollatedUrlsMembers | src/PurgeStatus.php:69-77 | a URL is collated exactly when some request of the history queued it |
| PurgeStatus.CollatedUrlsWithoutQueues | src/PurgeStatus.php:71-75 | requests without `urls_queued` contribute no URL |
| PurgeStatus.SummaryReadsMostRecent | src/PurgeStatus.php:79-83 | id, support id, HTTP code and check time all come from the request `getMostRecentRequest` returns |
| PurgeStatus.SummaryAfterSaveResponse | src/PurgeStatus.php:65-94 | right after a response is stored, its summary lists the earlier URLs followed by the newly queued ones; the check time is the request time, and the id and description are the response's |
| PurgeStatus.CompleteIffLatestDone | src/PurgeStatus.php:87-92 | complete exactly when the latest snapshot reports 'Done' in `purgeStatus`, or has no `purgeStatus` and reports 'Done' in `detail` |
| StatusLog.LogEntry | src/StatusLog.php:58-64 | a logged entry is the body plus the request time and the queued URLs; every other field is kept |
| StatusLog.StatusLog.SaveResponseStatus | src/StatusLog.php:58-66 | the stored list is the old one (empty when unset) with one entry appended |
| StatusLog.StatusLog.GetResponseStatuses | src/StatusLog.php:74-76 | the stored list, NULL before the first save |
| StatusLog.AppendedGrows | src/StatusLog.php:58-66 | n saves, each in a request at its own time, add n entries at the end, in order, each stamped with its own request time; earlier entries keep their place |
| StatusLog.SamePurgeIdTwoEntries | src/StatusLog.php:64 | two responses with the same purge id, logged in one request, stay two entries; the log is not keyed |
| Php.FirstTruthyKeyIsFirst | src/Form/ConfigForm.php:224 | `key(array_filter())` is NULL exactly when no value is truthy, and otherwise it is the key of the first truthy value |
| Php.AssignLookup | src/Form/ConfigForm.php:242 | after `$a[$k] = $v`, `$a[$k]` is `$v` and every other key reads as before |
| Php.LiteralLookup | src/Form/CacheControlForm.php:41-51 | in an array literal the last entry of a repeated key supplies its value |
| Php.ImplodeExplode | src/Form/CacheControlForm.php:81 | joining the exploded pieces with the separator gives back the input |
| Php.ExplodeShape | src/Form/CacheControlForm.php:81 | explode yields one more piece than there are separators, and no piece contains the separator |
| Php.ExplodeImplode | src/Form/CacheControlForm.php:81 | exploding the join of separator-free pieces gives back the pieces |
| ConfigForm.GetMappingKey | src/Form/ConfigForm.php:223-225 | NULL when no value is TRUE, otherwise the first truthy key |
| ConfigForm.SaveDomain | src/Form/ConfigForm.php:236-244 | both domains FALSE and the submitted one TRUE; an unknown value is appended as a third key; reading the mapping back gives the submitted value |
| ConfigForm.SaveAction | src/Form/ConfigForm.php:255-263 | both actions FALSE and the submitted one TRUE; an unknown value is appended as a third key; reading the mapping back gives the submitted value |
| ConfigForm.SavedMappingsAreOneHot | src/Form/ConfigForm.php:236-263 | for a value the form offers, exactly the chosen key is TRUE |
| ConfigForm.ValidateForm | src/Form/ConfigForm.php:167-174 | one error per integer field whose value is not a non-empty string of digits, in field order; a field is flagged exactly when it fails that test |
| ConfigForm.FlaggedMembers | src/Form/ConfigForm.php:169-172 | a field is flagged exactly when it is checked and fails `ctype_digit` |
| ConfigForm.DigitsOnly | src/Form/ConfigForm.php:170 | empty, signed and decimal input is rejected; plain digits pass |
| ConfigForm.OnlyIntFieldsInspected | src/Form/ConfigForm.php:168-169 | only `timeout` and `status_expire` decide the errors |
| AkamaiConfigForm.GetMappingKey | src/Form/AkamaiConfigForm.php:157-159 | NULL when no value is TRUE, otherwise the first truthy key |
| AkamaiConfigForm.SaveDomain | src/Form/AkamaiConfigForm.php:170-178 | the submitted domain is TRUE, both known keys are present, and reading it back gives the submitted value |
| AkamaiConfigForm.SaveAction | src/Form/AkamaiConfigForm.php:189-197 | the submitted action is TRUE, both known keys are present, and reading it back gives the submitted value |
| AkamaiConfigForm.SameMappingsAsConfigForm | src/Form/AkamaiConfigForm.php:157-197 | the older form stores and reads mappings exactly as the current one does |
| AkamaiContentControlClient.PurgeParametersShape | src/AkamaiContentControlClient.php:69-76 | an ARL 'remove' purge of just that URL on the configured domain; a valid CCU purge body exactly when that domain is production or staging |
| AkamaiContentControlClient.EndpointFollowsDevelMode | src/AkamaiContentControlClient.php:79 | the mock endpoint when development mode is truthy, the live REST endpoint otherwise (also when the flag is unset) |
| AkamaiContentControlClient.PurgeRequestAsWritten | src/AkamaiContentControlClient.php:81-84 | a POST to the chosen endpoint with the four purge parameters as its headers and no body |
| AkamaiContentControlClient.AsWrittenSendsNoPurgeBody | src/AkamaiContentControlClient.php:81-84 | on every input the request as written differs from the intended one: the intended body travels as headers and the body is empty |
| AkamaiContentControlClient.PurgeRequest | src/AkamaiContentControlClient.php:69-84 | a POST to the chosen endpoint whose body lists the URL as the only object; it is a valid purge body exactly for a known domain |
| AkamaiContentControlClient.AkamaiContentControlClient.constructor | src/AkamaiContentControlClient.php:44-49 | the client starts with the settings and nothing sent or reported |
| AkamaiContentControlClient.AkamaiContentControlClient.ClearUrl | src/AkamaiContentControlClient.php:54-56 | clearing a URL sends exactly one purge request for that URL, the one lines 81-84 build |
| AkamaiContentControlClient.AkamaiContentControlClient.PurgeUrl | src/AkamaiContentControlClient.php:66-97 | exactly the request lines 81-84 build is sent; a `RequestException` is reported and the call still returns normally |
| AkamaiContentControlClient.AkamaiContentControlClient.ClearUrls | src/Form/AkamaiCacheControlForm.php:76-78 | calling `clearUrl` on each path in turn sends exactly the as-written request of each URL, in order, and reports exactly those whose send failed |
| AkamaiContentControlClient.ClearedUrlsSendNoBody | src/AkamaiContentControlClient.php:54-97 | the requests `ClearUrls` sends are one per URL, in order, each the as-written request of that URL: a POST to the selected endpoint without a body |
| AkamaiClient.ClientConfig | src/AkamaiClient.php:62-71 | the mock endpoint is the base URI in development mode; the timeout is always set; no other key is added or changed |
| AkamaiClient.AkamaiClient.constructor | src/AkamaiClient.php:35-40 | the config starts empty and is filled in once |
| AkamaiClient.AkamaiClient.CreateClientConfig | src/AkamaiClient.php:62-71 | the stored config is updated as `ClientConfig` says, and the stored config is what is returned |
| AkamaiClient.ClientConfigIdempotent | src/AkamaiClient.php:64-68 | building the config again with unchanged settings gives the same array |
| AkamaiClient.FreshClientConfig | src/AkamaiClient.php:39-68 | a new client's config holds only `base_uri` and `timeout`; `base_uri` is present exactly in development mode and is then the content-control endpoint |
| CacheControlForm.SubmitForm | src/Form/CacheControlForm.php:80-85 | one entry per line of the text, untrimmed and with empty lines kept, in order; joining the entries reproduces the text; there is one more entry than line breaks |
| CacheControlForm.SelectionDefault | src/Form/CacheControlForm.php:40 | the form state's value when truthy; otherwise NULL exactly when the stored mapping has no TRUE value, and else the first TRUE key |
| CacheControlForm.LaterDefaultWins | src/Form/CacheControlForm.php:41-51 | the second `#default_value` overrides the first while keeping the first's position |
| CacheControlForm.DomainOverrideElement | src/Form/CacheControlForm.php:40-51 | the domain select offers production and staging, and its default is the computed domain default |
| CacheControlForm.ActionElement | src/Form/CacheControlForm.php:53-64 | the action radios offer remove and invalidate, and their default is the computed action default |
| CacheControlForm.SavedChoicesAreDefaults | src/Form/CacheControlForm.php:40-62 | with an empty form state the domain and action last saved on the settings form are preselected; a truthy form-state value takes precedence |
| ConfigSubscriber.AfterSave | src/EventSubscriber/ConfigSubscriber.php:25-40 | `akamai.valid_credentials` is written with the credential verdict when credentials changed; every other entry is unchanged |
| ConfigSubscriber.OnConfigSave | src/EventSubscriber/ConfigSubscriber.php:25-40 | the state after the event is exactly `AfterSave` of the state before |
| ConfigSubscriber.CredentialsChangedIff | src/EventSubscriber/ConfigSubscriber.php:29-35 | the verdict is rewritten exactly when `akamai.settings` was saved with at least one of the four credential keys changed |
| ConfigSubscriber.OtherChangesLeaveStateAlone | src/EventSubscriber/ConfigSubscriber.php:29-37 | saving another config, or changing only non-credential settings, leaves the state untouched |
| ConfigSubscriber.OnlyCredentialKeysDecide | src/EventSubscriber/ConfigSubscriber.php:30-35 | two saves that agree on the credential keys leave the same state |
| ConfigSubscriber.GetSubscribedEvents | src/EventSubscriber/ConfigSubscriber.php:45-49 | `onConfigSave` is the only listener, registered on the config save event at priority 0 |

## Left out

- HTTP transport, EdgeGrid signing and the Guzzle client are not modelled. `src/AkamaiAuthentication.php` and the `setAuth`/parent constructor calls in `src/AkamaiClient.php:42-51` are foreign code. Sending is a parameter.
- JSON decoding of the response body is not modelled: `saveResponseStatus` receives the decoded body.
- `getQueue`/`getQueueLength` (`src/AkamaiClient.php:85-98`) are network calls and are not modelled. `getQueueLength` reads `$this->getQueue` as a property instead of calling it.
- Expiry of statuses on cron is not modelled. No expiry code exists in the module: `cleanup` is commented out and `update` has no body in `src/StatusStorageInterface.php`. The last assertion of `src/Tests/AkamaiStatusLogTest.php:87-92` is therefore not modelled.
- `StatusStorage` and `StatusLog` both use the state entry `akamai.purge_status`. Each is modelled with its own field, so their interference on one site is not captured.
- StatusStorage.ArrayKey: PHP's normalisation of numeric-string keys ("12" becomes 12) and the truncation of float keys are not modelled. Such purge ids are kept as strings.
- ConfigForm.SaveDomain, ConfigForm.SaveAction, AkamaiConfigForm.SaveDomain and AkamaiConfigForm.SaveAction: a numeric-string value such as "1" is stored by PHP under the integer key 1, so `key()` reads back 1 rather than "1". The model keeps every key a string. The select and radios elements offer only non-numeric values, so this case does not arise from the forms.
- StatusStorage.StatusStorage.Get: before the first save, the state entry is NULL. PHP 7's `array_key_exists` warns and yields a falsy result, so FALSE is returned. The model starts from an empty table, which gives the same answer without the warning.
- PurgeStatus.PurgeStatus.constructor: on an empty history `array_pop` gives NULL. Reading an offset of NULL (src/PurgeStatus.php:80-83) silently gives NULL on PHP 7.0-7.3 and raises a notice on PHP 7.4. The `array_key_exists` calls on NULL (src/PurgeStatus.php:87, 90) raise a warning and are falsy. Every field becomes NULL. The model gives the same NULLs without the notices and warnings.
- The `Value` type keeps only NULL, booleans, integers, strings and lists of strings. Floats, objects and nested arrays inside a status snapshot are not modelled, and neither is the key order of a snapshot.
- `PHP_EOL` is taken to be "\n", as on the Unix servers the module runs on.
- The `purgeUrls` call in `src/Form/CacheControlForm.php:85` is not modelled. The response messages shown with `drupal_set_message` are not modelled either. `SubmitForm` returns the list that is handed over.
- CacheControlForm.DomainOverrideElement and CacheControlForm.ActionElement omit the translated `#description` entries and represent the translated option labels by their keys.
- ConfigForm.ValidateForm returns the names of the flagged fields. The translated error message set on each field is not modelled.
- ConfigForm's `buildForm`, `submitform` and `checkCredentials` are UI glue and are not part of this model. Note that `submitform` stores `devel_mode` and `mock_endpoint`, while the clients read `akamai_devel_mode` and `akamai_mock_endpoint`; the model follows the clients' keys.
- AkamaiClient.AkamaiClient.constructor: the constructor is declared to take a `ConfigFactoryInterface` (src/AkamaiClient.php:35). On a config factory, `get($name)` returns the config object named `$name`, not a setting value. As written, `get('akamai_devel_mode') == TRUE` therefore compares an object with TRUE and always holds, and `base_uri` and `timeout` receive config objects. The model passes the settings values instead, so `ClientConfig` and `FreshClientConfig` describe what the code evidently means, not what it does with a config factory.
- The settings forms store `domain` (as a one-hot mapping) and `rest_api_url` (src/Form/ConfigForm.php:183, 190), while the content-control client reads `akamai_domain` and `akamai_restapi_endpoint` (src/AkamaiContentControlClient.php:72, 79). The model follows the keys each file reads and does not connect the two.
- `tests/Unit/AkamaiClientTest.php:140-148` expects different config keys and a live `base_uri`. The model follows `src/AkamaiClient.php:62-71`.
- The client setters (`setQueue`, `setType`, `setAction`, `setDomain`) and URL normalisation are not part of this model. They are not defined in `src/AkamaiClient.php`.
- Drupal render arrays, routes, blocks, `src/Controller/StatusLogController.php`, `src/Form/PurgeStatusDeleteForm.php`, the form and messages of `src/Form/AkamaiCacheControlForm.php` (only its `clearUrl` loop is modelled, by `ClearUrls`) and the purger plugin stubs are not part of this model.

## Findings

| source | as written | input that shows it | evidently intended | confidence | as-written member | corrected member |
|---|---|---|---|---|---|---|
| src/AkamaiContentControlClient.php:81-84 | `new Request('POST', $endpoint, $parameters)` passes the purge parameters as the third argument of a PSR-7 request, which is its headers; the body stays empty | any URL, e.g. `clearUrl("node/1")`: the request carries `objects` as a header and has no body | the parameters are the (JSON) body of the POST, as the CCU v2 purge API expects | not executed | AkamaiContentControlClient.AsWrittenSendsNoPurgeBody | AkamaiContentControlClient.PurgeRequest |

# teltonika_rms client core, modelled in Dafny

This project models the core of `teltonika_rms`, a Python client for the
Teltonika Remote Management System HTTP API, and proves properties of that
model. The core covers:

- how a client request becomes a URL, an HTTP attempt and a decoded value or
  typed error (`RMSClient._handle_response`, `_request`);
- the retry policy for failed connections (`_request_with_retry` and the
  stand-alone `retry_with_backoff` decorator);
- the generic resource (`BaseResource`): pagination, single-item lookup,
  filtering, create/update/delete, and the client-side exact-match filter;
- the companies, devices and device-commands resources built on top of it;
- the exception hierarchy, bearer-token authentication, and the pure helpers
  of the logging configuration (header masking, body truncation, level names).

## Layout

One module per source file, plus three helper modules:

- `wrappers.dfy` (`Wrappers`): `Option`, `Result`, `Outcome`.
- `text.dfy` (`Text`): ASCII case mapping, `rstrip`, decimal rendering,
  code-point string order and `sorted` on a set of strings.
- `json.dfy` (`Json`): the decoded-JSON value and the Python operations the
  client applies to it: truthiness, `dict.get`, `==` (so `True == 1`),
  `type(x).__name__`, `repr`, `len` and iteration.
- `exceptions.dfy` (`Exceptions`): `RMSAPIError` and its subclasses, plus the
  built-in exceptions the library raises, as one datatype.
- `auth.dfy` (`Auth`): `BearerAuth`.
- `logging_config.dfy` (`LoggingConfig`).
- `retry.dfy` (`Retry`): `retry_with_backoff` as a loop over a call whose
  successive outcomes are given as a function of the attempt number.
- `client.dfy` (`Client`): `RMSClient` as a class.
- `base.dfy` (`Base`): `BaseResource`.
- `companies.dfy`, `devices.dfy`, `device_commands.dfy`: the specialised
  resources.

## The transport

The HTTP transport is an environment. An `RmsClient` holds `replies`, the
script of what the network answers to successive attempts. Each answer is
either a connection failure or a status with a raw body (empty, valid JSON, or
text that is not JSON). Each attempt consumes one reply. An attempt made after
the script has run out fails to connect, so every run is finite. The client
records:

- `sent`: what it handed to the transport (absolute URL and arguments);
- `sleeps` (ghost): every delay slept;
- `calls` and `outcomes` (ghost): each logical request made through a verb
  method and what it returned.

Each resource method is specified against those records. For example, it
states which requests were made since the call began, and it computes the
result from what those requests returned. The twostate predicates
`Client.RmsClient.Made` and `Client.RmsClient.Returned` describe that change.
`Made(reqs)` says the client is where making `reqs` one after another, each
with retry, against the script leaves it: the function `Client.RmsClient.Run`
gives what each request returned, which replies were consumed, and what was
sent and slept. What a resource returns is therefore determined by the
replies in the script.
A resource whose arguments are checked first states that the client is
unchanged when the check fails.

Delays are whole seconds: the client's constants are 1, 2 and 60.

## Model

| member | source | states |
|---|---|---|
| `Auth.New` | teltonika_rms/auth.py:15-23 | fails with ValueError "Token cannot be empty" iff the token is empty; otherwise the token is stored unchanged |
| `Auth.BearerAuth.GetHeaders` | teltonika_rms/auth.py:26-32 | exactly one header, `Authorization`, whose value is "Bearer " followed by the token |
| `Auth.BearerAuth.ApplyToHeaders` | teltonika_rms/auth.py:34-40 | the header collection afterwards is the old one with Authorization assigned and nothing else touched |
| `Auth.Assigned` | teltonika_rms/auth.py:40 | the assigned name holds the new value; every other entry is kept with its value unless it is the same name in another letter case |
| `Auth.AppliedAgreesWithGetHeaders` | teltonika_rms/auth.py:32-40 | applying the auth to headers sets the same Authorization value that get_headers returns; applied to no headers it gives exactly get_headers |
| `Exceptions.SubclassStatusCodes` | teltonika_rms/exceptions.py:26-97 | Authentication, Permission, NotFound and Validation errors carry 401, 403, 404 and 422 whatever they are built with; a connection error has no status, no response data, and keeps its original error |
| `Exceptions.DefaultMessages` | teltonika_rms/exceptions.py:29-87 | the default messages "Authentication failed", "Permission denied", "Resource not found", "Validation error", "Connection error" |
| `Exceptions.ValidationErrorsNormalised` | teltonika_rms/exceptions.py:65-79 | `errors` is the list given when it is truthy and `[]` otherwise, so it is never None |
| `Exceptions.StoredVerbatim` | teltonika_rms/exceptions.py:7-23 | the base error keeps message, status code and response data as given |
| `LoggingConfig.MaskSensitiveHeaders` | teltonika_rms/logging_config.py:121-155 | the loop produces exactly the masked map: every key kept, each value masked by its own key |
| `LoggingConfig.MaskedShape` | teltonika_rms/logging_config.py:140-155 | masking keeps the key set; non-sensitive values are unchanged; sensitive ones become "Bearer ***" (authorization with a Bearer value) or "***" |
| `LoggingConfig.MaskedValueIdempotent` | teltonika_rms/logging_config.py:144-151 | masking one value twice is the same as masking it once |
| `LoggingConfig.MaskIdempotent` | teltonika_rms/logging_config.py:140-155 | masking a masked header map changes nothing |
| `LoggingConfig.AuthHeaderMasked` | teltonika_rms/logging_config.py:144-151 | the header built from any token is logged as "Bearer ***", so the token never appears |
| `LoggingConfig.Truncate` | teltonika_rms/logging_config.py:218-223 | a text of at most 1000 characters is unchanged; a longer one keeps its first 1000 characters and grows longer than 1000 |
| `LoggingConfig.TruncateReportsLength` | teltonika_rms/logging_config.py:219-221 | after the first 1000 characters comes the marker "... (truncated, ", then the original length in decimal, which parses back, then " chars total)" |
| `LoggingConfig.FormatResponseBody` | teltonika_rms/logging_config.py:191-223 | None gives "None"; any other body's rendering is kept when short and cut to its first 1000 characters when long |
| `LoggingConfig.NormalizeLogLevel` | teltonika_rms/logging_config.py:19-30 | a number is returned unchanged; an unknown name gives INFO |
| `LoggingConfig.NormalizeCaseInsensitive` | teltonika_rms/logging_config.py:28-29 | a level name gives the same level in lower or upper case |
| `LoggingConfig.StandardLevels` | teltonika_rms/logging_config.py:28-29 | DEBUG, INFO, WARNING, ERROR and CRITICAL map to 10, 20, 30, 40 and 50 in either case; an unknown name maps to INFO |
| `Retry.Delays` | teltonika_rms/retry.py:51-52 | the list of the first n delays has length n, and its i-th element is the i-th backoff delay |
| `Retry.FirstStop` | teltonika_rms/retry.py:41-60 | the first attempt that does not ask for a retry: every earlier one raised a retryable error |
| `Retry.RetryWithBackoff` | teltonika_rms/retry.py:35-65 | the loop makes exactly Attempts calls, returns RunResult, and sleeps exactly the delays before every call but the first |
| `Retry.StopsAt` | teltonika_rms/retry.py:41-60 | if attempt k is the first one not retried, there are k + 1 calls and the result is that attempt's outcome |
| `Retry.Exhausts` | teltonika_rms/retry.py:41-64 | if every attempt raises a retryable error, there are max_retries + 1 calls and the last error is re-raised |
| `Retry.FirstCallSucceeds` | teltonika_rms/retry.py:41-43 | a first call that succeeds is made once, with no sleep, and its value is returned |
| `Retry.AlwaysFailing` | teltonika_rms/retry.py:41-64 | an always-failing retryable call is made max_retries + 1 times with max_retries sleeps, and the last error is re-raised |
| `Retry.NonRetryableRaisedAtOnce` | teltonika_rms/retry.py:57-60 | a non-retryable error is re-raised after exactly one call |
| `Retry.SucceedsAfterRetries` | teltonika_rms/retry.py:44-52 | success on attempt k + 1 takes k + 1 calls and the first k delays |
| `Retry.NegativeRetries` | teltonika_rms/retry.py:62-65 | a negative retry count makes no call and raises "Unexpected error in retry logic" |
| `Retry.OnlyRetryableRetried` | teltonika_rms/retry.py:41-60 | at most max_retries + 1 calls; every call but the last raised a retryable error; an early stop is on a success or a non-retryable error |
| `Retry.BackoffClosedForm` | teltonika_rms/retry.py:38-52 | from the second delay on, delay i is min(initial * base^i, max_delay) |
| `Retry.BackoffBounded` | teltonika_rms/retry.py:51-52 | no delay after the first exceeds max_delay; the first is the initial delay, uncapped |
| `Retry.DefaultDelays` | teltonika_rms/retry.py:16-52 | with the defaults the delays are 1, 2, 4, 8, 16, 32, 60, 60 |
| `Text.StripTrailing` | teltonika_rms/client.py:59 | `rstrip("/")`: a prefix of the input that does not end in the character, and only that character was removed |
| `Text.Lower` | teltonika_rms/resources/base.py:184 | `str.lower()` on ASCII: same length, each character lower-cased |
| `Text.Sorted` | teltonika_rms/resources/devices.py:34 | `sorted(s)`: strictly increasing, the same elements as the set, and as many |
| `Client.ParseBody` | teltonika_rms/client.py:116-119 | parsing never raises: empty content is None, valid JSON is its decoded value, and text that is not JSON is `{"text": text}` (None when the text is empty) |
| `Client.HandleResponse` | teltonika_rms/client.py:97-172 | fails iff status >= 400, with an API error carrying that status and the parsed body; below 400 the parsed body is returned |
| `Client.ErrorKinds` | teltonika_rms/client.py:122-169 | 401, 403, 404 and 422 give the Authentication, Permission, NotFound and Validation errors; any other status >= 400 gives the base error |
| `Client.ErrorMessage` | teltonika_rms/client.py:122-166 | the message is the body's "message" when the body is a mapping that has one, else the default for the status ("API error: <code>" for the generic case) |
| `Client.ValidationErrorList` | teltonika_rms/client.py:146-159 | a 422 error carries the body's "errors", or `[]` when the body is not a mapping or lacks the key |
| `Client.TextBodyDefaultMessage` | teltonika_rms/client.py:116-166 | an error response whose body is not JSON gets the default message |
| `Client.BuildUrl` | teltonika_rms/client.py:236 | a path starting with "http" is used verbatim; otherwise the URL is the base URL followed by the path |
| `Client.NoDoubleSlashAtJoin` | teltonika_rms/client.py:236 | with the base URL stripped of trailing slashes, a path starting with "/" joins without "//" |
| `Client.AttemptResult` | teltonika_rms/client.py:252-274 | a connection failure becomes a ConnectionError "Connection error: <cause>" that keeps the cause; a response goes through the status rules |
| `Client.StopsAtAttempt` | teltonika_rms/client.py:315-325 | if attempt k is the first that did not fail to connect, there are k + 1 attempts, its outcome is the result, and the first k delays were slept |
| `Client.ExhaustsScript` | teltonika_rms/client.py:315-339 | if every attempt fails to connect, there are max_retries + 1 attempts and the last connection error is raised |
| `Client.RetryDisabled` | teltonika_rms/client.py:304-307 | with retry disabled: exactly one attempt, no sleep, and its outcome is the result |
| `Client.RetryOnlyConnectionErrors` | teltonika_rms/client.py:315-335 | at most max_retries + 1 attempts; every attempt but the last failed to connect; any other error or a success ends the run |
| `Client.RetryDelays` | teltonika_rms/client.py:310-328 | one delay fewer than attempts, and the k-th delay is min(2^k, 60) |
| `Client.RetryExhausted` | teltonika_rms/client.py:315-339 | a script of connection failures gets max_retries + 1 attempts, and the last ConnectionError is raised unchanged |
| `Client.RetryNegative` | teltonika_rms/client.py:337-340 | a negative max_retries makes no attempt and raises RuntimeError |
| `Client.HttpErrorNotRetried` | teltonika_rms/client.py:333-335 | an HTTP error response is raised after that single attempt, with no sleep |
| `Client.RmsClient.constructor` | teltonika_rms/client.py:59-74 | the base URL loses its trailing slashes; the settings are stored; the session headers are get_headers |
| `Client.RmsClient.New` | teltonika_rms/client.py:39-64 | an empty token is refused with ValueError; otherwise a fresh client with the settings and an empty history |
| `Client.RmsClient.Attempt` | teltonika_rms/client.py:210-280 | one attempt sends the request to its URL, consumes one reply and returns that reply's outcome |
| `Client.RmsClient.AttemptAt` | teltonika_rms/client.py:316-319 | attempt number k of a run gets reply k of the script and adds one more send |
| `Client.RmsClient.Pause` | teltonika_rms/client.py:322-328 | after a failed attempt that is not the last, one more delay is slept and the delay grows by the capped doubling; after the last, nothing is slept |
| `Client.RmsClient.AttemptThenPause` | teltonika_rms/client.py:316-328 | one pass of the loop: attempt k takes reply k of the script; only a connection failure is followed by the pause of `Pause`, any other outcome sleeps nothing |
| `Client.RmsClient.BackoffLoop` | teltonika_rms/client.py:309-340 | the retry loop makes Attempts attempts against the script, returns RunResult, consumes that many replies, and sleeps exactly the delays before every attempt but the first |
| `Client.RmsClient.RequestWithRetry` | teltonika_rms/client.py:282-340 | one logical request: result, replies consumed, requests sent and delays slept are those of the retry rules for that script, and the request and its result are appended to the history |
| `Client.RmsClient.Get` | teltonika_rms/client.py:342-356 | a GET with the given params, performed with retry |
| `Client.RmsClient.Post` | teltonika_rms/client.py:358-380 | a POST with json, data, files and params, performed with retry |
| `Client.RmsClient.Put` | teltonika_rms/client.py:382-402 | a PUT with json, data and params, performed with retry |
| `Client.RmsClient.Delete` | teltonika_rms/client.py:404-420 | a DELETE with params and json, performed with retry |
| `Client.RmsClient.GetUser` | teltonika_rms/client.py:422-428 | a GET of "/user" |
| `Base.RequireTruthy` | teltonika_rms/resources/base.py:130-133 | a falsy response becomes a ValueError with the message; a truthy one and an error pass through |
| `Base.PageRequests` | teltonika_rms/resources/base.py:32-61 | the i-th page request is a GET of the path with limit 100 and offset 100 * i |
| `Base.StepCollects` | teltonika_rms/resources/base.py:39-46 | one loop iteration appends exactly the page's `data` to what was collected |
| `Base.PaginateCollects` | teltonika_rms/resources/base.py:31-61 | `all()` returns the concatenation of every page's `data`, in page order |
| `Base.ReadPage` | teltonika_rms/resources/base.py:37-61 | the loop body computes exactly one pagination step |
| `Base.StopsOnEmptyPage` | teltonika_rms/resources/base.py:39-44 | a falsy response or an empty `data` ends `all()` with what it has so far |
| `Base.StopsOnShortPage` | teltonika_rms/resources/base.py:50-59 | with no `meta.total`, a non-empty page of fewer than 100 items ends `all()` with everything collected plus that page's items |
| `Base.FullPageContinues` | teltonika_rms/resources/base.py:50-61 | with no `meta.total`, a page of exactly 100 items asks for the next page, holding everything collected plus that page's items |
| `Base.PaginateProgress` | teltonika_rms/resources/base.py:50-56 | while pages report total T and fetching goes on, every page added an item and fewer than T are held |
| `Base.RequestBound` | teltonika_rms/resources/base.py:50-61 | when every page reports total T, `all()` makes at most max(T, 1) requests |
| `Base.ItemMatches` | teltonika_rms/resources/base.py:178-189 | the inner loop reports a match iff every filter entry matches the item |
| `Base.KeptSpec` | teltonika_rms/resources/base.py:177-193 | the filter fails (AttributeError) iff some item is not a dict; otherwise the result is an order-preserving sublist holding exactly the matching dicts, each as many times as it occurs in the input |
| `Base.KeptShape` | teltonika_rms/resources/base.py:177-193 | failure iff a non-dict item, as AttributeError; otherwise an order-preserving sublist whose members are exactly the matching dicts |
| `Base.KeptCounts` | teltonika_rms/resources/base.py:186-193 | every matching dict is kept as many times as it occurs; a non-matching value is never kept |
| `Base.KeptAllMatching` | teltonika_rms/resources/base.py:177-193 | dicts that all match are all kept |
| `Base.FilterIdempotent` | teltonika_rms/resources/base.py:162-193 | filtering twice with the same criteria equals filtering once |
| `Base.EmptyFiltersKeepAll` | teltonika_rms/resources/base.py:174-175 | with no criteria the items come back unchanged |
| `Base.GetByIdResult` | teltonika_rms/resources/base.py:81-85 | a falsy response is NotFound; a truthy one and an error pass through |
| `Base.SingleItemCases` | teltonika_rms/resources/base.py:88-101 | zero items is NotFound, more than one is a ValueError, exactly one is returned |
| `Base.SingleItemFalsy` | teltonika_rms/resources/base.py:90-91 | a falsy response is "No <noun> found matching the criteria" |
| `Base.Unwrapped` | teltonika_rms/resources/companies.py:73-85 | an error passes through; a falsy response is NotFound "<noun> with id <id> not found"; a success comes from a truthy response |
| `Base.UnwrapCases` | teltonika_rms/resources/companies.py:76-85 | a mapping `data` is returned; a non-empty list `data` gives its first element; otherwise (`data == []` included) the whole response |
| `Base.UnwrapNonObject` | teltonika_rms/resources/companies.py:85 | a truthy response that is not a dict is returned unchanged |
| `Base.FilterResult` | teltonika_rms/resources/base.py:115-119 | `[]` on a falsy response; for a truthy dict, its `data` value whatever its type; never fails on a dict or a falsy response |
| `Base.BaseResource.constructor` | teltonika_rms/resources/base.py:14-23 | the path loses its trailing slashes |
| `Base.BaseResource.All` | teltonika_rms/resources/base.py:25-64 | exactly the page requests at offsets 0, 100, ... were made; the pages returned end pagination at the last one, and the result is what pagination yields |
| `Base.BaseResource.FetchPage` | teltonika_rms/resources/base.py:36-37 | one page request, a GET with limit 100 and offset 100 * i, extends the run of the earlier page requests by exactly that request |
| `Base.BaseResource.Get` | teltonika_rms/resources/base.py:66-104 | an id wins (one GET of path/id); else filters (one GET with them as params, single-item rule); else a usage ValueError with no request |
| `Base.BaseResource.Filter` | teltonika_rms/resources/base.py:106-119 | one GET with the filters as params; the result is that response's data |
| `Base.BaseResource.Create` | teltonika_rms/resources/base.py:121-133 | one POST of the fields; a falsy response raises "Failed to create item" |
| `Base.BaseResource.Update` | teltonika_rms/resources/base.py:135-148 | one PUT of the data to path/id; a falsy response raises "Failed to update item with id <id>" |
| `Base.BaseResource.Delete` | teltonika_rms/resources/base.py:150-160 | one DELETE of path/id; the response is returned as is |
| `Base.BaseResource.FilterItemsClientSide` | teltonika_rms/resources/base.py:162-193 | the nested loops compute the client-side filter |
| `Companies.CreateBody` | teltonika_rms/resources/companies.py:19-31 | the body holds name and parent_id and every extra field, each with its value |
| `Companies.ExactMatchSpec` | teltonika_rms/resources/companies.py:110-124 | the company found is a matching dict among the items and the only one kept; NotFound means none was kept, "multiple" means more than one, AttributeError means a non-dict item |
| `Companies.SingleMatchFound` | teltonika_rms/resources/companies.py:110-124 | a single matching dict is found |
| `Companies.FilterWithoutCriteria` | teltonika_rms/resources/companies.py:57-58 | `filter()` with no arguments returns `all()` unchanged |
| `Companies.SearchKeepsExactName` | teltonika_rms/resources/companies.py:47-54 | a search for "Test" answered with "Test", "Test Company" and "Test Department" yields only "Test" |
| `Companies.CompaniesResource.constructor` | teltonika_rms/resources/companies.py:15-17 | a base resource on "/companies" over the client |
| `Companies.CompaniesResource.Create` | teltonika_rms/resources/companies.py:19-31 | one POST of the create body; a falsy response raises |
| `Companies.CompaniesResource.Filter` | teltonika_rms/resources/companies.py:33-59 | name only: one GET with params exactly `{"q": name}` (`[]` on a falsy response); otherwise `all()`; either way followed by the client-side filter |
| `Companies.CompaniesResource.GetById` | teltonika_rms/resources/companies.py:61-85 | one GET of companies/id, then the unwrapping rules with "Company" |
| `Companies.CompaniesResource.GetByFilters` | teltonika_rms/resources/companies.py:87-124 | the `q=` search (NotFound on a falsy response) for name only, else `all()`; then the exact-match rule |
| `Companies.CompaniesResource.PickExact` | teltonika_rms/resources/companies.py:110-124 | the exact-match filter and the zero/one/many rule |
| `Companies.CompaniesResource.Get` | teltonika_rms/resources/companies.py:126-147 | an id wins, else filters, else a usage ValueError with no request |
| `Devices.ValidateFilterParams` | teltonika_rms/resources/devices.py:22-36 | fails iff some key is outside status, mac, model, company_id; the message lists the offending keys sorted, then the allowed ones sorted |
| `Devices.MissingRequired` | teltonika_rms/resources/devices.py:48-58 | at most one label per required field |
| `Devices.MissingRequiredMembers` | teltonika_rms/resources/devices.py:56-58 | a label is reported iff one of the listed fields with that label is absent or None |
| `Devices.RequiredReported` | teltonika_rms/resources/devices.py:48-58 | each of company_id, device_series, serial and password_confirmation is reported iff it is absent or None |
| `Devices.ConditionalReported` | teltonika_rms/resources/devices.py:61-69 | the mac is asked for iff the series is rut or tcr (any case) and mac is absent or None; the imei iff the series is trb and imei is absent or None |
| `Devices.CreateCheckSpec` | teltonika_rms/resources/devices.py:71-74 | the create check fails iff some label is reported, and a failing check reports one of the known labels (a required field's, the mac's or the imei's) |
| `Devices.RutNeedsMac` | teltonika_rms/resources/devices.py:61-74 | a complete RUT device passes; without the mac it fails naming the mac alone |
| `Devices.InvalidIds` | teltonika_rms/resources/devices.py:238-240 | exactly the ids that are not ints or are below 1 |
| `Devices.NormalizeDeviceIds` | teltonika_rms/resources/devices.py:215-246 | an int becomes a one-element list; a list is kept; fails iff the input is neither or holds an invalid id; every id returned is valid |
| `Devices.NormalizeAccepts` | teltonika_rms/resources/devices.py:227-246 | 7 becomes [7]; [1, 2] and [] are kept |
| `Devices.NormalizeRejectsId` | teltonika_rms/resources/devices.py:237-244 | [3, 0] is refused naming [0] |
| `Devices.NormalizeRejectsType` | teltonika_rms/resources/devices.py:232-235 | a string is refused naming its type |
| `Devices.MonitoringBody` | teltonika_rms/resources/devices.py:294-303 | `data` has one entry per id, in order; each entry has exactly the keys device_id and monitoring_enabled, reads back its id, and carries the integer 1 when enabling and 0 when disabling |
| `Devices.MonitoringBodyExample` | teltonika_rms/resources/devices.py:294-303 | disabling devices 123 and 456 sends `{"data": [{"device_id": 123, "monitoring_enabled": 0}, {"device_id": 456, "monitoring_enabled": 0}]}` |
| `Devices.CreateBody` | teltonika_rms/resources/devices.py:207 | `{"data": [fields]}` with the fields unchanged |
| `Devices.DevicesResource.constructor` | teltonika_rms/resources/devices.py:18-20 | a base resource on "/devices" over the client |
| `Devices.DevicesResource.ValidateCreateParams` | teltonika_rms/resources/devices.py:38-74 | the imperative check computes exactly the create check |
| `Devices.DevicesResource.CollectMissing` | teltonika_rms/resources/devices.py:55-58 | the loop collects the labels of the missing required fields, in order |
| `Devices.DevicesResource.Filter` | teltonika_rms/resources/devices.py:76-96 | a disallowed key: no request and the ValueError; otherwise the base filter |
| `Devices.DevicesResource.GetById` | teltonika_rms/resources/devices.py:98-122 | one GET of devices/id, then the unwrapping rules with "Device" |
| `Devices.DevicesResource.GetByFilters` | teltonika_rms/resources/devices.py:124-150 | a disallowed key: no request; otherwise one GET with the filters as params, then the single-item rule for "devices" |
| `Devices.DevicesResource.Get` | teltonika_rms/resources/devices.py:152-179 | an id wins, else filters, else a usage ValueError with no request |
| `Devices.DevicesResource.Create` | teltonika_rms/resources/devices.py:181-213 | a missing field: no request and the ValueError; otherwise one POST of `{"data": [fields]}`, a falsy response raising "Failed to create device" |
| `Devices.DevicesResource.SetMonitoring` | teltonika_rms/resources/devices.py:276-309 | invalid ids: no request; otherwise one PUT of the monitoring body to "/devices/monitoring"; a falsy response raises |
| `Devices.DevicesResource.EnableMonitoring` | teltonika_rms/resources/devices.py:248-260 | set_monitoring with the flag on |
| `Devices.DevicesResource.DisableMonitoring` | teltonika_rms/resources/devices.py:262-274 | set_monitoring with the flag off |
| `DeviceCommands.LogParams` | teltonika_rms/resources/device_commands.py:62-71 | a named filter is present iff it is not None (or an extra parameter has its name); extra parameters win; named values are kept otherwise |
| `DeviceCommands.LogParamsEmpty` | teltonika_rms/resources/device_commands.py:62-71 | with nothing set the query is empty |
| `DeviceCommands.BuildLogParams` | teltonika_rms/resources/device_commands.py:62-71 | the conditional insertions and the update build exactly the log query |
| `DeviceCommands.DeviceCommandsActions.constructor` | teltonika_rms/resources/device_commands.py:12-14 | keeps the client |
| `DeviceCommands.DeviceCommandsActions.Execute` | teltonika_rms/resources/device_commands.py:16-26 | one POST of the fields to "/devices/actions"; the response is returned unchanged |
| `DeviceCommands.DeviceCommandsActions.Cancel` | teltonika_rms/resources/device_commands.py:28-40 | one POST of `{"devices": ids}` to "/devices/actions/cancel"; the response is returned unchanged |
| `DeviceCommands.DeviceCommandsActions.Logs` | teltonika_rms/resources/device_commands.py:42-73 | one GET of "/devices/actions/logs" with the log query; the response is returned unchanged |
| `DeviceCommands.DeviceCommandsResource.constructor` | teltonika_rms/resources/device_commands.py:79-83 | keeps the client and builds the actions sub-resource on it |
| `DeviceCommands.DeviceCommandsResource.Execute` | teltonika_rms/resources/device_commands.py:85-98 | one POST of the command data, verbatim, to "/devices/<id>/command"; the response is returned unchanged |

## Left out

- The httpx transport, connection pooling, timeouts, the context-manager methods and `close` (teltonika_rms/client.py:70-95, 252-260). They are foreign I/O. A scripted reply sequence stands in for them, and the timeout is only stored.
- The `httpx.HTTPStatusError` branch of `_request` (teltonika_rms/client.py:275-280). The transport never raises it, because statuses are handled by `_handle_response`.
- Sleeping and floating-point delays. Delays are whole seconds appended to a ghost log; `retry_with_backoff`'s parameters are natural numbers.
- Retry.RetryWithBackoff: `initial_delay`, `max_delay` and `exponential_base` are whole numbers rather than floats, so fractional delays are not modelled.
- Logging: every logger call, `_log_response_body`, `format_request_body`, `set_log_level` and the logger-configuration functions. They only write logs or change process-wide logger state. When a client is given a log level, it is stored but not applied.
- JSON encoding and decoding. A reply arrives already parsed (or marked as not JSON). `format_response_body` takes the pretty-printer as a parameter; only its truncation rule is modelled.
- Text.Lower: ASCII letters only; Python's full Unicode lower-casing is not modelled. The same applies to `Upper` in log-level names.
- Json.Repr: dict entries are listed in sorted key order, where Python uses insertion order. String escaping is not modelled. This affects the text of the error messages in companies' exact match and in device-id validation.
- Dictionary insertion order in general: JSON objects and keyword arguments are maps. Iterating a dict (`list(d)`) yields its keys in sorted order.
- Base.BaseResource.All: the script of replies is finite, so a server that keeps sending full pages forever is not captured. A non-numeric `meta.total` is modelled as the TypeError of the comparison. Lists and strings returned as `data` are iterated as Python would iterate them.
- tags.py, `__init__.py` and `resources/__init__.py`. They hold no logic beyond the "/tags" path and re-exports. The resources the client attaches to itself in its constructor (teltonika_rms/client.py:77-80) are built separately over the same client.
- Session header order: headers are a map.
- Python's rule against passing a named parameter twice. In `logs`, an extra parameter named like a named filter is accepted and wins; in companies' `create`, an extra field named `name` or `parent_id` is accepted and wins. Python would refuse both at the call.
- Floating-point JSON numbers. `Json` has no float case, so a body with a fractional number is outside the model. The model therefore does not capture that `1 == 1.0` matches a client-side filter, that a float `meta.total` is compared numerically, or that a float device id is rejected as not an `int`.
- LoggingConfig.NormalizeLogLevel: only the eight level names of the `logging` module are modelled. `getattr(logging, level.upper(), logging.INFO)` returns any upper-case attribute of `logging` (for example `BASIC_FORMAT` for "basic_format"), where the model gives INFO.

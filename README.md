# gladiapy / gladiapp: a Dafny model of the Gladia Python SDK core

This project models the core of two Python client packages for the Gladia
speech-to-text API, and proves properties of that model. The newer package is
`gladiapy`; the older one is `gladiapp`. The model has three parts:

- **Error records.** `GladiaError` is the exception the newer package builds from
  an HTTP error response: its keys are read in order of precedence, with
  defaults. `TranscriptionError` is the pydantic record of the older package.
  It reads its fields only under their camel-case aliases and can be reset in
  place. Both have a one-line string form.
- **REST and session set-up.** This part covers the status test each HTTP call
  makes before it reads a result. It also covers:
  - the query parameters of `get_results`;
  - the pydantic schemas of requests and results, through a generic validator
    for presence, defaults, aliases, `None`, JSON kinds and the `POST|PUT`
    pattern;
  - `model_dump`;
  - the realtime session request of each package, with `_dataclass_to_dict`
    (a recursive converter, proved equal to its looping form) and `to_json`;
  - the handshake that opens a session.
- **The realtime session.** `GladiaWebsocketClientSession` is a class with a
  socket that may be present, nineteen callback slots, and a log of what it has
  written and invoked. Around it sit the sixteen event tags, the dispatch that
  routes an inbound message to its slot, and the event schemas of
  `ws_models.py`. The model also covers four pieces of the example scripts: the
  8000-byte chunking loop of the streaming example, the SRT timestamp formatter,
  the speaker-diarization analysis and the chapterization content analysis.

A Python `dict` is an insertion-ordered list of entries, and a lookup takes the
first entry with the key. Every dict that the modelled code builds keeps its
keys unique. Floats are exact reals. JSON decoding (`json.loads`), base64 and
the socket are function parameters or opaque values.

The two packages' session classes are identical, so one class models both.
Their events classes are also identical, so one module models both.

## Model

| member | source | states |
|---|---|---|
| GladiaErrors.New | src/gladiapy/v2/errors.py:8-23 | every argument is stored as given, except that a falsy `validation_errors` (`None` included) becomes `[]`; the stored list is truthy exactly when the argument was |
| GladiaErrors.WithMessage | src/gladiapy/v2/errors.py:8-16 | `GladiaError(message)` has status 0, empty request id, timestamp and path, and no validation errors |
| GladiaErrors.FirstPresent | src/gladiapy/v2/errors.py:31-36 | the value under the first present key of a precedence list, or the default when no key is present |
| GladiaErrors.FirstOfTwo | src/gladiapy/v2/errors.py:32-33 | the two-key precedence is the nested `data.get(k1, data.get(k2, d))` |
| GladiaErrors.FromResponsePrecedence | src/gladiapy/v2/errors.py:26-44 | for a JSON object body, each field follows its key precedence: `message` or the caller's default; `statusCode`, then `status`, then the HTTP status; `request_id`, then `requestId`; `timestamp`; `path`; `validation_errors`, then `validationErrors`, with a falsy list stored as `[]` |
| GladiaErrors.StatusKeyPresenceDecides | src/gladiapy/v2/errors.py:32 | a present `statusCode` wins over `status` even when it holds `null` or 0 |
| GladiaErrors.FromResponseNotJson | src/gladiapy/v2/errors.py:27-30 | a body that is not JSON gives the default message, the HTTP status, and empty strings and list for the rest |
| GladiaErrors.FromResponseNotObject | src/gladiapy/v2/errors.py:28-31 | `from_response` itself fails (`data.get` on a non-dict) exactly when the JSON body is not an object |
| GladiaErrors.ToStringParts | src/gladiapy/v2/errors.py:46-52 | `__str__` is the head `[status] message`, then ` (request_id=…)` exactly when the request id is truthy, then the validation line exactly when the list is truthy; joining a list that holds a non-string fails |
| GladiaErrors.ToStringShape | src/gladiapy/v2/errors.py:46-52 | the string starts with the head, holds the request-id part right after it exactly when the id is truthy, and ends with `\nValidation errors: ` followed by the comma-joined list exactly when the list is truthy |
| GladiaErrors.ToStringPlain | src/gladiapy/v2/errors.py:46-49 | without a request id or validation errors, the string is exactly `[status] message` |
| TranscriptionErrors.TranscriptionError.constructor | src/gladiapp/v2/errors.py:6-13 | a fresh record holds the six defaults |
| TranscriptionErrors.TranscriptionError.Reset | src/gladiapp/v2/errors.py:15-21 | `reset` puts all six fields back to the defaults, so the record equals a fresh one |
| TranscriptionErrors.TranscriptionError.Assign | src/gladiapp/v2/rest.py:54-59 | the six field assignments leave the record equal to the parsed error |
| TranscriptionErrors.FromJsonText | src/gladiapp/v2/errors.py:24-28 | a string is decoded first: `from_json` of a text is `from_json` of its decoded value, and undecodable text fails |
| TranscriptionErrors.FromJsonNotObject | src/gladiapp/v2/errors.py:28 | `model_validate` rejects every value that is not an object |
| TranscriptionErrors.FromJsonAliases | src/gladiapp/v2/errors.py:8-13 | a validated error takes `timestamp`, `path`, `requestId`, `status`, `message` and `validationErrors` from those input keys, with the defaults for absent keys; the snake-case names are never read |
| TranscriptionErrors.TypedField | src/gladiapp/v2/errors.py:8-13 | each field of a validated instance has its declared type, whether it came from the input or from its default |
| TranscriptionErrors.AliasField | src/gladiapp/v2/errors.py:10-13 | each field holds the value under its alias when that key is present, and its default otherwise |
| TranscriptionErrors.NoAliasesGiveDefaults | src/gladiapp/v2/errors.py:8-13 | an object holding none of the six input keys validates to the defaults |
| TranscriptionErrors.EmptyIsDefaults | src/gladiapp/v2/errors.py:8-21 | `{}` validates to the value `reset` produces |
| TranscriptionErrors.SnakeCaseIgnored | src/gladiapp/v2/errors.py:10-13 | a body that spells `request_id`, `status_code` and `validation_errors` under those names gives the defaults |
| TranscriptionErrors.StatusAndMessage | src/gladiapp/v2/rest.py:52-53 | the fallback dict `{"status": s, "message": m}` parses to status s, message m and defaults elsewhere |
| TranscriptionErrors.ToStringParts | src/gladiapp/v2/errors.py:30-31 | `to_string` splits back into `[status] `, the message and ` (request_id=…)` at fixed places; it starts with `[` and ends with `)` |
| TranscriptionErrors.ToStringEmptyRequestId | src/gladiapp/v2/errors.py:30-31 | the request-id part is there even when the id is empty: the string ends in `(request_id=)` |
| ApiCalls.CallRule | src/gladiapy/v2/rest.py:51-53 | every call of the newer package raises exactly when the status is at least 400. It raises the `GladiaError` of `from_response` with the call's default message unless the body is JSON other than an object. Below 400 `delete_result` answers `None`, the realtime delete answers `True`, and the other calls read the body (likewise rest.py:70-130 and ws.py:328-374) |
| ApiCalls.CheckResponse | src/gladiapp/v2/rest.py:47-60 | the status test of the older package: it fills a supplied error object with the parsed error and answers the outcome `Guard` gives (ParseFailed, HttpError or Proceeds) |
| ApiCalls.GuardRule | src/gladiapp/v2/rest.py:47-60 | below 400 nothing happens. From 400 on, a supplied object gets all six parsed fields, and a parse failure is raised before `raise_for_status`. `raise_for_status` raises exactly for 400-599, so from 600 on the call goes on |
| ApiCalls.GuardDeleteSame | src/gladiapp/v2/rest.py:155-168 | `delete_result`, whose `raise_for_status` sits after the status test, behaves exactly like the other calls |
| ApiCalls.NotJsonFallback | src/gladiapp/v2/rest.py:49-53 | an error body that is not JSON fills the object with the HTTP status and the response text as message, and empty strings and list for the rest |
| ApiCalls.JsonWithoutStatus | src/gladiapp/v2/rest.py:49-53 | a JSON error body without `status` leaves status code 0, not the HTTP status |
| ApiCalls.BuildParams | src/gladiapy/v2/rest.py:108-110 | the loop that builds the parameter dict and then joins `status` computes `QueryParams` |
| ApiCalls.KeptEntries | src/gladiapy/v2/rest.py:108 | the comprehension keeps exactly the entries that are neither `None` nor `[]` |
| ApiCalls.KeptGet | src/gladiapy/v2/rest.py:108 | a lookup in the kept entries finds a key's value exactly when that value is neither `None` nor `[]` |
| ApiCalls.OtherParams | src/gladiapy/v2/rest.py:108-110 | every parameter other than `status` is the dumped value when that value is neither `None` nor `[]`, and absent otherwise |
| ApiCalls.StatusParam | src/gladiapy/v2/rest.py:109-110 | a non-empty `status` list is sent as its comma-joined string, and an empty one is not sent |
| ApiCalls.StrListJoin | src/gladiapy/v2/rest.py:110 | a list of strings is empty exactly when it is `[]`, and `join` takes its items |
| Handshake.ClientKey | src/gladiapy/v2/rest.py:24-27 | a client needs a non-empty key: a missing or empty key raises `ValueError`, and any other key is kept (likewise gladiapp rest.py:24-27 and ws.py:135-139) |
| Handshake.ConnectRule | src/gladiapy/v2/ws.py:324-335 | the newer `connect` opens a session exactly when the status is below 400 and the answer holds a truthy `id` and `url`. The session holds those two. From 400 on it raises the API error, and a missing field raises `ValueError`; it never answers `None` |
| Handshake.ConnectOldRule | src/gladiapp/v2/ws.py:155-178 | the older `connect` fails for every status from 400 to 599, and never for a missing field. Below 400 it leaves the error object alone and opens exactly the session the newer one opens, answering `None` where the newer one raises `ValueError` |
| Handshake.ConnectOldAbove599 | src/gladiapp/v2/ws.py:159-178 | a status of 600 or more is not raised for: without an error object, a well-formed answer still opens a session |
| Handshake.ConnectSession | src/gladiapy/v2/ws.py:310-335 | the method answers a fresh session in its initial state holding the answer's id and URL exactly when `Connect` opens one, and the failure otherwise |
| Handshake.ConnectSessionOld | src/gladiapp/v2/ws.py:146-178 | the method fills the error object as `ConnectOld` says and answers a fresh initial session, `None`, or the failure, matching `ConnectOld` |
| DataclassDict.DataclassToDict | src/gladiapy/v2/ws.py:47-94 | the recursive procedure with its loops computes `Convert`, the specification of `_dataclass_to_dict` |
| DataclassDict.FieldsToDict | src/gladiapy/v2/ws.py:66-94 | the loop over `fields(obj)` computes `Fill`, adding each field that is not dropped |
| DataclassDict.CopyListField | src/gladiapy/v2/ws.py:79-84 | the `converted_list` loop converts the dataclass items and copies the others unchanged |
| DataclassDict.ItemsToList | src/gladiapy/v2/ws.py:60-61 | a list that is not a dataclass is converted item by item |
| DataclassDict.EntriesToDict | src/gladiapy/v2/ws.py:62-63 | a dict that is not a dataclass is converted value by value, keys kept |
| DataclassDict.FillIsKeptEntries | src/gladiapy/v2/ws.py:66-94 | with distinct field names the fill loop only appends: its result is the kept fields in order |
| DataclassDict.KeptNamesInOrder | src/gladiapy/v2/ws.py:67-72 | the kept names are field names of kept fields, in strictly increasing declaration position |
| DataclassDict.RecordToDict | src/gladiapy/v2/ws.py:66-94 | a dataclass becomes a dict whose keys are the kept field names in declaration order; a key is present exactly when some field of that name is kept, and it holds that field's converted value |
| DataclassDict.FieldRules | src/gladiapy/v2/ws.py:70-92 | under `exclude_none`, `None` and `[]` fields are dropped; `{}` is kept; primitives are copied; nested dataclasses are converted; a non-empty list keeps its length and its non-dataclass items |
| DataclassDict.KeepAllFields | src/gladiapy/v2/ws.py:85 | without `exclude_none` every field appears, in declaration order |
| DataclassDict.FieldValueKept | src/gladiapy/v2/ws.py:70-86 | a field is dropped exactly when `Kept` says so |
| TranscriptionErrors.ValidatedTyped | src/gladiapp/v2/errors.py:8-13 | a validated error has every field of its declared type |
| TranscriptionErrors.FromJsonStrings | src/gladiapp/v2/errors.py:8-11 | `timestamp`, `path`, `requestId` and `message` come from those keys, or are empty when absent |
| TranscriptionErrors.FromJsonStatus | src/gladiapp/v2/errors.py:12 | the status code is the integer under `status`, or 0 when absent |
| TranscriptionErrors.FromJsonValidationErrors | src/gladiapp/v2/errors.py:13 | the validation errors are the string list under `validationErrors`, or `[]` when absent |
| TranscriptionErrors.NoAliasesValid | src/gladiapp/v2/errors.py:8-13 | an object holding none of the six input keys validates |
| TranscriptionErrors.StatusAndMessageValid | src/gladiapp/v2/errors.py:8-13 | an object with just an integer `status` and a string `message` validates |
| ApiCalls.Kept | src/gladiapy/v2/rest.py:108 | the comprehension never adds entries |
| ApiCalls.ParamsRule | src/gladiapy/v2/rest.py:108-110 | with distinct dumped keys, a parameter other than `status` is sent exactly when its value is neither `None` nor `[]`; a list of strings under `status` is sent joined by commas, and not at all when empty |
| ApiCalls.StatusOfKept | src/gladiapy/v2/rest.py:109-110 | the `status` rewrite: absent stays absent, and a non-empty string list becomes its comma-joined string |
| GladiaErrors.FirstOfOne | src/gladiapy/v2/errors.py:34-36 | a one-key precedence is `data.get(k, default)` |
| GladiaErrors.PartsLayout | src/gladiapy/v2/errors.py:46-52 | where the head, the request-id part and the validation line sit in the string form |
| PyValue.Keys | src/gladiapy/v2/ws.py:63 | the keys of a dict, one per entry, in insertion order |
| PyValue.Get | src/gladiapy/v2/errors.py:31 | `d.get(k)` finds something exactly when the key is present, and what it finds is an entry of the dict |
| PyValue.UniqueGet | src/gladiapy/v2/errors.py:31 | with distinct keys, every entry is what a lookup of its key finds |
| PyValue.UniqueAppend | src/gladiapp/v2/ws.py:116-129 | joining two dicts with distinct keys and no key in common keeps the keys distinct |
| PyValue.Set | src/gladiapy/v2/rest.py:110 | `d[k] = v` on an absent key appends the entry |
| PyValue.SetGet | src/gladiapy/v2/rest.py:110 | after `d[k] = v`, k maps to v and every other key keeps its value |
| PyValue.SetKeys | src/gladiapy/v2/rest.py:110 | overwriting an existing key keeps every key in its position |
| PyValue.Remove | src/gladiapy/v2/ws.py:294 | `d.pop(k, None)` leaves k absent and every other key with its value |
| PyValue.RemoveKeys | src/gladiapy/v2/ws.py:294 | the keys after `pop` are the old keys without k, in order |
| PyValue.StrList | src/gladiapy/v2/errors.py:13 | a list of strings as a value holds exactly those strings |
| PyValue.GetAppend | src/gladiapp/v2/ws.py:116-129 | in a merged dict, a key of the left part wins |
| PyValue.LastKeyFresh | src/gladiapy/v2/ws.py:66-76 | with distinct keys, the last key does not occur earlier |
| PyValue.JoinItems | src/gladiapy/v2/errors.py:51 | `sep.join(v)` on a list succeeds exactly when every item is a string |
| DataclassDict.FillStep | src/gladiapy/v2/ws.py:66-92 | one more field visited by the fill loop either sets that field's converted value or changes nothing |
| DataclassDict.KeptNamesAppend | src/gladiapy/v2/ws.py:66-92 | the kept names of two runs of fields are the kept names of each, in order |
| DataclassDict.ShallowItemsAt | src/gladiapy/v2/ws.py:78-84 | a list field converts nested dataclass items and keeps the other items as they are |
| DataclassDict.KeptEntriesKeys | src/gladiapy/v2/ws.py:66-92 | the keys of the converted dict are the kept field names, in order |
| DataclassDict.KeptNamesAreNames | src/gladiapy/v2/ws.py:66-92 | every kept name is a field name |
| DataclassDict.KeptEntriesGet | src/gladiapy/v2/ws.py:66-92 | with distinct field names, each field's lookup in the converted dict is its converted value, or nothing when dropped |
| DataclassDict.KeptNamesMembers | src/gladiapy/v2/ws.py:66-92 | a name is kept exactly when some field of that name holds a value that is kept |
| DataclassDict.KeptEntriesDict | src/gladiapy/v2/ws.py:66-92 | the kept entries have the kept names in order, hold exactly the kept fields, and each field's lookup is its converted value |
| Models.CheckAll | src/gladiapp/v2/rest_models.py:110 | a list field validates item by item, and the validated list keeps the input's length |
| Models.Names | src/gladiapp/v2/rest_models.py:172-210 | the field names of a schema, one per declared field and in declaration order |
| Models.ValidateFieldsAt | src/gladiapp/v2/rest_models.py:41-50 | `model_validate` succeeds exactly when every declared field takes a value, and the instance then holds each field's value in declaration order |
| Models.ValidateShape | src/gladiapp/v2/rest.py:61 | a successful `model_validate` was given an object holding every required key, and builds an instance whose field names are the schema's, in order |
| Models.FieldRule | src/gladiapp/v2/rest_models.py:41-50 | a field without a default whose key is missing fails validation; in a validated instance, field i holds its checked input value, or its default when the key is absent |
| Models.RequiredMissing | src/gladiapp/v2/rest_models.py:9-14 | an object missing the key of a field without a default is rejected |
| Models.FirstGivenRestDefaulted | src/gladiapp/v2/rest_models.py:172-210 | an object whose first field takes a value, and which holds none of the other keys, validates when all the other fields have defaults |
| Models.OnlyFirstGiven | src/gladiapp/v2/rest_models.py:172-210 | an object holding only the first field's key validates when every later field has a default |
| Models.DumpAll | src/gladiapp/v2/rest.py:73 | `model_dump` of a list dumps each item and keeps the length |
| Models.DumpedField | src/gladiapp/v2/rest.py:73 | with `exclude_none`, a `None` field is absent from the dump; every other field appears under its name with its dumped value |
| Models.DumpKeysAmong | src/gladiapp/v2/rest.py:73 | every key of a dump is the name of a field of the instance |
| Models.DumpHasField | src/gladiapp/v2/rest.py:73 | a field that is not dropped appears in the dump |
| Models.DumpFirstField | src/gladiapp/v2/rest.py:73 | the first field of a name that is not dropped is what the dump holds under that name |
| Models.DumpRecordField | src/gladiapp/v2/rest.py:73 | a nested model field is dumped as an object under its name |
| Models.AllDefaults | src/gladiapp/v2/rest_models.py:127-132 | an object without any of the keys validates when every field has a default, and the instance holds those defaults |
| Models.DumpFieldsSnoc | src/gladiapp/v2/rest.py:73 | dumping one more field appends that field's dump, unless `exclude_none` drops it |
| Models.TwoFields | src/gladiapp/v2/rest_models.py:25-30 | a schema of two fields validates exactly when both fields do |
| Models.ScalarField | src/gladiapp/v2/rest_models.py:9-14 | a required, non-optional `str`, `int` or `bool` field takes a value exactly when its key is present and holds a value of that type, and then it takes that value unchanged |
| Models.PresentThenDefaults | src/gladiapp/v2/rest_models.py:105-110 | when the first n fields take values and the rest are absent and defaulted, validation succeeds and the rest hold their defaults |
| Models.StrFieldOk | src/gladiapp/v2/rest_models.py:21 | a required `str` field whose key holds a string takes it |
| Models.IntFieldOk | src/gladiapp/v2/rest_models.py:12 | a required `int` field whose key holds an integer takes it |
| Models.NoKeys | src/gladiapp/v2/rest_models.py:213-220 | an object with none of the fields' keys validates to the defaults |
| Models.ModelFieldRecord | src/gladiapp/v2/rest_models.py:22 | a nested-model field holding something other than `None` holds an instance |
| Models.RequiredBoolField | src/gladiapp/v2/rest_models.py:169 | a required `bool` field rejects a missing key, and a validated instance holds the input's boolean there |
| Models.ModelFieldAt | src/gladiapp/v2/rest_models.py:187 | a non-optional nested-model field with a default factory rejects `None`, holds an instance when validated, and holds the default instance when its key is absent |
| Models.ValidateEmpty | src/gladiapp/v2/rest_models.py:213-220 | an empty object validates to the defaults, when every field has one |
| Models.DefaultsOfCons | src/gladiapp/v2/rest_models.py:213-220 | the defaults of a schema are the first field's default followed by the defaults of the rest |
| RestModels.CallbackMethod | src/gladiapp/v2/rest_models.py:113-116 | a callback configuration validates exactly when `url` is a string and `method` is the string `POST` or `PUT` |
| RestModels.MethodChoice | src/gladiapp/v2/rest_models.py:116 | a value matches the anchored `POST` or `PUT` pattern exactly when it is one of those two strings |
| RestModels.CallbackMethodExact | src/gladiapp/v2/rest_models.py:116 | the pattern is anchored and case-sensitive: `post` and `PUTS` are rejected |
| RestModels.QueryDefaults | src/gladiapp/v2/rest_models.py:213-220 | `ListResultsQuery()` has offset 0, limit 20, no date filters and an empty status list |
| RestModels.QueryDefaultsOf | src/gladiapp/v2/rest_models.py:213-220 | the declared defaults of the query are exactly those values |
| RestModels.QueryDatesDefault | src/gladiapp/v2/rest_models.py:218-220 | the date filters default to `None` and the status to `[]` |
| RestModels.DefaultQueryDump | src/gladiapp/v2/rest.py:127 | `model_dump(exclude_none=True)` of the default query is offset, limit and the empty status |
| RestModels.DefaultQueryParams | src/gladiapp/v2/rest.py:127 | the default query sends only `offset=0` and `limit=20`: the empty status is filtered out |
| RestModels.RequestRuns | src/gladiapp/v2/rest_models.py:172-210 | the request's fields in four runs: every `bool` flag defaults to `False`, and every field beside `audio_url` has a default |
| RestModels.RequestFields | src/gladiapp/v2/rest_models.py:172-210 | the request has 27 fields; `audio_url` is the one required field; every flag defaults to `False`; `translation_config` defaults to a `TranslationConfig()` and does not accept `None` |
| RestModels.RequestDefaults | src/gladiapp/v2/rest_models.py:172-210 | a request needs `audio_url`, validates with `audio_url` alone, and each flag whose key is absent is `False` |
| RestModels.RequestNeedsUrl | src/gladiapp/v2/rest_models.py:174 | a request without `audio_url` is rejected |
| RestModels.RequestUrlOnly | src/gladiapp/v2/rest_models.py:172-210 | an object holding only a string `audio_url` validates |
| RestModels.RequestFlagsDefault | src/gladiapp/v2/rest_models.py:177-209 | in a validated request, each `bool` whose key is absent is `False` |
| RestModels.TranslationConfigPresent | src/gladiapp/v2/rest_models.py:186-187 | `translation_config: None` is rejected; in a validated request it is always an instance, and the default `TranslationConfig()` when the key is absent |
| RestModels.TranslationConfigSent | src/gladiapp/v2/rest.py:73 | the body of every `pre_recorded` call carries a `translation_config` object, even one that set no translation at all |
| RestModels.TranslationConfigFirst | src/gladiapp/v2/rest_models.py:174-187 | in a validated request no field before `translation_config` has its name |
| RestModels.RequestEarlyNames | src/gladiapp/v2/rest_models.py:174-187 | no declared field before `translation_config` has its name |
| RestModels.UtteranceDefaults | src/gladiapp/v2/rest_models.py:41-50 | an utterance needs language, start, end, confidence, channel and text; without `words` it has none, and without `speaker`, or with `speaker: None`, the speaker is `None` |
| RestModels.UtteranceRequired | src/gladiapp/v2/rest_models.py:43-49 | an utterance missing any of its six required keys is rejected |
| RestModels.ResultRequired | src/gladiapp/v2/rest_models.py:90-102 | a result missing `id`, `request_id`, `version`, `status`, `created_at` or `kind` is rejected |
| RestModels.ResultRequiredHead | src/gladiapp/v2/rest_models.py:90-102 | a result missing `id`, `request_id` or `version` is rejected |
| RestModels.ResultRequiredTail | src/gladiapp/v2/rest_models.py:90-102 | a result missing `status`, `created_at` or `kind` is rejected |
| RestModels.ResultFields | src/gladiapp/v2/rest_models.py:90-102 | a result has eleven fields, and the first six are exactly the ones without a default |
| RestModels.SubtitlesStyle | src/gladiapp/v2/rest_models.py:119-124 | subtitle settings need `formats`; `style` is `"DEFAULT"` when absent and `None` when set to `None` |
| WsModels.TagsHaveKinds | src/gladiapy/v2/ws_models.py:18-38 | each of the sixteen event tags names an event class |
| WsModels.SharedKinds | src/gladiapy/v2/ws_models.py:68-70 | the two speech tags share the `SpeechEvent` class, and the four session and recording markers share `LifecycleEvent` |
| WsModels.EventHeaders | src/gladiapy/v2/ws_models.py:357-361 | every event class begins with the required strings `session_id`, `created_at` and `type`, and the lifecycle class has nothing else |
| WsModels.HeaderRequired | src/gladiapy/v2/ws_models.py:60-65 | an event missing `session_id`, `created_at` or `type` is rejected, and an accepted one holds the three strings it was given |
| WsModels.HeaderRule | src/gladiapy/v2/ws_models.py:80-85 | the same header rule for any schema whose first three fields are those strings |
| WsModels.RequiredString | src/gladiapy/v2/ws_models.py:62 | a required `str` field is rejected when absent and holds the input's string when accepted |
| WsModels.DataField | src/gladiapy/v2/ws_models.py:60-400 | each event class but the lifecycle one has a `data` field, required for speech, transcript, post-transcript, final-transcript and sentiment events and `None` by default for the others |
| WsModels.DataPresence | src/gladiapy/v2/ws_models.py:97-103 | an event without `data` is rejected when its class requires it, and otherwise holds `data = None` |
| WsModels.ErrorIndex | src/gladiapy/v2/ws_models.py:97-103 | where an event class keeps its optional `error`, if it has one |
| WsModels.ErrorOptional | src/gladiapy/v2/ws_models.py:121-127 | an `error` key is never required, and `error` is `None` when absent; speech, transcript, sentiment and lifecycle events have no `error` field |
| WsModels.AcknowledgedRequired | src/gladiapy/v2/ws_models.py:377-400 | both acknowledgments require the `bool` `acknowledged` and hold the input's value |
| WsModels.ListDefaultsHold | src/gladiapy/v2/ws_models.py:114-440 | in the payload classes every list field that does not accept `None` defaults to the empty list |
| WsModels.ListFieldsDefaultEmpty | src/gladiapy/v2/ws_models.py:234-260 | a payload missing such a list key holds `[]` there |
| WsModels.PayloadRequirements | src/gladiapy/v2/ws_models.py:73-77 | `TranscriptData` requires `id`, `is_final` and `utterance`; `FinalTranscriptData` requires `metadata` and holds `None` for an absent transcription or translation |
| Events.TagsDistinct | src/gladiapy/v2/ws.py:97-113 | there are sixteen tags and no two are equal |
| Events.RoutesAgree | src/gladiapy/v2/ws.py:440-472 | the routing table lists the sixteen tests of the elif chain in source order: one entry per tag, each agreeing with `SlotForTag`, and none targeting a connection slot |
| Events.RoutesTargets | src/gladiapy/v2/ws.py:440-472 | every routed tag is one of the sixteen, and no route targets the connected, disconnected or error slot |
| Events.RouteAgrees | src/gladiapy/v2/ws.py:441-472 | each entry of the routing table agrees with the tag-to-slot function |
| Events.RouteSlotsDistinct | src/gladiapy/v2/ws.py:441-472 | no callback slot is the target of two tags |
| Events.RouteTagsDistinct | src/gladiapy/v2/ws.py:441-472 | no tag is compared twice, so the order of the tests does not matter |
| Events.TagRouted | src/gladiapy/v2/ws.py:441-472 | every tag is compared by some entry of the routing table |
| WsSession.SetterSlotsBijective | src/gladiapy/v2/ws.py:524-580 | each of the nineteen callback slots has exactly one setter, and each setter writes exactly one slot |
| WsSession.SetCallbackOwnSlot | src/gladiapy/v2/ws.py:524-580 | a setter changes only its own slot (registered exactly when the callback is not `None`) and leaves the other eighteen slots, the socket and both logs as they were |
| WsSession.SetCallbackLastWins | src/gladiapy/v2/ws.py:524-580 | setting a slot twice is the same as setting it once to the second callback |
| WsSession.DisconnectIdempotent | src/gladiapy/v2/ws.py:493-498 | `disconnect` always leaves no socket, a second `disconnect` changes nothing, and a later `connect_and_start` gives a socket again |
| WsSession.DisconnectCloses | src/gladiapy/v2/ws.py:493-498 | `disconnect` with a socket writes exactly one close, for the current socket, and leaves the callbacks and the call log alone |
| WsSession.Prefix | src/gladiapy/v2/ws.py:513 | `audio_data[:size]` is the first `size` bytes, or the whole buffer when it is shorter |
| WsSession.SendSoftFailure | src/gladiapy/v2/ws.py:481-522 | a send without a socket changes nothing; with one it appends exactly one frame, addressed to the current socket |
| WsSession.FrameContents | src/gladiapy/v2/ws.py:489-521 | the binary audio frame has opcode 0x2 and carries the sliced bytes; the stop message is tagged `stop_recording`; the JSON audio message is tagged `audio_chunk` and carries `{"chunk": …}` under `data` |
| WsSession.ChainRoute | src/gladiapy/v2/ws.py:440-472 | the `elif` chain calls the first test whose tag equals the message's `type` and whose slot is registered; it only ever picks a registered slot |
| WsSession.ChainRouteIsTable | src/gladiapy/v2/ws.py:440-472 | because the tags are distinct, the chain picks exactly the slot of the message's tag, when that slot is registered, and nothing otherwise |
| WsSession.DispatchMalformed | src/gladiapy/v2/ws.py:433-438 | a message that is not JSON reaches only the error callback, with `Invalid JSON from server`, and only when one is registered; nothing else changes |
| WsSession.DispatchDecoded | src/gladiapy/v2/ws.py:439-472 | a decoded object calls the callback of its `type`'s slot once with the whole object, when that slot is registered; an unknown or missing `type` calls nothing; nothing else changes |
| WsSession.NewestHandlerWins | src/gladiapy/v2/ws.py:441-580 | a message reaches the callback most recently set for its slot |
| WsSession.SocketEventsKeepSocket | src/gladiapy/v2/ws.py:420-430 | opening, closing and a socket error never change the socket, the wire or the slots (`on_close` keeps `_ws`; only `disconnect` clears it), and each calls its own callback once, only when it is registered |
| WsSession.OperationsConsistent | src/gladiapy/v2/ws.py:411-580 | every session operation keeps the socket numbering consistent: every socket in the state or in the log was opened before |
| WsSession.StreamSession.constructor | src/gladiapy/v2/ws.py:380-406 | a new session stores its id, url and key, has no socket and no callbacks, and has logged nothing |
| WsSession.StreamSession.SessionInfo | src/gladiapy/v2/ws.py:408-409 | `get_session_info` is the object `{"id": …, "url": …}` built from what the session was given |
| WsSession.StreamSession.ConnectAndStartSession | src/gladiapy/v2/ws.py:411-479 | `connect_and_start` opens a fresh socket, keeps the callbacks, and returns `True` |
| WsSession.StreamSession.DisconnectSession | src/gladiapy/v2/ws.py:493-498 | the new state is the disconnect of the old one |
| WsSession.StreamSession.SendFrame | src/gladiapy/v2/ws.py:481-522 | a send returns `True` exactly when there was a socket, and the new state is that send applied to the old one |
| WsSession.StreamSession.SendStopSignal | src/gladiapy/v2/ws.py:481-491 | `send_stop_signal` returns whether a socket was present, and sends the `stop_recording` text frame when one was |
| WsSession.StreamSession.SendAudioBinary | src/gladiapy/v2/ws.py:500-514 | `send_audio_binary` returns whether a socket was present, and sends the first `size` bytes as a binary frame when one was |
| WsSession.StreamSession.SendAudioJson | src/gladiapy/v2/ws.py:516-522 | `send_audio_json` returns whether a socket was present, and sends the base64 of the first `size` bytes in an `audio_chunk` message when one was |
| WsSession.StreamSession.SetHandler | src/gladiapy/v2/ws.py:524-580 | any of the nineteen setters: only its own slot is replaced |
| WsSession.StreamSession.HandleOpen | src/gladiapy/v2/ws.py:420-422 | opening calls the connected callback when one is registered |
| WsSession.StreamSession.HandleClose | src/gladiapy/v2/ws.py:424-426 | closing calls the disconnected callback when one is registered |
| WsSession.StreamSession.HandleError | src/gladiapy/v2/ws.py:428-430 | a socket error calls the error callback with the error's text when one is registered |
| WsSession.StreamSession.HandleMessage | src/gladiapy/v2/ws.py:432-472 | an inbound message is dispatched as above |
| SessionRequest.NewLanguageConfig | src/gladiapy/v2/ws.py:146-153 | after `__post_init__`, `None` languages become `[]`, and `code_switching` is kept |
| SessionRequest.NewVocabulary | src/gladiapy/v2/ws.py:166-175 | after `__post_init__`, `None` pronunciations become `[]`, and the other fields are kept |
| SessionRequest.VocabularyValues | src/gladiapy/v2/ws.py:177-181 | a vocabulary list becomes one value per entry, in order |
| SessionRequest.NewCustomSpellingConfig | src/gladiapy/v2/ws.py:184-190 | after `__post_init__`, a `None` spelling dictionary becomes `{}` |
| SessionRequest.NewTranslationConfig | src/gladiapy/v2/ws.py:193-210 | after `__post_init__`, `None` target languages become `[]`, and the model, context and informal flag are kept |
| SessionRequest.InitializeSessionRequest.Fields | src/gladiapy/v2/ws.py:267-283 | the request as a dataclass instance: its sixteen fields, named and ordered as declared |
| SessionRequest.RequestToJson | src/gladiapy/v2/ws.py:285-296 | `to_json` converts with `exclude_none=True`, then pops `region` in place; the result is the body the model defines |
| SessionRequest.RequestFieldNamesUnique | src/gladiapy/v2/ws.py:267-283 | the sixteen field names are distinct |
| SessionRequest.ConvertThenPop | src/gladiapy/v2/ws.py:285-296 | for a dataclass with distinct field names, the converted-then-popped dict has no popped key; its keys are exactly the other kept fields, in declaration order; each holds its converted value |
| SessionRequest.PoppedField | src/gladiapy/v2/ws.py:285-296 | each field other than the popped one holds its converted value in the body |
| SessionRequest.ToJsonShape | src/gladiapy/v2/ws.py:285-296 | the body never holds `region`; a key is in the body exactly when it names a kept field other than `region`; each such field holds its converted value |
| SessionRequest.ToJsonField | src/gladiapy/v2/ws.py:268-296 | a top-level field other than `region` appears in the body with its converted value |
| SessionRequest.CallbackFalseIsSent | src/gladiapy/v2/ws.py:282 | `callback=False`, the default, is sent as `false`: excluding `None` does not drop falsy values |
| SessionRequest.ToJsonUnsetFieldsAbsent | src/gladiapy/v2/ws.py:268-296 | every field other than `region` that is `None` is absent from the body, and every one that is neither `None` nor an empty list is present |
| SessionRequest.DefaultFields | src/gladiapy/v2/ws.py:267-283 | the default request's fields are the declared defaults |
| SessionRequest.KeptNamesOfFour | src/gladiapy/v2/ws.py:70-86 | the kept names of four fields are those whose values are not dropped, in order |
| SessionRequest.DefaultKeptNames | src/gladiapy/v2/ws.py:267-283 | the fields the default request keeps are `region`, the six audio and model settings with values, `maximum_duration_without_endpointing` and `callback` |
| SessionRequest.ToJsonKeys | src/gladiapy/v2/ws.py:285-296 | the keys of a body are the kept field names without `region`, in declaration order |
| SessionRequest.DefaultRequestKeys | src/gladiapy/v2/ws.py:267-296 | the default request's body is the seven audio and model keys and `callback`, in declaration order, and nothing else |
| SessionRequest.EmptyLanguagesOmitted | src/gladiapy/v2/ws.py:80-86 | a language configuration's `languages` is omitted exactly when it is empty, and `code_switching` is always sent, `false` included |
| SessionRequest.EmptySpellingDictionarySent | src/gladiapy/v2/ws.py:87-89 | an empty spelling dictionary (what `None` becomes) is sent as `{}`: only lists and `None` are dropped |
| LegacySessionRequest.WireEncoding | src/gladiapp/v2/ws.py:114 | an empty encoding is sent as `wav/pcm`; any other has every `_` replaced by `/` and is otherwise unchanged, so the result holds no `_` |
| LegacySessionRequest.IfTruthy | src/gladiapp/v2/ws.py:125-128 | the spread `**({k: v} if v else {})` adds the one entry exactly when the value is truthy |
| LegacySessionRequest.OptionalKeys | src/gladiapp/v2/ws.py:125-128 | the optional part holds `messages_config`, `realtime_processing`, `post_processing` or `custom_metadata` exactly when that field is truthy: a non-empty dict or string |
| LegacySessionRequest.ToJsonKeys | src/gladiapp/v2/ws.py:112-129 | the body starts with the seven required keys in order, never holds `region`, and holds an optional key exactly when its field is truthy |
| LegacySessionRequest.IfTruthyKeys | src/gladiapp/v2/ws.py:125-128 | a spread adds the key once, or nothing |
| LegacySessionRequest.OptionalUnique | src/gladiapp/v2/ws.py:125-128 | the optional keys are distinct |
| LegacySessionRequest.RequiredUnique | src/gladiapp/v2/ws.py:118-124 | the required part is exactly the seven keys, each once |
| LegacySessionRequest.RequiredOptionalDisjoint | src/gladiapp/v2/ws.py:116-129 | no optional key repeats a required one |
| LegacySessionRequest.ToJsonUniqueKeys | src/gladiapp/v2/ws.py:116-129 | each key is sent once |
| LegacySessionRequest.ToJsonValues | src/gladiapp/v2/ws.py:114-128 | the body maps `encoding` to the rewritten encoding; `bit_depth`, `sample_rate`, `channels`, `model`, `endpointing` and `maximum_duration_without_endpointing` to their fields as given; and each of `messages_config`, `realtime_processing`, `post_processing` and `custom_metadata`, when truthy, to its field as given |
| LegacySessionRequest.RequiredFirst | src/gladiapp/v2/ws.py:116-129 | a required key is looked up in the literal's fixed part, whatever the spreads add |
| LegacySessionRequest.OptionalAfterRequired | src/gladiapp/v2/ws.py:116-129 | an optional key is looked up in the spreads, since no fixed key shares its name |
| LegacySessionRequest.RequiredValues | src/gladiapp/v2/ws.py:118-124 | each of the seven fixed keys holds its own field's value (the encoding rewritten) |
| LegacySessionRequest.IfTruthyGet | src/gladiapp/v2/ws.py:125-128 | a spread holds its key, with the field's value, exactly when the field is truthy, and no other key |
| LegacySessionRequest.OptionalValues | src/gladiapp/v2/ws.py:125-128 | each truthy optional field is found under its own key among the spreads |
| LegacySessionRequest.DefaultEncoding | src/gladiapp/v2/ws.py:100-114 | the default encoding `wav_pcm` is sent as `wav/pcm` |
| Chunking.ChunksConcat | examples/ws_example.py:200-207 | the chunks of a recording, put back together, are the recording |
| Chunking.ChunkSizes | examples/ws_example.py:200-207 | there are ceil(len/8000) chunks; each holds between 1 and 8000 bytes, and all but the last exactly 8000 |
| Chunking.ChunkAt | examples/ws_example.py:200-207 | chunk j starts at offset j*8000, which is below the length, is `audio[i:i + chunk_size]` there, and its length is the loop's `actual_size`, `min(8000, len - i)` |
| Chunking.OffsetHasChunk | examples/ws_example.py:200 | every offset of `range(0, len(audio), 8000)` begins a chunk |
| Chunking.ChunkFrames | examples/ws_example.py:209 | one binary frame per chunk, in order |
| Chunking.SendAllSnoc | examples/ws_example.py:209 | sending one more frame extends the sends by that frame |
| Chunking.SendAllWire | examples/ws_example.py:209-222 | a sequence of sends appends one frame per send, in order, to the current socket, and changes nothing else; without a socket nothing is written |
| Chunking.FirstSet | examples/ws_example.py:202-204 | the number of the first chunk before which the finished flag is set, or the chunk count when it never is |
| Chunking.StreamAudio | examples/ws_example.py:194-222 | the loop sends chunks in order until the flag is set or the audio runs out, counts them in `chunks_sent`, and then sends the stop signal once |
| Chunking.ChunkAtOffset | examples/ws_example.py:206-207 | the chunks of what follows offset i begin with `audio[i:i + k]`, of `min(k, len - i)` bytes, followed by the chunks after it |
| Chunking.NextChunk | examples/ws_example.py:206-207 | inside the loop, the next chunk to send is `audio[i:i + 8000]` |
| Chunking.SendOneMore | examples/ws_example.py:209-210 | sending chunk n after the first n chunks is sending the first n + 1 |
| Chunking.ChunksHead | examples/ws_example.py:206 | the first chunk is the first k bytes, or all of them, and the rest are the chunks of what follows |
| Chunking.FirstSetUnique | examples/ws_example.py:202-204 | the early-exit count is the only count before which the flag is never set and at which it is set, or the end is reached |
| Chunking.NoEarlyExit | examples/ws_example.py:200-218 | without an early exit every chunk is sent, and the bytes sent are the whole recording |
| Chunking.StopOnce | examples/ws_example.py:220-222 | the stop message is the last frame and the only text frame: every chunk frame before it is binary |
| Chunking.EmptyAudio | examples/ws_example.py:200-222 | an empty recording sends no chunk, and still sends the stop message |
| Srt.FloorDivOfFloor | examples/subtitles_example.py:199-200 | the float floor division `seconds // 3600` or `// 60` is the floor, divided by the integer |
| Srt.HoursPart | examples/subtitles_example.py:199 | hours are the whole seconds divided by 3600 |
| Srt.MinutesPart | examples/subtitles_example.py:200 | minutes are what is left of the whole seconds after the hours, divided by 60 |
| Srt.SecsPart | examples/subtitles_example.py:201 | seconds are the whole seconds modulo 60 |
| Srt.MillisPart | examples/subtitles_example.py:202 | for a non-negative time, the milliseconds are the first three decimals of the fraction, between 0 and 999 |
| Srt.SplitBounds | examples/subtitles_example.py:195-202 | for a non-negative time, minutes and seconds are below 60, milliseconds below 1000, and hours, minutes and seconds recompose the whole seconds |
| Srt.Decompose | examples/subtitles_example.py:199-201 | whole seconds are hours, minutes and seconds |
| Srt.Field | examples/subtitles_example.py:204 | the `:02d` or `:03d` field of a number below 100 or 1000 is exactly that many digits, which read back as the number |
| Srt.Layout | examples/subtitles_example.py:204 | where the four fields and three separators of `HH:MM:SS,mmm` sit |
| Srt.TimestampShape | examples/subtitles_example.py:195-204 | below 100 hours the timestamp has 12 characters with `:` at 2 and 5 and `,` at 8, and its four digit fields read back as the hours, minutes, seconds and milliseconds |
| Srt.TimestampLongHours | examples/subtitles_example.py:204 | from 100 hours on, the hour field simply grows and the rest keeps its 10 characters |
| Srt.Example | examples/subtitles_example.py:199-202 | 3661.25 seconds is one hour, one minute, one second and 250 milliseconds |
| ContentAnalysis.Distinct | examples/chapterization_example.py:135-137 | the key order of the frequency dict: only words of the list, each once, in the order of first occurrence |
| ContentAnalysis.FirstIndex | examples/chapterization_example.py:136 | the index of a word's first occurrence |
| ContentAnalysis.Words | examples/chapterization_example.py:141 | the keys of the frequency table, in order |
| ContentAnalysis.Find | examples/chapterization_example.py:137 | `word_freq.get(word)`: the entry holding the word, or nothing exactly when the word is not a key |
| ContentAnalysis.DistinctProps | examples/chapterization_example.py:135-137 | the dict's keys have no repeats, are exactly the words of the list, and come in the order of first occurrence |
| ContentAnalysis.DistinctMembers | examples/chapterization_example.py:135-137 | the dict's keys have no repeats and are exactly the words of the list |
| ContentAnalysis.DistinctOrder | examples/chapterization_example.py:135-137 | the dict's keys come in the order of first occurrence |
| ContentAnalysis.FirstIndexSnoc | examples/chapterization_example.py:136 | appending a word does not move an earlier word's first occurrence; a new word first occurs at the end |
| ContentAnalysis.FreqTableProps | examples/chapterization_example.py:134-137 | the frequency table holds each distinct word once, in first-occurrence order, with its number of occurrences, which is at least one |
| ContentAnalysis.FreqTableSnoc | examples/chapterization_example.py:136-137 | one step of the loop: the keys grow by the word only when it is new, and its count grows by one |
| ContentAnalysis.CountSeen | examples/chapterization_example.py:137 | counting a word already in the table adds one to its entry and leaves the others alone |
| ContentAnalysis.CountNew | examples/chapterization_example.py:137 | counting a new word appends it with count one |
| ContentAnalysis.CountWords | examples/chapterization_example.py:135-137 | the counting loop builds exactly the frequency table |
| ContentAnalysis.CommonProps | examples/chapterization_example.py:141-142 | the comprehension keeps exactly the items with count above 1, not a stop word, and longer than two characters, in table order |
| ContentAnalysis.InsertPerm | examples/chapterization_example.py:143 | inserting into the sorted list adds exactly that item |
| ContentAnalysis.InsertSorted | examples/chapterization_example.py:143 | inserting into a list sorted by count, largest first, keeps it sorted |
| ContentAnalysis.InsertBelowHead | examples/chapterization_example.py:143 | an item inserted behind the head never outcounts the head |
| ContentAnalysis.SortedCons | examples/chapterization_example.py:143 | a sorted list stays sorted when an item counting at least as much as all of it is put in front |
| ContentAnalysis.InsertTies | examples/chapterization_example.py:143 | insertion keeps equal-count items in rank order when the new item ranks first |
| ContentAnalysis.InsertBehindHead | examples/chapterization_example.py:143 | an item put behind the head that ties with it ranks after it |
| ContentAnalysis.TiesCons | examples/chapterization_example.py:143 | ties stay in rank order when an item ranking before all its ties is put in front |
| ContentAnalysis.SortPerm | examples/chapterization_example.py:143 | `sort` is a permutation |
| ContentAnalysis.SortSorted | examples/chapterization_example.py:143 | `sort(key=count, reverse=True)` orders by count, largest first |
| ContentAnalysis.SortTies | examples/chapterization_example.py:143 | the sort is stable: items of equal count keep their original order |
| ContentAnalysis.RepeatedWordsProps | examples/chapterization_example.py:134-143 | the ranked words are exactly the kept words with their counts, ordered by count, largest first, with ties in first-occurrence order |
| ContentAnalysis.Labels | examples/chapterization_example.py:146 | one `word(count)` label per item, in order |
| ContentAnalysis.TopProps | examples/chapterization_example.py:146 | `common_words[:5]` shows at most five items, five when there are that many, the first ones of the ranking, and none left out outcounts one shown |
| ContentAnalysis.NonBlankCount | examples/chapterization_example.py:131 | the count of pieces holding something besides whitespace is at most the number of pieces |
| ContentAnalysis.SplitCount | examples/chapterization_example.py:131 | `split('.')` yields one piece more than there are full stops |
| ContentAnalysis.SplitNoSep | examples/chapterization_example.py:131 | text without the separator splits into itself alone |
| ContentAnalysis.SentencesBound | examples/chapterization_example.py:131 | there are at most as many sentences as full stops plus one, and text without a full stop is one sentence, or none when blank |
| ContentAnalysis.RepeatedNonEmpty | examples/chapterization_example.py:141-145 | some word is ranked exactly when a word occurs more than once, is not a stop word and has more than two characters |
| ContentAnalysis.AnalysisKeys | examples/chapterization_example.py:126-146 | the dict's keys come in fill order, `Total characters` is the text's length, and `Sentences` is the number of non-blank pieces |
| ContentAnalysis.AnalysisRepeated | examples/chapterization_example.py:141-146 | `Most repeated words` is present exactly when some word is repeated, kept by the filter, and then holds the top of the ranking |
| ContentAnalysis.AnalysisRanked | examples/chapterization_example.py:145-146 | the ranking entry is there exactly when the ranking is not empty |
| ContentAnalysis.AnalyzeContentStructure | examples/chapterization_example.py:120-146 | the method fills exactly the dict the model defines |
| Diarization.OfSpeakerProps | examples/speaker_diarization_example.py:101-108 | a speaker's group holds each of that speaker's utterances as often as it occurs, and nothing else |
| Diarization.OfSpeakerEmpty | examples/speaker_diarization_example.py:106-108 | a speaker's group is empty exactly when the speaker does not occur |
| Diarization.SpeakersOfSnoc | examples/speaker_diarization_example.py:103 | one more utterance adds its speaker to the set |
| Diarization.GroupBySpeaker | examples/speaker_diarization_example.py:97-108 | the loop builds the set of speakers and a dict with exactly those keys, each holding that speaker's utterances in order |
| Diarization.GroupTotalSnoc | examples/speaker_diarization_example.py:108 | one more utterance adds one to the total for each listing of its speaker |
| Diarization.GroupSizes | examples/speaker_diarization_example.py:115-120 | listing each speaker once, the group sizes add up to the number of utterances |
| Diarization.GroupTotalEmpty | examples/speaker_diarization_example.py:115-120 | no utterances, no total |
| Diarization.InsertId | examples/speaker_diarization_example.py:115 | inserting an id into an increasing list adds exactly that id and keeps it increasing |
| Diarization.ConsIncreasing | examples/speaker_diarization_example.py:115 | an increasing list stays increasing when a smaller id is put in front |
| Diarization.SortedIds | examples/speaker_diarization_example.py:115 | the identified speaker ids, each once, in increasing order |
| Diarization.Somes | examples/speaker_diarization_example.py:115 | the ids as identified speakers, in order |
| Diarization.BreakdownMembers | examples/speaker_diarization_example.py:115 | the breakdown lists exactly the speakers |
| Diarization.BreakdownOrder | examples/speaker_diarization_example.py:115 | `sorted(speakers, key=(x is None, x))` puts the identified speakers in increasing order and `None` last, with no repeats |
| Diarization.BreakdownOnce | examples/speaker_diarization_example.py:115 | each speaker occurs once in the breakdown |
| Diarization.DistinctCount | examples/speaker_diarization_example.py:115 | in a sequence without repeats, an element occurs once |
| Diarization.InsertByStartPerm | examples/speaker_diarization_example.py:137 | inserting by start time adds exactly that utterance |
| Diarization.InsertByStartSorted | examples/speaker_diarization_example.py:137 | inserting by start time keeps the list ordered by start |
| Diarization.StartingAtCons | examples/speaker_diarization_example.py:137 | the utterances with a given start, of a list with one more utterance in front |
| Diarization.InsertByStartStable | examples/speaker_diarization_example.py:137 | insertion keeps the utterances of each start in order, with the new one ahead of those starting when it does |
| Diarization.TimelineProps | examples/speaker_diarization_example.py:137 | `sorted(utterances, key=start)` is a permutation in non-decreasing start order, and utterances with the same start keep their input order |
| Diarization.TransitionsBound | examples/speaker_diarization_example.py:145-152 | there is at most one transition per consecutive pair, and none when every utterance has the same speaker |
| Diarization.TransitionAfterNone | examples/speaker_diarization_example.py:149 | a change right after an unidentified speaker is not counted: speaker 1, no speaker, speaker 2 is one transition |
| Diarization.CountTransitions | examples/speaker_diarization_example.py:145-152 | the loop, with `current_speaker` starting at `None`, counts exactly the transitions |
| Diarization.AnalyzeSpeakers | examples/speaker_diarization_example.py:97-157 | the analysis runs exactly when there are utterances, and then reports the number of speakers, each speaker of the breakdown with its number of utterances, the timeline and the transition count |
| Diarization.BreakdownTotal | examples/speaker_diarization_example.py:115-120 | the breakdown's utterance counts add up to the number of utterances |
| Strings.DigitChar | examples/subtitles_example.py:204 | a digit below ten is a decimal digit character |
| Strings.NatDigitsShape | examples/subtitles_example.py:204 | the digits of n are non-empty, all decimal, and without a leading zero unless n is 0 |
| Strings.NatDigitsRoundTrip | examples/subtitles_example.py:204 | the decimal digits of n read back as n |
| Strings.NatDigitsLength | examples/subtitles_example.py:204 | numbers below 100 or 1000 have at most two or three digits |
| Strings.LeftPad | examples/subtitles_example.py:204 | padding to a width keeps the string at the end and fills the front with zeros |
| Strings.ZeroPadNat | examples/subtitles_example.py:204 | `{n:0<width>d}` of a non-negative n is all digits, exactly `width` long when n fits, and reads back as n |
| Strings.ParseLeadingZeros | examples/subtitles_example.py:204 | leading zeros do not change the value of a digit string |
| Strings.ParseAllZeros | examples/subtitles_example.py:204 | a string of zeros reads as 0 |
| Strings.ReplaceChar | src/gladiapp/v2/ws.py:114 | `replace` of one character keeps the length and swaps exactly the matching characters |
| Strings.Split | examples/chapterization_example.py:131 | `split` on one character always yields at least one piece |
| Strings.SplitJoin | examples/chapterization_example.py:131 | joining the pieces of a split with the separator gives the string back, and no piece contains the separator |

## Left out

- Network I/O is not modelled: the `requests.Session` calls and their headers, `WebSocketApp`, the ping settings and the `time.sleep` waits. An HTTP response is a value with a status, a parsed body and a text. An inbound socket message is a value handed to the dispatcher.
- Threads are not modelled: the daemon receive thread `connect_and_start` starts, the `threading.Event` and locks of the examples. The example's `websocket_finished` flag is a function from the chunk number to whether the flag is set by then.
- `connect_and_start` does not open a real connection. It stores a fresh socket number. An older socket is replaced without being closed, as in the source.
- JSON decoding and encoding (`json.loads`, `json.dumps`) and base64 are function parameters or opaque values. Their own correctness is not modelled.
- pydantic is modelled by a generic validator for presence, defaults, aliases, `None`, JSON kinds and the callback pattern. Type coercion is not modelled, apart from an integer accepted where a float is declared, and neither are nested-type error messages.
- Floats are exact reals. IEEE rounding in `format_srt_timestamp` and in the duration sums and progress percentages of the examples is not modelled.
- `lower()` and `split()` in `analyze_content_structure` are inputs: the method receives the word list. The regular-expression number scan and its `Numbers/counts found` entry are not modelled.
- Printing is not modelled: the examples' progress and report output, the debug print of gladiapy `get_result`, `GladiaError.__repr__` and the per-speaker speaking time.
- `list.sort` and `sorted` are modelled on sequences, as a stable insertion sort, rather than in place.
- The chunking loops of `examples/websocket_sentiment_example.py` and `examples/websocket_translation_example.py` are the same loop as in `examples/ws_example.py`, so one model covers all three. The other example scripts only upload, poll and print.
- `rich-example/app.py` is a user interface with audio capture and is not part of this model.
- `load_dotenv` and the package `__init__.py` re-exports are not modelled.
- `constants.py` is not part of this model. The base URL, the endpoints and the user agent are not modelled.
- The two packages' session classes are the same class and are modelled once. So are their two `events` declarations.
- Exceptions raised inside a user callback are not caught by the source, so the model has no catch for them.
- WsModels: the fields typed `Word`, `Utterance`, `Subtitle`, `Metadata` or `TranscriptionFile` (imported from gladiapy `rest_models.py`) accept any JSON value, `None` included, so the model accepts event payloads that pydantic rejects, such as `utterance: 5` or `metadata: None` in a final transcript. Only the presence rules of those fields are modelled.
- `WsSession.StreamSession.HandleMessage`: requires a decoded message to be a JSON object. On any other JSON value the source's `data.get` raises inside the receive thread.
- `WsSession.StreamSession.SendAudioBinary`: the size is a `nat`. Python's slicing with a negative size is not modelled.
- `WsSession.StreamSession.SendAudioJson`: the size is a `nat`, as above.

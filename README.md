# marketo-monkey, modelled in Dafny

marketo-monkey is a small command-line client for a marketing platform's
REST API. It obtains an OAuth access token with the client-credentials
grant, then creates or updates "lead" records and records of a custom
"snap" object, reads them back, and describes their field schemas. This
project models the deterministic part of it:

- `spec_parser.dfy` (module `SpecParser`): the `field=value,field=value`
  parser, `parse_spec` in `marketo_monkey/__main__.py`, which the legacy
  script `marketo-monkey.py` repeats inline in its `main`. `ParseSpec` is the
  loop, proved equal to the functional specification `ParsedSpec`, and the
  lemmas say what that specification means: which segments are skipped,
  which make the parse fail, which fields end up in the map and with which
  value.
- `strings.dfy` (module `Strings`): Python's `str.split` for a one-character
  separator and its inverse `join`, with both round trips.
- `client.dfy` (module `Client`): the `MarketoMonkey` class. The file
  `marketo-monkey.py` (lines 16-100) holds a copy of the class in
  `marketo_monkey/__init__.py` (lines 15-99) that is identical line for line;
  both are modelled by the one class. The cached token is the class's field;
  HTTP is a `Network` object, an oracle that answers the n-th request and
  logs every request sent. `Route`, `TokenStep`, `Call` and `Session` are
  the functional specification of the methods; the lemmas about them state
  how the token is cached over a run of operations that ends at the first
  exception, which is how the legacy `main` uses the client.
- `legacy_main.dfy` (module `LegacyMain`): the decisions inside the legacy
  script's `main`: the list of settable fields for each object, the reading
  of the answer to `set_lead`/`set_snap` (success exactly when the first
  result record carries `id` or `marketoGUID`), and the flow from spec text
  to classified answer.
- `values.dfy` (module `Values`): the Python values handled (decoded JSON
  without floats), subscripting, indexing and truthiness with the
  exceptions Python raises. `results.dfy` (module `Results`): `Option` and
  `Result`.

Python's `None` is `Value.Null`. A raised exception is an `Err` carrying
`KeyError`, `IndexError`, `TypeError` or `ValueError`. A URL is kept as the
configured service root, the path joined onto it and the query map, before
encoding.

The client checks neither the HTTP status of an answer, nor its `success`
flag, nor the `status` of any result record: every method returns the
decoded answer unchanged. The lead overrides are hardcoded in `set_lead`
(marketo_monkey/__init__.py:64-68). The legacy `main` reads only the key
field of `result[0]` (marketo-monkey.py:190-198 and 208-216;
`LegacyMain.ClassifyReadsOnlyResult`).

## Model

| member | source | states |
|---|---|---|
| `SpecParser.ParseSpec` | marketo_monkey/__main__.py:36-43 | the loop returns exactly what the specification `ParsedSpec` gives: the map, or the ValueError of the first segment that cannot be unpacked |
| `SpecParser.FoldValues` | marketo-monkey.py:181-186 | in the inline copy of the loop, each field holds the value of the last segment that assigns it |
| `SpecParser.ClassifyAssignment` | marketo_monkey/__main__.py:41-42 | a segment assigns `value` to `field` exactly when it is `field=value` with no other `=`; either side may be empty |
| `SpecParser.ClassifyTooManyValues` | marketo_monkey/__main__.py:41 | a segment makes the unpacking raise exactly when it holds two or more `=` |
| `SpecParser.FoldOk` | marketo_monkey/__main__.py:38-42 | the parse returns a map exactly when no segment holds two or more `=` |
| `SpecParser.FoldFirstError` | marketo-monkey.py:182-185 | a failing parse raises for the first segment with two or more `=`, and returns no map |
| `SpecParser.FoldErrSticky` | marketo_monkey/__main__.py:38-41 | once a segment has raised, the segments after it change nothing |
| `SpecParser.FoldKeys` | marketo_monkey/__main__.py:37-43 | the fields of the result are exactly the fields of the well-formed segments |
| `SpecParser.LastWins` | marketo_monkey/__main__.py:38-42 | when several segments assign a field, the last one's value is in the result |
| `SpecParser.SkippedSegmentIgnored` | marketo_monkey/__main__.py:39-40 | removing an empty or `=`-less segment changes neither the map nor the error; the segments after it are still processed |
| `SpecParser.ParseEmpty` | marketo_monkey/__main__.py:38-40 | the empty text parses to the empty map |
| `SpecParser.ParsedSpecCharacters` | marketo_monkey/__main__.py:38-42 | no field and no value of a parsed spec holds `,` or `=` |
| `Strings.Split` | marketo_monkey/__main__.py:38 | `split` gives one piece more than there are separators, and no piece holds the separator |
| `Strings.JoinSplit` | marketo_monkey/__main__.py:38 | joining the pieces of a split with the separator restores the text |
| `Strings.SplitJoin` | marketo_monkey/__main__.py:41 | splitting a join of separator-free pieces restores the pieces |
| `Client.MarketoMonkey.constructor` | marketo_monkey/__init__.py:21-23 | a new client keeps its configuration and holds no token |
| `Client.MarketoMonkey.GetAccessToken` | marketo_monkey/__init__.py:30-41 | with a token cached, returns it and sends nothing; otherwise sends the token request once and caches its `access_token`, or raises KeyError (an object without `access_token`) or TypeError (an answer that is not an object) and caches nothing |
| `Client.TokenStep` | marketo-monkey.py:31-42 | the cached token is returned as it is; without one, exactly the token request is sent, and the new cached value is what it returned |
| `Client.TokenQuery` | marketo_monkey/__init__.py:34-39 | the token query takes both credentials from the configuration and carries no access token |
| `Client.TokenRequestIsNotApiRequest` | marketo_monkey/__init__.py:32-50 | the token request differs from every API request, since only API queries carry `access_token` |
| `Client.Query` | marketo_monkey/__init__.py:45-50 | the query always holds `access_token`, holds every extra parameter with its value, and holds the token unless an extra parameter of that name overrides it |
| `Client.MarketoMonkey.PrepareUrl` | marketo-monkey.py:44-52 | the URL is the service root, the path and the query `Query(token, extra)`, after the token step; a failing token step raises and builds no URL |
| `Client.Build` | marketo_monkey/__init__.py:43-51 | every API request keeps the configured root and the operation's path and carries an access token |
| `Client.LeadRecord` | marketo_monkey/__init__.py:63-68 | the lead record holds every caller field, keeps each caller value except that `snapcraftio` is forced to True and `snapcraftioEnvironment` to `'staging'` |
| `Client.Payload` | marketo_monkey/__init__.py:70 | the POST body carries exactly one record, under `input` |
| `Client.MutationsPostOneRecord` | marketo_monkey/__init__.py:62-85 | `set_lead` posts one record, the caller's fields with the overrides; `set_snap` posts one record, the caller's fields unchanged |
| `Client.MarketoMonkey.SetLead` | marketo-monkey.py:63-72 | sends, after the token step, one POST to the leads path with the overridden record; returns its answer |
| `Client.MarketoMonkey.SetSnap` | marketo_monkey/__init__.py:81-85 | sends, after the token step, one POST to the snap object's path with the caller's fields |
| `Client.MarketoMonkey.GetSnap` | marketo_monkey/__init__.py:87-96 | sends, after the token step, one GET to the snap object's path filtered by the GUID |
| `Client.GetSnapQuery` | marketo_monkey/__init__.py:88-95 | the `get_snap` query holds the token, `filterType=idField`, `filterValues` the GUID and the fixed field list, and nothing else |
| `Client.SnapFieldsList` | marketo_monkey/__init__.py:91-92 | the `fields` parameter is the eight snap field names, in order, separated by commas |
| `Client.MarketoMonkey.GetLead` | marketo_monkey/__init__.py:73-75 | sends, after the token step, one GET to the lead's own path |
| `Client.MarketoMonkey.DescribeObject` | marketo_monkey/__init__.py:57-60 | sends, after the token step, one GET to the object's describe path |
| `Client.MarketoMonkey.DescribeSnap` | marketo_monkey/__init__.py:98-99 | does exactly what `describe_object('snap_c')` does |
| `Client.DescribeSnapIsDescribeObject` | marketo-monkey.py:99-100 | the snap describe request is the describe request of the object `snap_c` |
| `Client.MarketoMonkey.ListObjects` | marketo_monkey/__init__.py:53-55 | sends, after the token step, one GET to the custom objects path |
| `Client.MarketoMonkey.DescribeLead` | marketo_monkey/__init__.py:77-79 | sends, after the token step, one GET to the lead describe path |
| `Client.MarketoMonkey.Get` | marketo_monkey/__init__.py:53-55 | the shared step of every getter: after the token step, one GET to the path with the extra parameters and no body; the answer is returned unchanged, or the token step's exception |
| `Client.MarketoMonkey.Post` | marketo_monkey/__init__.py:69-71 | the shared step of `set_lead` and `set_snap`: after the token step, one POST to the path with the JSON headers and the body `{'input': [record]}`; the answer is returned unchanged |
| `Client.Network.Send` | marketo_monkey/__init__.py:55 | a request is logged, and answered by the oracle according to its position in the log |
| `Client.CachedCall` | marketo-monkey.py:45-52 | with a token cached, an operation sends only its own request, with that token, and keeps the token |
| `Client.FirstFetch` | marketo_monkey/__init__.py:30-50 | the first operation without a token sends the token request, then its own request, and the rest runs with the new token |
| `Client.CachedSessionNeverFetches` | marketo_monkey/__init__.py:31-41 | once a token is cached, no sequence of operations requests a token again, and the token does not change |
| `Client.SessionFetchesAtMostOnce` | marketo-monkey.py:31-42 | over a sequence of operations on one client that stops at the first exception, the token is requested at most once, and never when one is cached, as long as the service never returns a None token |
| `LegacyMain.UnmanagedNames` | marketo-monkey.py:172-174 | the comprehension succeeds exactly when every descriptor says whether it is CRM-managed and names itself when it is not; it lists at most one name per descriptor |
| `LegacyMain.UnmanagedNamesAppend` | marketo-monkey.py:172-174 | the names come out in describe order: the result for a concatenation is the concatenation of the results |
| `LegacyMain.UnmanagedNamesMembers` | marketo-monkey.py:173-174 | a name is listed exactly when a descriptor whose `crmManaged` is false carries it |
| `LegacyMain.Texts` | marketo-monkey.py:176-177 | the join succeeds exactly when every name is a string, and keeps the names in order |
| `LegacyMain.SnapListing` | marketo-monkey.py:171-177 | the listing fails with the describe answer's own exception when `result[0]['fields']` cannot be read; when it succeeds, every descriptor is readable, the fields are the unmanaged names as text in describe order, and the display name is `result[0]['displayName']` |
| `LegacyMain.SnapListingFields` | marketo-monkey.py:170-177 | the snap listing offers exactly the names of the describe fields that are not CRM-managed |
| `LegacyMain.ListFields` | marketo-monkey.py:164-178 | without a spec, a lead lists `firstName, lastName, email, company` and sends nothing; a snap lists the unmanaged fields of the `describe_snap` answer |
| `LegacyMain.Messages` | marketo-monkey.py:196-197 | the reasons' messages, one per reason and in order, or the first exception |
| `LegacyMain.ReasonMessages` | marketo-monkey.py:196-197 | one message per reason of `result[0]['reasons']`, in order, exactly when every reason has a `message`; an answer without `result` makes the listing raise KeyError |
| `LegacyMain.Classify` | marketo-monkey.py:190-198 | only KeyError is caught: an accepted answer carries `result[0][KEY]` as its key, a rejected one lists `ReasonMessages`; an answer that is not an object raises TypeError, an empty `result` raises IndexError, and an object without `result` is reported as a failure |
| `LegacyMain.FailureExactlyWhenKeyMissing` | marketo-monkey.py:190-198 | given a first result record, a lead or snap mutation is reported as failed exactly when the record lacks `id` (resp. `marketoGUID`), and otherwise that field is the key |
| `LegacyMain.FailureListsReasons` | marketo-monkey.py:208-216 | a reported failure whose reasons are objects with a message lists those messages in order, and `main` returns 1 |
| `LegacyMain.ClassifyReadsOnlyResult` | marketo-monkey.py:188-216 | the decision reads only `result`: the `success` flag and every other entry play no part |
| `LegacyMain.Submit` | marketo-monkey.py:181-216 | a spec that does not parse raises ValueError and sends nothing; otherwise the parsed fields go to `set_lead` or `set_snap` and the answer is classified |

## Left out

- HTTP itself (`requests.get`/`requests.post`, transport errors, status codes, default headers) and the decoding of bodies with `.json()`: the service is the `Network` oracle, which always answers with a decoded value.
- The OAuth exchange on the service's side: only the token request's parameters are modelled.
- `urllib.parse.urljoin` and `urlencode`: a URL is the root, the path and the unencoded query map.
- Loading the YAML configuration (`config_from_yaml_file`), the editor, argument parsing, environment variables, colours, `pprint`, printing and `sys.exit`.
- `Client.SessionFetchesAtMostOnce`: a caller that catches the KeyError or TypeError of a failed token fetch and calls again sends a second token request, since nothing was cached; `Client.Session` ends a run at its first exception, as the legacy `main` does, so the lemma does not speak of such retries.
- `Client.Config`: a configuration without `service_root`, `client_id` or `client_secret` (a KeyError at the first request) is not represented.
- `Client.MarketoMonkey.GetLead`: takes the lead id as the text that `'{}'.format(lead_id)` produces; rendering other values to text is not modelled.
- `LegacyMain.Submit`: stops once the answer is classified; printing the status, fetching the record back with `get_lead`/`get_snap` and printing it are not modelled.
- `LegacyMain.Messages`: the messages printed before an exception interrupts the listing of reasons are not returned.
- Python's own exit status for an exception that escapes `main` is not modelled; only the `return 1` of a reported failure is.
- `MarketoMonkeyError`, `get_lead_info` and `get_snap_info`, used by the `main` of `marketo_monkey/__main__.py`, are not defined in the code of this revision; that `main` is not part of this model beyond `parse_spec`.
- The `lead.overrides` block of the default configuration in `marketo_monkey/__main__.py` is ignored by the code, which hardcodes the overrides; so does the model.
- Floating-point JSON numbers.
- `setup.py` (packaging).

# py-eventline: the API object readers and the HTTP client, in Dafny

This project models the core of the Python client library for the Eventline API. That core has two parts.

**API objects.** `ReadableAPIObject` turns a JSON object that the API returned into an object with attributes. A schema's `read_data` is a fixed sequence of reader calls, such as `_read_string`, `_read_datetime`, `_read_integer`, `_read_boolean`, `_read_object` and `_read_object_array`.
- Each call looks a key up through `_get_field` and checks the value's type the way Python's `isinstance` does. A JSON boolean counts as an integer.
- A reader either stores the value, or a default, under an attribute, or it raises `InvalidObjectError(object_name, value, reason)`.
- The first error raised ends the sequence. Attributes already set stay set.
- The schemas modelled are `Account`, `AccountSettings`, `Organization`, `Cursor` and `Page`.

**The client.** `Client` builds a request's URI from its endpoint's components and its headers from the API key and the project id. A given value wins over the environment's value for both. The client then turns the outcome of the network call into one of these:
- the response, for a 2xx status;
- an `APIError` that carries the method, the URI, the status and the error body's `error` and `code`;
- a `ClientError` that wraps the network call's exception.

The modules are:
- `Wrappers`: `Option` and `Result`.
- `Text`: decimal rendering of integers, as in Python f-strings.
- `Json`: decoded JSON values and Python's `str()` of them.
- `ApiObject`: the error, the readers, and the classes `APIObject` and `ReadableAPIObject`.
- `Account`, `Organization`, `Pagination`: the schemas.
- `Client`: `APIError` and `Client`.

Each reader exists in two forms, and each method is proved against its function:
- a pure function, `ApiObject.ReadField` and `ApiObject.Step`;
- a method of the class `ApiObject.ReadableObject` that updates its `attrs` map in place.

A schema's `read_data` also exists in two forms:
- its reads as an ordered list of field descriptors, interpreted by `ApiObject.RunFrom`;
- a method performing the same reader calls on an object, proved to produce exactly what `RunFrom` gives.

The properties of the schemas are proved as lemmas about `RunFrom`:
- which keys are required;
- which attributes are written, and with which values;
- which error is reported first.

Several things are inputs rather than computations:
- `dateutil.parser.isoparse`: a function value `Parser`, returning `Some(instant)` where isoparse returns and `None` where it raises.
- The class handed to `_read_object` and `_read_object_array`: a `Decoder` function value.
- The environment lookups (`eventline.environment.api_key()` and `project_id()`): optional strings.
- `urllib.parse.urlparse(endpoint)`: the `UrlComponents` value given to the constructor.
- The outcome of `requests.request`: an `HttpOutcome` value.

`SendRequest` returns the request it would send, so its URI and headers can be stated.

Three observations about the source shaped the model.
- `_read_object` and `_read_object_array` call `_read_data` on the nested instance. Only the base class defines that method, and it does nothing; the schemas define `read_data`. See "## Findings".
- `pagination.py` calls `APIObject.__init__` with two arguments, but that constructor takes one. It also calls the readers without their `data` argument. As written, constructing a `Cursor` or a `Page` raises a `TypeError`. The model follows the evident schema: the five optional cursor fields, and a page's required `elements` array with optional `previous` and `next` cursors. It reads them through the readers of `api_object.py`.
- An error response whose JSON body is not a dict, or lacks `error` or `code`, makes `send_request` raise a `TypeError` or `KeyError`. Nothing catches it, and the model returns it as `Escaped`. A body that is not JSON gives an `APIError` whose message is the HTTP reason and whose code is None. The code performs no content-type check and no certificate pinning; the model adds neither.

## Model

| member | source | states |
|---|---|---|
| ApiObject.ErrorMessage | eventline/api_object.py:25-26 | the exception text is "invalid ", then the object name, then ": ", then the reason, each part at its exact position |
| ApiObject.Article | eventline/api_object.py:74-76 | the article is "an" exactly for integer, object and array, and "a" exactly for string and boolean |
| ApiObject.GetFieldCases | eventline/api_object.py:68-82 | a required key that is absent raises "missing field" with the whole dict. Otherwise the read succeeds iff the looked-up value (or the default) is null or an instance of the class. A success returns that value. A failure raises "is not a/an <class>" with that value |
| ApiObject.FromJson | eventline/api_object.py:98 | an attribute is None exactly when the JSON value is null; any other value is stored unchanged |
| ApiObject.BaseHook | eventline/api_object.py:55-56 | the base `_read_data` hook leaves every nested instance empty, whatever its data |
| ApiObject.DecodeFrom | eventline/api_object.py:185-197 | a decoded array has one element per JSON element, in order. Each JSON element is an object and the decoder yields that element |
| ApiObject.DecodeFromSucceeds | eventline/api_object.py:187-197 | if every element is an object that decodes, the whole array decodes |
| ApiObject.DecodeFromFirstNonObject | eventline/api_object.py:188-194 | when the elements before index k are objects that decode, the first non-object at k is the error raised: that element, with the message naming index k and the key |
| ApiObject.ReadFieldMissing | eventline/api_object.py:68-71 | every reader raises "missing field '<key>'" with the whole dict when a required key is absent |
| ApiObject.ReadFieldNull | eventline/api_object.py:73 | a present null passes every reader and is stored as None, or as the datetime reader's default |
| ApiObject.ReadFieldWrongType | eventline/api_object.py:73-81 | a present non-null value of the wrong class raises "field '<key>' is not a/an <class>" carrying that value |
| ApiObject.ReadFieldAbsent | eventline/api_object.py:72 | an absent optional key gives the reader's default. A scalar reader type-checks its default, storing it (null as None) or raising "is not a/an <class>". A datetime read gives the default instant or None. An object or array read gives None |
| ApiObject.ReadFieldScalarPresent | eventline/api_object.py:93-98 | a present value of the right class is stored exactly as decoded |
| ApiObject.ReadFieldOptionalScalar | eventline/api_object.py:124-138 | an optional scalar read succeeds iff the value or the default is null or of the class, and it then stores that value |
| ApiObject.ReadFieldDatetime | eventline/api_object.py:109-119 | a present string is stored as the parsed instant; a string the parser rejects raises "is not a valid datetime" with the string |
| ApiObject.ReadFieldObject | eventline/api_object.py:165-169 | a present object is stored as its decoded nested object, or the nested decoding's error is raised |
| ApiObject.ReadFieldObjectArray | eventline/api_object.py:183-197 | a present array is stored as its element-wise decoding, or the first element error is raised |
| ApiObject.StepWritesTarget | eventline/api_object.py:96-98 | a successful read sets its `attr` (or its key, when `attr` is None) and leaves every other attribute as it was. A failing read changes nothing |
| ApiObject.RunFromFailsAt | eventline/account.py:26-36 | when the reads before i succeed and read i raises, the sequence raises read i's error (first failure wins) |
| ApiObject.RunFromSucceedsIff | eventline/account.py:26-36 | a sequence succeeds exactly when each of its reads succeeds on the data |
| ApiObject.RunFromFailsIfAny | eventline/account.py:26-36 | any failing read makes the sequence fail |
| ApiObject.RunFromReportsFailure | eventline/account.py:26-36 | a failing read i makes the sequence fail, and it is read i's error whenever the earlier reads succeed |
| ApiObject.RunFromMissingRequired | eventline/api_object.py:68-71 | an absent required key fails the sequence. It is the "missing field" error that is reported whenever the earlier reads succeed |
| ApiObject.RunFromKeys | eventline/account.py:26-36 | a successful sequence keeps the existing attributes, adds every read's target, and adds nothing else |
| ApiObject.RunFromWrites | eventline/account.py:26-36 | when the targets are distinct, each target holds its read's value after a successful sequence, and attributes no read targets are unchanged |
| ApiObject.RunFromValueAt | eventline/account.py:26-36 | after a successful sequence with distinct targets, read i succeeded and its value is stored under its target |
| ApiObject.RunFromRequiredPresent | eventline/api_object.py:68-71 | after a successful sequence, every required read's key was present |
| ApiObject.RunFromRequiredScalar | eventline/api_object.py:84-98 | after a successful sequence with distinct targets, a required scalar field is present and stored as decoded |
| ApiObject.RunFromAbsentOptional | eventline/api_object.py:72 | after a successful sequence with distinct targets, an absent optional field holds the reader's default |
| ApiObject.RunFromOptionalScalar | eventline/api_object.py:72 | after a successful sequence with distinct targets, an optional scalar holds the value or the default, with null as None |
| ApiObject.RunFromKeysExact | eventline/account.py:26-36 | a fresh object that decodes has exactly the targets of its reads as attributes |
| ApiObject.ReadableObject.constructor | eventline/api_object.py:36-37 | a new object has the given object name and no attributes |
| ApiObject.ReadableObject.Repr | eventline/api_object.py:42-49 | the text starts with "<eventline." and the object name and ends with ">". It is exactly that when there is no non-None `id_`; otherwise " " and the id are in between |
| ApiObject.ReadableObject.BuildRepr | eventline/api_object.py:42-49 | building the text piece by piece gives `Repr` |
| ApiObject.ReadableObject.ToString | eventline/api_object.py:39-40 | `str()` of an object is its representation |
| ApiObject.ReadableObject.ReadString | eventline/api_object.py:84-98 | `_read_string` leaves exactly the attributes and the error of `Step` on a string field |
| ApiObject.ReadableObject.ReadDatetime | eventline/api_object.py:100-122 | `_read_datetime` leaves exactly the attributes and the error of `Step` on a datetime field |
| ApiObject.ReadableObject.ReadInteger | eventline/api_object.py:124-138 | `_read_integer`, with its default False, leaves exactly the attributes and the error of `Step` on an integer field |
| ApiObject.ReadableObject.ReadBoolean | eventline/api_object.py:140-154 | `_read_boolean` leaves exactly the attributes and the error of `Step` on a boolean field |
| ApiObject.ReadableObject.ReadObject | eventline/api_object.py:156-172 | `_read_object` leaves exactly the attributes and the error of `Step` on an object field |
| ApiObject.ReadableObject.ReadObjectArray | eventline/api_object.py:174-200 | the element loop of `_read_object_array` leaves exactly the attributes and the error of `Step` on an array field, which means `DecodeFrom` on the elements |
| Text.NatToString | eventline/api_object.py:192 | an element index renders as a non-empty string of decimal digits with no leading zero |
| Text.ParseNatToString | eventline/api_object.py:192 | reading the rendered index back gives the index |
| Text.NatToStringInjective | eventline/api_object.py:192 | distinct indices render differently, so the error message identifies the element |
| Text.IntToString | eventline/client.py:45 | a status renders as its digits, with "-" in front when it is negative |
| Json.Show | eventline/client.py:47 | a string error message prints as itself, and an integer one in decimal |
| Account.DecodeAccountSettings | eventline/account.py:45-46 | account settings decode iff `date_format` is absent, null or a string. They hold that value (None when absent or null); otherwise the error says it is not a string |
| Account.NewAccount | eventline/account.py:23-24 | a new account is named "account" and has no attributes |
| Account.NewAccountSettings | eventline/account.py:42-43 | new settings are named "account_settings" and have no attributes |
| Account.ReadAccountSettings | eventline/account.py:45-46 | `AccountSettings.read_data` leaves what its read sequence gives |
| Account.ReadAccount | eventline/account.py:26-36 | `Account.read_data` leaves the attributes and the error of its ten ordered reads. The decoder of the `settings` object is a parameter: `BaseHook("account_settings")` gives the code as written, and `DecodeAccountSettings` gives the corrected program of "## Findings" |
| Account.AccountMissingRequired | eventline/account.py:26-36 | a missing id, org_id, creation_time, email_address, role or settings fails the decoding, and that key is reported when the earlier reads succeed |
| Account.AccountSettingsNotObject | eventline/account.py:36 | a present, non-null `settings` that is not an object fails the decoding with "is not an object" |
| Account.AccountTargets | eventline/account.py:27-36 | the reads write exactly the ten attributes, `id` as `id_` |
| Account.AccountAttributeNames | eventline/account.py:27-36 | a decoded account is named "account" and has exactly those ten attributes |
| Account.AccountRequiredPresent | eventline/account.py:27-36 | every account that decodes has all six required keys |
| Account.AccountRequiredValues | eventline/account.py:27-33 | id (as `id_`), org_id, email_address and role are stored as they were decoded |
| Account.AccountDefaults | eventline/account.py:30-35 | an absent `disabled` is False, and an absent name, last_login_time or last_project_id is None |
| Account.AccountSettingsDecoded | eventline/account.py:36 | settings are None for a present null; otherwise the object, decoded as `AccountSettings` |
| Account.SettingsIgnoredAsWritten | eventline/api_object.py:169 | as written, settings `{"date_format": 7}` are accepted as an empty `AccountSettings`, while decoding them as `AccountSettings` raises "is not a string" |
| Account.ExampleAccountDecodes | eventline/account.py:26-36 | a document with id, org_id, creation_time, email_address, role and empty settings decodes once its timestamp parses |
| Account.ExampleAccountValues | eventline/account.py:26-36 | that document gives `id_` "abc", `disabled` False and `name` None. Under the corrected program of "## Findings", its settings have `date_format` None |
| Account.ExampleAccountAsWritten | eventline/api_object.py:165-169 | as written, the same document decodes, and its settings are an `AccountSettings` with no attributes |
| Organization.NewOrganization | eventline/organization.py:23-24 | a new organization is named "organization" and has no attributes |
| Organization.ReadOrganization | eventline/organization.py:26-37 | `Organization.read_data` leaves the attributes and the error of its eleven ordered reads |
| Organization.OrganizationMissingRequired | eventline/organization.py:27-35 | a missing required key fails the decoding, and that key is reported when the earlier reads succeed |
| Organization.OrganizationFirstMissingReported | eventline/organization.py:27-31 | with a valid id, lacking both name and city reports name, the earlier read |
| Organization.OrganizationDisabledNotBoolean | eventline/organization.py:34 | a non-null, non-boolean `disabled` fails with "is not a boolean" |
| Organization.OrganizationBadCreationTime | eventline/organization.py:33 | a creation time the parser rejects fails with "is not a valid datetime" |
| Organization.OrganizationTargets | eventline/organization.py:27-37 | the reads write exactly the eleven attributes, `id` as `id_` |
| Organization.OrganizationAttributeNames | eventline/organization.py:27-37 | a decoded organization is named "organization" and has exactly those attributes |
| Organization.OrganizationRequiredPresent | eventline/organization.py:27-35 | every organization that decodes has all eight required keys |
| Organization.OrganizationIdentityValues | eventline/organization.py:27-35 | id (as `id_`), name and contact_email_address are stored as they were decoded |
| Organization.OrganizationAddressValues | eventline/organization.py:29-32 | address, postal_code, city and country are stored as they were decoded |
| Organization.OrganizationCreationTime | eventline/organization.py:33 | the creation time is None for a present null; otherwise it is a string the parser accepted, stored as the parsed instant |
| Organization.OrganizationDefaults | eventline/organization.py:34-37 | an absent `disabled` or `non_essential_mail_opt_in` is False, and an absent `vat_id_number` is None |
| Pagination.ReadCursor | eventline/pagination.py:27-32 | `Cursor.read_data` leaves what its five optional reads give |
| Pagination.NewCursor | eventline/pagination.py:23-25 | a new cursor is named "cursor" and is the result of reading the data into a fresh object |
| Pagination.ReadPage | eventline/pagination.py:43-46 | `Page.read_data` leaves what its three reads give. The element decoder and the cursor decoder are parameters: `BaseHook("cursor")` is what the empty `_read_data` hook leaves on a cursor constructed without data, and `DecodeCursor` is the corrected program |
| Pagination.NewPage | eventline/pagination.py:38-41 | a new page is named "page" and is the result of reading the data into a fresh object, with the given element and cursor decoders |
| Pagination.CursorDecodesIff | eventline/pagination.py:27-32 | a cursor decodes exactly when each of its five fields is absent, null or of its type |
| Pagination.CursorKeys | eventline/pagination.py:27-32 | a decoded cursor has exactly before, after, size, sort and order |
| Pagination.CursorValues | eventline/pagination.py:27-32 | each cursor field holds its value, with None for absent or null, and an absent size is False |
| Pagination.EmptyCursor | eventline/pagination.py:27-32 | an empty object gives None bounds, sort and order, and size False |
| Pagination.PageMissingElements | eventline/pagination.py:44 | a page without `elements` raises "missing field 'elements'" |
| Pagination.PageElementNotObject | eventline/pagination.py:44 | the first non-object element rejects the page, naming its index |
| Pagination.PageElements | eventline/pagination.py:44 | the elements of a decoded page are None for null, otherwise one decoded element per JSON element, in order |
| Pagination.PageLink | eventline/pagination.py:45-46 | `previous` and `next` are None when absent or null; otherwise the decoded cursor of an object |
| Pagination.PageLinkNotObject | eventline/pagination.py:45-46 | a present non-null link that is not an object raises "is not an object" once the reads before it succeed |
| Client.ResolvePrefersGiven | eventline/client.py:73-75 | a given value is used, and the environment's only when none is given |
| Client.JoinPath | eventline/client.py:125-128 | the route ends the path. What precedes it, plus "/", is the endpoint path iff that path ends with "/"; otherwise it is the endpoint path |
| Client.JoinPathOneSlash | eventline/client.py:126-127 | one trailing slash is dropped, but only one |
| Client.Unsplit | eventline/client.py:131-132 | the URI ends with the path, and it is scheme "://" netloc path when both are set and the path is rooted |
| Client.ErrorText | eventline/client.py:45-47 | the message starts with "METHOD URI: request failed with status N", and ": MESSAGE" follows exactly when the message is not None |
| Client.StatusBoundaries | eventline/client.py:104 | 199 and 300 are errors; 200 and 299 are successes |
| Client.Classify | eventline/client.py:98-120 | a 2xx response is returned iff one came back. A failed call raises a ClientError with its cause. An APIError carries the method, URI and status. A non-JSON body gives reason and None. A JSON body that is not a dict with error and code escapes |
| Client.ErrorBodyExtracted | eventline/client.py:105-119 | an error body with error and code gives the APIError that message and that code |
| Client.NotFoundExample | eventline/client.py:105-119 | a 404 with a not-found body raises an APIError with that message and code |
| Client.Client.constructor | eventline/client.py:63-75 | the client keeps the endpoint and its components, and uses the environment's API key only when none is given |
| Client.Client.BuildUri | eventline/client.py:122-132 | the URI ends with the route. When the endpoint has a scheme and an address and the joined path is rooted or empty, the URI is scheme://address followed by the joined path; the endpoint's params, query and fragment are dropped |
| Client.Client.SendRequest | eventline/client.py:77-120 | the request has the method, the built URI and the body. Its only headers are "Authorization: Bearer KEY", iff there is a key, and the project header, iff a project id is given or found in the environment. Its outcome is `Classify` |
| Client.DefaultEndpointExample | eventline/client.py:122-132 | with the default endpoint's components, "/account" maps to https://api.eventline.net/v0/account |

## Left out

- The network call `requests.request`, with its timeout: its outcome is a parameter of `SendRequest`, and the timeout float is not modelled.
- `ClientError(ex)` wraps the network exception; the model keeps only a cause string standing for `str(ex)`.
- `urllib.parse.urlparse` of the endpoint: its components are a constructor parameter.
- `urlunparse` is modelled after CPython 3.10's `urlunsplit`, including its `uses_netloc` list, with an empty query and fragment; the `params` component is always empty here. Later releases differ for an endpoint without an address: from 3.12.4, `("https", "", "x")` gives `https:x` where the model gives `https:///x`. Their `uses_netloc` list also differs.
- The environment lookups `eventline.environment.api_key()` and `project_id()` are optional-string parameters.
- Logging is not modelled.
- `api_client.py` and the route wrappers are not part of this model.
- Instants from `dateutil.parser.isoparse` are opaque: the parser is a function parameter and its grammar is not modelled.
- ApiObject.ShowAttr: `str()` of a datetime, list or nested object as an `id_` is not modelled. It gives the empty string; strings, integers, booleans and None print as Python prints them, and floats as described for `Json.Show`.
- Json.Show: Python prints a float as `repr(float)`, which can differ from its JSON literal (`1e2` prints as `100.0`, `1.50` as `1.5`); the model prints the literal text instead. Lists and dicts print as the empty string, where Python prints their `repr`.
- Account.DecodeAccount and Pagination.DecodePage: these decode nested objects by the corrected program of "## Findings", with the settings decoded as `AccountSettings` and the cursors as `Cursor`. Every lemma about `DecodeAccount` and `DecodePage` describes that corrected program. The code as written is `DecodeAccountAsWritten`, or `ReadAccount`/`ReadPage` given `BaseHook`.
- Nested objects are stored as value snapshots (`Record`), so aliasing between Python objects is not modelled.
- `Page.element_class_type`: the attribute is not stored; the element decoder is a parameter of the page's reads.
- Python's `TypeError` from the mismatched constructor and reader arguments in `pagination.py` is not modelled; the evident schema is modelled instead.
- Pagination.ReadPage: as written, a present, non-null `previous` or `next` makes `_read_object` call `Cursor()` without its `data` argument, which raises `TypeError`; this is not modelled, and the link decoder stands for the cursor's decoding instead.
- Exceptions other than the ones the sources raise, such as a decoder failing for reasons other than `InvalidObjectError`, are not modelled.

## Findings

| source | as written | input that shows it | evidently intended | confidence | as-written member | corrected member |
|---|---|---|---|---|---|---|
| eventline/api_object.py:169 | `_read_object` and `_read_object_array` call `_read_data`, the base hook that does nothing, instead of the schema's `read_data` | an account whose `settings` is `{"date_format": 7}` is accepted with empty settings | a nested object is decoded by its own class's `read_data`, so the bad `date_format` is rejected | not executed | Account.SettingsIgnoredAsWritten | Account.AccountSettingsDecoded |

# Notification worker model

This project is a Dafny model of the request handling in a Cloudflare Worker that stores
notifications in a KV namespace (`src/index.js`). It covers:

- **The create pipeline (`createNotifications`).** A request body that is not an array becomes
  a batch of one, and an empty array is refused. Each element is then checked:
  - it must be an object;
  - it must have a `content` object holding a string `text`.

  `type` and `read` are coerced in place. An element with a key outside `type`, `content` and
  `read` is refused. Every element that passes becomes a canonical record holding `id`, `type`,
  `content.text`, `timestamp` and `read`. Only a fully valid batch is appended to the list stored
  under the single KV key `"notifications"`.
- **Listing and deleting (`retrieveNotifications`, `deleteAllNotifications`).** An absent key
  lists as `[]`. Delete-all removes the key.
- **The entry point (`fetch`).** `OPTIONS` is answered first for any URL. Then comes a chain of
  five (method, URL suffix) routes, and finally a 404 fallback. `manageCORSForRequests` adds
  three CORS headers to every routed response.

Modules:

- `Wrappers` (`wrappers.dfy`): `Option` and `Result`.
- `JsValues` (`js_values.dfy`): parsed JSON values, with objects as ordered property lists. Also
  property lookup, property assignment (an existing key keeps its place, a new key goes last),
  and the order Object.keys lists keys in. That order is array-index keys first, in ascending
  numeric order, then the other keys in creation order, as in section 10.1.11.1 of ECMA-262
  (OrdinaryOwnPropertyKeys).
- `Notifications` (`notifications.dfy`): batch shaping, per-element validation and coercion, the
  error messages and the canonical record.
- `Http` (`http.dfy`): a response as status, body and headers.
- `Store` (`store.dfy`): the class `NotificationStore`. Its field `entry` is the value under
  `"notifications"`, and it has the three handlers as methods. It also holds the value-level
  functions and lemmas about a create (all-or-nothing append, unique ids).
- `Router` (`router.dfy`): the dispatch chain, the route table it agrees with, CORS decoration
  and `Fetch`.

Inputs the worker gets from its environment are parameters:

- `uuidv4()` and `Date.now()` are the functions `ids` and `clock`. The i-th element of a batch
  gets `ids(i)` and `clock(i)`. That the ids are fresh is an assumption in the lemma about
  unique ids, not something proved.
- The responses of the preferences and classifier handlers are parameters of `Fetch`.

Three consequences of the code are worth stating:

- `typeof notif === 'object'` holds for arrays. An array element therefore passes the object
  check and fails with the content message ("Notification content must include ...").
- The `OPTIONS` response is built with no status, so its status is the Response default, 200.
- The 404 fallback carries no CORS headers. Only the preflight response and routed responses
  have them.

## Model

| member | source | states |
|---|---|---|
| JsValues.GetAfterSet | src/index.js:60-62 | After `obj[key] = v`, reading `key` gives `v` and every other key reads as before |
| JsValues.KeysAfterSet | src/index.js:60-62 | Assignment keeps the key list when the key exists, and appends the key otherwise |
| JsValues.SortByValue | src/index.js:65 | The array-index keys are listed as a permutation of themselves, in ascending numeric order |
| JsValues.KeyOrderMembers | src/index.js:65 | Object.keys lists exactly the object's own keys |
| JsValues.KeyOrderShape | src/index.js:65 | Object.keys gives an ascending prefix of array-index keys, then the other keys in creation order |
| JsValues.KeyOrderSnoc | src/index.js:65 | A new key that is not an array index goes last in Object.keys |
| JsValues.OwnKeysAfterSet | src/index.js:60-65 | Assigning a non-index key leaves Object.keys unchanged, or appends the key when it is new |
| JsValues.KeyOrderWithoutIndices | src/index.js:65 | An object with no array-index key lists its keys in creation order |
| Notifications.ParseKind | src/index.js:59 | Reports a kind only for the exact strings "alert", "info", "success", and names which one matched; any other value, including absent or non-string, gives None |
| Notifications.NormalisedKind | src/index.js:59-61 | The record's type is the input type when it names a kind, and Info otherwise |
| Notifications.ReadValue | src/index.js:62 | The read flag is the input's boolean, and false for anything that is not a boolean |
| Notifications.ContentText | src/index.js:56-57 | A text is found exactly when the element is a plain object whose `content` property holds a string `text`, and it is that string |
| Notifications.ContentSubfieldsDropped | src/index.js:56-79 | A content object with a string text is accepted whatever other subfields it has; the record keeps only the text, with type Info and read false |
| Notifications.RecordOfToJson | src/index.js:71-79 | A record's JSON object reads back (id, type, content.text, timestamp, read) as the same record |
| Notifications.ToJsonIsRecordJson | src/index.js:71-79 | A record's JSON object has exactly the keys id, type, content, timestamp, read in that order, a content holding only the text, and reads back as the record |
| Notifications.RecordsJson | src/index.js:87 | The JSON array has one element per record, and element i is exactly the object of record i: those five keys in order, content holding only the text, reading back as record i |
| Notifications.JoinSnoc | src/index.js:67 | Joining one key gives the key; each further key is added after the ", " separator |
| Notifications.MessageHead | src/index.js:49-67 | The four thrown messages are told apart by their first character and length |
| Notifications.MessageIdentifiesError | src/index.js:91-93 | Equal 400 bodies mean the same kind of error; the three fixed messages identify their error exactly |
| Notifications.UnexpectedMembers | src/index.js:64-65 | The filter keeps exactly the keys outside {type, content, read} |
| Notifications.InputUnexpectedExactly | src/index.js:64-65 | A key is reported as unexpected iff the element as sent has it and it is not an allowed field |
| Notifications.CoercionKeepsUnexpected | src/index.js:59-65 | Assigning `type` or `read` never changes the unexpected-field list |
| Notifications.CoerceValues | src/index.js:59-62 | After coercion, `type` names the input's kind or "info", and `read` is the input's boolean or false |
| Notifications.CoerceKeepsUnexpected | src/index.js:59-65 | The coerced object has the same unexpected fields, in the same order, as the element as sent |
| Notifications.ValidateOneErrors | src/index.js:52-68 | The object check comes first, then the content check, then the unexpected fields of the element as sent; only the last of these depends on the coercion, and it reports exactly those keys |
| Notifications.ValidateOneRecord | src/index.js:71-79 | An accepted element's record has the supplied id and timestamp, the normalised type, `content.text` copied, and the normalised read flag |
| Notifications.RecordOwnKeys | src/index.js:71-79 | A record lists exactly id, type, content, timestamp, read, in that order |
| Notifications.RecordJsonFields | src/index.js:71-79 | A record's content holds its text; of its keys, id and timestamp are not accepted input fields |
| Notifications.ResubmittedRecordRejected | src/index.js:64-68 | A stored record sent back as input is refused with "Unexpected field(s): id, timestamp" |
| Notifications.InputOfFields | src/index.js:56-65 | The input form of a record passes the shape checks and has no unexpected field |
| Notifications.RecordInputAccepted | src/index.js:52-79 | Normalisation is idempotent: a record's own type, content and read give back the same record under the new id and timestamp |
| Notifications.MapUntilError | src/index.js:52-80 | The map succeeds iff every element's callback does, with one result per element in order |
| Notifications.FirstErrorReported | src/index.js:52-80 | A failed map reports the error of its first failing element |
| Notifications.EmptyBatchOnlyForEmptyArray | src/index.js:47-50 | The empty-batch error arises exactly for an empty array body |
| Notifications.SingleObjectBatch | src/index.js:47 | A non-array body is validated as a batch of one |
| Notifications.BatchRecords | src/index.js:52-80 | A valid batch yields one record per element, in order, each that element's own record |
| Notifications.BatchFirstError | src/index.js:52-80 | A refused non-empty batch reports its first failing element's error; every element before it was valid |
| Store.CreateResponse | src/index.js:87-93 | Status 201 with a JSON array of exactly the new records' objects, in order (five keys each, content holding only the text); or status 400 with the thrown message as text |
| Store.ListResponse | src/index.js:101-102 | Status 200 with a JSON array of exactly the stored records' objects, in order (five keys each, content holding only the text) |
| Store.NotificationStore.CreateNotifications | src/index.js:43-94 | The response is the batch's response; the entry becomes the old list (absent read as empty) followed by the records, or stays as it was on any error |
| Store.NotificationStore.RetrieveNotifications | src/index.js:100-103 | Lists the stored records; an absent key lists as an empty array |
| Store.NotificationStore.DeleteAllNotifications | src/index.js:106-109 | Removes the key and answers 200 with the success message |
| Store.DeleteThenRetrieve | src/index.js:101-107 | A list after a delete-all is an empty array |
| Store.FailedCreateKeepsEntry | src/index.js:52-93 | An invalid batch leaves the entry exactly as it was and answers 400 |
| Store.CreateAppends | src/index.js:82-90 | A valid batch keeps the old records in place and appends as many records as elements; the response lists exactly the appended ones |
| Store.BatchStamps | src/index.js:71-79 | Record i of a valid batch carries ids(i) and clock(i) |
| Store.AppendKeepsIdsDistinct | src/index.js:82-85 | Appending records with distinct ids, none of them already stored, keeps ids unique |
| Store.CreateKeepsIdsDistinct | src/index.js:72-85 | With fresh, pairwise distinct uuids, the stored ids stay unique after a create |
| Store.BatchTimestampsOrdered | src/index.js:77 | With a clock that never goes back, a batch's timestamps follow element order |
| Router.Dispatch | src/index.js:15-36 | Preflight is chosen iff the method is OPTIONS, for any URL |
| Router.DispatchFollowsTable | src/index.js:25-36 | The chain picks the first route whose method matches and whose suffix ends the URL, or the 404 fallback iff no route matches |
| Router.NotBothSuffixes | src/index.js:25-33 | A string cannot end with two suffixes unless the shorter ends the longer |
| Router.SuffixesExclusive | src/index.js:25-33 | No URL ends with two of the three route suffixes |
| Router.RoutesUnambiguous | src/index.js:25-35 | No request matches two routes, so the chain's order does not matter |
| Router.QueryBlocksSuffix | src/index.js:25-33 | A URL with a `?` and a query without `/` ends with no suffix that has a `/` and no `?` |
| Router.QueryStringDefeatsRoute | src/index.js:25-36 | A URL whose query string holds no `/` reaches no handler: the answer is the preflight or the 404 |
| Router.EndsWithAppend | src/index.js:25-33 | A string that ends with a suffix still ends with it after anything is put in front |
| Router.QueryEndingInSuffixRoutes | src/index.js:25-30 | A query string that itself ends in `/api/notifications` reaches the notification handlers, whatever the path |
| Router.AnyPrefixRoutes | src/index.js:25-30 | Any leading text before `/api/notifications` still reaches the notification handlers |
| Router.WithCors | src/index.js:4-9 | Sets the three CORS headers, replacing earlier values; status, body and every other header are kept |
| Router.WithCorsIdempotent | src/index.js:4-9 | Decorating a response twice is the same as decorating it once |
| Router.Fetch | src/index.js:13-37 | Each handler's response is CORS-decorated, except the preflight and the 404. Only create and delete-all change the store, each as its handler states |

## Left out

- `uuidv4()` and `Date.now()` are not modelled. They are the parameters `ids` and `clock`, and
  id freshness is a precondition of `Store.CreateKeepsIdsDistinct`.
- Parsing of the request body (`request.json()`) is not modelled; the body is a parsed value.
  A body that is not valid JSON gets a 400 with the parser's message, which is also left out.
  The same goes for the `|| "Invalid request body"` fallback: every message thrown in the model
  is non-empty.
- The KV value's JSON text (`JSON.parse` / `JSON.stringify`) is not modelled. The entry holds
  the record list directly, and a value written under the key by another program is not
  considered.
- The KV calls are taken as sequential steps. Their asynchrony, the lost-update race between two
  concurrent creates, and KV faults are not modelled. A fault inside create would be caught and
  answered with 400.
- JSON numbers are integers, since the worker only asks for their `typeof`.
- A JSON object with a repeated key is not modelled, since JSON.parse keeps only the last.
- Header names are kept in lower case, since the Headers class ignores case. The
  `text/plain;charset=UTF-8` content type that a string body gets implicitly is not modelled.
- `setPreferencesCookie` (`src/index.js:113-126`) is left out: it is a constant payload plus a
  cookie string built with `encodeURIComponent`. Its response is a parameter of `Fetch`.
- `classifyNotification` (`src/index.js:129-137`) is left out: it forwards the text to Workers
  AI and returns the answer unchecked. Its response is a parameter of `Fetch`.
- `console.log` is left out.

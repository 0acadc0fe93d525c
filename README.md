# Photo-shoot app: history store and API route handlers in Dafny

This project models the logic of a small web front end. The app uploads a
photo, asks an n8n webhook for AI-generated "photoshoot" images, and keeps a
history of past generations in the browser. Three parts are modelled:

- **The history store** (`lib/storage.ts`, file `storage.dfy`). It keeps a
  newest-first list of at most 50 `PhotoShoot` records under one
  local-storage key. Class `Storage.HistoryStore` has a mutable `slot` field
  for that local-storage entry. Its `hasWindow` constant is false when there
  is no browser window. Its methods are `List`, `GetById`, `Save`, `Delete`
  and `Clear`. The pure list steps (`slice(0, 50)`, `filter`, `find`) are
  the functions `Trim`, `WithoutId` and `FirstWithId`. The slot does not hold
  JSON text. It holds what parsing that text gives: `Missing`, `Blank` (an
  empty string), `Unparsable`, `NonArray` (valid JSON that is not an array)
  or `Shoots(entries)`.
- **The generate route** (`app/api/generate/route.ts`, file `generate.dfy`).
  `GenerateRoute.Post` is a function of the parsed request body, the
  `N8N_WEBHOOK_URL` setting and the webhook's reply. It returns an
  `Exchange`: the webhook call it made (if any), with its payload, and the
  response (status and body).
- **The upload route** (`app/api/upload/route.ts`, file `upload.dfy`).
  `UploadRoute.Post` is a function of the form's `file` entry, the
  `FAL_API_KEY` setting and the replies to the initiate and PUT requests.
  It returns the calls made and the response.

`web.dfy` holds the JavaScript behaviour the handlers rely on:

- truthiness of optional strings;
- `x || ""`;
- the message that a `catch` block extracts from a thrown value;
- `trim() === ""` over ECMAScript whitespace and line terminators;
- `substring(0, n)`;
- decimal rendering of a status code in a template literal, with its
  inverse;
- fetch's `ok` (a status from 200 to 299).

Any step that can throw is an input of type `Outcome<T>`: either
`Returned(value)` or `Threw(thrown)`. A `Threw` input takes the handler's
outer `catch` path.

A few behaviours of the code are worth stating plainly:

- The "empty response" error of the generate route also covers a body of
  only whitespace (`app/api/generate/route.ts:57`).
- The upload route has no fallback path. A failed initiate is a 500
  (`app/api/upload/route.ts:36-43`).
- Save does not check the fresh id against the stored ones.
  `SaveKeepsIdsUnique` proves that ids stay unique only when the caller's
  fresh id is new.
- The writes to local storage (`setItem`, `removeItem`) are outside any
  `try`. A write that throws (a full or blocked storage) propagates out of
  save, delete or clear, and the entry stays as it was. The error such a
  write would throw is a parameter of `Save`, `Delete` and `Clear`.

## Model

| member | source | states |
|---|---|---|
| Storage.Trim | lib/storage.ts:35 | the kept list is a prefix of the input, of length min(n, 50) |
| Storage.ReadHistory | lib/storage.ts:44-56 | with no window, or an entry that is not a parsed array, the history read is empty |
| Storage.WithoutId | lib/storage.ts:65 | an entry survives exactly when it was present and its id differs; length never grows; an absent id leaves the list unchanged |
| Storage.FindIndex | lib/storage.ts:60 | the index `find` stops at: no earlier entry has the id, and the entry there has it, or the index is the length |
| Storage.FirstWithId | lib/storage.ts:58-61 | the result is the first entry carrying the id; the result is null exactly when no entry has the id |
| Storage.HistoryStore.List | lib/storage.ts:44-56 | returns the stored array; returns [] with no window and for a missing, empty, unparsable or non-array entry; never throws |
| Storage.HistoryStore.GetById | lib/storage.ts:58-61 | returns the first listed shoot with the id, or None exactly when no listed shoot has it |
| Storage.HistoryStore.Save | lib/storage.ts:23-42 | the write throws exactly when there is a window and a write error, and then the entry is unchanged; otherwise the returned record is the input plus the given id and createdAt; with a window, the entry becomes that record followed by the first min(n, 49) old entries in order, so its length is min(n + 1, 50); with no window, storage is unchanged |
| Storage.HistoryStore.Delete | lib/storage.ts:63-70 | the write throws exactly when there is a window and a write error, leaving the entry unchanged; otherwise, with a window, the entry becomes the listed shoots whose id differs, in order; with no window, storage is unchanged |
| Storage.HistoryStore.Clear | lib/storage.ts:72-76 | the removal throws exactly when there is a window and a write error, leaving the entry unchanged; otherwise, with a window, the entry is removed, and list is empty afterwards in both modes |
| Storage.SavedHistoryShape | lib/storage.ts:32-35 | after a prepend and trim: the new shoot is first, the length is min(n + 1, 50), and the rest is the old list's first min(n, 49) entries |
| Storage.TrimAbsorbs | lib/storage.ts:32-35 | trimming the old list before prepending and trimming gives the same list as not trimming it first |
| Storage.AfterSavesNewestFirst | lib/storage.ts:23-42 | a run of saves leaves the 50 newest entries of (saved shoots, newest first) followed by the old history |
| Storage.FiftyOneSaves | lib/storage.ts:32-35 | 51 distinct saves onto an empty history keep 50 shoots, the last 50 saved, newest first; the first shoot saved is dropped |
| Storage.WithoutIdConcat | lib/storage.ts:65 | deleting from a concatenation deletes from each part, so relative order is kept |
| Storage.WithoutIdSubsequence | lib/storage.ts:65 | what delete leaves is a subsequence of the old list |
| Storage.WithoutIdIdempotent | lib/storage.ts:63-70 | deleting the same id twice is the same as deleting it once |
| Storage.DeleteThenGet | lib/storage.ts:58-70 | a client of the store: once delete-by-id has returned, get-by-id of that id finds nothing; a delete that threw leaves the entry as it was |
| Storage.SaveKeepsIdsUnique | lib/storage.ts:23-35 | if stored ids are unique and the fresh id is new, they stay unique after save |
| Storage.DeleteKeepsIdsUnique | lib/storage.ts:63-69 | delete keeps ids unique; with unique ids it removes exactly one entry when the id is present, and none otherwise |
| Storage.ClearThenList | lib/storage.ts:72-76 | a client of the store: once clear has returned, list is empty |
| StorageAsWritten.ReadAsWritten | lib/storage.ts:44-56 | as written, the read gives a non-array value exactly for a non-array entry with a window |
| StorageAsWritten.NullEntryBreaksStore | lib/storage.ts:52 | for the entry text `null`, get, save and delete throw a TypeError as written; the corrected store reads it as empty |
| StorageAsWritten.AsWrittenAgreesElsewhere | lib/storage.ts:44-70 | for every other entry, read, get, save and delete as written agree with the corrected store |
| Web.Substring | app/api/generate/route.ts:69 | `substring(0, n)` is a prefix of length min(length, n) |
| Web.Decimal | app/api/generate/route.ts:51 | a status renders as at least one decimal digit with no leading zero |
| Web.DecimalRoundTrip | app/api/generate/route.ts:51 | the rendered digits parse back to the status |
| GenerateRoute.ClassifyReply | app/api/generate/route.ts:45-72 | status 200 with the parsed body passed through exactly when the reply is ok, non-blank and parses; otherwise 500 with, in order of checks: the caught error, the status and full text, the empty-response error, or the first 200 characters |
| GenerateRoute.Post | app/api/generate/route.ts:3-81 | missing image URL gives 400 "Image URL is required" before the location check; missing location gives 400 "Location is required"; no webhook URL gives 500 "N8N_WEBHOOK_URL not configured"; the webhook is called exactly when all three are present, with image_url and location unchanged and custom_prompt or ""; status is 400 exactly for the two field errors; status is 200 exactly for a usable reply |
| GenerateRoute.FailureErrorNamesStatus | app/api/generate/route.ts:49-54 | the status and the full body text can be read back out of the non-ok error message |
| GenerateRoute.ImageCheckedFirst | app/api/generate/route.ts:8-20 | a body with neither field gets the image URL error |
| UploadRoute.Transfer | app/api/upload/route.ts:20-74 | initiate is sent with header "Key " + key; a PUT to upload_url is made exactly when initiate is ok, parses and has both URLs; 200 with {url: file_url} exactly when both steps are ok; otherwise 500 with the initiate or PUT status and text, the invalid-data error, or the caught error |
| UploadRoute.Post | app/api/upload/route.ts:3-83 | a missing file gives 400 "No file provided" before the key check; no key gives 500 "FAL_API_KEY not configured on server" with no upstream call; 400 occurs exactly for a missing file; 200 occurs exactly when both upstream steps succeed |
| UploadRoute.CaughtErrorsArePrefixed | app/api/upload/route.ts:75-82 | every thrown error reaching the outer catch becomes 500 with an error starting "Upload failed: " |

## Findings

| source | as written | input that shows it | evidently intended | confidence | as-written member | corrected member |
|---|---|---|---|---|---|---|
| lib/storage.ts:52 | the parsed entry is returned as a PhotoShoot array without checking that it is one | the entry holds the text `null` (or any non-array JSON, written by other code): get, save and delete throw a TypeError from `find`, `unshift` or `filter` | unreadable data reads as an empty history and no operation throws | medium, not executed | StorageAsWritten.NullEntryBreaksStore | Storage.HistoryStore.List |

The rest of the model uses the corrected reading, `Storage.ReadHistory`.

## Left out

- `generateId` and `new Date().toISOString()` are not modelled. The fresh id and the timestamp are parameters of `Save`. Id uniqueness rests on a clock and a random number, so it cannot be proved from the code.
- JSON text is not modelled. The slot holds the outcome of parsing it. Webhook and initiate replies carry their parse result, and `JSON.stringify(initData)` is given as a string. Array elements that are not records (such as `[null]`, where `find` would throw) are not modelled.
- Network I/O (`fetch`), `request.json()`, `request.formData()`, `file.arrayBuffer()`, `process.env` and `console.log` are foreign calls. Their results are inputs. `UploadRoute.Transfer` records the PUT as made even when reading the file's bytes threw before it.
- Request fields are optional strings. JSON numbers, booleans and objects in `image_url`, `location` or `custom_prompt` are not modelled. For the values that are modelled (absent, null or a string), `custom_prompt || ""` and `custom_prompt ?? ""` agree; they differ only for non-string falsy values such as `0` or `false`. A form `file` entry holding text instead of a file is not modelled either.
- `Web.Substring` works on Dafny characters, not UTF-16 code units. A body containing characters outside the Basic Multilingual Plane may be cut at a different point than JavaScript cuts it.
- Concurrent writers to local storage (last write wins between tabs) are not modelled. The model is sequential.
- React pages and components, `lib/locations.ts` (static data) and the gallery's date formatting are outside this model.

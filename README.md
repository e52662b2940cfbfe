# Profile publishing: upload handles, deletion and URL shortening

This project models how the profiler front end publishes a captured profile to
the profiler server, and proves properties of that model.

- **Upload handles** (`src/profile-logic/profile-store.js`). An upload handle is
  a pair of closures, `abortUpload` and `startUpload`, over a mutable
  `isAborted` flag and one XMLHttpRequest.
  - The *Direct* handle POSTs the profile bytes to `{origin}/compressed-store`.
  - The *Indirect* handle first GETs `{origin}/compressed-store-url`, reads
    `jwt` and `url` from the JSON answer, then PUTs the bytes to `url`.
  - Both install the same listeners (`configureXhrForUpload`). A 413 rejects
    with a "too large" error. A 2xx resolves, with the override value when
    it is not null, else with the response text. Any other status rejects with
    a generic error carrying the status text. A network error rejects with a
    connection message. An abort rejects with `UploadAbortedError`.
  - `uploadBinaryProfileData` always hands out the Indirect handle.
- **Deletion** (`deleteProfileOnServer`): one DELETE with a bearer token, then
  a check of `response.ok`.
- **URL shortening** (`src/utils/shorten-url.js`): `shortenUrl` and
  `expandUrl` return their argument when the feature flag is off. Otherwise
  they POST `{longUrl}` or `{shortUrl}`, fail on a response that is not ok,
  and return one property of the JSON answer.

Files:

- `web.dfy` (module `Web`): the platform values the code consumes. It holds
  JavaScript strings, `null` and `undefined`, parsed JSON, and the Error kinds a
  promise rejects with. It also holds the answers a `fetch` or an
  XMLHttpRequest delivers, and a descriptor of each request sent.
- `profile_store.dfy` (module `ProfileStore`): the listener classifier as
  functions. The handle is the class `UploadHandle`, whose fields are the flag,
  a phase, the write-once promise result, the requests sent and the progress
  reports. Deletion is a function.
- `url_shortening.dfy` (module `UrlShortening`): the two flag-gated operations
  as functions.

The network is not modelled. Every answer is an input.
- A class method takes each fetch answer and each XMLHttpRequest event, in the
  order they arrive.
- The single-call operations take the server as a function from request to
  answer.
- Each single-call operation returns the requests it sent and how its promise
  settled.

Three behaviours of the code deserve a note:

- There is no fallback from the Indirect to the Direct path. The comment at
  src/profile-logic/profile-store.js:24-25 says a failing Indirect upload goes
  back to the Direct method. But the `try` in `uploadBinaryProfileData` wraps
  a call that only builds an object and cannot throw, so the `catch` never
  runs. An asynchronous failure of the Indirect handle rejects its own promise.
- An abort while the Indirect handle waits for its upload URL does not stop
  the PUT. The flag is read only on entry to `startUpload`. `xhr.abort()` on a
  request not yet opened fires nothing. `AbortDuringUrlRequest` proves that
  the PUT still goes out.
- When the issuance answer has no `jwt`, or a `null` one, the Indirect handle
  resolves with the PUT's response text. An `undefined` argument takes the
  parameter's default `null`, and `null` selects the response text.

## Model

| member | source | states |
|---|---|---|
| `ProfileStore.ServerErrorMessage` | src/profile-logic/profile-store.js:61-65 | the generic load error starts with the fixed text and ends with the status text |
| `ProfileStore.ConnectionErrorMessage` | src/profile-logic/profile-store.js:76-81 | the network-error message starts with the connection sentence; it is exactly that sentence iff the status text is empty, and otherwise it is the sentence directly followed by " The error response was: " and the status text, with nothing in between (its length is the sum of the three) |
| `ProfileStore.OverrideParameter` | src/profile-logic/profile-store.js:39 | the override the listeners see is never undefined; it is null iff the argument was undefined or null, and a string argument is kept |
| `ProfileStore.OnXhrEvent` | src/profile-logic/profile-store.js:40-88 | the promise resolves iff the event is a load with status 200..299, and then with the override when it is not null, else with the response text; 413 rejects with the size message; another load status outside 200..299 rejects with exactly the ServerErrorMessage of its status text; a network error rejects with the connection message; it rejects with UploadAbortedError iff the event is an abort |
| `ProfileStore.SettlementIdentifiesEvent` | src/profile-logic/profile-store.js:40-88 | from the settlement alone, the kind of event that ended the transfer can be recovered: success, 413, other status, network error and abort never settle alike |
| `ProfileStore.TooLargeIsDistinguished` | src/profile-logic/profile-store.js:41-51 | a 413 load rejects with the size message, which differs from every generic status message and every connection message |
| `ProfileStore.ReadIssuance` | src/profile-logic/profile-store.js:110-139 | the issuance chain grants URL data iff the fetch answered ok with a JSON body that is not null, and the granted `jwt` and `url` are that body's `jwt` and `url` properties; a failed fetch gives its TypeError, a status that is not ok gives the fixed Error, malformed JSON gives its SyntaxError, a JSON `null` gives a TypeError; no rejection is an UploadAbortedError |
| `ProfileStore.DirectUploadRequest` | src/profile-logic/profile-store.js:171-173 | the Direct transfer is a POST of the data to `{origin}/compressed-store` with only the Accept header |
| `ProfileStore.UrlRequest` | src/profile-logic/profile-store.js:110 | the issuance request is a GET of `{origin}/compressed-store-url` with no headers and no body |
| `ProfileStore.IndirectUploadRequest` | src/profile-logic/profile-store.js:129-131 | the Indirect transfer is a PUT of the data with the profiler Content-Type, to the issued URL when it is a string and to "undefined" when it is absent (the text handed to `open`, which the browser then resolves against the page's base URL) |
| `ProfileStore.UploadHandle.constructor` | src/profile-logic/profile-store.js:91-93 | a new handle is not aborted, idle, unsettled and has sent nothing |
| `ProfileStore.UploadHandle.Settle` | src/profile-logic/profile-store.js:104 | the promise keeps its first settlement; later resolve/reject calls change nothing |
| `ProfileStore.UploadHandle.AbortUpload` | src/profile-logic/profile-store.js:96-99 | the flag is set and no transfer remains in flight; a transfer in flight settles as rejected with UploadAbortedError; otherwise nothing else changes, and a repeated abort leaves the whole state unchanged; the Direct handle's copy at lines 149-152 behaves the same |
| `ProfileStore.UploadHandle.StartUpload` | src/profile-logic/profile-store.js:100-110 | an aborted handle rejects at once with UploadAbortedError, sends nothing and keeps every other field; otherwise the Direct handle sends its POST and the Indirect handle sends only the issuance GET; the Direct handle's `startUpload` is at lines 153-173 |
| `ProfileStore.UploadHandle.ReceiveUrlResponse` | src/profile-logic/profile-store.js:110-139 | an issuance failure settles the promise as ReadIssuance says and sends no PUT; a grant installs the jwt as override and sends the PUT to the issued URL, whatever the flag |
| `ProfileStore.UploadHandle.DeliverXhrEvent` | src/profile-logic/profile-store.js:121-131 | the transfer's event settles the promise as OnXhrEvent says, with the override configured for the handle's path |
| `ProfileStore.UploadHandle.DeliverProgress` | src/profile-logic/profile-store.js:123-127 | a progress report is recorded iff a callback was given and the length is computable |
| `ProfileStore.UploadBinaryProfileIndirect` | src/profile-logic/profile-store.js:91-95 | returns a fresh Indirect handle in its initial state |
| `ProfileStore.UploadBinaryProfileDataDirect` | src/profile-logic/profile-store.js:144-148 | returns a fresh Direct handle in its initial state |
| `ProfileStore.UploadBinaryProfileData` | src/profile-logic/profile-store.js:23-33 | always returns an Indirect handle; the Direct fallback is never reached |
| `ProfileStore.DirectUpload` | src/profile-logic/profile-store.js:144-176 | a Direct upload sends exactly one POST of the data to the publishing endpoint and, on success, resolves with the POST's response body |
| `ProfileStore.IndirectUpload` | src/profile-logic/profile-store.js:110-131 | a granted Indirect upload sends the GET then the PUT of the data to the issued URL; on success it resolves with the jwt when that is a string, not with the PUT body |
| `ProfileStore.IndirectIssuanceFailure` | src/profile-logic/profile-store.js:110-139 | an issuance failure rejects, not with UploadAbortedError, after the GET alone: no PUT is sent |
| `ProfileStore.AbortBeforeStart` | src/profile-logic/profile-store.js:105-108 | on either path, abort then start rejects with UploadAbortedError and sends no request; the Direct handle's check is at lines 158-161 |
| `ProfileStore.AbortDuringUrlRequest` | src/profile-logic/profile-store.js:105-131 | an abort while the issuance fetch is pending leaves the promise pending and the PUT is still sent |
| `ProfileStore.AbortDuringTransfer` | src/profile-logic/profile-store.js:84-88 | on either path, an abort once the transfer request has gone out rejects with UploadAbortedError |
| `ProfileStore.AbortTwice` | src/profile-logic/profile-store.js:96-99 | a second abort right after the first leaves the state as the first left it |
| `ProfileStore.DeleteProfileRequest` | src/profile-logic/profile-store.js:185-194 | the deletion is a DELETE to exactly `{origin}/profile/{token}` with no body, whose headers are exactly Accept, `Content-Type: application/json` and `Authorization: Bearer {jwt}` |
| `ProfileStore.DeleteErrorMessage` | src/profile-logic/profile-store.js:197-199 | the deletion error names the token, the status text and the status |
| `ProfileStore.DeleteProfileOnServer` | src/profile-logic/profile-store.js:178-201 | sends exactly the deletion request and fulfils, with undefined, iff the response is ok; a failed fetch rejects with its TypeError, a response that is not ok with the naming Error |
| `Web.GetProperty` | src/profile-logic/profile-store.js:118-119 | reading a property of a parsed JSON value gives the property when present and undefined when absent; reading it from `null` throws a TypeError |
| `Web.DecimalText` | src/profile-logic/profile-store.js:198 | the status is written as a non-empty run of decimal digits without a leading zero |
| `Web.DecimalRoundTrip` | src/profile-logic/profile-store.js:198 | the decimal text put into an error message reads back as the status itself |
| `UrlShortening.JsonPost` | src/utils/shorten-url.js:33-40 | the request is a POST to the given URL with the profiler's Accept header, a JSON Content-Type, no other header, and the one-property JSON body |
| `UrlShortening.ShortenRequest` | src/utils/shorten-url.js:28-40 | the shortening request is a POST to `{origin}/shorten` with body `{longUrl}` |
| `UrlShortening.ExpandRequest` | src/utils/shorten-url.js:57-68 | the expansion request is a POST to `{origin}/expand` with body `{shortUrl}` |
| `UrlShortening.FailureMessage` | src/utils/shorten-url.js:42-46 | the failure message names the URL, the status text and the status |
| `UrlShortening.ReadField` | src/utils/shorten-url.js:42-49 | a failed fetch rejects with its TypeError; a response that is not ok rejects with the naming Error and no field is read; a malformed body rejects with its SyntaxError; otherwise the result is the requested property of the JSON |
| `UrlShortening.ShortenUrl` | src/utils/shorten-url.js:11-50 | with the flag off, returns its argument and sends nothing; with it on, sends one POST to `{origin}/shorten` whose body `{longUrl}` holds the argument unchanged, and settles as ReadField says for the `shortUrl` property |
| `UrlShortening.ExpandUrl` | src/utils/shorten-url.js:52-78 | with the flag off, returns its argument and sends nothing; with it on, sends one POST to `{origin}/expand` with body `{shortUrl}` and settles as ReadField says for the `longUrl` property |
| `UrlShortening.ExpandAfterShorten` | src/utils/shorten-url.js:48-77 | with the flag on and a server that maps a long URL to a short one and back, shortening gives the short URL and expanding it gives the long URL again |
| `UrlShortening.ExpandAfterShortenDisabled` | src/utils/shorten-url.js:11-14 | with the flag off, expanding the result of shortening gives the URL back and sends nothing, whatever the server would answer |
| `UrlShortening.FailureNamesTheUrl` | src/utils/shorten-url.js:70-74 | a response that is not ok makes either operation reject with an Error naming its input URL, the status text and the status |

## Left out

- The XMLHttpRequest and fetch machinery (`open`, `send`, `setRequestHeader`, header handling) is not modelled. Requests are descriptors, and every answer or event is an input.
- The progress fraction `e.loaded / e.total` is floating point. The model records the `(loaded, total)` pair the callback's argument is computed from.
- Races between an abort and a load inside the XMLHttpRequest event loop are concurrency. Events arrive one at a time.
- `console` logging is cosmetic. The `oneLine` template is cosmetic too: the size message is given already joined into one line.
- The dead host-rewriting branch of `shortenUrl` (`new URL(...)`, guarded by `false`) is not modelled. The URL is sent as given.
- `PROFILER_SERVER_ORIGIN` and `ENABLE_URL_SHORTENING` are build-time constants. They are parameters here (`origin`, `Config`).
- JSON properties that hold numbers, booleans, arrays or objects are not modelled. A `jwt`, `url`, `shortUrl` or `longUrl` is a string, `null` or absent.
- `xhr.open` throwing on an unparsable upload URL is not modelled. The handler at src/profile-logic/profile-store.js:132 would turn that into a rejection.
- The TypeError text for reading a property of `null` is the V8 engine's wording. Other engines word it differently.
- `ProfileStore.UploadHandle.StartUpload`: a second call on the same handle is not modelled, because each call makes a new promise over the shared request. It requires an idle handle.
- `ProfileStore.UploadHandle.ReceiveUrlResponse`, `ProfileStore.UploadHandle.DeliverXhrEvent`, `ProfileStore.UploadHandle.DeliverProgress`: each takes an event only in the phase where the platform can deliver it. A fetch answers only after it was issued, and a transfer's events come only while it is in flight.
- src/app-logic/create-store.js is not part of this model. It wires the Redux store and its middleware.
- index.js is not part of this model. It starts React and the worker.
- src/profile-logic/unity.js is not part of this model. It holds two stubs that return `false`.

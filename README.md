# Smart Address Book: a verified model

The Smart Address Book is a small web application. A browser form (the React
component `App` in `App.js`) collects a postal address. An Express service
(`server.js`) stores addresses in a MongoDB collection and resolves a 6-digit
Indian PIN code to a city and state from a fixed three-entry table.

This project models both halves in Dafny:

- `address_book.dfy` (module `AddressBook`) holds the values the two sides
  exchange. These are address documents, the body of a create request, the
  PIN-code reply and HTTP error replies. It also defines JavaScript
  truthiness of a string field: a field is falsy when it is absent or empty.
- `address_service.dfy` (module `AddressService`) models POST and GET
  `/api/addresses`. The class `AddressStore` is the collection. Its methods
  `Create` and `List` are the route handlers. Both are proved against the pure
  functions `Post` and `ListReply`. The lemmas about `Serve` follow the store
  through any sequence of requests.
- `pin_directory.dfy` (module `PinDirectory`) models GET `/api/pincode/:pin`.
  `LookupPin` is the table lookup that the rest of the model uses.
  `LookupPinAsWritten` is the handler as written; see "## Findings".
- `address_form.dfy` (module `AddressForm`) models the component's three state
  cells (`addresses`, `formData`, `error`) as the fields of the class `App`.
  There is one method per event handler. Each handler takes the outcome of
  the HTTP call it awaits as an input. Each method is proved against a pure
  function `After*` over a `ClientState` value. The lemmas about `Run` follow
  the component through any sequence of events.
- `end_to_end.dfy` (module `EndToEnd`) connects the two sides. It maps a
  service reply to the outcome the client sees: axios resolves on 2xx and
  rejects every other status. It proves what the user sees for each kind of
  request, and it walks through the create, reject and session scenarios.

Two consequences of the code are worth stating outright:

- An unknown PIN code gets a 404 from server.js:72. axios rejects every non-2xx
  reply, so the `catch` at App.js:50-51 shows "Failed to fetch city/state".
  The "Invalid PIN code." branch at App.js:47-48 is not taken.
  `UnknownPinShowsFetchFailure` proves the first point. `InvalidPinNeverShown`
  and `InvalidPinNeverShownAsWritten` prove that the branch at App.js:47-48 is
  never taken with this service.
- The schema default at server.js:26 applies only when `country` is absent.
  A supplied empty string is stored as given.

## Model

| member | source | states |
|---|---|---|
| AddressService.Post | server.js:44-57 | A create is accepted exactly when all four required fields are truthy and the save succeeds. A falsy field gives 400 "All fields are required". A failing save gives 500 "Failed to save address" with the error's message. A refused create leaves the store unchanged. An accepted create appends exactly one document built from the body: same fields, country "India" when absent, otherwise as given. That document is well formed, its id is fresh, and the collection invariant is preserved. |
| AddressService.ListReply | server.js:33-41 | A list succeeds exactly when the database answers. It then returns every stored document in storage order. A failure gives 500 "Failed to fetch addresses" with the error's message. |
| AddressService.ServeKeepsInv | server.js:22-28 | After any sequence of requests, every stored document has non-empty addressLine1, city, state and pinCode, and all ids are distinct. |
| AddressService.ServeOnlyAppends | server.js:50-51 | Stored documents are never changed or removed. The old collection is a prefix of the new one, which grows by exactly one document per accepted create. |
| AddressService.ListStableWithoutCreate | server.js:35-36 | Without an accepted create in between, the store is unchanged, so two listings are equal. |
| AddressService.AddressStore.constructor | server.js:30 | The collection starts empty, with the id counter at zero. |
| AddressService.AddressStore.Create | server.js:44-57 | The handler's reply and the new collection are those of `Post`. A refusal leaves `records` unchanged. Success appends exactly the returned document, including its id. |
| AddressService.AddressStore.List | server.js:33-41 | The handler returns all `records` when the database answers, otherwise 500 "Failed to fetch addresses". It changes nothing. |
| PinDirectory.LookupPin | server.js:60-73 | Only "600001", "110001" and "400001" resolve, each to a non-empty city and state. Every other string of any length gets 404 "Invalid PIN Code". |
| PinDirectory.SeededCodes | server.js:62-66 | "600001" resolves to Chennai/Tamil Nadu, "110001" to New Delhi/Delhi and "400001" to Mumbai/Maharashtra. "999999" and "000000" are not found. |
| PinDirectory.LookupPinAsWritten | server.js:68-73 | The handler as written agrees with `LookupPin` on every key except the names inherited from Object.prototype. For those it answers 200 with a body that has no city or state. |
| PinDirectory.InheritedNameAnswered | server.js:68-70 | "toString" gets a 200 without a city from the handler as written, where the table lookup gives 404. |
| PinDirectory.AsWrittenAgreesOnSixChars | server.js:62-72 | On every six-character code the handler as written and the table lookup give the same reply. |
| AddressForm.AfterLoad | App.js:22-29 | A successful load replaces the address list and leaves the banner alone. A failed load shows "Failed to load addresses." and keeps the list. The form is never touched. |
| AddressForm.AfterEdit | App.js:84-122 | Editing addressLine1, city or state sets that field only. Every other field, the banner and the list are unchanged. |
| AddressForm.AfterPinChange | App.js:32-54 | `pinCode` is always set. A lookup counts only for exactly six characters. A reply with both city and state truthy fills them in and clears the banner. A reply missing either shows "Invalid PIN code." A rejected request shows "Failed to fetch city/state". In every case except the filling one, city and state are unchanged. addressLine1, country and the list are never changed. |
| AddressForm.AfterSubmit | App.js:57-73 | A saved form resets to its initial values, with country "India", and clears the banner. A failed save shows "Failed to save address." and keeps every field. The list is unchanged until the refresh. |
| AddressForm.CountryStaysIndia | App.js:125-128 | Starting from country "India", every sequence of events keeps country "India". |
| AddressForm.ErrorAlwaysKnown | App.js:15-73 | After any sequence of events the banner is empty or shows one of the component's four messages. |
| AddressForm.App.constructor | App.js:7-15 | The initial state: empty addressLine1, city, state and pinCode, country "India", no error, no addresses. |
| AddressForm.App.FetchAddresses | App.js:22-29 | The new cells are `AfterLoad` of the old ones. |
| AddressForm.App.HandlePinCodeChange | App.js:32-54 | The PIN endpoint is called exactly when the value has six characters. The new cells are `AfterPinChange` of the old ones. |
| AddressForm.App.HandleSubmit | App.js:57-73 | The posted body is the form as it was. A refresh follows exactly when the save succeeded. The new cells are `AfterSubmit` of the old ones. |
| AddressForm.App.EditAddressLine1 | App.js:87 | The new cells are `AfterEdit` for addressLine1. |
| AddressForm.App.EditCity | App.js:110 | The new cells are `AfterEdit` for city. |
| AddressForm.App.EditState | App.js:120 | The new cells are `AfterEdit` for state. |
| EndToEnd.AsWrittenServesClientAlike | App.js:36-38 | For every code the client sends, the handler as written gives it the same outcome as the table lookup. |
| EndToEnd.UnknownPinShowsFetchFailure | App.js:36-52 | A six-character code outside the table gets a 404 that axios rejects. The banner then reads "Failed to fetch city/state", and city and state keep their values. |
| EndToEnd.KnownPinFillsForm | App.js:38-46 | A seeded code fills in the table's city and state and clears the banner. |
| EndToEnd.InvalidPinNeverShown | App.js:47-48 | When this service answers the lookups, no sequence of events ever shows "Invalid PIN code.". |
| EndToEnd.InvalidPinNeverShownAsWritten | App.js:47-48 | The same holds when the handler as written (server.js:68-73) answers the lookups: no sequence of events ever shows "Invalid PIN code.". |
| EndToEnd.IncompleteSubmitKeepsForm | server.js:47-49 | Posting a form with an empty required field gets 400 and no write. The client keeps every field and shows "Failed to save address.". |
| EndToEnd.CompleteSubmitThenRefresh | App.js:60-69 | A complete form saved by a working service is stored field for field. After the refresh the client lists exactly the stored documents, the new one last. The form is reset and the banner is empty. |
| EndToEnd.CreateThenList | server.js:44-52 | Creating an address without a country stores it with country "India", and the next listing returns it. |
| EndToEnd.RejectedCreateKeepsList | server.js:47-49 | An empty addressLine1 is refused with 400 "All fields are required", and the listing keeps its length. |
| EndToEnd.Session | App.js:17-73 | Mount, type "600001", type the address line, submit and refresh. The table then shows exactly the new Chennai/Tamil Nadu/India address, the form is empty and there is no banner. |

## Left out

- The MongoDB connection, its 30-second selection timeout and the exit on failure (server.js:10-19) are process startup and I/O.
- Express routing, JSON body parsing, CORS, the port and console logging (server.js:5-7, 46, 81-82) are framework plumbing.
- ObjectId generation is replaced by a counter. The model relies only on the freshness of the id it hands out.
- Mongoose strict-mode stripping of unknown fields and schema casting are not modelled. A request body holds only the five string fields, and each is absent or a string. Numbers, booleans and null in a JSON body are not modelled.
- `find()` (server.js:35) has no sort, and MongoDB does not promise any order for it. The model takes storage order to be insertion order. `AddressService.ListReply`, `AddressService.AddressStore.List`, `AddressService.ServeOnlyAppends`, `EndToEnd.CompleteSubmitThenRefresh`, `EndToEnd.CreateThenList` and `EndToEnd.Session` rely on this: they state the listed sequence, with the newest document last. Without this assumption they hold only up to the order of the list.
- Storage faults are an input to `Post`/`Create` and `ListReply`/`List`: the error message of the failing call. The 500 branch of the PIN handler (server.js:74-77) is left out, because nothing in its `try` can throw.
- JavaScript `length` counts UTF-16 code units, while the model counts characters. The six-character test differs only for characters outside the Basic Multilingual Plane.
- The asynchronous interleavings are not modelled, because they are concurrency. These are a stale PIN reply overwriting newer state, an edit made while a lookup is in flight being lost to the handler's stale `formData`, and the unawaited refresh at App.js:68. Each handler is one atomic step, given the outcome of its request. A saved submit's refresh is the next `FetchAddresses` event.
- The `useEffect` mount call (App.js:18-20) is the first `FetchAddresses` event of a session.
- Rendering, Bootstrap components, the table built by `map` at App.js:146, and the `maxLength`/`required` HTML attributes (App.js:75-158) are UI.

## Findings

| source | as written | input that shows it | evidently intended | confidence | as-written member | corrected member |
|---|---|---|---|---|---|---|
| server.js:68-69 | `pinCodeData[req.params.pin]` indexes an object literal, so a name inherited from Object.prototype (`toString`, `constructor`, `__proto__`, ...) gives a truthy value. The handler then answers 200 with a body that has no city or state. | GET /api/pincode/toString | 404 "Invalid PIN Code" for every code outside the three-entry table | not executed; high (standard JavaScript property lookup) | PinDirectory.InheritedNameAnswered | PinDirectory.LookupPin |

None of the inherited names has six characters. The form never sends such a
code, so the client-side results hold for the handler as written too
(`EndToEnd.AsWrittenServesClientAlike`, `EndToEnd.InvalidPinNeverShownAsWritten`).

# Expense tracker: a verified model of the expense API and its client

This project models the expense tracker's core in Dafny: the three server transports
over one `expenses` table, and the browser code that talks to them.

- **Resource transport** (`/api/expenses`). List, get, create, replace, patch and
  delete. Every route sits behind the authentication gate. Rows with a storage key
  in `fileUrl` are answered with a signed read URL in its place.
- **Method transport** (`/api/rpc`). One POST with `{method, params}` for
  `listExpenses`, `createExpense` and `deleteExpense`. It has no authentication gate
  and no URL signing, and it does not keep the `fileKey` of a create.
- **Upload signing** (`/api/upload/sign`). It validates `{filename, type}`, applies
  the authentication gate, and hands out a 60-second write URL for the key
  `uploads/<millis>-<filename>`.
- **Client helpers**. `request`, the `api` object and `rpc` build requests and turn
  responses into values or thrown errors.
- **Components**. The add form (optimistic cache update with rollback), the list
  (loads that a later load cancels, deletes) and the receipt upload form (sign,
  direct write, attach).

Modules and files:

| file | module | models |
|---|---|---|
| `wrappers.dfy` | `Wrappers` | `Option` |
| `text.dfy` | `Text` | decimal rendering of numbers, `trim`, prefix and suffix predicates |
| `json.dfy` | `Json` | parsed JSON values, truthiness, `String(v)` |
| `http.dfy` | `Http` | handler answers, the `{data}` and `{error}` envelopes, the 401 answer, the presigner |
| `expense_schemas.dfy` | `ExpenseSchemas` | rows, the create and update schemas, `buildUpdatePayload`, `withSignedDownloadUrl` |
| `expense_store.dfy` | `ExpenseStore` | the table as a class: insert, find, update, remove, scan |
| `expense_routes.dfy` | `ExpenseRoutes` | the handlers of server/routes/expenses.ts |
| `rpc_route.dfy` | `RpcRoute` | server/routes/rpc.ts |
| `upload_route.dfy` | `UploadRoute` | server/routes/upload.ts |
| `api_client.dfy` | `ApiClient` | frontend/src/lib/api.ts |
| `rpc_client.dfy` | `RpcClient` | frontend/src/lib/rpc.ts |
| `query_cache.dfy` | `QueryCache` | the cache entry, the cache operations the forms use, and which entries they mark stale |
| `add_expense_form.dfy` | `AddExpenseForm` | frontend/src/components/AddExpenseForm.tsx |
| `expenses_list.dfy` | `ExpensesList` | frontend/src/components/ExpensesList.tsx |
| `upload_expense_form.dfy` | `UploadExpenseForm` | frontend/src/components/UploadExpenseForm.tsx |
| `conformance.dfy` | `Conformance` | how client and server fit, and where the two transports part |

Outside inputs are parameters:

- the authentication verdict (`authenticated`);
- the object-store presigner (`Signer`, None when it throws);
- the clock (`now`);
- the settlement of each `fetch` (`Fetched`, or typed results in the components);
- the string-to-number conversion of the amount field (`toNumber`).

The handlers are methods on an `ExpenseTable` class. A component's state is a class
whose methods are its event handlers.

Three behaviours of the code that are easy to miss:

- The PATCH route's "Empty patch" answer is never given, because the update schema
  already refuses a body with none of the four fields (`ExpenseRoutes.HandlePatch`
  proves it).
- The upload route validates the body before the authentication gate, so an
  unauthenticated malformed request gets the validator's 400, not a 401.
- The method transport's `createExpense` stores a null `fileUrl` even when `fileKey`
  is sent. The insert passes the parsed input as it is, and `fileKey` is not a column
  of the table (an assumption, see "## Left out").

## Model

| member | source | states |
|---|---|---|
| `Text.Trim` | frontend/src/components/AddExpenseForm.tsx:24 | the result has no leading or trailing whitespace and is no longer than the input |
| `Text.TrimIsSlice` | frontend/src/components/AddExpenseForm.tsx:24 | the trimmed title is one contiguous piece of the typed text with only white space around it |
| `Text.TrimIdempotent` | frontend/src/components/AddExpenseForm.tsx:66 | trimming a trimmed title changes nothing, so the sent title passes the same length gate |
| `Text.Decimal` | frontend/src/lib/api.ts:49 | an id is rendered as its decimal digits, with a minus sign when negative |
| `Text.DecimalInjective` | frontend/src/lib/api.ts:49 | two integers with the same rendering are equal, across signs |
| `Json.JsString` | frontend/src/lib/rpc.ts:15 | `String(v)` for every kind of value: "null", "true"/"false", an integer's decimal rendering, a fraction's own text, a string itself, "[object Object]" for a plain object, "" for an empty array |
| `Json.ArrayString` | frontend/src/lib/rpc.ts:15 | a one-element array renders as its element (a null element as nothing); a longer array as its first element, a comma, and the rendering of the rest |
| `Json.HasKey` | frontend/src/lib/rpc.ts:25-30 | `Boolean(v && typeof v === "object" && key in v)`: holds only for a truthy non-array object with the key, and for every such object |
| `Http.DataBody` | server/routes/expenses.ts:58 | the success envelope holds the payload under `data` and has no `error` key |
| `Http.ErrorBody` | server/routes/expenses.ts:59-60 | the failure envelope holds the message under `error.message` and has no `data` key |
| `Http.Field` | server/routes/expenses.ts:102 | a payload object has exactly the one key |
| `ExpenseSchemas.RowJson` | server/routes/expenses.ts:18 | a row is sent as an object with exactly id, title, amount and fileUrl, null when unset |
| `ExpenseSchemas.ValidTitle` | server/routes/expenses.ts:21 | a title is valid exactly when it has 3 to 100 characters, whatever they are |
| `ExpenseSchemas.ValidAmount` | server/routes/expenses.ts:22 | an amount is valid exactly when it is an integer of at least one |
| `ExpenseSchemas.ParseCreate` | server/routes/expenses.ts:49-53 | a body is accepted if and only if it is an object with a 3 to 100 character title, a positive integer amount, and a non-empty string fileKey when that key is present; the accepted values are the body's own |
| `ExpenseSchemas.ParseUpdate` | server/routes/expenses.ts:31-47 | a body is accepted if and only if every present field is valid and at least one of the four is present; each field is present in the result exactly when its key is, with the value sent (a fileUrl string included); an explicit null fileUrl is kept apart from an absent one |
| `ExpenseSchemas.NoRecognisedFieldRejected` | server/routes/expenses.ts:38-47 | an object with none of the four keys is refused, whatever else it holds |
| `ExpenseSchemas.BuildUpdatePayload` | server/routes/expenses.ts:62-73 | title and amount are copied; fileKey sets the fileUrl column; an explicit fileUrl wins over fileKey; the patch is empty exactly when the input has no field |
| `ExpenseSchemas.ApplyPatch` | server/routes/expenses.ts:169-173 | supplied columns take the new value; the id and every other column keep theirs; an empty patch changes nothing |
| `ExpenseSchemas.ReplacementPatch` | server/routes/expenses.ts:142-148 | PUT always sets title and amount, and sets fileUrl exactly when fileKey was sent |
| `ExpenseSchemas.WithSignedDownloadUrl` | server/routes/expenses.ts:75-95 | id, title and amount never change; an unset, empty or http(s) fileUrl is kept; a storage key becomes a read URL signed for 3600 seconds, or stays when signing fails |
| `ExpenseSchemas.IsExternalUrl` | server/routes/expenses.ts:77 | a stored value counts as an external URL exactly when it starts with "http://" or "https://" |
| `ExpenseSchemas.SignedUrlNotResigned` | server/routes/expenses.ts:76-79 | with a presigner that yields http(s) URLs, applying the rule twice equals applying it once |
| `ExpenseSchemas.SignAll` | server/routes/expenses.ts:101 | the list keeps its length and order, and each row goes through the download-URL rule |
| `ExpenseSchemas.RowsJson` | server/routes/expenses.ts:102 | the rows become a JSON array of the same length and order |
| `ExpenseStore.EnumerationsAgree` | server/routes/expenses.ts:100 | two scans of one table hold the same rows and have the same length, whatever their order |
| `ExpenseStore.ExpenseTable.Insert` | server/routes/expenses.ts:122 | the new row gets a positive id no row had; it holds the given values; no other row changes |
| `ExpenseStore.ExpenseTable.constructor` | server/db/client.ts:13 | a new table is well formed and holds no rows |
| `ExpenseStore.ExpenseTable.Find` | server/routes/expenses.ts:106-110 | finds the row exactly when the id is stored |
| `ExpenseStore.ExpenseTable.Update` | server/routes/expenses.ts:149-153 | a missing id changes nothing; otherwise only that row changes, by the patch, and is returned |
| `ExpenseStore.ExpenseTable.Remove` | server/routes/expenses.ts:128-131 | a missing id changes nothing; otherwise only that row goes, and it is returned |
| `ExpenseStore.ExpenseTable.Scan` | server/routes/expenses.ts:100 | every stored row exactly once, in some order |
| `ExpenseRoutes.ExpenseReply` | server/routes/expenses.ts:113 | answers the row as `{data:{expense}}` with the given status |
| `ExpenseRoutes.HandleList` | server/routes/expenses.ts:99-103 | 401 without a session; otherwise 200 with every row once, each through the download-URL rule |
| `ExpenseRoutes.HandleGet` | server/routes/expenses.ts:104-114 | 401 without a session; 404 "Not found" for a missing id; otherwise the signed row |
| `ExpenseRoutes.HandlePost` | server/routes/expenses.ts:115-125 | 401 first, then validation; stores title, amount and fileKey as fileUrl under a fresh id; answers 201 with the signed row; nothing changes on refusal |
| `ExpenseRoutes.HandlePut` | server/routes/expenses.ts:136-158 | 401, then the create schema, then 404; title and amount are overwritten, fileUrl only when fileKey was sent; other rows are untouched |
| `ExpenseRoutes.HandlePatch` | server/routes/expenses.ts:160-178 | 401, then the update schema, then 404; the supplied fields are set, an explicit fileUrl winning over fileKey; "Empty patch" is never answered |
| `ExpenseRoutes.HandleDelete` | server/routes/expenses.ts:126-134 | 401, then 404; otherwise only that row goes and it is echoed unsigned |
| `RpcRoute.ParsePayload` | server/routes/rpc.ts:13-16 | accepted if and only if `method` is one of the three names; `params` is kept exactly when its key is present |
| `RpcRoute.ParseDeleteParams` | server/routes/rpc.ts:9-11 | accepted if and only if params is an object whose id is a positive integer |
| `RpcRoute.ParseCreateParams` | server/routes/rpc.ts:29 | absent params are refused; otherwise the create schema decides |
| `RpcRoute.Dispatch` | server/routes/rpc.ts:23-46 | "Unknown method" exactly for names outside the three; list returns every row unsigned; create stores a null fileUrl and answers 201; delete answers 404 or echoes the removed row; a params failure throws and changes nothing |
| `RpcRoute.HandleRpc` | server/routes/rpc.ts:20-47 | a malformed payload is refused before dispatch, so "Unknown method" is never answered; list, create and delete as above |
| `UploadRoute.ParseSignPayload` | server/routes/upload.ts:9-12 | accepted if and only if filename and type are non-empty strings |
| `UploadRoute.UploadKey` | server/routes/upload.ts:27 | the key starts with "uploads/" and ends with "-" and the filename |
| `UploadRoute.UploadKeyInjective` | server/routes/upload.ts:27 | two keys are equal if and only if both the millisecond and the filename are equal |
| `UploadRoute.TicketBody` | server/routes/upload.ts:37 | the ticket holds uploadUrl and key, with no `data` or `error` key |
| `UploadRoute.HandleSign` | server/routes/upload.ts:19-39 | validation first, then 401, then a write URL signed for 60 seconds for that key and content type; a presigner failure escapes |
| `UploadRoute.UnauthenticatedSignsNothing` | server/routes/upload.ts:23-24 | without a session the answer depends neither on the clock nor on the presigner |
| `ApiClient.MessageOr` | frontend/src/components/ExpensesList.tsx:39-40 | the message of an `Error` when non-empty, else the fallback; never empty when the fallback is not |
| `ApiClient.Spread` | frontend/src/lib/api.ts:4-7 | each field present in the overriding options wins, each absent one is taken from the base |
| `ApiClient.FinalInit` | frontend/src/lib/api.ts:4-7 | credentials default to "include" unless the call sets them; the other options are the call's own |
| `ApiClient.JsonInit` | frontend/src/lib/api.ts:27-30 | a JSON content type and the serialised body, nothing else |
| `ApiClient.VerbWithJson` | frontend/src/lib/api.ts:51-54 | the verb with the JSON headers and body |
| `ApiClient.CreateJson` | frontend/src/lib/api.ts:50 | the create body has title and amount, and fileKey exactly when given |
| `ApiClient.UpdateJson` | frontend/src/lib/api.ts:55-67 | the update body has exactly the given fields, nulls kept as null |
| `ApiClient.ExpensePath` | frontend/src/lib/api.ts:49 | the path of one expense is `/api/expenses/` followed by the decimal rendering of its id |
| `ApiClient.ExpensePathInjective` | frontend/src/lib/api.ts:49 | two ids have the same path exactly when they are equal, so distinct ids address distinct resources |
| `ApiClient.Route` | frontend/src/lib/api.ts:47-75 | the path, verb and body of each of the six calls |
| `ApiClient.CallsIncludeCredentials` | frontend/src/lib/api.ts:4-7 | every `api` call sends cookies |
| `ApiClient.FailureText` | frontend/src/lib/api.ts:11-12 | the body text when non-empty, else the status text; a failed read counts as empty |
| `ApiClient.Request` | frontend/src/lib/api.ts:3-25 | a network failure rethrows; non-2xx throws `{status, message}` without parsing; 204 gives undefined and only 204 does; a body that does not parse throws; `{data}` is unwrapped and any other body passes through |
| `ApiClient.IsOk` | frontend/src/lib/api.ts:10 | `res.ok` holds exactly for a status in the 2xx class |
| `ApiClient.IsRecordWithData` | frontend/src/lib/api.ts:32-34 | holds only for a truthy non-array object with a `data` key, and for every such object, whatever `data` holds |
| `ApiClient.HttpFailureIsNotAnError` | frontend/src/lib/api.ts:10-13 | a non-2xx answer throws a plain object, never an `Error` |
| `RpcClient.RpcEnvelope` | frontend/src/lib/rpc.ts:5 | the body has `method`, and `params` exactly when given |
| `RpcClient.RpcOutgoing` | frontend/src/lib/rpc.ts:2-6 | POST to /api/rpc with the JSON envelope and no credentials option |
| `RpcClient.ErrorMessage` | frontend/src/lib/rpc.ts:15 | a null error throws on the property read; a truthy message is stringified; anything else is "RPC call failed" |
| `RpcClient.RpcResult` | frontend/src/lib/rpc.ts:1-23 | every failure is an `Error`; an `error` key wins over `data`; a body with neither throws; the result is returned exactly for a 2xx JSON body with `data` and no `error` |
| `RpcClient.HelpersAgreeOnEnvelopes` | frontend/src/lib/rpc.ts:18-22 | both helpers return the same payload for a 2xx `{data}` answer |
| `QueryCache.ListFilterCoversDetails` | frontend/src/components/UploadExpenseForm.tsx:47-50 | after an invalidation of `["expenses"]` every `["expenses", id]` is stale; invalidating one `["expenses", id]` leaves the listing's and every other detail's staleness as it was |
| `QueryCache.QueryClient.constructor` | frontend/src/main.tsx:8 | a new cache holds the given listing (none for `new QueryClient()`), has no operations and nothing stale |
| `QueryCache.QueryClient.CancelQueries` | frontend/src/components/AddExpenseForm.tsx:29 | records the cancel; keeps the cached data and every entry's staleness |
| `QueryCache.QueryClient.SetListing` | frontend/src/components/AddExpenseForm.tsx:39-41 | the cached listing becomes the given one and is fresh; the detail entries keep their staleness |
| `QueryCache.QueryClient.InvalidateQueries` | frontend/src/components/AddExpenseForm.tsx:57 | keeps the cached data; afterwards an entry is stale exactly when the filter covers its key (a prefix match) or it was stale before |
| `AddExpenseForm.Round` | frontend/src/components/AddExpenseForm.tsx:67 | the nearest integer, halves rounded up |
| `AddExpenseForm.AmountNumber` | frontend/src/components/AddExpenseForm.tsx:22 | an empty field is not a number; otherwise the conversion decides |
| `AddExpenseForm.TitleIsValid` | frontend/src/components/AddExpenseForm.tsx:24 | the title passes exactly when it has at least three characters once surrounding white space is removed, so it has at least three characters |
| `AddExpenseForm.AmountIsValid` | frontend/src/components/AddExpenseForm.tsx:23 | the amount passes exactly when it is a finite number above zero; it then rounds to zero or more |
| `AddExpenseForm.Admits` | frontend/src/components/AddExpenseForm.tsx:63 | the gate passes exactly when both checks do; it needs a non-empty amount field and a trimmed title of three characters |
| `AddExpenseForm.Appended` | frontend/src/components/AddExpenseForm.tsx:39-41 | the cached rows followed by the new one, and nothing when no listing is cached |
| `AddExpenseForm.Provisional` | frontend/src/components/AddExpenseForm.tsx:33-38 | the provisional row has the clock reading as id, the sent values, and no file |
| `AddExpenseForm.Form.constructor` | frontend/src/components/AddExpenseForm.tsx:18-19 | both fields start empty, with no error |
| `AddExpenseForm.Form.TitleHintShown` | frontend/src/components/AddExpenseForm.tsx:83-85 | the title hint shows exactly when the field is not empty and its trimmed text has fewer than three characters |
| `AddExpenseForm.Form.AmountHintShown` | frontend/src/components/AddExpenseForm.tsx:100-102 | the amount hint shows exactly when the field is not empty and its number is not finite and positive |
| `AddExpenseForm.Form.AdmittedShowsNoHint` | frontend/src/components/AddExpenseForm.tsx:63 | whenever the gate lets a submission through, neither hint is shown |
| `AddExpenseForm.Form.ErrorText` | frontend/src/components/AddExpenseForm.tsx:134-138 | shown exactly in the error state, as the `Error`'s message or "Failed to add expense", never empty |
| `AddExpenseForm.Form.OnMutate` | frontend/src/components/AddExpenseForm.tsx:28-45 | cancels listing fetches; returns the snapshot; appends the provisional row only when a listing is cached |
| `AddExpenseForm.Form.OnSuccess` | frontend/src/components/AddExpenseForm.tsx:46-50 | both fields are emptied |
| `AddExpenseForm.Form.OnError` | frontend/src/components/AddExpenseForm.tsx:51-55 | the snapshot is written back when there was one |
| `AddExpenseForm.Form.OnSettled` | frontend/src/components/AddExpenseForm.tsx:56-58 | the listing is invalidated, so it and every detail entry are stale |
| `AddExpenseForm.Form.Mutate` | frontend/src/components/AddExpenseForm.tsx:26-59 | one mutation: the create call with the given values; a failure restores the cached listing exactly and keeps the fields; a success keeps the provisional row and empties the fields; cancel, writes and invalidation occur in this order, and every entry is stale afterwards |
| `AddExpenseForm.Form.Submit` | frontend/src/components/AddExpenseForm.tsx:61-69 | a submission the gate refuses changes nothing; otherwise the trimmed title and the rounded amount go through the mutation |
| `ExpensesList.Without` | frontend/src/components/ExpensesList.tsx:58 | the result holds exactly the rows whose id differs, each as many times as the input does, and no row with the id |
| `ExpensesList.WithoutAbsent` | frontend/src/components/ExpensesList.tsx:58 | removing an id no row has changes nothing |
| `ExpensesList.WithoutIdempotent` | frontend/src/components/ExpensesList.tsx:58 | removing the same id twice equals removing it once |
| `ExpensesList.WithoutKeepsOrder` | frontend/src/components/ExpensesList.tsx:58 | the remaining rows keep their order |
| `ExpensesList.ShownErrorAsWritten` | frontend/src/components/ExpensesList.tsx:78-80 | the message is shown exactly in the error status and when non-empty |
| `ExpensesList.ShownError` | frontend/src/components/ExpensesList.tsx:78-80 | the corrected rendering: any non-empty message is shown |
| `ExpensesList.DeleteFailureHidden` | frontend/src/components/ExpensesList.tsx:60-61 | a delete failure in the ready status is hidden as written and shown as corrected; the two agree in the error status |
| `ExpensesList.LoadEffect.constructor` | frontend/src/components/ExpensesList.tsx:26 | a new load starts not cancelled |
| `ExpensesList.LoadEffect.Cancel` | frontend/src/components/ExpensesList.tsx:48-50 | the cleanup marks the load cancelled |
| `ExpensesList.ListView.constructor` | frontend/src/components/ExpensesList.tsx:20-23 | no rows, idle, no error, nothing being deleted |
| `ExpensesList.ListView.VisibleError` | frontend/src/components/ExpensesList.tsx:78-80 | the corrected rendering (see Findings): the recorded message is shown exactly when it is non-empty |
| `ExpensesList.ListView.StartLoad` | frontend/src/components/ExpensesList.tsx:28-30 | loading with no error; the old rows stay |
| `ExpensesList.ListView.Refresh` | frontend/src/components/ExpensesList.tsx:25-51 | the running load is cancelled before a new one starts |
| `ExpensesList.ListView.FinishLoad` | frontend/src/components/ExpensesList.tsx:31-44 | a cancelled load changes nothing; a listing replaces the rows; a failure keeps them and records the message or "Failed to load expenses" |
| `ExpensesList.ListView.BeginDelete` | frontend/src/components/ExpensesList.tsx:54-55 | marks the id as being deleted and clears the error |
| `ExpensesList.ListView.FinishDelete` | frontend/src/components/ExpensesList.tsx:56-64 | success drops that id's rows; failure keeps the rows and records the message or "Failed to delete expense"; the mark is cleared either way |
| `ExpensesList.ListView.HandleDelete` | frontend/src/components/ExpensesList.tsx:53-65 | a whole delete; with the corrected rendering its failure message is always visible; the status never changes |
| `UploadExpenseForm.ContentTypeOf` | frontend/src/components/UploadExpenseForm.tsx:28 | the file's type, or "application/octet-stream" when it has none; never empty |
| `UploadExpenseForm.PutRequest` | frontend/src/components/UploadExpenseForm.tsx:31-37 | a PUT of the file to the ticket URL with the same content type, without cookies |
| `UploadExpenseForm.AttachCall` | frontend/src/components/UploadExpenseForm.tsx:39 | the attach call patches only `fileKey` |
| `UploadExpenseForm.UploadErrorMessage` | frontend/src/components/UploadExpenseForm.tsx:52-60 | an `Error`'s or a plain object's message as it is, even when empty; the fallback for anything else |
| `UploadExpenseForm.UploadForm.constructor` | frontend/src/components/UploadExpenseForm.tsx:17-19 | no error and no file |
| `UploadExpenseForm.UploadForm.VisibleError` | frontend/src/components/UploadExpenseForm.tsx:94 | shown exactly for a non-empty message |
| `UploadExpenseForm.UploadForm.SelectFile` | frontend/src/components/UploadExpenseForm.tsx:82-86 | the selection replaces the file and clears the error |
| `UploadExpenseForm.UploadForm.Upload` | frontend/src/components/UploadExpenseForm.tsx:23-40 | the sign, write and attach requests are made in order, each only after the previous one settled without throwing; the write's status is never checked; the first failure is reported |
| `UploadExpenseForm.UploadForm.OnSuccess` | frontend/src/components/UploadExpenseForm.tsx:41-51 | the file and the input are cleared; the listing and this expense's entry are invalidated, so every entry is stale |
| `UploadExpenseForm.UploadForm.OnError` | frontend/src/components/UploadExpenseForm.tsx:52-60 | the failure's message is recorded and the file kept |
| `UploadExpenseForm.UploadForm.Submit` | frontend/src/components/UploadExpenseForm.tsx:63-70 | without a file nothing is sent and a prompt is shown; with one, the sign request first, then the write to the ticket's URL only when signing succeeded, then the attach call only when the write settled; a failed sign sends nothing more; a failure keeps the file and shows its message; a success clears the file and invalidates both entries |
| `Conformance.ServerEnvelopeDecoded` | frontend/src/lib/api.ts:19-22 | a 2xx `{data}` answer reaches the caller of either helper as its payload |
| `Conformance.RefusalsShowFallbacks` | frontend/src/lib/api.ts:10-13 | every refusal reaches the list and the add form as their fallback text, and the upload form as the response text |
| `Conformance.TicketPassesThrough` | server/routes/upload.ts:37 | the ticket reaches the upload form whole, with no envelope to remove |
| `Conformance.SignRequestMatchesWrite` | frontend/src/components/UploadExpenseForm.tsx:26-37 | the form's sign request passes the server schema for a named file; the write URL is signed for exactly the content type the direct write declares; an unnamed file is refused |
| `Conformance.AttachBodyAccepted` | server/routes/expenses.ts:36 | the attach body passes the update schema as a lone `fileKey` |
| `Conformance.IssuedKeyNonEmpty` | server/routes/upload.ts:27 | an issued key is never empty, so the attach body is always accepted |
| `Conformance.NullFileKeyRefused` | frontend/src/lib/api.ts:60 | the client type allows a null `fileKey`, which the server refuses |
| `Conformance.AddFormPayloadAccepted` | frontend/src/components/AddExpenseForm.tsx:63-68 | once the form's gate passes, the server accepts the payload exactly when the trimmed title has at most 100 characters and the amount is at least one half |
| `Conformance.RpcEnvelopeRoundTrip` | frontend/src/lib/rpc.ts:5 | the server reads back the name and params the client sent, for the three names, and refuses any other name |
| `Conformance.ListingsAgreeUpToSigning` | server/routes/rpc.ts:24-27 | the two list answers over one table hold the same rows, up to the download-URL rule |
| `Conformance.ListingsDiverge` | server/routes/expenses.ts:99-103 | a row holding a storage key is listed differently by the two transports |
| `Conformance.BlankTitleServerOnly` | server/routes/expenses.ts:21 | a title of three spaces passes the server's title schema, but the add form's gate refuses it |
| `Conformance.CreateOverBothTransports` | server/routes/rpc.ts:28-32 | one create body stores the key through the resource transport and no file through the method transport |
| `Conformance.DeleteTwice` | server/routes/expenses.ts:126-134 | a second delete of the same id is a 404 and the row stays gone |

## Left out

- Authentication is a boolean verdict per request. The session store and identity provider are not modelled, and neither is the user profile the gate stores.
- The object-store client, bucket configuration and signing are not modelled. The presigner is a function from request to URL, and a thrown presigner error is None.
- The table's own definition, server/db/schema.ts, is not part of this model. Its columns are assumed to be exactly id, title, amount and a nullable fileUrl that defaults to null, with no `fileKey` column. `ExpenseSchemas.RowJson`, `ExpenseStore.ExpenseTable.Insert` and `RpcRoute.Dispatch` rest on that assumption.
- The `console.error` that logs a failed download-URL signing (server/routes/expenses.ts:92) is not modelled. Logging is output only: the row is returned unchanged either way.
- The database is a map from id to row with a counter for new ids. SQL, connection handling and the integer column width are not modelled.
- The framework's own answers are the markers `Rejected` and `Threw`: the validator's 400 issue list and the error handler's 500 for an escaping exception are not modelled.
- A path id that is not all digits never reaches the handlers (the route pattern), so ids are natural numbers.
- JSON text is not modelled. Bodies are parsed values, and a body that is not JSON is the message `res.json()` throws.
- Numbers: integral values are unbounded integers. Other numbers carry only their rendered text. Precision limits and the exponent form of very large numbers are not modelled.
- String lengths count characters, where JavaScript counts UTF-16 code units.
- `Number(amount)` is the parameter `toNumber`. The browser's own constraint checks on the number field (`min`, `step`, `required`) are not modelled.
- Decoding `data` into typed `Expense` records is an unchecked cast in the client. The list component's load result is typed input, so a 2xx answer of another shape is not modelled.
- `UploadExpenseForm.UploadForm.Upload`: the ticket and write results are typed inputs. A sign answer without string `uploadUrl` and `key` is not modelled.
- `AddExpenseForm.Form.Submit`: treats any settled call that did not throw as success. The `onCreated` callback (navigation) is left out. So is the `TypeError` that reading `data.expense` on a 204 would raise.
- The query cache keeps only the listing entry and a log of operations. Refetching after invalidation and in-flight cancellation belong to the library and are not modelled.
- Concurrency is not modelled: overlapping mutations, the `isPending` button state, the two invalidations awaited together, and interleavings of a load with a delete. Each handler and each mutation is one sequential step.
- Rendering is not modelled beyond which error text is shown (the markup, the loading and empty-state messages, and the delete button label).
- `Math.round` of negative halves, where JavaScript gives -0, is not modelled. The rounded amount is positive or zero here.

## Findings

| source | as written | input that shows it | evidently intended | confidence | as-written member | corrected member |
|---|---|---|---|---|---|---|
| frontend/src/components/ExpensesList.tsx:78-80 | the error paragraph renders only while the status is "error", but a failed delete records its message without changing the status | list loaded (status "ready"), then a delete answered 404: the error becomes "Failed to delete expense" and nothing is shown | a failed delete's message is shown | medium; not executed | `ExpensesList.ShownErrorAsWritten` | `ExpensesList.ShownError` |

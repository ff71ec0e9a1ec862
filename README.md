# Employee registry (pegawai) — a Dafny model

The system keeps a register of civil-service employees. A server holds one SQLite
table, `employees`. Its rows are keyed by an auto-incremented id, and no two rows
share a `nip`. The server answers JSON requests that list, fetch, create, overwrite
and delete records, and one request that returns per-unit and per-rank counts. A
React dashboard fetches the list and filters it by a search term. It counts the
structural positions, colours each status badge, and edits a record in a form of
three sections. Documents are uploaded into the record being edited, and saving
sends it back as a PUT or a POST.

The model is split into four files:

- `js_values.dfy` (module `JsValues`) holds the JavaScript values and built-ins the
  code relies on: JSON values, truthiness, `String(n)`, `includes`, ASCII
  `toLowerCase` and `Array.prototype.filter`.
- `types.dfy` (module `EmployeeTypes`) holds the record and statistics shapes of
  `src/types.ts`, and the JSON object a row is sent as.
- `record_store.dfy` (module `RecordStore`) holds the request handlers of
  `server.ts`:
  - the default rules for fields a request leaves out;
  - class `EmployeeTable`, whose fields `rows` and `nextId` are the table and its
    AUTOINCREMENT counter. Create, Update and Delete change them in place, and
    List, Get and Summary read them.
- `app.dfy` (module `App`) holds the logic of `src/App.tsx`:
  - the pure routines (search, structural count, badge, section navigation,
    request choice, error message and upload effect);
  - class `Editor`, whose fields are the form state that the click and submit
    handlers update: `formSection`, `editing` (`editingEmployee`), `isModalOpen`,
    `isSaving` and `uploading` (`isUploading`).

Some things are parameters rather than modelled:

- The page origin.
- `JSON.stringify`.
- The creation timestamp, which stands in for SQLite's `CURRENT_TIMESTAMP`.
- What `fetch` returns, given as an outcome value.
- The message of a TypeError raised by the JavaScript engine.

Methods return the alert a handler would show, as a value.

A ghost set `issued` records every id the table has ever handed out. It lets the
model state that ids are never reused, even after a delete.

## Model

| member | source | states |
|---|---|---|
| JsValues.Filter | src/App.tsx:197-201 | `filter` keeps every copy of each element that passes the test and no copy of any other, so it never lengthens the list |
| JsValues.FilterLength | src/App.tsx:316 | the length of a filtered list is the number of positions whose element passes the test |
| JsValues.FilterIsSubsequence | src/App.tsx:197-201 | a filtered list is a subsequence of the list, so order is kept |
| JsValues.FilterStronger | src/App.tsx:197-201 | filtering with a stronger test keeps a subsequence of what a weaker test keeps |
| JsValues.IncludesTransitive | src/App.tsx:198-200 | `includes` is transitive |
| JsValues.LowerPreservesIncludes | src/App.tsx:198-200 | lower-casing both strings keeps every occurrence |
| JsValues.Lower | src/App.tsx:198-200 | `toLowerCase` keeps the length, turns each upper-case ASCII letter into its lower-case letter, keeps every other character, and leaves no upper-case letter |
| JsValues.LowerIdempotent | src/App.tsx:198-200 | lower-casing an already lower-cased text changes nothing |
| JsValues.IntText | src/App.tsx:93 | `String(n)` starts with a minus sign exactly for negative numbers and reads back as `n` |
| JsValues.JsString | src/App.tsx:93 | `String(v)` of a string is the string, of a number reads back as the number, and of an object is `[object Object]` |
| JsValues.NatTextRoundTrip | src/App.tsx:93 | the decimal text of a natural number reads back as that number |
| JsValues.IntTextInjective | src/App.tsx:93 | different ids give different `${id}` texts |
| EmployeeTypes.ParseStatus | src/types.ts:11 | a text is one of the five status literals exactly when parsing finds that status |
| EmployeeTypes.StatusRoundTrip | src/types.ts:11 | each status literal parses back to its status |
| EmployeeTypes.ToJson | src/types.ts:1-17 | a row is sent as an object with exactly the fifteen column keys |
| EmployeeTypes.ToJsonId | src/types.ts:2 | the object carries the numeric id under `id` |
| EmployeeTypes.ToJsonText | src/types.ts:3-11 | the object carries every other non-document field as a string |
| EmployeeTypes.ToJsonDocuments | src/types.ts:12-15 | the object carries each document path as a string or `null` |
| RecordStore.BodyOf | server.ts:116 | the destructured body holds exactly the string members of the parsed JSON |
| RecordStore.Normalised | server.ts:126-140 | the written row keeps id and creation time; with nip and name present, stores them and is well formed; other text fields default to `''`, the status to `'ASN'`, paths to null |
| RecordStore.NormalisedRoundTrip | server.ts:126-140 | sending any stored row back as fetched writes that same row |
| RecordStore.OmittedFieldsReset | server.ts:163-173 | a field missing from the body reads back as `''`, `'ASN'` or null, never as its old value |
| RecordStore.UndeclaredStatusIsStored | server.ts:135 | no status check: a status outside the five literals is stored as given |
| RecordStore.NameLeqTotal | server.ts:97 | any two names compare one way or the other |
| RecordStore.NameLeqTransitive | server.ts:97 | the name order is transitive |
| RecordStore.InsertByName | server.ts:97 | inserting into a name-sorted list keeps it sorted and adds exactly that row |
| RecordStore.SortByName | server.ts:97 | the sorted list is a permutation of the input in which names never descend |
| RecordStore.SortKeepsMembers | server.ts:97 | sorting keeps the number of rows and which rows there are |
| RecordStore.IdsInRange | server.ts:41 | the ids of a key set, strictly increasing, each exactly once |
| RecordStore.InIdOrder | server.ts:41 | the table's rows in increasing id order, each row once, each filed under its own id |
| RecordStore.InIdOrderHoldsTheRows | server.ts:41 | the rows listed in id order are exactly the table's rows |
| RecordStore.AddToGroup | server.ts:194 | counting one more row adds one to its label's group (or opens it) and one to the total |
| RecordStore.GroupBy | server.ts:194-195 | `GROUP BY`: labels are distinct and are exactly the column's values; each count is the label's number of rows; counts sum to the row count |
| RecordStore.GroupCounts | server.ts:194-195 | every group counts its own label, and at least one row |
| RecordStore.BodyJson | server.ts:98-197 | the list is sent as an array and every other reply as an object; only a refusal carries an `error` member, holding its message; a creation carries the new `id`; the array has one element per listed row |
| RecordStore.UploadReply | server.ts:101-104 | no file gives 400 `No file uploaded`; a stored file gives 200 with `/uploads/<name>` |
| RecordStore.EmployeeTable.constructor | server.ts:39-57 | an empty table whose counter starts at 1 |
| RecordStore.EmployeeTable.List | server.ts:96-99 | 200 with exactly the stored rows, each once, sorted by name |
| RecordStore.EmployeeTable.Get | server.ts:106-113 | 200 with the row filed under the id, or 404 `Employee not found` |
| RecordStore.EmployeeTable.Summary | server.ts:193-198 | 200; total is the row count; per-unit and per-rank groups are distinct, count their labels, name every row's label and sum to the total |
| RecordStore.EmployeeTable.ScanCoversColumns | server.ts:194-195 | every row's unit and rank occur in the columns being grouped |
| RecordStore.WriteKeepsNipsUnique | server.ts:42 | writing a row under an id keeps every nip in the table distinct when no row under another id holds the row's nip |
| RecordStore.EmployeeTable.Create | server.ts:115-146 | 400 and no change without nip or name, or on a nip in use; otherwise stores the normalised row under the counter's id, larger than every id handed out, and replies 201 with it |
| RecordStore.EmployeeTable.Update | server.ts:148-186 | 400 without nip or name; 404 for an absent id; 400 on another row's nip; all three change nothing; otherwise overwrites the row with the normalised body, keeping id and creation time |
| RecordStore.EmployeeTable.Delete | server.ts:188-191 | removes that id's row (if any) and nothing else; always 200; a later Get is 404 |
| RecordStore.OverwriteExample | server.ts:115-186 | on an empty table: a create gives id 1 and status `ASN`; an update without a position clears it |
| App.FilterEmployees | src/App.tsx:197-201 | the shown rows are a subsequence of the list, holding exactly the rows whose name, nip or position match; an empty term shows all |
| App.NarrowingSearchKeepsFewer | src/App.tsx:197-201 | a term that contains an earlier term shows a subsequence of what the earlier term showed |
| App.StructuralCount | src/App.tsx:316 | the number of list positions whose position names `kepala` or `kabid` after lower-casing; so at most the number of rows, and non-zero exactly when some row is structural |
| App.BadgeFor | src/App.tsx:420-422 | emerald exactly for `ASN`, blue exactly for `Calon PNS`, amber exactly for other statuses with `P3K`, zinc for the rest |
| App.DeclaredStatusBadges | src/App.tsx:420-422 | the five declared statuses: emerald, blue, amber, amber, zinc |
| App.StatusOptionsDeclared | src/App.tsx:639-644 | every non-blank option is a declared status, and `Aktif` is the only declared status not offered |
| App.BlankStatusStoredAsAsn | src/App.tsx:639 | the blank placeholder option is stored as `ASN` |
| App.NextSection | src/App.tsx:733-736 | Next moves one step forward where its button shows, and is a no-op on the last section |
| App.PrevSection | src/App.tsx:719-722 | Previous moves one step back where its button shows, and is a no-op on the first section |
| App.NextPrevInverse | src/App.tsx:716-741 | Previous undoes Next and Next undoes Previous |
| App.NextWalksTheForm | src/App.tsx:716-741 | two Next clicks go from personal to documents, where Next is hidden |
| App.SaveRequest | src/App.tsx:89-97 | PUT to `/api/employees/<id>` with the draft unchanged exactly when the id is truthy; otherwise POST to `/api/employees` without `id` and with every other member kept |
| App.UpdateUrlsDistinct | src/App.tsx:93 | two different numeric ids are PUT to different URLs |
| App.EditWithoutChangesRewritesSameRecord | src/App.tsx:395-397 | saving a fetched row unedited is a PUT to its id, and the server writes back the same row |
| App.EmptyFormIsRefused | src/App.tsx:273 | the empty add form is POSTed with an empty payload, which lacks nip and name |
| App.SaveErrorMessage | src/App.tsx:119-133 | the message is a truthy `error`, then a truthy `message` (objects stringified), then the whole body stringified; an unreadable or `null` body gives `Server Error (<status>)…` |
| App.ServerErrorShownVerbatim | src/App.tsx:124-125 | any non-empty server refusal message is shown as it is |
| App.RefusalsShownVerbatim | src/App.tsx:124-125 | the server's four refusal messages are each shown as they are |
| App.UploadEffectOf | src/App.tsx:164-176 | a non-ok reply fails with its truthy `error` or the default; an ok reply merges a truthy `path`; a thrown error or `null` body fails with that message |
| App.ServerUploadEffects | src/App.tsx:164-172 | the server's upload replies give: a stored file's path merged, a missing file failing with the server's message |
| App.WithMember | src/App.tsx:171 | the spread update sets the member to the value and keeps every other member as it was |
| App.UploadedPathIsStored | src/App.tsx:171 | an uploaded path in a document field is stored by the server on save |
| App.Editor.constructor | src/App.tsx:50-55 | closed form on the personal section, nothing edited, saved or uploaded |
| App.Editor.OpenForCreate | src/App.tsx:272-276 | an empty draft, the personal section, form open |
| App.Editor.OpenForEdit | src/App.tsx:394-398 | the row's JSON as the draft, the personal section, form open |
| App.Editor.Close | src/App.tsx:475 | the form closes and keeps its draft and section |
| App.Editor.EditField | src/App.tsx:544 | the draft gets the typed value under the key, every other member kept |
| App.Editor.SelectSection | src/App.tsx:502 | the chosen section becomes current, nothing else changes |
| App.Editor.Next | src/App.tsx:733-736 | the section becomes NextSection of the section at the click; nothing else changes |
| App.Editor.Prev | src/App.tsx:719-722 | the section becomes PrevSection of the section at the click; nothing else changes |
| App.Editor.UploadDocument | src/App.tsx:144-181 | no file: nothing; over 5 MiB: the size alert, no request, nothing changes; otherwise the request is made, its effect applied to the draft or alerted, and the field is no longer uploading |
| App.Editor.Save | src/App.tsx:84-142 | sends SaveRequest of the draft; an ok reply closes the form and drops the draft; otherwise alerts SaveErrorMessage or the connection message and keeps the form; saving ends |

## Left out

- HTTP plumbing is not part of this model: Express, Vite wiring, static serving of
  `/uploads`, the SPA fallback, `listen`, and `express.json` body parsing.
- Rendering is left out: React rendering, charts and animations. `console`
  logging and `confirm` are also left out. Alerts are returned as values.
- `fetch` and the asynchronous ordering of handlers are not modelled. Each handler
  runs to completion against the outcome it is given.
- The refetch of the list and the statistics after a save or a delete is left
  out, and so is `handleDelete`, which only calls the server's delete and
  refetches.
- The Multer disk storage, the upload file names built from `Date.now()` and
  `Math.random()`, and the 10 MiB server limit are left out. UploadReply takes the
  stored file name as a parameter.
- The startup column migration and the seed rows are left out. The seed rows leave
  `address` NULL, which a row created through the API never does.
- The request body keeps only its string members. Numbers, booleans, arrays and
  objects at a field's key are left out, because their storage depends on
  better-sqlite3 binding and SQLite column affinity.
- The `:id` route segment is taken to be an integer. A segment that is not a
  number matches no row in SQLite, and that case is not modelled.
- The `created_at` default (`CURRENT_TIMESTAMP`) is the `createdAt` parameter of
  Create.
- The name order of `ORDER BY name` is code-point order. Among rows with equal
  names no order is stated, because SQLite leaves it unspecified.
- The order of the groups in the statistics is not stated, because SQLite's
  `GROUP BY` leaves it unspecified.
- The statistics are one read of one table state. The three separate queries
  cannot interleave with writes here.
- Numbers are unbounded integers. SQLite caps row ids at 2^63 − 1 and JavaScript
  numbers are exact only up to 2^53; neither limit is modelled, and a table would
  need that many rows to reach them. Fractional numbers are not modelled either.
- `toLowerCase` is modelled on ASCII letters only; full Unicode case mapping is
  left out.
- `JSON.stringify` is a function parameter. The key order of the text it
  produces is not modelled.
- The TypeError that the engine raises when a member of a `null` body is read has
  its message passed in as a parameter.
- The browser's `required` form validation, which stops a submit with empty
  fields, is not modelled. Save sends whatever the draft holds.
- The reset of the file input (`e.target.value = ''`) is left out.
- App.Editor.UploadDocument: does not model the period of time during which
  `isUploading` names the field, because the model has no concurrency.
- Because the store's message is SQLite's, a nip clash replies with
  `UNIQUE constraint failed: employees.nip`. The model uses this text; the
  repository does not contain it.

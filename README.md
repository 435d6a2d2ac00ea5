# Client-record table of the company-formation portal, in Dafny

This project models the data core of a demo admin/client portal for a
company-formation service. The portal keeps one table of client records in
two places with the same shape. The browser-only build keeps it in local
storage (`assets/js/portal.js`). The server keeps it in a JSON data file
(`server/db.js`). On top of the server store sit the request handlers of
`server/server.js`.

A client record holds an id, a name, an email, a credential, a business
name, a status, an 8-digit business number, and three child lists:
documents, payments and tickets. New children always go to the front of
their list. The credential is the plain `pass` in the browser and the
bcrypt `passwordHash` on the server; both are the `cred` field here.

Modules, one per concern:

- `Records` (records.dfy): the record, document, payment and ticket
  shapes. A `Patch` is a partial record, and `Merge` is the object spread
  `{ ...c, ...patch }`. `Get`/`Lookup` read one key of a record or a patch.
  `AddEntry` is the `unshift` of a child entry.
- `Table` (table.dfy): the operations on the ordered table that both stores
  share. These are first-match lookup by id or by email and credential,
  removal by id (`filter`), a patch or child entry applied to the first
  record with an id, and the invariant that ids are unique.
- `Decimal` (decimal.dfy): the random business number rendered in decimal.
- `Portal` (portal.dfy): the browser store as a class `LocalStore` whose
  `clients` field is the stored array. Also the admin page's data rules
  (create with the formation fee, status toggle, password reset) and the
  client page's rules (profile save, ticket form).
- `ServerDb` (server_db.dfy): the server store as a class `Db` whose
  `clients` field is `data.clients`.
- `Filenames` (filenames.dfy): the stored upload name, in which each
  whitespace run becomes `_`.
- `Api` (api.dfy): the request handlers. Each returns a status code and a
  payload, and each state-changing handler drives a `Db`.

Parameters stand in for randomness, the clock and foreign code:

- generated ids (`uid()`, `nanoid()`);
- the integer part `draw` of `Math.random()*9e7`;
- ISO timestamps;
- the bcrypt hash, as `hash: string -> string`; it stands for the one salted `hashSync` call the request makes, and no property relies on two calls agreeing;
- bcrypt comparison, as `compare`;
- JWT verification, as `verify: string -> bool`;
- the signed token string.

## Model

| member | source | states |
|---|---|---|
| `Records.Merge` | assets/js/portal.js:37 | every key the patch carries takes the patch's value; every other key keeps the record's value |
| `Records.MergeNoPatch` | server/db.js:53 | merging the empty patch leaves the record as it was |
| `Records.MergeIdempotent` | server/db.js:53 | merging the same patch twice equals merging it once |
| `Records.MergeThen` | assets/js/portal.js:37 | two successive merges equal one merge of the combined patch |
| `Records.MergeWhole` | server/db.js:53 | a patch carrying every key replaces the record outright |
| `Records.LookupThen` | assets/js/portal.js:37 | in the combined patch a key comes from the later patch if it carries it, else from the earlier one |
| `Records.GetDetermines` | assets/js/portal.js:3 | two records that agree on every key are equal |
| `Records.FormationFee` | server/db.js:41 | the seed payment is the `Company formation fee` of 399, status `Paid`, with the given id and date |
| `Records.AddEntry` | server/db.js:66 | the new entry is at index 0; the list grows by exactly one; the older entries follow unchanged; no other key changes |
| `Records.EntryPatch` | assets/js/portal.js:66 | the write-back patch carries exactly one key, the entry's list, and its value is that list after the unshift |
| `Records.MergeEntryPatch` | assets/js/portal.js:65-66 | the browser's unshift followed by `update(id, {docs})` has the same effect on the record as the server's in-place unshift |
| `Table.FirstIndex` | assets/js/portal.js:35 | returns the first index whose record satisfies the predicate, or nothing when no record does |
| `Table.IndexOf` | server/db.js:51 | returns the first index with that id; nothing exactly when no record has the id |
| `Table.FindById` | assets/js/portal.js:47 | returns the first record with the id, or nothing exactly when no record has it (also `getClient`, server/db.js:27-29) |
| `Table.FindByCred` | server/db.js:30-32 | returns the first record whose email and credential both equal the inputs, or nothing exactly when none matches (also `findByCred`, assets/js/portal.js:48) |
| `Table.Without` | server/db.js:59 | no kept record has the id; the kept records are exactly the records of the table with another id; the table never grows |
| `Table.WithoutKeepsOthers` | assets/js/portal.js:43 | every record with another id occurs in the result as often as in the table |
| `Table.WithoutAbsent` | server/db.js:57-61 | removing an id that no record carries leaves the table unchanged |
| `Table.WithoutIdempotent` | assets/js/portal.js:42-45 | removing twice gives the same table as removing once |
| `Table.WithoutAppend` | assets/js/portal.js:43 | removal distributes over concatenation, so kept records keep their order |
| `Table.AppendFresh` | assets/js/portal.js:29 | appending a record with a fresh id keeps ids unique, and the new record is then the one found by its id |
| `Table.WithoutUnique` | server/db.js:59 | removal keeps ids unique |
| `Table.UpdateAt` | server/db.js:49-55 | an unknown id leaves the table unchanged; otherwise only the first record with the id changes, to the merge; the length is kept |
| `Table.UpdateUnique` | assets/js/portal.js:33-39 | a patch without an `id` key keeps ids unique |
| `Table.AddToClient` | server/db.js:62-68 | an unknown client leaves the table unchanged; otherwise only the first record with the id changes, by `AddEntry`; the length is kept |
| `Table.AddToClientUnique` | server/db.js:70-76 | adding a child entry keeps ids unique |
| `Decimal.ToDecimal` | assets/js/portal.js:26 | the numeral is non-empty, all digits, with no leading zero for numbers of two or more digits |
| `Decimal.ParseToDecimal` | assets/js/portal.js:26 | reading back the numeral of `n` gives `n` |
| `Decimal.ToDecimalLength` | server/db.js:34 | a number in [10^(k-1), 10^k) has a numeral of exactly k digits |
| `Decimal.BusinessNumber` | server/db.js:34 | the business number is 8 decimal digits, with no leading zero, and its value is 10000000 + draw |
| `Portal.LocalRecord` | assets/js/portal.js:26-27 | the created record has the given id, and the form's name, email, password, business and status; it has an 8-digit numeric business number and empty docs, payments and tickets |
| `Portal.LocalDoc` | assets/js/portal.js:61-62 | without a file the document's name is its type and its data URL is null; with a file it holds the file's data URL and is named by the file's name, or by its type when that name is empty |
| `Portal.LocalPayment` | assets/js/portal.js:72 | the new payment has the fresh id and the current date, and the caller's description, amount and status |
| `Portal.SameFormationFee` | assets/js/portal.js:99 | the fee the admin page adds equals the server's seed payment |
| `Portal.LocalTicket` | assets/js/portal.js:78 | a new ticket has status `Open` and the given subject and body |
| `Portal.NextStatus` | assets/js/portal.js:182 | the result always differs from the input; it is `On Hold` exactly when the input is `Active`, and `Active` otherwise |
| `Portal.ToggleTwice` | assets/js/portal.js:182 | toggling twice restores the status exactly when it is `Active` or `On Hold` |
| `Portal.LocalStore.constructor` | assets/js/portal.js:14-17 | the store starts from the stored array |
| `Portal.LocalStore.Create` | assets/js/portal.js:25-31 | appends exactly one record at the end, built by `LocalRecord`, and returns it; earlier records are unchanged |
| `Portal.LocalStore.Update` | assets/js/portal.js:33-40 | the new table is `UpdateAt` of the old one; returns nothing exactly when the id is absent, else the merged record |
| `Portal.LocalStore.Remove` | assets/js/portal.js:42-45 | the new table is `Without` of the old one |
| `Portal.LocalStore.AddEntryVia` | assets/js/portal.js:63-66 | looking up the client, unshifting and writing the list back through `Update` yields `AddToClient` of the old table |
| `Portal.LocalStore.AddDoc` | assets/js/portal.js:60-68 | the new table is `AddToClient` with the new document; returns the document exactly when the client exists |
| `Portal.LocalStore.AddPayment` | assets/js/portal.js:70-74 | the new table is `AddToClient` with the new payment; an unknown client is a no-op |
| `Portal.LocalStore.AddTicket` | assets/js/portal.js:76-80 | the new table is `AddToClient` with a new open ticket; an unknown client is a no-op |
| `Portal.CreateFormComplete` | assets/js/portal.js:97 | the form is accepted exactly when none of name, email, password and business is empty |
| `Portal.AdminCreate` | assets/js/portal.js:97-99 | an incomplete form changes nothing; otherwise the record is appended and the formation fee is added to the first record with its id |
| `Portal.AdminCreateSeedsFee` | assets/js/portal.js:97-99 | with a fresh id the new client is last and has exactly one payment, `Company formation fee`, 399, `Paid`; earlier records are unchanged |
| `Portal.AdminToggleStatus` | assets/js/portal.js:180-184 | only the record's `status` changes, to `NextStatus` of its old value |
| `Portal.AdminResetPassword` | assets/js/portal.js:185-187 | an empty or cancelled prompt changes nothing; otherwise only the password is patched |
| `Portal.ClientSaveProfile` | assets/js/portal.js:274-279 | name, email and password are patched together into the client's record |
| `Portal.ClientSubmitTicket` | assets/js/portal.js:285-288 | an empty subject or body changes nothing; otherwise an open ticket is added to the client |
| `ServerDb.ServerRecord` | server/db.js:33-43 | the created record has the given name, email, business and status, the given hash as its credential, an 8-digit numeric business number, no docs or tickets, and exactly one payment: `Company formation fee`, 399, `Paid` |
| `ServerDb.Db.constructor` | server/db.js:15-17 | the store starts from the table read from the data file |
| `ServerDb.Db.CreateClient` | server/db.js:33-48 | appends exactly one record, built by `ServerRecord`, and returns it |
| `ServerDb.Db.UpdateClient` | server/db.js:49-56 | an unknown id returns null and changes nothing; otherwise the new table is `UpdateAt` and the merged record is returned |
| `ServerDb.Db.RemoveClient` | server/db.js:57-61 | the new table is `Without` of the old one |
| `ServerDb.Db.Unshift` | server/db.js:64-66 | the new table is `AddToClient` of the old one; reports whether the client exists |
| `ServerDb.Db.AddDoc` | server/db.js:62-69 | an unknown client returns null and changes nothing; otherwise the document is prepended and returned unchanged |
| `ServerDb.Db.AddTicket` | server/db.js:70-77 | an unknown client returns null and changes nothing; otherwise the ticket is prepended and returned unchanged |
| `Filenames.IsSpace` | server/server.js:80 | `\s` includes the space and the ASCII controls tab to carriage return, and excludes letters, digits, `-` and `_` |
| `Filenames.DropSpaces` | server/server.js:80 | the result is no longer than the input and does not start with whitespace |
| `Filenames.Collapse` | server/server.js:80 | the cleaned name is never longer than the original |
| `Filenames.CollapseHasNoSpace` | server/server.js:80 | the cleaned name holds no whitespace |
| `Filenames.CollapseNoSpace` | server/server.js:80 | a name without whitespace is kept as it is |
| `Filenames.CollapseIdempotent` | server/server.js:80 | cleaning twice equals cleaning once |
| `Filenames.CollapseRun` | server/server.js:80 | a whitespace run between two parts becomes exactly one `_`; the parts on either side are cleaned independently |
| `Filenames.StoredFilename` | server/server.js:80 | the stored name is the generated id, then `-`, then the original name with each whitespace run replaced by `_`; that part has no whitespace |
| `Api.BearerToken` | server/server.js:32-33 | the token is `x` exactly when the header is `Bearer ` followed by `x`; a missing header gives no token |
| `Api.Authorized` | server/server.js:31-37 | a request passes exactly when the header is `Bearer ` followed by a non-empty token that verifies |
| `Api.MissingTokenRejected` | server/server.js:34 | no header, or a bare `Bearer `, is rejected |
| `Api.AdminLogin` | server/server.js:39-45 | 200 with the token exactly for `admin@incorpx.local` / `admin`; every other input gives 401 |
| `Api.HandleListClients` | server/server.js:48-50 | 401 without authorisation, else 200 with the whole table |
| `Api.CheckCreate` | server/server.js:53-55 | rejects exactly when name, email, password or business is missing or empty; the status defaults to `Active` only when absent; the stored credential is the hash of the password |
| `Api.HandleCreateClient` | server/server.js:52-58 | 401, or 400 with the table unchanged, or 201 with the record appended by `CreateClient` |
| `Api.RewritePassword` | server/server.js:62-66 | a truthy `password` becomes `passwordHash` = its hash; every other key passes through unchanged |
| `Api.HandlePatchClient` | server/server.js:60-70 | 401; otherwise the table is `UpdateAt` with the rewritten patch, and the answer is 404 for an unknown id or 200 with the merged record |
| `Api.HandleDeleteClient` | server/server.js:72-75 | 401, or 200 `{ok: true}` with the id removed |
| `Api.UploadedDoc` | server/server.js:86-95 | the type defaults to `Document`; the name is the original file name; the path is `StoredFilename` of the generated id and the original name, so it is the id, `-`, and a whitespace-free name; the URL is `/files/` + path |
| `Api.HandleUploadDoc` | server/server.js:84-98 | 401; 400 without a file, table unchanged; otherwise 201 with the document, which is prepended when the client exists |
| `Api.ClientLoginMatch` | server/server.js:104 | returns the first record whose email equals the input and whose stored hash matches the password, or nothing exactly when none does |
| `Api.HandlePortal` | server/server.js:110-115 | 404 exactly when the id is missing or unknown; otherwise 200 with the first stored record that has the id |
| `Api.HandleCreateTicket` | server/server.js:117-124 | 400 without a subject or body, table unchanged; otherwise 201 with an open ticket, which is prepended when the client exists |

## Left out

- Local storage, session storage, `FileReader` and JSON parsing in the browser (assets/js/portal.js:14-21, 50-58) are I/O. The store is the `clients` field. `list()` and `listClients()` are reads of that field. Malformed JSON resetting to an empty table is not modelled.
- The filesystem reads and writes, directory creation and JSON serialisation of server/db.js:10-21 are I/O. The initial `admin` entry of the data file is never read by the handlers and is not modelled.
- Export, import and wipe in the admin page (assets/js/portal.js:114-130) are browser I/O. The export/import round trip is therefore not modelled.
- DOM rendering, navigation, dialogs, alerts and prompts of the admin and client pages are presentation. Input trimming is part of reading the form, so the form rules take already-trimmed strings.
- The client page's session restore and login screen (assets/js/portal.js:200-228) are presentation over `FindById` and `FindByCred`.
- bcrypt, JWT signing and verification, `nanoid`, `crypto.getRandomValues`, `Math.random` and `Date` are parameters. The floating-point arithmetic of `Math.floor(1e7 + Math.random()*9e7)` is reduced to an integer `draw` below 90000000.
- Id uniqueness is not enforced by either store. Creation appends whatever id it is given. The uniqueness lemmas assume a fresh id.
- Express routing, multer's disk write, CORS, static serving, `app.listen` and the health endpoint are framework plumbing.
- The client-login handler beyond its first-match rule: server/server.js:106-107 do not parse.
- `Api.ClientLoginMatch`: an absent email or password in the login body is not modelled; bcrypt would throw on an absent password.
- `Portal.LocalPayment`: the caller's fields are spread after `id` and `dateISO`, so a caller passing either key would override it. The model's caller fields are only description, amount and status, the keys the one caller passes (assets/js/portal.js:99).
- Request bodies are typed records. Keys outside the client record are not modelled. Neither are non-string values, such as a numeric `status`.
- `Api.RewritePassword`: a present but empty `password` stays in the real patch and would be merged into the record as a stray `password` key. The model drops it, because the record type has no such key.
- `Portal.AdminToggleStatus` requires the record to exist. The page reads `c.status` of the lookup result, which throws for an unknown id.
- Lost updates between overlapping requests are concurrency and are not modelled.

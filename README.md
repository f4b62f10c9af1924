# Petty-cash expense workflow in Dafny

A model of the petty-cash reimbursement application: employees file expense
claims carrying a recipient signature and their own; a senior approves a
pending claim (adding a third signature) or rejects it with a reason; the
records can be listed, opened, exported as CSV and rendered as a PDF voucher.

Modules, one per concern of the application:

- `Models` (`models.dfy`): the `User` and `Expense` records, the role tests,
  the status tests and `has_all_signatures`. Role and status are the free
  strings the columns hold.
- `Config` (`config.dfy`): the values computed in the body of the `Config`
  class, as functions of an environment map and the base directory.
- `Listing` (`listing.dfy`): the view/export permission and the row
  selections of the list, the dashboard and the CSV export, written as the
  `filter_by` keyword arguments they pass to the database (`Filter`), with
  each selection proved equal to a plain statement of who sees what.
- `Signatures` (`signatures.dfy`): the data-URL header removal and the file
  name of a saved signature image.
- `Export` (`export.dfy`): the CSV lines and the two PDF tables as rows of
  cells.
- `App` (`app.dfy`): the class `PettyCash`, the store the handlers work on:
  expenses by id, the counter new ids come from, and the set of signature
  files on disk. `Create`, `Approve` and `Reject` change it in place; the
  read handlers do not. Its invariant `Valid` carries the record rules of the
  workflow: every stored expense is pending, approved or rejected; a pending
  one has no review data; an approved one has all three signatures and an
  approver with a time; a rejected one has a non-empty reason and no senior
  signature. Every stored signature reference names a file in the store's
  set of files; only the application writes to that set, and nothing removes
  a file from it.
- `Strings`, `Wrappers` (`strings.dfy`, `wrappers.dfy`): the Python string
  and path operations used (truthiness of an optional string, `startswith`,
  `replace(…, 1)`, `split`, `upper`, `os.path.join`) and `Option`.

Behaviour the model takes from the code:

- Creation refuses only seniors. A user whose role is neither `senior` nor
  `employee` may create and is treated as an employee everywhere.
- Approve and reject test the role before the lookup, so a non-senior gets
  a refusal, never a 404. The detail page and the PDF export look the
  expense up first, so an unknown id is a 404 for every role before the
  permission is checked.
- A signature image that cannot be decoded ends the request with an error
  (`DecodeFailed`) and no expense change. In creation the recipient image is
  saved before the employee image is decoded, so a failure of the second
  leaves the first file on disk.
- The `updated_at` column is bumped on approve and reject through its
  `onupdate` hook.
- A stored expense id comes from a counter, `nextId`. A query returns its
  rows newest first. Among equal `created_at` values the database leaves the
  order open; the model puts the row with the larger id first.

## Model

| member | source | states |
|---|---|---|
| `Models.RoleTests` | models.py:36-44 | `is_senior` iff role is `senior`, `is_employee` iff role is `employee`; never both; any other role satisfies neither |
| `Models.StatusTests` | models.py:85-99 | for draft, pending, approved or rejected exactly one status test holds; for any other status none does |
| `Models.NewExpense` | models.py:54-80 | a new row has the given columns, status `draft` when none is given, no senior signature, approver, approval time or rejection reason, and its timestamps from the insertion time |
| `Models.DefaultStatusIsDraft` | models.py:63 | a row created without a status is a draft, in no other status, and lacks a full set of signatures |
| `Models.AllSignaturesMeansNoneMissing` | models.py:101-108 | `has_all_signatures` holds iff each of the three references is set and non-empty |
| `Config.DbPath` | config.py:16-19 | `/tmp/pettycash.db` when `RAILWAY_ENVIRONMENT` is non-empty, otherwise `<basedir>/instance/pettycash.db` for a non-empty basedir not ending in `/` |
| `Config.RawDatabaseUrl` | config.py:22 | `DATABASE_URL` when set and non-empty, otherwise `sqlite:///` followed by the database path |
| `Config.SelectDriver` | config.py:25-26 | a leading `postgresql://` becomes `postgresql+psycopg://` with the rest unchanged; any other URL is unchanged; the result never starts with `postgresql://` |
| `Config.SelectDriverIdempotent` | config.py:25-26 | applying the rewrite twice equals applying it once |
| `Config.DatabaseUri` | config.py:22-28 | a non-empty `DATABASE_URL` goes through the driver rewrite; without it the URI is the SQLite URL; the final URI never starts with `postgresql://` |
| `Config.UploadFolder` | config.py:36-39 | `/data/signatures` on Railway, otherwise `<basedir>/static/signatures` for a non-empty basedir not ending in `/` |
| `Config.SecretKey` | config.py:12 | `SECRET_KEY` when set and non-empty, the development key otherwise |
| `Config.MaxContentLength` | config.py:40 | the request limit is 5 MiB, 5242880 bytes |
| `Config.RailwayDbPath` | config.py:17 | `/tmp` joined with `pettycash.db` is `/tmp/pettycash.db` |
| `Config.Load` | config.py:10-40 | the settings of the `Config` class: secret key, database URI (never `postgresql://`), upload folder, modification tracking off, a 24-hour session lifetime and a 5 MiB request limit |
| `Config.RailwayDatabaseUri` | config.py:16-28 | on Railway without `DATABASE_URL` the database URI is `sqlite:////tmp/pettycash.db` |
| `Config.RailwayDefaults` | config.py:16-40 | on Railway without `DATABASE_URL` the URI is `sqlite:////tmp/pettycash.db` and the folder `/data/signatures` |
| `Strings.ReplaceFirst` | config.py:26 | `replace(old, new, 1)` on a string starting with `old` puts `new` in place of that prefix |
| `Strings.Split` | app.py:445 | `split(',')` yields at least one piece, at least two iff the separator occurs, pieces without separators, and joining them back gives the input |
| `Strings.IndexOfFirst` | app.py:444-445 | the first separator is at `k` when `s[k]` is one and no earlier character is |
| `Strings.Upper` | app.py:309 | `upper()` keeps the length, turns each lower-case ASCII letter into its own capital and leaves every other character |
| `Strings.PathJoin` | config.py:17-19 | `os.path.join` keeps an absolute second part; otherwise it adds one `/` between the parts, or none when the first part is empty or already ends in `/` |
| `Strings.JoinTwice` | config.py:19 | joining a relative directory and then a relative file to a base puts one `/` before each part |
| `Signatures.StripDataUrlPrefix` | app.py:443-445 | without a comma the payload is kept; with one the result is the text between the first and the second comma (or the end) and holds no comma |
| `Signatures.DataUrlRoundTrip` | app.py:443-445 | a comma-free header, a comma and a comma-free body reduce to the body |
| `Signatures.SignatureFileName` | app.py:450-451 | the saved name starts with `<kind>_`, ends with `.png` and holds exactly the token in between |
| `Signatures.SignatureFileNameInjective` | app.py:450-451 | for one kind, two tokens that give the same file name are the same token |
| `Listing.ViewRule` | app.py:205 | viewing is allowed iff the actor is a senior or the creator; an employee never views another's expense |
| `Listing.ListFilter` | app.py:138-149 | the list query keeps an expense iff the actor may view it and the status argument is `all` or equals its status |
| `Listing.DashboardFilter` | app.py:120-127 | the dashboard keeps exactly the pending expenses for a senior and the actor's own for anyone else |
| `Listing.CsvFilter` | app.py:289-292 | the CSV keeps exactly the approved expenses for a senior and the actor's own, any status, for anyone else |
| `Listing.CsvSelection` | app.py:289-292 | the CSV's selected ids are the set of approved ids for a senior and of own ids otherwise |
| `Listing.ListAllIsViewable` | app.py:140-144 | with status `all` the list shows exactly what the detail page would let the actor open |
| `Listing.UnknownRoleActsAsEmployee` | app.py:120 | a role other than the two known ones gets the same list, dashboard, CSV and view decisions as an employee |
| `Listing.InsertNewest` | app.py:142 | placing a row with a new id before the first row not newer than it keeps the list newest-first and free of repeated ids |
| `Listing.InsertKeeps` | app.py:142 | that insertion adds the row, loses no row and brings in nothing else |
| `App.PettyCash.Select` | app.py:140-149 | a query returns each matching row exactly once, nothing else, newest first, as many rows as matching ids |
| `App.PettyCash.ExpenseList` | app.py:134-151 | the list holds exactly the viewable expenses with the requested status (all for `all` or no argument), newest first |
| `App.PettyCash.Dashboard` | app.py:116-127 | the dashboard holds exactly the pending expenses for a senior and the actor's own otherwise, newest first |
| `App.PettyCash.ExportCsv` | app.py:280-313 | one header line plus one line per selected expense, in query order; for a senior the line count is one more than the number of approved expenses, for others one more than their own |
| `App.PettyCash.WriteCsv` | app.py:294-313 | the header, then one line per expense in the given order |
| `Export.CsvRow` | app.py:303-313 | a line is as wide as the header and holds, column by column, the id, the creation date, purpose, amount, recipient, the upper-cased status and the creator's name; then the approver's name and the approval date, each `N/A` when missing |
| `Export.CsvBody` | app.py:302-313 | one line per expense, the i-th line for the i-th expense |
| `Export.DetailRows` | app.py:352-364 | seven labelled metadata rows (id, date, upper-cased status, purpose, amount, recipient, creator's name), then the approver's name and the approval date when an approver is on record |
| `Export.LaidAppend` | app.py:385-404 | two tables laid out two rows per label, put one after the other, are laid out for the joined label list |
| `Export.SignatureRowsLayout` | app.py:385-404 | each slot whose reference is set and whose file exists adds exactly two rows; labelled rows come in the order recipient, employee, senior, each followed by an unlabelled name row |
| `Export.FullSignatureTable` | app.py:385-404 | with all three files present the table is the recipient image and name, the employee image and creator name, then the senior image and the approver's name or `N/A` |
| `App.PettyCash.Detail` | app.py:198-209 | a 404 for an unknown id before any permission check; refused iff the actor may not view it; otherwise the stored record |
| `App.PettyCash.ExportPdf` | app.py:323-404 | the same 404 and permission rule as the detail page; the voucher is the metadata and signature tables of the stored expense; an approved expense prints nine metadata rows and six signature rows |
| `App.PettyCash.SaveSignature` | app.py:436-458 | a decodable payload is stored as `<kind>_<token>.png` under the upload folder and that name returned; otherwise nothing is written |
| `App.PettyCash.Create` | app.py:154-195 | refused for a senior first, then for any missing or empty field; on success exactly one new pending expense under a fresh id, created by the actor, with both signatures and no review data, the rest untouched; which signature files get written |
| `App.PettyCash.Approve` | app.py:212-245 | refused, in order, for a non-senior, an unknown id (404), a non-pending status, a missing signature, an undecodable image, each leaving everything unchanged; success sets exactly status, senior signature, approver, approval time and update time, after which all three signatures are present; approved and rejected expenses never change |
| `App.PettyCash.Reject` | app.py:248-273 | the same role, 404 and status guards, then a non-empty reason; success sets exactly status, reason and update time, leaving the senior signature and the approval columns as they were |

## Left out

- HTTP routing, redirects, flash messages, templates and response headers: handlers return an outcome value instead. The GET branch of the create page only renders a form and is not modelled.
- Login, logout, the session loader and password hashing (`set_password`, `check_password`): the acting user is a parameter, required to be a stored account.
- Database seeding (`init_db`), schema management and the migration script; SQL queries, sessions and commits are replaced by the in-memory store.
- Base64 decoding and image decoding/re-encoding: whether a payload decodes is the constant `decodes` of the store. Writing the file is adding its path to `files`.
- The random hex id of a signature file name is a `token` parameter; collisions between tokens are not modelled.
- `float(amount)` and its failure on non-numeric text, money formatting with two decimals and `strftime`: amounts and clock readings are kept as values inside cells, and the clock is a `now` parameter.
- ReportLab layout: title, spacers, column widths, fonts and image size; only the rows of the two tables are modelled.
- The race between two concurrent approvals of one expense: the model is sequential.
- Reading the process environment: it is a map parameter.
- Signature files removed or lost outside the application: the store's file set only grows, through the application's own writes. The source checks `os.path.exists` before drawing each image (app.py:387, 394, 401) because a referenced file can go missing. So `App.PettyCash.ExportPdf`'s six signature rows for an approved expense rely on that assumption. `Export.SignatureRowsLayout` itself is stated for any file set.
- `Models.NewExpense`: `date`, `created_at` and `updated_at` are three separate `datetime.utcnow` defaults, read microseconds apart; the model gives all three the one insertion reading `now`.
- ORM object identity: an expense is a value in a map, updated by replacing the entry.
- `Strings.Upper`: only ASCII letters are upper-cased; Python also upper-cases other alphabets, which the stored statuses never contain.

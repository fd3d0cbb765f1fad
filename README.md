# CRM WhatsApp Artisans — verified model of the board, the send guards and the database URL

This project models, in Dafny, the parts of the small CRM web application
(contacts, deals and WhatsApp messages behind a kanban board) that carry
logic of their own:

- **The kanban board of the dashboard** (`app/main.py`). It has four fixed pipeline columns:
  new, quote, scheduled and closed. The deal/contact rows are grouped into
  one list per column. A deal whose status is not a column id goes to the
  "new" list. The conversation shown beside the board is the first entry
  of the first non-empty column. The grouping and the selection are
  loops in the source, and they are `for` loops here (`GroupRows`,
  `SelectConversation`). `GroupRows` is proved against the specification function
  `Bucket`, `SelectConversation` against the map it scans, and
  `BuildDashboard` combines the two. Lemmas about `Bucket` prove that the buckets partition the rows
  and that each bucket keeps the rows' order.
- **The guard chain of `send_whatsapp_message`** (`app/main.py`). The checks run in this order:
  1. a non-string `content` makes `.strip()` raise (an unhandled server error), before any lookup;
  2. missing or blank content gives 400, before any lookup;
  3. an unknown deal gives 404;
  4. an unknown contact of that deal gives 404;
  5. otherwise the answer is "ok".

  The store is a pair of maps from id to `Deal` and to `Contact`. The endpoint only reads them.
- **`_normalize_database_url`** (`app/database.py`). A blank setting falls back to a local
  SQLite file. `postgres://` URLs, and `postgresql://` URLs that contain no
  `+psycopg`, are rewritten to `postgresql+psycopg://`. Anything else is only
  stripped, including a `postgresql://` URL that has `+psycopg` after the scheme.
  The model proves each case, that the result is never empty, that it
  depends only on the stripped input, and that normalisation is idempotent.
- **The records and constant sets of `app/models.py`.** These are `Contact`, `Deal` and `Message`
  with their defaults, and the `DealStatus`, `ContactType` and
  `MessageDirection` values.

Module `PyStr` gives the Python string operations these rely on:
`str.strip()` over Python's whitespace set, `startswith`, `in`, `find` (the leftmost
search behind `replace`) and `replace(old, new, 1)`. Module `Wrappers` holds `Option`.

Files: `wrappers.dfy`, `pystr.dfy`, `models.dfy`, `database.dfy`,
`dashboard.dfy`, `messaging.dfy`. Verify them together:
`dafny verify wrappers.dfy pystr.dfy models.dfy database.dfy dashboard.dfy messaging.dfy`.

Three facts about the code that the model keeps:
- `Message` has no `contact_id` field (app/models.py:56-65).
- Message directions are stored as the strings `"in"` and `"out"` (app/models.py:23-25).
- The send endpoint writes nothing: sending and storing the message are TODO comments (app/main.py:108-111).

## Model

| member | source | states |
|---|---|---|
| PyStr.Strip | app/database.py:11 | `strip()`: the result is the slice after the leading whitespace, only whitespace follows it, it neither starts nor ends with whitespace, and it is empty exactly when the input is all whitespace |
| PyStr.StripIdempotent | app/database.py:11 | stripping a stripped string changes nothing |
| PyStr.StartsWith | app/database.py:16-18 | `startswith`: the empty prefix always matches, and a match means the prefix fits and occurs at position 0 |
| PyStr.Contains | app/database.py:18 | `in`: every prefix of the string (the empty pattern included) is contained, and a contained pattern is no longer than the string |
| PyStr.Find | app/database.py:17 | `find`: the leftmost occurrence, or none exactly when the pattern does not occur |
| PyStr.ReplaceFirst | app/database.py:17 | `replace(old, new, 1)` leaves a string without an occurrence unchanged |
| PyStr.ReplaceFirstAtStart | app/database.py:17-19 | when the string starts with the pattern, replacing its first occurrence rewrites exactly that prefix |
| Models.DealStatusValuesDistinct | app/models.py:9-13 | there are exactly four deal statuses, every status is among them, and no two store the same string |
| Models.ContactTypeValuesDistinct | app/models.py:16-20 | there are exactly four contact types (client, prospect, fournisseur, autre), all listed, with distinct strings |
| Models.MessageDirectionValuesDistinct | app/models.py:23-25 | there are exactly two directions, "in" and "out", and they differ |
| Models.NewContact | app/models.py:29-38 | a new contact has no id yet, type "client" and every optional field absent |
| Models.NewDeal | app/models.py:41-53 | a new deal has no id yet, status "new", no estimated amount and no last-message preview, channel or timestamp |
| Models.NewMessage | app/models.py:56-65 | a new message has no id yet, channel "WhatsApp", and the given deal, direction string, content and time |
| Database.NormalizeDatabaseUrl | app/database.py:6-21 | the normalised URL is never empty |
| Database.BlankUrlSelectsDefault | app/database.py:11-13 | an empty or whitespace-only setting yields `sqlite:///./app.db` |
| Database.PostgresSchemeRewritten | app/database.py:16-17 | a stripped `postgres://rest` becomes `postgresql+psycopg://rest` with the rest untouched |
| Database.PostgresqlSchemeRewritten | app/database.py:18-19 | a stripped `postgresql://rest` with no `+psycopg` anywhere becomes `postgresql+psycopg://rest` |
| Database.OtherUrlOnlyStripped | app/database.py:18-21 | any other non-blank setting, including a `postgresql://` URL that already contains `+psycopg`, is returned stripped and otherwise unchanged |
| Database.NormalizeIgnoresSurroundingSpace | app/database.py:11 | the result depends on the stripped setting only |
| Database.DefaultUrlIsFixed | app/database.py:12-21 | normalising the SQLite default returns it unchanged |
| Database.PsycopgUrlIsFixed | app/database.py:16-21 | a `postgresql+psycopg://` URL without trailing whitespace is returned unchanged: it matches neither rewrite rule |
| Database.UnmatchedUrlIsFixed | app/database.py:11-21 | a non-empty URL without surrounding whitespace that starts with neither Postgres scheme is returned unchanged |
| Database.NormalizeIdempotent | app/database.py:6-21 | normalising an already normalised URL returns it unchanged |
| Database.RewrittenUrlIsFixed | app/database.py:16-19 | a URL rewritten by either Postgres rule is a fixed point of normalisation |
| Database.StrippedUrlIsFixed | app/database.py:18-21 | a URL that is only stripped is a fixed point of normalisation |
| Dashboard.PipelineColumns | app/main.py:27-33 | exactly four columns, with the ids new, quote, scheduled and closed in that order, pairwise distinct |
| Dashboard.ColumnIdsOfPipeline | app/main.py:27-33 | the column ids, in order, are the four status values, and they are distinct |
| Dashboard.PipelineIdSet | app/main.py:27-33 | the set of column ids is exactly the four status values |
| Dashboard.InitialBuckets | app/main.py:44-46 | `{col["id"]: [] for col in columns}`: every column id is a key, and every key maps to an empty list |
| Dashboard.InitialBucketsShape | app/main.py:44-46 | the dictionary comprehension has one key per column id, and each maps to an empty list |
| Dashboard.InitialPipelineBuckets | app/main.py:44-46 | before grouping, the keys are exactly the four column ids, each with an empty list |
| Dashboard.ColumnFor | app/main.py:49 | a row goes to the column of its status when that is a column id, otherwise to "new"; either way the result is a column id |
| Dashboard.BucketAppend | app/main.py:48-54 | one more row extends only the bucket of its column, at the end |
| Dashboard.GroupStep | app/main.py:49-54 | one pass of the loop keeps the keys and keeps every list equal to the bucket of the rows seen so far |
| Dashboard.KeyIsColumn | app/main.py:49 | when the dictionary's keys are the four column ids, `.get(status, new list)` picks exactly the list of `ColumnFor(status)`, which is present |
| Dashboard.GroupRows | app/main.py:44-54 | after the loop the keys are exactly the four column ids (`.get` inserts nothing), and each list is the bucket of its column |
| Dashboard.SelectConversation | app/main.py:56-61 | the selection is none exactly when every column list is empty; otherwise it is the first entry of the first non-empty column |
| Dashboard.BuildDashboard | app/main.py:36-61 | the board has the pipeline columns and the grouped buckets; the selection is none exactly when there are no rows, and otherwise is the first entry of the first non-empty column |
| Dashboard.ColumnsAreKeys | app/main.py:58-60 | every pipeline column id is a key of the grouped dictionary, so the selection loop's lookup never fails |
| Dashboard.EmptyBoardIffNoRows | app/main.py:57-61 | after grouping, every column list is empty exactly when there are no rows |
| Dashboard.BucketsPartitionRows | app/main.py:48-54 | taken together, the four buckets hold exactly the rows as a multiset: each row lands in exactly one bucket |
| Dashboard.BucketsConserveRows | app/main.py:48-54 | the bucket sizes add up to the number of rows |
| Dashboard.NoRowsIffEmptyBuckets | app/main.py:57-61 | every bucket is empty exactly when there are no rows |
| Dashboard.BucketKeepsRowOrder | app/main.py:48-54 | a bucket is the subsequence of the rows of its column: the k-th entry comes from an ascending row position, and every row of that column is included |
| Dashboard.PositionsPickBucket | app/main.py:48-54 | the k-th entry of a bucket is the entry of a row of that column, at the k-th recorded position |
| Dashboard.PositionsAscend | app/main.py:48-54 | the recorded row positions of a bucket are in range and strictly ascending |
| Dashboard.PositionsComplete | app/main.py:48-54 | every row of a column has its position recorded for that column's bucket |
| Dashboard.BucketEntriesBelong | app/main.py:48-54 | every entry of a bucket comes from a row, and that row's column is the bucket's column |
| Messaging.SendWhatsappMessage | app/main.py:86-111 | five cases, each an if-and-only-if: a non-string content raises; missing or blank content gives 400; otherwise an unknown deal gives 404; otherwise an unknown contact of the deal gives 404; otherwise "ok" |
| Messaging.BlankContentIgnoresStore | app/main.py:96-98 | with blank content the answer is 400 whatever the store holds, so no lookup precedes the check |
| Messaging.ContentStrippedFirst | app/main.py:96 | replacing the content by its stripped form never changes the answer |
| Messaging.UnknownDealIgnoresContacts | app/main.py:100-106 | when the deal is unknown, the contacts do not affect the answer |

## Left out

- Engine creation, `get_session`, `create_db_and_tables` and reading `DATABASE_URL` from the environment (app/database.py:24-36). These are database and environment I/O. The setting arrives as the `url` parameter.
- The SQL join of deals with contacts in `dashboard` (app/main.py:41-42). Its result is the input `rows: seq<Row>`.
- FastAPI routing, `Depends`, the startup hook, `JSONResponse` serialisation, templates and static files (app/main.py:13-24, 63-71). Responses are the `Response` datatype, and the board is returned as values instead of being rendered.
- The column labels are kept in `Column.caption` (`label` is a Dafny keyword). No property is stated about them.
- The webhook handler (app/main.py:74-83) is left out. It returns a constant and has no logic.
- The WhatsApp API call and the insert of the outbound `Message` (app/main.py:108-109) are left out. They are TODO comments in the source, so there is nothing to model. `SendWhatsappMessage` is a function over the store's maps, so the store is unchanged on every path by construction.
- Timestamps are left out: the `datetime.now` default factories become a `now` parameter of type `Timestamp`, an `int` standing for a clock value the model never inspects.
- Generated primary keys are left out: records start with `id == None`, and the store maps are keyed by id.
- Dictionary insertion order is left out: the buckets are a `map`. The column order comes from the columns sequence, as in the source's selection loop.
- The JSON body of the send endpoint is `map<string, JsonValue>`. All non-string values collapse into `JNonString`, which is enough to decide that `.strip()` raises.
- Python strings may hold lone surrogate code points. Dafny strings cannot, so such strings are left out.
- app/app/models.py, a variant schema that the application does not import, is not part of this model.

# Portfolio content API: a Dafny model

This project models the server side of a personal portfolio site. The site has
five database tables: one profile, a list of skills, a list of projects, a list
of experience entries, and the contact messages visitors send. Its REST API has
four read-only GET routes and one POST route that stores a contact message.
On first start, a seed step fills an empty store with default content.

The model has four modules:

- `Wrappers` (`wrappers.dfy`): `Option` and `Result`.
- `Schema` (`schema.dfy`): the row shapes of the five tables and the validator
  that the contact route applies to a request body. In the source, this
  validator is generated from the messages table definition.
- `Storage` (`storage.dfy`): the repository.
  - The `Store` class holds the five tables as `seq` fields, plus one serial
    sequence counter per table.
  - `Tables` is a snapshot of that state.
  - Pure functions on `Tables` (`AddProfile`, `AddSkill`, `AddProject`,
    `AddExperience`, `InsertMessage`) specify each insert method.
- `Routes` (`routes.dfy`): the four GET handlers, the contact handler and the
  seed step.
  - Each handler returns a `Response(status, body)`.
  - The contact handler is specified by the function `Contact`.
  - The seed step is specified by the function `Seeded`.

Modelling choices:

- **Rows.** A row is `Row(id, data)`. The real JSON row is flat, with `id`
  next to the other columns.
- **Row order.** Each table keeps its rows in insertion order. The SQL reads
  have no `ORDER BY`, so this order is an abstraction of the database's order.
- **Ids (Postgres backend).** Each table's serial id comes from its own
  sequence, starting at 1.
  - An id the client supplies is used as given and does not advance the
    sequence.
  - A value taken from the sequence is used up even if the insert then fails.
  - The primary key rejects an id that is already in use.
  - Ids are Postgres `integer` values, so they must lie in
    [-2147483648, 2147483647].
- **Inputs from outside the program.** The request time (`now`) and whether
  the database can be reached (`reachable`) are parameters.
- **Validation** follows the zod schema that drizzle-zod derives from the
  messages table.
  - Columns are checked in table order: `id`, `name`, `email`, `message`,
    `createdAt`.
  - All issues are collected; the handler reports the first one.
  - A missing required key gives `"Required"`. A value of the wrong type gives
    `"Expected <type>, received <type>"`.
  - A body that is not a JSON object gives `"Expected object, received <type>"`.
  - Unknown keys are dropped.

The intended behaviour of the contact route is a non-empty name and message
and a server-set `createdAt`. The code differs, and the model follows the code:

- An empty `name` or `message` passes validation, and `email` is not checked
  for format. `EmptyNameAccepted` shows this.
- A client may send `createdAt: null`. It passes validation and is stored as a
  null timestamp. A client may also choose the message `id`.
- A name, email or message holding the NUL character passes validation. The
  Postgres `text` column then rejects it, so the reply is 500.

## Model

| member | source | states |
|---|---|---|
| `Schema.ProjectWithDefaults` | shared/schema.ts:41-51 | A stored project keeps every inserted column, including the order of `techStack`. `featured` is a nullable column: when the insert omits it, the column default `false` applies; an explicit null is stored as NULL; and it is true exactly when the insert gave `true`. |
| `Schema.TypeMismatch` | server/routes.ts:42 | The message for a value of the wrong type starts with "Expected " and ends with the name of the received type. |
| `Schema.RequiredStringIssue` | shared/schema.ts:64-66 | A NOT NULL text column without a default passes exactly when its key holds a string. It fails with "Required" when the key is missing, and with a string type mismatch otherwise. |
| `Schema.IdIssue` | shared/schema.ts:9 | The serial `id` is optional in an insert. When present, it must be a number; otherwise the error is a number type mismatch. |
| `Schema.CreatedAtIssue` | shared/schema.ts:67 | `createdAt` is optional and nullable. Any other JSON value fails with a date type mismatch, because JSON cannot carry a date. |
| `Schema.ColumnChecks` | shared/schema.ts:62-68 | There are five checks, one per column of the messages table; the body lists them in column order (id, name, email, message, createdAt). All pass exactly when the object is accepted, and every failing check carries a non-empty message. |
| `Schema.Issues` | shared/schema.ts:76 | The list of collected issues is empty exactly when every column check passes. |
| `Schema.FirstIssueIsEarliest` | server/routes.ts:42 | The first issue in the list is that of the earliest failing check. |
| `Schema.ValidateMessage` | shared/schema.ts:62-68 | A body is accepted exactly when it is an object whose `name`, `email` and `message` are strings, whose `id` is absent or a number, and whose `createdAt` is absent or null. An accepted body yields exactly those values. A body that is not an object is rejected with the object type mismatch. Every error message is non-empty. |
| `Schema.IssueNonEmpty` | server/routes.ts:42 | Every issue message a column check reports is non-empty. |
| `Schema.FirstErrorFollowsColumnOrder` | server/routes.ts:42 | The error reported for an object body is that of the first failing column, in the order id, name, email, message, createdAt. |
| `Schema.MissingNameIsRequired` | shared/schema.ts:64 | A body with no `name` key, and an `id` that is absent or a number, is rejected with "Required". |
| `Schema.EmptyNameAccepted` | shared/schema.ts:64-66 | `{name: "", email: "a@b.com", message: "hi"}` passes validation: there is no non-empty check and no email-format check. |
| `Storage.Appended` | server/storage.ts:49-60 | Inserting a list of rows keeps the existing rows. The new rows are numbered from the sequence's next value, in list order. |
| `Storage.AppendedData` | server/storage.ts:49-60 | After a list of inserts, a table's data is its old data followed by exactly the inserted values, in order. |
| `Storage.AppendedSerial` | shared/schema.ts:9 | Rows drawn from a table's own sequence keep its ids unique and below the sequence's next value. Every new id is one the table did not hold before. |
| `Storage.AppendedStep` | server/storage.ts:49-60 | Inserting one more element of a list adds exactly one row, with the next sequence number. |
| `Storage.AddProfile` | server/storage.ts:45-48 | Adds exactly one profile row with the sequence's next id. The other four tables are unchanged. The store invariant is kept, and the new id is fresh. |
| `Storage.AddSkill` | server/storage.ts:49-52 | Adds exactly one skill row with the sequence's next id. The other tables are unchanged. The invariant is kept, and the id is fresh. |
| `Storage.AddProject` | server/storage.ts:53-56 | Adds exactly one project row, with column defaults applied. The other tables are unchanged. The invariant is kept, and the id is fresh. |
| `Storage.AddExperience` | server/storage.ts:57-60 | Adds exactly one experience row. The other tables are unchanged. The invariant is kept, and the id is fresh. |
| `Storage.UsableId` | shared/schema.ts:9 | A client-supplied id is usable exactly when it denotes an integer within the Postgres `integer` range. |
| `Storage.StoredMessage` | shared/schema.ts:62-67 | A stored message keeps `name`, `email` and `message` from the insert. `createdAt` is the insert time when omitted, and null when sent as null. |
| `Storage.InsertMessage` | server/storage.ts:40-43 | Only the messages table and its sequence can change. On success, exactly one row is appended. That row holds the input's fields and an id not used before: the client's id if one was given, otherwise the sequence's next value. On failure, the rows are unchanged. Each failure cause is stated exactly: an unreachable store; text holding the NUL character, which leaves the state and the sequence untouched; an unusable or taken client id; an exhausted sequence; or a taken sequence value. A used-up sequence value stays used. The invariant is kept. |
| `Storage.FreshIdKeepsUnique` | shared/schema.ts:63 | A row whose id is not yet used keeps the primary key unique. |
| `Storage.Store.constructor` | shared/schema.ts:9 | The store at first start, over a fresh database: every table is empty, every serial sequence is at 1, and the store invariant holds. |
| `Storage.Store.GetProfile` | server/storage.ts:23-26 | Returns the first profile row, or none exactly when the table is empty. |
| `Storage.Store.GetSkills` | server/storage.ts:28-30 | Returns every skill row and changes nothing. |
| `Storage.Store.GetProjects` | server/storage.ts:32-34 | Returns every project row and changes nothing. |
| `Storage.Store.GetExperience` | server/storage.ts:36-38 | Returns every experience row and changes nothing. |
| `Storage.Store.CreateMessage` | server/storage.ts:40-43 | The imperative insert produces exactly the new state and result that `InsertMessage` specifies. |
| `Storage.Store.CreateProfile` | server/storage.ts:45-48 | The new state is `AddProfile` of the old state. The returned row is the persisted row. |
| `Storage.Store.CreateSkill` | server/storage.ts:49-52 | The new state is `AddSkill` of the old state. The returned row is the persisted row. |
| `Storage.Store.CreateProject` | server/storage.ts:53-56 | The new state is `AddProject` of the old state. The returned row is the persisted row, with defaults applied. |
| `Storage.Store.CreateExperience` | server/storage.ts:57-60 | The new state is `AddExperience` of the old state. The returned row is the persisted row. |
| `Routes.HandleGetProfile` | server/routes.ts:14-18 | 404 with "Profile not found" when there is no profile; otherwise 200 with the first profile row. |
| `Routes.HandleGetSkills` | server/routes.ts:20-23 | Always 200 with exactly the skill rows, possibly none. |
| `Routes.HandleGetProjects` | server/routes.ts:25-28 | Always 200 with exactly the project rows, possibly none. |
| `Routes.HandleGetExperience` | server/routes.ts:30-33 | Always 200 with exactly the experience rows, possibly none. |
| `Routes.Contact` | server/routes.ts:35-47 | The status is 200, 400 or 500. It is 400 exactly when validation fails; then the reply carries the first issue and nothing is written. 200 carries the new row, which was appended to messages under a fresh id and holds the body's fields. 500 carries "Internal server error", and the message rows are unchanged. For a valid body, the new state is exactly that of `InsertMessage`. The reply is 200 exactly when the insert succeeds, and it then carries the inserted row, so a client-sent id is kept. Any failed insert gives 500: an unreachable store, NUL text, a taken or unusable client id, or an exhausted or taken sequence value. An unreachable store and NUL text write nothing. A valid body without NUL characters and without an id, on a reachable store whose next sequence value is free, gives 200 with that id. No content table changes, and the invariant is kept. |
| `Routes.HandleContact` | server/routes.ts:35-47 | The handler validates before it writes. Its new store state and its response are exactly those of `Contact`. |
| `Routes.RejectedContactWritesNothing` | server/routes.ts:36-42 | A body that fails validation gives 400, and every table and sequence stays as it was. |
| `Routes.ContactRoundTrip` | server/routes.ts:37-39 | `{name: "Ann", email: "ann@example.com", message: "Hello"}` gives 200 with a row holding those fields, the sequence's next id and the request time. That row is appended to the messages. |
| `Routes.StoredProjects` | server/routes.ts:120 | The stored form of each seed project, in order. |
| `Routes.WithSkills` | server/routes.ts:88 | Appending skill rows changes only the skills table. |
| `Routes.WithProjects` | server/routes.ts:120 | Appending project rows changes only the projects table. |
| `Routes.WithExperience` | server/routes.ts:147 | Appending experience rows changes only the experience table. |
| `Routes.CreateSkills` | server/routes.ts:88 | The loop inserts every given skill, in order, under consecutive sequence ids. |
| `Routes.CreateProjects` | server/routes.ts:120 | The loop inserts every given project, in order, with defaults applied. |
| `Routes.CreateExperiences` | server/routes.ts:147 | The loop inserts every given experience entry, in order. |
| `Routes.Seeded` | server/routes.ts:55-147 | When a profile exists, nothing changes. Otherwise the profile table becomes exactly the one seed profile. The rows the skills, projects and experience tables already held are kept unchanged, ids included, and the seed skills, projects (with defaults) and experience entries follow them, in order. Messages are never touched. |
| `Routes.SeedDatabase` | server/routes.ts:55-151 | The guarded sequence of inserts yields exactly `Seeded` of the old state. |
| `Routes.SeedIdempotent` | server/routes.ts:56-57 | Seeding twice equals seeding once. |
| `Routes.SeedSkipsIncompleteStore` | server/routes.ts:56-57 | A store with a profile but no skills stays without skills, because the guard looks only at the profile. |
| `Routes.SeedEmptyStore` | server/routes.ts:61-147 | Seeding an empty store leaves exactly 1 profile, 10 skills, 3 projects and 2 experience entries, holding the seed values in order. Every project's `featured` is the default `false`, the first project's techStack order is kept, and messages are unchanged. |
| `Routes.SeedKeepsWellFormed` | server/routes.ts:61-147 | Seeding keeps the store invariant, and every added row gets an id its table did not hold before. |

## Left out

- HTTP machinery is not modelled: Express routing, promises, JSON serialisation and logging. Each handler is a method that returns a status and a body.
- Read failures in the GET handlers are not modelled. These handlers have no error handling, and what a rejected read does depends on the Express version, which is not part of this model.
- Bootstrap inserts (`CreateProfile`, `CreateSkill`, `CreateProject`, `CreateExperience`) are modelled as never failing: no unreachable store, and no exhaustion of the content tables' sequences. So seeding never stops part-way. The partial-seed gap is stated only through the profile guard (`SeedSkipsIncompleteStore`).
- Storage.InsertMessage: does not model lone UTF-16 surrogates. Dafny's `char` cannot hold one, so the model cannot express that the database stores one as U+FFFD.
- The validator follows drizzle-zod 0.5, which maps the serial `id` to an optional `z.number()`, so a non-integer id is a storage error (500). Later drizzle-zod releases add an int32 refinement, under which that id is a validation error (400).
- JSON numbers are exact reals, whereas the JSON parser yields double-precision numbers. A huge id such as `1e400` becomes Infinity; the validator lets it through, Postgres rejects it, and the reply is 500, as in the model. But an id like `1.0000000000000001` rounds to 1, and `1e-400` rounds to 0. The program stores such an id, while the model reads the number exactly and answers 500. A client `id` that is not an integer is a storage error, as the Postgres `integer` column makes it. JSON text cannot spell NaN or Infinity, but an out-of-range literal parses to Infinity, as above.
- The SQLite backend used in development mode is not modelled. There, `techStack` and `description` are nullable JSON blobs, ids follow SQLite's AUTOINCREMENT rules, and the `createdAt` default is one timestamp fixed when the module loads. The model follows the Postgres table definitions instead.
- The insert schemas of the profile, skills, projects and experience tables are defined but never used by any handler. They are not modelled as validators. The bootstrap creators take typed records instead.
- The client pages and hooks, the database connection setup (server/db.ts, drizzle.config.ts) and the build configuration are not part of this model.
- The database's row order is abstracted to insertion order. `Store.GetProfile` returns the first inserted row, where the database may return any row.

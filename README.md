# sproblem user service: a Dafny model of its request handling and UPDATE builder

The service is a small HTTP CRUD service for a single `users` resource backed by
Postgres. Its logic is in two places, and this project models both:

- **The storage layer** (`db/db.go`). `UpdateUserById` builds a dynamic
  `UPDATE users SET k1=$2,k2=$3,... WHERE id = $1` statement from an open-ended
  field map, with positional bound values. `CreateUser` and `GetUserById`
  turn the driver's outcome into their Go results (`-1` on a failed insert;
  a nil user only for "no rows").
- **The four request handlers** (`server/server.go`). `createUser`, `getUser`,
  `updateUser` and `deleteUser` are early-return ladders. Each step's outcome
  decides the HTTP status and body, and whether the store is touched.

Modules, one per file:

- `wrappers.dfy` (`Wrappers`): `Option`, standing for Go's nil-able pointers and errors.
- `models.dfy` (`Models`): `User`, mirroring `db/models.go`.
- `strings.dfy` (`Strings`): the Go formatting the code relies on. It covers
  `%d`/`fmt.Fprint` of integers, `strings.TrimRight` with a one-character
  cutset, and joining by a separator. Each comes with its inverse or its
  characterisation.
- `db.dfy` (`Db`): the UPDATE statement as a specification
  (`UpdateStatement`, `BoundValues`). It holds `BuildUpdate`, the loop of
  `UpdateUserById` proved against that specification, and the lemmas about
  placeholders. It also holds the result shaping of `CreateUser` and
  `GetUserById`.
- `store.dfy` (`Storage`): class `Store`, the storage handle. It holds the
  `users` table as a `map<int, User>`, the next `serial` id, and a log of
  every storage call made.
- `server.dfy` (`Server`): class `Response`, which follows net/http's
  `ResponseWriter` (status 200 unless `WriteHeader` comes first). It also
  holds `SendError` and the four handlers as methods over a `Store` and a
  `Response`.
- `scenario.dfy` (`Scenario`): the expected end-to-end request sequence
  (create, read, update, read, delete, read, delete) run through the handlers.

Library and driver steps are inputs describing their outcome. These are
`io.ReadAll` (`ReadOutcome`), `json.Unmarshal` and `strconv.Atoi`
(`Decoded`), `mux.Vars` (`PathId`), `json.Marshal` (a function parameter), and
whether the driver succeeds on each statement (`Fault`).

A Go map is visited in an unspecified order, so the field map is a
`seq<(string, Value)>` listing its entries in the order `range` visits them.
Every property of the UPDATE builder holds for every such sequence, and so for
every visiting order.

## Model

| member | source | states |
|---|---|---|
| `Strings.Decimal` | db/db.go:73 | `%d` of a placeholder number is a non-empty string of decimal digits with no leading zero |
| `Strings.DecimalRoundTrip` | db/db.go:73 | reading back the digits `%d` printed gives the number: the placeholder numbering is unambiguous |
| `Strings.IntToString` | server/server.go:79 | `fmt.Fprint` of an id is non-empty and starts with `-` exactly for a negative id |
| `Strings.IntToStringRoundTrip` | server/server.go:79 | a client parsing the id written to a response body recovers the id |
| `Strings.TrimRight` | db/db.go:77 | `strings.TrimRight(s, ",")` returns a prefix of `s` that does not end in `,`, and everything it removed was `,` |
| `Strings.TrimRightOne` | db/db.go:77 | on a string not already ending in `,`, trimming `s + ","` removes exactly that one comma |
| `Strings.TerminatedIsJoinPlusSep` | db/db.go:72-77 | appending `part + ","` for each of n > 0 parts builds the comma-joined parts followed by one comma |
| `Strings.TrimTerminated` | db/db.go:72-77 | when no part ends in `,`, trimming the accumulated `fields` yields the parts joined by single commas |
| `Db.BuildUpdate` | db/db.go:68-78 | the query is `"UPDATE users SET " + SetList + " WHERE id = $1"`, where the SET list joins `key=$(k+2)` for each entry k by single commas; values are `[id]` followed by the entries' values, n+1 in all, with the id first; the loop keeps the counter at n+2 after n entries; an empty map gives `"UPDATE users SET  WHERE id = $1"` with only `[id]` bound |
| `Db.AssignmentsEndInDigit` | db/db.go:73 | every `key=$i` fragment ends in a decimal digit, so the trailing comma is the only one `TrimRight` removes |
| `Db.ParseAssignmentRoundTrip` | db/db.go:73 | a fragment `key=$j` gives back exactly the key spliced into it and the number j, whatever characters the key holds |
| `Db.PlaceholderAlignment` | db/db.go:72-75 | the k-th entry visited renders as `key=$(k+2)` with its key verbatim, and `values[(k+2)-1]` is that entry's value: every placeholder `$j` refers to `values[j-1]` |
| `Db.StatementDependsOnlyOnKeys` | db/db.go:73-74 | the statement text depends only on the keys in visiting order; values are bound, never spliced |
| `Db.KeyIsSplicedVerbatim` | db/db.go:73-79 | a key carrying SQL text (`age=$2 WHERE id=$1 OR id<>$1 --`) lands unescaped in the statement, widening its WHERE clause to every row and commenting out the rest, while `$1` and `$2` stay live and `[1, 31]` is bound; such a key is not a plain column |
| `Db.CreateUserResult` | db/db.go:45-48 | `CreateUser` returns no error exactly when the insert/scan succeeded, the scanned id then, and -1 with the error otherwise |
| `Db.GetUserResult` | db/db.go:58-65 | `GetUserById` returns a nil user exactly when the driver reports no rows; any other error comes with a non-nil user; success gives the scanned user and no error |
| `Storage.Store.CreateUser` | db/db.go:39-49 | the new id is the sequence's next value. If no row holds it, the insert stores the user under that id (1 or more), returns it and advances the sequence by one. If a row already holds it, the insert fails with a duplicate-key error, returns -1, leaves the table as it was and still uses up the sequence value. A driver failure returns -1 with the error and leaves the table and the sequence as they were |
| `Storage.Store.GetUserById` | db/db.go:51-66 | the user is nil exactly when the driver succeeds and the id is not in the table; the error is absent exactly when the row is found, and the row found is the stored one |
| `Storage.Store.UpdateUserById` | db/db.go:68-81 | the store runs exactly `UpdateStatement(newData)` with `BoundValues(id, newData)`, and the error reflects the driver's outcome; a failed run leaves the table as it was; when every key names a data column (`name`, `email`, `age`), a successful one keeps the same ids and every row other than `id` as it was, and row `id` keeps its id and every column the field map does not assign; with any other key (`id`, or SQL text) the table afterwards is only known to hold each row under its own id |
| `Storage.Store.DeleteUserById` | db/db.go:83-86 | a successful delete removes the id from the table, even if absent; a failed one leaves the table as it was |
| `Server.SendError` | server/server.go:231-234 | on a fresh response the status becomes the given code; the body gets the message appended |
| `Server.CreateUser` | server/server.go:47-80 | body-read and JSON-parse failures give 500, not 400. Age <= 0, empty name or empty email gives 400 "wrong user data". None of these three touches the store. Otherwise `CreateUser` is called once: on success 201 with the new id as the body and the sequence advanced by one; when the next id is already taken by a row, 500 with the table unchanged and the sequence advanced; on a driver failure 500 with the table and the sequence unchanged. The status is 201 exactly on the success path |
| `Server.GetUser` | server/server.go:82-123 | a missing id or a non-integer id gives 400 before the store is consulted. A nil user gives 404; it is checked before the error, so a non-nil user with an error gives 500. Otherwise the JSON of the stored user is sent with status 200 and Content-Type `application/json`, or 500 if encoding fails. No error response sets a Content-Type |
| `Server.UpdateUser` | server/server.go:125-183 | a missing id gives 400. Body read and parse failures give 500 before the id is parsed, so a bad body with a bad id gives 500. A non-integer id gives 400 with the store untouched. Not found gives 404 and any other lookup failure 500; in both cases `UpdateUserById` is never called and the table is unchanged. Otherwise exactly the built statement is run, giving 200 with the id or 500 "failed to update user" (table unchanged). On the 200 path with only data-column keys, only the assigned columns of row id may have changed; with any other key the model does not say which rows changed |
| `Server.DeleteUser` | server/server.go:185-225 | a missing or non-integer id gives 400 with the store untouched. Not found gives 404 without a delete and with the table unchanged. A failed delete writes "failed to delete user" with the default status 200. A successful delete removes the row and writes the id with status 200 |
| `Scenario.AgeUpdateStatement` | db/db.go:68-78 | the field map `{"age":31}` yields `UPDATE users SET age=$2 WHERE id = $1` bound to `[1, 31]` |
| `Scenario.CreateRead` | server/server.go:47-123 | on an empty table, creating John gives 201 and id 1, and reading id 1 gives 200 with the stored row's JSON |
| `Scenario.UpdateRead` | server/server.go:82-183 | updating id 1 gives 200 and the id, and runs the age UPDATE after one lookup; the table then holds only id 1, with John's name and email and the age the UPDATE stored, and the read that follows gives 200 with that row's JSON |
| `Scenario.DeleteReadDelete` | server/server.go:82-225 | deleting id 1 gives 200 and removes it; reading it then gives 404, and so does deleting it again |
| `Scenario.EndToEnd` | server/server.go:47-225 | the whole sequence answers 201, 200, 200, 200, 200, 404, 404, with the store calls listed in order; the first read returns the created row, the second the JSON of user 1 with John's name and email and some age |

## Left out

- Server start-up, the gorilla/mux router, the listener, its timeouts and the global server handle are not modelled (server/server.go:16-45). They are I/O and lifecycle.
- The middlewares are not modelled. The injector only passes its handle through, and the request timer uses the wall clock and logging.
- Opening the connection (fixed configuration, driver open and Ping) and `Close` are foreign calls and are not modelled.
- Logging (`logError`, `log.Println`) and the process entry point are side-effect-only output and are not modelled.
- JSON decoding and encoding, `io.ReadAll`, `strconv.Atoi` and `mux.Vars` are library behaviour. They are inputs giving their outcome (`ReadOutcome`, `Decoded`, `PathId`, the `marshal` parameter), not parsers.
- What SQL does is not modelled. A statement's success is an input (`Fault`), and the table is a map from id to row.
- Storage.Store.UpdateUserById: what an assigned column becomes is SQL's conversion of the JSON value and is not modelled; the assigned columns of row `id` are left open. A key that is not a data column (`id`, which moves the row to a new key, or SQL text, which can reach any row) is not modelled either: after such an UPDATE the table is only known to hold each row under its own id. The exact statement and bound values are recorded in every case. A statement Postgres would reject (the empty field map, a repeated column, a value of the wrong type) fails only when the `Fault` input says so.
- Storage.Store.GetUserById: on a driver error the non-nil user returned is the zero `User{}`. A Scan that fails half-way through converting columns would leave some fields set; that case is not modelled.
- Storage.Store.CreateUser: the serial sequence advances on a successful insert and on a duplicate-key failure. Postgres can also consume a sequence value on other failed inserts; a driver failure (`Fault`) leaves it unchanged in the model.
- Integers are unbounded. The 64-bit range of `id`, `age` and `strconv.Atoi` results is not modelled.
- Concurrency is not modelled: the model is sequential. This includes the race between the existence check and the write in `updateUser` and `deleteUser`.
- `Server.Response` models only status, body and the Content-Type entry a handler sets in `w.Header()`, not other headers. Its `contentType` is None when the handler set nothing; net/http then sniffs the body and sends `text/plain; charset=utf-8`, which is not modelled.
- A JSON number is a `real` in `Db.Value`. Go decodes it to `float64`, and its rounding is not modelled.
- Where the code differs from what the service is documented or expected to do, the model follows the code:
  - The code does not reject an empty field map; it builds the malformed `UPDATE users SET  WHERE id = $1`.
  - A second delete of the same id answers 404, because the lookup before the delete finds nothing. It does not answer 200.
  - `updateUser` reads and decodes the body before it parses the id.
  - Malformed JSON in a request body gives 500, not 400.
  - Updates are not checked against a whitelist of column names.

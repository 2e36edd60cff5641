# Task server model

A Dafny model of `server.js`, a small Node HTTP server that keeps an in-memory
list of tasks (`{id, title, isCompleted}`, seeded with ids 1, 2 and 3) and
serves it over a fixed route table:

- `OPTIONS *` answers a CORS preflight (204, no body);
- `GET /api/tasks` lists the tasks, `GET /api/tasks/<id>` returns one;
- `POST /api/tasks` appends a task whose id is the list length plus one;
- `PUT /api/tasks/<id>` shallow-merges the body over the first task with that id;
- `DELETE /api/tasks/<id>` splices the first task with that id out;
- `GET /bypass-cors?url=…` relays an outbound fetch;
- anything else gets `{status: 404, message: "Resource not found"}`.

Every non-preflight response is JSON, takes its status from the envelope
(`data.status || 200`) and echoes the `Origin` header only for
`https://nta1210.github.io` and `http://localhost:5173`; the preflight has its
own one-entry list, `http://localhost:5173`.

Modules, leaf first:

- `Wrappers` (`wrappers.dfy`): `Option`, for JavaScript properties that may be `undefined`.
- `Tasks` (`tasks.dfy`): the `Task` record, the decoded request body `Payload`, the seed, the
  `findIndex` lookup (`FindIndex`, first match; a NaN id matches nothing) and the shallow `Merge`.
- `Routing` (`routing.dfy`): the `if` chain as `Dispatch`, the same routes as a declarative
  table with a generic first-match lookup (`FirstApplicable`) proved equal to it, and id
  extraction `url.split("/").pop()` then `Number` (`LastSegment`, `ParseNumber`, `RequestId`).
- `Responses` (`responses.dfy`): envelopes, responses and the CORS/status decision
  (`ServerResponse`, `PreflightResponse`, `NOT_FOUND`).
- `Handlers` (`handlers.dfy`): what the get-by-id, POST, PUT and DELETE bodies do, as
  functions from the collection to the new collection and the envelope.
- `Server` (`server.dfy`): class `TaskServer` owns the mutable `tasks` sequence; its methods
  change it in place and are proved against the `Handlers` functions; `Handle` is the request
  callback, proved against `Serve`, the whole request as a function.
- `IdAssignment` (`id_assignment.dfy`): ids are not kept unique. Deleting a task and then
  creating one can reuse an id (`DeleteThenCreateReusesId`, and concretely on the seed,
  `SeedDeleteThenCreate`: ids 2, 3, 3). A PUT body carrying another task's id duplicates it
  (`UpdateCanDuplicateId`). Uniqueness does hold while only POSTs happen (`CreateKeepsDenseIds`),
  across deletes (`DeleteKeepsUniqueIds`) and across PUTs without `id`
  (`UpdateWithoutIdKeepsUniqueIds`).

The code has no `title`/`isCompleted` filters on the list route, persists nothing, reaches the
relay by `GET` only without normalising its URL, turns no malformed body into a 400, and does not
always give a created task an id distinct from the existing ones.

## Model

| member | source | states |
|---|---|---|
| `Tasks.FindIndex` | server.js:124 | `findIndex`: -1 exactly when no task has the id, otherwise the index of the first task that has it |
| `Tasks.Matches` | server.js:68 | the callback `t => t.id === id`, also at lines 124 and 149; a NaN id (None) matches no task |
| `Tasks.FirstMatchIsFindIndex` | server.js:68 | `find` and `findIndex` agree: any first matching index is the one `FindIndex` returns |
| `Tasks.Merge` | server.js:127-130 | the spread `{...t, ...payload}`; its behaviour is stated by `MergeEmptyPayload`, `MergeIdempotent`, `MergeCompletionOnly` and `IdAssignment.UpdateCanDuplicateId` |
| `Tasks.MergeEmptyPayload` | server.js:127-130 | merging an empty body leaves the task unchanged |
| `Tasks.MergeIdempotent` | server.js:127-130 | merging the same body twice equals merging it once |
| `Tasks.MergeCompletionOnly` | server.js:127-130 | a body with only `isCompleted` keeps id and title and sets the flag |
| `Routing.Dispatch` | server.js:36-186 | only OPTIONS is a preflight; each handler is chosen only for its own method (GET for list, by-id and relay; POST, PUT, DELETE for the rest) and its own path shape (exact `/api/tasks`, `/api/tasks/` prefix, `/bypass-cors` prefix); completeness and order by `DispatchFollowsRouteTable` |
| `Routing.FirstApplicableIsFirstMatch` | server.js:36-186 | first-match over a route table: the handler of the first rule that applies, NotFound when none does |
| `Routing.DispatchFollowsRouteTable` | server.js:36-186 | the `if` chain equals first-match over the table OPTIONS-any, GET exact, GET prefix, POST exact, PUT prefix, DELETE prefix, GET relay prefix |
| `Routing.ListWithQueryIsNotFound` | server.js:55-66 | `GET /api/tasks?…` matches neither the list nor the by-id rule and gets 404 |
| `Routing.WrongSlashIsNotFound` | server.js:84-147 | `POST /api/tasks/`, `PUT /api/tasks` and `DELETE /api/tasks` get 404 |
| `Routing.LastSegment` | server.js:67 | `split("/").pop()`: the longest slash-free suffix of the URL |
| `Routing.LastSegmentAfterSlash` | server.js:67 | the segment after the last slash is what `pop` returns |
| `Routing.DecimalString` | server.js:67 | not source behaviour: the client's decimal spelling of an id, a non-empty digit string, which `Number` on this line reads back (`ParseDecimalString`) |
| `Routing.ParseNumber` | server.js:67 | `Number` on a segment: a digit string gives its value (`ParseDecimalString`), the empty string 0 (`EmptySegmentIsZero`), anything else NaN (`QueryAfterIdIsNaN`) |
| `Routing.RequestId` | server.js:115 | `Number(url.split("/").pop())`, as in the GET, PUT and DELETE handlers; `GetByDecimalId` states it for `/api/tasks/<n>` |
| `Routing.ParseDecimalString` | server.js:67 | reading a decimally written id back gives the id (round trip) |
| `Routing.GetByDecimalId` | server.js:66-67 | `GET /api/tasks/<n>` reaches get-by-id with id n |
| `Routing.EmptySegmentIsZero` | server.js:67 | a trailing slash gives id 0, as `Number("")` is 0 |
| `Routing.QueryAfterIdIsNaN` | server.js:67 | a query string after the id makes it NaN |
| `Responses.AllowOrigin` | server.js:15 | `allowedOrigins.includes(origin)`: a header value exactly when the origin is on the list, and then the origin itself |
| `Responses.NOT_FOUND` | server.js:28-33 | the 404 envelope: status 404, message "Resource not found", no data |
| `Responses.ServerResponse` | server.js:9-26 | JSON body; status is the envelope's when non-zero and 200 when it is 0; origin echoed iff on the two-entry list |
| `Responses.PreflightResponse` | server.js:36-49 | status 204, no body, no Content-Type; origin echoed iff it is `http://localhost:5173` |
| `Responses.PagesOriginOnlyOnOrdinaryResponses` | server.js:9-49 | `https://nta1210.github.io` is echoed on ordinary responses but not on the preflight |
| `Responses.NoOriginNoHeader` | server.js:11-16 | without an Origin header no allow-origin header is set |
| `Handlers.LookupStep` | server.js:66-78 | 200 with the first task carrying the id; the 404 envelope when none does (NaN included) |
| `Handlers.CreateStep` | server.js:94-106 | appends exactly `{id: old length + 1, title: payload.title, isCompleted: false}`, earlier tasks unchanged, 201 |
| `Handlers.UpdateStep` | server.js:124-139 | id present: only the first match is replaced by the merge, length and other tasks unchanged, 200; absent: unchanged, 404 |
| `Handlers.DeleteStep` | server.js:148-160 | id present: the first match is removed, the rest keep their order, length drops by one, 200; absent: unchanged, 404 |
| `Handlers.DeleteRemovesOneOccurrence` | server.js:152 | delete removes exactly one occurrence of the found task from the multiset of tasks |
| `Server.Serve` | server.js:35-187 | one request as a function of the collection; `Handle` is proved against it and the `Server` lemmas below state its properties |
| `Server.TaskServer.constructor` | server.js:3-7 | the server starts with the three seeded tasks |
| `Server.TaskServer.GetById` | server.js:66-78 | reads the collection without changing it and answers what `LookupStep` gives: first match or 404 |
| `Server.TaskServer.Create` | server.js:94-106 | the in-place push leaves the collection and envelope `CreateStep` gives |
| `Server.TaskServer.Update` | server.js:124-139 | the in-place overwrite leaves the collection and envelope `UpdateStep` gives |
| `Server.TaskServer.Delete` | server.js:147-161 | the in-place splice leaves the collection and envelope `DeleteStep` gives |
| `Server.TaskServer.Handle` | server.js:35-187 | the request callback leaves the collection and writes the response `Serve` gives |
| `Server.PreflightOnAnyPath` | server.js:36-49 | OPTIONS on any path: 204, no body, collection unchanged, origin echoed iff local dev origin |
| `Server.ReadOnlyRoutes` | server.js:55-78 | every branch but create, update and delete leaves the collection unchanged |
| `Server.OrdinaryResponseHeaders` | server.js:9-26 | every non-preflight response is JSON with the envelope's status and the two-entry origin rule |
| `Server.StatusCodes` | server.js:28-186 | every status sent is 200, 201, 204 or 404 |
| `Server.UnmatchedIsNotFound` | server.js:183-186 | a request matching no route gets the 404 envelope and changes nothing |
| `Server.AnsweredUnlessRelayFails` | server.js:167-181 | given an already-decoded body, no response is written exactly when the relay's upstream fails (the process then ends; see Left out) |
| `IdAssignment.SeedIsDense` | server.js:3-7 | the seed's ids are 1..3, each once |
| `IdAssignment.CreateKeepsDenseIds` | server.js:94-100 | while ids are exactly 1..n, POST assigns an unused id and keeps them 1..n+1 |
| `IdAssignment.GetAfterCreate` | server.js:94-100 | when no older task holds id length + 1 (as while ids are dense), GET on the new id returns the created record |
| `IdAssignment.GetAfterCreateCanFindOlder` | server.js:94-100 | when an older task holds that id, GET after POST returns the older task, not the created one |
| `IdAssignment.DeleteKeepsUniqueIds` | server.js:149-152 | delete keeps unique ids unique |
| `IdAssignment.GetAfterDelete` | server.js:149-152 | with unique ids, GET on a deleted id answers 404 |
| `IdAssignment.GetAfterDeleteWithDuplicate` | server.js:149-152 | with a duplicated id, GET after delete still finds the second task |
| `IdAssignment.DeleteThenCreateReusesId` | server.js:95 | delete (of any task but the holder of id n) then create hands out id n twice |
| `IdAssignment.SeedDeleteThenCreate` | server.js:94-100 | on the seed, delete id 1 then create gives ids 2, 3, 3 |
| `IdAssignment.UpdateCanDuplicateId` | server.js:127-130 | a PUT body carrying another task's id makes two tasks share it |
| `IdAssignment.UpdateWithoutIdKeepsUniqueIds` | server.js:127-130 | a PUT body without `id` keeps ids unique |

## Left out

- Server creation, port binding, `listen` and `console.log` (server.js:1, 13, 189-191): I/O with no logic.
- Streaming of request bodies (`req.on("data")`, `req.on("end")`): the model takes the complete, decoded body.
- `JSON.parse` / `JSON.stringify`: the body is a typed `Payload`, already decoded. `JSON.parse` runs inside the `end` listener with no `try`, so a malformed POST or PUT body throws there, and so does a POST body of `null` (at `payload.title`). The exception is uncaught, which ends the Node process. Every later request then goes unanswered and the in-memory tasks are lost. The model has no such path. The typed `Task` cannot hold extra fields a PUT body adds, or a field whose type a merge changes (a string `isCompleted`, a string `id`).
- The relay's outbound `fetch` and its URL handling: only its route is classified; its decoded upstream body is a parameter of `Serve`/`Handle`, and a failing fetch is modelled as no response written.
- Server.AnsweredUnlessRelayFails: a failing relay fetch (an unreachable target, a non-JSON body, or no `url=` parameter, which reaches `fetch(null)`) rejects a promise chain with no `.catch`, and Node's default for an unhandled rejection ends the process. Every later request then goes unanswered and the in-memory tasks are lost. The model records only that this request gets no response, and keeps serving with the collection as it was.
- Concurrency between interleaved asynchronous handlers: each request is atomic in the model.
- Routing.ParseNumber: models `Number` only on strings of decimal digits (the empty string gives 0); whitespace, signs, fractions, hex, exponents and `Infinity` are treated as NaN, and digit strings beyond 2^53 are read exactly rather than rounded to a double.
- Responses.ServerResponse: the envelope status is an integer, so falsy statuses other than 0 (`undefined`, `NaN`) are not modelled; every envelope the code builds has a non-zero status.
- Persistence, list filtering by title or completion, and id validation: none exist in the code.

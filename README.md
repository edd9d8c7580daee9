# mcp-goodday, modelled in Dafny

mcp-goodday is an MCP server that exposes the GoodDay work-management API as
ten tools. This project models the server's decision logic.

- **Dispatcher.** It routes a tool call by name. A project given by name is
  resolved to its id. Tool arguments become GoodDay request records through
  field renaming, the priority map, hours-to-minutes conversion and a fixed
  task author. Each result, or each error, is rendered as text.
- **API client.** It picks the endpoint path. It fills in a default
  `fromUserId` on task creation. Its health check tries three endpoints in
  turn. It wraps every failure as `Failed to <op>: <cause>`.
- **Records.** The five zod schemas (User, Project, Task, TaskCreate,
  TaskUpdate) are predicates over JSON values. Each has a typed record, a
  decoder and an encoder.

## How the model is laid out

- `wrappers.dfy`: `Option` and `Result`.
- `text.dfy`: the JavaScript string operations the server uses.
  - `toLowerCase` (ASCII), `includes` and `join`.
  - Cutting a string at one separator character is a helper of the model, used by the email predicate and the path reader; the server itself does not split strings.
  - The decimal text of an integer in a template literal.
- `json.dfy`: JSON values and JavaScript truthiness.
  - An object is a map. A missing key stands for `undefined`, which `JSON.stringify` drops.
  - `Restrict` keeps the keys a zod object keeps.
- `goodday_types.dfy` (`src/types/goodday.ts`):
  - The schema predicates, including the zod email pattern.
  - The records, with decoders and encoders.
  - Round-trip, strip, required-field and range lemmas.
- `goodday_api.dfy` (`src/services/goodday-api.ts`):
  - The remote API is not called. Each operation receives the reply it would
    have got, as a `Reply<T>`: a value, or a thrown `Failure`.
  - Each operation returns the `Request` it sends and its wrapped result.
  - A small route grammar (`Resource`, `PathOf`, `ParsePath`) shows the paths are distinct and can be read back.
- `mcp_server.dfy` (`src/mcp-server.ts`):
  - Each handler is a function from tool arguments (`Args`) and remote replies
    (`Replies`) to the requests it issued and its text.
  - An empty request list therefore means the remote API was not touched.
  - `handleListTasks` and `handleCreateTask` reassign locals and build their
    reply step by step, so they are also written as methods.
  - Each such method is proved equal to its handler function.
  - `CallTool` is the `CallToolRequestSchema` handler.

JavaScript semantics modelled explicitly:

- Truthiness of optional strings and numbers. `0` and `""` are falsy.
- `||` fallbacks.
- `undefined` rendered as the text `undefined` inside a template literal.
- The fact that `arr.find` returns the first match.

Behaviour of the code worth noting:

- The tool names are `list_goodday_projects`, `list_goodday_users`,
  `get_goodday_project`, `get_goodday_user`, `list_goodday_tasks`,
  `get_goodday_task`, `create_goodday_task`, `update_goodday_task`,
  `delete_goodday_task` and `goodday_health_check` (`src/mcp-server.ts:253-280`).
- The handlers validate nothing. The zod schemas are imported but never applied.
  - An unknown create priority such as `"bogus"` is sent as 3.
  - An update with `progress` 150 is sent as is (`UpdateBody` passes every field through).
  - The schema predicates describe records; they are not a check the dispatcher makes.
  - `UpdateBodyMeaning` states exactly when an update body would conform.
- The Project schema gives `progress` no range (`z.number()`). Only TaskUpdate bounds it to [0, 100].
- Not every handler catches its own errors.
  - `list_goodday_projects`, `list_goodday_tasks` and `create_goodday_task` render their own error text.
  - The other handlers let the error escape to the dispatcher, which renders `Error: <message>`.
  - Either way no error leaves a tool call.

## Model

| member | source | states |
|---|---|---|
| McpServer.ParseTool | src/mcp-server.ts:252-284 | a name selects a tool only if it is that tool's `case` label |
| McpServer.ToolNameRoundTrip | src/mcp-server.ts:252-281 | every tool is selected by its own name, so an unselected name is none of the ten |
| McpServer.CallTool | src/mcp-server.ts:248-297 | an unknown name answers `Error: Unknown tool: <name>` and sends no request; a known name runs that tool's handler with the dispatcher's catch |
| McpServer.RunTool | src/mcp-server.ts:252-281 | every tool call issues one to three requests, and at most two unless it is the health check |
| McpServer.Rendered | src/mcp-server.ts:286-295 | the catch keeps the handler's requests; a handler result is the text unchanged, and an escaped error is `Error: ` followed by its message |
| McpServer.DispatchSelects | src/mcp-server.ts:252-281 | calling a tool by its name runs exactly that tool's handler |
| McpServer.RethrownFailureIsText | src/mcp-server.ts:286-295 | for each of the six handlers without their own catch, a failing remote call becomes the text `Error: Failed to <op>: <cause>` after that one request |
| McpServer.ListProjectsReply | src/mcp-server.ts:300-337 | one GET of `/projects`; on success the listing contains every project's entry |
| McpServer.UsersText | src/mcp-server.ts:339-351 | the user listing contains every user's entry |
| McpServer.ProjectText | src/mcp-server.ts:353-363 | the project details contain the project's name and id |
| McpServer.UserText | src/mcp-server.ts:365-375 | the user details contain the user's id and email |
| McpServer.ProjectsFailureIsText | src/mcp-server.ts:326-335 | a failed project fetch in `list_goodday_projects` becomes `❌ Error fetching projects: Failed to fetch projects: <cause>` |
| McpServer.FindFrom | src/mcp-server.ts:384-386 | the scan from a position returns the first index at or after it whose lower-cased name contains the lower-cased query, or none when no later project matches |
| McpServer.FindProject | src/mcp-server.ts:384-386 | `projects.find`: the first matching project in listing order; none exactly when no project matches |
| McpServer.ExactNameFound | src/mcp-server.ts:455-457 | a project whose name equals the query up to case is found, at its position or earlier |
| McpServer.FindProjectIgnoresCase | src/mcp-server.ts:384-386 | lower-casing the query does not change which project is chosen |
| McpServer.Resolve | src/mcp-server.ts:379-401 | a project list is fetched only for a truthy name without a truthy id; the result is the given id, the first match's id, a not-found outcome, or the wrapped fetch error |
| McpServer.NotFoundText | src/mcp-server.ts:393 | the not-found text starts with the `❌ **Project not found!**` intro |
| McpServer.NotFoundListsEveryProject | src/mcp-server.ts:388-397 | the not-found text quotes the query and contains `- <name> (ID: <id>)` for every project |
| McpServer.ListGivenIdSkipsLookup | src/mcp-server.ts:379-382 | without name resolution the only request is the task fetch for the given id |
| McpServer.ListNoMatchStops | src/mcp-server.ts:388-397 | when no project matches, the only request is the project list and the text is the not-found text; tasks are not fetched |
| McpServer.FirstMatchListed | src/mcp-server.ts:399-403 | when a project matches, tasks are fetched for the first match's id, after one project-list fetch |
| McpServer.ListedTasksShown | src/mcp-server.ts:379-415 | once an id is in use, given or resolved from the name, a successful listing is the count header with the filter text for that id, followed by the joined entries, and contains every task's entry |
| McpServer.TasksFailureIsText | src/mcp-server.ts:379-426 | a failed project fetch during name resolution, or a failed task fetch after any resolution that yields an id (given or matched), becomes `❌ **Error fetching tasks:** Failed to fetch <projects or tasks>: <cause>` |
| McpServer.ListTasksReply | src/mcp-server.ts:377-427 | tasks are fetched exactly when the resolution yields an id, right after the resolution's own requests and for that id; one or two requests |
| McpServer.TaskText | src/mcp-server.ts:429-439 | the task details contain the task's title and id |
| McpServer.HandleListTasks | src/mcp-server.ts:377-427 | the method with its reassigned `resolvedProjectId` issues the requests and produces the text of the handler function |
| McpServer.PriorityCode | src/mcp-server.ts:444-449 | a mapped priority gives its code, anything else (absent, empty, unknown) gives 3; the code is always one of 1, 3, 5, 7 |
| McpServer.PriorityCodeRoundTrip | src/mcp-server.ts:480 | each of low/normal/high/urgent maps to a code from which the level is recovered |
| McpServer.PriorityCodesDistinct | src/mcp-server.ts:444-449 | different levels map to different codes |
| McpServer.Minutes | src/mcp-server.ts:482 | an estimate exists exactly for truthy hours (0 and absent give none) and is hours times 60 |
| McpServer.CreateBody | src/mcp-server.ts:475-484 | the create body holds only the eight mapped keys, never `tags`, always a numeric priority in {1, 3, 5, 7} and `fromUserId` `pqj4fL` |
| McpServer.CreateBodyMeaning | src/mcp-server.ts:475-484 | the body conforms to the TaskCreate schema exactly when title and project id are present, and then reads back as the record with `description`, `assignee_id` and `due_date` renamed to `message`, `toUserId` and `deadline` |
| McpServer.CreateBodyKeepsSender | src/mcp-server.ts:483 | the client's sender default leaves the server's create body unchanged |
| McpServer.CreateGivenIdSkipsLookup | src/mcp-server.ts:452-453 | with a project id (or no name) the only request is the POST of the create body for that id |
| McpServer.CreateNoMatchStops | src/mcp-server.ts:459-468 | when no project matches, only the project list is requested and the text is the not-found text; no task is created |
| McpServer.FirstMatchCreated | src/mcp-server.ts:454-470 | when a project matches, the create body carries the first match's id, after one project-list fetch |
| McpServer.CreateFailureIsText | src/mcp-server.ts:452-529 | a failed project fetch during name resolution, or a failed creation after any resolution that yields an id (given or matched), becomes `❌ **Error creating task:** Failed to <op>: <cause>` |
| McpServer.TagsNote | src/mcp-server.ts:508-510 | the tags note is empty exactly when tags are absent or empty; otherwise it starts with the `⚠️ **Note:**` head and contains the tags joined by `, ` |
| McpServer.CreatedTextTags | src/mcp-server.ts:507-510 | the confirmation ends with the tags note and contains the joined tags when tags are given, and is just the details otherwise |
| McpServer.AppendIf | src/mcp-server.ts:492-494 | a conditional `+=` appends the line exactly when its condition holds |
| McpServer.ComposeCreated | src/mcp-server.ts:489-510 | the successive appends to `responseMessage` build the confirmation: header, then the priority, due-date, hours and description lines that were given, then the tags note |
| McpServer.CreateTaskReply | src/mcp-server.ts:441-531 | the task is created exactly when the resolution yields an id, with the create body for that id, right after the resolution's own requests; one or two requests |
| McpServer.HandleCreateTask | src/mcp-server.ts:441-531 | the method with its reassigned `projectId` issues the requests and produces the text of the handler function |
| McpServer.UpdateBody | src/mcp-server.ts:534-543 | the update body holds only the eight mapped keys and never `tags`; title, status, priority (as the raw string) and progress pass through unchecked, description goes to `message`, assignee to `toUserId`, due date to `deadline`, and hours become minutes under `estimate` |
| McpServer.UpdateBodyMeaning | src/mcp-server.ts:534-543 | the update body conforms to the TaskUpdate schema exactly when its priority is a level name and its progress is in [0, 100], and then reads back as the record with fields passed through and hours turned into minutes |
| McpServer.UpdateTaskReply | src/mcp-server.ts:533-554 | one PUT to `/tasks/<id>` with the unvalidated body; success exactly when the remote call succeeds; otherwise the error `Failed to update task: <cause>` escapes |
| McpServer.UpdatedText | src/mcp-server.ts:545-553 | the update confirmation contains the task's title and id |
| McpServer.DeleteTaskReply | src/mcp-server.ts:556-566 | one DELETE to `/tasks/<id>`; on success the text contains the id given; otherwise `Failed to delete task: <cause>` escapes |
| McpServer.DeleteConfirmsId | src/mcp-server.ts:556-563 | through the dispatcher, a successful delete confirms the original task id after exactly one DELETE |
| McpServer.HealthReply | src/mcp-server.ts:568-580 | the health tool reports the healthy text exactly when some probe succeeded and the unhealthy text otherwise, after one to three requests |
| Text.Lower | src/mcp-server.ts:385 | `toLowerCase` keeps the length and lower-cases each character |
| Text.LowerIdempotent | src/mcp-server.ts:385 | lower-casing twice is lower-casing once |
| Text.ContainsIff | src/mcp-server.ts:385 | `includes` holds exactly when the piece occurs at some position |
| Text.JoinContainsItem | src/mcp-server.ts:393 | every item of a `join` occurs in the joined text |
| Text.NatText | src/mcp-server.ts:410 | a count in a template literal is a non-empty string of decimal digits |
| Text.NatTextRoundTrip | src/mcp-server.ts:410 | the digits read back as the number rendered |
| Text.IntText | src/mcp-server.ts:411 | a number such as a progress in a template literal starts with a minus exactly when it is negative, and is non-empty |
| GoodDayApi.Wrap | src/services/goodday-api.ts:54-62 | success passes the reply's value on unchanged; failure becomes `Failed to <op>: <cause>`, the cause being the error message or `Unknown error` |
| GoodDayApi.FailedParts | src/services/goodday-api.ts:60 | the wrapped message starts with `Failed to `, then the operation, then the cause |
| GoodDayApi.GetUsers | src/services/goodday-api.ts:54-62 | a GET of `/users` without body, wrapped as `fetch users` |
| GoodDayApi.GetUserById | src/services/goodday-api.ts:64-72 | a GET of `/users/<id>`, wrapped as `fetch user` |
| GoodDayApi.GetProjects | src/services/goodday-api.ts:75-83 | a GET of `/projects`, wrapped as `fetch projects` |
| GoodDayApi.GetProjectById | src/services/goodday-api.ts:85-93 | a GET of `/projects/<id>`, wrapped as `fetch project` |
| GoodDayApi.GetTasks | src/services/goodday-api.ts:98 | a GET of `/projects/<id>/tasks` for a truthy project id and of `/tasks` otherwise, wrapped as `fetch tasks` |
| GoodDayApi.GetTaskById | src/services/goodday-api.ts:109 | a GET of the singular `/task/<id>`, wrapped as `fetch task` |
| GoodDayApi.CreateTask | src/services/goodday-api.ts:117-131 | a POST to `/tasks` of the task data with the sender default, wrapped as `create task` |
| GoodDayApi.UpdateTask | src/services/goodday-api.ts:135 | a PUT to `/tasks/<id>` of the data unchanged, wrapped as `update task` |
| GoodDayApi.DeleteTask | src/services/goodday-api.ts:145 | a DELETE of `/tasks/<id>`, wrapped as `delete task` |
| GoodDayApi.TaskPathsDiffer | src/services/goodday-api.ts:109 | fetching a task uses a different path than updating it, while update and delete share theirs |
| GoodDayApi.PathRoundTrip | src/services/goodday-api.ts:56-145 | every endpoint path reads back as the resource it names, for ids without `/` |
| GoodDayApi.PathsDistinct | src/services/goodday-api.ts:56-145 | distinct resources have distinct paths, for ids without `/` |
| GoodDayApi.WithSender | src/services/goodday-api.ts:120-123 | the request data is the task data plus `fromUserId`; every other key is unchanged; a truthy sender is kept and a falsy or missing one becomes `pqj4fL` |
| GoodDayApi.WithSenderIdempotent | src/services/goodday-api.ts:120-123 | applying the sender default twice is applying it once |
| GoodDayApi.WithSenderOnRecord | src/services/goodday-api.ts:120-125 | a TaskCreate record sent by the client reads back as the same record with its sender, or `pqj4fL` when it had none |
| GoodDayApi.HealthCheck | src/services/goodday-api.ts:153-176 | `/health`, `/api/health`, `/` are tried in order until the first success; later ones are not requested; the result is true exactly when one succeeded, and nothing is thrown |
| GoodDayApi.HealthPathsRoute | src/services/goodday-api.ts:157-165 | the three probe paths are the health, API-health and root resources |
| GoodDayTypes.DecodeUser | src/types/goodday.ts:4-15 | a User is decoded exactly when the value satisfies the User schema |
| GoodDayTypes.UserRoundTrip | src/types/goodday.ts:4-15 | an encoded User reads back as itself exactly when its email is well formed |
| GoodDayTypes.UserDecodeStrips | src/types/goodday.ts:4-15 | decoding then encoding keeps exactly the schema's keys of the input |
| GoodDayTypes.UserRequiredFields | src/types/goodday.ts:5-8 | an object with id, firstName, lastName and email is a User exactly when the email is well formed |
| GoodDayTypes.SampleAddressesAccepted | src/__tests__/goodday-api.test.ts:37-38 | the client tests' `john@example.com` and `jane@example.com` are well formed |
| GoodDayTypes.SimpleAddress | src/types/goodday.ts:8 | `local@label.tld` is well formed for a valid local part, label and top-level domain |
| GoodDayTypes.EmailHasOneAt | src/types/goodday.ts:8 | a well-formed address has exactly one `@` |
| GoodDayTypes.NoDotDomainRefused | src/types/goodday.ts:8 | an address whose domain has no dot is refused |
| GoodDayTypes.LeadingDotRefused | src/types/goodday.ts:8 | an address starting with a dot is refused |
| GoodDayTypes.DomainHasDot | src/types/goodday.ts:8 | every accepted domain contains a dot |
| GoodDayTypes.DecodeProject | src/types/goodday.ts:17-30 | a Project is decoded exactly when the value satisfies the Project schema |
| GoodDayTypes.ProjectRoundTrip | src/types/goodday.ts:17-30 | an encoded Project reads back as itself |
| GoodDayTypes.ProjectDecodeStrips | src/types/goodday.ts:17-30 | decoding then encoding keeps exactly the schema's keys |
| GoodDayTypes.ProjectRequiredFields | src/types/goodday.ts:18-19 | id and name make a Project whatever other unknown keys are present, and neither alone does |
| GoodDayTypes.DecodeTask | src/types/goodday.ts:32-48 | a Task is decoded exactly when the value satisfies the Task schema |
| GoodDayTypes.TaskRoundTrip | src/types/goodday.ts:32-48 | an encoded Task reads back as itself |
| GoodDayTypes.TaskDecodeStrips | src/types/goodday.ts:32-48 | decoding then encoding keeps exactly the schema's keys |
| GoodDayTypes.TaskRequiredFields | src/types/goodday.ts:33-40 | id, title, status and projectId make a Task, and without projectId it is refused |
| GoodDayTypes.DecodeTaskCreate | src/types/goodday.ts:51-68 | a TaskCreate is decoded exactly when the value satisfies the TaskCreate schema |
| GoodDayTypes.TaskCreateReadsBack | src/types/goodday.ts:51-68 | an object holding a record's fields under the schema keys decodes to that record |
| GoodDayTypes.TaskCreateRoundTrip | src/types/goodday.ts:51-68 | an encoded TaskCreate reads back as itself |
| GoodDayTypes.TaskCreateDecodeStrips | src/types/goodday.ts:51-68 | decoding then encoding keeps exactly the schema's keys |
| GoodDayTypes.TaskCreateRequiredFields | src/types/goodday.ts:52-54 | title and projectId make a TaskCreate and neither alone does |
| GoodDayTypes.TaskCreatePriorityIsNumber | src/types/goodday.ts:57 | with title and projectId, a priority is accepted exactly when it is a number |
| GoodDayTypes.PriorityNamesRoundTrip | src/types/goodday.ts:74 | the four update-priority names and the enum convert into each other |
| GoodDayTypes.DecodeTaskUpdate | src/types/goodday.ts:70-81 | a TaskUpdate is decoded exactly when the value satisfies the TaskUpdate schema |
| GoodDayTypes.TaskUpdateRoundTrip | src/types/goodday.ts:70-81 | an encoded TaskUpdate reads back as itself exactly when its progress is in [0, 100] |
| GoodDayTypes.TaskUpdateDecodeStrips | src/types/goodday.ts:70-81 | decoding then encoding keeps exactly the schema's keys |
| GoodDayTypes.TaskUpdateAllOptional | src/types/goodday.ts:70-81 | the empty object is a TaskUpdate with every field absent |
| GoodDayTypes.TaskUpdateBounds | src/types/goodday.ts:74-78 | a progress is accepted exactly in [0, 100] and a priority exactly when it is low, normal, high or urgent |

## Left out

- Process startup, environment loading and signal handling (`src/index.ts`) are process I/O.
- The Jest setup is not part of this model.
- The axios client is not modelled. That covers its base URL default, headers,
  30-second timeout and logging interceptors. Each HTTP call is an abstract
  reply instead, and `console` output is dropped.
- The MCP SDK `Server`, the stdio transport and the static tool catalog are foreign SDK plumbing.
- The shape of an MCP response is not modelled; the model keeps only the text of its single content block.
- Numbers are integers, so IEEE floating point is not modelled.
  - Fractional hours and fractional progress are outside the model.
  - `Minutes` multiplies exactly.
- `toLowerCase` folds only ASCII letters; other Unicode case mappings are not modelled.
- Tool arguments are taken to have the declared JSON types.
  - A missing `arguments` object, which would make the handlers throw a TypeError, is not modelled.
  - Arguments of other types are not modelled either.
- Identifiers are inserted into paths without URL encoding, as the code does. `PathRoundTrip` and `PathsDistinct` therefore hold only for ids without `/`.
- Remote records are taken to be well-typed. Replies are `User`, `Project` and `Task` values, not arbitrary JSON.
- The TaskUpdate record holds its priority as the enum, so an unknown priority string has no record. `UpdateBody` and `UpdateBodyMeaning` cover the raw string the server sends.
- The non-array check of `handleListProjects` (`src/mcp-server.ts:305-314`) cannot be reached with a typed project list, so it is not modelled.
- The dispatcher's `Unknown error occurred` text is not modelled, because the client always throws `Error` objects.
  - The `Unknown error` text of the client's own wrapping is modelled (`NotAnError`).
- `priorityMap` lookups of inherited `Object.prototype` keys (such as `"constructor"`) are not modelled; such a key gives the default 3.
- The email predicate follows the zod 3 pattern with ASCII letters only. Later zod versions' patterns are not modelled.
- The client tests' `{success, data}` mocks and their three-argument constructor do not match the code, so the model follows the code.
  - This includes the expected POST body without `fromUserId` (`src/__tests__/goodday-api.test.ts:127`).

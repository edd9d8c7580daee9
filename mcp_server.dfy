/**
  The MCP tool server: the dispatcher that routes a tool call by name, and
  the handlers that turn tool arguments into GoodDay requests and the
  markdown text returned to the MCP client.

  The remote side is a `Replies` value holding the reply each kind of
  request gets; a handler's result records the requests it sent, so a
  request that was never sent can be observed.
*/
module McpServer {
  import opened Wrappers
  import opened Json
  import opened GoodDayTypes
  import opened GoodDayApi
  import Text

  // ---------------------------------------------------------------------
  // Tool arguments, remote replies, results
  // ---------------------------------------------------------------------

  /** The arguments of a tool call; `None` is an argument that was not given. */
  datatype Args = Args(
    projectId: Option<string>, projectName: Option<string>, userId: Option<string>,
    taskId: Option<string>, title: Option<string>, description: Option<string>,
    assigneeId: Option<string>, priority: Option<string>, dueDate: Option<string>,
    estimatedHours: Option<int>, tags: Option<seq<string>>, status: Option<string>,
    progress: Option<int>)

  /** The reply the remote gives to each kind of request. */
  datatype Replies = Replies(
    projects: Reply<seq<Project>>, users: Reply<seq<User>>,
    project: Reply<Project>, user: Reply<User>,
    tasks: Reply<seq<Task>>, task: Reply<Task>,
    created: Reply<Task>, updated: Reply<Task>, deleted: Reply<()>,
    health: Reply<()>, apiHealth: Reply<()>, root: Reply<()>)

  /** The requests sent and the text returned to the client. */
  datatype Outcome = Outcome(requests: seq<Request>, text: string)

  /** A handler that lets errors escape: its text, or the message it throws. */
  datatype Handled = Handled(requests: seq<Request>, result: Result<string, string>)

  /** An optional string argument in a template literal. */
  function ArgText(s: Option<string>): string
  {
    if s.Some? then s.value else "undefined"
  }

  /** An optional string, or the fallback when it is absent or empty. */
  function OrText(s: Option<string>, fallback: string): string
  {
    if Given(s) then s.value else fallback
  }

  /** An optional number as text, or the fallback when it is absent or zero. */
  function NumOr(n: Option<int>, fallback: string): string
  {
    if n.Some? && n.value != 0 then Text.IntText(n.value) else fallback
  }

  // ---------------------------------------------------------------------
  // Priority codes and hours
  // ---------------------------------------------------------------------

  const PriorityCodes: map<string, int> := map["low" := 1, "normal" := 3, "high" := 5, "urgent" := 7]

  /** The create priority: the code of a known level name, and the normal code 3 for anything else. */
  function PriorityCode(priority: Option<string>): (code: int)
    ensures code in {1, 3, 5, 7}
    ensures priority.Some? && priority.value in PriorityCodes ==> code == PriorityCodes[priority.value]
    ensures !(priority.Some? && priority.value in PriorityCodes) ==> code == 3
  {
    if Given(priority) && priority.value in PriorityCodes then PriorityCodes[priority.value] else 3
  }

  /** The priority level a create code stands for. */
  function PriorityOfCode(code: int): Option<UpdatePriority>
  {
    if code == 1 then Some(Low)
    else if code == 3 then Some(Normal)
    else if code == 5 then Some(High)
    else if code == 7 then Some(Urgent)
    else None
  }

  /** Every level's name maps to its own code, and the code gives the level back. */
  lemma PriorityCodeRoundTrip(p: UpdatePriority)
    ensures PriorityName(p) in PriorityCodes
    ensures PriorityOfCode(PriorityCode(Some(PriorityName(p)))) == Some(p)
  {
  }

  /** Distinct level names get distinct codes. */
  lemma PriorityCodesDistinct(a: UpdatePriority, b: UpdatePriority)
    requires a != b
    ensures PriorityCode(Some(PriorityName(a))) != PriorityCode(Some(PriorityName(b)))
  {
    PriorityCodeRoundTrip(a);
    PriorityCodeRoundTrip(b);
  }

  /** Estimated hours as minutes; zero or absent hours give no estimate at all. */
  function Minutes(hours: Option<int>): (m: Option<int>)
    ensures m.Some? <==> hours.Some? && hours.value != 0
    ensures m.Some? ==> m.value / 60 == hours.value && m.value % 60 == 0
  {
    if hours.Some? && hours.value != 0 then
      var h := hours.value;
      assert h * 60 == 60 * h;
      Some(h * 60)
    else None
  }

  // ---------------------------------------------------------------------
  // Project-name resolution
  // ---------------------------------------------------------------------

  /** A project matches when its lower-cased name contains the lower-cased query. */
  predicate NameMatches(p: Project, query: string)
  {
    Text.Contains(Text.Lower(p.name), Text.Lower(query))
  }

  function FindFrom(projects: seq<Project>, query: string, from: nat): (r: Option<nat>)
    requires from <= |projects|
    ensures r.Some? ==> from <= r.value < |projects| && NameMatches(projects[r.value], query)
    ensures r.Some? ==> forall j :: from <= j < r.value ==> !NameMatches(projects[j], query)
    ensures r.None? ==> forall j :: from <= j < |projects| ==> !NameMatches(projects[j], query)
    decreases |projects| - from
  {
    if from == |projects| then None
    else if NameMatches(projects[from], query) then Some(from)
    else FindFrom(projects, query, from + 1)
  }

  /** The index of the first project in listing order whose name matches. */
  function FindProject(projects: seq<Project>, query: string): (r: Option<nat>)
    ensures r.Some? ==> r.value < |projects| && NameMatches(projects[r.value], query)
    ensures r.Some? ==> forall j :: 0 <= j < r.value ==> !NameMatches(projects[j], query)
    ensures r.None? <==> forall j :: 0 <= j < |projects| ==> !NameMatches(projects[j], query)
  {
    FindFrom(projects, query, 0)
  }

  /** A project whose name equals the query up to case is found, at its place or earlier. */
  lemma ExactNameFound(projects: seq<Project>, query: string, i: nat)
    requires i < |projects| && Text.Lower(projects[i].name) == Text.Lower(query)
    ensures FindProject(projects, query).Some? && FindProject(projects, query).value <= i
  {
    Text.ContainsSelf(Text.Lower(query));
  }

  /** Lower-casing the query first makes no difference. */
  lemma FindProjectIgnoresCase(projects: seq<Project>, query: string)
    ensures FindProject(projects, Text.Lower(query)) == FindProject(projects, query)
  {
    Text.LowerIdempotent(query);
    assert forall j :: 0 <= j < |projects| ==>
      (NameMatches(projects[j], Text.Lower(query)) <==> NameMatches(projects[j], query));
  }

  /** The outcome of resolving a project name. */
  datatype Resolution = Use(projectId: Option<string>) | NoMatch(query: string, projects: seq<Project>) | FetchFailed(message: string)

  datatype Resolved = Resolved(requests: seq<Request>, resolution: Resolution)

  /** A truthy name without a truthy id: the one case in which the project list is fetched. */
  predicate ByName(projectId: Option<string>, projectName: Option<string>)
  {
    Given(projectName) && !Given(projectId)
  }

  /** The project id a task listing or creation uses. */
  function Resolve(projectId: Option<string>, projectName: Option<string>, reply: Reply<seq<Project>>): (r: Resolved)
    ensures !ByName(projectId, projectName) ==> r == Resolved([], Use(projectId))
    ensures ByName(projectId, projectName) ==> r.requests == [GetProjects(reply).request]
    ensures ByName(projectId, projectName) && reply.Err? ==>
              r.resolution == FetchFailed(Failed("fetch projects", reply.error))
    ensures ByName(projectId, projectName) && reply.Ok? ==>
              match FindProject(reply.value, projectName.value)
              case Some(i) => r.resolution == Use(Some(reply.value[i].id))
              case None => r.resolution == NoMatch(projectName.value, reply.value)
  {
    if ByName(projectId, projectName) then
      var fetch := GetProjects(reply);
      match fetch.result
      case Err(m) => Resolved([fetch.request], FetchFailed(m))
      case Ok(projects) =>
        match FindProject(projects, projectName.value)
        case Some(i) => Resolved([fetch.request], Use(Some(projects[i].id)))
        case None => Resolved([fetch.request], NoMatch(projectName.value, projects))
    else Resolved([], Use(projectId))
  }

  function ProjectLine(p: Project): string
  {
    "- " + p.name + " (ID: " + p.id + ")"
  }

  function ProjectLines(projects: seq<Project>): (r: seq<string>)
    ensures |r| == |projects| && forall i :: 0 <= i < |projects| ==> r[i] == ProjectLine(projects[i])
  {
    seq(|projects|, i requires 0 <= i < |projects| => ProjectLine(projects[i]))
  }

  const NotFoundIntro: string := "❌ **Project not found!**\n\nCould not find a project matching "
  const AvailableHead: string := ".\n\nAvailable projects:\n"

  function Quoted(s: string): string
  {
    "\"" + s + "\""
  }

  /** The not-found reply opens with its banner. */
  function NotFoundText(query: string, projects: seq<Project>): (r: string)
    ensures |NotFoundIntro| <= |r| && r[..|NotFoundIntro|] == NotFoundIntro
  {
    NotFoundIntro + Quoted(query) + AvailableHead + Text.Join(ProjectLines(projects), "\n")
  }

  /** The not-found text quotes the query and lists every project's name and id. */
  lemma NotFoundListsEveryProject(query: string, projects: seq<Project>, i: nat)
    requires i < |projects|
    ensures Text.Contains(NotFoundText(query, projects), Quoted(query))
    ensures Text.Contains(NotFoundText(query, projects), ProjectLine(projects[i]))
  {
    var listing := Text.Join(ProjectLines(projects), "\n");
    Text.ContainsSelf(Quoted(query));
    Text.ContainsInMiddle(NotFoundIntro, Quoted(query), AvailableHead + listing, Quoted(query));
    assert NotFoundIntro + Quoted(query) + (AvailableHead + listing) == NotFoundText(query, projects);
    ListingShowsEntry(NotFoundIntro + Quoted(query) + AvailableHead, ProjectLines(projects), i);
  }

  /** A listing's text holds every entry listed. */
  lemma ListingShowsEntry(head: string, entries: seq<string>, i: nat)
    requires i < |entries|
    ensures Text.Contains(head + Text.Join(entries, "\n"), entries[i])
  {
    Text.JoinContainsItem(entries, "\n", i);
    Text.ContainsInMiddle(head, Text.Join(entries, "\n"), "", entries[i]);
    assert head + Text.Join(entries, "\n") + "" == head + Text.Join(entries, "\n");
  }

  lemma ListingShowsEvery(head: string, entries: seq<string>)
    ensures forall i :: 0 <= i < |entries| ==> Text.Contains(head + Text.Join(entries, "\n"), entries[i])
  {
    forall i | 0 <= i < |entries| ensures Text.Contains(head + Text.Join(entries, "\n"), entries[i]) {
      ListingShowsEntry(head, entries, i);
    }
  }

  /** A piece between two others is shown by the whole. */
  lemma Shows(a: string, b: string, c: string)
    ensures Text.Contains(a + b + c, b)
  {
    Text.ContainsSelf(b);
    Text.ContainsInMiddle(a, b, c, b);
  }

  /** A details text of the form `head a mid b rest` shows both `a` and `b`. */
  lemma ShowsBoth(head: string, a: string, mid: string, b: string, rest: string)
    ensures Text.Contains(head + a + mid + b + rest, a)
    ensures Text.Contains(head + a + mid + b + rest, b)
  {
    Shows(head, a, mid + b + rest);
    assert head + a + (mid + b + rest) == head + a + mid + b + rest;
    Shows(head + a + mid, b, rest);
  }

  // ---------------------------------------------------------------------
  // list_goodday_tasks
  // ---------------------------------------------------------------------

  function TaskEntry(t: Task): string
  {
    "- **" + t.title + "** (ID: " + t.id + ")\n  Status: " + t.status
    + "\n  Priority: " + OrText(t.priority, "Not set")
    + "\n  Assignee: " + OrText(t.assigneeName, "Unassigned")
    + "\n  Progress: " + NumOr(t.progress, "0")
    + "%\n  Due Date: " + OrText(t.dueDate, "Not set") + "\n"
  }

  function TaskEntries(tasks: seq<Task>): (r: seq<string>)
    ensures |r| == |tasks| && forall i :: 0 <= i < |tasks| ==> r[i] == TaskEntry(tasks[i])
  {
    seq(|tasks|, i requires 0 <= i < |tasks| => TaskEntry(tasks[i]))
  }

  /** The listing header's filter phrase: the project's name, or else its id, whenever an id is in use. */
  function FilterText(resolved: Option<string>, projectName: Option<string>): string
  {
    if Given(resolved) then " for project " + (if Given(projectName) then projectName.value else resolved.value)
    else ""
  }

  function TasksHead(count: nat, filter: string): string
  {
    "Found " + Text.NatText(count) + " tasks" + filter + ":\n\n"
  }

  function TasksText(resolved: Option<string>, projectName: Option<string>, tasks: seq<Task>): string
  {
    TasksHead(|tasks|, FilterText(resolved, projectName)) + Text.Join(TaskEntries(tasks), "\n")
  }

  const TasksError: string := "❌ **Error fetching tasks:** "

  /** handleListTasks: resolve the project, fetch its tasks, render them; errors become text. */
  function ListTasksReply(projectId: Option<string>, projectName: Option<string>, replies: Replies): (out: Outcome)
    ensures var res := Resolve(projectId, projectName, replies.projects);
            out.requests == res.requests + (if res.resolution.Use? then [GetTasks(res.resolution.projectId, replies.tasks).request] else [])
    ensures 1 <= |out.requests| <= 2
  {
    var res := Resolve(projectId, projectName, replies.projects);
    match res.resolution
    case FetchFailed(m) => Outcome(res.requests, TasksError + m)
    case NoMatch(query, projects) => Outcome(res.requests, NotFoundText(query, projects))
    case Use(resolved) =>
      var fetch := GetTasks(resolved, replies.tasks);
      var requests := res.requests + [fetch.request];
      match fetch.result
      case Err(m) => Outcome(requests, TasksError + m)
      case Ok(tasks) => Outcome(requests, TasksText(resolved, projectName, tasks))
  }

  method HandleListTasks(projectId: Option<string>, projectName: Option<string>, replies: Replies)
    returns (out: Outcome)
    ensures out == ListTasksReply(projectId, projectName, replies)
  {
    ghost var res := Resolve(projectId, projectName, replies.projects);
    var requests: seq<Request> := [];
    var resolvedProjectId := projectId;
    if Given(projectName) && !Given(projectId) {
      var fetch := GetProjects(replies.projects);
      requests := requests + [fetch.request];
      if fetch.result.Err? {
        return Outcome(requests, TasksError + fetch.result.error);
      }
      var projects := fetch.result.value;
      var found := FindProject(projects, projectName.value);
      if found.None? {
        return Outcome(requests, NotFoundText(projectName.value, projects));
      }
      resolvedProjectId := Some(projects[found.value].id);
    }
    assert res.resolution == Use(resolvedProjectId) && res.requests == requests;
    var fetch := GetTasks(resolvedProjectId, replies.tasks);
    requests := requests + [fetch.request];
    if fetch.result.Err? {
      return Outcome(requests, TasksError + fetch.result.error);
    }
    out := Outcome(requests, TasksText(resolvedProjectId, projectName, fetch.result.value));
  }

  // ---------------------------------------------------------------------
  // create_goodday_task
  // ---------------------------------------------------------------------

  const CreateKeys: set<string> :=
    {"title", "message", "projectId", "toUserId", "priority", "deadline", "estimate", "fromUserId"}

  /** The `taskData` record under key `k`; an undefined value is not sent. */
  function CreateField(args: Args, projectId: Option<string>, k: string): Option<Json>
  {
    if k == "title" then Str(args.title)
    else if k == "message" then Str(args.description)
    else if k == "projectId" then Str(projectId)
    else if k == "toUserId" then Str(args.assigneeId)
    else if k == "priority" then Some(JNumber(PriorityCode(args.priority)))
    else if k == "deadline" then Str(args.dueDate)
    else if k == "estimate" then Num(Minutes(args.estimatedHours))
    else if k == "fromUserId" then Some(JString(DefaultFromUserId))
    else None
  }

  /** The body the server hands to `createTask`; tags are never part of it. */
  function CreateBody(args: Args, projectId: Option<string>): (body: map<string, Json>)
    ensures body.Keys <= CreateKeys && "tags" !in body
    ensures "priority" in body && body["priority"].JNumber? && body["priority"].num in {1, 3, 5, 7}
    ensures "fromUserId" in body && body["fromUserId"] == JString(DefaultFromUserId)
  {
    map k | k in CreateKeys && CreateField(args, projectId, k).Some? :: CreateField(args, projectId, k).value
  }

  /** The record the create body stands for: the three renamed fields, the mapped priority, minutes. */
  function CreateRecord(args: Args, title: string, projectId: string): TaskCreate
  {
    TaskCreate(title, args.description, projectId, args.assigneeId, Some(DefaultFromUserId),
               Some(PriorityCode(args.priority)), args.dueDate, Minutes(args.estimatedHours),
               None, None, None, None, None, None, None, None)
  }

  lemma CreateBodyGet(args: Args, projectId: Option<string>, k: string)
    ensures Get(CreateBody(args, projectId), k) == if k in CreateKeys then CreateField(args, projectId, k) else None
  {
  }

  /** The create body conforms to the create schema exactly when a title and a project id are set, and then parses as `CreateRecord`. */
  lemma CreateBodyMeaning(args: Args, projectId: Option<string>)
    ensures TaskCreateSchema(JObject(CreateBody(args, projectId))) <==> args.title.Some? && projectId.Some?
    ensures args.title.Some? && projectId.Some? ==>
              DecodeTaskCreate(JObject(CreateBody(args, projectId)))
              == Some(CreateRecord(args, args.title.value, projectId.value))
  {
    var body := CreateBody(args, projectId);
    CreateBodyGet(args, projectId, "title");
    CreateBodyGet(args, projectId, "projectId");
    if args.title.Some? && projectId.Some? {
      var t := CreateRecord(args, args.title.value, projectId.value);
      forall k | k in TaskCreateKeys ensures Get(body, k) == TaskCreateField(t, k) {
        CreateBodyGet(args, projectId, k);
      }
      TaskCreateReadsBack(body, t);
    }
  }

  /** The client's sender default leaves the create body as it is. */
  lemma CreateBodyKeepsSender(args: Args, projectId: Option<string>)
    ensures WithSender(CreateBody(args, projectId)) == CreateBody(args, projectId)
  {
  }

  /** A line appended only when its condition holds. */
  function Line(present: bool, line: string): string
  {
    if present then line else ""
  }

  function CreatedHeader(args: Args, t: Task): string
  {
    "✅ **Task created successfully!**\n\n**Title:** " + t.title + "\n**ID:** " + t.id
    + "\n**Project:** " + (if Given(t.projectName) then t.projectName.value else ArgText(args.projectName))
    + "\n**Status:** " + (if t.status != "" then t.status else "Not started")
    + "\n**Assignee:** " + OrText(t.assigneeName, "Unassigned")
  }

  function PriorityLine(args: Args): string
  {
    Line(Given(args.priority), "\n**Priority:** " + ArgText(args.priority))
  }

  function DueDateLine(args: Args): string
  {
    Line(Given(args.dueDate), "\n**Due Date:** " + ArgText(args.dueDate))
  }

  function HoursLine(args: Args): string
  {
    Line(args.estimatedHours.Some? && args.estimatedHours.value != 0,
         "\n**Estimated Hours:** " + NumOr(args.estimatedHours, ""))
  }

  function DescriptionLine(args: Args): string
  {
    Line(Given(args.description), "\n**Description:** ✅ Included")
  }

  /** The confirmation before the tags note: the header and each detail that was given. */
  function CreatedDetails(args: Args, t: Task): string
  {
    CreatedHeader(args, t) + PriorityLine(args) + DueDateLine(args) + HoursLine(args) + DescriptionLine(args)
  }

  const TagsNoteHead: string :=
    "\n\n⚠️ **Note:** Tags are not currently supported by the GoodDay API. The tags \""

  /** The warning that tags were not applied, present exactly for a non-empty tag list. */
  function TagsNote(tags: Option<seq<string>>): (note: string)
    ensures note == "" <==> tags.None? || |tags.value| == 0
    ensures tags.Some? && |tags.value| > 0 ==> Text.Contains(note, Text.Join(tags.value, ", "))
    ensures note != "" ==> |TagsNoteHead| <= |note| && note[..|TagsNoteHead|] == TagsNoteHead
  {
    if tags.Some? && |tags.value| > 0 then
      var joined := Text.Join(tags.value, ", ");
      Text.ContainsSelf(joined);
      Text.ContainsInMiddle(TagsNoteHead, joined, "\" were not added to the task.", joined);
      TagsNoteHead + joined + "\" were not added to the task."
    else ""
  }

  function CreatedText(args: Args, t: Task): string
  {
    CreatedDetails(args, t) + TagsNote(args.tags)
  }

  /** The confirmation ends in the tags warning when tags were given, and has none otherwise. */
  lemma CreatedTextTags(args: Args, t: Task)
    ensures args.tags.Some? && |args.tags.value| > 0 ==>
              Text.Contains(CreatedText(args, t), Text.Join(args.tags.value, ", "))
    ensures args.tags.None? || |args.tags.value| == 0 ==> CreatedText(args, t) == CreatedDetails(args, t)
    ensures var text := CreatedText(args, t); var note := TagsNote(args.tags);
            |note| <= |text| && text[|text| - |note|..] == note
  {
    if args.tags.Some? && |args.tags.value| > 0 {
      var joined := Text.Join(args.tags.value, ", ");
      Text.ContainsInMiddle(CreatedDetails(args, t), TagsNote(args.tags), "", joined);
      assert CreatedDetails(args, t) + TagsNote(args.tags) + "" == CreatedText(args, t);
    }
  }

  const CreateError: string := "❌ **Error creating task:** "

  /** handleCreateTask: resolve the project, send the create body, render; errors become text. */
  function CreateTaskReply(args: Args, replies: Replies): (out: Outcome)
    ensures var res := Resolve(args.projectId, args.projectName, replies.projects);
            out.requests == res.requests
                            + (if res.resolution.Use? then [CreateTask(CreateBody(args, res.resolution.projectId), replies.created).request] else [])
    ensures 1 <= |out.requests| <= 2
  {
    var res := Resolve(args.projectId, args.projectName, replies.projects);
    match res.resolution
    case FetchFailed(m) => Outcome(res.requests, CreateError + m)
    case NoMatch(query, projects) => Outcome(res.requests, NotFoundText(query, projects))
    case Use(projectId) =>
      var call := CreateTask(CreateBody(args, projectId), replies.created);
      var requests := res.requests + [call.request];
      match call.result
      case Err(m) => Outcome(requests, CreateError + m)
      case Ok(t) => Outcome(requests, CreatedText(args, t))
  }

  method HandleCreateTask(args: Args, replies: Replies) returns (out: Outcome)
    ensures out == CreateTaskReply(args, replies)
  {
    ghost var res := Resolve(args.projectId, args.projectName, replies.projects);
    var requests: seq<Request> := [];
    var projectId := args.projectId;
    if Given(args.projectName) && !Given(args.projectId) {
      var fetch := GetProjects(replies.projects);
      requests := requests + [fetch.request];
      if fetch.result.Err? {
        return Outcome(requests, CreateError + fetch.result.error);
      }
      var projects := fetch.result.value;
      var found := FindProject(projects, args.projectName.value);
      if found.None? {
        return Outcome(requests, NotFoundText(args.projectName.value, projects));
      }
      projectId := Some(projects[found.value].id);
    }
    assert res.resolution == Use(projectId) && res.requests == requests;
    var call := CreateTask(CreateBody(args, projectId), replies.created);
    requests := requests + [call.request];
    if call.result.Err? {
      return Outcome(requests, CreateError + call.result.error);
    }
    var responseMessage := ComposeCreated(args, call.result.value);
    out := Outcome(requests, responseMessage);
  }

  /** A conditional append: `line` is added to `text` only when `present` holds. */
  method AppendIf(text: string, present: bool, line: string) returns (r: string)
    ensures r == text + Line(present, line)
  {
    r := text;
    if present {
      r := r + line;
    } else {
      assert text + "" == text;
    }
  }

  /** The confirmation, built by successive appends. */
  method ComposeCreated(args: Args, task: Task) returns (responseMessage: string)
    ensures responseMessage == CreatedText(args, task)
  {
    responseMessage := CreatedHeader(args, task);
    responseMessage := AppendIf(responseMessage, Given(args.priority), "\n**Priority:** " + ArgText(args.priority));
    responseMessage := AppendIf(responseMessage, Given(args.dueDate), "\n**Due Date:** " + ArgText(args.dueDate));
    responseMessage := AppendIf(responseMessage, args.estimatedHours.Some? && args.estimatedHours.value != 0,
                                "\n**Estimated Hours:** " + NumOr(args.estimatedHours, ""));
    responseMessage := AppendIf(responseMessage, Given(args.description), "\n**Description:** ✅ Included");
    assert responseMessage == CreatedDetails(args, task);
    var hasTags := args.tags.Some? && |args.tags.value| > 0;
    responseMessage := AppendIf(responseMessage, hasTags, TagsNote(args.tags));
    assert Line(hasTags, TagsNote(args.tags)) == TagsNote(args.tags);
  }

  // ---------------------------------------------------------------------
  // update_goodday_task and delete_goodday_task
  // ---------------------------------------------------------------------

  const UpdateKeys: set<string> :=
    {"title", "message", "status", "priority", "toUserId", "deadline", "estimate", "progress"}

  /** The `updateData` record under key `k`; priority stays a string, nothing is validated. */
  function UpdateField(args: Args, k: string): Option<Json>
  {
    if k == "title" then Str(args.title)
    else if k == "message" then Str(args.description)
    else if k == "status" then Str(args.status)
    else if k == "priority" then Str(args.priority)
    else if k == "toUserId" then Str(args.assigneeId)
    else if k == "deadline" then Str(args.dueDate)
    else if k == "estimate" then Num(Minutes(args.estimatedHours))
    else if k == "progress" then Num(args.progress)
    else None
  }

  function UpdateBody(args: Args): (body: map<string, Json>)
    ensures body.Keys <= UpdateKeys && "tags" !in body
    ensures Get(body, "title") == Str(args.title)
    ensures Get(body, "message") == Str(args.description)
    ensures Get(body, "status") == Str(args.status)
    ensures Get(body, "priority") == Str(args.priority)
    ensures Get(body, "toUserId") == Str(args.assigneeId)
    ensures Get(body, "deadline") == Str(args.dueDate)
    ensures Get(body, "estimate") == Num(Minutes(args.estimatedHours))
    ensures Get(body, "progress") == Num(args.progress)
  {
    map k | k in UpdateKeys && UpdateField(args, k).Some? :: UpdateField(args, k).value
  }

  lemma UpdateBodyGet(args: Args, k: string)
    ensures Get(UpdateBody(args), k) == if k in UpdateKeys then UpdateField(args, k) else None
  {
  }

  /** The record an update body stands for, when its priority is one of the four levels. */
  function UpdateRecord(args: Args): TaskUpdate
  {
    TaskUpdate(args.title, args.description, args.status,
               if args.priority.Some? then ParsePriority(args.priority.value) else None,
               args.assigneeId, args.dueDate, Minutes(args.estimatedHours), args.progress, None, None)
  }

  /** The update body conforms to the update schema exactly when priority is a level name and progress is in [0, 100]. */
  lemma UpdateBodyMeaning(args: Args)
    ensures TaskUpdateSchema(JObject(UpdateBody(args))) <==>
              (args.priority.None? || args.priority.value in PriorityNames)
              && (args.progress.None? || 0 <= args.progress.value <= 100)
    ensures TaskUpdateSchema(JObject(UpdateBody(args))) ==>
              DecodeTaskUpdate(JObject(UpdateBody(args))) == Some(UpdateRecord(args))
  {
    var body := UpdateBody(args);
    forall k | k in TaskUpdateKeys ensures Get(body, k) == UpdateField(args, k) {
      UpdateBodyGet(args, k);
    }
    UpdateBodyGet(args, "priority");
    UpdateBodyGet(args, "progress");
  }

  const UpdatedHead: string := "✅ **Task updated successfully!**\n\n**Title:** "

  /** The update confirmation shows the updated task's title and id. */
  function UpdatedText(t: Task): (r: string)
    ensures Text.Contains(r, t.title) && Text.Contains(r, t.id)
  {
    var rest := "\n**Status:** " + t.status
                + "\n**Priority:** " + OrText(t.priority, "Not set")
                + "\n**Assignee:** " + OrText(t.assigneeName, "Unassigned")
                + "\n**Progress:** " + NumOr(t.progress, "0") + "%";
    ShowsBoth(UpdatedHead, t.title, "\n**ID:** ", t.id, rest);
    UpdatedHead + t.title + "\n**ID:** " + t.id + rest
  }

  /** handleUpdateTask: one PUT of the update body, whatever it holds; errors escape. */
  function UpdateTaskReply(args: Args, replies: Replies): (h: Handled)
    ensures h.requests == [Request(PUT, "/tasks/" + ArgText(args.taskId), Some(UpdateBody(args)))]
    ensures h.result.Ok? <==> replies.updated.Ok?
    ensures replies.updated.Err? ==> h.result.error == Failed("update task", replies.updated.error)
  {
    var call := UpdateTask(ArgText(args.taskId), UpdateBody(args), replies.updated);
    match call.result
    case Err(m) => Handled([call.request], Err(m))
    case Ok(t) => Handled([call.request], Ok(UpdatedText(t)))
  }

  const DeletedHead: string := "✅ **Task deleted successfully!**\n\nTask ID: "

  /** handleDeleteTask: one DELETE; the confirmation names the task id it was given. */
  function DeleteTaskReply(taskId: Option<string>, replies: Replies): (h: Handled)
    ensures h.requests == [Request(DELETE, "/tasks/" + ArgText(taskId), None)]
    ensures h.result.Ok? <==> replies.deleted.Ok?
    ensures h.result.Ok? ==> Text.Contains(h.result.value, ArgText(taskId))
    ensures replies.deleted.Err? ==> h.result.error == Failed("delete task", replies.deleted.error)
  {
    var call := DeleteTask(ArgText(taskId), replies.deleted);
    match call.result
    case Err(m) => Handled([call.request], Err(m))
    case Ok(_) =>
      var id := ArgText(taskId);
      Text.ContainsSelf(id);
      Text.ContainsInMiddle(DeletedHead, id, "", id);
      assert DeletedHead + id + "" == DeletedHead + id;
      Handled([call.request], Ok(DeletedHead + id))
  }

  // ---------------------------------------------------------------------
  // The remaining handlers
  // ---------------------------------------------------------------------

  function ProjectEntry(p: Project): string
  {
    "- **" + p.name + "** (ID: " + p.id + ")\n  Description: " + OrText(p.description, "No description")
    + "\n  Status: " + OrText(p.status, "Unknown")
    + "\n  Progress: " + NumOr(p.progress, "0") + "%\n"
  }

  function ProjectEntries(projects: seq<Project>): (r: seq<string>)
    ensures |r| == |projects| && forall i :: 0 <= i < |projects| ==> r[i] == ProjectEntry(projects[i])
  {
    seq(|projects|, i requires 0 <= i < |projects| => ProjectEntry(projects[i]))
  }

  const ProjectsError: string := "❌ Error fetching projects: "

  /** handleListProjects: catches its own errors. */
  function ListProjectsReply(replies: Replies): (out: Outcome)
    ensures out.requests == [Request(GET, "/projects", None)]
    ensures replies.projects.Ok? ==>
              forall i :: 0 <= i < |replies.projects.value| ==>
                Text.Contains(out.text, ProjectEntry(replies.projects.value[i]))
  {
    var fetch := GetProjects(replies.projects);
    match fetch.result
    case Err(m) => Outcome([fetch.request], ProjectsError + m)
    case Ok(projects) =>
      var head := "Found " + Text.NatText(|projects|) + " projects:\n\n";
      ListingShowsEvery(head, ProjectEntries(projects));
      Outcome([fetch.request], head + Text.Join(ProjectEntries(projects), "\n"))
  }

  function UserEntry(u: User): string
  {
    "- **" + u.firstName + " " + u.lastName + "** (ID: " + u.id + ")\n  Email: " + u.email
    + "\n  Role: " + OrText(u.role, "Not specified")
    + "\n  Department: " + OrText(u.department, "Not specified") + "\n"
  }

  function UserEntries(users: seq<User>): (r: seq<string>)
    ensures |r| == |users| && forall i :: 0 <= i < |users| ==> r[i] == UserEntry(users[i])
  {
    seq(|users|, i requires 0 <= i < |users| => UserEntry(users[i]))
  }

  /** The text of a handler that lets errors escape, or the error it throws. */
  function Rethrow<T>(call: Call<T>, render: T -> string): Handled
  {
    match call.result
    case Err(m) => Handled([call.request], Err(m))
    case Ok(v) => Handled([call.request], Ok(render(v)))
  }

  /** The user listing shows every user's entry. */
  function UsersText(users: seq<User>): (r: string)
    ensures forall i :: 0 <= i < |users| ==> Text.Contains(r, UserEntry(users[i]))
  {
    var head := "Found " + Text.NatText(|users|) + " users:\n\n";
    ListingShowsEvery(head, UserEntries(users));
    head + Text.Join(UserEntries(users), "\n")
  }

  /** The project details show the project's name and id. */
  function ProjectText(p: Project): (r: string)
    ensures Text.Contains(r, p.name) && Text.Contains(r, p.id)
  {
    var rest := "\n**Description:** " + OrText(p.description, "No description")
                + "\n**Status:** " + OrText(p.status, "Unknown")
                + "\n**Progress:** " + NumOr(p.progress, "0") + "%"
                + "\n**Owner:** " + OrText(p.ownerName, "Not specified")
                + "\n**Team Size:** " + NumOr(p.teamSize, "Not specified");
    ShowsBoth("**Project Details:**\n\n**Name:** ", p.name, "\n**ID:** ", p.id, rest);
    "**Project Details:**\n\n**Name:** " + p.name + "\n**ID:** " + p.id + rest
  }

  /** The user details show the user's id and email. */
  function UserText(u: User): (r: string)
    ensures Text.Contains(r, u.id) && Text.Contains(r, u.email)
  {
    var head := "**User Details:**\n\n**Name:** " + u.firstName + " " + u.lastName + "\n**ID:** ";
    var rest := "\n**Role:** " + OrText(u.role, "Not specified")
                + "\n**Department:** " + OrText(u.department, "Not specified")
                + "\n**Active:** " + (if u.isActive == Some(true) then "Yes" else "No");
    ShowsBoth(head, u.id, "\n**Email:** ", u.email, rest);
    head + u.id + "\n**Email:** " + u.email + rest
  }

  /** The task details show the task's title and id. */
  function TaskText(t: Task): (r: string)
    ensures Text.Contains(r, t.title) && Text.Contains(r, t.id)
  {
    var rest := "\n**Description:** " + OrText(t.description, "No description")
                + "\n**Status:** " + t.status
                + "\n**Priority:** " + OrText(t.priority, "Not set")
                + "\n**Assignee:** " + OrText(t.assigneeName, "Unassigned")
                + "\n**Project:** " + OrText(t.projectName, "Unknown")
                + "\n**Progress:** " + NumOr(t.progress, "0") + "%"
                + "\n**Due Date:** " + OrText(t.dueDate, "Not set")
                + "\n**Estimated Hours:** " + NumOr(t.estimatedHours, "Not set")
                + "\n**Actual Hours:** " + NumOr(t.actualHours, "Not set");
    ShowsBoth("**Task Details:**\n\n**Title:** ", t.title, "\n**ID:** ", t.id, rest);
    "**Task Details:**\n\n**Title:** " + t.title + "\n**ID:** " + t.id + rest
  }

  const HealthyText: string := "✅ **GoodDay API is healthy and connected!**"
  const UnhealthyText: string := "❌ **GoodDay API connection failed!**"

  /** The health-check tool never reports an error; it reports health exactly when some probe succeeded. */
  function HealthReply(replies: Replies): (out: Outcome)
    ensures out.text == (if replies.health.Ok? || replies.apiHealth.Ok? || replies.root.Ok? then HealthyText else UnhealthyText)
    ensures 1 <= |out.requests| <= 3
  {
    var probe := HealthCheck(replies.health, replies.apiHealth, replies.root);
    Outcome(probe.requests, if probe.healthy then HealthyText else UnhealthyText)
  }

  // ---------------------------------------------------------------------
  // The dispatcher
  // ---------------------------------------------------------------------

  datatype Tool =
    | ListProjectsTool | ListUsersTool | GetProjectTool | GetUserTool | ListTasksTool
    | GetTaskTool | CreateTaskTool | UpdateTaskTool | DeleteTaskTool | HealthCheckTool

  /** The name each tool is called by. */
  function ToolName(t: Tool): string
  {
    match t
    case ListProjectsTool => "list_goodday_projects"
    case ListUsersTool => "list_goodday_users"
    case GetProjectTool => "get_goodday_project"
    case GetUserTool => "get_goodday_user"
    case ListTasksTool => "list_goodday_tasks"
    case GetTaskTool => "get_goodday_task"
    case CreateTaskTool => "create_goodday_task"
    case UpdateTaskTool => "update_goodday_task"
    case DeleteTaskTool => "delete_goodday_task"
    case HealthCheckTool => "goodday_health_check"
  }

  /** Which tool a name selects, if any. */
  function ParseTool(name: string): (r: Option<Tool>)
    ensures r.Some? ==> ToolName(r.value) == name
  {
    if name == "list_goodday_projects" then Some(ListProjectsTool)
    else if name == "list_goodday_users" then Some(ListUsersTool)
    else if name == "get_goodday_project" then Some(GetProjectTool)
    else if name == "get_goodday_user" then Some(GetUserTool)
    else if name == "list_goodday_tasks" then Some(ListTasksTool)
    else if name == "get_goodday_task" then Some(GetTaskTool)
    else if name == "create_goodday_task" then Some(CreateTaskTool)
    else if name == "update_goodday_task" then Some(UpdateTaskTool)
    else if name == "delete_goodday_task" then Some(DeleteTaskTool)
    else if name == "goodday_health_check" then Some(HealthCheckTool)
    else None
  }

  /** Every tool is selected by its own name. */
  lemma ToolNameRoundTrip(t: Tool)
    ensures ParseTool(ToolName(t)) == Some(t)
  {
  }

  /** An escaping error becomes an `Error: ` text. */
  function Rendered(h: Handled): (out: Outcome)
    ensures out.requests == h.requests
    ensures h.result.Ok? ==> out.text == h.result.value
    ensures h.result.Err? ==> |out.text| >= 7 && out.text[..7] == "Error: " && out.text[7..] == h.result.error
  {
    Outcome(h.requests, if h.result.Ok? then h.result.value else "Error: " + h.result.error)
  }

  /** The handler each tool runs, with the dispatcher's catch around it. */
  function RunTool(t: Tool, args: Args, replies: Replies): (out: Outcome)
    ensures 1 <= |out.requests| <= 3
    ensures t != HealthCheckTool ==> |out.requests| <= 2
  {
    match t
    case ListProjectsTool => ListProjectsReply(replies)
    case ListUsersTool => Rendered(Rethrow(GetUsers(replies.users), UsersText))
    case GetProjectTool => Rendered(Rethrow(GetProjectById(ArgText(args.projectId), replies.project), ProjectText))
    case GetUserTool => Rendered(Rethrow(GetUserById(ArgText(args.userId), replies.user), UserText))
    case ListTasksTool => ListTasksReply(args.projectId, args.projectName, replies)
    case GetTaskTool => Rendered(Rethrow(GetTaskById(ArgText(args.taskId), replies.task), TaskText))
    case CreateTaskTool => CreateTaskReply(args, replies)
    case UpdateTaskTool => Rendered(UpdateTaskReply(args, replies))
    case DeleteTaskTool => Rendered(DeleteTaskReply(args.taskId, replies))
    case HealthCheckTool => HealthReply(replies)
  }

  /** The tool-call handler: route by name; nothing escapes, an unknown name included. */
  function CallTool(name: string, args: Args, replies: Replies): (out: Outcome)
    ensures ParseTool(name).None? ==> out == Outcome([], "Error: Unknown tool: " + name)
    ensures ParseTool(name).Some? ==> out == RunTool(ParseTool(name).value, args, replies)
  {
    match ParseTool(name)
    case None => Outcome([], "Error: Unknown tool: " + name)
    case Some(t) => RunTool(t, args, replies)
  }

  // ---------------------------------------------------------------------
  // Properties of tool calls
  // ---------------------------------------------------------------------

  /** The tools without their own catch, and the operation their errors name. */
  function RethrowingOp(t: Tool): Option<string>
  {
    match t
    case ListUsersTool => Some("fetch users")
    case GetProjectTool => Some("fetch project")
    case GetUserTool => Some("fetch user")
    case GetTaskTool => Some("fetch task")
    case UpdateTaskTool => Some("update task")
    case DeleteTaskTool => Some("delete task")
    case _ => None
  }

  /** The one request tool `t` sends is answered with failure `f`. */
  predicate FailsWith(t: Tool, replies: Replies, f: Failure)
  {
    match t
    case ListUsersTool => replies.users == Err(f)
    case GetProjectTool => replies.project == Err(f)
    case GetUserTool => replies.user == Err(f)
    case GetTaskTool => replies.task == Err(f)
    case UpdateTaskTool => replies.updated == Err(f)
    case DeleteTaskTool => replies.deleted == Err(f)
    case _ => false
  }

  /** Calling a tool by its name runs that tool's handler. */
  lemma DispatchSelects(t: Tool, args: Args, replies: Replies)
    ensures CallTool(ToolName(t), args, replies) == RunTool(t, args, replies)
  {
    ToolNameRoundTrip(t);
  }

  /** A failure in a tool without its own catch becomes `Error: Failed to <op>: <cause>`. */
  lemma RethrownFailureIsText(t: Tool, args: Args, replies: Replies, f: Failure)
    requires FailsWith(t, replies, f)
    ensures RethrowingOp(t).Some?
    ensures RunTool(t, args, replies).text == "Error: " + Failed(RethrowingOp(t).value, f)
    ensures |RunTool(t, args, replies).requests| == 1
  {
    match t
    case ListUsersTool =>
    case GetProjectTool =>
    case GetUserTool =>
    case GetTaskTool =>
    case UpdateTaskTool =>
    case DeleteTaskTool =>
  }

  /** list_goodday_projects renders a failure under its own heading. */
  lemma ProjectsFailureIsText(replies: Replies, f: Failure)
    requires replies.projects == Err(f)
    ensures ListProjectsReply(replies).text == ProjectsError + Failed("fetch projects", f)
  {
  }

  /** list_goodday_tasks renders a failure of either of its requests under its own heading. */
  lemma TasksFailureIsText(projectId: Option<string>, projectName: Option<string>, replies: Replies, f: Failure)
    ensures ByName(projectId, projectName) && replies.projects == Err(f) ==>
              ListTasksReply(projectId, projectName, replies).text == TasksError + Failed("fetch projects", f)
    ensures Resolve(projectId, projectName, replies.projects).resolution.Use? && replies.tasks == Err(f) ==>
              ListTasksReply(projectId, projectName, replies).text == TasksError + Failed("fetch tasks", f)
  {
  }

  /** create_goodday_task renders a failure of either of its requests under its own heading. */
  lemma CreateFailureIsText(args: Args, replies: Replies, f: Failure)
    ensures ByName(args.projectId, args.projectName) && replies.projects == Err(f) ==>
              CreateTaskReply(args, replies).text == CreateError + Failed("fetch projects", f)
    ensures Resolve(args.projectId, args.projectName, replies.projects).resolution.Use? && replies.created == Err(f) ==>
              CreateTaskReply(args, replies).text == CreateError + Failed("create task", f)
  {
  }

  /** The delete confirmation shows the task id the call was given. */
  lemma DeleteConfirmsId(args: Args, replies: Replies)
    requires replies.deleted.Ok?
    ensures Text.Contains(RunTool(DeleteTaskTool, args, replies).text, ArgText(args.taskId))
    ensures RunTool(DeleteTaskTool, args, replies).requests == [Request(DELETE, "/tasks/" + ArgText(args.taskId), None)]
  {
  }

  /** With a project id given, or no project name, listing never fetches the project list. */
  lemma ListGivenIdSkipsLookup(projectId: Option<string>, projectName: Option<string>, replies: Replies)
    requires !ByName(projectId, projectName)
    ensures ListTasksReply(projectId, projectName, replies).requests == [GetTasks(projectId, replies.tasks).request]
  {
  }

  /** With a project id given, or no project name, creation never fetches the project list. */
  lemma CreateGivenIdSkipsLookup(args: Args, replies: Replies)
    requires !ByName(args.projectId, args.projectName)
    ensures CreateTaskReply(args, replies).requests == [Request(POST, "/tasks", Some(CreateBody(args, args.projectId)))]
  {
    CreateBodyKeepsSender(args, args.projectId);
  }

  /** When no project matches the name, listing requests nothing but the project list and lists every project. */
  lemma ListNoMatchStops(projectId: Option<string>, projectName: Option<string>, replies: Replies, projects: seq<Project>)
    requires ByName(projectId, projectName) && replies.projects == Ok(projects)
    requires FindProject(projects, projectName.value).None?
    ensures ListTasksReply(projectId, projectName, replies)
            == Outcome([Request(GET, "/projects", None)], NotFoundText(projectName.value, projects))
  {
  }

  /** When no project matches the name, creation requests nothing but the project list and lists every project. */
  lemma CreateNoMatchStops(args: Args, replies: Replies, projects: seq<Project>)
    requires ByName(args.projectId, args.projectName) && replies.projects == Ok(projects)
    requires FindProject(projects, args.projectName.value).None?
    ensures CreateTaskReply(args, replies)
            == Outcome([Request(GET, "/projects", None)], NotFoundText(args.projectName.value, projects))
  {
  }

  /** When a project matches, listing uses the first match's id, after one project-list fetch. */
  lemma FirstMatchListed(projectId: Option<string>, projectName: Option<string>, replies: Replies, projects: seq<Project>, i: nat)
    requires ByName(projectId, projectName) && replies.projects == Ok(projects)
    requires FindProject(projects, projectName.value) == Some(i)
    ensures ListTasksReply(projectId, projectName, replies).requests
            == [Request(GET, "/projects", None), GetTasks(Some(projects[i].id), replies.tasks).request]
  {
  }

  /** When a project matches, creation puts the first match's id in the body, after one project-list fetch. */
  lemma FirstMatchCreated(args: Args, replies: Replies, projects: seq<Project>, i: nat)
    requires ByName(args.projectId, args.projectName) && replies.projects == Ok(projects)
    requires FindProject(projects, args.projectName.value) == Some(i)
    ensures CreateTaskReply(args, replies).requests
            == [Request(GET, "/projects", None), Request(POST, "/tasks", Some(CreateBody(args, Some(projects[i].id))))]
  {
    var res := Resolve(args.projectId, args.projectName, replies.projects);
    assert res.resolution == Use(Some(projects[i].id));
    CreateBodyKeepsSender(args, Some(projects[i].id));
  }

  /**
    Once an id is in use (given, or resolved from the name), the listing shows
    the count, the filter for that id and every task fetched.
  */
  lemma ListedTasksShown(projectId: Option<string>, projectName: Option<string>, replies: Replies,
                         resolved: Option<string>, tasks: seq<Task>, i: nat)
    requires Resolve(projectId, projectName, replies.projects).resolution == Use(resolved)
    requires replies.tasks == Ok(tasks) && i < |tasks|
    ensures var text := ListTasksReply(projectId, projectName, replies).text;
            && text == TasksHead(|tasks|, FilterText(resolved, projectName)) + Text.Join(TaskEntries(tasks), "\n")
            && Text.Contains(text, TaskEntry(tasks[i]))
  {
    ListingShowsEntry(TasksHead(|tasks|, FilterText(resolved, projectName)), TaskEntries(tasks), i);
  }
}

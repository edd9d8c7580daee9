/**
  The GoodDay REST client. The HTTP layer is not modelled: each operation
  takes the reply the remote gives to the one request it sends, and returns
  that request together with what the operation returns or throws.
*/
module GoodDayApi {
  import opened Wrappers
  import opened Json
  import opened GoodDayTypes
  import Text

  datatype Method = GET | POST | PUT | DELETE

  /** One outbound HTTP request; `body` is the JSON object sent, if any. */
  datatype Request = Request(verb: Method, path: string, body: Option<map<string, Json>>)

  /** What a failed request rejects with: an `Error` with a message, or some other value. */
  datatype Failure = Thrown(message: string) | NotAnError

  type Reply<T> = Result<T, Failure>

  /** The request an operation sent, and its outcome: a value, or the message of the error it throws. */
  datatype Call<T> = Call(request: Request, result: Result<T, string>)

  /** The source user that `createTask` fills in when none is given. */
  const DefaultFromUserId: string := "pqj4fL"

  // ---------------------------------------------------------------------
  // The remote API's resources and the paths that name them
  // ---------------------------------------------------------------------

  datatype Resource =
    | Users | UserItem(userId: string)
    | Projects | ProjectItem(projectId: string) | ProjectTasks(projectId: string)
    | Tasks | TaskItem(taskId: string) | SingularTask(taskId: string)
    | Health | ApiHealth | Root

  /** The path of each resource; note the singular `/task/{id}` beside `/tasks/{id}`. */
  function PathOf(r: Resource): string
  {
    match r
    case Users => "/users"
    case UserItem(id) => "/users/" + id
    case Projects => "/projects"
    case ProjectItem(id) => "/projects/" + id
    case ProjectTasks(id) => "/projects/" + id + "/tasks"
    case Tasks => "/tasks"
    case TaskItem(id) => "/tasks/" + id
    case SingularTask(id) => "/task/" + id
    case Health => "/health"
    case ApiHealth => "/api/health"
    case Root => "/"
  }

  /** Which resource a path names, read segment by segment. */
  function ParsePath(p: string): Option<Resource>
  {
    if |p| == 0 || p[0] != '/' then None
    else ParseSegments(Text.Split(p[1..], '/'))
  }

  function ParseSegments(s: seq<string>): Option<Resource>
  {
    if |s| == 1 then OneSegment(s[0])
    else if |s| == 2 then TwoSegments(s[0], s[1])
    else if |s| == 3 && s[0] == "projects" && s[2] == "tasks" then Some(ProjectTasks(s[1]))
    else None
  }

  function OneSegment(a: string): Option<Resource>
  {
    if a == "" then Some(Root)
    else if a == "users" then Some(Users)
    else if a == "projects" then Some(Projects)
    else if a == "tasks" then Some(Tasks)
    else if a == "health" then Some(Health)
    else None
  }

  function TwoSegments(a: string, b: string): Option<Resource>
  {
    if a == "users" then Some(UserItem(b))
    else if a == "projects" then Some(ProjectItem(b))
    else if a == "tasks" then Some(TaskItem(b))
    else if a == "task" then Some(SingularTask(b))
    else if a == "api" && b == "health" then Some(ApiHealth)
    else None
  }

  /** Identifiers are placed in paths verbatim, so they must not hold a `/`. */
  predicate PlainIds(r: Resource)
  {
    match r
    case UserItem(id) => '/' !in id
    case ProjectItem(id) => '/' !in id
    case ProjectTasks(id) => '/' !in id
    case TaskItem(id) => '/' !in id
    case SingularTask(id) => '/' !in id
    case _ => true
  }

  lemma SegmentPair(a: string, b: string)
    requires '/' !in a && '/' !in b
    ensures Text.Split(a + "/" + b, '/') == [a, b]
  {
    Text.SplitPlain(b, '/');
    Text.SplitFirst(a, '/', b);
    assert a + "/" + b == a + ['/'] + b;
  }

  lemma ParseOne(a: string)
    requires '/' !in a
    ensures ParsePath("/" + a) == OneSegment(a)
  {
    assert ("/" + a)[1..] == a;
    Text.SplitPlain(a, '/');
  }

  lemma ParseTwo(a: string, b: string)
    requires '/' !in a && '/' !in b
    ensures ParsePath("/" + a + "/" + b) == TwoSegments(a, b)
  {
    assert ("/" + a + "/" + b)[1..] == a + "/" + b;
    SegmentPair(a, b);
  }

  lemma ParseThree(a: string, b: string, c: string)
    requires '/' !in a && '/' !in b && '/' !in c
    ensures ParsePath("/" + a + "/" + b + "/" + c) == ParseSegments([a, b, c])
  {
    assert ("/" + a + "/" + b + "/" + c)[1..] == a + ['/'] + (b + "/" + c);
    SegmentPair(b, c);
    Text.SplitFirst(a, '/', b + "/" + c);
  }

  lemma ItemRoundTrip(a: string, id: string, r: Resource)
    requires '/' !in a && '/' !in id
    requires PathOf(r) == "/" + a + "/" + id && TwoSegments(a, id) == Some(r)
    ensures ParsePath(PathOf(r)) == Some(r)
  {
    ParseTwo(a, id);
  }

  lemma FixedRoundTrip(a: string, r: Resource)
    requires '/' !in a
    requires PathOf(r) == "/" + a && OneSegment(a) == Some(r)
    ensures ParsePath(PathOf(r)) == Some(r)
  {
    ParseOne(a);
  }

  /** The one-segment paths read back. */
  lemma FixedPathRoundTrip(r: Resource)
    requires r.Users? || r.Projects? || r.Tasks? || r.Health? || r.Root?
    ensures ParsePath(PathOf(r)) == Some(r)
  {
    match r
    case Users => FixedRoundTrip("users", r);
    case Projects => FixedRoundTrip("projects", r);
    case Tasks => FixedRoundTrip("tasks", r);
    case Health => FixedRoundTrip("health", r);
    case Root => FixedRoundTrip("", r);
  }

  /** The two-segment paths that end in an identifier read back. */
  lemma ItemPathRoundTrip(r: Resource)
    requires r.UserItem? || r.ProjectItem? || r.TaskItem? || r.SingularTask?
    requires PlainIds(r)
    ensures ParsePath(PathOf(r)) == Some(r)
  {
    match r
    case UserItem(id) => ItemRoundTrip("users", id, r);
    case ProjectItem(id) => ItemRoundTrip("projects", id, r);
    case TaskItem(id) => ItemRoundTrip("tasks", id, r);
    case SingularTask(id) => ItemRoundTrip("task", id, r);
  }

  /** Reading a resource's path gives the resource back. */
  lemma PathRoundTrip(r: Resource)
    requires PlainIds(r)
    ensures ParsePath(PathOf(r)) == Some(r)
  {
    if r.Users? || r.Projects? || r.Tasks? || r.Health? || r.Root? {
      FixedPathRoundTrip(r);
    } else if r.UserItem? || r.ProjectItem? || r.TaskItem? || r.SingularTask? {
      ItemPathRoundTrip(r);
    } else if r.ApiHealth? {
      ItemRoundTrip("api", "health", r);
    } else {
      var id := r.projectId;
      assert PathOf(r) == "/" + "projects" + "/" + id + "/" + "tasks";
      ParseThree("projects", id, "tasks");
    }
  }

  /** Distinct resources with plain identifiers have distinct paths. */
  lemma PathsDistinct(r1: Resource, r2: Resource)
    requires PlainIds(r1) && PlainIds(r2) && r1 != r2
    ensures PathOf(r1) != PathOf(r2)
  {
    PathRoundTrip(r1);
    PathRoundTrip(r2);
  }

  // ---------------------------------------------------------------------
  // Error wrapping: every operation rethrows as "Failed to <op>: <cause>"
  // ---------------------------------------------------------------------

  /** The cause a wrapped message names: a thrown error's message, or `Unknown error` for anything else thrown. */
  function CauseText(f: Failure): string
  {
    match f
    case Thrown(m) => m
    case NotAnError => "Unknown error"
  }

  function Failed(op: string, f: Failure): string
  {
    "Failed to " + op + ": " + CauseText(f)
  }

  /** The operation and the cause can both be read back from the message. */
  lemma FailedParts(op: string, f: Failure)
    ensures var m := Failed(op, f); var n := |"Failed to " + op + ": "|;
            m[..10] == "Failed to " && m[10..10 + |op|] == op && m[n..] == CauseText(f)
  {
  }

  /** The outcome of an operation: the reply's value unchanged, or the wrapped error. */
  function Wrap<T>(op: string, reply: Reply<T>): (r: Result<T, string>)
    ensures r.Ok? <==> reply.Ok?
    ensures reply.Ok? ==> r.value == reply.value
    ensures reply.Err? ==> r.error == Failed(op, reply.error)
  {
    match reply
    case Ok(v) => Ok(v)
    case Err(f) => Err(Failed(op, f))
  }

  // ---------------------------------------------------------------------
  // Operations
  // ---------------------------------------------------------------------

  function GetUsers(reply: Reply<seq<User>>): (c: Call<seq<User>>)
    ensures c.request.verb == GET && c.request.body.None?
    ensures c.request.path == PathOf(Users)
    ensures c.result == Wrap("fetch users", reply)
  {
    Call(Request(GET, "/users", None), Wrap("fetch users", reply))
  }

  function GetUserById(userId: string, reply: Reply<User>): (c: Call<User>)
    ensures c.request.verb == GET && c.request.body.None?
    ensures c.request.path == PathOf(UserItem(userId))
    ensures c.result == Wrap("fetch user", reply)
  {
    Call(Request(GET, "/users/" + userId, None), Wrap("fetch user", reply))
  }

  function GetProjects(reply: Reply<seq<Project>>): (c: Call<seq<Project>>)
    ensures c.request.verb == GET && c.request.body.None?
    ensures c.request.path == PathOf(Projects)
    ensures c.result == Wrap("fetch projects", reply)
  {
    Call(Request(GET, "/projects", None), Wrap("fetch projects", reply))
  }

  function GetProjectById(projectId: string, reply: Reply<Project>): (c: Call<Project>)
    ensures c.request.verb == GET && c.request.body.None?
    ensures c.request.path == PathOf(ProjectItem(projectId))
    ensures c.result == Wrap("fetch project", reply)
  {
    Call(Request(GET, "/projects/" + projectId, None), Wrap("fetch project", reply))
  }

  /** A string argument that may be `undefined` is truthy when present and non-empty. */
  predicate Given(s: Option<string>)
  {
    s.Some? && s.value != ""
  }

  /** The project-scoped list when a project id is given (truthy), the global list otherwise. */
  function GetTasks(projectId: Option<string>, reply: Reply<seq<Task>>): (c: Call<seq<Task>>)
    ensures c.request.verb == GET && c.request.body.None?
    ensures c.request.path == PathOf(if Given(projectId) then ProjectTasks(projectId.value) else Tasks)
    ensures c.result == Wrap("fetch tasks", reply)
  {
    var url := if Given(projectId) then "/projects/" + projectId.value + "/tasks" else "/tasks";
    Call(Request(GET, url, None), Wrap("fetch tasks", reply))
  }

  /** Fetching one task uses the singular `/task/{id}`. */
  function GetTaskById(taskId: string, reply: Reply<Task>): (c: Call<Task>)
    ensures c.request.verb == GET && c.request.body.None?
    ensures c.request.path == PathOf(SingularTask(taskId))
    ensures c.result == Wrap("fetch task", reply)
  {
    Call(Request(GET, "/task/" + taskId, None), Wrap("fetch task", reply))
  }

  /** The data `createTask` sends: a copy of the task data whose sender is kept when truthy and defaulted otherwise. */
  function WithSender(taskData: map<string, Json>): (body: map<string, Json>)
    ensures body.Keys == taskData.Keys + {"fromUserId"}
    ensures forall k :: k in taskData && k != "fromUserId" ==> body[k] == taskData[k]
    ensures Truthy(Get(taskData, "fromUserId")) ==> body == taskData
    ensures !Truthy(Get(taskData, "fromUserId")) ==> body["fromUserId"] == JString(DefaultFromUserId)
  {
    var sender := Get(taskData, "fromUserId");
    taskData["fromUserId" := if Truthy(sender) then sender.value else JString(DefaultFromUserId)]
  }

  /** Filling in the source user a second time changes nothing. */
  lemma WithSenderIdempotent(taskData: map<string, Json>)
    ensures WithSender(WithSender(taskData)) == WithSender(taskData)
  {
  }

  /** On records: the body parses as the input with the source user filled in when it was missing or empty. */
  lemma WithSenderOnRecord(t: TaskCreate)
    ensures DecodeTaskCreate(JObject(WithSender(EncodeTaskCreate(t).fields)))
            == Some(t.(fromUserId := Some(if t.fromUserId.Some? && t.fromUserId.value != ""
                                          then t.fromUserId.value else DefaultFromUserId)))
  {
    var filled := t.(fromUserId := Some(if t.fromUserId.Some? && t.fromUserId.value != ""
                                        then t.fromUserId.value else DefaultFromUserId));
    var body := WithSender(EncodeTaskCreate(t).fields);
    TaskCreateGet(t, "fromUserId");
    forall k | k in TaskCreateKeys ensures Get(body, k) == TaskCreateField(filled, k) {
      TaskCreateGet(t, k);
      if k == "fromUserId" {
      } else {
        assert TaskCreateField(filled, k) == TaskCreateField(t, k);
      }
    }
    TaskCreateReadsBack(body, filled);
  }

  function CreateTask(taskData: map<string, Json>, reply: Reply<Task>): (c: Call<Task>)
    ensures c.request.verb == POST && c.request.body == Some(WithSender(taskData))
    ensures c.request.path == PathOf(Tasks)
    ensures c.result == Wrap("create task", reply)
  {
    Call(Request(POST, "/tasks", Some(WithSender(taskData))), Wrap("create task", reply))
  }

  function UpdateTask(taskId: string, taskData: map<string, Json>, reply: Reply<Task>): (c: Call<Task>)
    ensures c.request.verb == PUT && c.request.body == Some(taskData)
    ensures c.request.path == PathOf(TaskItem(taskId))
    ensures c.result == Wrap("update task", reply)
  {
    Call(Request(PUT, "/tasks/" + taskId, Some(taskData)), Wrap("update task", reply))
  }

  function DeleteTask(taskId: string, reply: Reply<()>): (c: Call<()>)
    ensures c.request.verb == DELETE && c.request.body.None?
    ensures c.request.path == PathOf(TaskItem(taskId))
    ensures c.result == Wrap("delete task", reply)
  {
    Call(Request(DELETE, "/tasks/" + taskId, None), Wrap("delete task", reply))
  }

  /** Reading one task and writing it address different resources. */
  lemma TaskPathsDiffer(taskId: string, taskData: map<string, Json>, a: Reply<Task>, b: Reply<Task>, c: Reply<()>)
    ensures GetTaskById(taskId, a).request.path != UpdateTask(taskId, taskData, b).request.path
    ensures UpdateTask(taskId, taskData, b).request.path == DeleteTask(taskId, c).request.path
  {
    var p := GetTaskById(taskId, a).request.path;
    var q := UpdateTask(taskId, taskData, b).request.path;
    assert p[1..5] == "task" && q[1..5] == "task" ==> p[5] == '/' && q[5] == 's';
  }

  // ---------------------------------------------------------------------
  // Health check: /health, then /api/health, then /; never throws
  // ---------------------------------------------------------------------

  /** The requests a health check sent and its verdict. */
  datatype Probe = Probe(requests: seq<Request>, healthy: bool)

  const HealthPaths: seq<string> := ["/health", "/api/health", "/"]

  function HealthCheck(health: Reply<()>, apiHealth: Reply<()>, root: Reply<()>): (p: Probe)
    ensures 1 <= |p.requests| <= 3
    ensures forall i :: 0 <= i < |p.requests| ==> p.requests[i] == Request(GET, HealthPaths[i], None)
    ensures var replies := [health, apiHealth, root];
            && (forall i :: 0 <= i < |p.requests| - 1 ==> replies[i].Err?)
            && (p.healthy <==> replies[|p.requests| - 1].Ok?)
            && (|p.requests| < 3 ==> p.healthy)
    ensures p.healthy <==> health.Ok? || apiHealth.Ok? || root.Ok?
  {
    var first := Request(GET, "/health", None);
    var second := Request(GET, "/api/health", None);
    var third := Request(GET, "/", None);
    if health.Ok? then Probe([first], true)
    else if apiHealth.Ok? then Probe([first, second], true)
    else Probe([first, second, third], root.Ok?)
  }

  /** The three probes address the three health resources, in order. */
  lemma HealthPathsRoute()
    ensures ParsePath(HealthPaths[0]) == Some(Health)
    ensures ParsePath(HealthPaths[1]) == Some(ApiHealth)
    ensures ParsePath(HealthPaths[2]) == Some(Root)
  {
    PathRoundTrip(Health);
    PathRoundTrip(ApiHealth);
    PathRoundTrip(Root);
  }
}

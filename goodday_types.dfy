/**
  The GoodDay records and their zod schemas. Each schema is a predicate over
  a JSON value that holds exactly when the schema's `parse` accepts it; a
  decoder turns an accepted value into the typed record (dropping keys the
  schema does not name, as a zod object does) and an encoder turns a record
  back into JSON.
*/
module GoodDayTypes {
  import opened Wrappers
  import opened Json
  import Text

  // ---------------------------------------------------------------------
  // `z.string().email()`: the pattern
  //   ^(?!\.)(?!.*\.\.)([A-Z0-9_'+\-\.]*)[A-Z0-9_+-]@([A-Z0-9][A-Z0-9\-]*\.)+[A-Z]{2,}$
  // matched case-insensitively.
  // ---------------------------------------------------------------------

  predicate IsLetter(c: char) { 'a' <= c <= 'z' || 'A' <= c <= 'Z' }

  predicate IsAlnum(c: char) { IsLetter(c) || '0' <= c <= '9' }

  /** A character of the local part. */
  predicate IsLocalChar(c: char)
  {
    IsAlnum(c) || c == '_' || c == '\'' || c == '+' || c == '-' || c == '.'
  }

  /** The last character of the local part: no dot and no apostrophe. */
  predicate IsLocalLast(c: char)
  {
    IsAlnum(c) || c == '_' || c == '+' || c == '-'
  }

  predicate ValidLocalPart(l: string)
  {
    && |l| > 0
    && l[0] != '.'
    && IsLocalLast(l[|l| - 1])
    && (forall i :: 0 <= i < |l| ==> IsLocalChar(l[i]))
    && (forall i :: 0 <= i < |l| - 1 ==> !(l[i] == '.' && l[i + 1] == '.'))
  }

  /** A domain label before a dot. */
  predicate ValidLabel(x: string)
  {
    |x| > 0 && IsAlnum(x[0]) && forall i :: 0 <= i < |x| ==> IsAlnum(x[i]) || x[i] == '-'
  }

  /** The top-level domain: two or more letters. */
  predicate ValidTld(x: string)
  {
    |x| >= 2 && forall i :: 0 <= i < |x| ==> IsLetter(x[i])
  }

  predicate ValidDomain(d: string)
  {
    var labels := Text.Split(d, '.');
    && |labels| >= 2
    && ValidTld(labels[|labels| - 1])
    && forall i :: 0 <= i < |labels| - 1 ==> ValidLabel(labels[i])
  }

  predicate WellFormedEmail(s: string)
  {
    exists k :: 0 <= k < |s| && s[k] == '@' && ValidLocalPart(s[..k]) && ValidDomain(s[k + 1..])
  }

  lemma LocalPartHasNoAt(l: string)
    requires ValidLocalPart(l)
    ensures '@' !in l
  {
  }

  lemma {:induction false} DomainHasNoAt(d: string)
    requires ValidDomain(d)
    ensures '@' !in d
  {
    var labels := Text.Split(d, '.');
    forall p | 0 <= p < |d| && d[p] != '.' ensures d[p] != '@' {
      SplitKeepsChars(d, '.', p);
      var i, q :| 0 <= i < |labels| && 0 <= q < |labels[i]| && labels[i][q] == d[p];
      if i < |labels| - 1 {
        assert ValidLabel(labels[i]);
      } else {
        assert ValidTld(labels[i]);
      }
    }
  }

  /** A well-formed address has exactly one `@`: the one between its two parts. */
  lemma EmailHasOneAt(s: string, k: nat)
    requires k < |s| && s[k] == '@' && ValidLocalPart(s[..k]) && ValidDomain(s[k + 1..])
    ensures forall j :: 0 <= j < |s| && s[j] == '@' ==> j == k
  {
    LocalPartHasNoAt(s[..k]);
    DomainHasNoAt(s[k + 1..]);
    assert forall j :: 0 <= j < k ==> s[j] == s[..k][j];
    assert forall j :: k < j < |s| ==> s[j] == s[k + 1..][j - k - 1];
  }

  /** A character of the text other than the separator lands in some piece. */
  lemma {:induction false} SplitKeepsChars(d: string, sep: char, p: nat)
    requires p < |d| && d[p] != sep
    ensures exists i, q :: 0 <= i < |Text.Split(d, sep)| && 0 <= q < |Text.Split(d, sep)[i]|
                           && Text.Split(d, sep)[i][q] == d[p]
  {
    var rest := Text.Split(d[1..], sep);
    if p == 0 {
      assert Text.Split(d, sep)[0][0] == d[0];
    } else {
      SplitKeepsChars(d[1..], sep, p - 1);
      var i, q :| 0 <= i < |rest| && 0 <= q < |rest[i]| && rest[i][q] == d[1..][p - 1];
      if d[0] == sep {
        assert Text.Split(d, sep)[i + 1][q] == d[p];
      } else if i == 0 {
        assert Text.Split(d, sep)[0][q + 1] == d[p];
      } else {
        assert Text.Split(d, sep)[i][q] == d[p];
      }
    }
  }

  /** `first.tld` is a domain when the first and the top-level domain are. */
  lemma TwoLabelDomain(first: string, tld: string)
    requires ValidLabel(first) && ValidTld(tld)
    ensures ValidDomain(first + "." + tld)
  {
    assert '.' !in first by {
      assert forall i :: 0 <= i < |first| ==> first[i] != '.';
    }
    assert '.' !in tld by {
      assert forall i :: 0 <= i < |tld| ==> tld[i] != '.';
    }
    Text.SplitPlain(tld, '.');
    Text.SplitFirst(first, '.', tld);
    assert first + "." + tld == first + ['.'] + tld;
  }

  /** `local@first.tld` is an address when its parts are well-formed. */
  lemma SimpleAddress(local: string, first: string, tld: string)
    requires ValidLocalPart(local) && ValidLabel(first) && ValidTld(tld)
    ensures WellFormedEmail(local + "@" + first + "." + tld)
  {
    TwoLabelDomain(first, tld);
    AtDomain(local, first + "." + tld);
    assert local + "@" + (first + "." + tld) == local + "@" + first + "." + tld;
  }

  lemma ExampleComDomain()
    ensures ValidDomain("example.com")
  {
    assert ValidLabel("example");
    assert ValidTld("com");
    TwoLabelDomain("example", "com");
    assert "example" + "." + "com" == "example.com";
  }

  /** A valid local part, `@` and a valid domain make an address. */
  lemma AtDomain(local: string, domain: string)
    requires ValidLocalPart(local) && ValidDomain(domain)
    ensures WellFormedEmail(local + "@" + domain)
  {
    var s := local + "@" + domain;
    assert s[..|local|] == local;
    assert s[|local| + 1..] == domain;
    assert s[|local|] == '@';
  }

  /** The addresses the client tests use are accepted. */
  lemma SampleAddressesAccepted(s: string)
    requires s in {"john@example.com", "jane@example.com"}
    ensures WellFormedEmail(s)
  {
    var local := s[..4];
    assert s == local + "@" + "example.com";
    assert ValidLocalPart(local);
    ExampleComDomain();
    AtDomain(local, "example.com");
  }

  lemma DomainHasDot(d: string)
    requires ValidDomain(d)
    ensures '.' in d
  {
    if '.' !in d {
      Text.SplitPlain(d, '.');
    }
  }

  /** An address whose domain has no dot is refused. */
  lemma NoDotDomainRefused(local: string, host: string)
    requires '@' !in local && '@' !in host && '.' !in host
    ensures !WellFormedEmail(local + "@" + host)
  {
    var s := local + "@" + host;
    if WellFormedEmail(s) {
      var k :| 0 <= k < |s| && s[k] == '@' && ValidLocalPart(s[..k]) && ValidDomain(s[k + 1..]);
      EmailHasOneAt(s, k);
      assert s[|local|] == '@';
      assert s[k + 1..] == host;
      DomainHasDot(host);
    }
  }

  /** An address may not start with a dot. */
  lemma LeadingDotRefused(s: string)
    requires |s| > 0 && s[0] == '.'
    ensures !WellFormedEmail(s)
  {
  }

  // ---------------------------------------------------------------------
  // Field rules of `z.object({...})`: a required field must be present with
  // the right type; `.optional()` also accepts the key being absent.
  // ---------------------------------------------------------------------

  predicate ReqString(o: map<string, Json>, k: string) { k in o && o[k].JString? }

  predicate OptString(o: map<string, Json>, k: string) { k !in o || o[k].JString? }

  predicate OptNumber(o: map<string, Json>, k: string) { k !in o || o[k].JNumber? }

  predicate OptBool(o: map<string, Json>, k: string) { k !in o || o[k].JBool? }

  /** An optional number between two inclusive bounds. */
  predicate OptRange(o: map<string, Json>, k: string, lo: int, hi: int)
  {
    k !in o || (o[k].JNumber? && lo <= o[k].num <= hi)
  }

  /** An optional array of strings. */
  predicate OptStringArray(o: map<string, Json>, k: string)
  {
    k !in o || (o[k].JArray? && forall i :: 0 <= i < |o[k].items| ==> o[k].items[i].JString?)
  }

  /** An optional string drawn from a fixed set of names. */
  predicate OptEnum(o: map<string, Json>, k: string, options: seq<string>)
  {
    k !in o || (o[k].JString? && o[k].str in options)
  }

  function StrAt(o: map<string, Json>, k: string): Option<string>
    requires OptString(o, k)
  {
    if k in o then Some(o[k].str) else None
  }

  function NumAt(o: map<string, Json>, k: string): Option<int>
    requires OptNumber(o, k)
  {
    if k in o then Some(o[k].num) else None
  }

  function BoolAt(o: map<string, Json>, k: string): Option<bool>
    requires OptBool(o, k)
  {
    if k in o then Some(o[k].b) else None
  }

  function StringsAt(o: map<string, Json>, k: string): Option<seq<string>>
    requires OptStringArray(o, k)
  {
    if k in o then Some(seq(|o[k].items|, i requires 0 <= i < |o[k].items| => o[k].items[i].str)) else None
  }

  /** Reading back an encoded array of strings gives the strings. */
  lemma StringsBack(o: map<string, Json>, k: string, xs: seq<string>)
    requires k in o && Some(o[k]) == Strings(Some(xs))
    ensures OptStringArray(o, k) && StringsAt(o, k) == Some(xs)
  {
    assert StringsAt(o, k).value == xs;
  }

  /** The JSON form of an optional field; `None` leaves the key out. */
  function Str(v: Option<string>): Option<Json>
  {
    if v.Some? then Some(JString(v.value)) else None
  }

  function Num(v: Option<int>): Option<Json>
  {
    if v.Some? then Some(JNumber(v.value)) else None
  }

  function Bool(v: Option<bool>): Option<Json>
  {
    if v.Some? then Some(JBool(v.value)) else None
  }

  function Strings(v: Option<seq<string>>): Option<Json>
  {
    if v.Some? then Some(JArray(seq(|v.value|, i requires 0 <= i < |v.value| => JString(v.value[i])))) else None
  }

  // Reading a field back from the JSON form it was written in.

  lemma ReqBack(o: map<string, Json>, k: string, v: string)
    requires Get(o, k) == Some(JString(v))
    ensures ReqString(o, k) && o[k].str == v
  {
  }

  lemma StrBack(o: map<string, Json>, k: string, v: Option<string>)
    requires Get(o, k) == Str(v)
    ensures OptString(o, k) && StrAt(o, k) == v
  {
  }

  lemma NumBack(o: map<string, Json>, k: string, v: Option<int>)
    requires Get(o, k) == Num(v)
    ensures OptNumber(o, k) && NumAt(o, k) == v
  {
  }

  lemma BoolBack(o: map<string, Json>, k: string, v: Option<bool>)
    requires Get(o, k) == Bool(v)
    ensures OptBool(o, k) && BoolAt(o, k) == v
  {
  }

  // ---------------------------------------------------------------------
  // GoodDayUserSchema
  // ---------------------------------------------------------------------

  datatype User = User(
    id: string, firstName: string, lastName: string, email: string,
    avatar: Option<string>, role: Option<string>, department: Option<string>,
    isActive: Option<bool>, createdAt: Option<string>, updatedAt: Option<string>)

  const UserKeys: set<string> :=
    {"id", "firstName", "lastName", "email", "avatar", "role", "department", "isActive", "createdAt", "updatedAt"}

  predicate UserSchema(j: Json)
  {
    && j.JObject?
    && ReqString(j.fields, "id")
    && ReqString(j.fields, "firstName")
    && ReqString(j.fields, "lastName")
    && ReqString(j.fields, "email") && WellFormedEmail(j.fields["email"].str)
    && OptString(j.fields, "avatar")
    && OptString(j.fields, "role")
    && OptString(j.fields, "department")
    && OptBool(j.fields, "isActive")
    && OptString(j.fields, "createdAt")
    && OptString(j.fields, "updatedAt")
  }

  function DecodeUser(j: Json): (r: Option<User>)
    ensures r.Some? <==> UserSchema(j)
  {
    if !UserSchema(j) then None
    else
      var o := j.fields;
      Some(User(o["id"].str, o["firstName"].str, o["lastName"].str, o["email"].str,
                StrAt(o, "avatar"), StrAt(o, "role"), StrAt(o, "department"),
                BoolAt(o, "isActive"), StrAt(o, "createdAt"), StrAt(o, "updatedAt")))
  }

  /** The JSON value a User holds under key `k`, if any. */
  function UserField(u: User, k: string): Option<Json>
  {
    if k == "id" then Some(JString(u.id))
    else if k == "firstName" then Some(JString(u.firstName))
    else if k == "lastName" then Some(JString(u.lastName))
    else if k == "email" then Some(JString(u.email))
    else if k == "avatar" then Str(u.avatar)
    else if k == "role" then Str(u.role)
    else if k == "department" then Str(u.department)
    else if k == "isActive" then Bool(u.isActive)
    else if k == "createdAt" then Str(u.createdAt)
    else if k == "updatedAt" then Str(u.updatedAt)
    else None
  }

  function EncodeUser(u: User): Json
  {
    JObject(map k | k in UserKeys && UserField(u, k).Some? :: UserField(u, k).value)
  }


  lemma UserGet(u: User, k: string)
    ensures Get(EncodeUser(u).fields, k) == if k in UserKeys then UserField(u, k) else None
  {
  }

  /** A user survives encoding and parsing exactly when its e-mail is well-formed. */
  lemma UserRoundTrip(u: User)
    ensures DecodeUser(EncodeUser(u)) == if WellFormedEmail(u.email) then Some(u) else None
  {
    var o := EncodeUser(u).fields;
    UserGet(u, "id");
    ReqBack(o, "id", u.id);
    UserGet(u, "firstName");
    ReqBack(o, "firstName", u.firstName);
    UserGet(u, "lastName");
    ReqBack(o, "lastName", u.lastName);
    UserGet(u, "email");
    ReqBack(o, "email", u.email);
    UserGet(u, "avatar");
    StrBack(o, "avatar", u.avatar);
    UserGet(u, "role");
    StrBack(o, "role", u.role);
    UserGet(u, "department");
    StrBack(o, "department", u.department);
    UserGet(u, "isActive");
    BoolBack(o, "isActive", u.isActive);
    UserGet(u, "createdAt");
    StrBack(o, "createdAt", u.createdAt);
    UserGet(u, "updatedAt");
    StrBack(o, "updatedAt", u.updatedAt);
  }

  /** Parsing keeps every schema key as it was and drops every other key. */
  lemma UserDecodeStrips(j: Json)
    requires DecodeUser(j).Some?
    ensures EncodeUser(DecodeUser(j).value) == JObject(Restrict(j.fields, UserKeys))
  {
    var u := DecodeUser(j).value;
    forall k | k in UserKeys ensures UserField(u, k) == Get(j.fields, k) {
      if k == "id" {} else if k == "firstName" {} else if k == "lastName" {} else if k == "email" {}
      else if k == "avatar" {} else if k == "role" {} else if k == "department" {}
      else if k == "isActive" {} else if k == "createdAt" {} else {}
    }
    assert EncodeUser(u).fields == Restrict(j.fields, UserKeys);
  }

  /** Only id, firstName, lastName and a well-formed email are required. */
  lemma UserRequiredFields(id: string, firstName: string, lastName: string, email: string)
    ensures UserSchema(JObject(map["id" := JString(id), "firstName" := JString(firstName),
                                   "lastName" := JString(lastName), "email" := JString(email)]))
            <==> WellFormedEmail(email)
  {
  }

  // ---------------------------------------------------------------------
  // GoodDayProjectSchema
  // ---------------------------------------------------------------------

  datatype Project = Project(
    id: string, name: string,
    description: Option<string>, status: Option<string>,
    startDate: Option<string>, endDate: Option<string>,
    ownerId: Option<string>, ownerName: Option<string>,
    teamSize: Option<int>, progress: Option<int>,
    createdAt: Option<string>, updatedAt: Option<string>)

  const ProjectKeys: set<string> :=
    {"id", "name", "description", "status", "startDate", "endDate", "ownerId", "ownerName",
     "teamSize", "progress", "createdAt", "updatedAt"}

  predicate ProjectSchema(j: Json)
  {
    && j.JObject?
    && ReqString(j.fields, "id")
    && ReqString(j.fields, "name")
    && OptString(j.fields, "description")
    && OptString(j.fields, "status")
    && OptString(j.fields, "startDate")
    && OptString(j.fields, "endDate")
    && OptString(j.fields, "ownerId")
    && OptString(j.fields, "ownerName")
    && OptNumber(j.fields, "teamSize")
    && OptNumber(j.fields, "progress")
    && OptString(j.fields, "createdAt")
    && OptString(j.fields, "updatedAt")
  }

  function DecodeProject(j: Json): (r: Option<Project>)
    ensures r.Some? <==> ProjectSchema(j)
  {
    if !ProjectSchema(j) then None
    else
      var o := j.fields;
      Some(Project(o["id"].str, o["name"].str, StrAt(o, "description"), StrAt(o, "status"),
                   StrAt(o, "startDate"), StrAt(o, "endDate"), StrAt(o, "ownerId"), StrAt(o, "ownerName"),
                   NumAt(o, "teamSize"), NumAt(o, "progress"), StrAt(o, "createdAt"), StrAt(o, "updatedAt")))
  }

  /** The JSON value a Project holds under key `k`, if any. */
  function ProjectField(p: Project, k: string): Option<Json>
  {
    if k == "id" then Some(JString(p.id))
    else if k == "name" then Some(JString(p.name))
    else if k == "description" then Str(p.description)
    else if k == "status" then Str(p.status)
    else if k == "startDate" then Str(p.startDate)
    else if k == "endDate" then Str(p.endDate)
    else if k == "ownerId" then Str(p.ownerId)
    else if k == "ownerName" then Str(p.ownerName)
    else if k == "teamSize" then Num(p.teamSize)
    else if k == "progress" then Num(p.progress)
    else if k == "createdAt" then Str(p.createdAt)
    else if k == "updatedAt" then Str(p.updatedAt)
    else None
  }

  function EncodeProject(p: Project): Json
  {
    JObject(map k | k in ProjectKeys && ProjectField(p, k).Some? :: ProjectField(p, k).value)
  }


  lemma ProjectGet(p: Project, k: string)
    ensures Get(EncodeProject(p).fields, k) == if k in ProjectKeys then ProjectField(p, k) else None
  {
  }

  /** Every project survives encoding and parsing (its progress carries no range). */
  lemma ProjectRoundTrip(p: Project)
    ensures DecodeProject(EncodeProject(p)) == Some(p)
  {
    var o := EncodeProject(p).fields;
    ProjectGet(p, "id");
    ReqBack(o, "id", p.id);
    ProjectGet(p, "name");
    ReqBack(o, "name", p.name);
    ProjectGet(p, "description");
    StrBack(o, "description", p.description);
    ProjectGet(p, "status");
    StrBack(o, "status", p.status);
    ProjectGet(p, "startDate");
    StrBack(o, "startDate", p.startDate);
    ProjectGet(p, "endDate");
    StrBack(o, "endDate", p.endDate);
    ProjectGet(p, "ownerId");
    StrBack(o, "ownerId", p.ownerId);
    ProjectGet(p, "ownerName");
    StrBack(o, "ownerName", p.ownerName);
    ProjectGet(p, "teamSize");
    NumBack(o, "teamSize", p.teamSize);
    ProjectGet(p, "progress");
    NumBack(o, "progress", p.progress);
    ProjectGet(p, "createdAt");
    StrBack(o, "createdAt", p.createdAt);
    ProjectGet(p, "updatedAt");
    StrBack(o, "updatedAt", p.updatedAt);
  }

  lemma ProjectDecodeStrips(j: Json)
    requires DecodeProject(j).Some?
    ensures EncodeProject(DecodeProject(j).value) == JObject(Restrict(j.fields, ProjectKeys))
  {
    var p := DecodeProject(j).value;
    forall k | k in ProjectKeys ensures ProjectField(p, k) == Get(j.fields, k) {
      if k == "id" {} else if k == "name" {} else if k == "description" {} else if k == "status" {}
      else if k == "startDate" {} else if k == "endDate" {} else if k == "ownerId" {} else if k == "ownerName" {}
      else if k == "teamSize" {} else if k == "progress" {} else if k == "createdAt" {} else {}
    }
    assert EncodeProject(p).fields == Restrict(j.fields, ProjectKeys);
  }

  /** Only id and name are required. */
  lemma ProjectRequiredFields(id: string, name: string, extra: map<string, Json>)
    requires forall k :: k in extra ==> k !in ProjectKeys
    ensures ProjectSchema(JObject(extra["id" := JString(id)]["name" := JString(name)]))
    ensures !ProjectSchema(JObject(extra["id" := JString(id)]))
    ensures !ProjectSchema(JObject(extra["name" := JString(name)]))
  {
    assert "id" !in extra && "name" !in extra;
  }

  // ---------------------------------------------------------------------
  // GoodDayTaskSchema
  // ---------------------------------------------------------------------

  datatype Task = Task(
    id: string, title: string, description: Option<string>, status: string,
    priority: Option<string>, assigneeId: Option<string>, assigneeName: Option<string>,
    projectId: string, projectName: Option<string>, dueDate: Option<string>,
    estimatedHours: Option<int>, actualHours: Option<int>, progress: Option<int>,
    createdAt: Option<string>, updatedAt: Option<string>)

  const TaskKeys: set<string> :=
    {"id", "title", "description", "status", "priority", "assigneeId", "assigneeName", "projectId",
     "projectName", "dueDate", "estimatedHours", "actualHours", "progress", "createdAt", "updatedAt"}

  predicate TaskSchema(j: Json)
  {
    && j.JObject?
    && ReqString(j.fields, "id")
    && ReqString(j.fields, "title")
    && OptString(j.fields, "description")
    && ReqString(j.fields, "status")
    && OptString(j.fields, "priority")
    && OptString(j.fields, "assigneeId")
    && OptString(j.fields, "assigneeName")
    && ReqString(j.fields, "projectId")
    && OptString(j.fields, "projectName")
    && OptString(j.fields, "dueDate")
    && OptNumber(j.fields, "estimatedHours")
    && OptNumber(j.fields, "actualHours")
    && OptNumber(j.fields, "progress")
    && OptString(j.fields, "createdAt")
    && OptString(j.fields, "updatedAt")
  }

  function DecodeTask(j: Json): (r: Option<Task>)
    ensures r.Some? <==> TaskSchema(j)
  {
    if !TaskSchema(j) then None
    else
      var o := j.fields;
      Some(Task(o["id"].str, o["title"].str, StrAt(o, "description"), o["status"].str,
                StrAt(o, "priority"), StrAt(o, "assigneeId"), StrAt(o, "assigneeName"),
                o["projectId"].str, StrAt(o, "projectName"), StrAt(o, "dueDate"),
                NumAt(o, "estimatedHours"), NumAt(o, "actualHours"), NumAt(o, "progress"),
                StrAt(o, "createdAt"), StrAt(o, "updatedAt")))
  }

  /** The JSON value a Task holds under key `k`, if any. */
  function TaskField(t: Task, k: string): Option<Json>
  {
    if k == "id" then Some(JString(t.id))
    else if k == "title" then Some(JString(t.title))
    else if k == "description" then Str(t.description)
    else if k == "status" then Some(JString(t.status))
    else if k == "priority" then Str(t.priority)
    else if k == "assigneeId" then Str(t.assigneeId)
    else if k == "assigneeName" then Str(t.assigneeName)
    else if k == "projectId" then Some(JString(t.projectId))
    else if k == "projectName" then Str(t.projectName)
    else if k == "dueDate" then Str(t.dueDate)
    else if k == "estimatedHours" then Num(t.estimatedHours)
    else if k == "actualHours" then Num(t.actualHours)
    else if k == "progress" then Num(t.progress)
    else if k == "createdAt" then Str(t.createdAt)
    else if k == "updatedAt" then Str(t.updatedAt)
    else None
  }

  function EncodeTask(t: Task): Json
  {
    JObject(map k | k in TaskKeys && TaskField(t, k).Some? :: TaskField(t, k).value)
  }


  lemma TaskGet(t: Task, k: string)
    ensures Get(EncodeTask(t).fields, k) == if k in TaskKeys then TaskField(t, k) else None
  {
  }

  /** Every task survives encoding and parsing. */
  lemma TaskRoundTrip(t: Task)
    ensures DecodeTask(EncodeTask(t)) == Some(t)
  {
    var o := EncodeTask(t).fields;
    TaskGet(t, "id");
    ReqBack(o, "id", t.id);
    TaskGet(t, "title");
    ReqBack(o, "title", t.title);
    TaskGet(t, "description");
    StrBack(o, "description", t.description);
    TaskGet(t, "status");
    ReqBack(o, "status", t.status);
    TaskGet(t, "priority");
    StrBack(o, "priority", t.priority);
    TaskGet(t, "assigneeId");
    StrBack(o, "assigneeId", t.assigneeId);
    TaskGet(t, "assigneeName");
    StrBack(o, "assigneeName", t.assigneeName);
    TaskGet(t, "projectId");
    ReqBack(o, "projectId", t.projectId);
    TaskGet(t, "projectName");
    StrBack(o, "projectName", t.projectName);
    TaskGet(t, "dueDate");
    StrBack(o, "dueDate", t.dueDate);
    TaskGet(t, "estimatedHours");
    NumBack(o, "estimatedHours", t.estimatedHours);
    TaskGet(t, "actualHours");
    NumBack(o, "actualHours", t.actualHours);
    TaskGet(t, "progress");
    NumBack(o, "progress", t.progress);
    TaskGet(t, "createdAt");
    StrBack(o, "createdAt", t.createdAt);
    TaskGet(t, "updatedAt");
    StrBack(o, "updatedAt", t.updatedAt);
  }

  lemma TaskDecodeStrips(j: Json)
    requires DecodeTask(j).Some?
    ensures EncodeTask(DecodeTask(j).value) == JObject(Restrict(j.fields, TaskKeys))
  {
    var t := DecodeTask(j).value;
    forall k | k in TaskKeys ensures TaskField(t, k) == Get(j.fields, k) {
      if k == "id" {} else if k == "title" {} else if k == "description" {} else if k == "status" {}
      else if k == "priority" {} else if k == "assigneeId" {} else if k == "assigneeName" {}
      else if k == "projectId" {} else if k == "projectName" {} else if k == "dueDate" {}
      else if k == "estimatedHours" {} else if k == "actualHours" {} else if k == "progress" {}
      else if k == "createdAt" {} else {}
    }
    assert EncodeTask(t).fields == Restrict(j.fields, TaskKeys);
  }

  /** Only id, title, status and projectId are required. */
  lemma TaskRequiredFields(id: string, title: string, status: string, projectId: string)
    ensures TaskSchema(JObject(map["id" := JString(id), "title" := JString(title),
                                   "status" := JString(status), "projectId" := JString(projectId)]))
    ensures !TaskSchema(JObject(map["id" := JString(id), "title" := JString(title), "status" := JString(status)]))
  {
  }

  // ---------------------------------------------------------------------
  // GoodDayTaskCreateSchema: the body of POST /tasks
  // ---------------------------------------------------------------------

  datatype TaskCreate = TaskCreate(
    title: string, message: Option<string>, projectId: string,
    toUserId: Option<string>, fromUserId: Option<string>, priority: Option<int>,
    deadline: Option<string>, estimate: Option<int>,
    startDate: Option<string>, endDate: Option<string>,
    taskTypeId: Option<string>, parentTaskId: Option<string>, storyPoints: Option<int>,
    todoList: Option<Json>, crmContactIds: Option<seq<string>>, crmAccountId: Option<string>)

  const TaskCreateKeys: set<string> :=
    {"title", "message", "projectId", "toUserId", "fromUserId", "priority", "deadline", "estimate",
     "startDate", "endDate", "taskTypeId", "parentTaskId", "storyPoints", "todoList",
     "crmContactIds", "crmAccountId"}

  predicate TaskCreateSchema(j: Json)
  {
    && j.JObject?
    && ReqString(j.fields, "title")
    && OptString(j.fields, "message")
    && ReqString(j.fields, "projectId")
    && OptString(j.fields, "toUserId")
    && OptString(j.fields, "fromUserId")
    && OptNumber(j.fields, "priority")
    && OptString(j.fields, "deadline")
    && OptNumber(j.fields, "estimate")
    && OptString(j.fields, "startDate")
    && OptString(j.fields, "endDate")
    && OptString(j.fields, "taskTypeId")
    && OptString(j.fields, "parentTaskId")
    && OptNumber(j.fields, "storyPoints")
    // todoList: z.any().optional() accepts every value
    && OptStringArray(j.fields, "crmContactIds")
    && OptString(j.fields, "crmAccountId")
  }

  function DecodeTaskCreate(j: Json): (r: Option<TaskCreate>)
    ensures r.Some? <==> TaskCreateSchema(j)
  {
    if !TaskCreateSchema(j) then None
    else
      var o := j.fields;
      Some(TaskCreate(o["title"].str, StrAt(o, "message"), o["projectId"].str,
                      StrAt(o, "toUserId"), StrAt(o, "fromUserId"), NumAt(o, "priority"),
                      StrAt(o, "deadline"), NumAt(o, "estimate"),
                      StrAt(o, "startDate"), StrAt(o, "endDate"),
                      StrAt(o, "taskTypeId"), StrAt(o, "parentTaskId"), NumAt(o, "storyPoints"),
                      Get(o, "todoList"), StringsAt(o, "crmContactIds"), StrAt(o, "crmAccountId")))
  }

  /** The JSON value a TaskCreate holds under key `k`, if any. */
  function TaskCreateField(t: TaskCreate, k: string): Option<Json>
  {
    if k == "title" then Some(JString(t.title))
    else if k == "message" then Str(t.message)
    else if k == "projectId" then Some(JString(t.projectId))
    else if k == "toUserId" then Str(t.toUserId)
    else if k == "fromUserId" then Str(t.fromUserId)
    else if k == "priority" then Num(t.priority)
    else if k == "deadline" then Str(t.deadline)
    else if k == "estimate" then Num(t.estimate)
    else if k == "startDate" then Str(t.startDate)
    else if k == "endDate" then Str(t.endDate)
    else if k == "taskTypeId" then Str(t.taskTypeId)
    else if k == "parentTaskId" then Str(t.parentTaskId)
    else if k == "storyPoints" then Num(t.storyPoints)
    else if k == "todoList" then t.todoList
    else if k == "crmContactIds" then Strings(t.crmContactIds)
    else if k == "crmAccountId" then Str(t.crmAccountId)
    else None
  }

  function EncodeTaskCreate(t: TaskCreate): Json
  {
    JObject(map k | k in TaskCreateKeys && TaskCreateField(t, k).Some? :: TaskCreateField(t, k).value)
  }


  lemma TaskCreateGet(t: TaskCreate, k: string)
    ensures Get(EncodeTaskCreate(t).fields, k) == if k in TaskCreateKeys then TaskCreateField(t, k) else None
  {
  }

  // The key-by-key facts below are stated four keys at a time only to keep each proof obligation small.

  /** What each schema key holds for a record, four keys at a time. */
  lemma TaskCreateFieldValues1(t: TaskCreate)
    ensures TaskCreateField(t, "title") == Some(JString(t.title))
    ensures TaskCreateField(t, "message") == Str(t.message)
    ensures TaskCreateField(t, "projectId") == Some(JString(t.projectId))
    ensures TaskCreateField(t, "toUserId") == Str(t.toUserId)
  {
  }

  lemma TaskCreateFieldValues2(t: TaskCreate)
    ensures TaskCreateField(t, "fromUserId") == Str(t.fromUserId)
    ensures TaskCreateField(t, "priority") == Num(t.priority)
    ensures TaskCreateField(t, "deadline") == Str(t.deadline)
    ensures TaskCreateField(t, "estimate") == Num(t.estimate)
  {
  }

  lemma TaskCreateFieldValues3(t: TaskCreate)
    ensures TaskCreateField(t, "startDate") == Str(t.startDate)
    ensures TaskCreateField(t, "endDate") == Str(t.endDate)
    ensures TaskCreateField(t, "taskTypeId") == Str(t.taskTypeId)
    ensures TaskCreateField(t, "parentTaskId") == Str(t.parentTaskId)
  {
  }

  lemma TaskCreateFieldValues4(t: TaskCreate)
    ensures TaskCreateField(t, "storyPoints") == Num(t.storyPoints)
    ensures TaskCreateField(t, "todoList") == t.todoList
    ensures TaskCreateField(t, "crmContactIds") == Strings(t.crmContactIds)
    ensures TaskCreateField(t, "crmAccountId") == Str(t.crmAccountId)
  {
  }

  lemma TaskCreateFields1(o: map<string, Json>, t: TaskCreate)
    requires Get(o, "title") == Some(JString(t.title))
    requires Get(o, "message") == Str(t.message)
    requires Get(o, "projectId") == Some(JString(t.projectId))
    requires Get(o, "toUserId") == Str(t.toUserId)
    ensures ReqString(o, "title") && o["title"].str == t.title
    ensures OptString(o, "message") && StrAt(o, "message") == t.message
    ensures ReqString(o, "projectId") && o["projectId"].str == t.projectId
    ensures OptString(o, "toUserId") && StrAt(o, "toUserId") == t.toUserId
  {
    ReqBack(o, "title", t.title);
    StrBack(o, "message", t.message);
    ReqBack(o, "projectId", t.projectId);
    StrBack(o, "toUserId", t.toUserId);
  }

  lemma TaskCreateFields2(o: map<string, Json>, t: TaskCreate)
    requires Get(o, "fromUserId") == Str(t.fromUserId)
    requires Get(o, "priority") == Num(t.priority)
    requires Get(o, "deadline") == Str(t.deadline)
    requires Get(o, "estimate") == Num(t.estimate)
    ensures OptString(o, "fromUserId") && StrAt(o, "fromUserId") == t.fromUserId
    ensures OptNumber(o, "priority") && NumAt(o, "priority") == t.priority
    ensures OptString(o, "deadline") && StrAt(o, "deadline") == t.deadline
    ensures OptNumber(o, "estimate") && NumAt(o, "estimate") == t.estimate
  {
    StrBack(o, "fromUserId", t.fromUserId);
    NumBack(o, "priority", t.priority);
    StrBack(o, "deadline", t.deadline);
    NumBack(o, "estimate", t.estimate);
  }

  lemma TaskCreateFields3(o: map<string, Json>, t: TaskCreate)
    requires Get(o, "startDate") == Str(t.startDate)
    requires Get(o, "endDate") == Str(t.endDate)
    requires Get(o, "taskTypeId") == Str(t.taskTypeId)
    requires Get(o, "parentTaskId") == Str(t.parentTaskId)
    ensures OptString(o, "startDate") && StrAt(o, "startDate") == t.startDate
    ensures OptString(o, "endDate") && StrAt(o, "endDate") == t.endDate
    ensures OptString(o, "taskTypeId") && StrAt(o, "taskTypeId") == t.taskTypeId
    ensures OptString(o, "parentTaskId") && StrAt(o, "parentTaskId") == t.parentTaskId
  {
    StrBack(o, "startDate", t.startDate);
    StrBack(o, "endDate", t.endDate);
    StrBack(o, "taskTypeId", t.taskTypeId);
    StrBack(o, "parentTaskId", t.parentTaskId);
  }

  lemma TaskCreateFields4(o: map<string, Json>, t: TaskCreate)
    requires Get(o, "storyPoints") == Num(t.storyPoints)
    requires Get(o, "todoList") == t.todoList
    requires Get(o, "crmContactIds") == Strings(t.crmContactIds)
    requires Get(o, "crmAccountId") == Str(t.crmAccountId)
    ensures OptNumber(o, "storyPoints") && NumAt(o, "storyPoints") == t.storyPoints
    ensures Get(o, "todoList") == t.todoList
    ensures OptStringArray(o, "crmContactIds") && StringsAt(o, "crmContactIds") == t.crmContactIds
    ensures OptString(o, "crmAccountId") && StrAt(o, "crmAccountId") == t.crmAccountId
  {
    NumBack(o, "storyPoints", t.storyPoints);
    if t.crmContactIds.Some? { StringsBack(o, "crmContactIds", t.crmContactIds.value); }
    StrBack(o, "crmAccountId", t.crmAccountId);
  }

  /** An object holding exactly a record's fields under the schema keys parses as that record. */
  lemma TaskCreateReadsBack(o: map<string, Json>, t: TaskCreate)
    requires forall k :: k in TaskCreateKeys ==> Get(o, k) == TaskCreateField(t, k)
    ensures DecodeTaskCreate(JObject(o)) == Some(t)
  {
    TaskCreateFieldValues1(t);
    TaskCreateFieldValues2(t);
    TaskCreateFieldValues3(t);
    TaskCreateFieldValues4(t);
    assert Get(o, "title") == TaskCreateField(t, "title");
    assert Get(o, "message") == TaskCreateField(t, "message");
    assert Get(o, "projectId") == TaskCreateField(t, "projectId");
    assert Get(o, "toUserId") == TaskCreateField(t, "toUserId");
    assert Get(o, "fromUserId") == TaskCreateField(t, "fromUserId");
    assert Get(o, "priority") == TaskCreateField(t, "priority");
    assert Get(o, "deadline") == TaskCreateField(t, "deadline");
    assert Get(o, "estimate") == TaskCreateField(t, "estimate");
    assert Get(o, "startDate") == TaskCreateField(t, "startDate");
    assert Get(o, "endDate") == TaskCreateField(t, "endDate");
    assert Get(o, "taskTypeId") == TaskCreateField(t, "taskTypeId");
    assert Get(o, "parentTaskId") == TaskCreateField(t, "parentTaskId");
    assert Get(o, "storyPoints") == TaskCreateField(t, "storyPoints");
    assert Get(o, "todoList") == TaskCreateField(t, "todoList");
    assert Get(o, "crmContactIds") == TaskCreateField(t, "crmContactIds");
    assert Get(o, "crmAccountId") == TaskCreateField(t, "crmAccountId");
    TaskCreateFields1(o, t);
    TaskCreateFields2(o, t);
    TaskCreateFields3(o, t);
    TaskCreateFields4(o, t);
  }

  lemma TaskCreateRoundTrip(t: TaskCreate)
    ensures DecodeTaskCreate(EncodeTaskCreate(t)) == Some(t)
  {
    var o := EncodeTaskCreate(t).fields;
    forall k | k in TaskCreateKeys ensures Get(o, k) == TaskCreateField(t, k) {
      TaskCreateGet(t, k);
    }
    TaskCreateReadsBack(o, t);
  }

  lemma TaskCreateDecodeStrips(j: Json)
    requires DecodeTaskCreate(j).Some?
    ensures EncodeTaskCreate(DecodeTaskCreate(j).value) == JObject(Restrict(j.fields, TaskCreateKeys))
  {
    var t := DecodeTaskCreate(j).value;
    var o := j.fields;
    if "crmContactIds" in o {
      var items := o["crmContactIds"].items;
      assert Strings(t.crmContactIds).value.items == items;
    }
    forall k | k in TaskCreateKeys ensures TaskCreateField(t, k) == Get(o, k) {
      if k == "title" {} else if k == "message" {} else if k == "projectId" {}
      else if k == "toUserId" {} else if k == "fromUserId" {} else if k == "priority" {}
      else if k == "deadline" {} else if k == "estimate" {} else if k == "startDate" {}
      else if k == "endDate" {} else if k == "taskTypeId" {} else if k == "parentTaskId" {}
      else if k == "storyPoints" {} else if k == "todoList" {} else if k == "crmContactIds" {}
      else {}
    }
    assert EncodeTaskCreate(t).fields == Restrict(o, TaskCreateKeys);
  }

  /** Only title and projectId are required. */
  lemma TaskCreateRequiredFields(title: string, projectId: string)
    ensures TaskCreateSchema(JObject(map["title" := JString(title), "projectId" := JString(projectId)]))
    ensures !TaskCreateSchema(JObject(map["title" := JString(title)]))
    ensures !TaskCreateSchema(JObject(map["projectId" := JString(projectId)]))
  {
  }

  /** The priority of a create body is a number: a priority name is refused. */
  lemma TaskCreatePriorityIsNumber(title: string, projectId: string, priority: Json)
    ensures TaskCreateSchema(JObject(map["title" := JString(title), "projectId" := JString(projectId),
                                         "priority" := priority]))
            <==> priority.JNumber?
  {
  }

  // ---------------------------------------------------------------------
  // GoodDayTaskUpdateSchema: the body of PUT /tasks/{id}
  // ---------------------------------------------------------------------

  datatype UpdatePriority = Low | Normal | High | Urgent

  const PriorityNames: seq<string> := ["low", "normal", "high", "urgent"]

  function PriorityName(p: UpdatePriority): (r: string)
    ensures r in PriorityNames
  {
    match p
    case Low => "low"
    case Normal => "normal"
    case High => "high"
    case Urgent => "urgent"
  }

  function ParsePriority(s: string): (r: Option<UpdatePriority>)
    ensures r.Some? <==> s in PriorityNames
  {
    if s == "low" then Some(Low)
    else if s == "normal" then Some(Normal)
    else if s == "high" then Some(High)
    else if s == "urgent" then Some(Urgent)
    else None
  }

  /** Names and priorities correspond one to one. */
  lemma PriorityNamesRoundTrip(p: UpdatePriority, s: string)
    ensures ParsePriority(PriorityName(p)) == Some(p)
    ensures ParsePriority(s).Some? ==> PriorityName(ParsePriority(s).value) == s
  {
  }

  datatype TaskUpdate = TaskUpdate(
    title: Option<string>, message: Option<string>, status: Option<string>,
    priority: Option<UpdatePriority>, toUserId: Option<string>, deadline: Option<string>,
    estimate: Option<int>, progress: Option<int>,
    startDate: Option<string>, endDate: Option<string>)

  const TaskUpdateKeys: set<string> :=
    {"title", "message", "status", "priority", "toUserId", "deadline", "estimate", "progress",
     "startDate", "endDate"}

  predicate TaskUpdateSchema(j: Json)
  {
    && j.JObject?
    && OptString(j.fields, "title")
    && OptString(j.fields, "message")
    && OptString(j.fields, "status")
    && OptEnum(j.fields, "priority", PriorityNames)
    && OptString(j.fields, "toUserId")
    && OptString(j.fields, "deadline")
    && OptNumber(j.fields, "estimate")
    && OptRange(j.fields, "progress", 0, 100)
    && OptString(j.fields, "startDate")
    && OptString(j.fields, "endDate")
  }

  /** The one constraint a typed update can break: progress within [0, 100]. */
  predicate ValidTaskUpdate(u: TaskUpdate)
  {
    u.progress.Some? ==> 0 <= u.progress.value <= 100
  }

  function DecodeTaskUpdate(j: Json): (r: Option<TaskUpdate>)
    ensures r.Some? <==> TaskUpdateSchema(j)
  {
    if !TaskUpdateSchema(j) then None
    else
      var o := j.fields;
      Some(TaskUpdate(StrAt(o, "title"), StrAt(o, "message"), StrAt(o, "status"),
                      if "priority" in o then ParsePriority(o["priority"].str) else None,
                      StrAt(o, "toUserId"), StrAt(o, "deadline"),
                      NumAt(o, "estimate"), NumAt(o, "progress"),
                      StrAt(o, "startDate"), StrAt(o, "endDate")))
  }

  /** The JSON value a TaskUpdate holds under key `k`, if any. */
  function TaskUpdateField(u: TaskUpdate, k: string): Option<Json>
  {
    if k == "title" then Str(u.title)
    else if k == "message" then Str(u.message)
    else if k == "status" then Str(u.status)
    else if k == "priority" then if u.priority.Some? then Some(JString(PriorityName(u.priority.value))) else None
    else if k == "toUserId" then Str(u.toUserId)
    else if k == "deadline" then Str(u.deadline)
    else if k == "estimate" then Num(u.estimate)
    else if k == "progress" then Num(u.progress)
    else if k == "startDate" then Str(u.startDate)
    else if k == "endDate" then Str(u.endDate)
    else None
  }

  function EncodeTaskUpdate(u: TaskUpdate): Json
  {
    JObject(map k | k in TaskUpdateKeys && TaskUpdateField(u, k).Some? :: TaskUpdateField(u, k).value)
  }


  lemma TaskUpdateGet(u: TaskUpdate, k: string)
    ensures Get(EncodeTaskUpdate(u).fields, k) == if k in TaskUpdateKeys then TaskUpdateField(u, k) else None
  {
  }

  /** An update survives encoding and parsing exactly when its progress is in range. */
  lemma TaskUpdateRoundTrip(u: TaskUpdate)
    ensures DecodeTaskUpdate(EncodeTaskUpdate(u)) == if ValidTaskUpdate(u) then Some(u) else None
  {
    var o := EncodeTaskUpdate(u).fields;
    TaskUpdateGet(u, "title");
    StrBack(o, "title", u.title);
    TaskUpdateGet(u, "message");
    StrBack(o, "message", u.message);
    TaskUpdateGet(u, "status");
    StrBack(o, "status", u.status);
    TaskUpdateGet(u, "toUserId");
    StrBack(o, "toUserId", u.toUserId);
    TaskUpdateGet(u, "deadline");
    StrBack(o, "deadline", u.deadline);
    TaskUpdateGet(u, "estimate");
    NumBack(o, "estimate", u.estimate);
    TaskUpdateGet(u, "progress");
    NumBack(o, "progress", u.progress);
    TaskUpdateGet(u, "startDate");
    StrBack(o, "startDate", u.startDate);
    TaskUpdateGet(u, "endDate");
    StrBack(o, "endDate", u.endDate);
    TaskUpdateGet(u, "priority");
    if u.priority.Some? {
      PriorityNamesRoundTrip(u.priority.value, "");
    }
  }

  lemma TaskUpdateDecodeStrips(j: Json)
    requires DecodeTaskUpdate(j).Some?
    ensures EncodeTaskUpdate(DecodeTaskUpdate(j).value) == JObject(Restrict(j.fields, TaskUpdateKeys))
  {
    var u := DecodeTaskUpdate(j).value;
    var o := j.fields;
    if "priority" in o {
      var name := o["priority"].str;
      PriorityNamesRoundTrip(Low, name);
    }
    forall k | k in TaskUpdateKeys ensures TaskUpdateField(u, k) == Get(o, k) {
      if k == "title" {} else if k == "message" {} else if k == "status" {}
      else if k == "priority" {} else if k == "toUserId" {} else if k == "deadline" {}
      else if k == "estimate" {} else if k == "progress" {} else if k == "startDate" {} else {}
    }
    assert EncodeTaskUpdate(u).fields == Restrict(o, TaskUpdateKeys);
  }

  /** Every field of an update is optional: the empty object is an update. */
  lemma TaskUpdateAllOptional()
    ensures DecodeTaskUpdate(JObject(map[])) == Some(TaskUpdate(None, None, None, None, None, None, None, None, None, None))
  {
  }

  /** Progress is accepted exactly in [0, 100]; priority exactly as one of the four names. */
  lemma TaskUpdateBounds(progress: int, priority: string)
    ensures TaskUpdateSchema(JObject(map["progress" := JNumber(progress)])) <==> 0 <= progress <= 100
    ensures TaskUpdateSchema(JObject(map["priority" := JString(priority)]))
            <==> priority in {"low", "normal", "high", "urgent"}
  {
  }
}

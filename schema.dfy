/**
 * Record shapes of the five tables and the validator of contact messages
 * (shared/schema.ts).
 *
 * Every table has a serial `id` primary key; a stored row is modelled as
 * `Row(id, data)`, where `data` holds the remaining columns. Nullable columns
 * are `Option`s. The column types are those of the Postgres table definitions.
 */
module Schema {
  import opened Wrappers

  /** A stored row: the serial id and the other columns. */
  datatype Row<T> = Row(id: int, data: T)

  /** The `social_links` column: a JSON object whose four links are all optional. */
  datatype SocialLinks = SocialLinks(
    github: Option<string>,
    linkedin: Option<string>,
    twitter: Option<string>,
    email: Option<string>)

  /** Profile: name, title, bio and summary are NOT NULL; the rest may be null. */
  datatype ProfileFields = ProfileFields(
    name: string,
    title: string,
    bio: string,
    summary: string,
    avatarUrl: Option<string>,
    resumeUrl: Option<string>,
    socialLinks: Option<SocialLinks>)

  /** Skill: `proficiency` is an optional JSON number; its 0-100 range is not checked anywhere. */
  datatype SkillFields = SkillFields(
    name: string,
    category: string,
    proficiency: Option<real>)

  /** Project as stored: `techStack` is an ordered text array; `featured` is nullable. */
  datatype ProjectFields = ProjectFields(
    title: string,
    description: string,
    techStack: seq<string>,
    outcome: string,
    githubUrl: Option<string>,
    demoUrl: Option<string>,
    imageUrl: Option<string>,
    featured: Option<bool>)

  /** How an insert sets a column that has a default: omitted (the default applies), null, or a value. */
  datatype DefaultedInput<T> = Omitted | Null | Given(value: T)

  /** Project as inserted: `featured` may be omitted, and then takes its column default. */
  datatype NewProject = NewProject(
    title: string,
    description: string,
    techStack: seq<string>,
    outcome: string,
    githubUrl: Option<string>,
    demoUrl: Option<string>,
    imageUrl: Option<string>,
    featured: DefaultedInput<bool>)

  /** Experience: `startDate` is free-form text; a null `endDate` means the position is current. */
  datatype ExperienceFields = ExperienceFields(
    company: string,
    role: string,
    startDate: string,
    endDate: Option<string>,
    description: seq<string>)

  /** Message as stored: `createdAt` is a nullable timestamp (milliseconds since the epoch). */
  datatype MessageFields = MessageFields(
    name: string,
    email: string,
    message: string,
    createdAt: Option<int>)

  type Profile = Row<ProfileFields>
  type Skill = Row<SkillFields>
  type Project = Row<ProjectFields>
  type Experience = Row<ExperienceFields>
  type Message = Row<MessageFields>

  /** The default of the `featured` column. */
  const FeaturedDefault := false

  /**
   * The stored form of a project insert: an omitted `featured` becomes the column
   * default, an explicit null is stored as NULL, and a given value is kept.
   */
  function ProjectWithDefaults(p: NewProject): (r: ProjectFields)
    ensures p.featured.Omitted? ==> r.featured == Some(FeaturedDefault)
    ensures r.featured.None? <==> p.featured.Null?
    ensures r.featured == Some(true) <==> p.featured == Given(true)
    ensures r.techStack == p.techStack
    ensures r.title == p.title && r.description == p.description && r.outcome == p.outcome
    ensures r.githubUrl == p.githubUrl && r.demoUrl == p.demoUrl && r.imageUrl == p.imageUrl
  {
    ProjectFields(p.title, p.description, p.techStack, p.outcome,
                  p.githubUrl, p.demoUrl, p.imageUrl,
                  match p.featured
                  case Omitted => Some(FeaturedDefault)
                  case Null => None
                  case Given(b) => Some(b))
  }

  // === Contact message validation ===

  /** A parsed JSON request body. */
  datatype Json =
    | JNull
    | JBool(b: bool)
    | JNumber(n: real)
    | JString(s: string)
    | JArray(items: seq<Json>)
    | JObject(fields: map<string, Json>)

  /** How the insert sets `createdAt`: omitted (the column default applies) or an explicit null. */
  datatype CreatedAtInput = DefaultNow | ExplicitNull

  /** A message insert that passed validation; unknown keys of the body are dropped. */
  datatype NewMessage = NewMessage(
    id: Option<real>,
    name: string,
    email: string,
    message: string,
    createdAt: CreatedAtInput)

  /** The validator's name for the type of a received value. */
  function TypeName(j: Json): string {
    match j
    case JNull => "null"
    case JBool(_) => "boolean"
    case JNumber(_) => "number"
    case JString(_) => "string"
    case JArray(_) => "array"
    case JObject(_) => "object"
  }

  /** The validator's message for a value of the wrong type: it names both types. */
  function TypeMismatch(expected: string, received: Json): (e: string)
    ensures |e| > 9 && e[..9] == "Expected "
    ensures e[|e| - |TypeName(received)|..] == TypeName(received)
  {
    "Expected " + expected + ", received " + TypeName(received)
  }

  /** The error for a NOT NULL text column without default: the key must hold a string. */
  function RequiredStringIssue(fields: map<string, Json>, key: string): (e: Option<string>)
    ensures e.None? <==> key in fields && fields[key].JString?
    ensures key !in fields ==> e == Some("Required")
    ensures key in fields && !fields[key].JString? ==> e == Some(TypeMismatch("string", fields[key]))
  {
    if key !in fields then Some("Required")
    else if fields[key].JString? then None
    else Some(TypeMismatch("string", fields[key]))
  }

  /** The error for the serial `id`: optional, but a number when present. */
  function IdIssue(fields: map<string, Json>): (e: Option<string>)
    ensures e.None? <==> "id" !in fields || fields["id"].JNumber?
    ensures e.Some? ==> e.value == TypeMismatch("number", fields["id"])
  {
    if "id" !in fields || fields["id"].JNumber? then None
    else Some(TypeMismatch("number", fields["id"]))
  }

  /**
   * The error for `createdAt`: a nullable timestamp with a default, so it may be
   * absent or null; a JSON body cannot carry a date, so any other value fails.
   */
  function CreatedAtIssue(fields: map<string, Json>): (e: Option<string>)
    ensures e.None? <==> "createdAt" !in fields || fields["createdAt"].JNull?
    ensures e.Some? ==> e.value == TypeMismatch("date", fields["createdAt"])
  {
    if "createdAt" !in fields || fields["createdAt"].JNull? then None
    else Some(TypeMismatch("date", fields["createdAt"]))
  }

  /** The per-column checks of the messages table, in column order. */
  function ColumnChecks(fields: map<string, Json>): (cs: seq<Option<string>>)
    ensures |cs| == 5
    ensures (forall i :: 0 <= i < |cs| ==> cs[i].None?) <==> AcceptsMessage(JObject(fields))
    ensures forall i :: 0 <= i < |cs| ==> cs[i].Some? ==> cs[i].value != []
  {
    var cs := [IdIssue(fields),
               RequiredStringIssue(fields, "name"),
               RequiredStringIssue(fields, "email"),
               RequiredStringIssue(fields, "message"),
               CreatedAtIssue(fields)];
    assert (forall i :: 0 <= i < 5 ==> cs[i].None?) <==>
           cs[0].None? && cs[1].None? && cs[2].None? && cs[3].None? && cs[4].None?;
    cs
  }

  /** All issues found, in the order they were found. */
  function Issues(cs: seq<Option<string>>): (r: seq<string>)
    ensures |r| <= |cs|
    ensures r == [] <==> forall i :: 0 <= i < |cs| ==> cs[i].None?
  {
    if cs == [] then []
    else (if cs[0].Some? then [cs[0].value] else []) + Issues(cs[1..])
  }

  /** The first issue reported is that of the earliest failing check. */
  lemma {:induction false} FirstIssueIsEarliest(cs: seq<Option<string>>, k: nat)
    requires k < |cs| && cs[k].Some?
    requires forall i :: 0 <= i < k ==> cs[i].None?
    ensures Issues(cs) != [] && Issues(cs)[0] == cs[k].value
  {
    if k > 0 {
      FirstIssueIsEarliest(cs[1..], k - 1);
    }
  }

  /** The body passes the messages insert schema. */
  predicate AcceptsMessage(body: Json) {
    && body.JObject?
    && ("id" in body.fields ==> body.fields["id"].JNumber?)
    && "name" in body.fields && body.fields["name"].JString?
    && "email" in body.fields && body.fields["email"].JString?
    && "message" in body.fields && body.fields["message"].JString?
    && ("createdAt" in body.fields ==> body.fields["createdAt"].JNull?)
  }

  /**
   * The insert schema of the messages table applied to a request body: either
   * the parsed insert, or the message of the first issue found.
   */
  function ValidateMessage(body: Json): (r: Result<NewMessage, string>)
    ensures r.Ok? <==> AcceptsMessage(body)
    ensures r.Ok? ==>
      && r.value.name == body.fields["name"].s
      && r.value.email == body.fields["email"].s
      && r.value.message == body.fields["message"].s
      && r.value.id == (if "id" in body.fields then Some(body.fields["id"].n) else None)
      && r.value.createdAt == (if "createdAt" in body.fields then ExplicitNull else DefaultNow)
    ensures !body.JObject? ==> r == Err(TypeMismatch("object", body))
    ensures r.Err? ==> r.error != []
  {
    if !body.JObject? then Err(TypeMismatch("object", body))
    else
      var f := body.fields;
      var cs := ColumnChecks(f);
      var issues := Issues(cs);
      if issues != [] then
        assert issues[0] in issues;
        IssueNonEmpty(cs, issues[0]);
        Err(issues[0])
      else
        assert cs[0].None? && cs[1].None? && cs[2].None? && cs[3].None? && cs[4].None?;
        Ok(NewMessage(
          if "id" in f then Some(f["id"].n) else None,
          f["name"].s, f["email"].s, f["message"].s,
          if "createdAt" in f then ExplicitNull else DefaultNow))
  }

  /** Every issue a column check reports is a non-empty message. */
  lemma {:induction false} IssueNonEmpty(cs: seq<Option<string>>, e: string)
    requires forall i :: 0 <= i < |cs| ==> cs[i].Some? ==> cs[i].value != []
    requires e in Issues(cs)
    ensures e != []
  {
    if cs != [] {
      if cs[0].Some? && e == cs[0].value {
      } else {
        IssueNonEmpty(cs[1..], e);
      }
    }
  }

  /**
   * The error of a rejected object body is that of the first column, in the
   * order id, name, email, message, createdAt, whose check fails.
   */
  lemma FirstErrorFollowsColumnOrder(body: Json, k: nat)
    requires body.JObject? && k < 5
    requires ColumnChecks(body.fields)[k].Some?
    requires forall i :: 0 <= i < k ==> ColumnChecks(body.fields)[i].None?
    ensures ValidateMessage(body) == Err(ColumnChecks(body.fields)[k].value)
  {
    FirstIssueIsEarliest(ColumnChecks(body.fields), k);
  }

  /** A body without a `name` key, whose `id` is absent or a number, is rejected as "Required". */
  lemma MissingNameIsRequired(body: Json)
    requires body.JObject? && "name" !in body.fields
    requires "id" !in body.fields || body.fields["id"].JNumber?
    ensures ValidateMessage(body) == Err("Required")
  {
    FirstErrorFollowsColumnOrder(body, 1);
  }

  /** Nothing checks that the strings are non-empty or that the email is well formed. */
  lemma EmptyNameAccepted()
    ensures ValidateMessage(JObject(map["name" := JString(""), "email" := JString("a@b.com"),
                                        "message" := JString("hi")])).Ok?
  {
  }
}

/**
 * The HTTP handlers and the first-run seed step (server/routes.ts).
 *
 * A handler is a method over the store that returns the status code and the
 * JSON body it sends. The request's arrival time and whether the database can
 * be reached are parameters, since they come from outside the program.
 */
module Routes {
  import opened Wrappers
  import opened Schema
  import opened Storage

  /** The JSON body of a response. */
  datatype Body =
    | ProfileBody(profile: Profile)
    | SkillsBody(skills: seq<Skill>)
    | ProjectsBody(projects: seq<Project>)
    | ExperienceBody(experience: seq<Experience>)
    | MessageBody(created: Message)
    | ErrorBody(message: string)

  datatype Response = Response(status: int, body: Body)

  const ProfileNotFound := "Profile not found"
  const InternalServerError := "Internal server error"

  // === GET handlers ===

  /** GET profile: 404 when the table is empty, otherwise 200 with its first row. */
  method HandleGetProfile(store: Store) returns (r: Response)
    ensures store.profile == [] ==> r == Response(404, ErrorBody(ProfileNotFound))
    ensures store.profile != [] ==> r == Response(200, ProfileBody(store.profile[0]))
  {
    var p := store.GetProfile();
    if p.None? {
      return Response(404, ErrorBody(ProfileNotFound));
    }
    r := Response(200, ProfileBody(p.value));
  }

  /** GET skills: always 200 with every row, an empty table giving an empty list. */
  method HandleGetSkills(store: Store) returns (r: Response)
    ensures r == Response(200, SkillsBody(store.skills))
  {
    var rows := store.GetSkills();
    r := Response(200, SkillsBody(rows));
  }

  /** GET projects: always 200 with every row. */
  method HandleGetProjects(store: Store) returns (r: Response)
    ensures r == Response(200, ProjectsBody(store.projects))
  {
    var rows := store.GetProjects();
    r := Response(200, ProjectsBody(rows));
  }

  /** GET experience: always 200 with every row. */
  method HandleGetExperience(store: Store) returns (r: Response)
    ensures r == Response(200, ExperienceBody(store.experience))
  {
    var rows := store.GetExperience();
    r := Response(200, ExperienceBody(rows));
  }

  // === POST contact ===

  /**
   * The contact handler on a snapshot: validate the body, and only when it is
   * valid insert it. A validation error answers 400 with the first issue's
   * message; any storage failure answers 500 with a fixed message.
   */
  function Contact(t: Tables, body: Json, now: int, reachable: bool): (r: (Tables, Response))
    ensures r.1.status == 200 || r.1.status == 400 || r.1.status == 500
    ensures r.1.status == 400 <==> ValidateMessage(body).Err?
    ensures r.1.status == 400 ==> r.0 == t && r.1.body == ErrorBody(ValidateMessage(body).error)
    ensures r.1.status == 200 ==>
      && r.1.body.MessageBody?
      && r.0.messages == t.messages + [r.1.body.created]
      && r.1.body.created.id !in Ids(t.messages)
      && r.1.body.created.data == StoredMessage(ValidateMessage(body).value, now)
    ensures r.1.status == 500 ==> r.1.body == ErrorBody(InternalServerError) && r.0.messages == t.messages
    ensures !reachable && ValidateMessage(body).Ok? ==> r == (t, Response(500, ErrorBody(InternalServerError)))
    ensures reachable && ValidateMessage(body).Ok? && !StorableMessage(ValidateMessage(body).value)
            ==> r == (t, Response(500, ErrorBody(InternalServerError)))
    ensures reachable && AcceptsMessage(body) && StorableMessage(ValidateMessage(body).value)
            && "id" !in body.fields
            && t.messageNext <= Int4Max && t.messageNext !in Ids(t.messages)
            ==> r.1.status == 200 && r.1.body.created.id == t.messageNext
    ensures ValidateMessage(body).Ok? ==>
      var ins := InsertMessage(t, ValidateMessage(body).value, now, reachable);
      && r.0 == ins.0
      && (r.1.status == 200 <==> ins.1.Ok?)
      && (ins.1.Ok? ==> r.1.body == MessageBody(ins.1.value))
    ensures forall k :: k != MessagesTable ==> Agree(t, r.0, k)
    ensures WellFormed(t) ==> WellFormed(r.0)
  {
    match ValidateMessage(body)
    case Err(e) => (t, Response(400, ErrorBody(e)))
    case Ok(m) =>
      var (u, res) := InsertMessage(t, m, now, reachable);
      match res
      case Ok(row) => (u, Response(200, MessageBody(row)))
      case Err(_) => (u, Response(500, ErrorBody(InternalServerError)))
  }

  /** POST contact on the store. */
  method HandleContact(store: Store, body: Json, now: int, reachable: bool) returns (r: Response)
    modifies store
    ensures (store.State(), r) == Contact(old(store.State()), body, now, reachable)
  {
    var input := ValidateMessage(body);
    if input.Err? {
      return Response(400, ErrorBody(input.error));
    }
    var created := store.CreateMessage(input.value, now, reachable);
    if created.Err? {
      return Response(500, ErrorBody(InternalServerError));
    }
    r := Response(200, MessageBody(created.value));
  }

  /** A rejected submission leaves every table and sequence as it was. */
  lemma RejectedContactWritesNothing(t: Tables, body: Json, now: int, reachable: bool)
    requires !AcceptsMessage(body)
    ensures Contact(t, body, now, reachable).0 == t
    ensures Contact(t, body, now, reachable).1.status == 400
  {
  }

  /**
   * A well-formed submission to a reachable store that leaves the id to the
   * sequence is stored with its fields and the request time, under an id no
   * message had before, when the sequence's next value is still free.
   */
  lemma ContactRoundTrip(t: Tables, now: int)
    requires WellFormed(t) && t.messageNext <= Int4Max && t.messageNext !in Ids(t.messages)
    ensures var body := JObject(map["name" := JString("Ann"), "email" := JString("ann@example.com"),
                                     "message" := JString("Hello")]);
            var (u, r) := Contact(t, body, now, true);
            && r.status == 200
            && r.body == MessageBody(Row(t.messageNext,
                 MessageFields("Ann", "ann@example.com", "Hello", Some(now))))
            && u.messages == t.messages + [r.body.created]
            && WellFormed(u)
  {
  }

  // === Seed data ===

  const SeedProfile := ProfileFields(
    "Jane Doe",
    "Senior Full-Stack Developer",
    "I build accessible, pixel-perfect, and performant web experiences. Award-winning UI/UX designer with a passion for clean code.",
    "I'm a software engineer specializing in building (and occasionally designing) exceptional digital experiences. Currently, I'm focused on building accessible, human-centered products.",
    Some("https://images.unsplash.com/photo-1507003211169-0a1dd7228f2d?fit=crop&w=300&h=300"),
    Some("/resume.pdf"),
    Some(SocialLinks(Some("https://github.com"), Some("https://linkedin.com"), None,
                     Some("mailto:hello@example.com"))))

  const SeedSkills := [
    SkillFields("JavaScript (ES6+)", "Languages", None),
    SkillFields("TypeScript", "Languages", None),
    SkillFields("Python", "Languages", None),
    SkillFields("React", "Frameworks", None),
    SkillFields("Node.js", "Frameworks", None),
    SkillFields("Next.js", "Frameworks", None),
    SkillFields("Tailwind CSS", "Frameworks", None),
    SkillFields("PostgreSQL", "Tools", None),
    SkillFields("Docker", "DevOps", None),
    SkillFields("AWS", "DevOps", None)
  ]

  const SeedProjects := [
    NewProject(
      "E-Commerce Platform",
      "A full-featured online store with real-time inventory and payments.",
      ["React", "Node.js", "Stripe", "PostgreSQL"],
      "Increased sales by 25% through improved UX.",
      Some("https://github.com"), Some("https://example.com"),
      Some("https://images.unsplash.com/photo-1557821552-17105176677c?w=800&q=80"),
      Omitted),
    NewProject(
      "Task Management App",
      "Collaborative project management tool for remote teams.",
      ["Vue.js", "Firebase", "Tailwind"],
      "Adopted by 500+ teams in first month.",
      Some("https://github.com"), Some("https://example.com"),
      Some("https://images.unsplash.com/photo-1454165804606-c3d57bc86b40?w=800&q=80"),
      Omitted),
    NewProject(
      "AI Content Generator",
      "Generates blog posts and marketing copy using OpenAI API.",
      ["Next.js", "OpenAI", "Vercel"],
      "Featured on Product Hunt #1 Product of the Day.",
      Some("https://github.com"), Some("https://example.com"),
      Some("https://images.unsplash.com/photo-1677442136019-21780ecad995?w=800&q=80"),
      Omitted)
  ]

  const SeedExperience := [
    ExperienceFields(
      "Tech Solutions Inc.", "Senior Frontend Engineer", "2021", Some("Present"),
      ["Led migration from legacy codebase to React, improving load times by 40%.",
       "Mentored junior developers and established code review best practices.",
       "Architected reusable component library used across 5 products."]),
    ExperienceFields(
      "Creative Digital Agency", "Full Stack Developer", "2018", Some("2021"),
      ["Developed and launched 15+ client websites using JAMstack architecture.",
       "Collaborated with designers to implement pixel-perfect UIs.",
       "Optimized backend APIs for high-traffic campaigns."])
  ]

  /** The stored form of each project insert, in order. */
  function StoredProjects(ps: seq<NewProject>): (r: seq<ProjectFields>)
    ensures |r| == |ps|
    ensures forall i :: 0 <= i < |ps| ==> r[i] == ProjectWithDefaults(ps[i])
  {
    seq(|ps|, i requires 0 <= i < |ps| => ProjectWithDefaults(ps[i]))
  }

  // === Seed step ===

  /** `t` with the skill rows `xs` appended, numbered from the skill sequence. */
  function WithSkills(t: Tables, xs: seq<SkillFields>): (r: Tables)
    ensures forall k :: k != SkillsTable ==> Agree(t, r, k)
  {
    t.(skills := Appended(t.skills, t.skillNext, xs), skillNext := t.skillNext + |xs|)
  }

  /** `t` with the project inserts `ps` appended, with their column defaults. */
  function WithProjects(t: Tables, ps: seq<NewProject>): (r: Tables)
    ensures forall k :: k != ProjectsTable ==> Agree(t, r, k)
  {
    t.(projects := Appended(t.projects, t.projectNext, StoredProjects(ps)),
       projectNext := t.projectNext + |ps|)
  }

  /** `t` with the experience rows `es` appended. */
  function WithExperience(t: Tables, es: seq<ExperienceFields>): (r: Tables)
    ensures forall k :: k != ExperienceTable ==> Agree(t, r, k)
  {
    t.(experience := Appended(t.experience, t.experienceNext, es),
       experienceNext := t.experienceNext + |es|)
  }

  /**
   * What seeding does to `t`: nothing when a profile exists; otherwise the seed
   * profile, skills, projects and experience entries are appended. Only the
   * profile is looked at, so a store with a profile and nothing else stays as
   * it is.
   */
  function Seeded(t: Tables): (r: Tables)
    ensures t.profile != [] ==> r == t
    ensures t.profile == [] ==> r.profile == [Row(t.profileNext, SeedProfile)]
    ensures t.profile == [] ==>
      && |r.skills| == |t.skills| + |SeedSkills|
      && |r.projects| == |t.projects| + |SeedProjects|
      && |r.experience| == |t.experience| + |SeedExperience|
      && r.skills[..|t.skills|] == t.skills
      && r.projects[..|t.projects|] == t.projects
      && r.experience[..|t.experience|] == t.experience
    ensures t.profile == [] ==> Data(r.skills) == Data(t.skills) + SeedSkills
    ensures t.profile == [] ==> Data(r.projects) == Data(t.projects) + StoredProjects(SeedProjects)
    ensures t.profile == [] ==> Data(r.experience) == Data(t.experience) + SeedExperience
    ensures Agree(t, r, MessagesTable)
  {
    if t.profile != [] then t
    else
      AppendedData(t.skills, t.skillNext, SeedSkills);
      AppendedData(t.projects, t.projectNext, StoredProjects(SeedProjects));
      AppendedData(t.experience, t.experienceNext, SeedExperience);
      WithExperience(WithProjects(WithSkills(AddProfile(t, SeedProfile), SeedSkills),
                                  SeedProjects), SeedExperience)
  }

  /** Inserts each skill in turn through `CreateSkill`, in list order. */
  method CreateSkills(store: Store, xs: seq<SkillFields>)
    modifies store
    ensures store.State() == WithSkills(old(store.State()), xs)
  {
    ghost var t := store.State();
    for i := 0 to |xs|
      invariant store.State() == WithSkills(t, xs[..i])
    {
      AppendedStep(t.skills, t.skillNext, xs, i);
      var _ := store.CreateSkill(xs[i]);
    }
    assert xs[..|xs|] == xs;
  }

  /** Inserts each project in turn through `CreateProject`, in list order. */
  method CreateProjects(store: Store, ps: seq<NewProject>)
    modifies store
    ensures store.State() == WithProjects(old(store.State()), ps)
  {
    ghost var t := store.State();
    ghost var stored := StoredProjects(ps);
    for i := 0 to |ps|
      invariant store.State() == t.(projects := Appended(t.projects, t.projectNext, stored[..i]),
                                    projectNext := t.projectNext + i)
    {
      AppendedStep(t.projects, t.projectNext, stored, i);
      var _ := store.CreateProject(ps[i]);
    }
    assert stored[..|ps|] == stored;
  }

  /** Inserts each experience entry in turn through `CreateExperience`, in list order. */
  method CreateExperiences(store: Store, es: seq<ExperienceFields>)
    modifies store
    ensures store.State() == WithExperience(old(store.State()), es)
  {
    ghost var t := store.State();
    for i := 0 to |es|
      invariant store.State() == WithExperience(t, es[..i])
    {
      AppendedStep(t.experience, t.experienceNext, es, i);
      var _ := store.CreateExperience(es[i]);
    }
    assert es[..|es|] == es;
  }

  /** `seedDatabase`: the profile guard, then the inserts in the source's order. */
  method SeedDatabase(store: Store)
    modifies store
    ensures store.State() == Seeded(old(store.State()))
  {
    var existing := store.GetProfile();
    if existing.None? {
      var _ := store.CreateProfile(SeedProfile);
      CreateSkills(store, SeedSkills);
      CreateProjects(store, SeedProjects);
      CreateExperiences(store, SeedExperience);
    }
  }

  /** Seeding twice is seeding once. */
  lemma SeedIdempotent(t: Tables)
    ensures Seeded(Seeded(t)) == Seeded(t)
  {
  }

  /** The guard looks only at the profile: a profile without skills is never completed. */
  lemma SeedSkipsIncompleteStore(t: Tables)
    requires t.profile != [] && t.skills == []
    ensures Seeded(t).skills == []
  {
  }

  /**
   * Seeding an empty store leaves exactly one profile, ten skills, three
   * projects and two experience entries, holding the seed values in order, with
   * every project not featured; messages are untouched.
   */
  lemma SeedEmptyStore(t: Tables)
    requires t.profile == [] && t.skills == [] && t.projects == [] && t.experience == []
    ensures var r := Seeded(t);
      && Data(r.profile) == [SeedProfile]
      && Data(r.skills) == SeedSkills && |r.skills| == 10
      && Data(r.projects) == StoredProjects(SeedProjects) && |r.projects| == 3
      && Data(r.experience) == SeedExperience && |r.experience| == 2
      && (forall i :: 0 <= i < |r.projects| ==> r.projects[i].data.featured == Some(false))
      && r.projects[0].data.techStack == ["React", "Node.js", "Stripe", "PostgreSQL"]
      && r.messages == t.messages
  {
  }

  /**
   * Seeding keeps the store invariant, and every row it adds gets an id its
   * table did not hold before.
   */
  lemma SeedKeepsWellFormed(t: Tables)
    requires WellFormed(t)
    ensures WellFormed(Seeded(t))
    ensures forall i :: |t.skills| <= i < |Seeded(t).skills| ==> Seeded(t).skills[i].id !in Ids(t.skills)
    ensures forall i :: |t.projects| <= i < |Seeded(t).projects| ==>
      Seeded(t).projects[i].id !in Ids(t.projects)
    ensures forall i :: |t.experience| <= i < |Seeded(t).experience| ==>
      Seeded(t).experience[i].id !in Ids(t.experience)
  {
    if t.profile == [] {
      AppendedSerial(t.skills, t.skillNext, SeedSkills);
      AppendedSerial(t.projects, t.projectNext, StoredProjects(SeedProjects));
      AppendedSerial(t.experience, t.experienceNext, SeedExperience);
    }
  }
}

/**
 * The repository through which the handlers reach the database
 * (server/storage.ts), modelled as five in-memory tables with one serial
 * sequence each.
 *
 * Tables keep their rows in insertion order. The SQL reads carry no ORDER BY,
 * so this order is an abstraction of the engine's. Id generation follows the
 * Postgres backend: each `serial` column draws from its own sequence, an
 * explicitly supplied id does not advance the sequence, a value drawn from the
 * sequence is used up even when the insert then fails, and the primary key
 * rejects a duplicate id.
 */
module Storage {
  import opened Wrappers
  import opened Schema

  /** The range of a Postgres `integer` column, which a `serial` id is. */
  const Int4Min: int := -2147483648
  const Int4Max: int := 2147483647

  /** A snapshot of the store: the five tables and the next value of each sequence. */
  datatype Tables = Tables(
    profile: seq<Profile>,
    skills: seq<Skill>,
    projects: seq<Project>,
    experience: seq<Experience>,
    messages: seq<Message>,
    profileNext: int,
    skillNext: int,
    projectNext: int,
    experienceNext: int,
    messageNext: int)

  /** A freshly created database: no rows, every sequence at 1. */
  const Empty: Tables := Tables([], [], [], [], [], 1, 1, 1, 1, 1)

  datatype TableName = ProfileTable | SkillsTable | ProjectsTable | ExperienceTable | MessagesTable

  /** Table `k` (its rows and its sequence) is the same in `t` and `u`. */
  predicate Agree(t: Tables, u: Tables, k: TableName) {
    match k
    case ProfileTable => t.profile == u.profile && t.profileNext == u.profileNext
    case SkillsTable => t.skills == u.skills && t.skillNext == u.skillNext
    case ProjectsTable => t.projects == u.projects && t.projectNext == u.projectNext
    case ExperienceTable => t.experience == u.experience && t.experienceNext == u.experienceNext
    case MessagesTable => t.messages == u.messages && t.messageNext == u.messageNext
  }

  function Ids<T>(rows: seq<Row<T>>): set<int> {
    set i | 0 <= i < |rows| :: rows[i].id
  }

  /** The primary key: no two rows share an id. */
  predicate UniqueIds<T>(rows: seq<Row<T>>) {
    forall i, j :: 0 <= i < j < |rows| ==> rows[i].id != rows[j].id
  }

  /** A table filled only from its sequence: unique ids, all below the sequence's next value. */
  predicate SerialTable<T>(rows: seq<Row<T>>, next: int) {
    && 1 <= next
    && UniqueIds(rows)
    && forall i :: 0 <= i < |rows| ==> rows[i].id < next
  }

  /**
   * The store invariant. The four content tables are only written through their
   * sequences; messages may also carry client-chosen ids, so for them only the
   * primary key holds.
   */
  predicate WellFormed(t: Tables) {
    && SerialTable(t.profile, t.profileNext)
    && SerialTable(t.skills, t.skillNext)
    && SerialTable(t.projects, t.projectNext)
    && SerialTable(t.experience, t.experienceNext)
    && UniqueIds(t.messages)
    && 1 <= t.messageNext
  }

  /** The column values of each row, in table order. */
  function Data<T>(rows: seq<Row<T>>): (r: seq<T>)
    ensures |r| == |rows|
    ensures forall i :: 0 <= i < |rows| ==> r[i] == rows[i].data
  {
    seq(|rows|, i requires 0 <= i < |rows| => rows[i].data)
  }

  /** `rows` followed by one row per element of `xs`, numbered from `next` on. */
  function Appended<T>(rows: seq<Row<T>>, next: int, xs: seq<T>): (r: seq<Row<T>>)
    ensures |r| == |rows| + |xs| && r[..|rows|] == rows
    ensures forall i :: 0 <= i < |xs| ==> r[|rows| + i] == Row(next + i, xs[i])
  {
    rows + seq(|xs|, i requires 0 <= i < |xs| => Row(next + i, xs[i]))
  }

  /** Appending keeps the other rows' data and adds exactly the new data, in order. */
  lemma AppendedData<T>(rows: seq<Row<T>>, next: int, xs: seq<T>)
    ensures Data(Appended(rows, next, xs)) == Data(rows) + xs
  {
  }

  /** Rows drawn from a table's own sequence keep the table serial, and get ids not used before. */
  lemma AppendedSerial<T>(rows: seq<Row<T>>, next: int, xs: seq<T>)
    requires SerialTable(rows, next)
    ensures SerialTable(Appended(rows, next, xs), next + |xs|)
    ensures forall i :: |rows| <= i < |rows| + |xs| ==> Appended(rows, next, xs)[i].id !in Ids(rows)
  {
  }

  /** Inserting one more element extends the appended rows by exactly one row. */
  lemma AppendedStep<T>(rows: seq<Row<T>>, next: int, xs: seq<T>, i: nat)
    requires i < |xs|
    ensures Appended(rows, next, xs[..i + 1]) == Appended(rows, next, xs[..i]) + [Row(next + i, xs[i])]
  {
  }

  // === Single-row inserts ===

  function AddProfile(t: Tables, p: ProfileFields): (r: Tables)
    ensures r.profile == t.profile + [Row(t.profileNext, p)] && r.profileNext == t.profileNext + 1
    ensures forall k :: k != ProfileTable ==> Agree(t, r, k)
    ensures WellFormed(t) ==> WellFormed(r) && t.profileNext !in Ids(t.profile)
  {
    t.(profile := t.profile + [Row(t.profileNext, p)], profileNext := t.profileNext + 1)
  }

  function AddSkill(t: Tables, s: SkillFields): (r: Tables)
    ensures r.skills == t.skills + [Row(t.skillNext, s)] && r.skillNext == t.skillNext + 1
    ensures forall k :: k != SkillsTable ==> Agree(t, r, k)
    ensures WellFormed(t) ==> WellFormed(r) && t.skillNext !in Ids(t.skills)
  {
    t.(skills := t.skills + [Row(t.skillNext, s)], skillNext := t.skillNext + 1)
  }

  function AddProject(t: Tables, p: NewProject): (r: Tables)
    ensures r.projects == t.projects + [Row(t.projectNext, ProjectWithDefaults(p))]
    ensures r.projectNext == t.projectNext + 1
    ensures forall k :: k != ProjectsTable ==> Agree(t, r, k)
    ensures WellFormed(t) ==> WellFormed(r) && t.projectNext !in Ids(t.projects)
  {
    t.(projects := t.projects + [Row(t.projectNext, ProjectWithDefaults(p))],
       projectNext := t.projectNext + 1)
  }

  function AddExperience(t: Tables, e: ExperienceFields): (r: Tables)
    ensures r.experience == t.experience + [Row(t.experienceNext, e)]
    ensures r.experienceNext == t.experienceNext + 1
    ensures forall k :: k != ExperienceTable ==> Agree(t, r, k)
    ensures WellFormed(t) ==> WellFormed(r) && t.experienceNext !in Ids(t.experience)
  {
    t.(experience := t.experience + [Row(t.experienceNext, e)],
       experienceNext := t.experienceNext + 1)
  }

  // === Message insert ===

  /** Why an insert failed; the handlers do not distinguish these. */
  datatype StorageError =
    | Unreachable        // the database could not be reached
    | InvalidText        // a text value holding U+0000, which a Postgres `text` column cannot store
    | InvalidId          // a client id that is not an integer in the `integer` range
    | UniqueViolation    // the id is already used by another row
    | SequenceExhausted  // the sequence is past the `integer` range

  /** The stored columns of a validated insert; an omitted `createdAt` takes the insert time. */
  function StoredMessage(m: NewMessage, now: int): (f: MessageFields)
    ensures f.name == m.name && f.email == m.email && f.message == m.message
    ensures f.createdAt.Some? <==> m.createdAt == DefaultNow
    ensures f.createdAt.Some? ==> f.createdAt.value == now
  {
    MessageFields(m.name, m.email, m.message, if m.createdAt == DefaultNow then Some(now) else None)
  }

  /** The JSON number that denotes the integer `k`. */
  function AsReal(k: int): real {
    k as real
  }

  /** An explicitly supplied id the `integer` column accepts: an integer within its range. */
  predicate UsableId(x: real)
    ensures UsableId(x) <==> exists k: int :: Int4Min <= k <= Int4Max && AsReal(k) == x
  {
    if x.Floor as real == x && Int4Min <= x.Floor <= Int4Max then
      assert AsReal(x.Floor) == x;
      true
    else
      assert forall k: int :: AsReal(k) == x ==> k == x.Floor;
      false
  }

  /** A string a Postgres `text` column can store: it holds no NUL character. */
  predicate StorableText(s: string) {
    forall i :: 0 <= i < |s| ==> s[i] != '\0'
  }

  /** All three text columns of a validated insert can be stored. */
  predicate StorableMessage(m: NewMessage) {
    StorableText(m.name) && StorableText(m.email) && StorableText(m.message)
  }

  /**
   * `INSERT INTO messages ... RETURNING *` for a validated insert, at time `now`,
   * against a database that is `reachable` or not: the new state and either the
   * persisted row or the reason of the failure.
   */
  function InsertMessage(t: Tables, m: NewMessage, now: int, reachable: bool)
    : (r: (Tables, Result<Message, StorageError>))
    ensures forall k :: k != MessagesTable ==> Agree(t, r.0, k)
    ensures r.1.Ok? ==>
      && r.0.messages == t.messages + [r.1.value]
      && r.1.value.data == StoredMessage(m, now)
      && r.1.value.id !in Ids(t.messages)
    ensures r.1.Err? ==> r.0.messages == t.messages
    ensures !reachable ==> r == (t, Err(Unreachable))
    ensures reachable && !StorableMessage(m) ==> r == (t, Err(InvalidText))
    ensures reachable && StorableMessage(m) && m.id.Some? ==>
      (r.1.Ok? <==> UsableId(m.id.value) && m.id.value.Floor !in Ids(t.messages))
      && (r.1.Ok? ==> r.1.value.id as real == m.id.value)
      && r.0.messageNext == t.messageNext
    ensures reachable && StorableMessage(m) && m.id.None? ==>
      (r.1.Ok? <==> t.messageNext <= Int4Max && t.messageNext !in Ids(t.messages))
      && (r.1.Ok? ==> r.1.value.id == t.messageNext)
      && r.0.messageNext == (if t.messageNext <= Int4Max then t.messageNext + 1 else t.messageNext)
    ensures WellFormed(t) ==> WellFormed(r.0)
  {
    if !reachable then (t, Err(Unreachable))
    else if !StorableMessage(m) then (t, Err(InvalidText))
    else match m.id
      case Some(x) =>
        if !UsableId(x) then (t, Err(InvalidId))
        else if x.Floor in Ids(t.messages) then (t, Err(UniqueViolation))
        else
          var row := Row(x.Floor, StoredMessage(m, now));
          FreshIdKeepsUnique(t.messages, row);
          (t.(messages := t.messages + [row]), Ok(row))
      case None =>
        if t.messageNext > Int4Max then (t, Err(SequenceExhausted))
        else
          var used := t.(messageNext := t.messageNext + 1);
          if t.messageNext in Ids(t.messages) then (used, Err(UniqueViolation))
          else
            var row := Row(t.messageNext, StoredMessage(m, now));
            FreshIdKeepsUnique(t.messages, row);
            (used.(messages := t.messages + [row]), Ok(row))
  }

  /** A row whose id is not yet used keeps the primary key intact. */
  lemma FreshIdKeepsUnique<T>(rows: seq<Row<T>>, row: Row<T>)
    requires row.id !in Ids(rows)
    ensures UniqueIds(rows) ==> UniqueIds(rows + [row])
  {
  }

  /**
   * The store. `DatabaseStorage` keeps no state of its own; the fields here are
   * the database's tables and sequences as the repository sees them. There is
   * no read method for messages: they are visible only through `State()`.
   */
  class Store {
    var profile: seq<Profile>
    var skills: seq<Skill>
    var projects: seq<Project>
    var experience: seq<Experience>
    var messages: seq<Message>
    var profileNext: int
    var skillNext: int
    var projectNext: int
    var experienceNext: int
    var messageNext: int

    function State(): Tables
      reads this
    {
      Tables(profile, skills, projects, experience, messages,
             profileNext, skillNext, projectNext, experienceNext, messageNext)
    }

    /** The store at first start, over a freshly created database. */
    constructor ()
      ensures State() == Empty && WellFormed(State())
    {
      profile, skills, projects, experience, messages := [], [], [], [], [];
      profileNext, skillNext, projectNext, experienceNext, messageNext := 1, 1, 1, 1, 1;
    }

    /** `SELECT * FROM profile LIMIT 1`: the first row, or none when the table is empty. */
    method GetProfile() returns (p: Option<Profile>)
      ensures p.None? <==> profile == []
      ensures p.Some? ==> p.value == profile[0]
    {
      if profile == [] {
        p := None;
      } else {
        p := Some(profile[0]);
      }
    }

    /** Every skill row. */
    method GetSkills() returns (rows: seq<Skill>)
      ensures rows == skills
    {
      rows := skills;
    }

    /** Every project row. */
    method GetProjects() returns (rows: seq<Project>)
      ensures rows == projects
    {
      rows := projects;
    }

    /** Every experience row. */
    method GetExperience() returns (rows: seq<Experience>)
      ensures rows == experience
    {
      rows := experience;
    }

    /** Inserts one validated message and returns the persisted row. */
    method CreateMessage(m: NewMessage, now: int, reachable: bool)
      returns (r: Result<Message, StorageError>)
      modifies this
      ensures (State(), r) == InsertMessage(old(State()), m, now, reachable)
    {
      if !reachable {
        return Err(Unreachable);
      }
      if !StorableMessage(m) {
        return Err(InvalidText);
      }
      var id: int;
      if m.id.Some? {
        if !UsableId(m.id.value) {
          return Err(InvalidId);
        }
        id := m.id.value.Floor;
      } else {
        if messageNext > Int4Max {
          return Err(SequenceExhausted);
        }
        id := messageNext;
        messageNext := messageNext + 1;
      }
      if id in Ids(messages) {
        return Err(UniqueViolation);
      }
      var row := Row(id, StoredMessage(m, now));
      messages := messages + [row];
      r := Ok(row);
    }

    /** Bootstrap insert of a profile row. */
    method CreateProfile(p: ProfileFields) returns (row: Profile)
      modifies this
      ensures State() == AddProfile(old(State()), p)
      ensures row == Row(old(profileNext), p)
    {
      row := Row(profileNext, p);
      profile := profile + [row];
      profileNext := profileNext + 1;
    }

    /** Bootstrap insert of a skill row. */
    method CreateSkill(s: SkillFields) returns (row: Skill)
      modifies this
      ensures State() == AddSkill(old(State()), s)
      ensures row == Row(old(skillNext), s)
    {
      row := Row(skillNext, s);
      skills := skills + [row];
      skillNext := skillNext + 1;
    }

    /** Bootstrap insert of a project row; an omitted `featured` becomes false. */
    method CreateProject(p: NewProject) returns (row: Project)
      modifies this
      ensures State() == AddProject(old(State()), p)
      ensures row == Row(old(projectNext), ProjectWithDefaults(p))
    {
      row := Row(projectNext, ProjectWithDefaults(p));
      projects := projects + [row];
      projectNext := projectNext + 1;
    }

    /** Bootstrap insert of an experience row. */
    method CreateExperience(e: ExperienceFields) returns (row: Experience)
      modifies this
      ensures State() == AddExperience(old(State()), e)
      ensures row == Row(old(experienceNext), e)
    {
      row := Row(experienceNext, e);
      experience := experience + [row];
      experienceNext := experienceNext + 1;
    }
  }
}

/**
 * The in-memory repository of the portfolio server (`MemStorage`): two
 * id-keyed tables, projects and contact messages, each with its own
 * auto-increment counter that starts at 1.
 *
 * `Store` is the value of the repository and the functions over it are the
 * specification; the class `MemStorage` holds the same four fields and its
 * methods update them in place, each proved to follow its specification.
 */
module Storage {
  import opened Wrappers

  /** An optional field of an insert record: omitted, explicitly null, or given. */
  datatype Field<T> = Absent | Null | Present(value: T)

  /** `field ?? null`: both an omitted and a null field are stored as null. */
  function OrNull<T>(f: Field<T>): (r: Option<T>)
    ensures r.Some? <==> f.Present?
    ensures f.Present? ==> r.value == f.value
  {
    match f
    case Present(v) => Some(v)
    case _ => None
  }

  /** What a caller hands to `createProject`. */
  datatype InsertProject = InsertProject(
    title: string,
    subtitle: string,
    description: string,
    content: string,
    tags: Field<seq<string>>,
    liveLink: Field<string>,
    githubLink: Field<string>)

  /** A stored project row; `createdAt` is the creation time in milliseconds. */
  datatype Project = Project(
    id: int,
    title: string,
    subtitle: string,
    description: string,
    content: string,
    tags: Option<seq<string>>,
    liveLink: Option<string>,
    githubLink: Option<string>,
    createdAt: int)

  /** What a caller hands to `createMessage` (the contact form's fields). */
  datatype InsertMessage = InsertMessage(name: string, email: string, message: string)

  /** A stored message: every insert field, plus `id` and `createdAt`. */
  datatype Message = Message(id: int, name: string, email: string, message: string, createdAt: int)

  /** The project row `createProject` builds for the given id and clock reading. */
  function NewProject(id: int, input: InsertProject, now: int): (p: Project)
    ensures p.id == id && p.createdAt == now
    ensures p.title == input.title && p.subtitle == input.subtitle
    ensures p.description == input.description && p.content == input.content
    ensures p.tags == OrNull(input.tags)
    ensures p.liveLink == OrNull(input.liveLink) && p.githubLink == OrNull(input.githubLink)
  {
    Project(id, input.title, input.subtitle, input.description, input.content,
            OrNull(input.tags), OrNull(input.liveLink), OrNull(input.githubLink), now)
  }

  /** The message row `createMessage` builds: the insert spread, then `id` and `createdAt`. */
  function NewMessage(id: int, input: InsertMessage, now: int): (m: Message)
    ensures m.id == id && m.createdAt == now
    ensures InsertMessage(m.name, m.email, m.message) == input
  {
    Message(id, input.name, input.email, input.message, now)
  }

  /** The whole state of a `MemStorage`. */
  datatype Store = Store(
    projects: map<int, Project>,
    messages: map<int, Message>,
    projectId: int,
    messageId: int)

  /** The state of a freshly constructed store. */
  const Empty: Store := Store(map[], map[], 1, 1)

  /**
   * The repository invariant: each table holds exactly the ids 1 up to (not
   * including) its counter, and every row is stored under its own id.
   */
  ghost predicate WellFormed(s: Store) {
    && s.projectId >= 1
    && s.messageId >= 1
    && (forall id :: id in s.projects <==> 1 <= id < s.projectId)
    && (forall id :: id in s.projects ==> s.projects[id].id == id)
    && (forall id :: id in s.messages <==> 1 <= id < s.messageId)
    && (forall id :: id in s.messages ==> s.messages[id].id == id)
  }

  /** The rows 1..n of a table, in id order. */
  function RowsUpTo(m: map<int, Project>, n: int): (r: seq<Project>)
    requires forall id :: 1 <= id <= n ==> id in m
    ensures |r| == if n <= 0 then 0 else n
    ensures forall k :: 0 <= k < |r| ==> r[k] == m[k + 1]
    decreases n
  {
    if n <= 0 then [] else RowsUpTo(m, n - 1) + [m[n]]
  }

  /**
   * `getProjects`: the values of the projects map in insertion order, which is
   * id order because ids are handed out increasingly.
   */
  function ProjectList(s: Store): (r: seq<Project>)
    requires WellFormed(s)
    ensures |r| == s.projectId - 1
    ensures forall k :: 0 <= k < |r| ==> r[k] == s.projects[k + 1] && r[k].id == k + 1
  {
    RowsUpTo(s.projects, s.projectId - 1)
  }

  /** `getProject(id)`: the row stored under `id`, or undefined. */
  function Lookup(s: Store, id: int): (r: Option<Project>)
    requires WellFormed(s)
    ensures r.Some? <==> 1 <= id < s.projectId
    ensures r.Some? ==> r.value.id == id && r.value == s.projects[id]
  {
    if id in s.projects then Some(s.projects[id]) else None
  }

  /**
   * `createProject(input)`: the new state and the created row. The row takes
   * the current counter as its id, the counter grows by exactly one, no other
   * id changes and the messages table is untouched.
   */
  function AddProject(s: Store, input: InsertProject, now: int): (r: (Store, Project))
    requires WellFormed(s)
    ensures WellFormed(r.0)
    ensures r.1 == NewProject(s.projectId, input, now)
    ensures r.1.id !in s.projects
    ensures r.0.projectId == s.projectId + 1
    ensures r.0.projects == s.projects[r.1.id := r.1]
    ensures Lookup(r.0, r.1.id) == Some(r.1)
    ensures forall id :: id != r.1.id ==> Lookup(r.0, id) == Lookup(s, id)
    ensures r.0.messages == s.messages && r.0.messageId == s.messageId
  {
    var p := NewProject(s.projectId, input, now);
    (s.(projects := s.projects[p.id := p], projectId := s.projectId + 1), p)
  }

  /**
   * `createMessage(input)`: the row takes the message counter as its id, that
   * counter grows by one, and the projects table and its counter are untouched.
   */
  function AddMessage(s: Store, input: InsertMessage, now: int): (r: (Store, Message))
    requires WellFormed(s)
    ensures WellFormed(r.0)
    ensures r.1 == NewMessage(s.messageId, input, now)
    ensures r.1.id !in s.messages
    ensures r.0.messageId == s.messageId + 1
    ensures r.0.messages == s.messages[r.1.id := r.1]
    ensures r.0.projects == s.projects && r.0.projectId == s.projectId
  {
    var m := NewMessage(s.messageId, input, now);
    (s.(messages := s.messages[m.id := m], messageId := s.messageId + 1), m)
  }

  /** Rows below a key that a map update does not touch are listed as before. */
  lemma {:induction false} RowsUpToUpdate(m: map<int, Project>, n: int, key: int, p: Project)
    requires forall id :: 1 <= id <= n ==> id in m
    requires key > n
    ensures RowsUpTo(m[key := p], n) == RowsUpTo(m, n)
    decreases n
  {
    if n > 0 {
      RowsUpToUpdate(m, n - 1, key, p);
    }
  }

  /** Creating a project appends exactly that project to `getProjects()`. */
  lemma ListAfterAdd(s: Store, input: InsertProject, now: int)
    requires WellFormed(s)
    ensures ProjectList(AddProject(s, input, now).0) == ProjectList(s) + [AddProject(s, input, now).1]
  {
    var r := AddProject(s, input, now);
    RowsUpToUpdate(s.projects, s.projectId - 1, s.projectId, r.1);
  }

  /** The ids 1 up to (not including) n. */
  function IdRange(n: int): (ids: set<int>)
    ensures forall id :: id in ids <==> 1 <= id < n
    ensures n >= 1 ==> |ids| == n - 1
    decreases n
  {
    if n <= 1 then {} else IdRange(n - 1) + {n - 1}
  }

  /**
   * The number of stored projects (and of listed ones) equals the number of
   * `createProject` calls so far: ids are never reused or overwritten. The same
   * holds for messages.
   */
  lemma TableSizes(s: Store)
    requires WellFormed(s)
    ensures |s.projects| == |ProjectList(s)| == s.projectId - 1
    ensures |s.messages| == s.messageId - 1
  {
    assert s.projects.Keys == IdRange(s.projectId);
    assert s.messages.Keys == IdRange(s.messageId);
  }

  /** A run of `createProject` calls, and the state and rows it leaves. */
  function AddProjects(s: Store, inputs: seq<InsertProject>, now: int): (r: (Store, seq<Project>))
    requires WellFormed(s)
    ensures WellFormed(r.0)
    ensures r.0.projectId == s.projectId + |inputs|
    ensures |r.1| == |inputs|
    ensures forall k :: 0 <= k < |r.1| ==> r.1[k].id == s.projectId + k
    decreases |inputs|
  {
    if |inputs| == 0 then (s, [])
    else
      var (s1, p) := AddProject(s, inputs[0], now);
      var (s2, ps) := AddProjects(s1, inputs[1..], now);
      (s2, [p] + ps)
  }

  /** Successive creates hand out strictly increasing, hence distinct, ids. */
  lemma IdsIncrease(s: Store, inputs: seq<InsertProject>, now: int, i: int, j: int)
    requires WellFormed(s)
    requires 0 <= i < j < |inputs|
    ensures AddProjects(s, inputs, now).1[i].id < AddProjects(s, inputs, now).1[j].id
  {
  }

  /** After a run of creates, the store holds one project per create. */
  lemma {:induction false} CountAfterCreates(inputs: seq<InsertProject>, now: int)
    ensures |ProjectList(AddProjects(Empty, inputs, now).0)| == |inputs|
    ensures |AddProjects(Empty, inputs, now).0.projects| == |inputs|
  {
    TableSizes(AddProjects(Empty, inputs, now).0);
  }

  /** The repository, updated in place as `MemStorage` does. */
  class MemStorage {
    var projects: map<int, Project>
    var messages: map<int, Message>
    var projectId: int
    var messageId: int

    /** The current value of the four fields. */
    function State(): Store
      reads this
    {
      Store(projects, messages, projectId, messageId)
    }

    ghost predicate Valid()
      reads this
    {
      WellFormed(State())
    }

    /** Both maps empty, both counters at 1. */
    constructor ()
      ensures Valid()
      ensures State() == Empty
      ensures projects == map[] && messages == map[] && projectId == 1 && messageId == 1
    {
      projects := map[];
      messages := map[];
      projectId := 1;
      messageId := 1;
    }

    method GetProjects() returns (r: seq<Project>)
      requires Valid()
      ensures r == ProjectList(State())
      ensures |r| == projectId - 1
      ensures forall k :: 0 <= k < |r| ==> r[k] == projects[k + 1]
    {
      r := RowsUpTo(projects, projectId - 1);
    }

    method GetProject(id: int) returns (r: Option<Project>)
      requires Valid()
      ensures r == Lookup(State(), id)
      ensures r.None? <==> id < 1 || id >= projectId
      ensures r.Some? ==> r.value.id == id
    {
      if id in projects {
        r := Some(projects[id]);
      } else {
        r := None;
      }
    }

    method CreateProject(input: InsertProject, now: int) returns (p: Project)
      requires Valid()
      modifies this
      ensures Valid()
      ensures (State(), p) == AddProject(old(State()), input, now)
      ensures p.id == old(projectId) && projectId == old(projectId) + 1
      ensures projects == old(projects)[p.id := p]
      ensures messages == old(messages) && messageId == old(messageId)
    {
      var id := projectId;
      projectId := projectId + 1;
      p := NewProject(id, input, now);
      projects := projects[id := p];
    }

    method CreateMessage(input: InsertMessage, now: int) returns (m: Message)
      requires Valid()
      modifies this
      ensures Valid()
      ensures (State(), m) == AddMessage(old(State()), input, now)
      ensures m.id == old(messageId) && messageId == old(messageId) + 1
      ensures messages == old(messages)[m.id := m]
      ensures projects == old(projects) && projectId == old(projectId)
    {
      var id := messageId;
      messageId := messageId + 1;
      m := NewMessage(id, input, now);
      messages := messages[id := m];
    }
  }
}

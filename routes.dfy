/**
 * The decisions the HTTP handlers of server/routes.ts make, over the
 * `MemStorage` model: the 404-or-found choice for one project, the project
 * list, the 201-or-400-or-throw choice for a contact message (with the `field`
 * text built by joining the first validation issue's path with "."), and the
 * start-up seed that creates each of two projects unless one with its title
 * already exists.
 *
 * The request parser is abstract: `ParseResult` is what
 * `api.messages.create.input.parse(req.body)` returns or throws.
 */
module Routes {
  import opened Wrappers
  import opened Storage
  import opened SeedData

  // ---------------------------------------------------------------------------
  // Replies

  /** The JSON bodies the handlers send. */
  datatype Body =
    | ProjectsBody(projects: seq<Project>)
    | ProjectBody(project: Project)
    | MessageBody(created: Message)
    | ErrorBody(message: string, field: Option<string>)

  /** A status code and a JSON body (`res.json` alone means 200). */
  datatype Reply = Reply(status: int, body: Body)

  /** Why a handler threw instead of replying. */
  datatype Thrown =
    | NoIssue              // a validation error with no issue: reading `errors[0].message` throws
    | Rethrown(error: string)  // any other error leaves the handler unchanged

  datatype Outcome = Replied(reply: Reply) | Threw(thrown: Thrown)

  const NotFoundMessage: string := "Project not found"

  /** The project GET handler's choice once storage has answered. */
  function ProjectReply(found: Option<Project>): (r: Reply)
    ensures r.status == 404 <==> found.None?
    ensures found.None? ==> r.body == ErrorBody(NotFoundMessage, None)
    ensures found.Some? ==> r.status == 200 && r.body == ProjectBody(found.value)
  {
    match found
    case None => Reply(404, ErrorBody(NotFoundMessage, None))
    case Some(p) => Reply(200, ProjectBody(p))
  }

  // ---------------------------------------------------------------------------
  // Validation issues and the `field` text

  /** One segment of a validation issue's path: an object key or an array index. */
  datatype PathKey = Key(name: string) | Index(position: nat)

  /** One validation issue: its message and the path of the offending field. */
  datatype Issue = Issue(message: string, path: seq<PathKey>)

  /** What parsing the request body gives: the input, a validation error, or another error. */
  datatype ParseResult =
    | Accepted(input: InsertMessage)
    | ValidationError(issues: seq<Issue>)
    | OtherError(error: string)

  predicate IsDigit(c: char) {
    '0' <= c <= '9'
  }

  /** The decimal digit character of d. */
  function Digit(d: nat): (c: char)
    requires d < 10
    ensures IsDigit(c) && c as int - '0' as int == d
  {
    ('0' as int + d) as char
  }

  /** How `Array.prototype.join` writes a non-negative integer: its decimal digits. */
  function DecimalString(n: nat): (s: string)
    ensures |s| >= 1
    ensures forall i :: 0 <= i < |s| ==> IsDigit(s[i])
    decreases n
  {
    if n < 10 then [Digit(n)] else DecimalString(n / 10) + [Digit(n % 10)]
  }

  /** The number a string of decimal digits denotes. */
  function DecimalValue(s: string): nat
    requires forall i :: 0 <= i < |s| ==> IsDigit(s[i])
  {
    if |s| == 0 then 0
    else
      var last := s[|s| - 1];
      assert IsDigit(last);
      DecimalValue(s[..|s| - 1]) * 10 + (last as int - '0' as int)
  }

  /** An index segment can be read back from its text. */
  lemma {:induction false} DecimalRoundTrip(n: nat)
    ensures DecimalValue(DecimalString(n)) == n
    decreases n
  {
    if n >= 10 {
      var s := DecimalString(n / 10);
      assert (s + [Digit(n % 10)])[..|s|] == s;
      DecimalRoundTrip(n / 10);
    }
  }

  /** `parts.join(sep)`. */
  function Join(parts: seq<string>, sep: string): string
    decreases |parts|
  {
    if |parts| == 0 then ""
    else if |parts| == 1 then parts[0]
    else parts[0] + sep + Join(parts[1..], sep)
  }

  /** The pieces of s between occurrences of c; the partner of `Join`. */
  function Split(s: string, c: char): (r: seq<string>)
    ensures |r| >= 1
    ensures forall i :: 0 <= i < |r| ==> c !in r[i]
    decreases |s|
  {
    if |s| == 0 then [""]
    else
      var rest := Split(s[1..], c);
      if s[0] == c then [""] + rest else [[s[0]] + rest[0]] + rest[1..]
  }

  /** Splitting a piece free of c followed by t extends only the first piece of t. */
  lemma {:induction false} SplitPrefix(p: string, t: string, c: char)
    requires c !in p
    ensures Split(p + t, c) == [p + Split(t, c)[0]] + Split(t, c)[1..]
    decreases |p|
  {
    var r := Split(t, c);
    if |p| == 0 {
      assert p + t == t;
      assert p + r[0] == r[0];
      assert r == [r[0]] + r[1..];
    } else {
      assert (p + t)[0] == p[0];
      assert (p + t)[1..] == p[1..] + t;
      SplitPrefix(p[1..], t, c);
      assert [p[0]] + (p[1..] + Split(t, c)[0]) == p + Split(t, c)[0];
    }
  }

  /** Joining pieces free of c with c, then splitting at c, gives the pieces back. */
  lemma {:induction false} SplitJoin(parts: seq<string>, c: char)
    requires |parts| >= 1
    requires forall i :: 0 <= i < |parts| ==> c !in parts[i]
    ensures Split(Join(parts, [c]), c) == parts
    decreases |parts|
  {
    if |parts| == 1 {
      SplitPrefix(parts[0], "", c);
      assert parts[0] + "" == parts[0];
    } else {
      var j := Join(parts[1..], [c]);
      assert Join(parts, [c]) == parts[0] + ([c] + j);
      SplitPrefix(parts[0], [c] + j, c);
      assert ([c] + j)[1..] == j;
      assert Split([c] + j, c) == [""] + Split(j, c);
      assert parts[0] + "" == parts[0];
      SplitJoin(parts[1..], c);
      assert parts == [parts[0]] + parts[1..];
    }
  }

  /** Splitting at c and joining with c gives back any string. */
  lemma {:induction false} JoinSplit(s: string, c: char)
    ensures Join(Split(s, c), [c]) == s
    decreases |s|
  {
    if |s| > 0 {
      var r := Split(s[1..], c);
      JoinSplit(s[1..], c);
      if s[0] == c {
        assert ([""] + r)[1..] == r;
      } else {
        var first := [s[0]] + r[0];
        assert ([first] + r[1..])[1..] == r[1..];
        if |r| == 1 {
          assert s == [s[0]] + s[1..];
        } else {
          assert s == [s[0]] + (r[0] + [c] + Join(r[1..], [c]));
        }
      }
    }
  }

  /** The text of one path segment, as `join` writes it. */
  function KeyText(k: PathKey): string {
    match k
    case Key(name) => name
    case Index(i) => DecimalString(i)
  }

  function KeyTexts(path: seq<PathKey>): (r: seq<string>)
    ensures |r| == |path|
    ensures forall i :: 0 <= i < |path| ==> r[i] == KeyText(path[i])
  {
    seq(|path|, i requires 0 <= i < |path| => KeyText(path[i]))
  }

  /** `path.join('.')`. */
  function PathText(path: seq<PathKey>): string {
    Join(KeyTexts(path), ".")
  }

  /**
   * The `field` text identifies the path: when no key contains a dot,
   * splitting it at the dots gives back each segment's text, in order.
   */
  lemma FieldNamesPath(path: seq<PathKey>)
    requires |path| >= 1
    requires forall i :: 0 <= i < |path| && path[i].Key? ==> '.' !in path[i].name
    ensures Split(PathText(path), '.') == KeyTexts(path)
  {
    var texts := KeyTexts(path);
    forall i | 0 <= i < |texts| ensures '.' !in texts[i] {
      if path[i].Index? {
        var d := DecimalString(path[i].position);
        assert forall k :: 0 <= k < |d| ==> d[k] != '.';
      }
    }
    SplitJoin(texts, '.');
  }

  /** The message POST handler's answer to a validation error. */
  function ValidationReply(issues: seq<Issue>): (o: Outcome)
    ensures o.Threw? <==> |issues| == 0
    ensures o.Threw? ==> o.thrown == NoIssue
    ensures |issues| > 0 ==> o.reply.status == 400
    ensures |issues| > 0 ==> o.reply.body == ErrorBody(issues[0].message, Some(PathText(issues[0].path)))
  {
    if |issues| == 0 then Threw(NoIssue)
    else Replied(Reply(400, ErrorBody(issues[0].message, Some(PathText(issues[0].path)))))
  }

  // ---------------------------------------------------------------------------
  // Handlers over the repository

  /** GET for the project list: the stored projects in id order. */
  method ListProjects(store: MemStorage) returns (r: Reply)
    requires store.Valid()
    ensures r.status == 200 && r.body.ProjectsBody?
    ensures r.body.projects == ProjectList(store.State())
    ensures |r.body.projects| == |store.projects|
  {
    var projects := store.GetProjects();
    TableSizes(store.State());
    r := Reply(200, ProjectsBody(projects));
  }

  /**
   * GET for one project. `id` is `Number(req.params.id)` when that is an
   * integer, and None when it is NaN or has a fraction (no key equals those).
   */
  method GetProject(store: MemStorage, id: Option<int>) returns (r: Reply)
    requires store.Valid()
    ensures r.status == 404 <==> !(id.Some? && 1 <= id.value < store.projectId)
    ensures r.status == 404 ==> r.body == ErrorBody(NotFoundMessage, None)
    ensures r.status != 404 ==> r == Reply(200, ProjectBody(store.projects[id.value]))
  {
    var found := None;
    if id.Some? {
      found := store.GetProject(id.value);
    }
    r := ProjectReply(found);
  }

  /**
   * POST for a contact message: a parsed input is stored and answered with
   * 201 and the created row; a validation error is answered by
   * `ValidationReply` and stores nothing; any other error is rethrown.
   */
  method PostMessage(store: MemStorage, parsed: ParseResult, now: int) returns (o: Outcome)
    requires store.Valid()
    modifies store
    ensures store.Valid()
    ensures parsed.Accepted? ==>
      var (after, m) := AddMessage(old(store.State()), parsed.input, now);
      store.State() == after && o == Replied(Reply(201, MessageBody(m)))
    ensures parsed.Accepted? ==> |store.messages| == |old(store.messages)| + 1
    ensures parsed.ValidationError? ==> store.State() == old(store.State()) && o == ValidationReply(parsed.issues)
    ensures parsed.OtherError? ==> store.State() == old(store.State()) && o == Threw(Rethrown(parsed.error))
  {
    TableSizes(store.State());
    match parsed {
      case Accepted(input) =>
        var m := store.CreateMessage(input, now);
        TableSizes(store.State());
        o := Replied(Reply(201, MessageBody(m)));
      case ValidationError(issues) =>
        o := ValidationReply(issues);
      case OtherError(e) =>
        o := Threw(Rethrown(e));
    }
  }

  // ---------------------------------------------------------------------------
  // Seeding

  /** `projects.some(p => p.title === title)`. */
  function HasTitle(projects: seq<Project>, title: string): (b: bool)
    ensures b <==> exists i :: 0 <= i < |projects| && projects[i].title == title
    decreases |projects|
  {
    if |projects| == 0 then false
    else projects[0].title == title || HasTitle(projects[1..], title)
  }

  /** Some stored project carries the title. */
  ghost predicate Holds(s: Store, title: string)
    requires WellFormed(s)
  {
    HasTitle(ProjectList(s), title)
  }

  /**
   * The seed block: one snapshot of the project list is taken first; each of
   * the two projects is created only if the snapshot has no project of its
   * title. `now1` and `now2` are the clock at each create.
   */
  function Seeded(s: Store, now1: int, now2: int): (r: Store)
    requires WellFormed(s)
    ensures WellFormed(r)
  {
    var existing := ProjectList(s);
    var s1 := if HasTitle(existing, VytalCareTitle) then s else AddProject(s, VytalCare, now1).0;
    if HasTitle(existing, ProVytalTitle) then s1 else AddProject(s1, ProVytal, now2).0
  }

  /** A project whose title is t, appended to a list, makes the list hold t. */
  lemma AppendHolds(ps: seq<Project>, p: Project, t: string)
    ensures HasTitle(ps + [p], t) <==> HasTitle(ps, t) || p.title == t
  {
    if HasTitle(ps, t) {
      var i :| 0 <= i < |ps| && ps[i].title == t;
      assert (ps + [p])[i] == ps[i];
    }
    if HasTitle(ps + [p], t) && p.title != t {
      var i :| 0 <= i < |ps + [p]| && (ps + [p])[i].title == t;
      assert ps[i].title == t;
    }
    assert (ps + [p])[|ps|] == p;
  }

  /** Creating a project keeps every title that was present and adds its own. */
  lemma AddHolds(s: Store, input: InsertProject, now: int, t: string)
    requires WellFormed(s)
    ensures Holds(AddProject(s, input, now).0, t) <==> Holds(s, t) || input.title == t
  {
    ListAfterAdd(s, input, now);
    AppendHolds(ProjectList(s), AddProject(s, input, now).1, t);
  }

  /**
   * Seeding creates a project exactly when its title is missing: the counter
   * grows by the number of missing titles, and each created row is the
   * seed record under the next id.
   */
  lemma SeedCreatesMissing(s: Store, now1: int, now2: int)
    requires WellFormed(s)
    ensures var r := Seeded(s, now1, now2);
      r.projectId == s.projectId + (if Holds(s, VytalCareTitle) then 0 else 1)
                                 + (if Holds(s, ProVytalTitle) then 0 else 1)
    ensures var r := Seeded(s, now1, now2);
      !Holds(s, VytalCareTitle) ==> r.projects[s.projectId] == NewProject(s.projectId, VytalCare, now1)
    ensures var r := Seeded(s, now1, now2);
      !Holds(s, ProVytalTitle) ==> r.projects[r.projectId - 1] == NewProject(r.projectId - 1, ProVytal, now2)
  {
  }

  /** Seeding never modifies or removes a project, and leaves the messages alone. */
  lemma SeedKeepsExisting(s: Store, now1: int, now2: int)
    requires WellFormed(s)
    ensures var r := Seeded(s, now1, now2);
      forall id :: id in s.projects ==> id in r.projects && r.projects[id] == s.projects[id]
    ensures var r := Seeded(s, now1, now2);
      r.messages == s.messages && r.messageId == s.messageId
  {
  }

  /** After seeding, both titles are present. */
  lemma SeedEstablishes(s: Store, now1: int, now2: int)
    requires WellFormed(s)
    ensures Holds(Seeded(s, now1, now2), VytalCareTitle)
    ensures Holds(Seeded(s, now1, now2), ProVytalTitle)
  {
    var s1 := if Holds(s, VytalCareTitle) then s else AddProject(s, VytalCare, now1).0;
    if !Holds(s, VytalCareTitle) {
      AddHolds(s, VytalCare, now1, VytalCareTitle);
      AddHolds(s, VytalCare, now1, ProVytalTitle);
    }
    if !Holds(s, ProVytalTitle) {
      AddHolds(s1, ProVytal, now2, VytalCareTitle);
      AddHolds(s1, ProVytal, now2, ProVytalTitle);
    }
  }

  /** Seeding a store that holds both titles changes nothing, so seeding twice is seeding once. */
  lemma SeedIdempotent(s: Store, now1: int, now2: int, later1: int, later2: int)
    requires WellFormed(s)
    ensures Holds(s, VytalCareTitle) && Holds(s, ProVytalTitle) ==> Seeded(s, now1, now2) == s
    ensures Seeded(Seeded(s, now1, now2), later1, later2) == Seeded(s, now1, now2)
  {
    SeedEstablishes(s, now1, now2);
  }

  /** The seed block run against the repository in place. */
  method Seed(store: MemStorage, now1: int, now2: int)
    requires store.Valid()
    modifies store
    ensures store.Valid()
    ensures store.State() == Seeded(old(store.State()), now1, now2)
  {
    var existing := store.GetProjects();
    if !HasTitle(existing, VytalCareTitle) {
      var created := store.CreateProject(VytalCare, now1);
    }
    if !HasTitle(existing, ProVytalTitle) {
      var created := store.CreateProject(ProVytal, now2);
    }
  }

  /**
   * `registerRoutes`: runs the seed and hands back the server it was given.
   * With the in-memory repository no step of the seed can fail, so the
   * handler for a failed seed is never reached.
   */
  method RegisterRoutes<S>(server: S, store: MemStorage, now1: int, now2: int) returns (result: S)
    requires store.Valid()
    modifies store
    ensures result == server
    ensures store.Valid() && store.State() == Seeded(old(store.State()), now1, now2)
  {
    Seed(store, now1, now2);
    result := server;
  }
}

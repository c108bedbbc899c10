/** Value-level specification of the todo service in src/index.js: the data it
    keeps, the identity gate `checksExistsUserAccount`, Express's choice of
    route, and one request/response step over the whole registry. */
module Model {
  import opened Wrappers
  import opened Text

  /** Identifiers come from `uuidv4()`; here they are drawn from one counter
      shared by users and todos, so "fresh" means "not handed out before". */
  type Id = nat

  /** `new Date(deadline)`: the date built from the body's `deadline` field.
      Date parsing is not modelled, only which input the date came from. */
  datatype Date = DateOf(input: Option<string>)

  datatype Todo = Todo(id: Id, title: Option<string>, done: bool, deadline: Date, createdAt: int)

  /** A registered user. `name` and `username` are copied from the request
      body unchecked, so either may be absent. */
  datatype UserRecord = UserRecord(id: Id, name: Option<string>, username: Option<string>, todos: seq<Todo>)

  /** The module-level `users` array (in registration order) and the id source. */
  datatype State = State(users: seq<UserRecord>, nextId: Id)

  /** The JSON body fields the handlers read. */
  datatype Body = Body(name: Option<string>, username: Option<string>, title: Option<string>, deadline: Option<string>)

  /** A request as the application sees it: the HTTP method, target (`request.url`,
      query string included), the `username` header and the parsed body. */
  datatype Request = Request(verb: string, url: string, username: Option<string>, body: Body)

  datatype Payload = Error(message: string) | UserPayload(user: UserRecord) | TodosPayload(todos: seq<Todo>)

  /** What a request ends in: a JSON reply; an uncaught exception in a handler
      (Express answers 500); a handler that never answers; or no route at all
      (Express's own "Cannot METHOD path" 404). */
  datatype Outcome = Reply(status: nat, payload: Payload) | Crashed | Pending | Unrouted

  datatype Step = Step(state: State, outcome: Outcome)

  /** The gate's verdict: `Proceed` carries `request.user` as a registry index. */
  datatype Decision = Reject401 | Reject404 | Proceed(user: Option<nat>)

  datatype Route = PostUsers | GetTodos | PostTodos | PutTodo | PatchTodoDone | DeleteTodo

  const ConflictMessage: string := "Username já existente"
  const MissingUserMessage: string := "Usuário inexistente!"

  /** The pattern of the gate's regular expression, in lower case. */
  const TodosSegment: string := "/todos"

  ghost predicate HasUsername(users: seq<UserRecord>, username: Option<string>) {
    exists i :: 0 <= i < |users| && users[i].username == username
  }

  /** `users.find(user => user.username === username)`, as an index: the first
      user, in registry order, whose username is strictly equal to the header;
      an absent header matches a user stored without a username. */
  function FindByUsername(users: seq<UserRecord>, username: Option<string>): (r: Option<nat>)
    ensures r.Some? ==> r.value < |users| && users[r.value].username == username
    ensures r.Some? ==> forall j :: 0 <= j < r.value ==> users[j].username != username
    ensures r.None? <==> !HasUsername(users, username)
  {
    if users == [] then None
    else if users[0].username == username then Some(0)
    else
      match FindByUsername(users[1..], username)
      case None => None
      case Some(k) => Some(k + 1)
  }

  /** `checksExistsUserAccount`: 401 for a POST to exactly "/users" whose header
      names a registered user; 404 for a target mentioning "/todos" in any case
      whose header names nobody; otherwise proceed with the first match. */
  function ChecksExistsUserAccount(users: seq<UserRecord>, username: Option<string>, url: string, verb: string): (d: Decision)
    ensures d == Reject401 <==> verb == "POST" && url == "/users" && HasUsername(users, username)
    ensures d == Reject404 <==> ContainsIgnoringCase(url, TodosSegment) && !HasUsername(users, username)
    ensures d.Proceed? ==> d.user == FindByUsername(users, username)
  {
    var found := FindByUsername(users, username);
    if found.Some? && url == "/users" && verb == "POST" then Reject401
    else if MatchesIgnoringCase(url, TodosSegment) && found.None? then Reject404
    else Proceed(found)
  }

  /** The kinds of pathname the application's route patterns tell apart. */
  datatype PathShape = UsersPath | TodosPath | TodoItemPath | TodoDonePath | OtherPath

  /** A pathname with at most one trailing slash removed, lower-cased: Express
      compiles "/users", "/todos", "/todos/:id" and "/todos/:id/done" to
      case-insensitive, non-strict patterns (`^\/todos\/?$`, ...). */
  function RouteKey(path: string): (q: string)
    ensures q <= Lower(path) && |Lower(path)| <= |q| + 1
  {
    var p := Lower(path);
    if |p| > 1 && p[|p| - 1] == '/' then p[..|p| - 1] else p
  }

  /** A non-empty `:id` parameter: one path segment, no slash. */
  predicate IsSegment(s: string) {
    s != [] && '/' !in s
  }

  function ShapeOf(path: string): PathShape {
    var q := RouteKey(path);
    if q == "/users" then UsersPath
    else if q == TodosSegment then TodosPath
    else if |q| > 7 && q[..7] == "/todos/" then
      var rest := q[7..];
      if IsSegment(rest) then TodoItemPath
      else if |rest| > 5 && rest[|rest| - 5..] == "/done" && IsSegment(rest[..|rest| - 5]) then TodoDonePath
      else OtherPath
    else OtherPath
  }

  /** A non-strict pattern without a trailing slash matches the lower-cased
      pathname itself or that pathname followed by one slash. */
  lemma RouteKeyMatches(path: string, pattern: string)
    requires |pattern| > 1 && pattern[|pattern| - 1] != '/'
    ensures RouteKey(path) == pattern <==> Lower(path) == pattern || Lower(path) == pattern + "/"
  {
    var p := Lower(path);
    if p == pattern + "/" {
      assert p[..|p| - 1] == pattern;
    }
    if |p| > 1 && p[|p| - 1] == '/' && p[..|p| - 1] == pattern {
      assert p == pattern + "/";
    }
  }

  /** The route Express dispatches a request to, if any; a HEAD request is
      served by the GET route for the same path. */
  function RouteOf(verb: string, url: string): (r: Option<Route>)
    ensures r == Some(PostUsers) <==>
      verb == "POST" && (Lower(PathName(url)) == "/users" || Lower(PathName(url)) == "/users/")
    ensures r == Some(GetTodos) <==>
      (verb == "GET" || verb == "HEAD") && (Lower(PathName(url)) == "/todos" || Lower(PathName(url)) == "/todos/")
    ensures r == Some(PostTodos) <==>
      verb == "POST" && (Lower(PathName(url)) == "/todos" || Lower(PathName(url)) == "/todos/")
    ensures r == Some(PutTodo) || r == Some(DeleteTodo) || r == Some(PatchTodoDone) ==>
      |Lower(PathName(url))| > 7 && Lower(PathName(url))[..7] == "/todos/"
  {
    RouteKeyMatches(PathName(url), "/users");
    RouteKeyMatches(PathName(url), "/todos");
    match ShapeOf(PathName(url))
    case UsersPath => if verb == "POST" then Some(PostUsers) else None
    case TodosPath =>
      if verb == "GET" || verb == "HEAD" then Some(GetTodos)
      else if verb == "POST" then Some(PostTodos)
      else None
    case TodoItemPath =>
      if verb == "PUT" then Some(PutTodo)
      else if verb == "DELETE" then Some(DeleteTodo)
      else None
    case TodoDonePath => if verb == "PATCH" then Some(PatchTodoDone) else None
    case OtherPath => None
  }

  /** Every route except `POST /users` lies under "/todos", so the gate's
      regular expression matches every request dispatched to it. */
  lemma TodosRouteMentionsTodos(verb: string, url: string)
    requires RouteOf(verb, url).Some? && RouteOf(verb, url) != Some(PostUsers)
    ensures ContainsIgnoringCase(url, TodosSegment)
  {
    var path := PathName(url);
    var p := Lower(path);
    var q := RouteKey(path);
    assert q <= p;
    assert |q| >= 6 && q[..6] == TodosSegment;
    assert p[..6] == q[..6];
    PrefixOccurrence(path, url, TodosSegment);
  }

  /** The user object built by sign-up: the body's name and username, a new
      id and no todos. */
  function NewUser(s: State, body: Body): (u: UserRecord)
    ensures u.name == body.name && u.username == body.username && u.todos == []
    ensures IdsFresh(s) ==> u.id !in Ids(s.users)
  {
    UserRecord(s.nextId, body.name, body.username, [])
  }

  /** The todo built by the create handler: not done, the body's title and
      deadline, a new id and the request time. */
  function NewTodo(s: State, body: Body, now: int): (t: Todo)
    ensures !t.done && t.title == body.title && t.deadline == DateOf(body.deadline) && t.createdAt == now
    ensures IdsFresh(s) ==> t.id !in Ids(s.users)
  {
    Todo(s.nextId, body.title, false, DateOf(body.deadline), now)
  }

  /** `user.todos.push(todo)` on a registered user. */
  function PushTodo(u: UserRecord, t: Todo): (r: UserRecord)
    ensures r.id == u.id && r.name == u.name && r.username == u.username
    ensures |r.todos| == |u.todos| + 1 && r.todos[..|u.todos|] == u.todos && r.todos[|u.todos|] == t
    ensures UserIds(r) == UserIds(u) + multiset{t.id}
  {
    assert (u.todos + [t])[..|u.todos|] == u.todos;
    u.(todos := u.todos + [t])
  }

  /** The route handlers, given the user the gate resolved. Reading `todos` of
      an absent user throws, which Express turns into a 500. The PUT, PATCH and
      DELETE handlers have empty bodies: they never answer and change nothing. */
  function Handle(route: Route, s: State, user: Option<nat>, req: Request, now: int): (r: Step)
    requires user.Some? ==> user.value < |s.users|
    ensures r.outcome == Crashed <==> (route == GetTodos || route == PostTodos) && user.None?
    ensures r.outcome == Pending <==> route == PutTodo || route == PatchTodoDone || route == DeleteTodo
    ensures r.state != s <==> route == PostUsers || (route == PostTodos && user.Some?)
    ensures r.state != s ==> r.outcome.Reply? && r.outcome.status == 201
    ensures r.state != s ==> r.state.nextId == s.nextId + 1 && |r.state.users| >= |s.users|
  {
    match route
    case PostUsers =>
      var u := NewUser(s, req.body);
      Step(State(s.users + [u], s.nextId + 1), Reply(201, UserPayload(u)))
    case GetTodos =>
      if user.None? then Step(s, Crashed)
      else Step(s, Reply(200, TodosPayload(s.users[user.value].todos)))
    case PostTodos =>
      if user.None? then Step(s, Crashed)
      else
        var k := user.value;
        var u := PushTodo(s.users[k], NewTodo(s, req.body, now));
        Step(State(s.users[k := u], s.nextId + 1), Reply(201, UserPayload(u)))
    case PutTodo => Step(s, Pending)
    case PatchTodoDone => Step(s, Pending)
    case DeleteTodo => Step(s, Pending)
  }

  /** A routed request: the gate, then the handler. A route other than
      `POST /users` only ever carries a target that mentions "/todos". */
  function Respond(s: State, route: Route, req: Request, now: int): (r: Step)
    requires route != PostUsers ==> ContainsIgnoringCase(req.url, TodosSegment)
    ensures r.outcome != Crashed
    ensures r.state != s ==> r.outcome.Reply? && r.outcome.status == 201
  {
    match ChecksExistsUserAccount(s.users, req.username, req.url, req.verb)
    case Reject401 => Step(s, Reply(401, Error(ConflictMessage)))
    case Reject404 => Step(s, Reply(404, Error(MissingUserMessage)))
    case Proceed(user) => Handle(route, s, user, req, now)
  }

  /** One request against the service: routing, then the gate, then the
      handler. No request reaches a handler that dereferences an absent
      user, and only a 201 reply changes the state. */
  function Serve(s: State, req: Request, now: int): (r: Step)
    ensures r.outcome != Crashed
    ensures r.state != s ==> r.outcome.Reply? && r.outcome.status == 201
  {
    match RouteOf(req.verb, req.url)
    case None => Step(s, Unrouted)
    case Some(route) =>
      if route == PostUsers then Respond(s, route, req, now)
      else
        TodosRouteMentionsTodos(req.verb, req.url);
        Respond(s, route, req, now)
  }

  function TodoIds(todos: seq<Todo>): multiset<Id> {
    if todos == [] then multiset{}
    else TodoIds(todos[..|todos| - 1]) + multiset{todos[|todos| - 1].id}
  }

  function UserIds(u: UserRecord): multiset<Id> {
    multiset{u.id} + TodoIds(u.todos)
  }

  /** Every id held anywhere in the registry, with multiplicity. */
  function Ids(users: seq<UserRecord>): multiset<Id> {
    if users == [] then multiset{}
    else Ids(users[..|users| - 1]) + UserIds(users[|users| - 1])
  }

  /** Ids are unique across users and todos, and all were handed out already. */
  ghost predicate IdsFresh(s: State) {
    forall x | x in Ids(s.users) :: x < s.nextId && Ids(s.users)[x] == 1
  }
}

/** What the service guarantees, and what it does not, stated over `Serve`. */
module Properties {
  import opened Wrappers
  import opened Text
  import opened Model

  function Post(url: string, username: Option<string>, body: Body): Request {
    Request("POST", url, username, body)
  }

  function Get(url: string, username: Option<string>): Request {
    Request("GET", url, username, Body(None, None, None, None))
  }

  /** "/users" reaches the sign-up handler and does not mention "/todos". */
  lemma UsersRoute()
    ensures RouteOf("POST", "/users") == Some(PostUsers)
    ensures !ContainsIgnoringCase("/users", TodosSegment)
  {
    assert PathName("/users") == "/users";
    NoOccurrenceWithoutLetter("/users", TodosSegment, 1);
  }

  /** Express also routes "/users/" to the sign-up handler. */
  lemma UsersSlashRoute()
    ensures RouteOf("POST", "/users/") == Some(PostUsers)
  {
    assert PathName("/users/") == "/users/";
    assert RouteKey("/users/") == "/users";
  }

  /** A routed request is answered by `Respond` on its route. */
  lemma ServeRouted(s: State, req: Request, now: int, route: Route)
    requires RouteOf(req.verb, req.url) == Some(route)
    ensures route != PostUsers ==> ContainsIgnoringCase(req.url, TodosSegment)
    ensures Serve(s, req, now) == Respond(s, route, req, now)
  {
    if route != PostUsers {
      TodosRouteMentionsTodos(req.verb, req.url);
    }
  }

  /** The handlers never answer 401 or 404, so those replies are exactly the
      gate's rejections, which change nothing. */
  lemma RespondVerdicts(s: State, route: Route, req: Request, now: int)
    requires route != PostUsers ==> ContainsIgnoringCase(req.url, TodosSegment)
    ensures var d := ChecksExistsUserAccount(s.users, req.username, req.url, req.verb);
      var r := Respond(s, route, req, now);
      (r.outcome == Reply(401, Error(ConflictMessage)) <==> d == Reject401) &&
      (r.outcome == Reply(404, Error(MissingUserMessage)) <==> d == Reject404) &&
      (!d.Proceed? ==> r.state == s)
  {
  }

  /** A 401 happens exactly for a POST to the literal target "/users" whose
      header names an already registered user; nothing changes then. */
  lemma ConflictExactly(s: State, req: Request, now: int)
    ensures Serve(s, req, now).outcome == Reply(401, Error(ConflictMessage)) <==>
      req.verb == "POST" && req.url == "/users" && HasUsername(s.users, req.username)
    ensures Serve(s, req, now).outcome == Reply(401, Error(ConflictMessage)) ==> Serve(s, req, now).state == s
  {
    if req.verb == "POST" && req.url == "/users" {
      UsersRoute();
    }
    var route := RouteOf(req.verb, req.url);
    if route.Some? {
      ServeRouted(s, req, now, route.value);
      RespondVerdicts(s, route.value, req, now);
    }
  }

  /** A 404 from the service itself happens exactly for a routed request
      whose target mentions "/todos" in any letter case (query string
      included) and whose header names nobody; nothing changes then. */
  lemma MissingUserExactly(s: State, req: Request, now: int)
    ensures Serve(s, req, now).outcome == Reply(404, Error(MissingUserMessage)) <==>
      RouteOf(req.verb, req.url).Some? && ContainsIgnoringCase(req.url, TodosSegment) && !HasUsername(s.users, req.username)
    ensures Serve(s, req, now).outcome == Reply(404, Error(MissingUserMessage)) ==> Serve(s, req, now).state == s
  {
    var route := RouteOf(req.verb, req.url);
    if route.Some? {
      ServeRouted(s, req, now, route.value);
      RespondVerdicts(s, route.value, req, now);
    }
  }

  /** `POST /users` past the gate appends exactly one record: the body's name
      and username, a fresh id, no todos; earlier users keep their places. */
  lemma CreateUserAppends(s: State, req: Request, now: int)
    requires IdsFresh(s)
    requires RouteOf(req.verb, req.url) == Some(PostUsers)
    requires ChecksExistsUserAccount(s.users, req.username, req.url, req.verb).Proceed?
    ensures var r := Serve(s, req, now);
      |r.state.users| == |s.users| + 1 &&
      r.state.users[..|s.users|] == s.users &&
      r.state.users[|s.users|] == UserRecord(s.nextId, req.body.name, req.body.username, []) &&
      s.nextId !in Ids(s.users) &&
      r.outcome == Reply(201, UserPayload(r.state.users[|s.users|]))
  {
    ServeRouted(s, req, now, PostUsers);
    assert (s.users + [NewUser(s, req.body)])[..|s.users|] == s.users;
  }

  /** `POST /todos` by the user at index `k` (the first one carrying the header
      username) appends one todo with the body's title, `done == false`, a
      fresh id and the request time; every other user, the earlier todos and
      the registry order are untouched. */
  lemma CreateTodoAppends(s: State, req: Request, now: int, k: nat)
    requires IdsFresh(s)
    requires RouteOf(req.verb, req.url) == Some(PostTodos)
    requires FindByUsername(s.users, req.username) == Some(k)
    ensures var r := Serve(s, req, now);
      var t := Todo(s.nextId, req.body.title, false, DateOf(req.body.deadline), now);
      |r.state.users| == |s.users| &&
      r.state.users[k] == s.users[k].(todos := s.users[k].todos + [t]) &&
      (forall i :: 0 <= i < |s.users| && i != k ==> r.state.users[i] == s.users[i]) &&
      t.id !in Ids(s.users) &&
      r.outcome == Reply(201, UserPayload(r.state.users[k]))
  {
    ServeRouted(s, req, now, PostTodos);
    RespondCreateTodo(s, req, now, k);
  }

  /** The gate and the create handler, past routing. */
  lemma RespondCreateTodo(s: State, req: Request, now: int, k: nat)
    requires IdsFresh(s)
    requires ContainsIgnoringCase(req.url, TodosSegment)
    requires FindByUsername(s.users, req.username) == Some(k)
    ensures var r := Respond(s, PostTodos, req, now);
      var t := Todo(s.nextId, req.body.title, false, DateOf(req.body.deadline), now);
      |r.state.users| == |s.users| &&
      r.state.users[k] == s.users[k].(todos := s.users[k].todos + [t]) &&
      (forall i :: 0 <= i < |s.users| && i != k ==> r.state.users[i] == s.users[i]) &&
      t.id !in Ids(s.users) &&
      r.outcome == Reply(201, UserPayload(r.state.users[k]))
  {
    if req.url == "/users" {
      UsersRoute();
    }
    assert ChecksExistsUserAccount(s.users, req.username, req.url, req.verb) == Proceed(Some(k));
  }

  /** `GET /todos` returns exactly the resolved user's todos and changes nothing. */
  lemma ListTodosReturnsOwnList(s: State, req: Request, now: int, k: nat)
    requires RouteOf(req.verb, req.url) == Some(GetTodos)
    requires FindByUsername(s.users, req.username) == Some(k)
    ensures Serve(s, req, now) == Step(s, Reply(200, TodosPayload(s.users[k].todos)))
  {
    ServeRouted(s, req, now, GetTodos);
    assert ChecksExistsUserAccount(s.users, req.username, req.url, req.verb) == Proceed(Some(k));
  }

  /** A request to a todo route that passes the gate has a resolved user: the
      404 branch catches every header that names nobody. */
  lemma TodoRoutesHaveUser(s: State, req: Request)
    requires RouteOf(req.verb, req.url).Some? && RouteOf(req.verb, req.url) != Some(PostUsers)
    requires ChecksExistsUserAccount(s.users, req.username, req.url, req.verb).Proceed?
    ensures ChecksExistsUserAccount(s.users, req.username, req.url, req.verb).user.Some?
  {
    TodosRouteMentionsTodos(req.verb, req.url);
  }

  /** The registry only grows: no user is removed, reordered or renamed, and
      each user's todos only gain entries at the end. */
  lemma RegistryOnlyGrows(s: State, req: Request, now: int)
    ensures var r := Serve(s, req, now);
      |r.state.users| >= |s.users| &&
      forall i :: 0 <= i < |s.users| ==>
        r.state.users[i].id == s.users[i].id &&
        r.state.users[i].name == s.users[i].name &&
        r.state.users[i].username == s.users[i].username &&
        s.users[i].todos <= r.state.users[i].todos
  {
    var route := RouteOf(req.verb, req.url);
    if route.Some? {
      ServeRouted(s, req, now, route.value);
    }
  }

  lemma {:induction false} TodoIdsAppend(todos: seq<Todo>, t: Todo)
    ensures TodoIds(todos + [t]) == TodoIds(todos) + multiset{t.id}
  {
    assert (todos + [t])[..|todos|] == todos;
  }

  lemma {:induction false} IdsAppend(users: seq<UserRecord>, u: UserRecord)
    ensures Ids(users + [u]) == Ids(users) + UserIds(u)
  {
    assert (users + [u])[..|users|] == users;
  }

  /** Replacing one user changes the id multiset by exactly that user's ids. */
  lemma {:induction false} IdsUpdate(users: seq<UserRecord>, k: nat, u: UserRecord)
    requires k < |users|
    ensures Ids(users[k := u]) + UserIds(users[k]) == Ids(users) + UserIds(u)
    decreases |users|
  {
    var n := |users| - 1;
    if k == n {
      IdsUpdateLast(users, u);
    } else {
      IdsUpdate(users[..n], k, u);
      IdsUpdateEarlier(users, k, u);
    }
  }

  lemma IdsUpdateLast(users: seq<UserRecord>, u: UserRecord)
    requires |users| > 0
    ensures Ids(users[|users| - 1 := u]) + UserIds(users[|users| - 1]) == Ids(users) + UserIds(u)
  {
    var n := |users| - 1;
    assert users[n := u][..n] == users[..n];
  }

  lemma IdsUpdateEarlier(users: seq<UserRecord>, k: nat, u: UserRecord)
    requires k < |users| - 1
    requires Ids(users[..|users| - 1][k := u]) + UserIds(users[k]) == Ids(users[..|users| - 1]) + UserIds(u)
    ensures Ids(users[k := u]) + UserIds(users[k]) == Ids(users) + UserIds(u)
  {
    var n := |users| - 1;
    var front := users[..n];
    assert users[k := u][..n] == front[k := u];
    assert Ids(users[k := u]) == Ids(front[k := u]) + UserIds(users[n]);
    assert Ids(users) == Ids(front) + UserIds(users[n]);
    Rearrange(Ids(front[k := u]), Ids(front), UserIds(users[k]), UserIds(users[n]), UserIds(u));
  }

  lemma Rearrange(a': multiset<Id>, a: multiset<Id>, x: multiset<Id>, y: multiset<Id>, z: multiset<Id>)
    requires a' + x == a + z
    ensures a' + y + x == a + y + z
  {
    forall e ensures (a' + y + x)[e] == (a + y + z)[e] {
      assert (a' + x)[e] == (a + z)[e];
    }
  }

  /** Adding the counter's current value as the one new id keeps ids fresh. */
  lemma AddingNextIdKeepsFresh(s: State, t: State)
    requires IdsFresh(s)
    requires Ids(t.users) == Ids(s.users) + multiset{s.nextId}
    requires t.nextId == s.nextId + 1
    ensures IdsFresh(t)
  {
    assert s.nextId !in Ids(s.users);
  }

  lemma AddUserKeepsFresh(s: State, body: Body)
    requires IdsFresh(s)
    ensures IdsFresh(State(s.users + [NewUser(s, body)], s.nextId + 1))
  {
    IdsAppend(s.users, NewUser(s, body));
    assert UserIds(NewUser(s, body)) == multiset{s.nextId};
    AddingNextIdKeepsFresh(s, State(s.users + [NewUser(s, body)], s.nextId + 1));
  }

  lemma AddTodoKeepsFresh(s: State, k: nat, body: Body, now: int)
    requires IdsFresh(s) && k < |s.users|
    ensures IdsFresh(State(s.users[k := PushTodo(s.users[k], NewTodo(s, body, now))], s.nextId + 1))
  {
    var t := NewTodo(s, body, now);
    var u := PushTodo(s.users[k], t);
    TodoIdsAppend(s.users[k].todos, t);
    assert UserIds(u) == UserIds(s.users[k]) + multiset{s.nextId};
    IdsUpdate(s.users, k, u);
    Cancel(Ids(s.users[k := u]), Ids(s.users), UserIds(s.users[k]), multiset{s.nextId});
    AddingNextIdKeepsFresh(s, State(s.users[k := u], s.nextId + 1));
  }

  lemma Cancel(a: multiset<Id>, b: multiset<Id>, x: multiset<Id>, y: multiset<Id>)
    requires a + x == b + (x + y)
    ensures a == b + y
  {
    forall e ensures a[e] == (b + y)[e] {
      assert (a + x)[e] == (b + (x + y))[e];
    }
  }

  /** Ids stay unique and below the counter across every request. */
  lemma {:induction false} ServeKeepsIdsFresh(s: State, req: Request, now: int)
    requires IdsFresh(s)
    ensures IdsFresh(Serve(s, req, now).state)
  {
    var route := RouteOf(req.verb, req.url);
    if route.Some? {
      ServeRouted(s, req, now, route.value);
      RespondKeepsIdsFresh(s, route.value, req, now);
    }
  }

  lemma {:induction false} RespondKeepsIdsFresh(s: State, route: Route, req: Request, now: int)
    requires IdsFresh(s)
    requires route != PostUsers ==> ContainsIgnoringCase(req.url, TodosSegment)
    ensures IdsFresh(Respond(s, route, req, now).state)
  {
    var d := ChecksExistsUserAccount(s.users, req.username, req.url, req.verb);
    if d.Proceed? {
      if route == PostUsers {
        AddUserKeepsFresh(s, req.body);
      } else if route == PostTodos {
        AddTodoKeepsFresh(s, d.user.value, req.body, now);
      }
    }
  }

  /** Only usernames decide the gate's lookup, so a request that keeps them
      resolves to the same user. */
  lemma {:induction false} FindByUsernameSameNames(a: seq<UserRecord>, b: seq<UserRecord>, username: Option<string>)
    requires |a| == |b|
    requires forall i :: 0 <= i < |a| ==> a[i].username == b[i].username
    ensures FindByUsername(a, username) == FindByUsername(b, username)
  {
    var fa, fb := FindByUsername(a, username), FindByUsername(b, username);
    if fa.Some? {
      assert b[fa.value].username == username;
    }
  }

  /** Creating a todo and then listing under the same header returns the
      earlier todos followed by the new one, `done == false`. */
  lemma CreateThenList(s: State, h: Option<string>, body: Body, now: int, later: int, k: nat)
    requires IdsFresh(s)
    requires FindByUsername(s.users, h) == Some(k)
    ensures var s1 := Serve(s, Post("/todos", h, body), now).state;
      Serve(s1, Get("/todos", h), later).outcome ==
        Reply(200, TodosPayload(s.users[k].todos + [Todo(s.nextId, body.title, false, DateOf(body.deadline), now)]))
  {
    TodosRoutes();
    var s1 := Serve(s, Post("/todos", h, body), now).state;
    CreateTodoAppends(s, Post("/todos", h, body), now, k);
    assert forall i :: 0 <= i < |s.users| ==> s.users[i].username == s1.users[i].username;
    FindByUsernameSameNames(s.users, s1.users, h);
    ListTodosReturnsOwnList(s1, Get("/todos", h), later, k);
  }

  lemma TodosRoutes()
    ensures RouteOf("POST", "/todos") == Some(PostTodos)
    ensures RouteOf("GET", "/todos") == Some(GetTodos)
  {
    assert PathName("/todos") == "/todos";
    assert RouteKey("/todos") == "/todos";
    assert ShapeOf("/todos") == TodosPath;
  }

  /** The duplicate check reads the header, not the body: a sign-up without a
      header succeeds even when the body's username is taken, as long as no
      user was stored without a username. */
  lemma HeaderlessSignupIgnoresTakenName(s: State, body: Body, now: int)
    requires !HasUsername(s.users, None)
    ensures Serve(s, Post("/users", None, body), now) ==
      Step(State(s.users + [NewUser(s, body)], s.nextId + 1), Reply(201, UserPayload(NewUser(s, body))))
  {
    UsersRoute();
    ServeRouted(s, Post("/users", None, body), now, PostUsers);
  }

  /** So usernames are not unique: two identical headerless sign-ups both get
      201, the second while the username is already registered, and the
      registry ends with two users of that username. */
  lemma DuplicateUsernamesReachable(s: State, body: Body, now: int, later: int)
    requires !HasUsername(s.users, None) && body.username.Some?
    ensures var r1 := Serve(s, Post("/users", None, body), now);
      var r2 := Serve(r1.state, Post("/users", None, body), later);
      r1.outcome.Reply? && r1.outcome.status == 201 &&
      HasUsername(r1.state.users, body.username) &&
      r2.outcome.Reply? && r2.outcome.status == 201 &&
      |r2.state.users| == |s.users| + 2 &&
      r2.state.users[|s.users|].username == r2.state.users[|s.users| + 1].username == body.username
  {
    HeaderlessSignupIgnoresTakenName(s, body, now);
    var s1 := State(s.users + [NewUser(s, body)], s.nextId + 1);
    assert s1.users[|s.users|].username == body.username;
    assert !HasUsername(s1.users, None) by {
      forall i | 0 <= i < |s1.users|
        ensures s1.users[i].username != None
      {
        if i < |s.users| {
          assert s1.users[i] == s.users[i];
        }
      }
    }
    HeaderlessSignupIgnoresTakenName(s1, body, later);
  }

  /** An absent header is strictly equal to an absent stored username: once a
      user signed up without a username, every headerless sign-up is refused
      with 401. */
  lemma HeaderlessSignupAfterNamelessUser(s: State, first: Body, second: Body, now: int, later: int)
    requires !HasUsername(s.users, None) && first.username == None
    ensures var r1 := Serve(s, Post("/users", None, first), now);
      r1.outcome.Reply? && r1.outcome.status == 201 &&
      Serve(r1.state, Post("/users", None, second), later) == Step(r1.state, Reply(401, Error(ConflictMessage)))
  {
    HeaderlessSignupIgnoresTakenName(s, first, now);
    var s1 := State(s.users + [NewUser(s, first)], s.nextId + 1);
    assert s1.users[|s.users|].username == None;
    ConflictExactly(s1, Post("/users", None, second), later);
  }

  /** The conflict check compares the target with "/users" literally, while
      Express routes other spellings ("/users/", "/Users", "/users?x") to the
      same sign-up handler: there a taken header username gets through. */
  lemma OtherSignupTargetsSkipConflict(s: State, url: string, h: string, body: Body, now: int)
    requires RouteOf("POST", url) == Some(PostUsers) && url != "/users"
    requires HasUsername(s.users, Some(h))
    ensures Serve(s, Post(url, Some(h), body), now) == Step(State(s.users + [NewUser(s, body)], s.nextId + 1), Reply(201, UserPayload(NewUser(s, body))))
  {
  }

  /** In particular a trailing slash gets a taken header username through. */
  lemma TrailingSlashSkipsConflict(s: State, h: string, body: Body, now: int)
    requires HasUsername(s.users, Some(h))
    ensures Serve(s, Post("/users/", Some(h), body), now).outcome == Reply(201, UserPayload(NewUser(s, body)))
  {
    UsersSlashRoute();
    OtherSignupTargetsSkipConflict(s, "/users/", h, body, now);
  }

  /** The 404 test scans the whole target, query string included: a sign-up
      whose query mentions "/todos" in any case is refused unless the header
      names a user. */
  lemma TodosInQueryBlocksSignup(s: State, query: string, h: Option<string>, body: Body, now: int)
    requires ContainsIgnoringCase(query, TodosSegment)
    requires !HasUsername(s.users, h)
    ensures Serve(s, Post("/users?" + query, h, body), now) == Step(s, Reply(404, Error(MissingUserMessage)))
  {
    var req := Post("/users?" + query, h, body);
    PathNameBeforeQuery("/users", query);
    assert "/users" + "?" + query == req.url;
    assert RouteKey("/users") == "/users";
    OccurrenceInSuffix("/users?", query, TodosSegment);
    ServeRouted(s, req, now, PostUsers);
    RespondVerdicts(s, PostUsers, req, now);
  }
}

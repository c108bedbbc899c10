/** The running service of src/index.js: the module-level `users` array of
    user objects, which the handlers update in place. Every method is proved
    against the value-level specification in module Model. */
module Server {
  import opened Wrappers
  import opened Text
  import opened Model
  import Properties

  /** A user object. Its identity fields never change; `todos` is the array the
      create-todo handler pushes onto. */
  class User {
    const id: Id
    const name: Option<string>
    const username: Option<string>
    var todos: seq<Todo>

    constructor (id: Id, name: Option<string>, username: Option<string>)
      ensures Record() == UserRecord(id, name, username, [])
    {
      this.id := id;
      this.name := name;
      this.username := username;
      todos := [];
    }

    /** The user as the JSON body of a reply shows it. */
    function Record(): UserRecord
      reads this
    {
      UserRecord(id, name, username, todos)
    }
  }

  /** The records of a sequence of user objects, in order. */
  ghost function Records(us: seq<User>): (rs: seq<UserRecord>)
    reads us
    ensures |rs| == |us|
  {
    if us == [] then [] else Records(us[..|us| - 1]) + [us[|us| - 1].Record()]
  }

  lemma {:induction false} RecordsAt(us: seq<User>, i: nat)
    requires i < |us|
    ensures Records(us)[i] == us[i].Record()
    decreases |us|
  {
    if i < |us| - 1 {
      RecordsAt(us[..|us| - 1], i);
    }
  }

  class App {
    /** `const users = []`: registered users in registration order. */
    var users: seq<User>
    /** Source of fresh ids, standing in for `uuidv4()`. */
    var nextId: Id

    ghost function Snapshot(): State
      reads this, users
    {
      State(Records(users), nextId)
    }

    /** Each user object is registered once, and ids are unique and fresh. */
    ghost predicate Valid()
      reads this, users
    {
      (forall i, j :: 0 <= i < j < |users| ==> users[i] != users[j]) &&
      IdsFresh(Snapshot())
    }

    constructor ()
      ensures Valid()
      ensures Snapshot() == State([], 0)
    {
      users := [];
      nextId := 0;
    }

    /** `users.find(user => user.username === username)`, as the position of
        the user found. */
    method Find(username: Option<string>) returns (found: Option<nat>)
      ensures found == FindByUsername(Records(users), username)
    {
      var i := 0;
      while i < |users|
        invariant 0 <= i <= |users|
        invariant forall j :: 0 <= j < i ==> users[j].username != username
      {
        if users[i].username == username {
          found := Some(i);
          forall j | 0 <= j <= i
            ensures Records(users)[j].username == users[j].username
          {
            RecordsAt(users, j);
          }
          return;
        }
        i := i + 1;
      }
      found := None;
      forall j | 0 <= j < |users|
        ensures Records(users)[j].username == users[j].username
      {
        RecordsAt(users, j);
      }
    }

    /** `users.indexOf(user)`: the first position holding this very object, or
        -1 when it is not registered. */
    method IndexOf(user: User) returns (k: int)
      ensures -1 <= k < |users|
      ensures k == -1 <==> user !in users
      ensures 0 <= k ==> users[k] == user && forall j :: 0 <= j < k ==> users[j] != user
    {
      k := 0;
      while k < |users|
        invariant 0 <= k <= |users|
        invariant user !in users[..k]
      {
        if users[k] == user {
          return;
        }
        k := k + 1;
      }
      assert users[..k] == users;
      k := -1;
    }

    /** The gate `checksExistsUserAccount` run against the live registry. */
    method ChecksExistsUserAccount(username: Option<string>, url: string, verb: string) returns (d: Decision)
      ensures d == Model.ChecksExistsUserAccount(Records(users), username, url, verb)
    {
      var found := Find(username);
      if found.Some? && url == "/users" && verb == "POST" {
        d := Reject401;
      } else if MatchesIgnoringCase(url, TodosSegment) && found.None? {
        d := Reject404;
      } else {
        d := Proceed(found);
      }
    }

    /** The `POST /users` handler: push a new user object with the body's name
        and username, a fresh id and no todos. */
    method CreateUser(body: Body) returns (user: User)
      requires Valid()
      modifies this
      ensures Valid()
      ensures fresh(user)
      ensures users == old(users) + [user]
      ensures Snapshot() == State(old(Snapshot()).users + [NewUser(old(Snapshot()), body)], old(nextId) + 1)
    {
      ghost var before := Snapshot();
      user := new User(nextId, body.name, body.username);
      nextId := nextId + 1;
      users := users + [user];
      assert Snapshot() == State(before.users + [NewUser(before, body)], before.nextId + 1) by {
        assert Records(old(users)) == before.users;
        assert users[..|users| - 1] == old(users);
      }
      assert IdsFresh(Snapshot()) by {
        Properties.AddUserKeepsFresh(before, body);
      }
    }

    /** The `GET /todos` handler: the resolved user's list, unchanged. */
    method ListTodos(user: User) returns (todos: seq<Todo>)
      requires user in users
      ensures forall k :: 0 <= k < |users| && users[k] == user ==> todos == Records(users)[k].todos
    {
      todos := user.todos;
      forall k | 0 <= k < |users| && users[k] == user
        ensures todos == Records(users)[k].todos
      {
        RecordsAt(users, k);
      }
    }

    /** The `POST /todos` handler: push a todo with the body's title and
        deadline, `done == false`, a fresh id and the request time onto the
        resolved user object, then write that object back to its own slot. */
    method CreateTodo(user: User, body: Body, now: int)
      requires Valid() && user in users
      modifies this, user
      ensures Valid()
      ensures users == old(users)
      ensures forall k :: 0 <= k < |users| && users[k] == user ==>
        Snapshot() == State(old(Snapshot()).users[k := PushTodo(old(Snapshot()).users[k], NewTodo(old(Snapshot()), body, now))], old(nextId) + 1)
    {
      ghost var before := Snapshot();
      ghost var k0 :| 0 <= k0 < |users| && users[k0] == user;
      // The same todo as `NewTodo(before, body, now)`, built from the live
      // counter: `NewTodo` takes the ghost snapshot, which real code cannot.
      var todo := Todo(nextId, body.title, false, DateOf(body.deadline), now);
      ghost var pushed := PushTodo(before.users[k0], todo);
      ghost var after := before.users[k0 := pushed];
      forall i | 0 <= i < |users|
        ensures before.users[i] == users[i].Record()
      {
        RecordsAt(users, i);
      }
      nextId := nextId + 1;
      user.todos := user.todos + [todo];
      var k := IndexOf(user);
      users := users[k := user];
      assert Snapshot() == State(after, before.nextId + 1) by {
        assert users == old(users);
        forall i | 0 <= i < |users|
          ensures Records(users)[i] == after[i]
        {
          RecordsAt(users, i);
          if i != k0 {
            assert users[i] != user;
            assert users[i].Record() == old(users[i].Record());
          } else {
            assert user.Record() == pushed;
          }
        }
      }
      assert IdsFresh(Snapshot()) by {
        Properties.AddTodoKeepsFresh(before, k0, body, now);
      }
      assert forall k :: 0 <= k < |users| && users[k] == user ==> k == k0;
    }

    /** The route handlers, given the position of the user the gate resolved;
        mirrors `Model.Handle`. Every route but `POST /users` has a resolved
        user by then, so the handlers read `user.todos` safely. */
    method Dispatch(route: Route, found: Option<nat>, req: Request, now: int) returns (out: Outcome)
      requires Valid()
      requires found.Some? ==> found.value < |users|
      requires route != PostUsers ==> found.Some?
      modifies this, users
      ensures Valid()
      ensures Step(Snapshot(), out) == Model.Handle(route, old(Snapshot()), found, req, now)
    {
      if route == PostUsers {
        var user := CreateUser(req.body);
        out := Reply(201, UserPayload(user.Record()));
        RecordsAt(users, |users| - 1);
        return;
      }
      var user := users[found.value];
      match route {
        case GetTodos =>
          var todos := ListTodos(user);
          out := Reply(200, TodosPayload(todos));
        case PostTodos =>
          CreateTodo(user, req.body, now);
          out := Reply(201, UserPayload(user.Record()));
          RecordsAt(users, found.value);
        case PutTodo =>
          out := Pending;
        case PatchTodoDone =>
          out := Pending;
        case DeleteTodo =>
          out := Pending;
      }
    }

    /** One request: routing, the gate, then the handler. The registry and the
        reply are exactly those of `Serve`. */
    method Handle(req: Request, now: int) returns (out: Outcome)
      requires Valid()
      modifies this, users
      ensures Valid()
      ensures Step(Snapshot(), out) == Serve(old(Snapshot()), req, now)
    {
      var route := RouteOf(req.verb, req.url);
      if route.None? {
        return Unrouted;
      }
      Properties.ServeRouted(Snapshot(), req, now, route.value);
      var d := ChecksExistsUserAccount(req.username, req.url, req.verb);
      match d {
        case Reject401 =>
          out := Reply(401, Error(ConflictMessage));
        case Reject404 =>
          out := Reply(404, Error(MissingUserMessage));
        case Proceed(found) =>
          out := Dispatch(route.value, found, req, now);
      }
    }
  }
}

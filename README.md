# A verified model of the todo-list service in `src/index.js`

The service keeps a module-level array `users`. Each user record has an `id`,
a `name`, a `username` and an ordered `todos` list. A gate,
`checksExistsUserAccount`, runs before each route. It looks up the acting
user by the `username` request header. It answers 401 to a `POST /users` whose
header names a registered user. It answers 404 to a request whose target
mentions `/todos` when the header names nobody. Otherwise it hands the first
matching user, or none, to the handler. Three handlers have behaviour:

- `POST /users` pushes a new user with the body's `name` and `username`.
- `GET /todos` returns the resolved user's `todos`.
- `POST /todos` pushes a `done: false` todo onto the resolved user's list.

The `PUT`, `PATCH` and `DELETE` handlers are empty, so they never answer.

The project has five files:

- `wrappers.dfy` defines `Option`. An absent header or body field (`undefined`) is `None`.
- `text.dfy` defines the case-insensitive search done by the regular expression
  `/\/todos/gi`. It also defines the pathname that Express routes on: the target
  up to its first `?` or `#`.
- `model.dfy` is the value-level specification:
  - the data;
  - `FindByUsername`, which models `users.find`;
  - the gate, `ChecksExistsUserAccount`;
  - `RouteOf`, the route Express picks. Patterns are case-insensitive, allow one
    trailing slash, and let a GET route also serve HEAD;
  - the handlers;
  - `Serve`, one whole request as a step from state to state plus an outcome.
- `properties.dfy` holds lemmas about `Serve`:
  - exactly when the gate answers 401 or 404;
  - what each handler appends;
  - that the registry only grows;
  - that ids stay unique;
  - traces that show quirks of the code.
- `server.dfy` is the imperative service. Class `App` holds the `users` sequence
  of `User` objects. The todo handler pushes onto the user object that is
  stored in the registry. It then writes that object back to its own slot
  through `users.indexOf` (line 66), and that write is proved to change
  nothing. `App.Handle` is proved to produce exactly the state and outcome of
  `Serve`.

Ids come from `uuidv4()` in the source. Here they come from a counter shared
by users and todos. The invariant `IdsFresh` says that every id in the
registry occurs once and is below the counter. Every request preserves it.

The description of this service says usernames are unique, says an absent
header matches nobody, and describes working update, mark-done and delete
routes. The code differs on each point, and the model follows the code:

- The duplicate check compares the header, while the stored username comes
  from the body. `DuplicateUsernamesReachable` builds a registry that holds
  the same username twice.
- `===` on two absent values is true. An absent header therefore resolves to a
  user stored without a username (`HeaderlessSignupAfterNamelessUser`).
- The three routes are empty stubs, modelled as `Pending`.
- The 404 test matches `/todos` anywhere in the target, in any letter case,
  query string included (`TodosInQueryBlocksSignup`).
- The 401 test compares the whole target with `"/users"`. So `"/users/"`, which
  Express routes to the same handler, skips it (`TrailingSlashSkipsConflict`).

## Model

| member | source | states |
|---|---|---|
| Model.FindByUsername | src/index.js:17 | the result is the first index, in registry order, whose username is strictly equal to the header (absent equals absent); it is None exactly when no user has that username |
| Model.ChecksExistsUserAccount | src/index.js:13-31 | 401 exactly when the method is POST, the target is literally "/users" and some user has the header username; 404 exactly when the target contains "/todos" ignoring case and no user has it; otherwise proceed with the first matching user or none |
| Text.MatchesIgnoringCase | src/index.js:19-25 | `url.match(/\/todos/gi)?.length > 0` is true exactly when the pattern occurs at some position of the target, ignoring case |
| Text.SearchFrom | src/index.js:25 | the left-to-right scan finds a match exactly when one exists at or after its start position |
| Text.PathName | src/index.js:33-80 | the part of the target the routes are matched against is a prefix of the target without `?` or `#`, and it ends exactly at the first `?` or `#` |
| Model.RouteOf | src/index.js:33-80 | the sign-up route is taken exactly by POST when the lower-cased pathname is "/users" or "/users/"; the list route exactly by GET or HEAD, and the create-todo route exactly by POST, when it is "/todos" or "/todos/"; the PUT, DELETE and PATCH routes only by pathnames under "/todos/" |
| Model.TodosRouteMentionsTodos | src/index.js:48-80 | every registered route except `POST /users` (GET and POST /todos, PUT and DELETE /todos/:id, PATCH /todos/:id/done, as Express matches them) is reached only by targets containing "/todos" |
| Model.NewUser | src/index.js:36-41 | the new user carries the body's name and username and no todos, and its id is held by nobody in a registry whose ids are fresh |
| Model.NewTodo | src/index.js:57-63 | the new todo is not done, carries the body's title, the deadline built from the body and the request time, and its id is held by nobody in a registry whose ids are fresh |
| Model.PushTodo | src/index.js:65 | the user keeps its id, name and username; its earlier todos stay in place and the new todo comes last; its ids gain exactly the new todo's id |
| Model.Handle | src/index.js:33-80 | a handler fails on an absent user exactly for the list and create-todo routes; it never answers exactly on the three empty routes; it changes the state exactly for sign-up and for a todo created by a resolved user, and then replies 201 and draws exactly one new id |
| Model.Respond | src/index.js:21-30 | a routed request never ends in the exception from reading `todos` of an absent user, and changes the state only with a 201 reply |
| Model.Serve | src/index.js:21-68 | no request ends in a crash, and only a 201 reply changes the registry |
| Properties.ConflictExactly | src/index.js:17-23 | a request gets 401 exactly when it is a POST to the literal target "/users" whose header names a registered user, and the registry is then unchanged |
| Properties.MissingUserExactly | src/index.js:19-27 | a request gets the gate's 404 exactly when it is routed, its target mentions "/todos" in any case and no user has its header username, and the registry is then unchanged |
| Properties.RespondVerdicts | src/index.js:21-27 | 401 and 404 replies come only from the gate's rejections, which leave the state as it was |
| Properties.TodoRoutesHaveUser | src/index.js:25-30 | a request on a todo route that passes the gate always has a resolved user |
| Properties.CreateUserAppends | src/index.js:33-46 | sign-up adds exactly one user at the end with the body's name and username, a fresh id and no todos; earlier users are unchanged and in the same order; the reply is 201 with that user |
| Properties.CreateTodoAppends | src/index.js:53-68 | creating a todo appends one todo with the body's title and deadline, done false, a fresh id and the request time to the first user with the header username; other users, earlier todos and registry order are unchanged; the reply is 201 with the updated user |
| Properties.ListTodosReturnsOwnList | src/index.js:48-51 | listing returns exactly the resolved user's todos with status 200 and changes nothing |
| Properties.CreateThenList | src/__tests__/todos.spec.js:7-33 | after creating a todo under a header, listing under that header returns the earlier todos followed by the new one |
| Properties.RegistryOnlyGrows | src/index.js:33-68 | no request removes, reorders or renames a user, and each user's todos only gain entries at the end |
| Properties.AddUserKeepsFresh | src/index.js:36-43 | pushing a user with the next id keeps every id unique and below the counter |
| Properties.AddTodoKeepsFresh | src/index.js:57-65 | pushing a todo with the next id onto one user keeps every id unique and below the counter |
| Properties.ServeKeepsIdsFresh | src/index.js:33-68 | every request keeps the ids of all users and todos unique and below the counter |
| Properties.FindByUsernameSameNames | src/index.js:17 | the lookup depends only on the usernames in registry order, so adding a todo does not change who a header resolves to |
| Properties.UsersRoute | src/index.js:33 | POST "/users" reaches the sign-up handler and does not mention "/todos" |
| Properties.HeaderlessSignupIgnoresTakenName | src/index.js:14-21 | a sign-up without a header succeeds whatever username the body holds, as long as no user lacks a username |
| Properties.DuplicateUsernamesReachable | src/index.js:14-43 | two identical headerless sign-ups both get 201, the second while its username is already registered, leaving two users with the same username |
| Properties.HeaderlessSignupAfterNamelessUser | src/index.js:14-22 | after a sign-up without a body username, every headerless sign-up is refused with 401 |
| Properties.OtherSignupTargetsSkipConflict | src/index.js:21-43 | a sign-up target Express routes to the handler but that is not literally "/users" is accepted even when the header username is taken |
| Properties.TrailingSlashSkipsConflict | src/index.js:21-33 | POST "/users/" with a taken header username is accepted with 201 |
| Properties.TodosInQueryBlocksSignup | src/index.js:19-27 | a sign-up whose query string mentions "/todos" is refused with 404 and changes nothing when the header names no user |
| Server.App.constructor | src/index.js:11 | the registry starts empty and valid |
| Server.User.constructor | src/index.js:36-41 | a new user object holds the given id, name and username and no todos |
| Server.App.Find | src/index.js:17 | the loop returns the position the specification's first-match lookup gives |
| Server.App.IndexOf | src/index.js:66 | the loop returns the first position holding this very object, or -1 exactly when it is not registered |
| Server.App.ChecksExistsUserAccount | src/index.js:13-31 | the gate run on the live objects decides as the specification's gate does on their records |
| Server.App.CreateUser | src/index.js:33-46 | pushes one fresh user object; the registry's records become the old records plus the new user; validity is kept |
| Server.App.ListTodos | src/index.js:48-51 | returns the todos of the registered record at the object's position |
| Server.App.CreateTodo | src/index.js:53-68 | pushes onto the stored object, and the write-back through indexOf leaves the registry sequence as it was; the records change only at that user's position, by one appended todo; validity is kept |
| Server.App.Dispatch | src/index.js:33-80 | the handlers change the state and reply exactly as the specification's handlers do |
| Server.App.Handle | src/index.js:13-80 | one request changes the state and replies exactly as `Serve` does; validity is kept |

## Left out

- Express, `cors` and `express.json()` are out (src/index.js:1-9). The model starts from the method, target, `username` header and parsed body. A malformed JSON body, which Express answers with 400, is not modelled. Every `OPTIONS` request, which `cors()` answers with 204, is reported as `Unrouted`.
- Express's own 404 for a request that matches no route is the outcome `Unrouted`. Its response body is not modelled.
- Routing is modelled only for the targets Express parses on its fast path: a target that starts with `/` and holds no `#`, tab, line feed, form feed, carriage return, space, U+00A0 or U+FEFF. Express then cuts the pathname at the first `?`, and `PathName` does the same. Every other target, including one in absolute form and one holding `#`, goes through Node's `url.parse`, which is not modelled. Among other things, `url.parse` turns each `\` before the first `?` or `#` into `/`, and drops a leading `//userinfo@host`. The lines below name the members whose statements fail on such targets.
- Text.PathName: for a target that holds `#` or whitespace, or that does not start with `/`, the result need not be the pathname Express routes on. For example, Express routes `//a@b\todos#` as `/todos`, and `/users\#` as `/users/`, while `PathName` keeps the raw text up to the `#`.
- Model.RouteOf: inherits the gap of `Text.PathName`. It leaves `//a@b\todos#`, `//a@b/todos#` and `POST /users\#` unrouted, while Express routes them to `/todos` and to sign-up.
- Model.TodosRouteMentionsTodos: holds for the targets `RouteOf` routes, but not for Express on the `url.parse` path. Express sends `//a@b\todos#` to the list and create-todo routes, and that target holds no `/todos`.
- Model.Respond: its proof that no routed request crashes relies on `Model.TodosRouteMentionsTodos`, so it does not cover the `url.parse` path. In the program, `GET` or `POST` `//a@b\todos#` with a header that names nobody passes the gate with no user, and `user.todos` throws (src/index.js:50, 65), which Express answers with 500.
- Model.Serve: "no request ends in a crash" holds for the model only. The program reaches the 500 described under `Model.Respond` for `//a@b\todos#`, a target the model leaves `Unrouted`.
- Properties.MissingUserExactly: the "exactly" covers fast-path targets only. The program answers `//a@b/todos#` with the gate's 404 when the header names nobody, while the model leaves that target `Unrouted`.
- Properties.TodoRoutesHaveUser: holds for the routes `RouteOf` picks. Express reaches a todo route with no resolved user for `//a@b\todos#`.
- Percent-decoding of route parameters is out. Express decodes a matched `:id` while it matches routes, and a malformed escape such as `PUT /todos/%zz` gets Express's 400 before the gate runs; the same happens for any method once the pathname matches `/todos/:id` or `/todos/:id/done`. The model routes such a pathname like a well-formed one (or leaves it `Unrouted` when the method has no route), so on these targets `MissingUserExactly` and `Serve` describe a reply Express never sends.
- `uuidv4()` ids are modelled as values of a counter. The counter keeps ids unique, where the source relies on the randomness of version 4 UUIDs.
- `new Date(deadline)` and `Date.now()` are out. A deadline is kept as the body value it was built from. `created_at` is an integer supplied with each request. Parsing dates and writing them as ISO-8601 JSON are out.
- The `PUT /todos/:id`, `PATCH /todos/:id/done` and `DELETE /todos/:id` handlers are empty in the source (src/index.js:70-80). They are modelled as never answering and never changing anything. The update, mark-done and delete behaviour that the test file expects is not implemented by the code, so it is not modelled.
- Body fields and the header are modelled as either absent or a string. JSON numbers, `null`, objects and arrays in the body are out, and so is a header given as an array.
- Case-insensitive matching is done on Unicode characters. JavaScript works on UTF-16 code units. Both patterns are ASCII, and JavaScript's non-Unicode case folding never maps a non-ASCII character onto an ASCII one, so the results are the same.
- Express turns the exception thrown by reading `user.todos` of an absent user into a 500. That outcome is `Crashed`, and `Serve` is proved never to produce it on the targets the model routes; the `Model.Serve` line above names a target outside them where the program does reach it.
- Concurrency is out: the service handles one request at a time.

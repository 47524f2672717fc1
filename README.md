# frolftracker core, modelled in Dafny

frolftracker is a disc-golf ("frolf") score tracker: a Flask/SQLAlchemy
service that stores Players, Courses and Scores and answers with Mason
hypermedia documents. This project models the parts of it that hold logic:

- **The Mason document builder** (`frolftracker/utils.py`). `MasonBuilder`
  is a mutable mapping; `add_error`, `add_namespace` and `add_control` set
  the reserved `@error`, `@namespaces` and `@controls` keys in place,
  creating the two sections on first use. `FrolftrackerBuilder` adds nine
  fixed `frolf:` controls. `create_error_response` builds the uniform error
  document. Module `Mason` (documents, `MasonBuilder`, the error response)
  and module `Frolf` (the fixed controls, `FrolftrackerBuilder`).
- **The entity store** (`frolftracker/models.py`). Three tables with their
  declared constraints: NOT NULL columns, the unique course name, the
  defaults `num_holes = 18` and `par = 54`, and the Score foreign keys with
  ON DELETE CASCADE, enforced because the foreign-key pragma is always
  switched on. Module `Models` states each insert and delete as a function
  on the tables. Module `Store` holds the class `Database`, whose methods
  change its maps in place and are proved to do what those functions say
  while keeping the invariant: every Score names a live Player and a live
  Course, course names are unique, and every stored integer is a signed
  64-bit integer.
- **The handlers with logic** (`frolftracker/resources/`). `EntryPoint.get`
  builds the root document with a builder. The `get` of the player, course
  and score collections looks an id up and answers 404 when it is absent.
  All of these are in module `Resources`.

Supporting modules: `Wrappers` (Option, Result), `Json` (the JSON value
type) and `Decimal` (the text `str.format` gives for an integer id, with
its inverse).

Modelling choices:

- Item assignment in Python raises `TypeError` when `@namespaces` or
  `@controls` already holds something that is not a dictionary. The model
  keeps this error path: the builder methods return `ok == false` and
  leave the document unchanged.
- `add_control(self, ctrl_name, href, **kwargs)` raises `TypeError` before
  its body runs when a keyword attribute is named `self`, `ctrl_name` or
  `href`. `WithControl` has no result in that case, and `AddControl`
  returns `ok == false` and leaves the document unchanged.
- The SQLite driver binds only signed 64-bit integers. An insert with an id
  or an integer column outside that range, and a lookup whose id is outside
  it, raise `OverflowError` before any constraint is checked or any row is
  read. The model reports this as the error `IntegerOverflow`; the handlers
  do not catch it, so Flask answers 500.
- The router's hrefs (`url_for`), the entity schemas (`get_schema`) and the
  constants `MASON`, `ERROR_PROFILE` and `LINK_RELATIONS_URL` are
  parameters. `frolftracker/constants.py` is not part of this model.
- A nullable column is an `Option`. For `num_holes` and `par`, `None` means
  the value was left unset, and the column default applies. SQLAlchemy
  omits a `None` value for a column that has a default.
- Primary keys are assigned by the database engine. The model takes the id
  as a parameter, so every result holds whichever id the engine picks. An
  id already in use is rejected as a primary-key violation.
- When an insert breaks several constraints, the model reports one error.
  It checks NOT NULL columns in declaration order first, then the primary
  key, then the unique name, then the foreign keys. Whatever the error, an
  insert that fails changes no table.

Where the code and the design description of the system disagree, the
model follows the code:

- Player and course names may be empty, and `num_holes`, `par` and
  `throws` may be any signed 64-bit integer, negative ones and zero
  included. No check in the code forbids these.
- The entry point's controls are named `players-all`, `courses-all` and
  `scores-all`, without the `frolf:` prefix.
- A Score has no `date` column.
- Nothing in the code prevents SQLite from reusing the id of a deleted
  row. The model's inserts accept any id not currently in use.

## Model

| member | source | states |
|---|---|---|
| `Mason.WithError` | frolftracker/utils.py:18-34 | `@error` becomes `{"@message": title, "@messages": [details]}`, replacing any earlier one; every other key keeps its value |
| `Mason.SetInSection` | frolftracker/utils.py:46-71 | fails exactly when the section key holds a non-object. Otherwise the section exists afterwards and gains the entry with exactly the new value (replaced, not merged). Its other entries and all other top-level keys are unchanged, and a section created fresh holds only that entry |
| `Mason.WithControl` | frolftracker/utils.py:53-71 | succeeds exactly when no keyword attribute is named `self`, `ctrl_name` or `href` and `@controls` is absent or an object. On success `@controls` gains the entry `name`, which is the attributes plus `href`; every other top-level key keeps its value |
| `Mason.SetInSectionIdempotent` | frolftracker/utils.py:46-71 | setting the same section entry twice gives the same document as setting it once |
| `Mason.NamespaceIdempotent` | frolftracker/utils.py:46-51 | `add_namespace` twice with the same prefix and URI equals calling it once |
| `Mason.ControlIdempotent` | frolftracker/utils.py:67-71 | `add_control` twice with the same name, href and attributes equals calling it once |
| `Mason.ErrorResponse` | frolftracker/utils.py:169-174 | the error response has the given status and the Mason media type. Its body has exactly the keys `resource_url` (the request path), `@error` (from title and message) and `@controls`, which is `{"profile": {"href": ERROR_PROFILE}}` |
| `Mason.MasonBuilder.constructor` | frolftracker/utils.py:9 | a builder starts as the mapping it is given |
| `Mason.MasonBuilder.AddError` | frolftracker/utils.py:18-34 | the document becomes `WithError` of the old one |
| `Mason.MasonBuilder.AddNamespace` | frolftracker/utils.py:36-51 | creates `@namespaces` only if absent, then sets `@namespaces[ns] = {"name": uri}`. It succeeds exactly when the section is absent or an object, and on failure the document is unchanged |
| `Mason.MasonBuilder.AddControl` | frolftracker/utils.py:53-71 | creates `@controls` only if absent. It stores the keyword attributes and then adds `href` to them, so the control is the attributes plus `href`. It fails, leaving the document unchanged, when an attribute clashes with a parameter name or the section is not an object, and succeeds otherwise |
| `Mason.CreateErrorResponse` | frolftracker/utils.py:169-174 | building the body step by step with a builder yields exactly `ErrorResponse` |
| `Frolf.AddPlayerControl` | frolftracker/utils.py:77-85 | `frolf:add-player`: POST, `json` encoding, title "Add a new player", the Player schema, and no other attribute |
| `Frolf.DeletePlayerControl` | frolftracker/utils.py:87-93 | `frolf:delete`: DELETE and title "Delete this player", no schema or encoding |
| `Frolf.ModifyPlayerControl` | frolftracker/utils.py:95-103 | `frolf:modify-player`: PUT, `json`, title "Edit this player", the Player schema |
| `Frolf.AddCourseControl` | frolftracker/utils.py:105-113 | `frolf:add-course`: POST, `json`, title "Add a new course", the Course schema |
| `Frolf.DeleteCourseControl` | frolftracker/utils.py:115-121 | `frolf:delete`: DELETE and title "Delete this course", no schema or encoding |
| `Frolf.ModifyCourseControl` | frolftracker/utils.py:123-131 | `frolf:modify-course`: PUT, `json`, title "Edit this course", the Course schema |
| `Frolf.AddScoreControl` | frolftracker/utils.py:133-141 | `frolf:add-score`: POST, `json`, title "Add a new score", the Score schema |
| `Frolf.DeleteScoreControl` | frolftracker/utils.py:143-149 | `frolf:delete`: DELETE and title "Delete this score", no schema or encoding |
| `Frolf.ModifyScoreControl` | frolftracker/utils.py:151-159 | `frolf:modify-score`: PUT, `json`, title "Edit this score", the Score schema |
| `Frolf.DeleteControlStored` | frolftracker/utils.py:87-149 | once any delete control is added, `@controls["frolf:delete"]` has exactly `method` DELETE, `title` and `href` |
| `Frolf.FormControlStored` | frolftracker/utils.py:77-159 | once an add or modify control is added, it is stored with its method, `encoding: "json"`, title, schema and `href`, and nothing else |
| `Frolf.FrolftrackerBuilder.constructor` | frolftracker/utils.py:75 | the builder starts from the given mapping |
| `Frolf.FrolftrackerBuilder.AddControlAddPlayer` | frolftracker/utils.py:77-85 | the document gains the add-player control as `add_control` stores it |
| `Frolf.FrolftrackerBuilder.AddControlDeletePlayer` | frolftracker/utils.py:87-93 | the document gains the player's delete control |
| `Frolf.FrolftrackerBuilder.AddControlModifyPlayer` | frolftracker/utils.py:95-103 | the document gains the modify-player control |
| `Frolf.FrolftrackerBuilder.AddControlAddCourse` | frolftracker/utils.py:105-113 | the document gains the add-course control |
| `Frolf.FrolftrackerBuilder.AddControlDeleteCourse` | frolftracker/utils.py:115-121 | the document gains the course's delete control |
| `Frolf.FrolftrackerBuilder.AddControlModifyCourse` | frolftracker/utils.py:123-131 | the document gains the modify-course control |
| `Frolf.FrolftrackerBuilder.AddControlAddScore` | frolftracker/utils.py:133-141 | the document gains the add-score control |
| `Frolf.FrolftrackerBuilder.AddControlDeleteScore` | frolftracker/utils.py:143-149 | the document gains the score's delete control |
| `Frolf.FrolftrackerBuilder.AddControlModifyScore` | frolftracker/utils.py:151-159 | the document gains the modify-score control |
| `Models.InsertPlayer` | frolftracker/models.py:19-24 | succeeds exactly when the id fits 64 bits, the name is not NULL and the id is unused. An id outside 64 bits is an overflow error, a NULL name a NOT NULL violation and a used id a primary-key violation. On success the player table gains exactly that row, and the other tables are untouched |
| `Models.InsertCourse` | frolftracker/models.py:41-48 | succeeds exactly when the id, `num_holes` and `par` fit 64 bits, the name is not NULL, the id is unused and no course already has that name. Each failure has its own error: overflow, NOT NULL, primary key, then unique name. The new row has `num_holes` 18 and `par` 54 when they are unset |
| `Models.InsertScore` | frolftracker/models.py:30-35 | succeeds exactly when every given integer fits 64 bits, `throws`, `player_id` and `course_id` are not NULL, the id is unused, and both ids name an existing player and course. Each failure has its own error: overflow; NOT NULL on `throws`, `player_id` or `course_id`; primary key; foreign key on `player_id`, then on `course_id`. On success the score table gains exactly that row |
| `Models.DeletePlayer` | frolftracker/models.py:24-34 | removes the player and exactly the scores whose `player_id` is that player; every other row is unchanged |
| `Models.DeleteCourse` | frolftracker/models.py:35-48 | removes the course and exactly the scores whose `course_id` is that course; every other row is unchanged |
| `Models.DeleteScore` | frolftracker/models.py:30-35 | removes that score only |
| `Models.InsertPlayerKeepsConsistent` | frolftracker/models.py:19-24 | a successful player insert keeps every score's references live, course names unique and stored integers within 64 bits |
| `Models.InsertCourseKeepsConsistent` | frolftracker/models.py:41-46 | a successful course insert keeps the invariant, including name uniqueness |
| `Models.InsertScoreKeepsConsistent` | frolftracker/models.py:33-35 | a successful score insert keeps every score's player and course live |
| `Models.DeletePlayerKeepsConsistent` | frolftracker/models.py:12-35 | deleting a player keeps the invariant: the cascade leaves no score naming it |
| `Models.DeleteCourseKeepsConsistent` | frolftracker/models.py:35-48 | deleting a course keeps the invariant: the cascade leaves no score naming it |
| `Models.DeleteScoreKeepsConsistent` | frolftracker/models.py:30-35 | deleting a score keeps the invariant |
| `Models.DeletePlayerScoreCount` | frolftracker/models.py:24-34 | deleting a player with N scores leaves exactly N fewer scores |
| `Models.DeleteCourseScoreCount` | frolftracker/models.py:35-48 | deleting a course with N scores leaves exactly N fewer scores |
| `Models.FirstInsertCountsOne` | tests/db_test.py:64-86 | a successful insert into an empty table gives that table one row |
| `Store.Database.constructor` | frolftracker/models.py:19-48 | the created schema has three empty tables and satisfies the invariant |
| `Store.Database.InsertPlayer` | frolftracker/models.py:19-24 | commits `InsertPlayer`'s new tables and reports no error, or reports its error and changes nothing; keeps the invariant |
| `Store.Database.InsertCourse` | frolftracker/models.py:41-46 | commits `InsertCourse` or reports its error with the store unchanged (a duplicate name included); keeps the invariant |
| `Store.Database.InsertScore` | frolftracker/models.py:30-35 | commits `InsertScore` or reports its error with the store unchanged; keeps the invariant |
| `Store.Database.DeletePlayer` | frolftracker/models.py:24-34 | the tables become `DeletePlayer` of the old ones, cascade included; reports whether the player existed; keeps the invariant |
| `Store.Database.DeleteCourse` | frolftracker/models.py:35-48 | the tables become `DeleteCourse` of the old ones, cascade included; reports whether the course existed; keeps the invariant |
| `Store.Database.DeleteScore` | frolftracker/models.py:30-35 | the tables become `DeleteScore` of the old ones; reports whether the score existed; keeps the invariant |
| `Resources.EntryGet` | frolftracker/resources/entry.py:9-16 | status 200. The body has exactly `@namespaces` and `@controls`, and no `@error`. `@namespaces` is `{"frolf": {"name": LINK_RELATIONS_URL}}`. `@controls` has exactly `players-all`, `courses-all` and `scores-all`, each exactly `{"href": <collection href>}` |
| `Resources.Lookup` | frolftracker/resources/player.py:21-27 | the lookup shared by the three collections: an overflow error exactly when the id does not fit 64 bits, no response exactly when it fits and a row has it, and otherwise the whole 404 error document with the prefix and the id's text as its one detail |
| `Resources.PlayerCollectionGet` | frolftracker/resources/player.py:21-27 | an overflow error exactly when the id does not fit 64 bits. Otherwise no response exactly when a player has the id, and else a 404 in the Mason media type for the request path, with title "Not found", the one detail "No player found with the id " + id, and the error profile control |
| `Resources.CourseCollectionGet` | frolftracker/resources/course.py:21-27 | an overflow error exactly when the id does not fit 64 bits. Otherwise no response exactly when a course has the id, and else the full 404 document with detail "No course found with the id " + id |
| `Resources.ScoreCollectionGet` | frolftracker/resources/score.py:21-27 | an overflow error exactly when the id does not fit 64 bits. Otherwise no response exactly when a score has the id, and else the full 404 document with detail "No score found with the id " + id |
| `Resources.DetailIdentifiesId` | frolftracker/resources/player.py:26 | two ids formatted after the same prefix give the same text only if they are equal |
| `Resources.NotFoundIdentifiesId` | frolftracker/resources/player.py:21-27 | for each of the three lookups, two identical 404 answers were for the same id |
| `Decimal.Format` | frolftracker/resources/player.py:26 | the text of an integer is non-empty and starts with '-' exactly when the integer is negative |
| `Decimal.ParseFormat` | frolftracker/resources/player.py:26 | parsing the formatted text of an integer gives back that integer |
| `Decimal.FormatInjective` | frolftracker/resources/player.py:26 | different integers are formatted as different text |

## Left out

- The terminal client (`client/frolftracker_client.py`): it consists of curses menus and HTTP calls.
- Flask plumbing: the placeholder routes of `create_app`, the blueprint routing, `setup.py`, `url_for`, `Response` objects and `json.dumps`. Hrefs are parameters, and a response is a status, a body document and a media type; serialisation to JSON text is not modelled.
- Routing: `frolftracker/api.py` maps the collection paths, which carry no id, to `get` methods that take one. The model takes the id as a parameter.
- Non-integer ids: since no route supplies an id, the three collection `get` methods are reachable only by a direct call, which may pass any Python value. The model restricts the argument to an integer; its 404 detail equals the code's only then. A text argument such as `"007"` or `"abc"` is not modelled: the code writes it into the detail unchanged and leaves the comparison to SQLite.
- The ORM, sessions, transactions and SQLite itself: only the declared constraints and what they allow are modelled. Concurrent requests are not modelled.
- How the engine picks a new primary key. Inserts take the id as a parameter.
- Inserting a Score through its `player` and `course` relationship objects, which also inserts those objects. The model inserts rows by id, one table at a time.
- The `*Item` handlers and every `post`: they are `pass` stubs. The model has no updates, PUT, POST or DELETE handling, no score filtering, and no 409 or 415 answers, because the code has none.
- `add_control_get_scores_by_player` and `add_control_get_scores_by_course`: their bodies are unfinished TODOs that do not parse.
- `Player/Course/Score.get_schema()`: these are called but not defined, so schemas are opaque values passed in.
- Aliasing: Python stores the keyword-argument dictionary itself as the control, and a builder may be created around dictionaries shared with other code. The model's documents are values, so sharing is not captured.
- JSON numbers other than integers: no modelled document contains one.

# Task manager API: request handlers and schemas in Dafny

This project models the core of an Express/Mongoose task-manager service:

- the `/users` router: register, login, read the profile, update the profile;
- the `/tasks` router: create, list with filters, read, patch, delete;
- the `/categories` router: create, list your own, read, update, delete;
- the three Mongoose schemas (User, Task, Category) and their setters,
  validators, defaults, unique indexes and hooks.

The model is a sequential state machine. A `Database.Store` object holds three
tables, `users`, `tasks` and `categories`, each a map from id to record. Its
invariant `Valid()` holds the schema guarantees:

- ids are the keys;
- usernames, emails and category names are lowercased and trimmed;
- usernames and emails are unique;
- `(name, user)` is unique among categories;
- task titles and descriptions are non-empty;
- no category's `tasks` list is ever filled.

Each handler is a method taking the store and the request's fields. It
returns a `Response`, meaning a status and a body. Its postcondition says,
branch by branch in the order the handler checks them, which reply is sent
and exactly how each table changes. Any error handed to `next` becomes the
500 reply of the application's last middleware (`Http.ServerError`).

Some collaborators are uninterpreted functions in `External.Libraries`:

- bcrypt's hash and compare;
- the zxcvbn score;
- express-validator's `isEmail`, `isISO8601` and `isMongoId`;
- Mongoose's casts of a string to an ObjectId or a date.

The clock (`now`), the JWT secret and bcrypt's salt are parameters. The
authentication middleware is not part of this model: a protected handler
receives the `userId` it would set. An absent request field is the empty
string.

Readings of the code that the model depends on:

- Mongoose applies the `lowercase`/`trim` setters to query filters and to
  `findByIdAndUpdate` updates. So `findOne({ username })` finds the user
  whose stored name is `Normalize(username)`.
- Schema validation runs before the pre-save hook. A weak password therefore
  fails the save and gets a 500 from the error handler, not a 400 reply.
- `PUT /users/me` reads a variable `existing` that it never declares. So
  every request that passes the two uniqueness lookups throws and gets a 500,
  and the update is never reached.
- `GET /tasks` declares validators but never calls `validationResult`. A
  filter value that does not cast gets a 500.
- `PATCH /tasks/:id` answers a Mongoose ValidationError with 400. A CastError
  on the id goes to `next`, which gives 500.
- No get, patch or delete handler compares the record's owner with the
  requester.
- `DELETE /categories/:id` uses `findByIdAndDelete`, which does not run the
  `pre('remove')` hook. The hook is modelled on its own as
  `Database.Store.RemoveCategory`.

## Model

| member | source | states |
|---|---|---|
| Strings.ToLower | models/User.js:13 | the result has the input's length and no upper-case letter; each letter 'A'–'Z' becomes its lower-case letter (code + 32) and every other character is kept |
| Strings.Trim | models/User.js:14 | the result starts and ends with a non-space character (or is empty) and keeps the absence of upper-case letters |
| Strings.TrimRemovesOnlySpace | models/User.js:14 | the input is white space, then the trimmed string, then white space |
| Strings.TrimKeepsTrimmed | models/User.js:14 | trimming a string with no white space at either end leaves it unchanged |
| Strings.Normalize | models/User.js:9-15 | the stored value of a `lowercase`, `trim` path is lower-case and trimmed |
| Strings.NormalizeFixesExactlyNormal | models/User.js:27-32 | normalising leaves a string unchanged if and only if it is already lower-case and trimmed |
| Strings.NormalizeIdempotent | models/Category.js:7-12 | normalising a stored value again changes nothing |
| Strings.NormalizeIgnoresCase | models/User.js:9-15 | two strings that differ only in the case of ASCII letters are stored alike, so the unique indexes on username and email compare them without case |
| UserSchema.EmailPatternIsShape | models/User.js:33 | the unanchored pattern `\S+@\S+\.\S+` matches exactly the strings containing a non-space character, '@', a non-empty non-space run, '.', and a non-space character |
| UserSchema.EmailPatternUnanchored | models/User.js:33 | examples: "mail x@y.z, thanks" matches; "x@y" and "x @y.z" do not |
| UserSchema.EmailPatternUnanchoredAround | models/User.js:33 | whatever text surrounds a matching string, the whole still matches |
| UserSchema.ValidForSaveMeans | models/User.js:9-34 | the schema accepts a document exactly when username and password are non-empty, the password's zxcvbn score is at least 3, and the email has an '@' and a '.' with non-space text around them |
| UserSchema.StrengthGate | models/User.js:19-25 | a document with every other path valid passes validation exactly when the password's zxcvbn score is at least 3 |
| UserSchema.InsertKeepsUsersValid | models/User.js:9-34 | adding a user with a fresh id, an unused normalised username and an unused normalised email keeps ids, usernames and emails unique |
| UserSchema.UserDocument.constructor | routes/auth.js:44 | a new document holds the normalised username and email, the plain password, and the password marked modified |
| UserSchema.UserDocument.PreSave | models/User.js:39-44 | the password is replaced by its bcrypt hash with cost 12 exactly when it was modified; nothing else changes |
| UserSchema.UserDocument.MarkSaved | models/User.js:40 | after a save the password no longer counts as modified |
| UserSchema.SaveTwiceHashesOnce | models/User.js:39-44 | saving a new document twice stores the hash of the plain password from the first save, never a hash of a hash |
| UserSchema.ComparePasswordChecksHash | models/User.js:47-49 | on a saved user, comparePassword is bcrypt's compare of the candidate against the stored hash of the original password, and accepts the original password whenever bcrypt accepts it against its hash |
| TaskSchema.ParseStatus | models/Task.js:16-24 | a string is accepted exactly when it names one of pending, ongoing, completed, and then it maps to that status |
| TaskSchema.Validate | models/Task.js:6-39 | a draft validates exactly when title, description, category and user are present and a given status is in the enumeration; status defaults to pending and the due date to now + 604800000 ms |
| TaskSchema.ResaveKeepsTimestamps | models/Task.js:41 | saving the same content a second time changes nothing: updatedAt stays at the time of the last change |
| TaskSchema.SavesKeepTimestampsOrdered | models/Task.js:41 | a first save stamps both timestamps with the save time; with a clock that does not go back, every later save keeps createdAt <= updatedAt <= now and never moves createdAt |
| TaskSchema.UpdatedMovesOnlyOnChange | models/Task.js:41 | a save sets the new content, keeps id and createdAt, and (at a save time other than the last updatedAt) moves updatedAt exactly when the content changed |
| CategorySchema.Cascade | models/Category.js:28-31 | the hook deletes exactly the tasks whose ids the category lists and leaves every other task unchanged |
| Database.NewObjectId | routes/auth.js:45 | a new ObjectId is not the id of any record in the table |
| Database.Store.FindUserByUsername | routes/auth.js:26 | finds a user exactly when some user has that username, and then the only one |
| Database.Store.FindUserByEmail | routes/auth.js:32 | finds a user exactly when some user has that email, and then that stored record |
| Database.Store.FindUserById | routes/auth.js:95 | finds the record stored under the id, or null when there is none |
| Database.Store.InsertUser | models/User.js:9-34 | a save succeeds exactly when id, username and email are all unused, adds exactly that user, and keeps the store's invariant |
| Database.Store.InsertTask | routes/tasksRouters.js:42 | a save succeeds exactly when the id is unused and adds exactly that task |
| Database.Store.ReplaceTask | routes/tasksRouters.js:134 | saving a read task replaces that one entry and keeps the invariant |
| Database.Store.DeleteTask | routes/tasksRouters.js:147 | returns the task stored under the id, or null, and removes at most that task |
| Database.Store.InsertCategory | models/Category.js:5-25 | a save succeeds exactly when an id is given, it is unused, and no category has the same (name, user); the new category has no tasks |
| Database.Store.UpdateCategory | routes/categoryRoutes.js:60 | an absent id changes nothing and returns null; a (name, user) collision with another category fails; otherwise exactly name and user are replaced |
| Database.Store.DeleteCategory | routes/categoryRoutes.js:70 | returns the category stored under the id, or null, removes at most it, and leaves the tasks alone |
| Database.Store.RemoveCategory | models/Category.js:28-31 | removing a category document runs the cascade over the task table and removes the category |
| Database.CascadeOfStoredIsEmpty | models/Category.js:18-21 | because no category's task list is ever filled, the cascade of a stored category deletes nothing |
| AuthRoutes.ProfileValidation | routes/auth.js:11-20 | no errors exactly when username and password are non-empty and the email passes isEmail |
| AuthRoutes.LoginValidation | routes/auth.js:55-63 | no errors exactly when username and password are non-empty |
| AuthRoutes.Register | routes/auth.js:10-52 | 400 with the validator errors; then 400 "Username already exists" before 400 "Email already exists", with no insert; a failed schema validation gives 500; otherwise 201 and exactly one new user, with a fresh id, normalised fields and the hashed password. The missing-fields branch cannot be reached when every field arrives in the body and the validators reject "" |
| AuthRoutes.Login | routes/auth.js:54-90 | 400 with the validator errors; the same 401 for an unknown username and for a password bcrypt rejects; 500 without a secret; otherwise 200 with a token for the found user's id issued now and expiring 24 hours later; no table changes |
| AuthRoutes.GetMe | routes/auth.js:92-100 | always 200, with the requester's whole stored record, password hash included, or null |
| AuthRoutes.GetMeWithoutPassword | routes/auth.js:92-100 | always 200, with the requester's id, username, email, categories and tasks, and no password field, or null |
| AuthRoutes.UpdateMe | routes/auth.js:102-145 | never writes: 400 with the validator errors; 400 when the username or the email is taken, the caller's own included; otherwise 500 |
| AuthRoutes.RegisterThenLogin | routes/auth.js:10-90 | a user registered with a valid profile can log in with the same credentials and gets a token |
| TaskRoutes.TaskValidation | routes/tasksRouters.js:10-23 | no errors exactly when title and description are non-empty, the status is in the enumeration, the due date is ISO 8601 and the category is a Mongo id; "Invalid status" exactly when the status is not |
| TaskRoutes.Create | routes/tasksRouters.js:9-47 | 400 with the validator errors before any write; a failed cast gives 500; otherwise 200 "Task created" and exactly one new task with a fresh id, the request's fields, the requester as owner whatever the body says, and both timestamps now |
| TaskRoutes.Find | routes/tasksRouters.js:82 | a filter value that does not cast is an error; otherwise the result holds exactly the tasks that satisfy every given filter |
| TaskRoutes.FindWithoutFilters | routes/tasksRouters.js:59-82 | with no filter given every task is found |
| TaskRoutes.List | routes/tasksRouters.js:49-92 | 500 on a filter that does not cast; 404 exactly when no task matches every supplied filter (category, status, due date); otherwise 200 with exactly the matching tasks, of any owner |
| TaskRoutes.Get | routes/tasksRouters.js:94-103 | 500 on an id that does not cast; 404 exactly when no task has that id; otherwise the task, whoever owns it |
| TaskRoutes.Patch | routes/tasksRouters.js:105-142 | 400 with the validator errors; 500 on an id that does not cast; 404 on a missing task; 400 on a ValidationError; otherwise all five fields replaced, the owner set to the requester, createdAt kept, updatedAt moved only if something changed, and every other task unchanged |
| TaskRoutes.Delete | routes/tasksRouters.js:144-152 | removes at most the task with that id and replies "Task deleted" even when there was none |
| CategoryRoutes.CreateAsWritten | routes/categoryRoutes.js:9-27 | with a name, the save always fails and the reply is 500; no table changes |
| CategoryRoutes.Create | routes/categoryRoutes.js:9-27 | 400 on an empty name; 500 on a name that is blank once trimmed or already used by the same owner; otherwise 200 and exactly one new category with a fresh id, the normalised name, the requester as owner and no tasks |
| CategoryRoutes.NamesAreUniquePerOwner | models/Category.js:25 | with the corrected create handler (as written no category can be created at all), two owners can each create a category of the same name, and the same owner cannot create it twice |
| CategoryRoutes.List | routes/categoryRoutes.js:29-37 | always 200 with exactly the categories whose owner is the requester |
| CategoryRoutes.Get | routes/categoryRoutes.js:39-48 | 500 on an id that does not cast; 404 exactly when the id is absent; otherwise the category, whoever owns it |
| CategoryRoutes.Put | routes/categoryRoutes.js:50-65 | 400 on an empty name; 500 on an id that does not cast or a (name, owner) collision; 200 with null for an absent id; otherwise the name normalised and the owner set to the requester |
| CategoryRoutes.Delete | routes/categoryRoutes.js:67-76 | 500 on an id that does not cast; 404 when absent; otherwise removes exactly that category and leaves every task untouched |

## Left out

- The authentication middleware is not part of this model. Handlers take the `userId` it would set, and a rejected token never reaches them.
- TaskRoutes.List: the page and limit parameters of mongoose-paginate-v2 are not modelled. The reply holds every matching task, not the first page of ten. A page past the last one, which gets 404 in the source, is not modelled.
- TaskRoutes.List: the reply is a map from id to task, so the order of the `docs` array is not modelled.
- CategoryRoutes.List: the reply is a map from id to category, so the order of the array `find` returns is not modelled.
- TaskRoutes.List: `new Date(...)` on the query's due date and Mongoose's date cast are the same uninterpreted `castDate`.
- Strings.ToLower: maps only the ASCII letters A–Z. The full Unicode case mapping of `toLowerCase` is left out.
- The internals of bcrypt, zxcvbn, jsonwebtoken and express-validator, and Mongoose's casts, are uninterpreted. Only `RejectsEmpty` is assumed of the format checks: none of them accepts "".
- Requests run one at a time. The race between two registrations that both pass the lookups is left out, as are `async`/`await` scheduling, the database connection and the rest of the application set-up (CORS, helmet, compression, rate limiting, logging).
- Only the `msg` text of each express-validator error is kept. Mongoose's ValidationError message is the body `Invalid`, without its text, and the 500 body leaves out the error detail.
- Each request field is modelled as the one value that both the validators and the handler see. express-validator's `check()` also reads the query string, route parameters, headers and cookies, while the handlers read only the body. So a field sent outside the body is not modelled, and neither is the missing-fields reply it can reach (AuthRoutes.Register, AuthRoutes.Login, TaskRoutes.Create, TaskRoutes.Patch).
- Login tokens are the claim record `(userId, iat, exp)`, not a signed string.
- The `categories` and `tasks` arrays of a user and the `tasks` array of a category: no handler fills them, so they stay empty.

## Findings

| source | as written | input that shows it | evidently intended | confidence | as-written member | corrected member |
|---|---|---|---|---|---|---|
| routes/categoryRoutes.js:16-22 | the Category schema declares `_id` (models/Category.js:6), so a new document has none, and the handler never sets one, so every save fails | POST /categories with `name: "work"` on any store: 500 | save under a fresh ObjectId, as the task and user handlers do, and answer "Category created" | likely; not executed | CategoryRoutes.CreateAsWritten | CategoryRoutes.Create |
| routes/auth.js:96 | `res.json(user)` sends the whole stored user document, the bcrypt hash in `password` included | GET /users/me by any registered user: the reply's `password` is the stored hash | the profile reply shows no password field | likely; not executed | AuthRoutes.GetMe | AuthRoutes.GetMeWithoutPassword |

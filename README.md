# Task manager core, modelled in Dafny

This project models the logic of a task-management web application: an Express/Mongoose
REST backend and a React client. Users register and log in, and then manage their own tasks:
list them with pagination and a status filter, create, read, update, delete them, and flip
their status.

The model covers the following parts of the application:

- **Task schema** (`TaskSchema`): the status and priority enumerations, the `trim`
  setters, the `required`/`maxlength`/`enum` validators, the defaults on create, and the
  update query run with validators.
- **Task service** (`TaskService`): ownership scoping, the status filter, the pagination
  arithmetic (`Math.ceil(total / limit) || 1`, `skip = (page - 1) * limit`), the newest-first
  window, create-time defaults, and the fetch-then-compare-then-act checks of read, update
  and delete. The Task collection and its next id are the fields of the class `TaskStore`.
- **Task controller** (`TaskController`): status codes and the shared catch block
  `error.status || 500`, `error.message || "Server Error"`.
- **User schema** (`UserSchema`): the `trim`/`lowercase` setters of the email and the email
  pattern `^\S+@\S+\.\S+$`. It also covers the validators, Mongoose's
  "modified only if the value changed" tracking, the pre-save hook that re-hashes a modified
  password, `matchPassword`, and `findById`/`findOne`. A loaded document is the class
  `UserDocument`, whose setter methods update its fields.
- **Auth service** (`AuthService`): registration with the duplicate-email check, login with
  its two distinct failures, and the field-by-field profile update with its email-clash
  check. The User collection is the field of the class `AuthStore`. Its invariant
  (validated users, distinct ids below the next id, distinct emails) is preserved by every
  operation.
- **Auth controller** (`AuthController`): the required-field guards and the status codes.
- **Access guard** (`AuthGuard`): `protect`, which admits or refuses a request from its
  Authorization header, the verified token and the user lookup. A request is the class
  `Request`, whose `user` and reply fields the guard sets.
- **Client logic**:
  - `TaskTable`: the pager's button sequence (`computePageSeq`), the row-menu toggle, the
    empty state and the arrow buttons.
  - `Dashboard`: the search filter, the list request and how its response sets the pager,
    tab and page changes, the step back after a delete, and the status flip.
  - `TaskForm`: the task dialog's form.
  - `ProfileForm`: the settings dialog and the body it sends.

`Common` holds the shared values: `Option`, `Result`, the thrown-error shape, identifiers,
schema violations and JavaScript truthiness. `Text` models the JavaScript string built-ins
the code relies on: `trim` (with the ECMAScript white-space set), `toLowerCase`,
`includes`, `startsWith`, `substring` and `split`.

The model rests on these conventions:

- Each collection is a sequence in creation order, so sorting on `createdAt` descending is
  the reverse of that sequence.
- Identifiers are opaque and are compared only for equality.
- A thrown `{ status, message }` is `Error(Some(status), message)`. An error raised by the
  runtime, a validator or the database driver is `Error(None, message)`.
- bcrypt's `hash`/`compare` and `jwt.verify` are function parameters. `jwt.sign` yields a
  symbolic token naming its subject and lifetime. The salt is a parameter.

## Model

| member | source | states |
|---|---|---|
| Common.OrElse | backend/src/services/taskService.js:51-53 | `s \|\| fallback` on an optional string: the value when it is truthy (present and non-empty), otherwise the fallback |
| Common.ValidationError | backend/src/models/Task.js:8-35 | a schema rejection carries no status and a non-empty message |
| Common.HttpStatus | backend/src/controllers/taskController.js:8-10 | `error.status \|\| 500`: the thrown status when there is a non-zero one, 500 otherwise |
| Common.HttpMessage | backend/src/controllers/taskController.js:8-10 | `error.message \|\| "Server Error"`: never empty, and the thrown message when there is one |
| Text.TrimStart | backend/src/services/taskService.js:44 | the result is no longer than the input and does not start with white space |
| Text.TrimStartDropsBlankPrefix | backend/src/services/taskService.js:44 | what `trimStart` removes is a white-space prefix, and the result is the rest of the input |
| Text.TrimEnd | backend/src/services/taskService.js:44 | the result is a prefix of the input that does not end with white space |
| Text.TrimEndDropsBlankSuffix | backend/src/services/taskService.js:44 | what `trimEnd` removes is a white-space suffix |
| Text.Trim | backend/src/services/taskService.js:49-50 | `trim()` yields a string with no white space at either end, no longer than the input |
| Text.TrimUnpadded | backend/src/models/Task.js:11 | a string with no white space at either end is its own trim |
| Text.TrimStartBlankPrefix | backend/src/services/taskService.js:49 | removing a white-space prefix in front of a non-blank start gives that start |
| Text.TrimEndBlankSuffix | backend/src/services/taskService.js:49 | removing a white-space suffix after a non-blank end gives that end |
| Text.TrimPadded | backend/src/services/taskService.js:49 | trimming removes exactly the padding around a non-empty unpadded core |
| Text.TrimIdempotent | backend/src/models/Task.js:11 | the service's `title.trim()` followed by the schema's `trim` setter is one trim |
| Text.TrimStartOfBlank | backend/src/services/taskService.js:44 | an all-white-space string trims at the start to nothing |
| Text.TrimEmptyIsBlank | backend/src/services/taskService.js:44 | a string that trims to nothing is all white space |
| Text.TrimEmptyIffBlank | backend/src/services/taskService.js:44 | `title.trim().length === 0` holds exactly when the title is all white space |
| Text.ToLowerIdempotent | backend/src/services/authService.js:13 | lower-casing twice is lower-casing once |
| Text.TrimStartLower | backend/src/models/User.js:18-19 | removing leading white space commutes with lower-casing |
| Text.TrimEndLower | backend/src/models/User.js:18-19 | removing trailing white space commutes with lower-casing |
| Text.TrimToLowerCommute | backend/src/models/User.js:18-19 | the `trim` and `lowercase` setters may run in either order |
| Text.Includes | frontend/src/pages/DashboardPage.jsx:145-146 | `s.includes(t)` holds exactly when `t` occurs in `s` at some offset |
| Text.JsLength | backend/src/models/Task.js:12 | `s.length` counts UTF-16 code units: between the character count and twice it, equal to it on text inside the Basic Multilingual Plane, twice it on text wholly outside, and zero only for "" |
| Text.Prefix | frontend/src/components/TaskModal.jsx:23 | `substring(0, n)` yields the first `n` characters, or all of them when there are fewer |
| Text.IndexOf | backend/src/middleware/authMiddleware.js:15 | the position of the first occurrence of the character |
| Text.Split | backend/src/middleware/authMiddleware.js:15 | `split(" ")` yields at least one piece, with no separator inside any piece, and joining the pieces gives the input back |
| Text.SplitJoin | backend/src/middleware/authMiddleware.js:15 | splitting a join of separator-free pieces gives the pieces back |
| TaskSchema.StatusName | backend/src/models/Task.js:3 | every status is stored under one of the two listed spellings |
| TaskSchema.ParseStatus | backend/src/models/Task.js:20-27 | the status enum validator accepts exactly the listed spellings, and is inverse to `StatusName` |
| TaskSchema.PriorityName | backend/src/models/Task.js:4 | every priority is stored under one of the four listed spellings |
| TaskSchema.ParsePriority | backend/src/models/Task.js:28-35 | the priority enum validator accepts exactly the listed spellings, and is inverse to `PriorityName` |
| TaskSchema.TitleViolations | backend/src/models/Task.js:8-13 | the title is rejected exactly when empty or longer than 100 UTF-16 code units, with one message |
| TaskSchema.AstralTitleTooLong | backend/src/models/Task.js:12 | sixty characters outside the Basic Multilingual Plane have length 120 and are rejected as too long |
| TaskSchema.DescriptionViolations | backend/src/models/Task.js:14-19 | the description is rejected exactly when longer than 500 UTF-16 code units |
| TaskSchema.StatusViolations | backend/src/models/Task.js:20-27 | the status is rejected exactly when it is not a listed spelling |
| TaskSchema.PriorityViolations | backend/src/models/Task.js:28-35 | the priority is rejected exactly when it is not a listed spelling |
| TaskSchema.CreateDocument | backend/src/models/Task.js:6-47 | `Task.create` succeeds exactly when the trimmed title is non-empty and at most 100 characters, the trimmed description at most 500, and status and priority listed. The stored task is well-formed and holds the trimmed values. A rejection carries no status |
| TaskSchema.CastDate | backend/src/models/Task.js:36-39 | a Date path casts `""` to null and keeps any other value |
| TaskSchema.PatchViolations | backend/src/models/Task.js:8-35 | the update validators report nothing exactly when every given path passes its validators |
| TaskSchema.Patched | backend/src/services/taskService.js:71-74 | the updated task is well-formed and keeps its id. Each given path is overwritten (trimmed, cast) and every absent path is unchanged, `createdBy` included |
| TaskSchema.ApplyPatch | backend/src/services/taskService.js:71-74 | `findByIdAndUpdate` with validators succeeds exactly when the patch is admissible, and then returns the patched task. A rejection carries no status |
| TaskSchema.EmptyPatchIsIdentity | backend/src/services/taskService.js:71-74 | an empty patch leaves the task as it is |
| TaskService.Find | backend/src/services/taskService.js:30 | `findById` returns a stored task with that id, or nothing exactly when no task has the id |
| TaskService.FindUnique | backend/src/services/taskService.js:30 | with distinct ids, `findById` returns the one task with that id |
| TaskService.ReplaceAt | backend/src/services/taskService.js:71-74 | with distinct ids, writing the updated task changes only its own position |
| TaskService.RemoveById | backend/src/services/taskService.js:90 | deleting never adds a task |
| TaskService.RemoveByIdMembers | backend/src/services/taskService.js:90 | `findByIdAndDelete` keeps exactly the tasks with another id |
| TaskService.RemoveByIdExactlyOne | backend/src/services/taskService.js:90 | with distinct ids, deleting a present task removes exactly that position and keeps the others in order |
| TaskService.RemoveByIdAbsent | backend/src/services/taskService.js:90 | deleting an absent id changes nothing |
| TaskService.AppendFreshDistinct | backend/src/services/taskService.js:48-55 | a created task with the next id keeps the ids distinct and below the next id |
| TaskService.AppendConsistent | backend/src/services/taskService.js:48-55 | creating a well-formed task keeps the collection invariant |
| TaskService.ReplaceConsistent | backend/src/services/taskService.js:71-74 | an update keeps the collection invariant |
| TaskService.DropConsistent | backend/src/services/taskService.js:90 | a delete keeps the collection invariant |
| TaskService.StatusFilter | backend/src/services/taskService.js:8-10 | the status joins the filter exactly when it is one of the two spellings; anything else is ignored |
| TaskService.Matching | backend/src/services/taskService.js:6-12 | every counted document belongs to the caller and passes the status filter |
| TaskService.MatchingMembers | backend/src/services/taskService.js:6-12 | the filter keeps exactly the caller's tasks with the filtered status |
| TaskService.CeilDiv | backend/src/services/taskService.js:13 | `Math.ceil(total / limit)` is the least page count whose pages hold all items |
| TaskService.TotalPages | backend/src/services/taskService.js:13 | there is at least one page, the pages hold every item, and no page beyond the last is needed; zero items give one page |
| TaskService.Window | backend/src/services/taskService.js:16-19 | `skip(n).limit(l)` yields the items from position `n`, as many as remain, at most `l` |
| TaskService.ListTasks | backend/src/services/taskService.js:5-27 | a missing options object fails (TypeError, no status) and page 0 fails (negative skip). Otherwise it returns the echoed page, the count of the caller's matches, the page count, and at most `limit` of the caller's own stored tasks |
| TaskService.ListWindow | backend/src/services/taskService.js:14-19 | the returned tasks are the newest-first matches starting at `(page - 1) * limit` |
| TaskService.PagePastTheEndIsEmpty | backend/src/services/taskService.js:21-26 | the page is echoed, not clamped: a page past the last one is empty |
| TaskService.PageOfIndex | backend/src/services/taskService.js:13-14 | the `i`-th of `total` items lies on page `i / limit + 1`, which is one of the `totalPages` |
| TaskService.EveryMatchOnItsPage | backend/src/services/taskService.js:5-27 | every match is listed: the `i`-th newest match is entry `i % limit` of page `i / limit + 1`, and that page is within `totalPages` |
| TaskService.InvalidStatusIgnored | backend/src/services/taskService.js:8-10 | an unlisted status gives the same answer as no status |
| TaskService.ListIgnoresForeignInsert | backend/src/services/taskService.js:6 | adding another user's task changes nothing in this user's list |
| TaskService.MatchingIgnoresForeignReplace | backend/src/services/taskService.js:6 | replacing a task that neither was nor becomes this user's leaves this user's matches unchanged |
| TaskService.MatchingIgnoresForeignRemove | backend/src/services/taskService.js:6 | deleting a task that is not this user's leaves this user's matches unchanged |
| TaskService.TaskById | backend/src/services/taskService.js:29-41 | 404 when absent, then 403 when owned by someone else. Success exactly when the caller owns the task, which is then returned |
| TaskService.Defaulted | backend/src/services/taskService.js:48-55 | the title and description are trimmed (a falsy description becomes `""`). Falsy status and priority become `"pending"`/`"low"`, a falsy due date becomes null, and the owner is the caller |
| TaskService.CreateOutcome | backend/src/services/taskService.js:43-58 | a missing or blank title fails with 400 "Task title cannot be empty". Otherwise creation succeeds exactly when every given field passes the schema. The stored task is well-formed, owned by the caller, and holds the trimmed and defaulted values. A schema rejection carries no status |
| TaskService.UpdateOutcome | backend/src/services/taskService.js:60-77 | 404 when absent, then 403 when not the caller's, otherwise the update query's outcome |
| TaskService.DeleteOutcome | backend/src/services/taskService.js:79-93 | 404 when absent, 403 when not the caller's, otherwise `{ success: true, message }` |
| TaskService.CreateThenFetch | backend/src/services/taskService.js:29-58 | a task just created is fetched by its owner exactly as it was returned |
| TaskService.MinimalCreateDefaults | backend/src/services/taskService.js:48-55 | `{ title: "X", priority: "high" }` is stored as a pending, high-priority task with an empty description and no due date |
| TaskService.TitleStoredTrimmed | backend/src/services/taskService.js:49 | a created task stores its title without the white space padding it was given |
| TaskService.BlankTitleRejected | backend/src/services/taskService.js:44-46 | an all-white-space title is refused with 400, whatever the other fields hold |
| TaskService.PatchCanReassignOwner | backend/src/services/taskService.js:71-74 | an owner's patch naming another owner moves the task, and the former owner is refused with 403 from then on |
| TaskService.CreateInvisibleToOthers | backend/src/services/taskService.js:6 | a task one user creates never changes another user's list |
| TaskService.UpdateInvisibleToOthers | backend/src/services/taskService.js:6 | an update changes nothing another user lists, unless the patch hands the task to that user |
| TaskService.DeleteInvisibleToOthers | backend/src/services/taskService.js:6 | a delete changes nothing another user lists |
| TaskService.TaskStore.constructor | backend/src/models/Task.js:55 | the collection starts empty and consistent |
| TaskService.TaskStore.GetAllTasks | backend/src/services/taskService.js:5-27 | builds the filter, counts, computes the page count and skip, fetches the window; the answer is `ListTasks` |
| TaskService.TaskStore.GetTaskById | backend/src/services/taskService.js:29-41 | fetch, then the two checks; the answer is `TaskById` |
| TaskService.TaskStore.CreateTask | backend/src/services/taskService.js:43-58 | the answer is `CreateOutcome` with the next id; on success the task is appended and the next id advances, otherwise nothing changes; the invariant holds |
| TaskService.TaskStore.UpdateTask | backend/src/services/taskService.js:60-77 | the answer is `UpdateOutcome`; on success the task is replaced in place, otherwise nothing changes; the invariant holds |
| TaskService.TaskStore.DeleteTask | backend/src/services/taskService.js:79-93 | the answer is `DeleteOutcome`; on success exactly that task is removed, otherwise nothing changes; the invariant holds |
| TaskController.ErrorResponse | backend/src/controllers/taskController.js:8-10 | the thrown status when non-zero, otherwise 500; the thrown message, or "Server Error" |
| TaskController.GetAllTasks | backend/src/controllers/taskController.js:3-12 | the service is called without options, so the route always answers 500 with the TypeError's message |
| TaskController.GetTaskById | backend/src/controllers/taskController.js:14-23 | 200 with the task exactly when the service succeeds, otherwise 404 or 403 with the service's message |
| TaskController.CreateTask | backend/src/controllers/taskController.js:25-34 | 201 with the task exactly when creation succeeds; 400 for a missing title; otherwise 500 |
| TaskController.UpdateTask | backend/src/controllers/taskController.js:36-49 | 200 with the task exactly when the update succeeds; 404, 403; 500 exactly when the patch is inadmissible |
| TaskController.DeleteTask | backend/src/controllers/taskController.js:51-60 | only 200, 403 or 404; 200 with the acknowledgement exactly when the caller owns the task; 404 exactly when it is absent |
| UserSchema.NormalizeEmail | backend/src/models/User.js:18-19 | the stored email has no padding and no upper-case letter, and is no longer than the input |
| UserSchema.NormalizeEmailAbsorbs | backend/src/services/authService.js:13 | the setters are idempotent, and the service's own `toLowerCase()` before a query changes nothing |
| UserSchema.FirstFrom | backend/src/models/User.js:20 | the first position at or after `k` holding the character, or none |
| UserSchema.LastBefore | backend/src/models/User.js:20 | the last position before `k` holding the character, or none |
| UserSchema.MatchesEmailFormat | backend/src/models/User.js:20 | the decision procedure accepts exactly the strings matching `^\S+@\S+\.\S+$` |
| UserSchema.NameViolations | backend/src/models/User.js:8-13 | the name is rejected exactly when empty or longer than 50 UTF-16 code units |
| UserSchema.EmailViolations | backend/src/models/User.js:14-21 | the email is rejected exactly when it does not match the pattern |
| UserSchema.PasswordViolations | backend/src/models/User.js:22-26 | the password is rejected exactly when shorter than 6 UTF-16 code units |
| UserSchema.AstralPasswordLongEnough | backend/src/models/User.js:25 | three characters outside the Basic Multilingual Plane have length 6 and make an acceptable password |
| UserSchema.StagedViolations | backend/src/models/User.js:6-31 | `save` reports nothing exactly when every modified path passes its validators |
| UserSchema.Built | backend/src/services/authService.js:18 | `User.create` runs the setters, and every path counts as modified |
| UserSchema.AssignName | backend/src/services/authService.js:66 | the name is set through its setter, and the path is marked modified only when the value changes |
| UserSchema.AssignEmail | backend/src/services/authService.js:67 | the email is set through its setters, and the path is marked modified only when the value changes |
| UserSchema.AssignPassword | backend/src/services/authService.js:68 | the password is set, and the path is marked modified only when the value changes |
| UserSchema.PreSave | backend/src/models/User.js:33-40 | the password is replaced by its hash exactly when it was modified; nothing else changes |
| UserSchema.SaveOutcome | backend/src/models/User.js:33-40 | a save succeeds exactly when the modified paths validate, and then yields the hooked document; a rejection carries no status |
| UserSchema.UnmodifiedPasswordKeepsHash | backend/src/models/User.js:34-36 | a save that did not modify the password keeps the stored hash |
| UserSchema.MatchRegisteredPassword | backend/src/models/User.js:42-44 | with a sound library, a newly saved user's password matches its stored hash |
| UserSchema.UserDocument.Load | backend/src/services/authService.js:53 | a document read from the collection holds the user, and no path is modified |
| UserSchema.UserDocument.Build | backend/src/services/authService.js:18 | the built document is `Built` of the given values |
| UserSchema.UserDocument.SetName | backend/src/services/authService.js:66 | the document's new state is `AssignName` of its old state |
| UserSchema.UserDocument.SetEmail | backend/src/services/authService.js:67 | the document's new state is `AssignEmail` of its old state |
| UserSchema.UserDocument.SetPassword | backend/src/services/authService.js:68 | the document's new state is `AssignPassword` of its old state |
| UserSchema.UserDocument.HashIfModified | backend/src/models/User.js:33-40 | the hook replaces the password with its hash only when modified |
| UserSchema.UserDocument.Save | backend/src/models/User.js:33-40 | the answer is `SaveOutcome`. On success the document holds the saved user and no path counts as modified; a rejected document is left as it was |
| UserSchema.FindUserById | backend/src/middleware/authMiddleware.js:17 | `findById` returns a stored user with that id, or nothing exactly when no user has it |
| UserSchema.FindUserByEmail | backend/src/services/authService.js:13 | `findOne({ email })` casts the key through the setters and returns a user with that normalised email, or nothing exactly when none has it |
| AuthService.CreateAuthToken | backend/src/services/authService.js:4-10 | the token's payload is the user id; it lives "30d" |
| AuthService.PayloadOf | backend/src/services/authService.js:24-29 | `{ _id, name, email, token }` of the user, the token naming the user |
| AuthService.AppendKeepsConsistent | backend/src/services/authService.js:18 | adding a validated user with the next id and an unused email keeps the collection invariant |
| AuthService.ReplaceKeepsConsistent | backend/src/services/authService.js:70 | writing a validated user over its own position, with an email no other user has, keeps the invariant |
| AuthService.FindUserByEmailUnique | backend/src/services/authService.js:33 | with distinct emails, the lookup returns the one user with that email |
| AuthService.FindUserByIdUnique | backend/src/services/authService.js:53 | with distinct ids, the lookup returns the one user with that id |
| AuthService.LookupKeyIsNormalized | backend/src/services/authService.js:13 | the lookup on `email.toLowerCase()` finds nothing exactly when no user has the normalised email |
| AuthService.RegisterOutcome | backend/src/services/authService.js:12-30 | an email in use (in any case or padding) fails with 400. Registration succeeds exactly when the email is unused and name, email and password validate. The new user holds the trimmed name, the normalised email and the hashed password. A validation failure carries no status |
| AuthService.RegisteredUserStored | backend/src/services/authService.js:18 | a registered user meets every schema guarantee |
| AuthService.RegisterKeepsConsistent | backend/src/services/authService.js:12-30 | registration keeps the collection invariant, distinct emails included |
| AuthService.LoginOutcome | backend/src/services/authService.js:32-50 | an unknown email fails with 401 "No account found…". Otherwise the login succeeds exactly when the password matches the found user's hash, and names that user; a wrong password fails with 401 "Incorrect password…" |
| AuthService.LoginIgnoresEmailSpelling | backend/src/services/authService.js:33 | login does not depend on the case or padding of the typed email |
| AuthService.FindUserByEmailSameKey | backend/src/services/authService.js:33 | two keys that normalise the same find the same user |
| AuthService.RegisterThenLogin | backend/src/services/authService.js:12-50 | with a sound library, registering and then logging in with the same password under any equivalent spelling succeeds for the new user |
| AuthService.RegisterTwiceRejected | backend/src/services/authService.js:13-16 | a second registration with an equivalent email fails with 400 |
| AuthService.StagedProfile | backend/src/services/authService.js:66-68 | each truthy field is assigned through its setter, and each path is modified exactly when its value changes |
| AuthService.ProfileOutcome | backend/src/services/authService.js:52-78 | 404 exactly when the user is absent; 400 when a different email is already taken. Otherwise the update succeeds exactly when the modified paths of the staged document validate, and a validation failure carries no status. On success the id is kept, the name and email follow the truthy changes, and the password is re-hashed only when it is given and different |
| AuthService.ProfiledUserStored | backend/src/services/authService.js:70 | an updated user still meets every schema guarantee |
| AuthService.ProfiledEmailFree | backend/src/services/authService.js:59-64 | after a successful update no other user has the new email |
| AuthService.ProfileKeepsConsistent | backend/src/services/authService.js:52-78 | a profile update keeps the collection invariant, so no two users ever share an email |
| AuthService.EmptyProfileUpdateChangesNothing | backend/src/services/authService.js:66-70 | an update whose fields are all absent or empty leaves the user exactly as stored |
| AuthService.PaddedEmailNormalizes | backend/src/models/User.js:18-19 | a stored email with a blank in front is different as typed yet normalises to itself |
| AuthService.OwnPaddedEmailClashes | backend/src/services/authService.js:59-64 | one's own email with a blank in front differs from the stored email as typed, yet its lower-cased lookup finds the user |
| AuthService.OwnPaddedEmailRejected | backend/src/services/authService.js:59-64 | re-submitting one's own email with a leading blank is refused as taken, since the comparison precedes the setters and the lookup finds the user themself |
| AuthService.Answer | backend/src/services/authService.js:72-77 | success yields the user's payload; failure passes the error through |
| AuthService.LoadWithChanges | backend/src/services/authService.js:53-68 | the loaded and assigned document's state is `StagedProfile` |
| AuthService.SaveWithChanges | backend/src/services/authService.js:53-70 | load, assign and save yield `SaveOutcome` of the staged document |
| AuthService.ComputeRegistration | backend/src/services/authService.js:13-18 | the duplicate check, build and save yield `RegisterOutcome` |
| AuthService.ComputeProfileUpdate | backend/src/services/authService.js:53-70 | the lookup, clash check and save yield `ProfileOutcome` |
| AuthService.AuthStore.constructor | backend/src/models/User.js:46 | the collection starts empty and consistent |
| AuthService.AuthStore.RegisterUser | backend/src/services/authService.js:12-30 | the answer is `RegisterOutcome` turned into a payload. On success the user is appended under the next id and the next id advances, otherwise nothing changes; the invariant holds |
| AuthService.AuthStore.Insert | backend/src/services/authService.js:18 | a validated user with the next id and an unused email is appended, and the invariant holds |
| AuthService.AuthStore.LoginUser | backend/src/services/authService.js:32-50 | the answer is `LoginOutcome` |
| AuthService.AuthStore.UpdateProfile | backend/src/services/authService.js:52-78 | the answer is `ProfileOutcome` turned into a payload. On success the user is replaced in place, otherwise nothing changes; the invariant holds |
| AuthController.ErrorResponse | backend/src/controllers/authController.js:15-18 | the thrown status when non-zero, otherwise 500; the thrown message when there is one |
| AuthController.RegisterUser | backend/src/controllers/authController.js:3-20 | 400 when a field is falsy. 201 with the payload exactly when registration succeeds; 400 with the duplicate message for an email in use; 500 for any other failure |
| AuthController.LoginUser | backend/src/controllers/authController.js:22-39 | 400 when a field is falsy. 200 with the payload exactly when login succeeds; every failure is a 401, with the unknown-email message for an unknown email |
| AuthController.RegisterThenLoginResponses | backend/src/controllers/authController.js:3-39 | a 201 registration followed by a login with the same email and password answers 200 with the same body |
| AuthGuard.PrincipalOf | backend/src/middleware/authMiddleware.js:17 | `select("-password")` keeps the id, name and email |
| AuthGuard.BearerToken | backend/src/middleware/authMiddleware.js:15 | `split(" ")[1]` is space-free, and absent exactly when the header has no space |
| AuthGuard.BearerTokenIsSecondPiece | backend/src/middleware/authMiddleware.js:15 | the extracted token is the word after the first space |
| AuthGuard.Verified | backend/src/middleware/authMiddleware.js:16 | a missing or empty token fails verification; otherwise the verifier decides |
| AuthGuard.Guard | backend/src/middleware/authMiddleware.js:4-34 | a missing or non-"Bearer" header is refused as token missing, a token that fails verification as verification failed, and claims without a stored user as account not found. Every refusal is a 401 with `success: false`. A request is admitted exactly when all three checks pass, as the stored user the claims name |
| AuthGuard.SignedTokenAdmits | backend/src/middleware/authMiddleware.js:15-27 | `Bearer <t>` whose token verifies to a stored user's id admits exactly that user |
| AuthGuard.SchemeIsCaseSensitivePrefix | backend/src/middleware/authMiddleware.js:7 | "bearer" is refused, while any word beginning with "Bearer" passes the scheme test |
| AuthGuard.Request.constructor | backend/src/middleware/authMiddleware.js:5 | a fresh request has its header, no user, no reply and no `next()` call |
| AuthGuard.Request.Protect | backend/src/middleware/authMiddleware.js:4-34 | on admission `req.user` is set and `next()` is called once, with no reply. Otherwise the 401 reply is sent and the user and `next` are untouched |
| TaskTable.Range | frontend/src/components/TaskTable.jsx:30-36 | the buttons `lo..hi`, one per page, in order |
| TaskTable.ComputePageSeq | frontend/src/components/TaskTable.jsx:27-41 | the loops push exactly the reference sequence `PageSeq` |
| TaskTable.FewPagesAllShown | frontend/src/components/TaskTable.jsx:29-30 | with at most five pages every page has a button, in order, with no "..." |
| TaskTable.LongLayout | frontend/src/components/TaskTable.jsx:31-39 | a long pager is the first page, an optional "...", the neighbours, an optional "...", the last page |
| TaskTable.LongParts | frontend/src/components/TaskTable.jsx:31-39 | a long pager is the concatenation of those parts |
| TaskTable.LongLayoutMiddle | frontend/src/components/TaskTable.jsx:32-38 | where the ends and the neighbours of a long pager sit |
| TaskTable.LongLayoutGaps | frontend/src/components/TaskTable.jsx:33-37 | where the "..." markers of a long pager sit |
| TaskTable.LongPagerEnds | frontend/src/components/TaskTable.jsx:32-38 | a long pager starts with page 1 and ends with the last page |
| TaskTable.LongPagerMiddle | frontend/src/components/TaskTable.jsx:34-36 | a long pager shows exactly pages `max(2, cp-1)..min(pc-1, cp+1)` after the leading part |
| TaskTable.GapCount | frontend/src/components/TaskTable.jsx:33-37 | there is one "..." for `cp > 3` plus one for `cp < pc - 2` |
| TaskTable.GapPositions | frontend/src/components/TaskTable.jsx:33-37 | the second entry is "..." exactly when `cp > 3`, the second to last exactly when `cp < pc - 2` |
| TaskTable.LongNumberPositions | frontend/src/components/TaskTable.jsx:31-39 | each page number of a long pager is fixed by its position |
| TaskTable.PagerLength | frontend/src/components/TaskTable.jsx:27-41 | for a current page in range the pager has at most seven entries |
| TaskTable.PagerAscending | frontend/src/components/TaskTable.jsx:27-41 | the page numbers ascend strictly and lie within `1..pageCount` |
| TaskTable.PagerShowsCurrentPage | frontend/src/components/TaskTable.jsx:27-41 | the current page always has a button |
| TaskTable.GapsSkipPages | frontend/src/components/TaskTable.jsx:33-37 | each "..." stands between two page numbers that skip at least one page |
| TaskTable.MenuAfterClick | frontend/src/components/TaskTable.jsx:86-88 | clicking the open menu closes it; clicking another opens that one |
| TaskTable.MenuClickTwice | frontend/src/components/TaskTable.jsx:86-88 | two clicks on the same menu leave it closed, unless it started open on that task |
| TaskTable.MenuState.constructor | frontend/src/components/TaskTable.jsx:16 | no menu is open at first |
| TaskTable.MenuState.HandleMenuClick | frontend/src/components/TaskTable.jsx:86-88 | the new state is `MenuAfterClick` |
| TaskTable.MenuState.CloseMenu | frontend/src/components/TaskTable.jsx:126 | each menu action closes the menu |
| TaskTable.EmptyStateOnlyWithoutTasks | frontend/src/components/TaskTable.jsx:18 | the empty state never hides loaded tasks; an empty page of a non-empty listing shows the table; missing items show the empty state |
| TaskTable.ArrowsStayInRange | frontend/src/components/TaskTable.jsx:157-189 | with the pager shown, an enabled arrow moves to a page in range, and at least one arrow is enabled |
| Dashboard.FlipStatus | frontend/src/pages/DashboardPage.jsx:125-126 | pending becomes completed, anything else pending |
| Dashboard.FlipTwice | frontend/src/pages/DashboardPage.jsx:125-126 | flipping twice restores the status exactly when it is one of the two |
| Dashboard.Filtered | frontend/src/pages/DashboardPage.jsx:143-147 | the filtered list is no longer than the collection |
| Dashboard.KeptIndices | frontend/src/pages/DashboardPage.jsx:143-147 | the kept positions are positions of the collection |
| Dashboard.KeptIndicesPick | frontend/src/pages/DashboardPage.jsx:143-147 | the kept positions pick out the shown items one for one |
| Dashboard.EmptyTermShowsAll | frontend/src/pages/DashboardPage.jsx:143-148 | an empty term shows the whole collection |
| Dashboard.FilteredMembers | frontend/src/pages/DashboardPage.jsx:144-146 | an item is kept exactly when it is loaded and its title or non-empty description contains the term, case-insensitively |
| Dashboard.ShownIffMatches | frontend/src/pages/DashboardPage.jsx:143-148 | with a non-empty term, shown exactly when loaded and matching |
| Dashboard.KeptIndicesStep | frontend/src/pages/DashboardPage.jsx:144 | the kept positions of a longer list extend those of its prefix |
| Dashboard.KeptIndicesAscend | frontend/src/pages/DashboardPage.jsx:144 | the shown list keeps the collection's order |
| Dashboard.KeptIndicesComplete | frontend/src/pages/DashboardPage.jsx:144-146 | no matching item is left out |
| Dashboard.RenderedListIsSubsequence | frontend/src/pages/DashboardPage.jsx:143-148 | the shown list is the order-preserving subsequence of exactly the matching items |
| Dashboard.LoadParams | frontend/src/pages/DashboardPage.jsx:66-67 | the request asks for the current page with limit 4, and a status exactly when the tab is not "all" |
| Dashboard.NumberOr | frontend/src/pages/DashboardPage.jsx:78-80 | `n \|\| fallback` on a number: 0 and absent give the fallback |
| Dashboard.CollectionOf | frontend/src/pages/DashboardPage.jsx:72-76 | an array payload is the collection; otherwise `tasks \|\| []` |
| Dashboard.PagerOf | frontend/src/pages/DashboardPage.jsx:72-81 | an array payload resets the pager to page 1 of 1 with its length; otherwise page, pages and total with their fallbacks |
| Dashboard.ExtCount | frontend/src/pages/DashboardPage.jsx:51 | the length of an array payload, otherwise `total \|\| 0` |
| Dashboard.ExtCountIsPagerTotal | frontend/src/pages/DashboardPage.jsx:51-81 | the stats cards and the pager count a response alike |
| Dashboard.PageAfterDelete | frontend/src/pages/DashboardPage.jsx:114-118 | one page back when the deleted task was the only one loaded on a page after the first, otherwise the same page |
| Dashboard.PageAfterDeleteStaysValid | frontend/src/pages/DashboardPage.jsx:114-118 | stepping back never goes below page 1 or beyond the current page |
| Dashboard.DashboardState.constructor | frontend/src/pages/DashboardPage.jsx:15-25 | an empty collection, the "all" tab, no term, page 1 of 1 |
| Dashboard.DashboardState.LoadCollection | frontend/src/pages/DashboardPage.jsx:63-88 | a response sets the collection and pager by `CollectionOf`/`PagerOf`; a failed request changes nothing |
| Dashboard.DashboardState.SelectTab | frontend/src/pages/DashboardPage.jsx:200 | a tab click sets the tab and returns to page 1, keeping the rest |
| Dashboard.DashboardState.ChangePage | frontend/src/pages/DashboardPage.jsx:222 | a page change sets only the current page |
| Dashboard.DashboardState.SetQuery | frontend/src/pages/DashboardPage.jsx:176 | typing sets only the search term |
| Dashboard.DashboardState.AfterDelete | frontend/src/pages/DashboardPage.jsx:111-123 | the pager moves to `PageAfterDelete`; a reload is requested directly exactly when the page did not change |
| TaskForm.FormFor | frontend/src/components/TaskModal.jsx:16-28 | an edited record's values with the defaults `""` and `"low"`, and the date cut to ten characters; otherwise the initial form |
| TaskForm.UpdateField | frontend/src/components/TaskModal.jsx:30-32 | only the named field changes |
| TaskForm.AsNewTask | frontend/src/components/TaskModal.jsx:34-37 | the form is sent unchanged as a create body |
| TaskForm.AsPatch | frontend/src/components/TaskModal.jsx:34-37 | the form is sent unchanged as an update body, without an owner |
| TaskForm.UntouchedFormRejected | frontend/src/components/TaskModal.jsx:6-12 | the untouched new-task form cannot be submitted (its `required` title input is empty), and the server refuses its body with 400 "Task title cannot be empty" |
| TaskForm.BlankTitleSubmittedAndRejected | frontend/src/components/TaskModal.jsx:65-69 | a title of white space only passes `required`, so the form is submitted, and the server refuses it with 400 "Task title cannot be empty" |
| TaskForm.TitleOnlyFormDefaults | frontend/src/components/TaskModal.jsx:6-37 | a form with only a (non-empty) title can be submitted and creates a pending, low-priority task with an empty description, no due date and the trimmed title |
| TaskForm.RecordOf | frontend/src/components/TaskModal.jsx:17-24 | a stored task as the dialog receives it |
| TaskForm.EditResubmitIsIdentity | frontend/src/components/TaskModal.jsx:16-37 | opening a stored task for editing and saving it unchanged leaves it as it was |
| ProfileForm.Prefill | frontend/src/components/SettingsModal.jsx:9-14 | name and email from the user (or `""`), the password always empty |
| ProfileForm.UpdateProp | frontend/src/components/SettingsModal.jsx:16-18 | only the named input changes |
| ProfileForm.PayloadFor | frontend/src/components/SettingsModal.jsx:25-28 | name and email always; the password, untrimmed, exactly when it is not blank |
| ProfileForm.BuildPayload | frontend/src/components/SettingsModal.jsx:25-28 | the body built in place is `PayloadFor` |
| ProfileForm.BlankPasswordKeepsHash | frontend/src/components/SettingsModal.jsx:26-28 | a blank password is not sent, so a successful save keeps the stored hash |
| ProfileForm.UnchangedSettingsSaveIsIdentity | frontend/src/components/SettingsModal.jsx:9-28 | saving the prefilled dialog unedited leaves the stored user exactly as it was |
| ProfileForm.SettingsDialog.constructor | frontend/src/components/SettingsModal.jsx:5-7 | empty inputs and no feedback |
| ProfileForm.SettingsDialog.Open | frontend/src/components/SettingsModal.jsx:9-14 | with a user the inputs are prefilled and the feedback cleared; without one nothing changes |
| ProfileForm.SettingsDialog.Edit | frontend/src/components/SettingsModal.jsx:16-18 | the inputs become `UpdateProp` of the old inputs |
| ProfileForm.SettingsDialog.Settle | frontend/src/components/SettingsModal.jsx:36-41 | success shows the saved message and clears only the password; failure shows the server's message or the fallback and keeps the inputs |

## Left out

- I/O is outside the model: HTTP transport and the database driver, `localStorage`, the
  axios client and its interceptor, navigation, and React rendering. Time is left out too:
  `createdAt`/`updatedAt`, `Date.now` and the clock in `calculateDueText`. Concurrency is
  left out. Each operation runs to completion against a collection confined to one value,
  so the race the read-modify-write checks allow is not modelled.
- `calculateDueText` and `parseDateUI` (the day difference and locale date formatting) are
  not modelled. They depend on the clock, the time zone and `Date` arithmetic in floating
  point.
- Presentational components and styling are not modelled: `renderPriority`,
  `renderStatus`, the sidebar, the stats cards and the login/signup pages.
- `PUT /api/auth/profile` is wired in `backend/src/routes/authRoutes.js:10` to
  `authController.updateProfile`, which the controller does not export. The HTTP layer of
  the profile update is therefore not modelled; the service operation
  (`AuthService.ProfileOutcome`) and the client dialog are.
- The `!newUser` branch of `registerUser` (authService.js:20-22) is not modelled:
  `User.create` either returns the document or throws.
- The unique index on `email` is not modelled as a separate failure. Sequentially, the
  service's lookup always precedes the insert, and the collection invariant proves emails
  stay distinct.
- bcrypt (`genSalt`, `hash`, `compare` with 12 rounds) is a pair of uninterpreted
  functions plus a salt parameter. `jwt.sign` is a symbolic token. `jwt.verify` is a
  parameter, so the secret, the signature and the 30-day expiry are outside the model.
- `Text.ToLower`: only ASCII letters are mapped; JavaScript's full Unicode case mapping is
  not modelled.
- `TaskService.ListTasks`: `limit` is a positive integer. A limit of 0 (division by zero,
  giving `Infinity`/`NaN` in JavaScript), non-numeric query strings and fractional values
  are not modelled.
- `TaskService.ListTasks`: page 0 yields a negative skip, which the database rejects. The
  model keeps that rejection (no status, so the controller sends 500), but the driver's
  exact message is a stand-in.
- Values of the wrong JSON type are not modelled: each request field is either absent or
  a string. A number or an object in a string field, and the resulting `CastError`s
  (e.g. a malformed id), are left out; ids are opaque values.
- `TaskSchema.CastDate`: a due date is an opaque string. The Date cast of a non-empty
  string (including invalid dates) and the ISO re-serialisation the client sees are not
  modelled.
- `TaskForm.EditResubmitIsIdentity` holds only for due dates of at most ten characters.
  A real stored Date comes back as a longer ISO string, which the form cuts to
  `YYYY-MM-DD`, so the identity holds up to that cut.
- The Mongoose ValidationError's message is modelled as "path: message" pairs joined by
  commas. Mongoose's exact ordering of paths within that message is not asserted.
- `AuthService.LoginOutcome` keeps the two distinct 401 messages the code sends, one for an
  unknown email and one for a wrong password. The update query accepts `createdBy` in the
  patch, so an owner can hand a task to someone else (`TaskService.PatchCanReassignOwner`).
  The list controller omits the service's options object, so `TaskController.GetAllTasks`
  always answers 500.
- The settings dialog's HTML constraint validation is not modelled: the `required` name and
  email inputs and the `type="email"` check (SettingsModal.jsx:76-94). The lemmas about the
  dialog concern the body it sends; the server's validators decide what is stored.

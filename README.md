# todo service: a verified model of its authentication and task core

The todo service is a small Go web service. Users sign up and sign in, and
get a JSON Web Token. With that token they manage their own to-do tasks over
HTTP. This project models the core of the service in Dafny and proves the
properties its code promises:

- **Request validation** (`pkg/types.go`). `TodoRequest.IsZero`,
  `TodoRequest.Validate` (it lower-cases the category and the priority in
  place, between its checks) and `User.Validate`.
- **SQL statement builders** (`internal/db/todo.go`). The text and the
  parameter list of each of the five statements of the task store. Each
  builder is proved equal to the rendering of a structured query. The proofs
  show that:
  - placeholders and parameters always match in number;
  - clauses come in the fixed column order;
  - every statement is confined to its user's rows.
- **Authentication** (`internal/service_echo/auth.go`).
  - The claims of an issued token, and sign-up and sign-in.
  - The `IsAuthorized` filter, proved against a pure decision function
    (`Authorize`).
  - Round-trip lemmas: a password that signed up signs in, and a token that
    sign-in issued is admitted by the filter.
- **Protected handlers** (`internal/service_echo/todo.go`).
  - `getID` is a base-10 `int64` parse.
  - The five task handlers run their guards in a fixed order and then make at
    most one store call. That call is for the user of the security context.

Modules, one per file:

- `Wrappers`: Option and Result.
- `Strings`: `HasPrefix`, `Trim`, ASCII `ToLower`, `Join`, and a count of `?`
  placeholders.
- `Strconv`: `ParseInt`/`FormatInt`, base 10, 64 bits.
- `Types`: `pkg/types.go`.
- `Http`: status codes, errors, replies, and the request context.
- `TodoDb`: `internal/db/todo.go`.
- `UserDb`: the user directory of `internal/db/user.go`.
- `Auth`: `internal/service_echo/auth.go`.
- `TodoHandlers`: `internal/service_echo/todo.go`.

How outside effects are modelled:

- **Cryptography.** bcrypt and the JWT library are function-valued fields of
  `Auth.Crypto`. `Auth.Sound` names the library promises that only the
  end-to-end lemmas assume.
- **The database.** The task store keeps the sequence of statements it sent.
  The database's answers are functions of the earlier statements and the
  current one. The `user` table is seen through its two lookups by e-mail, kept in step
  by `UserDb.UserStore.Valid`.
- **The clock.** `time.Now()` is passed in as a `now` parameter.
- **Request input.** The outcome of binding a request body is passed in as a
  parameter.

## Model

| member | source | states |
|---|---|---|
| Types.TodoRequest.IsZero | pkg/types.go:26-31 | the request is the zero request exactly when task, priority and category are all empty and done is false |
| Types.Validated | pkg/types.go:33-56 | The result of Validate, stated outright. Task and done are never touched. An empty task is refused first, with nothing lower-cased. The category is lower-cased in place. The priority is lower-cased only if the category was accepted. The error messages quote the values as sent. The request is accepted exactly when the task is set and both lower-cased values are in the fixed sets. |
| Types.TodoRequest.Validate | pkg/types.go:33-56 | the in-place method returns the error and leaves the field values that `Validated` gives for the old field values |
| Types.ValidateIdempotent | pkg/types.go:38-55 | a request that passed validation passes again and is left unchanged |
| Types.CategoryCaseInsensitive | pkg/types.go:38-45 | a category lower-cases to "work" or "home" exactly when it has that word's length and each of its characters is that word's letter or the letter's upper-case form, in any mix |
| Types.User.Validate | pkg/types.go:66-73 | a user is refused, with the fixed message, exactly when its e-mail, username or password is empty |
| Strings.LowerIdempotent | pkg/types.go:39 | lower-casing twice is lower-casing once |
| Strings.TrimPadded | internal/service_echo/auth.go:116 | Trim with the cutset " " removes any number of spaces around a text that neither starts nor ends with a space |
| Strconv.ParseInt64 | internal/service_echo/todo.go:13 | base-10 64-bit ParseInt succeeds exactly on an optionally signed, non-empty run of decimal digits whose value fits in int64, and yields that value |
| Strconv.FormatParseRoundTrip | internal/service_echo/todo.go:13 | parsing the decimal form of any int64 gives it back |
| TodoDb.RenderPlaceholders | internal/db/todo.go:61-146 | every statement of the store has exactly as many `?` placeholders as parameters |
| TodoDb.CreateTodoStatement | internal/db/todo.go:61-77 | the text and parameters CreateTodo builds by conditional appends are the rendering of the INSERT with the clauses of `CreateClauses`, and the placeholders match the parameters |
| TodoDb.InsertStartText | internal/db/todo.go:63 | the opening text of the INSERT, spelled from column names, is the source's text |
| TodoDb.CreateClausesMembers | internal/db/todo.go:63-75 | the INSERT always starts with the owner and the task, then has exactly the category and priority clauses whose values are non-empty |
| TodoDb.CreateClausesOrdered | internal/db/todo.go:67-75 | the INSERT's clauses follow the fixed column order, the category before the priority |
| TodoDb.UpdateAssignments | internal/db/todo.go:111-137 | the SET list and values UpdateTodo appends are the assignments and values of `UpdateClauses` |
| TodoDb.UpdateClausesMembers | internal/db/todo.go:116-137 | The SET list has exactly the supplied candidates, and never assigns the owner or the id column. A text column is supplied when its value is non-empty. `done = 1` and `completed_at = now` are supplied exactly when done is set. |
| TodoDb.UpdateClausesOrdered | internal/db/todo.go:116-137 | the SET list follows the fixed column order: task, category, priority, done, completed_at |
| TodoDb.UpdateEmptyIffZero | internal/db/todo.go:112-140 | the SET list is empty exactly for the zero request, which would render as the malformed `UPDATE todo SET  WHERE ...` |
| TodoDb.UpdateTodoStatement | internal/db/todo.go:139-140 | UpdateTodo's statement is the rendering of the UPDATE whose WHERE part is the id and then the owner, with todoID and userID as the last two parameters; the placeholders match the parameters |
| TodoDb.UpdateTailText | internal/db/todo.go:140 | the WHERE part of the UPDATE, spelled from column names, is the source's text |
| TodoDb.ListTodosStatement | internal/db/todo.go:28-33 | ListTodos's statement is the rendering of the SELECT on the owner, with ` AND NOT done` exactly when not all tasks are asked for |
| TodoDb.GetTodoStatement | internal/db/todo.go:82-84 | GetTodo's statement is the rendering of the SELECT on owner and id, with userID then todoID as parameters |
| TodoDb.DeleteTodoStatement | internal/db/todo.go:145 | DeleteTodo's statement is the rendering of the DELETE on owner and id, with userID then todoID as parameters |
| TodoDb.SelectColumnsText | internal/db/todo.go:28 | the column list of the SELECTs is the source's |
| TodoDb.SelectTexts | internal/db/todo.go:28 | the SELECT texts of ListTodos and GetTodo, spelled from column names, are the source's |
| TodoDb.DeleteText | internal/db/todo.go:145 | the DELETE text, spelled from column names, is the source's |
| TodoDb.QueriesOwned | internal/db/todo.go:27-147 | every statement is confined to its user: the INSERT writes the user as owner; the SELECTs, the UPDATE and the DELETE filter on the user; the UPDATE never reassigns the owner; get, update and delete also filter on the task id |
| TodoDb.FirstRow | internal/db/todo.go:93-107 | GetTodo yields the first row when there is one, none for no rows, and the database's error when the query fails |
| TodoDb.TodoStore.ListTodos | internal/db/todo.go:27-59 | sends the ListTodos statement, appending it to the statements sent, and returns the database's rows for it |
| TodoDb.TodoStore.GetTodo | internal/db/todo.go:81-108 | sends the GetTodo statement and returns the first row of the answer, if any |
| TodoDb.TodoStore.CreateTodo | internal/db/todo.go:61-79 | sends the CreateTodo statement of the request and returns the database's error |
| TodoDb.TodoStore.UpdateTodo | internal/db/todo.go:110-142 | sends the UpdateTodo statement of the request at the given clock reading and returns the database's error |
| TodoDb.TodoStore.DeleteTodo | internal/db/todo.go:144-147 | sends the DeleteTodo statement and returns the database's error |
| UserDb.UserStore.GetUser | internal/db/user.go:30-42 | a stored user is found under its e-mail; a missing one is the plain error "no such user: <email>" |
| UserDb.UserStore.GetUserID | internal/db/user.go:44-56 | a known e-mail yields its id; an unknown one is a 404 "no such user: <email>" |
| UserDb.UserStore.CreateUser | internal/db/user.go:25-28 | unless the database refuses the INSERT, a new e-mail then finds the stored user and the id the database assigned, and an e-mail already present keeps its earlier row; the ids of other e-mails are kept, and the two lookups keep agreeing on which e-mails exist (`Valid`) |
| Auth.TokenLifetime | internal/service_echo/auth.go:83-92 | the claims name the e-mail, are issued now and expire 24 * 3600 = 86400 seconds later, the `expires_in` sign-in reports |
| Auth.SignUpRecord | internal/service_echo/auth.go:21-37 | A bind failure or an invalid user is a 400 with its message, before any hashing. A hashing failure is returned as that error unchanged. Otherwise the record to persist is the request with its password replaced by the password's hash. |
| Auth.SignUp | internal/service_echo/auth.go:21-43 | nothing is stored unless bind, validation and hashing succeed; then the hashed record is inserted, and on success the reply is the success message and the new e-mail resolves both to its user and to an id (so `IsAuthorized` can find it), otherwise the store's error is returned |
| Auth.SignIn | internal/service_echo/auth.go:45-69 | A bind failure is a 400. A lookup error is passed up unchanged. A password that does not match the stored hash is exactly a 400 carrying the message "incorrect password". A matching password gets the token signed for the stored e-mail, with an empty type and `expires_in` of a day, or the signing error unchanged. Success happens only in that case. |
| Auth.SignInAfterSignUp | internal/service_echo/auth.go:33-68 | a user stored by sign-up signs in with the same password and gets the token of its e-mail (given that a password matches its own hash) |
| Auth.AdmitIff | internal/service_echo/auth.go:102-146 | a request is admitted exactly when the header starts with "Bearer", the trimmed token parses as valid, and its e-mail has an id; the security context is then that e-mail and that id |
| Auth.RejectStatuses | internal/service_echo/auth.go:111-141 | no "Bearer" prefix, `ErrSignatureInvalid` and a parsed but invalid token are 401s; any other parse error is a 400; a failed id lookup is passed up unchanged |
| Auth.BearerTokenPadded | internal/service_echo/auth.go:104-116 | the parser is handed the token whatever spaces surround it, and no space is needed after "Bearer" ("BearerX" is parsed as "X") |
| Auth.IsAuthorized | internal/service_echo/auth.go:102-146 | a refused request gets its error, with the security context unset and `next` not called; an admitted one has the security context set to the admitted e-mail and id before `next` runs, and `next`'s reply is returned unchanged |
| Auth.SignedInIsAuthorized | internal/service_echo/auth.go:63-144 | a token issued by sign-in, sent back as a bearer token while current, authenticates the user it was issued to: the signed-in e-mail has an id because both lookups read the same rows (given the libraries' promises in `Auth.Sound`) |
| TodoHandlers.GetID | internal/service_echo/todo.go:11-18 | the id parses exactly when it is a base-10 int64 literal, otherwise the error is "invalid id given <s>" |
| TodoHandlers.GetIDRoundTrip | internal/service_echo/todo.go:11-18 | the decimal form of any id is read back as that id |
| TodoHandlers.CreateTodo | internal/service_echo/todo.go:20-39 | a bind or validation failure is a 400 with no store call; otherwise the store receives the validated, lower-cased request for the context's user |
| TodoHandlers.GetTodo | internal/service_echo/todo.go:41-57 | a bad id is a 400 with no store call; otherwise the store is asked for that task of the context's user |
| TodoHandlers.ListTodos | internal/service_echo/todo.go:59-71 | the store lists the context's user's tasks, all of them exactly when the `all` parameter is "true" |
| TodoHandlers.UpdateTodo | internal/service_echo/todo.go:73-97 | the guards run in order: bad id, then bind failure, then a zero body (400 "empty body is not supported"), each with no store call; otherwise the store updates that task of the context's user |
| TodoHandlers.DeleteTodo | internal/service_echo/todo.go:99-114 | a bad id is a 400 with no store call; otherwise the store deletes that task of the context's user |

## Behaviour of the code worth knowing

- **Token prefix.** The scheme of section 2.1 of RFC 6750 is the word
  "Bearer", one or more spaces and the token, and section 2.1 of RFC 7235
  makes the scheme name case-insensitive. The code only checks that the
  header starts with "Bearer" exactly and trims spaces from the rest, so
  `BearerX` hands `X` to the parser while `bearer x` is refused with a 401
  (`Auth.BearerTokenPadded`, `Auth.RejectStatuses`).
- **Unknown user at sign-in.** `GetUser` returns a plain error for a missing
  row, which `signIn` passes up unchanged; only `GetUserID`, used by
  `IsAuthorized`, makes it a 404 (`UserDb.UserStore.GetUser`, `Auth.SignIn`).
- **Internal errors.** The handlers return hashing, signing and storage errors
  as they are (`Http.Raw`). What the client then sees is decided by Echo's
  error handler, which is not part of this model.
- **Status of a bad signature.** A parse error gives 401 only when it *is*
  `jwt.ErrSignatureInvalid`, and 400 for every other error, an expired token
  among them.
  - The JWT library is not part of this model.
  - If the library wraps its errors in a validation-error value, the
    comparison never holds, and a bad signature is a 400 as well.
  - The model keeps the parse outcome abstract (`Auth.ParseOutcome`) and does
    not say which outcome the library returns.
- **Token lifetime.** The constant is 24 * 3600 seconds, although its comment
  says "2 hours" (`Auth.TokenLifetime`).
- **No validation on update.** `updateTodo` does not validate the request, so
  an update may store any category or priority, in any case
  (`TodoHandlers.UpdateTodo`).

## Left out

- Strings.ToLower: Unicode case mapping is not modelled. Only the ASCII
  letters A-Z are lower-cased; every other character is kept. Go's
  `strings.ToLower` also maps U+212A (Kelvin sign) to `k` and U+0130 to `i`,
  so the code accepts the category "WOR" followed by U+212A and the priority
  "MED" + U+0130 + "UM", which the model refuses; `Types.Validated` and
  `Types.CategoryCaseInsensitive` are exact for ASCII text only.
- Auth.GenerateToken: `now + tokenExpirySec` is computed on unbounded
  integers. The int64 overflow of a clock within a day of the int64 limit is
  not modelled.
- Auth.Authorize: signature and expiry checking happen inside the JWT parser.
  They are part of the `parse` oracle, and the model does not say which
  outcome the parser returns for an expired token.
- Auth.Sound: the library promises it names are assumptions, used only by the
  round-trip lemmas.
  - Signing and parsing (RFC 7519 with HS256 of section 3.2 of RFC 7518) and
    bcrypt are not modelled.
  - `Auth.Crypto` functions stand for them. They are fixed per run, so the salt
    of bcrypt is part of the oracle.
- UserDb.UserStore.CreateUser: the id the database assigns is the
  `assignId` oracle. The schema is not part of this model: whether a second
  row with an e-mail already present is refused (`insertError`) or inserted
  is left to the oracle, and an inserted duplicate is modelled as both
  lookups still finding the earlier row. Database errors other than a
  missing row are not modelled.
- TodoDb.TodoStore: executing statements, scanning rows and `NullTime`
  handling are database I/O. The answers to statements are oracles that depend
  on the statements sent before.
- TodoDb.UpdateTodoStatement: the `time.Now().UTC()` reading is the `now`
  parameter, in Unix seconds.
- `TodoResponse` times are Unix seconds; the `CreatedAt`/`UpdatedAt` fields of
  `User` are not modelled.
- Echo plumbing is not modelled:
  - binding, JSON encoding and route registration;
  - the lookup of the service handle;
  - the type assertion that reads the security context (the handlers require
    that `IsAuthorized` set it);
  - the conversion of plain errors into 500 responses.
- `hashPassword` and `mkJwtToken` are represented by the `hash` and `sign`
  oracles.
- internal/service/ (a stale gorilla/mux variant that no longer compiles
  against the store interfaces), internal/db/db.go and main.go (connection
  and configuration set-up) are not part of this model.

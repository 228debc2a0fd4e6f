# WholesaleOS account store, route guard, signup and scrape handlers in Dafny

This project models four small pieces of logic from the WholesaleOS web application.

- **The account store** (`lib/db/users.ts`). The `users` and `user_preferences` tables are two
  maps keyed by user id, held in the class `Users.AccountStore` together with the serial
  counters that assign ids. The store creates users, looks them up, verifies passwords,
  renames users, changes passwords, updates preferences and deletes users.
  `updateUserPreferences` is modelled in two parts:
  - the builder of the partial `UPDATE` statement (`BuildAssignments`, `BuildUpdate`), which
    binds one positional `$k` placeholder per supplied field and the user id last;
  - the effect of running that statement on the table (`ExecuteUpdate`), which is proved to be
    exactly the partial update `ApplyPatch`.
- **The route guard** (`middleware.ts`). `Middleware.Guard` maps a path and whether the request
  has a session to one of: redirect to `/dashboard`, redirect to `/login`, or let it through.
- **The signup route** (`app/api/auth/signup/route.ts`). `Signup.Validate` models the zod
  schema. `Signup.ValidationResponse` gives the 400 answer for a body that fails it, and
  `Signup.CreationResponse` turns the outcome of `createUser` into a status and a JSON body. `Signup.Post` runs the whole handler against an `AccountStore`.
- **The scrape handler** (`api/python/scrape.py`). `Scrape.BuildScrapeParams` builds the keyword
  arguments for `scrape_property` with a loop over the whitelist. `Scrape.DoPost` picks the
  response: the missing-library, `ValueError` and other-error branches, and the success body.

The modules are:

| module | file |
|---|---|
| `Wrappers` | Wrappers.dfy |
| `Json` | Json.dfy |
| `Bcrypt` | Bcrypt.dfy |
| `Users` | Users.dfy |
| `Middleware` | Middleware.dfy |
| `Signup` | Signup.dfy |
| `Scrape` | Scrape.dfy |

Some outside inputs are parameters of the operations:
- the time `NOW()` stands for is `now`;
- the random salt bcrypt draws is `salt`;
- whether the request carries a session is `isAuthenticated`;
- zod's email-format check is `isEmail`;
- the result of `request.json()` / `json.loads` is `request` / `body`;
- the scraping library is `scrapeProperty`, which is `None` when the import failed.

Where the code goes further than a plain reading of its intent, the model follows the code:
- `createUser` stores `name || null`: an empty name is stored as NULL, just like an absent one.
  `updateUserName` stores the string as given.
- In `updateUserPreferences`, only `undefined` means "not supplied". An explicit `null` for a
  quiet-hours field is supplied and sets the column to NULL.
- In scrape.py, `past_hours` is 1 when the key is absent. An explicit `null` is passed through.
- In scrape.py, `json.loads` runs before the library check. Its `JSONDecodeError` is a
  `ValueError`, so a malformed body gets 400 even when the library is missing.
- In scrape.py, a body that is valid JSON but not an object makes `data.get` raise
  `AttributeError`, which gives 500.
- The signup password rule counts UTF-16 code units, as JavaScript's `length` does.

## Model

| member | source | states |
|---|---|---|
| `Bcrypt.Hash` | lib/db/users.ts:33 | a hash carries cost factor 10 and its salt, and the hashed password always compares equal to it |
| `Users.CreateUserError` | lib/db/users.ts:51-58 | SQLSTATE 23505 and only it gives "Email already exists"; every other code gives "Failed to create user" |
| `Users.StoredName` | lib/db/users.ts:38 | the stored name is NULL exactly when the name is absent or empty, and otherwise it is the given name |
| `Users.BuildAssignments` | lib/db/users.ts:204-225 | `updates` and `values` have equal length; the k-th entry sets the k-th supplied column, in the fixed order, to placeholder `$k`, and the k-th value is that field's value |
| `Users.BuildUpdate` | lib/db/users.ts:204-234 | no statement exactly when no field is supplied; otherwise the parameters are the values followed by the user id, which is bound at `$(n+1)` |
| `Users.SuppliedColumnsUnfold` | lib/db/users.ts:207-225 | the supplied columns, filtered from the fixed column order, are the four field tests in source order |
| `Users.SuppliedColumnsInOrder` | lib/db/users.ts:207-225 | a column is emitted if and only if its field is supplied, and the emitted columns are strictly ordered alert_threshold, email_alerts, quiet_hours_start, quiet_hours_end |
| `Users.SuppliedColumnsEmpty` | lib/db/users.ts:227-229 | the list of set entries is empty if and only if no field is supplied |
| `Users.DecimalRoundTrip` | lib/db/users.ts:208 | the decimal text printed for a placeholder number reads back as that number |
| `Users.AssignmentTextNamesPlaceholder` | lib/db/users.ts:207-225 | an entry's text `column = $k` begins with the column name, and the digits after ` = $` read back as its placeholder |
| `Users.JoinCommaEmpty` | lib/db/users.ts:227-232 | the comma-joined `SET` list is empty exactly when there are no entries |
| `Users.UpdateTextBindsUserIdLast` | lib/db/users.ts:231-234 | the text of a bound statement is `UPDATE user_preferences SET`, the joined entries, and ` WHERE user_id = $` followed by a number that reads back as the length of the parameter list, whose last parameter is the user id |
| `Users.ApplyPatch` | lib/db/users.ts:199-202 | partial update: each supplied field takes its new value, and every unsupplied field, the row id, user id and creation time stay unchanged |
| `Users.ExecuteBuiltUpdate` | lib/db/users.ts:231-234 | running a statement bound as the builder binds it changes only the addressed user's row, and changes it exactly by the partial update |
| `Users.AccountStore.GetUserById` | lib/db/users.ts:86-103 | a user is returned exactly when the id is in the table, and it is that row |
| `Users.AccountStore.GetUserByEmail` | lib/db/users.ts:64-81 | a user is returned exactly when some row has the email, and it is that row |
| `Users.AccountStore.VerifyPassword` | lib/db/users.ts:108-130 | a user is returned exactly when a row has the email and the password compares equal to its hash; an unknown email and a wrong password both give absence |
| `Users.AccountStore.GetUserPreferences` | lib/db/users.ts:175-194 | preferences are present exactly when the user exists, and they are that user's row of the preferences table |
| `Users.AccountStore.CreateUser` | lib/db/users.ts:26-59 | fails with "Email already exists", changing nothing, exactly when the email is taken; otherwise it inserts a user with a fresh id and the hashed password, and a default preferences row (threshold 80, email alerts on, no quiet hours); the new user is then found by email and verifies with the password |
| `Users.AccountStore.UpdateUserName` | lib/db/users.ts:135-149 | only that user's name and update time change; an unknown id changes nothing |
| `Users.AccountStore.UpdateUserPassword` | lib/db/users.ts:154-170 | only that user's hash and update time change, and the new password verifies afterwards |
| `Users.AccountStore.UpdateUserPreferences` | lib/db/users.ts:199-239 | no statement is issued exactly when no field is supplied; the user's row gets the partial update, and no other row or table changes |
| `Users.AccountStore.DeleteUser` | lib/db/users.ts:241-254 | the user and its preferences row are removed, and both lookups report absence afterwards |
| `Middleware.Guard` | middleware.ts:4-25 | a signed-in request to a sign-in page goes to `/dashboard`, a signed-out request to a protected page goes to `/login`, and every other request passes, each in both directions |
| `Middleware.SubPathsGuardedAlike` | middleware.ts:6-12 | a redirected path keeps the same redirect when anything is appended to it |
| `Middleware.NeverRedirectsTheWrongWay` | middleware.ts:15-22 | a signed-in user is never sent to `/login`, and a signed-out one is never sent to `/dashboard` |
| `Middleware.AuthAndProtectedDisjoint` | middleware.ts:6-12 | no path is both a sign-in page and a protected page |
| `Middleware.RedirectTargetPasses` | middleware.ts:14-24 | the target of a redirect is let through, so the guard never loops |
| `Signup.Utf16Length` | app/api/auth/signup/route.ts:7 | the length the password rule measures lies between the number of characters and twice that |
| `Signup.Validate` | app/api/auth/signup/route.ts:5-9 | validation succeeds exactly when the body is an object with an email string that passes the format check, a password of at least 8 code units, and a name that is absent or a string; the data carries those fields, and an absent name stays absent; a failure has at least one issue |
| `Signup.FirstIssueMessage` | app/api/auth/signup/route.ts:19-21 | the 400 message is the first issue's message, or "Invalid input" when there is none or it is empty |
| `Signup.ValidationResponse` | app/api/auth/signup/route.ts:18-24 | the handler returns early exactly when validation fails, with 400 and a body whose only key `error` holds the first issue's message |
| `Signup.CreationResponse` | app/api/auth/signup/route.ts:29-52 | 409 exactly for the "Email already exists" error; 500 "Failed to create account" exactly for any other error; 200 exactly for a created user, with `success: true` and the public user |
| `Signup.SuccessBodyOmitsHash` | app/api/auth/signup/route.ts:32-39 | the user in a success body has exactly the keys id, email and name, and no password hash |
| `Signup.ShortPasswordRejected` | app/api/auth/signup/route.ts:5-24 | a password string shorter than 8 code units always makes the handler return early with status 400 |
| `Signup.ShortPasswordMessageReported` | app/api/auth/signup/route.ts:5-24 | with a valid email, a short password yields 400 with the message "Password must be at least 8 characters" |
| `Signup.Post` | app/api/auth/signup/route.ts:11-54 | an unparsable body gives 500 and an invalid one gives 400, both leaving the store unchanged; a valid body gives 409 exactly when the email is taken, leaving the store unchanged; otherwise 200 with `success: true` and the public user, the tables being the old ones plus a user with a fresh id, the email, the password's hash and the stored name, and its default preferences row; the new user is found by email and verifies with its password |
| `Scrape.OptionalParamsNotFixed` | api/python/scrape.py:34-50 | no whitelisted key is one of the five fixed keys, so none can overwrite them |
| `Scrape.BuildScrapeParams` | api/python/scrape.py:28-54 | fails with "location parameter is required" exactly when location is missing or falsy; otherwise the parameters hold the location, `past_hours` (1 only when the key is absent), the three fixed flags, and each whitelisted key exactly when present and not None, with its request value; there are no other keys |
| `Scrape.ParamsWithinWhitelist` | api/python/scrape.py:34-54 | every key passed to the scraper is a fixed key or a whitelisted one |
| `Scrape.ScrapeResponse` | api/python/scrape.py:60-103 | 200 exactly when the scraper returned; then the properties are the records, or empty for a None or empty frame, and the count is their number; 400 for a ValueError and 500 for any other error, each with the error text |
| `Scrape.DoPost` | api/python/scrape.py:17-103 | a malformed body gives 400; a missing library gives 500 before the location is looked at; a non-object body gives 500; a missing location gives 400; otherwise the scraper is called with parameters as built and its outcome decides the response |

## Left out

- bcrypt itself (cost-10 salted hashing, constant-time compare) is a foreign library. `Bcrypt.Digest` is a plain checksum with collisions. The proofs use only the fact that a password compares equal to its own hash.
- `Bcrypt.Compare`: bcryptjs hashes only the first 72 bytes of the UTF-8 encoded password, so two passwords that agree on those bytes compare equal to the same hash. The model digests the whole string and does not capture this truncation.
- Lone UTF-16 surrogates. A JavaScript string can hold one, but a Dafny `char` is a Unicode scalar value, so the model's strings (and `Signup.Utf16Length`) cover only well-formed text.
- The SQL client, the SQL text the database parses, and `NOW()`. Timestamps are the parameter `now`. `UpdateQuery.Text` renders the update statement and `Users.UpdateTextBindsUserIdLast` states its shape, but its execution is modelled on the structured statement (`ExecuteUpdate`), not by parsing the text.
- Backend failures other than a duplicate email. The in-memory store cannot fail, so the catch blocks that rethrow "Failed to get user", "Failed to update preferences" and so on are not modelled. `createUser`'s mapping of backend error codes is modelled by `CreateUserError`.
- The lack of a transaction around the two inserts in `createUser`, and concurrent signups with the same email. In the model both inserts happen together; atomicity and concurrency belong to the database.
- Postgres's use of a serial value by an insert that then fails. In the model a failed `createUser` leaves the counters unchanged.
- Values of the wrong type in an update. The patch fields are typed as in the TypeScript interface; `ExecuteUpdate` gives `None` for a value that does not fit its column.
- The domain ranges of `alert_threshold` (50 to 100) and of the quiet hours (0 to 23). The code does not check them.
- `console.error` logging, and `handleDbError` in lib/db/index.ts, which users.ts does not use.
- zod's email regular expression, which is the parameter `isEmail`. Fractional JSON numbers are also not modelled.
- The message of a failed `request.json()`. The model assumes it is never "Email already exists" and maps it to 500.
- The NextAuth `auth` wrapper, which is reduced to the boolean `isAuthenticated`, and the framework's `config.matcher` pattern (middleware.ts:28).
- The HTTP plumbing of the Python handler: headers, `Content-Length`, `rfile`/`wfile`, JSON encoding, and the `do_GET` health check.
- `scrape_property`, the pandas DataFrame, and the replacement of NaN by None. The scraper's outcome is the parameter `scrapeProperty`. Errors raised while converting the frame are not modelled.
- api/python/score.py and app/layout.tsx are not part of this model.

# next-auth-testing, modelled in Dafny

This project models the server and client logic of a Next.js application. The application offers sign-up and credential sign-in, with a captcha and reCAPTCHA v3. It stores users in a Prisma-backed `user` table and keeps a profile the signed-in user can read, edit and soft-delete.

The model covers these parts:

- **Rate limiter** (`RateLimit`). A fixed window of five requests per fifteen minutes for each client key. A sweep deletes expired entries. It is a class whose `map` field its methods update.
- **Schemas** (`AuthSchema`). The registration schema and the login schema, read with Zod's rules:
  - every check of every field reports its own issue;
  - a missing required field skips the password-match refinement.
- **Captchas** (`CaptchaService`, `Captcha`):
  - the server-side format check;
  - the two generators that map random draws onto a 36-character alphabet;
  - the state of the `useCaptcha` hook, as a class.
- **Route guards** (`Middleware`, `UseAuth`). The redirect decision of the middleware and of the `useAuth` hook's effect.
- **reCAPTCHA** (`Recaptcha`, `VerifyRecaptchaRoute`):
  - how `validateRecaptcha` turns configuration, token and the `siteverify` reply into a verdict;
  - the configuration queries;
  - the `/api/verify-recaptcha` handler.
- **Sign-in** (`Auth`):
  - `authorize`, the chain of checks in the credentials provider, where every failure becomes `null`;
  - the `jwt` and `session` callbacks, which copy fourteen claims field by field into a token object and then into `session.user`.
- **Users and profile handlers** (`UserModel`, `Http`, `UsersRoute`, `ProfileRoute`):
  - registration and listing on `/api/users`;
  - read, merge-update and soft delete on `/api/profile`.

  The user table is a class holding a `map` from id to record. That class enforces unique e-mails and usernames the way the database's unique constraints do.

How the outside world enters the model:

- The clock is a parameter.
- Random bytes are parameters.
- The `siteverify` reply is a parameter.
- The session's user id is a parameter.
- The environment variables are a record.
- Bcrypt's hash and compare, `encodeURIComponent`, and Zod's e-mail and URL checks are function-typed parameters.
- The database's generated id, its timestamps and its column defaults are parameters.

Each handler that changes state is a method over the table. Its postcondition equates the response and the new table with a pure specification function. The lemmas are stated about that function.

## Model

| member | source | states |
|---|---|---|
| Common.Or | src/lib/rate-limit.ts:14 | `a \|\| b` on an optional string: the first value when it is present and non-empty, else the fallback |
| Common.Join | src/lib/recaptcha-service.ts:72 | joining no parts gives `""`; joining one part gives that part; the result is non-empty when some part is |
| Common.UpperChar | src/lib/captcha.ts:36 | a lower-case ASCII letter becomes its upper-case letter, every other character is kept, and no result is a lower-case letter; a letter keeps its place in the alphabet (`c - 'a' == r - 'A'`) |
| Common.Upper | src/lib/captcha.ts:36 | upper-casing keeps the length and maps each character through the ASCII upper-case mapping |
| Common.UpperIdempotent | src/lib/captcha.ts:36 | upper-casing twice equals upper-casing once |
| Common.UpperOfUpper | src/lib/captcha.ts:36 | a string with no lower-case letter is its own upper-case form |
| RateLimit.ClientKey | src/lib/rate-limit.ts:14-15 | the key is `rate_limit_` followed by the client address, else the `x-forwarded-for` header, else `unknown`; the first non-empty one wins |
| RateLimit.CeilSeconds | src/lib/rate-limit.ts:47 | the result is the ceiling of `d / 1000`: `(r-1)*1000 < d <= r*1000` |
| RateLimit.Step | src/lib/rate-limit.ts:13-58 | only the request's key may change, and no key is removed; the request is allowed iff the key is new, its window has ended (`now > resetTime`), or its count is below 5; a denial is 429 with the fixed message and a Retry-After equal to the seconds left in the window rounded up (`CeilSeconds(resetTime - now)`, never negative), and leaves the map unchanged; a new or expired key restarts at count 1 with a window ending at `now + 900000`; otherwise the count rises by exactly one |
| RateLimit.StepKeepsCountsBounded | src/lib/rate-limit.ts:20-57 | every stored count stays between 1 and 5 |
| RateLimit.RetryAfterAtMostWindow | src/lib/rate-limit.ts:39-51 | when no window ends more than 900 s after `now`, Retry-After is at most 900, and that bound on windows survives the step |
| RateLimit.WindowsWithinLater | src/lib/rate-limit.ts:22-34 | the bound on window ends holds at every later time |
| RateLimit.Replay | src/lib/rate-limit.ts:13-58 | a run of requests yields one decision per request |
| RateLimit.ReplayInsideWindow | src/lib/rate-limit.ts:39-57 | inside a live window that started at count `c`, the i-th further request is allowed iff `c + i < 5` |
| RateLimit.FreshKeyBurst | src/lib/rate-limit.ts:20-57 | from a key with no entry, with every request inside the first window, request i (from 0) is allowed iff `i < 5`, so the sixth and later are denied |
| RateLimit.Swept | src/lib/rate-limit.ts:61-68 | the sweep keeps exactly the entries with `now <= resetTime`, and leaves each kept entry unchanged |
| RateLimit.SweepUnobservable | src/lib/rate-limit.ts:61-68 | a request at `now` gets the same decision and leaves the same swept map whether or not the sweep ran just before; an expired entry behaves like an absent one |
| RateLimit.RateLimiter.Check | src/lib/rate-limit.ts:13-58 | `rateLimit` updates the shared map and decides as `Step` does for the request's key, and keeps the counter bound |
| RateLimit.RateLimiter.Sweep | src/lib/rate-limit.ts:61-68 | the timer's loop deletes entries one key at a time and ends with the map `Swept` describes |
| AuthSchema.NameIssues | src/lib/validations/auth.ts:4-7 | no issue iff the name has 2 to 50 characters; every issue is on the `name` path |
| AuthSchema.UsernameIssues | src/lib/validations/auth.ts:9-13 | no issue iff the username has 3 to 20 characters, every one in `[a-zA-Z0-9_]` |
| AuthSchema.EmailIssues | src/lib/validations/auth.ts:15-18 | no issue iff the e-mail is non-empty and passes the e-mail format check |
| AuthSchema.PasswordIssues | src/lib/validations/auth.ts:20-23 | no issue iff the password has 8 to 128 characters |
| AuthSchema.ConfirmIssues | src/lib/validations/auth.ts:25-27 | no issue iff the confirmation is non-empty |
| AuthSchema.BioIssues | src/lib/validations/auth.ts:29-32 | no issue iff a present bio has at most 200 characters |
| AuthSchema.LocationIssues | src/lib/validations/auth.ts:34-37 | no issue iff a present location has at most 100 characters |
| AuthSchema.WebsiteIssues | src/lib/validations/auth.ts:39-43 | a present website passes iff it is `""` or a URL |
| AuthSchema.CaptchaIssues | src/lib/validations/auth.ts:45-48 | a present captcha passes iff it is non-empty |
| AuthSchema.FieldIssues | src/lib/validations/auth.ts:3-48 | the field checks of `registerSchema` in key order: `Required` for an absent required field, nothing for an absent optional one, otherwise the field's own issues; its meaning is given by `FieldIssuesEmpty` and `FieldIssuesNeverMismatch` |
| AuthSchema.RefineIssues | src/lib/validations/auth.ts:49-52 | the `refine` step: the mismatch issue on `confirmPassword` iff every required field is present and the password differs from its confirmation |
| AuthSchema.RegisterIssues | src/lib/validations/auth.ts:3-52 | every issue `registerSchema.parse` raises; `RegisterIssuesEmptyIff` states that the parse succeeds exactly on `RegisterAcceptable` inputs |
| AuthSchema.FieldIssuesEmpty | src/lib/validations/auth.ts:3-48 | the field checks raise nothing iff every required field is present and every field passes its own checks; absent optional fields pass |
| AuthSchema.RegisterIssuesEmptyIff | src/lib/validations/auth.ts:3-52 | `registerSchema.parse` accepts exactly the inputs that meet all field rules and have equal password and confirmation |
| AuthSchema.MismatchReported | src/lib/validations/auth.ts:49-52 | with every required field present, a password that differs from its confirmation always yields the mismatch issue on `confirmPassword`, so the object is rejected |
| AuthSchema.MissingFieldSkipsRefine | src/lib/validations/auth.ts:20-52 | a missing password is reported as `Required` on its own path, and the mismatch issue is then absent |
| AuthSchema.FieldIssuesNeverMismatch | src/lib/validations/auth.ts:3-48 | only the refinement produces the mismatch issue |
| AuthSchema.PasswordMatchExamples | src/lib/validations/auth.ts:49-52 | `abcd1234`/`abcd1234` passes the refinement; `abcd1234`/`different` fails it with the mismatch issue |
| AuthSchema.LoginIssues | src/lib/validations/auth.ts:56-65 | the login body passes iff the e-mail is present, non-empty and well-formed, and the password is present and non-empty |
| AuthSchema.LoginPasswordUnbounded | src/lib/validations/auth.ts:62-65 | any non-empty password is accepted at login, whatever its length |
| CaptchaService.ValidateCaptcha | src/lib/captcha-service.ts:7-39 | valid iff exactly 6 characters, all ASCII letters or digits; a wrong length gets the length message; six characters with a bad one get the character message; a valid captcha gets `Captcha valid` |
| CaptchaService.SessionCaptchaIgnored | src/lib/captcha-service.ts:7-31 | the stored session captcha never affects the verdict |
| CaptchaService.AlphabetUpperAlphanumeric | src/lib/captcha-service.ts:43 | every alphabet character is an upper-case letter or a digit |
| CaptchaService.FromAlphabet | src/lib/captcha-service.ts:56-59 | one character per byte; character i is `alphabet[bytes[i] % 36]` |
| CaptchaService.FromAlphabetUpperAlphanumeric | src/lib/captcha-service.ts:42-62 | every generated character is in `A-Z0-9` |
| CaptchaService.GeneratedPassesValidation | src/lib/captcha-service.ts:10-61 | six generated characters always pass `validateCaptcha` |
| CaptchaService.GenerateSecureCaptcha | src/lib/captcha-service.ts:42-62 | the loop builds exactly `FromAlphabet(bytes)`, `length` characters; with length 6 the result passes the format check |
| Captcha.GenerateCaptcha | src/lib/captcha.ts:3-22 | exactly 6 characters, each `alphabet[draw % 36]`, each an upper-case letter or a digit |
| Captcha.Matches | src/lib/captcha.ts:36 | the comparison `verifyCaptcha` makes: the two strings are equal after upper-casing |
| Captcha.MatchesSymmetricCaseInsensitive | src/lib/captcha.ts:35-39 | the comparison is symmetric and ignores case on either side |
| Captcha.MatchesGenerated | src/lib/captcha.ts:35-39 | against a generated captcha, an input matches iff its upper-case form equals the captcha |
| Captcha.EmptyInputNeverMatches | src/lib/captcha.ts:29-39 | an empty input never matches a 6-character captcha |
| Captcha.CaptchaState.constructor | src/lib/captcha.ts:25-27 | the three pieces of state start as `''`, `''` and `false` |
| Captcha.CaptchaState.SetCaptchaInput | src/lib/captcha.ts:26 | only the input changes |
| Captcha.CaptchaState.RefreshCaptcha | src/lib/captcha.ts:29-33 | a fresh 6-character captcha, an empty input, and `isVerified` false |
| Captcha.CaptchaState.VerifyCaptcha | src/lib/captcha.ts:35-39 | returns whether the upper-cased input equals the upper-cased captcha, stores exactly that in `isVerified`, and changes nothing else |
| Captcha.RefreshThenVerify | src/lib/captcha.ts:29-39 | verifying in a render after a refresh returns false and records false |
| Middleware.Guard | middleware.ts:4-20 | redirect to `/` iff there is no session and the path starts with `/profile`; redirect to `/profile` iff there is a session and the path is `/` or `/register`; otherwise pass |
| Middleware.NoRedirectLoop | middleware.ts:8-19 | the guard passes on its own redirect target under the same session |
| Middleware.GuardExamples | middleware.ts:8-17 | `/profile/x` and `/profileX` are guarded; `/register` without a session passes; `/profile` with a session passes |
| Middleware.Matched | middleware.ts:22-24 | the matcher: a path starting with `/` whose remainder does not start with `api`, `_next/static`, `_next/image` or `favicon.ico` |
| Middleware.Middleware | middleware.ts:4-24 | paths outside the matcher (`api`, `_next/static`, `_next/image`, `favicon.ico`) always pass; matched paths get the guard's decision |
| Middleware.MiddlewareNoRedirectLoop | middleware.ts:8-24 | both redirect targets lie inside the matcher, and the middleware passes a client on the target it was just redirected to |
| Middleware.ExcludedPathsPass | middleware.ts:22-24 | `/api/users` and `/api/profile` pass with or without a session; static chunks and the favicon pass without a session check |
| UseAuth.Pushes | src/hooks/use-auth.ts:11-24 | nothing while loading; the only pushes are none, `/` alone or `/profile` alone; `/` iff no session on a `/profile…` path; `/profile` iff a session on `/` |
| UseAuth.NoPushLoop | src/hooks/use-auth.ts:17-23 | the target of a push causes no further push under the same session |
| UseAuth.AgreesWithMiddleware | src/hooks/use-auth.ts:17-23 | once the status is known and the path is not `/register`, the hook pushes exactly where the middleware redirects |
| UseAuth.DiffersOnRegister | src/hooks/use-auth.ts:21-23 | on `/register` with a session the middleware redirects to `/profile`, and the hook does not push |
| UseAuth.IsAuthenticated | src/hooks/use-auth.ts:29 | `isAuthenticated`: the status is `authenticated` |
| UseAuth.IsLoading | src/hooks/use-auth.ts:30 | `isLoading`: the status is `loading` |
| UseAuth.FlagsExclusive | src/hooks/use-auth.ts:29-30 | `isAuthenticated` and `isLoading` are never both true |
| Recaptcha.ValidateRecaptcha | src/lib/recaptcha-service.ts:19-87 | valid iff a non-empty secret, a token of at least 10 characters, an ok reply whose body parses, and `success`; invalid iff an error is set; never a score; the errors are `reCAPTCHA not configured` without a secret, `Invalid reCAPTCHA token format` for a short token, and `reCAPTCHA validation error` for a transport fault or an ok reply whose body is not valid JSON |
| Recaptcha.JoinedCodes | src/lib/recaptcha-service.ts:72 | absent codes give no message; present codes give them joined by `, ` |
| Recaptcha.RejectedTokenError | src/lib/recaptcha-service.ts:68-74 | `success: false` reports the joined error codes when that text is non-empty, and `reCAPTCHA validation failed` when the codes are absent or empty |
| Recaptcha.HttpFailureFailsClosed | src/lib/recaptcha-service.ts:58-64 | a non-ok status is `reCAPTCHA verification failed`, whatever the body says |
| Recaptcha.NoCallBeforeChecks | src/lib/recaptcha-service.ts:26-42 | without a secret, or with a short token, the verdict does not depend on the reply |
| Recaptcha.ActionAndScoreUnused | src/lib/recaptcha-service.ts:19-23 | the expected action and minimum score never change the verdict |
| Recaptcha.IsRecaptchaEnabled | src/lib/recaptcha-service.ts:99-101 | enabled when both the secret key and the site key are non-empty |
| Recaptcha.SkipDev | src/lib/auth.ts:26 | the development bypass: `NODE_ENV` is not `production` and the skip flag is non-empty |
| Recaptcha.GetRecaptchaSiteKey | src/lib/recaptcha-service.ts:92-94 | the site key when it is non-empty, else `null` |
| Recaptcha.EnabledIffKeys | src/lib/recaptcha-service.ts:99-101 | reCAPTCHA is enabled iff the secret is non-empty and a site key is published |
| VerifyRecaptchaRoute.ActionOf | src/app/api/verify-recaptcha/route.ts:8 | the body's action when non-empty, else `login` |
| VerifyRecaptchaRoute.MinScoreOf | src/app/api/verify-recaptcha/route.ts:9 | the body's score when it is a number, else 0.5 |
| VerifyRecaptchaRoute.Post | src/app/api/verify-recaptcha/route.ts:4-28 | an unreadable body is 500 `Internal server error`; a missing token is 400 without a verdict; success iff status 200 iff the token is present and the verdict valid |
| VerifyRecaptchaRoute.RejectedCarriesError | src/app/api/verify-recaptcha/route.ts:21-24 | a rejected token answers 400 with the verdict's own error and a `null` score |
| VerifyRecaptchaRoute.AcceptedHasNullScore | src/app/api/verify-recaptcha/route.ts:17-18 | an accepted token answers 200 `reCAPTCHA verified` with a `null` score |
| UserModel.Strip | src/lib/auth.ts:53 | `const { password, ...rest } = user`: every field of the record except `password`; `StripKeepsEverythingElse` states what it keeps |
| UserModel.StripKeepsEverythingElse | src/lib/auth.ts:53 | stripping loses the password and nothing else: restoring the password gives back the record, and the projection does not depend on the password |
| UserModel.InsertKeepsInvariant | src/app/api/users/route.ts:28-64 | inserting a record with a fresh id, e-mail and username keeps ids, e-mails and usernames unique and adds exactly one record |
| UserModel.ReplaceKeepsInvariant | src/app/api/profile/route.ts:86-95 | replacing a record by one with the same id and unused e-mail and username keeps the table invariant |
| UserModel.OwnKeysFree | src/app/api/profile/route.ts:86-95 | a record's own e-mail and username are not used by any other record |
| UserModel.UserTable.Create | src/app/api/users/route.ts:53-64 | `create` succeeds iff the id, e-mail and username are all unused, and only then adds the record |
| UserModel.UserTable.Update | src/app/api/profile/route.ts:86-95 | `update` succeeds iff the id exists and no other record uses the new e-mail or username, and only then replaces the record |
| Auth.RecaptchaGate | src/lib/auth.ts:22-31 | the reCAPTCHA step of `authorize` passes when reCAPTCHA is off, the verdict is valid, or the development bypass is on |
| Auth.FindByEmail | src/lib/auth.ts:34-36 | a record with the given e-mail, or none exactly when no record has it |
| Auth.FindByEmailUnique | src/lib/auth.ts:34-36 | with unique e-mails the lookup returns the one record with that address |
| Auth.Authorize | src/lib/auth.ts:16-59 | `null` without a non-empty captcha; a user is returned only when the reCAPTCHA gate passes, the e-mail is present, the password is non-empty and matches the stored hash, and the result is that record stripped of its password |
| Auth.AuthorizeKnownEmail | src/lib/auth.ts:18-54 | for a stored address the result, in full: the stripped record iff captcha present, gate passed, password present and matching, else `null` |
| Auth.UnknownEmailRefused | src/lib/auth.ts:34-40 | an unknown address is refused whatever the password and the comparison say |
| Auth.FailedRecaptchaRefused | src/lib/auth.ts:22-30 | with reCAPTCHA on and no development bypass, a failed verdict refuses the sign-in |
| Auth.CaptchaContentIgnoredWhenDisabled | src/lib/auth.ts:18-22 | with reCAPTCHA off, any non-empty captcha gives the same result |
| Auth.SoftDeletedUserSignsIn | src/lib/auth.ts:33-54 | an account with `isActive` false still signs in with its password, and the signed-in user it returns is inactive |
| Auth.ClaimsOf | src/lib/auth.ts:68-83 | each of the fourteen claims is the user's field of the same name |
| Auth.Token.Jwt | src/lib/auth.ts:67-85 | with a user, the token's fourteen claims become the user's; without one, no claim changes; the library's own claims never change |
| Auth.Session | src/lib/auth.ts:86-104 | with a token, each of the fourteen fields of `session.user` becomes the token's; without one, none changes |
| Auth.SignInThenRead | src/lib/auth.ts:67-104 | after `jwt` with a user and then `session`, every copied field of `session.user` equals the user's |
| UsersRoute.AvatarUrl | src/app/api/users/route.ts:62 | the default avatar is the ui-avatars URL prefix followed by exactly the encoded name and the fixed query suffix |
| UsersRoute.NewRecord | src/app/api/users/route.ts:50-64 | the created record has the validated e-mail, username and name, the 12-round hash of the password, `''` for an absent bio, location or website, and the name-derived avatar |
| UsersRoute.Register | src/app/api/users/route.ts:7-93 | any non-200 answer leaves the table unchanged; a 200 answer means the body met the schema, the id was unused, and exactly that new record was added; the response never carries a password; the table invariant is kept |
| UsersRoute.SchemaCheckedFirst | src/app/api/users/route.ts:12 | a body that fails the schema gets 400 `Validasi gagal` with its issues, before the token is examined |
| UsersRoute.TokenRequired | src/app/api/users/route.ts:15-18 | a valid body without a token gets 400 `reCAPTCHA token tidak tersedia` |
| UsersRoute.RecaptchaRefusal | src/app/api/users/route.ts:19-25 | without the development bypass, a failed verdict gets 400 with the verdict's error |
| UsersRoute.DuplicateEmailFirst | src/app/api/users/route.ts:28-36 | once validation and the captcha pass (or the development bypass skips the captcha), a taken e-mail gets 400 `Email sudah terdaftar`, even when the username is also taken, and the table is unchanged |
| UsersRoute.DuplicateUsername | src/app/api/users/route.ts:39-47 | once validation and the captcha pass (or the development bypass skips the captcha), a free e-mail with a taken username gets 400 `Username sudah digunakan`, and the table is unchanged |
| UsersRoute.SuccessAddsOneRecord | src/app/api/users/route.ts:49-72 | a registration that passes validation and the captcha (or the development bypass), with a free e-mail, username and id, gets 200, adds exactly one record and keeps e-mails and usernames unique |
| UsersRoute.SequentialRegistrationsUnique | src/app/api/users/route.ts:28-64 | two successful registrations in a row always use different e-mails and different usernames |
| UsersRoute.Post | src/app/api/users/route.ts:7-93 | the handler answers and changes the table as `Register` does |
| UsersRoute.ListUsers | src/app/api/users/route.ts:95-129 | the whole table with every record stripped: the same ids, no password |
| ProfileRoute.GetProfile | src/app/api/profile/route.ts:6-57 | 401 without a session user id; 404 for an unknown id; 200 iff the id is known, with the stripped record |
| ProfileRoute.Merged | src/app/api/profile/route.ts:86-95 | each of name, bio, location and website is the body's value when non-empty, else the stored one; `updatedAt` is the clock |
| ProfileRoute.MergeChangesOnlyEditableFields | src/app/api/profile/route.ts:86-95 | the update touches no field other than the four editable ones and `updatedAt` |
| ProfileRoute.EmptyStringKeepsValue | src/app/api/profile/route.ts:89-92 | an empty string keeps the stored value, like an absent field |
| ProfileRoute.MergeIdempotent | src/app/api/profile/route.ts:89-93 | applying the same body twice equals applying it once |
| ProfileRoute.BioOnlyUpdate | src/app/api/profile/route.ts:89-93 | a body with only a new bio changes the bio and `updatedAt` and nothing else |
| ProfileRoute.UpdateProfile | src/app/api/profile/route.ts:59-111 | 401 without a session user id; 500 for a body that does not parse, before the lookup; 404 for an unknown id otherwise, a `null` body included; 500 for a `null` body of a known id, whose fields cannot be read; every non-200 answer leaves the table unchanged; 200 iff the id is known and the body is a parsed value, and then only that record is replaced by its merge and returned stripped; the invariant is kept |
| ProfileRoute.NullBodyUnknownIdNotFound | src/app/api/profile/route.ts:70-83 | a `null` body for an unknown id is answered 404, because the lookup comes before the body's fields are read |
| ProfileRoute.DeleteResponseAsWritten | src/app/api/profile/route.ts:135-138 | the source's DELETE answer: 200 with the updated record as stored |
| ProfileRoute.DeleteAsWrittenLeaksPassword | src/app/api/profile/route.ts:127-138 | every successful DELETE, as written, sends the stored password hash to the client |
| ProfileRoute.DeleteResponse | src/app/api/profile/route.ts:135-138 | the corrected DELETE answer: 200 `Account deleted successfully` with the stripped record |
| ProfileRoute.DeleteProfile | src/app/api/profile/route.ts:113-146 | corrected: the source's checks and soft delete; for a known id the answer is `DeleteResponse` of that user's record with `isActive` false and `updatedAt` now, so 200 with the record minus its password; 401 without a session user id; 500 for an unknown id; either leaves the table unchanged; no record is removed; a 200 answer only sets `isActive` false and `updatedAt` on that record; no answer carries a password; the invariant is kept |
| ProfileRoute.SoftDeleteKeepsRecord | src/app/api/profile/route.ts:126-133 | after a soft delete the record is still there, inactive, unchanged apart from `isActive` and `updatedAt`, and still readable through GET |
| ProfileRoute.Put | src/app/api/profile/route.ts:59-111 | the handler answers and changes the table as `UpdateProfile` does |
| ProfileRoute.Delete | src/app/api/profile/route.ts:113-146 | corrected: the handler answers and changes the table as `DeleteProfile` does |

## Left out

- HTTP, the database and the network are not modelled as I/O. The `siteverify` reply, the session's user id and the parsed request bodies are parameters.
- The client's address and `x-forwarded-for` header are fields of a request value.
- Next.js request and response objects are reduced to a status, a message and a payload.
- Each handler's `catch`-all 500 covers only faults the model can name:
  - an unreadable body;
  - a `null` body in PUT, once the id has been found;
  - an unknown id in DELETE;
  - an id clash on `create`.

  Database outages are not modelled.
- The 400 answer of a Zod failure carries the issue list. Its text serialisation in `error.message` is not modelled.
- Zod's e-mail and URL checks, bcrypt's `hash` and `compare`, and `encodeURIComponent` are function-typed parameters. `compare` is not tied to `hash`, so the model does not state that a registered password later signs in.
- `minScore` and `RECAPTCHA_MIN_SCORE` are modelled as a `real` and never read. Float parsing and the number type are not modelled.
- String lengths count Unicode characters, not UTF-16 code units. They differ only outside the Basic Multilingual Plane.
- `toUpperCase` in the `useCaptcha` comparison is ASCII-only. Full Unicode case mapping is not modelled.
- Request bodies hold strings or nothing. A JSON number, boolean or object in a string field is not modelled.
- Dates are integers of milliseconds.
- The `ColumnDefaults` record stands in for the schema's defaults for counters and flags. The generated id and timestamps are parameters.
- Concurrency is not modelled: all requests run one after another. The check-then-insert race in registration and simultaneous limiter updates are left out.
- `setInterval` scheduling is left out. The sweep body is the `Sweep` method, run whenever the caller chooses.
- The mount effect of `useCaptcha` is not a separate member. The constructor gives the state before mounting; the effect is a call of `RefreshCaptcha`.
- The hook's `captcha` field is filled from random draws given as `nat`. The source distinguishes the `crypto` and `Math.random` branches only by where the draws come from.
- The `catch` branch of `validateCaptcha` is not modelled, because nothing in that function can throw.
- The messages of the errors `authorize` throws are not modelled, because each is caught and becomes `null`.
- The NextAuth `pages` option, JWT signing and the cookie session are library behaviour and are not modelled.
- `useAuth` returns `user: session?.user` unchanged. That pass-through is not a separate member.
- Middleware redirect targets are paths. Building them into absolute URLs with `new URL` is not modelled.
- The matcher's regular expression is modelled as four prefix tests on the path after its leading `/`. The `.` in `favicon.ico` is a regular-expression wildcard in the source, so a path such as `/faviconXico` is outside the source's matcher but inside the model's. No guard decision depends on it, because the guard passes such a path either way.
- `Auth.FindByEmail` and `Auth.Authorize` are ghost functions, because they pick the record with a given e-mail by choice. `Auth.FindByEmailUnique` shows that the choice is the one record under unique e-mails.
- A successful registration answers 200, the `NextResponse.json` default; no other status is set on that path.
- UsersRoute.ListUsers: the listing is a map from id to projected record. The source's `findMany` array and its database order are not modelled.
- Captcha.CaptchaState and Captcha.RefreshThenVerify: each method call stands for one render of the hook, and its updates are visible to the next call. React batches a handler's `set` calls until the next render, and `verifyCaptcha` reads the values of the render that created it. So `refreshCaptcha(); verifyCaptcha()` inside one handler, which compares the old values and whose `setIsVerified` overrides the refresh's `false`, is not modelled.
- A registration body that is JSON but not an object, such as `null`, fails Zod with one type issue and still gets 400 `Validasi gagal`. The model's input record cannot express such a body, so that issue list is not modelled.
- `UsersRoute.Register` reads the token from the validated input. The source reads it from the raw body, which has the same value for every string.

## Findings

| source | as written | input that shows it | evidently intended | confidence | as-written member | corrected member |
|---|---|---|---|---|---|---|
| src/app/api/profile/route.ts:135-138 | A successful DELETE answers with the updated record exactly as stored, including its `password` hash. | Any signed-in user whose id is in the table, e.g. a delete for id `u1` in the table holding `u1`. | The record without `password`, which is what GET, PUT, registration and sign-in all return. | not executed | ProfileRoute.DeleteAsWrittenLeaksPassword | ProfileRoute.DeleteProfile |

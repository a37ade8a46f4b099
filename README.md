# LeetLab backend: a Dafny model of its request handlers

LeetLab is the backend of a competitive-programming practice site. This
project models the three request handlers that hold its logic, and proves
properties about them:

- `createProblem` lets an administrator submit a problem. It runs the
  problem's reference solution on the Judge0 judge against every test case.
  It stores the problem only when every result that `pollBatchResults`
  returns is Accepted (Judge0 status id 3). It never checks that there is
  one result per test case.
- `register` validates a sign-up. It refuses an email already in use. It
  stores the new user with a bcrypt-hashed password and the role USER. It
  sets a one-day `jwt` session cookie.
- `authMiddleware` is a guard chain. It checks, in order, that a cookie is
  present, that the token verifies, and that the user exists. On success it
  attaches the user to `req.user` and calls `next()`.

Every external collaborator is an oracle. A field of an environment datatype
holds it as a function of its arguments. These are the Judge0 helpers
`getJudge0Languages`, `submitBatch` and `pollBatchResults`, `db.Problem.create`,
the middleware's `db.user.findUnique` by id, `bcrypt.hash`, `jwt.sign` and
`jwt.verify`. An awaited call either returns a value or throws (`Settled`).
`register` works on a modelled user table instead: its `db.user.findUnique`
by email is answered from that table, and throws exactly when the fixed
`findFault` of its environment is set. Its `db.user.create` asks the `insert`
oracle for the generated columns (or a throw) and then adds the row to the
table. Each handler returns two things: what
it sent on `res`, and the ordered trace of the calls it made. So "no
submission is sent" or "the problem is created once" is a statement about
that trace.

Each handler is written twice:

- as an imperative method, with its loops and early returns;
- as a specification function, written as one expression.

Each method's postcondition says it computes exactly the specification. The
lemmas prove the properties about the specification functions.

Files:

- `js_runtime.dfy` (module `JsRuntime`): absent values, settled promises,
  JavaScript truthiness, `String.length` in UTF-16 code units, and decimal
  rendering of numbers in template literals.
- `express.dfy` (module `Express`): responses and cookies.
- `users.dfy` (module `Users`): the user row and the fields the middleware
  selects.
- `problem_controller.dfy`, `auth_controller.dfy`, `auth_middleware.dfy`: one
  module per handler.

## The code as written

The model follows the code, including where it departs from what the
authors evidently meant:

- Every path through the body of the loop over `referenceSolution` ends in a
  `return`. So only the first language is ever looked up, judged and stored.
  `OnlyFirstEntryMatters` proves that the other entries make no difference.
- An empty `referenceSolution` object skips the loop, and the handler sends
  no response at all.
- `submissionResults.map((res) => {res.token})` has a block body and no
  `return`. So every token passed to `pollBatchResults` is `undefined`. The
  model keeps this: each token is `None`.
- The loop over the results runs for `results.length` steps, and that is
  never compared with the number of test cases. A poll that returns fewer
  results than there were test cases, or none, still leads to the create.
  So does an empty `testcases` array, which judges nothing.
  `AllAcceptedCreatesOnce` asks nothing of the number of results.
- Submissions carry the test input under the key `std_in` (field `stdIn`).
- The failure message reads "Test casse N failed for language L", typo
  included. N is the 1-indexed number of the first result that is not
  Accepted.
- In `register`, a failure of `jwt.sign` happens after `db.user.create`. So
  the client gets a 500 while the user stays stored (`SignFailureKeepsUser`).
- If the body leaves out `referenceSolution`, `Object.entries` throws a
  TypeError inside the `try`, and the answer is 500. If it leaves out
  `testcases`, the later `.map` does the same. The model carries V8's
  messages for these two errors.

## Model

| member | source | states |
|---|---|---|
| `ProblemController.CreateProblem` | Backend/src/controllers/problem.controllers.js:5-99 | The step-by-step handler, with its guards, the loop over the mapping and the indexed scan of the results, computes exactly `CreateProblemSpec`. That function checks the user and the mapping, then hands the first entry to `VerifyAndCreate`, which treats a language id as unsupported by JavaScript truthiness (`FalsyNumber`). |
| `ProblemController.UnauthenticatedRefused` | Backend/src/controllers/problem.controllers.js:16-21 | Without `req.user` the answer is 403 "You are not authenticated" and the trace of collaborator calls is empty. |
| `ProblemController.NonAdminRefused` | Backend/src/controllers/problem.controllers.js:23-28 | A user whose role is not "ADMIN" gets 403 "You are not authorized to create a problem" and no judge or database call. |
| `ProblemController.CallsOnlyForAdmins` | Backend/src/controllers/problem.controllers.js:16-36 | Any collaborator call implies an authenticated ADMIN and a non-empty mapping, and the first call is always the lookup of the first language. |
| `ProblemController.UnsupportedLanguageRefused` | Backend/src/controllers/problem.controllers.js:36-44 | A falsy language id gives 400 "Language L is not supported", and the lookup is the only call, so nothing is submitted. |
| `ProblemController.AbsentMappingAnswers500` | Backend/src/controllers/problem.controllers.js:34-96 | For an administrator whose body has no `referenceSolution`, `Object.entries` throws. The answer is 500 "Internal server error" carrying V8's text "Cannot convert undefined or null to object", before any call. |
| `ProblemController.LookupThrowsAnswers500` | Backend/src/controllers/problem.controllers.js:36-96 | If `getJudge0Languages` throws, the answer is 500 carrying the thrown message, and the lookup is the only call. |
| `ProblemController.AbsentTestcasesAnswers500` | Backend/src/controllers/problem.controllers.js:46-96 | For a supported language and a body without `testcases`, `testcases.map` throws. The answer is 500 carrying V8's text "Cannot read properties of undefined (reading 'map')", and the lookup is the only call. |
| `ProblemController.SubmitThrowsAnswers500` | Backend/src/controllers/problem.controllers.js:53-96 | If `submitBatch` throws, the answer is 500 carrying the thrown message. The trace is the lookup and that submission, so nothing is polled or created. |
| `ProblemController.PollThrowsAnswers500` | Backend/src/controllers/problem.controllers.js:57-96 | If `pollBatchResults` throws, the answer is 500 carrying the thrown message. The trace is the lookup, the submission and that poll, so nothing is created. |
| `ProblemController.BuildSubmissions` | Backend/src/controllers/problem.controllers.js:46-51 | There is one submission per test case, in order. Each has the same language id and source code, and element k carries test case k's input and expected output. |
| `ProblemController.TestCasesRoundTrip` | Backend/src/controllers/problem.controllers.js:46-51 | Reading the test cases back out of the submissions gives exactly the original sequence, so none is lost, duplicated or reordered. |
| `ProblemController.SubmissionsFollowTestcases` | Backend/src/controllers/problem.controllers.js:34-53 | The batch actually submitted carries the body's test cases in order, with the resolved language id and the first entry's solution code. |
| `ProblemController.ExtractTokens` | Backend/src/controllers/problem.controllers.js:55 | There are as many tokens as receipts, and every token is undefined. |
| `ProblemController.FirstRejected` | Backend/src/controllers/problem.controllers.js:59-68 | Gives the index of the first result whose status id is not 3, with every earlier result at 3; it gives nothing exactly when every status is 3. |
| `ProblemController.FirstFailureReported` | Backend/src/controllers/problem.controllers.js:57-68 | If result i is the first one not Accepted, the answer is 400 "Test casse i+1 failed for language L" (1-indexed). The trace ends at the poll and nothing is created. |
| `ProblemController.AllAcceptedCreatesOnce` | Backend/src/controllers/problem.controllers.js:70-89 | If every result is Accepted, exactly one create is made, as the last call. It carries the body's fields, only the first reference solution and `userid = req.user.id`. The answer is 201 with the created record, or 500 if the create throws. |
| `ProblemController.CreatesOnlyWhenVerified` | Backend/src/controllers/problem.controllers.js:34-90 | At most one `db.Problem.create` call is made, and a call that throws counts too. The call is made exactly when the first language was looked up, found supported, submitted and polled, and every returned result is Accepted. |
| `ProblemController.OnlyFirstEntryMatters` | Backend/src/controllers/problem.controllers.js:34-90 | Dropping every entry of the mapping except the first leaves the response and the trace unchanged. |
| `ProblemController.EmptyMappingSendsNothing` | Backend/src/controllers/problem.controllers.js:34-90 | For an administrator with an empty mapping, nothing is sent and nothing is called. |
| `ProblemController.SilentOnlyOnEmptyMapping` | Backend/src/controllers/problem.controllers.js:16-99 | The handler sends no response if and only if an administrator sent an empty mapping. |
| `ProblemController.ResponseStatuses` | Backend/src/controllers/problem.controllers.js:16-97 | Every response is 201, 400, 403 or 500. A 201 follows exactly one create and carries the created record. A response is 500 exactly when its body is "Internal server error" with an error text; which text each failure gives is stated by the lemmas above. A 403 follows no call. |
| `JsRuntime.DecimalString` | Backend/src/controllers/problem.controllers.js:65 | `${i+1}` renders as at least one decimal digit, with no leading zero unless the number is 0. |
| `JsRuntime.DecimalRoundTrip` | Backend/src/controllers/problem.controllers.js:65 | Reading the rendered digits back gives the number again. |
| `JsRuntime.DecimalStringInjective` | Backend/src/controllers/problem.controllers.js:65 | Different test numbers give different texts, so the number in the message identifies one test case. |
| `JsRuntime.Utf16Length` | Backend/src/controllers/auth.controllers.js:15 | `password.length` counts UTF-16 code units: between the number of characters and twice that, and equal to it exactly when no character lies outside the Basic Multilingual Plane. |
| `AuthController.UserTable.Register` | Backend/src/controllers/auth.controllers.js:6-74 | The step-by-step handler keeps the table keyed by email. It leaves the table, reply and call trace that `RegisterSpec` gives for the old table. That function refuses a falsy field (`MissingField`), then a password under 6 UTF-16 code units (`PasswordTooShort`); on success it shows the row through `Publish` and sets the cookie `SessionCookie` builds. |
| `AuthController.MissingFieldRefused` | Backend/src/controllers/auth.controllers.js:9-13 | A missing or empty name, email or password (falsy by `FalsyString`) gives 400 "Please fill all the fields", whatever the password's length. There are no calls, the table is unchanged and no cookie is set. |
| `AuthController.ShortPasswordRefused` | Backend/src/controllers/auth.controllers.js:15-19 | A present password shorter than 6 UTF-16 code units gives 400 "Password must be at least 6 characters long", and nothing else happens. |
| `AuthController.PasswordLengthBoundary` | Backend/src/controllers/auth.controllers.js:15 | For every password: 6 or more characters always pass the length check. When every character lies in the Basic Multilingual Plane, it fails exactly below 6 characters. When every character lies outside it, it fails exactly below 3, since each counts as two code units. |
| `AuthController.ValidatedReachesLookup` | Backend/src/controllers/auth.controllers.js:9-26 | A body that passes both checks always reaches the lookup by email and never gets a validation message. |
| `AuthController.DuplicateEmailRefused` | Backend/src/controllers/auth.controllers.js:22-32 | An email already in the table gives 400 "User already exists". The table is unchanged and only the lookup was made. |
| `AuthController.NewUserStoredHashed` | Backend/src/controllers/auth.controllers.js:34-43 | The new row is stored under its email with role USER. It holds the bcrypt digest (10 rounds) of the password, not the password. The calls are lookup, hash, insert, in that order. |
| `AuthController.SuccessIssuesSessionCookie` | Backend/src/controllers/auth.controllers.js:45-67 | A 201 shows only id, name, email, role, image and createdAt of the stored row. The `jwt` cookie holds the token signed over `{id}` with expiry "1d", with httpOnly, sameSite strict and maxAge 86 400 000. |
| `AuthController.HashFailureRefused` | Backend/src/controllers/auth.controllers.js:34-73 | If `bcrypt.hash` throws for a new email, the answer is 500 "Internal Server Error" with no cookie. The table is unchanged and the calls are the lookup and the hash. |
| `AuthController.InsertFailureRefused` | Backend/src/controllers/auth.controllers.js:36-73 | If `db.user.create` throws, the answer is 500 "Internal Server Error" with no cookie. The table is unchanged, the insert is the last call, and nothing is signed. |
| `AuthController.ReplyShapes` | Backend/src/controllers/auth.controllers.js:9-73 | Every reply is 201, 400 or 500. A cookie is set exactly on 201, a 500 is "Internal Server Error", and a throwing lookup gives 500. |
| `AuthController.SignFailureKeepsUser` | Backend/src/controllers/auth.controllers.js:36-73 | If `jwt.sign` throws after the insert, the answer is 500 with no cookie, yet the new user stays stored. |
| `AuthController.RegisterOnlyAdds` | Backend/src/controllers/auth.controllers.js:22-43 | The table stays keyed by email and existing users are never altered. A change means the body passed validation and only its email was added. |
| `AuthMiddleware.Guard` | Backend/src/middleware/auth.middleware.js:4-53 | The step-by-step middleware sends, counts `next` calls and traces calls exactly as `Authenticate`, which reads the token through `JwtCookie` and attaches the row's fields picked by `SelectAuthFields`. It sets `req.user` only when a user is attached and otherwise leaves it untouched. |
| `AuthMiddleware.NoCookieRefused` | Backend/src/middleware/auth.middleware.js:5-11 | With no `jwt` cookie, or an empty one, the answer is 401 "Unauthorized!, Invalid token". There is no verify and no lookup, and `next` is not called. |
| `AuthMiddleware.BadTokenRefused` | Backend/src/middleware/auth.middleware.js:15-22 | If `jwt.verify` throws, the answer is 401 "Invalid token" and the verify is the only call. |
| `AuthMiddleware.UnknownUserRefused` | Backend/src/middleware/auth.middleware.js:24-42 | If no user has the decoded id, the answer is 401 "Unauthorized!, User not found" after exactly the verify and the lookup. |
| `AuthMiddleware.LookupFailureRefused` | Backend/src/middleware/auth.middleware.js:24-51 | If the lookup throws, the outer catch answers 401 "Invalid token", with no user attached and no `next`. |
| `AuthMiddleware.KnownUserAttached` | Backend/src/middleware/auth.middleware.js:24-45 | For a found user, `req.user` is the row restricted to id, name, email, role and image, and `next` is called once. Nothing is sent. |
| `AuthMiddleware.NextOnlyOnSuccess` | Backend/src/middleware/auth.middleware.js:6-51 | `next` is called at most once. It is called exactly when nothing is sent and exactly when a user is attached. Every response is 401. |
| `AuthMiddleware.SuccessNeedsVerifiedFoundUser` | Backend/src/middleware/auth.middleware.js:13-45 | An attached user implies a non-empty cookie that verified, and a lookup of its decoded id that found a row. The attached user is that row's selected fields. |

## Left out

- Internals of `getJudge0Languages`, `submitBatch` and `pollBatchResults`: `judge0.lib.js` is not part of this model. The three are oracles, so its polling loop, delays and HTTP calls are not modelled.
- bcrypt, jsonwebtoken and Prisma are foreign libraries. They are oracles, and the table of users is a map keyed by email. Token expiry is not checked by the model: it belongs to `jwt.verify`.
- Each oracle is a function of its arguments, so repeated calls with equal arguments answer alike. Every handler calls each oracle at most once per request.
- The `secure` cookie flag depends on `NODE_ENV`, an environment value, and is not modelled. Nor are `console.log` and the async scheduling of the handlers.
- Body values that are not strings are not modelled: fields are present strings or absent. A number as password has `length` undefined, and `undefined < 6` is false, so it passes the length check and reaches the lookup; the model has no such value. `null` test cases and non-array results from the judge are not modelled either. Only absent `referenceSolution` and absent `testcases` are.
- A lone UTF-16 surrogate cannot be represented: a Dafny `char` is a Unicode scalar value. A JSON password "\ud800" has `length` 1 in JavaScript, and the model has no such string.
- A `null` or `undefined` receipt from `submitBatch` makes `res.token` throw a TypeError at `Backend/src/controllers/problem.controllers.js:55`, which the catch turns into a 500. Receipts in the model are always objects, so this path is not modelled.
- A result without `status` makes `result.status.id` throw a TypeError at `Backend/src/controllers/problem.controllers.js:62`, which the catch turns into a 500. Results in the model always carry a status id, so this path is not modelled.
- A language id that is `NaN`, `false` or `""` is not modelled: the lookup oracle yields an integer or nothing.
- `login`, `logout` and `check` have empty bodies and are not modelled.
- `Backend/src/index.js` and the route tables are wiring only. The tables import `checkAdmin` and `verify`, which their modules do not export.

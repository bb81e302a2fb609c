# Job-application tracker: request-handling core in Dafny

This project models the request-handling core of a multi-user
job-application tracker. Users register and log in, then keep a list of job
applications and read statistics about them. The core has three parts:

- the jobs controller (`createJob`, `getAllJobs`, `updateJob`, `deleteJob`,
  `showStats`);
- the account controller (`register`, `login`, `updateUser`);
- the error-handling middleware, which turns every thrown error into a
  status code and a `{ msg }` body.

The document store is replaced by maps held in two store objects.
`Jobs.JobStore` holds `jobs: map<JobId, Job>` and `Auth.UserStore` holds
`users: map<UserId, Account>`. Each store hands out ids from a counter,
`nextId`. Its `Valid()` invariant says every id in use is below the counter.
For the user store it also says no email belongs to two accounts; this is
the collection's unique index. `Job.find({ createdBy })` and the email
lookups `User.findOne({ email })` of register and login become scans over
the ids in ascending order (`Jobs.Owned`, `Auth.FindByEmail`), the store's
natural order. The lookups by id (`Job.findOne({ _id })` in update and
delete, `User.findOne({ _id })` in updateUser) are map lookups.

The handlers that change the store (createJob, updateJob, deleteJob,
register, updateUser) and `login` become methods of their store. Each
returns a `Result`: either the reply or the error the handler throws. The
`ensures` of a state-changing method gives the whole new state for every
path. `getAllJobs` and `showStats` cannot fail, so they become functions of
the store that return the reply itself. The statistics are pure functions,
split into the pipeline stages of the source:

- `$group` becomes `Aggregation.Group`;
- the `reduce` becomes `Aggregation.Tally`;
- the defaulting object becomes `JobStats.DefaultStats`;
- `$sort` becomes `JobStats.SortDescending`;
- `$limit` becomes `JobStats.Limit`;
- `reverse` becomes `JobStats.Reversed`.

Lemmas relate each stage to an independent definition: the multiplicity of
a status or a month among the user's jobs.

The middleware is an imperative method, `ErrorHandler.HandleError`. It
builds a default reply and overwrites it with two `if`s in order. Its
contract equates it with `ErrorHandler.Reply`, which states the rules by
precedence.

Some collaborators are parameters rather than code:

- The permission check (`utils/CheckPermissions.js`) is an argument
  `checkPermissions: (UserId, UserId) -> Option<ApiError>`. None means it
  passes; `Some(e)` means it throws `e`.
- Password hashing, `comparePassword` and `createJWT` (`models/User.js`) are
  the fields of an `Auth.Crypto` record given to the user store.
- The schema defaults of `lastName` and `location` are given to the user
  store's constructor.
- The clock is an argument `now` of `CreateJob`.

`models/User.js`, `models/Job.js`, `errors/index.js` and
`utils/CheckPermissions.js` are not part of this model.

Where the code does something other than what its own comments or the
system's documented intent suggest, the model follows the code:

- `updateJob` passes the request body to the update unchanged. A body with
  `createdBy` therefore reassigns the job to another user
  (`Jobs.UpdateCanReassignOwner`). Only `createJob` forces the owner. No
  contract here claims that the owner is immutable.
- `updateJob` checks the body before looking the job up. A body without a
  company or a position gives BadRequest even for an id that does not exist.
- A duplicate email at registration is a BadRequest (400) with the message
  "Email already in use. Please choose another.". It is not a separate
  conflict kind.
- `updateUser` does not check the new email itself. Saving it collides
  with the unique index, and the middleware answers 400 "A user with that
  email already exists.". If the user no longer exists, `user.email = …`
  on `null` throws a TypeError, and the middleware answers 500 with the
  TypeError's message.
- There are only three statuses, so the three status counts add up to
  exactly the number of the user's jobs. "At most" is the weaker claim.

## Model

| member | source | states |
|---|---|---|
| `Jobs.JobStore.CreateJob` | controllers/jobsController.js:8-16 | Missing or empty position or company gives BadRequest('Please provide all values') and no change. Otherwise exactly one job is added under a fresh id. Its owner is the caller, whatever `createdBy` the body held, and its status defaults to pending. |
| `Jobs.Owned` | controllers/jobsController.js:19 | The scan behind `Job.find({ createdBy })` returns exactly the stored jobs of that user, each with its stored value, in strictly ascending id order (so no job twice). |
| `Jobs.JobStore.GetAllJobs` | controllers/jobsController.js:18-21 | Every listed job belongs to the caller and is stored as listed. Every job of the caller is listed, and none twice. `totalJobs` is the list's length and `numOfPages` is 1. |
| `Jobs.JobStore.UpdateJob` | controllers/jobsController.js:23-43 | The body check comes first (BadRequest even for an absent id), then NotFound('No job with id: …') for an absent id, then the permission check's error. All three leave the store unchanged. On success only that job changes: every field the body has is overwritten, `createdBy` included. |
| `Jobs.NewJob` | controllers/jobsController.js:13-14 | The created job has the body's position and company, its status or pending when it has none, its type and location as given, the owner the handler set and the creation date. |
| `Jobs.Patch` | controllers/jobsController.js:38-41 | Every field the update body has replaces the stored one, `createdBy` included. Every field it lacks is kept, and the creation date is always kept. |
| `Jobs.PatchIdempotent` | controllers/jobsController.js:38-41 | A sanity fact about the model of the update, not a promise of the source: applying the same update body twice gives the same job as applying it once. The update's contract is stated by `Jobs.Patch` and `Jobs.JobStore.UpdateJob`. |
| `Jobs.UpdateCanReassignOwner` | controllers/jobsController.js:23-43 | An update that passes the body check and the permission check, and whose body names a user in `createdBy`, succeeds and makes that user the job's owner; the creation date is kept. |
| `Jobs.JobStore.DeleteJob` | controllers/jobsController.js:45-59 | An absent id gives NotFound and no change. A failed permission check gives its error and no change. Otherwise that job is gone, every other job is untouched, and the reply is 'Success! Job removed.'. |
| `Jobs.JobStore.ShowStats` | controllers/jobsController.js:61-95 | The caller's three status counts add up to the `totalJobs` that `getAllJobs` reports to the same caller. |
| `Jobs.StatsOf` | controllers/jobsController.js:63-92 | Each status count equals the number of the user's jobs with that status (0 if none), and the three sum to the job count. The monthly series has at most 6 entries in strictly ascending (year, month) order. Each count is positive and equals the number of jobs created in that month. Every job's month is in the series, or the series is full and that month is older than all of it. |
| `Aggregation.Group` | controllers/jobsController.js:63-66 | `$group` with `$sum: 1` gives one bucket per distinct key of the input and no other. Each count is positive and equals the key's number of occurrences. |
| `Aggregation.Tally` | controllers/jobsController.js:67-71 | The `reduce` gives an object whose keys are exactly the grouped keys, each mapped to its group's count. |
| `JobStats.DefaultStats` | controllers/jobsController.js:72-76 | `stats.x \|\| 0` is the reduced count of status x, or 0 when x has no entry; a reduced count of 0 gives 0 as well. |
| `JobStats.StatusCounts` | controllers/jobsController.js:63-76 | The status pipeline: group by status, reduce into an object, fill the three defaults. Its properties are stated by `JobStats.StatusCountsExact` and `JobStats.StatusCountsTotal`. |
| `JobStats.StatusCountsExact` | controllers/jobsController.js:72-76 | `defaultStats` has exactly pending, interview and declined. Each equals the number of jobs with that status, 0 when there is none. |
| `JobStats.StatusCountsTotal` | controllers/jobsController.js:63-76 | The three counts add up to the number of the user's jobs, so never more. |
| `JobStats.SortDescending` | controllers/jobsController.js:85 | The `$sort` stage returns a permutation of the buckets (same multiset, same length). |
| `JobStats.SortDescendingOrdered` | controllers/jobsController.js:85 | When no month has two buckets, as after `$group`, the sorted list is strictly newest month first. |
| `JobStats.InsertKeepsOrder` | controllers/jobsController.js:85 | Inserting a new month into a strictly newest-first list keeps it strictly newest first. |
| `JobStats.Limit` | controllers/jobsController.js:86 | `$limit` keeps a prefix of at most n buckets, and all of them when there are no more than n. |
| `JobStats.Reversed` | controllers/jobsController.js:88-92 | `reverse` returns the same length with element k equal to element \|s\|-1-k of the input. |
| `JobStats.MonthlyApplications` | controllers/jobsController.js:77-92 | The monthly pipeline: group by month, sort newest first, keep six, reverse. The series never has more than 6 entries; its order, counts and recency are stated by `JobStats.MonthlyOrdered`, `JobStats.MonthlyCounts` and `JobStats.MonthlyMostRecent`. |
| `JobStats.MonthlyOrdered` | controllers/jobsController.js:77-92 | `monthlyApplications` has at most 6 entries, in strictly ascending (year, month) order, so one per month. |
| `JobStats.MonthlyCounts` | controllers/jobsController.js:77-92 | Each entry's count is positive and equals the number of the user's jobs created in that month. |
| `JobStats.MonthlyMostRecent` | controllers/jobsController.js:77-92 | A month in which the user created jobs is in the series, or the series holds 6 months that are all later: it keeps the most recent months. |
| `Jobs.MonthlyKeepsRecentJobs` | controllers/jobsController.js:77-92 | The same most-recent property, stated for each of the user's jobs through its creation month. |
| `Auth.FindByEmail` | controllers/authController.js:10 | `User.findOne({ email })` returns an account with exactly that email, or None if and only if no account has it. |
| `Auth.UserStore.Register` | controllers/authController.js:5-20 | A missing name, email or password gives BadRequest('Please fill out all fields') and no change. A taken email gives BadRequest('Email already in use. Please choose another.') and no change. Otherwise exactly one account is added: it holds the password's hash and the schema defaults. The reply holds only email, lastName, location and name, plus the token for the new account. |
| `Auth.UserStore.Login` | controllers/authController.js:22-44 | A missing email or password gives BadRequest('Please provide all values'). An unknown email and a wrong password give the same UnAuthenticated('Invalid credentials'). Success means an account with that email whose password compares correctly. The reply holds that account with the password cleared, its token and its location. No `modifies` clause: the store is unchanged. |
| `Auth.Document` | controllers/authController.js:39-43 | A user document sent to the client carries the account's id, name, email, lastName and location, and no password. |
| `Auth.UserStore.UpdateUser` | controllers/authController.js:46-60 | Any of the four fields missing gives BadRequest('Please provide all values') and no change. Otherwise only the caller's account changes: email, name, lastName and location take the inputs and the password is kept. A missing user gives the TypeError, and an email held by another account gives the duplicate-key error, both with no change. |
| `Auth.RegisterThenLogin` | controllers/authController.js:5-44 | When the user model accepts a password for an account that stores its hash, registering and then logging in with the same credentials succeeds. The login is for the new account, its token is the one issued for that account, and its document has no password. |
| `Auth.RegisterTwice` | controllers/authController.js:10-13 | A second registration with the same email fails with 'Email already in use…'. Afterwards the store holds exactly the accounts it held before plus the first registration's account (its name, email, password hash and the schema defaults), and one id has been used. |
| `ErrorHandler.Reply` | middleware/error-handler.js:3-20 | The reply rule by rule in order of precedence: a duplicate key, then a ValidationError, then the error's own status and message with their defaults. Its properties are stated by the `ErrorHandler` lemmas below. |
| `ErrorHandler.HandleError` | middleware/error-handler.js:3-21 | The default reply overwritten by the ValidationError rule and then the duplicate-key rule equals `Reply`. That is: a duplicate key (code 11000) gives 400 and the templated message; otherwise a ValidationError gives 400 and the field messages joined by ","; otherwise the error's own status (500 if none) and message (the generic one if none). The body is only `msg`. |
| `ErrorHandler.ReplyStatus` | middleware/error-handler.js:5-6 | The status is 400, 500 or the error's own. The error's own non-zero status is kept unless a rule applies. Without one, the status is 400 or 500. When neither rule applies and the status is missing or 0, it is 500. |
| `ErrorHandler.ReplyHasMessage` | middleware/error-handler.js:8 | The reply's message is never empty, except for a ValidationError (without code 11000) whose field messages are none or a single empty one: a missing message falls back to the generic one, and two or more joined field messages, or one non-empty one, give a non-empty text. |
| `ErrorHandler.ValidationMessageListsFields` | middleware/error-handler.js:10-14 | A ValidationError gives 400. When no field message contains a comma, splitting `msg` at the commas gives back exactly the field messages, in order. |
| `ErrorHandler.SplitJoin` | middleware/error-handler.js:13 | `join(",")` loses nothing: split undoes it when no part contains the separator. |
| `ErrorHandler.DuplicateKeyOverrides` | middleware/error-handler.js:16-19 | With code 11000 the reply is 400 whatever the error's name, message, status or field messages: the last rule overrides the ValidationError rule. |
| `ErrorHandler.ControllerErrorReplies` | middleware/error-handler.js:5-20 | BadRequest, NotFound and UnAuthenticated reach the client as 400, 404 and 401 with their own message. A duplicate key gives 400 'A user with that <keys> already exists.'. Any other error gives 500 with its message or the generic one. |

## Left out

- Express wiring, environment loading, request logging, the database
  connection and `console.log` (`server.js`) are plumbing with no decision
  in them. `errors/custom-api.js` is an `Error` subclass with no behaviour.
- The error classes of `errors/index.js` are not part of this model. They
  are taken to carry the statuses 400, 404 and 401 and the name "Error"
  (`ErrorHandler.Thrown`).
- Success status codes (201 after create and register, 200 otherwise) are
  constants with no decision, so the success replies do not carry them.
- Request bodies are typed: each field is absent (None) or a value of its
  type, and a string field holding "" counts as missing, as `!field` sees
  it. JSON `null`, `0`, `false` or a value of another type in a field are
  not modelled. In particular an update body with `jobLocation: null`
  would clear the stored location through `findOneAndUpdate`, while the
  model's None keeps it.
- `createJWT` is modelled without the clock. A signed token carries its
  issue time, so two tokens for the same account are not equal in general.
  The model states only which account a token is issued for.
- Password hashing, password comparison and token signing are opaque
  functions (`Auth.Crypto`). The model does not look at cryptography, salts
  or token expiry. A salted hash is folded into `hashPassword`.
- Schema behaviour of `models/Job.js` and `models/User.js` is not modelled:
  - required fields, enum checks and lengths (`runValidators`), so the
    controllers here never raise a ValidationError;
  - the defaults of `jobType` and `jobLocation` (None stands for "the
    schema's default");
  - a save hook that might re-hash an unchanged password on `updateUser`.
    The model keeps the stored hash.
- Ids are naturals from a counter, not ObjectIds. A malformed id in the URL
  (a cast error) is not modelled. `createdAt` is kept to the day and
  `updatedAt` is not kept.
- The month label `moment(...).format('MMM Y')` depends on a date library
  and the current time. Each monthly entry carries its (year, month) key
  instead.
- `$group` returns buckets in no specified order. The model fixes one
  order; the statistics do not depend on it.
- In the middleware, a ValidationError without `errors` or a code-11000
  error without `keyValue` would throw inside the handler itself. Here the
  field messages and key names are always lists.
- Async execution and the race between a lookup and the following write
  are not modelled: each handler runs atomically.
- `Jobs.JobStore.ShowStats`: its own contract states only the link between
  the status counts and `totalJobs`. The other statistics properties are
  stated by `Jobs.StatsOf`, which it returns for the caller's jobs.

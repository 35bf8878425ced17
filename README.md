# Job board workflow model

A Dafny model of the job-board backend's workflow engine: the job lifecycle
(create, ownership-gated update with its status transition table, delete,
browse), the application lifecycle (apply with a resume, company status
updates with notification mails, the two paginated listings), the account
flow (sign-up with a verification mail, the verification-token state
machine, login), and the validators and role gate those endpoints rely on.

The database is a class `Crud.Db` whose fields are maps from primary key
to record (users, jobs, applications, verification tokens) plus a counter
handing out fresh keys. `Db.Valid()` is the store invariant:
- keys agree with record ids;
- e-mails are unique and `is_verified` is 0 or 1;
- jobs belong to stored companies and applications to stored applicants;
- there is at most one application per (applicant, job) pair;
- every application names a stored job (the `applications.job_id` foreign
  key);
- tokens name stored users.

Every mutating endpoint keeps the invariant and states its whole new
state.

The request's background tasks are a class `EmailUtils.BackgroundTasks`
holding an outbox `queue: seq<Email>`, and sending a mail appends to it.

Endpoints return `Result<_, Failure>`. `Failure` has one constructor per
distinguishable response of the routers. An exception that escapes a
handler is `ServerError`. The store is then left unchanged, except for
writes the handler committed before it raised: the as-written verification
flow (`AuthRouter.VerifyEmailAsWritten`) keeps a token it had already
committed. The causes are:
- an enum constructor on a bad string;
- a commit refused because a value is wider than its varchar column or
  names no enum value;
- a negative OFFSET or LIMIT;
- a job deleted while applications still name it (foreign key);
- a name the module never imports (`VerifyEmailAsWritten`,
  app/routers/auth.py:38,46).

The listings are modelled in four steps:
1. a SQL `WHERE` is a set comprehension over keys;
2. the selected rows are listed in key order;
3. `ORDER BY` is a stable insertion sort on a lexicographic integer key
   (`Query.SortBy`);
4. `.offset((page-1)*size).limit(size)` is `Query.Page`.

`ILIKE '%x%'` is PostgreSQL LIKE matching (`Query.LikeMatch`) of the
lower-cased column against `%` + the lower-cased filter text + `%`. The
filter text is spliced in unescaped, so its own `%`, `_` and `\` act as
pattern characters. For filter text free of them, `Query.ILikeLiteral`
proves this is the case-insensitive substring test.

The model is sequential: each request runs alone against the store.

Query parameters with defaults are plain parameters of the endpoints:
- `page` = 1 and `size` = 10 (`Query.DEFAULT_PAGE`, `Query.DEFAULT_SIZE`);
- `sort_by` = "applied_at" and `order` = "desc" for `my_applications`
  (`ApplicationsRouter.DEFAULT_SORT_BY`, `DEFAULT_ORDER`).

`Query.DefaultPage` and `ApplicationsRouter.DefaultOrder` state what the
defaults select.

The following are parameters:
- the current time;
- password hashing and checking;
- JWT encoding and decoding, where decoding is an optional payload;
- the resume upload, a function from storage key to URL.

Modules follow the source files:
- `Models` (app/models.py);
- `Schemas` (app/schemas.py);
- `Auth` (app/auth.py);
- `Crud` (app/crud.py and the job and application data access the
  routers call);
- `EmailUtils` (app/email_utils.py);
- `JobsRouter`, `ApplicationsRouter` and `AuthRouter` (app/routers/);
- `Query`, which holds the SQL listing semantics they share;
- `Wrappers`, with Option and Result.

## Model

| member | source | states |
|---|---|---|
| Models.ParseRole | app/models.py:9-11 | `RoleEnum(s)` succeeds exactly for "applicant" and "company", and the parsed role's value is `s` |
| Models.ParseJobStatus | app/models.py:13-16 | `JobStatus(s)` succeeds exactly for Draft, Open and Closed, and names `s` back |
| Models.ParseApplicationStatus | app/models.py:18-23 | `ApplicationStatus(s)` succeeds exactly for the five declared values, and names `s` back |
| Models.NamesRoundTrip | app/models.py:9-23 | every enum member's value parses back to that member |
| Models.ApplicationStatusOrdinal | app/models.py:18-23 | a status's sort position is its index in the declaration order of the values |
| Models.NewUser | app/models.py:25-33 | a new user is unverified (`is_verified` 0) and created now, with the given fields |
| Models.NewJob | app/models.py:38-46 | a new job is Draft unless a status is given, owned by the creator, created now |
| Models.NewApplication | app/models.py:51-59 | a new application is Applied, applied now, with the given applicant, job, resume and letter |
| Schemas.Strip | app/schemas.py:31 | `strip()` yields an infix that neither starts nor ends with whitespace, only whitespace removed on each side |
| Schemas.Split | app/schemas.py:31 | `split(" ")` yields at least one part, no part holds a space, and joining with single spaces restores the input |
| Schemas.SplitJoin | app/schemas.py:31 | splitting a single-space join of space-free parts gives back exactly those parts |
| Schemas.NameAccepted | app/schemas.py:29-34 | letters-only first and last names around one space pass `name_must_be_two_parts` |
| Schemas.DoubleSpaceRejected | app/schemas.py:31-33 | a doubled inner space gives three parts and the name is refused |
| Schemas.NameShape | app/schemas.py:31-33 | conversely, every accepted name strips to two non-empty alphabetic words around one space |
| Schemas.NameTwoParts | app/schemas.py:29-34 | `name_must_be_two_parts`: the stripped value splits on " " into exactly two parts, each alphabetic; `NameAccepted`, `DoubleSpaceRejected` and `NameShape` prove what it accepts and refuses |
| Schemas.CheckPassword | app/schemas.py:36-44 | the password is accepted iff all five rules hold; otherwise the reported rule fails and every earlier rule holds (first failure wins) |
| Schemas.PasswordExamples | app/schemas.py:39-43 | "abc" fails on length first; "Str0ng!Pass" is accepted |
| Schemas.SignupExamples | app/schemas.py:23-44 | "Ada Lovelace" with a strong password is valid; a doubled inner space, a two-letter name or a short password are not |
| Schemas.SignupInValid | app/schemas.py:23-44 | SignupIn: full name of 3 to 200 characters in two alphabetic parts, and a password passing every rule; the examples above exercise each clause |
| Schemas.JobCreateValid | app/schemas.py:50-52 | JobCreate: title of 1 to 100 characters, description of 20 to 2000; `JobsRouter.CreateJob` refuses exactly what it refuses |
| Schemas.JobUpdateValid | app/schemas.py:56-58 | JobUpdate: the same bounds, checked only on the fields present; `JobsRouter.UpdateJob` refuses exactly what it refuses |
| Schemas.ApplicationCreateValid | app/schemas.py:62-63 | ApplicationCreate: an optional cover letter of at most 200 characters (declared, and not used by `apply_job`) |
| Auth.TokenLifetime | app/auth.py:22 | `expires_minutes or ACCESS_TOKEN_EXPIRE_MINUTES`: None and 0 fall back to 60, any other value is used |
| Auth.AccessTokenPayload | app/auth.py:20-25 | the signed payload has the caller's keys plus `exp`; other claims are copied; `exp` is now plus the lifetime |
| Auth.GetCurrentUser | app/auth.py:34-43 | an undecodable or empty payload is refused first; success iff `user_id` names a stored user, who is returned |
| Auth.RequireRole | app/auth.py:45-50 | authentication failures pass through; Forbidden iff the user's role value differs from the required one; otherwise the user |
| Auth.RequireRoleExact | app/auth.py:45-50 | a role's gate passes exactly the users holding that role; a string naming no role passes nobody |
| Query.IdsBelowCount | app/routers/jobs.py:65 | the listing of selected keys has exactly as many rows as the selection has keys |
| Query.ListingCount | app/routers/jobs.py:65 | when all keys are below the counter, the listing covers the whole selected set |
| Query.SortBy | app/routers/jobs.py:66 | `ORDER BY` yields a permutation of the rows in which neighbours are in key order |
| Query.SortKeepsMembers | app/routers/applications.py:67 | sorting neither adds nor drops a row |
| Query.SortedPairwise | app/routers/applications.py:67 | in a sorted listing every earlier row precedes every later one, not only its neighbour |
| Query.SortedAllPairs | app/routers/applications.py:67 | the sorted rows are ordered pairwise |
| Query.Page | app/routers/jobs.py:66 | `.offset((page-1)*size).limit(size)`: at most `size` rows, exactly the rows from the offset on, fewer or none near the end |
| Query.BadPage | app/routers/jobs.py:66 | a negative LIMIT or OFFSET, which the database refuses; every listing endpoint fails exactly on it |
| Query.DefaultPage | app/routers/jobs.py:57 | with the default page 1 and size 10 a listing shows exactly its first ten rows |
| Query.OccursAt | app/routers/jobs.py:60 | a needle that appears at some position of a text occurs in it; with `ILikeLiteral` an ILIKE filter of literal text matches every column containing it |
| Query.LikeMatch | app/routers/jobs.py:60-64 | LIKE matching: `%` matches any run, `_` any one character, `\` escapes the next; `LikeAnything`, `LikePrefix` and `LikeInfix` characterise it |
| Query.ILike | app/routers/jobs.py:60-64 | `column ILIKE '%needle%'` with the needle spliced in unescaped, both sides lower-cased |
| Query.LikeAnything | app/routers/jobs.py:60 | a lone `%` matches every string |
| Query.LikePrefix | app/routers/jobs.py:60 | a pattern-character-free text followed by `%` matches exactly the strings that start with it |
| Query.LikeInfix | app/routers/jobs.py:60 | `%q%` with pattern-character-free `q` matches exactly the strings containing `q` |
| Query.ILikeLiteral | app/routers/jobs.py:60-64 | for filter text without `%`, `_` or `\`, ILIKE is exactly the case-insensitive substring test |
| Query.WildcardExample | app/routers/jobs.py:60 | the filter "a_c" matches the title "abc": `_` is a wildcard |
| Query.EscapeExamples | app/routers/jobs.py:60 | the filter `a\b` looks for "ab": it matches "cab" and not the text `a\b` |
| Query.TextFilter | app/routers/jobs.py:59-64 | an absent or empty filter (falsy) selects every row; any other applies ILIKE |
| Query.ILikeCaseInsensitive | app/routers/jobs.py:60-64 | lower-casing the column or the needle does not change an ILIKE filter |
| Crud.UserInsert | app/models.py:29 | inserting a user under the next key with an unused e-mail keeps e-mails unique and every existing role |
| Crud.AppInsert | app/routers/applications.py:27-36 | inserting an application for an unused (applicant, job) pair keeps one application per pair |
| Crud.AppStatusChange | app/routers/applications.py:116-118 | changing a status keeps one application per pair and its foreign keys |
| Crud.UserVerify | app/routers/auth.py:49-51 | setting `is_verified = 1` keeps e-mails unique and roles unchanged |
| Crud.AppJobInsert | app/models.py:55 | inserting an application for a stored job keeps the `job_id` foreign key |
| Crud.Db.Valid | app/models.py:25-69 | the store invariant: ids match keys, unique e-mails, `is_verified` 0 or 1, jobs owned by companies, applications by applicants and for stored jobs, one per pair, tokens for stored users; every mutating operation keeps it |
| Crud.Db.CreateUser | app/crud.py:7-12 | adds exactly one new, unverified user with the given fields; fails and changes nothing iff the role names no RoleEnum or the e-mail is stored |
| Crud.Db.GetUserByEmail | app/crud.py:14-15 | the stored user with exactly that e-mail, or none iff there is no such user |
| Crud.Db.CreateEmailToken | app/crud.py:17-23 | stores one fresh token for the user expiring VERIFICATION_TOKEN_EXPIRE_MINUTES (60) from now; other tables unchanged |
| Crud.Db.GetToken | app/crud.py:25-26 | the record stored under that token string, or none iff absent |
| Crud.Db.DeleteToken | app/crud.py:28-30 | removes exactly that token; everything else unchanged |
| Crud.Db.GetJob | app/routers/jobs.py:21 | the stored job with that id, or none iff absent |
| Crud.Db.CreateJob | app/routers/jobs.py:14 | inserts one new job with the defaults of `NewJob`; fails iff the location is wider than its column |
| Crud.Db.UpdateJob | app/routers/jobs.py:40-41 | writes back exactly the given job record; fails, changing nothing, iff the location is too wide |
| Crud.Db.DeleteJob | app/routers/jobs.py:51 | removes exactly that job; the commit fails, changing nothing, iff some application still names it (models.py:49,55: no cascade, non-null foreign key) |
| Crud.Db.GetApplicationByApplicantJob | app/routers/applications.py:27 | an application of that applicant for that job, or none iff there is none |
| Crud.Db.CreateApplication | app/routers/applications.py:36 | inserts one new Applied application, keeping one per pair; fails iff the cover letter exceeds its column |
| Crud.Db.SetApplicationStatus | app/routers/applications.py:116-119 | only that application's status changes |
| Crud.Db.SetVerified | app/routers/auth.py:49-51 | only that user's `is_verified` changes, to 1 |
| EmailUtils.SendEmailBackground | app/email_utils.py:21-22 | appends exactly one (to, subject, html) mail to the outbox |
| JobsRouter.TransitionAllowed | app/routers/jobs.py:28-39 | a requested status is accepted iff it equals the current one or is one step forward; a closed job accepts only Closed |
| JobsRouter.AllowedTargets | app/routers/jobs.py:28-32 | the transition table Draft to Open, Open to Closed, Closed to nothing; `TransitionAllowed` characterises acceptance from it |
| JobsRouter.AcceptedChainNeverRegresses | app/routers/jobs.py:28-39 | along any chain of accepted changes the status never moves back in Draft < Open < Closed, and Closed stays Closed |
| JobsRouter.Patched | app/routers/jobs.py:40 | exactly the payload's non-None fields are overwritten; id, owner and creation time are kept |
| JobsRouter.CreateJob | app/routers/jobs.py:12-16 | validation error iff the JobCreate bounds fail; otherwise inserts one job owned by the caller; a server error iff the schema passes and the status names no JobStatus or the location is over-long; failures change nothing |
| JobsRouter.UpdateJob | app/routers/jobs.py:19-42 | in order: schema (refusing exactly what creation refuses when both texts are given), not-found, unauthorized, invalid transition (iff a named status is outside the table), server error (iff, past those checks, the status cannot be stored or the location is over-long); on success only that job becomes the patched one and its status did not regress; failures change nothing |
| JobsRouter.DeleteJob | app/routers/jobs.py:44-52 | not-found, then unauthorized; for the owner, a server error iff applications still name the job, otherwise only that job is removed; failures change nothing |
| JobsRouter.ListedJobs | app/routers/jobs.py:58-64 | one row per selected key, each the stored job under that key |
| JobsRouter.JobMatches | app/routers/jobs.py:59-64 | the three optional ILIKE filters on title, location and the owner's name; a job without a location never matches a location filter |
| JobsRouter.MatchingJobs | app/routers/jobs.py:58-64 | the jobs the browse query selects: stored, joined with their owner, passing the filters |
| JobsRouter.BrowseOrderRows | app/routers/jobs.py:58-66 | the browse order holds exactly the jobs passing the three ILIKE filters, with `%`, `_` and `\` in the filter text acting as LIKE pattern characters, as stored |
| JobsRouter.BrowseOrderCount | app/routers/jobs.py:65-66 | the ordered list has one entry per matching job |
| JobsRouter.BrowseOrderNewestFirst | app/routers/jobs.py:66 | the browse order is `created_at` descending |
| JobsRouter.BrowseJobs | app/routers/jobs.py:55-78 | `totalSize` counts all matching jobs; the items are that page of the newest-first order, rendered; a negative offset or limit is a server error |
| JobsRouter.JobOutRows | app/routers/jobs.py:67-77 | the response loop renders each page row, in order |
| JobsRouter.JobDetail | app/routers/jobs.py:81-94 | the stored job's rendering iff it exists, otherwise not-found |
| ApplicationsRouter.ApplyJob | app/routers/applications.py:16-41 | in order: not-found, duplicate, unsupported format, then a server error iff the cover letter exceeds its column; on success exactly one Applied application with the uploaded URL and one mail to the job's owner, "New applicant for {title}", and still one application per pair; failures change neither store nor outbox |
| ApplicationsRouter.NewApplicantMail | app/routers/applications.py:39-40 | the owner's mail: to the owner, subject "New applicant for {title}", naming the applicant and the resume URL |
| ApplicationsRouter.StatusMail | app/routers/applications.py:121-131 | a mail exists exactly for Interview, Rejected and Hired |
| ApplicationsRouter.StatusNotifications | app/routers/applications.py:121-132 | a status change queues one mail, to the applicant, iff the new status is Interview, Rejected or Hired, otherwise none |
| ApplicationsRouter.StatusSubjectsDistinct | app/routers/applications.py:122-131 | the three notification subjects differ from one another for every title |
| ApplicationsRouter.UpdateApplicationStatus | app/routers/applications.py:105-133 | in order: invalid status, not-found, unauthorized; success changes only that application's status, echoes it, and queues exactly the status notification; failures change neither store nor outbox |
| ApplicationsRouter.MyListed | app/routers/applications.py:48-54 | one joined row per selected key: the application with its job and the job's owner |
| ApplicationsRouter.MySelection | app/routers/applications.py:48-54 | the applications `my_applications` selects: the caller's, inner-joined with job and owner, passing the company ILIKE, job-status and app-status membership filters |
| ApplicationsRouter.SortFieldOf | app/routers/applications.py:57-62 | each of the three named keys selects its column; any other key falls back to `applied_at` |
| ApplicationsRouter.Descending | app/routers/applications.py:63-66 | descending iff the order string lower-cases to "desc" |
| ApplicationsRouter.DescendingExamples | app/routers/applications.py:63 | "desc", "DESC" and "Desc" sort descending; "asc", "" and "descending" do not |
| ApplicationsRouter.DefaultOrder | app/routers/applications.py:46 | the defaults `sort_by="applied_at"`, `order="desc"` sort by applied_at, descending |
| ApplicationsRouter.RowKey | app/routers/applications.py:57-62 | the ORDER BY column of each sort key: applied_at, the owner's full name, the status's enum position, the job title |
| ApplicationsRouter.MyOrderRows | app/routers/applications.py:48-54 | every listed row is one of the caller's stored applications, passing the company ILIKE pattern (LIKE semantics), job-status and app-status membership filters |
| ApplicationsRouter.MyOrderComplete | app/routers/applications.py:48-54 | every selected application is listed |
| ApplicationsRouter.MyOrderCount | app/routers/applications.py:55 | the listing has one row per selected application |
| ApplicationsRouter.MyOrderSorted | app/routers/applications.py:57-67 | the listing is ordered by the chosen key in the chosen direction |
| ApplicationsRouter.MyRowsOut | app/routers/applications.py:68-76 | the response loop renders each page row, in order, keeping its application id |
| ApplicationsRouter.JobStatusFilter | app/routers/applications.py:51-52 | an absent or empty job-status filter selects everything; any other string must name a JobStatus, otherwise the request fails |
| ApplicationsRouter.MyApplications | app/routers/applications.py:44-77 | `totalSize` counts the selection; the items are that page of the sorted listing; every item is an application of the caller; a bad job status or page is a server error |
| ApplicationsRouter.MyPageOwned | app/routers/applications.py:48 | every row of any page belongs to the caller |
| ApplicationsRouter.JobListed | app/routers/applications.py:88-90 | one row per selected key, each the stored application |
| ApplicationsRouter.JobSelection | app/routers/applications.py:88-90 | the applications of that job, optionally with exactly one status |
| ApplicationsRouter.JobOrderRows | app/routers/applications.py:88-92 | the listing holds exactly the job's applications with the requested status |
| ApplicationsRouter.JobOrderCount | app/routers/applications.py:91 | the listing has one row per selected application |
| ApplicationsRouter.JobOrderNewestFirst | app/routers/applications.py:92 | the listing is `applied_at` descending |
| ApplicationsRouter.JobPageApplicants | app/routers/applications.py:92-96 | every row of any page belongs to the job and names a stored applicant |
| ApplicationsRouter.JobRowsOut | app/routers/applications.py:93-101 | the response loop renders each page row, in order |
| ApplicationsRouter.AppStatusFilter | app/routers/applications.py:89-90 | an absent or empty status filter selects everything; any other string must name an ApplicationStatus |
| ApplicationsRouter.ViewJobApplications | app/routers/applications.py:80-102 | not-found, then unauthorized; `totalSize` counts the job's matching applications; the items are that page of the newest-first listing |
| AuthRouter.Signup | app/routers/auth.py:12-27 | schema, then existing e-mail; success iff valid, unused e-mail and known role, with exactly one new unverified user, one token for that user and one mail carrying it; failures change neither store nor outbox |
| AuthRouter.VerificationMail | app/routers/auth.py:24-25 | the sign-up mail: subject "Verify your email", carrying the token and the 60-minute lifetime |
| AuthRouter.VerifyEmail | app/routers/auth.py:29-53 | unknown token: invalid, nothing changes; strictly expired: a fresh token for the same user is mailed as a link, the old one deleted, the user untouched; live token of a verified user: nothing changes; otherwise the user becomes verified and the token is consumed |
| AuthRouter.ExpiredMail | app/routers/auth.py:39-41 | the re-issue mail: subject "New verification link", a link to the front end carrying the new token |
| AuthRouter.VerifyEmailAsWritten | app/routers/auth.py:29-53 | as the file stands, every known token ends in a server error; an expired one leaves a fresh, unmailed token beside the undeleted old one |
| AuthRouter.LoginClaims | app/routers/auth.py:63 | the login claims are exactly `user_id` and the role's value |
| AuthRouter.Login | app/routers/auth.py:55-64 | the one refusal is "invalid credentials"; success iff a user with that e-mail has a matching password, with a bearer token over that user's claims |
| AuthRouter.LoginTokenAuthenticates | app/routers/auth.py:63 | a login token, decoded, authenticates exactly that user, passes that user's role gate, and expires 60 minutes on |

## Left out

- Password hashing and checking, JWT signing and decoding, and the resume upload are function parameters. Their cryptography and storage are not modelled.
- SMTP delivery and the background-task runner: sending a mail only appends to the outbox.
- HTTP status codes, JSON envelopes, FastAPI dependency injection and the response models. Only the result kinds are kept.
- The DataError-to-404 mapping of a malformed job id in `apply_job` (app/routers/applications.py:21-23). Ids are naturals, so a malformed id cannot be formed, and an unknown one is not-found.
- `EmailStr` validation of e-mail addresses.
- Unicode `isalpha`, `isspace` and case folding, and ILIKE under database collation. Letters, whitespace and lower-casing are ASCII.
- Schemas.CheckPassword: `\W` is taken over ASCII, where Python's is Unicode-aware. So "Passwörd1A" is accepted here, while the source refuses it because `ö` is a word character.
- ApplicationsRouter.MyOrderSorted: the `company_name` and `job_title` keys are ordered by character code, not by the database collation. Under en_US.UTF-8, for example, "acme" sorts before "Zeta", while here "Zeta" comes first.
- Concurrency. Requests are modelled one at a time. There is no unique constraint on the (applicant, job) pair (app/models.py:51-59), so one application per pair rests on the check-then-insert of app/routers/applications.py:27-36. Two concurrent applications could both find no existing row and both be inserted.
- The ApplicationCreate schema (`Schemas.ApplicationCreateValid`) is not used by `apply_job`, whose cover letter is a plain query parameter (app/routers/applications.py:16). There the only bound is the 200-character column width, enforced by `Crud.Db.CreateApplication`.
- Crud.Db.CreateUser: does not model the 256-character width of the `email` and `password_hash` columns. A longer value, which only `EmailStr` or the hash could produce, is stored rather than refused.
- Crud.Db.CreateApplication: does not model the 1024-character width of `resume_link`. An upload URL is assumed to fit.
- Timestamps are integers (minutes) passed in as `now`. The database default `func.now()` is that parameter.
- The database leaves the order of rows with equal sort keys unspecified. The model breaks such ties by key order, through a stable sort, and so proves nothing about them.
- ApplicationsRouter.MyApplications: an `app_status` value naming no status matches nothing, rather than possibly being refused by the database's enum type.
- Auth.GetCurrentUser: a `user_id` claim that is not an id (a string SQL would refuse) is refused as user-not-found, not as a server error.
- The data-access functions `get_job`, `create_job`, `update_job`, `delete_job`, `get_application_by_applicant_job` and `create_application` are called by the routers but are not part of this model's source. Their behaviour is inferred from the call sites.
- Configuration loading (app/config.py) and router wiring (app/main.py). The two expiry settings are the constants 60, their defaults. app/main.py:12 leaves the applications router unmounted, which the model does not reflect.
- UUID generation: fresh keys and token strings come from one counter, so their uniqueness is by construction.

## Findings

| source | as written | input that shows it | evidently intended | confidence | as-written member | corrected member |
|---|---|---|---|---|---|---|
| app/routers/auth.py:37-46 | `verify_email` looks up the token's user through `models`, which the router never imports (only `RoleEnum` at line 8). The link at line 39 also reads `settings.FRONTEND_BASE_URL`, which app/config.py:15 comments out. | Any stored token, e.g. the one a fresh sign-up mails. A live token raises NameError at line 46, so the user is never verified. An expired one commits a new token at line 37, then fails before the mail and the delete. | Look up the token's user in the store. Mail the link under the configured front-end address. Delete the expired token or verify the user. | not executed | AuthRouter.VerifyEmailAsWritten | AuthRouter.VerifyEmail |

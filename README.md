# Job Listing Portal — a Dafny model

This project models the core of a job-listing portal, split into two tiers.

**Backend.** A Django REST service. It has:
- a user store;
- jobs, each created by a user;
- applications, each linking an applicant to a job and carrying a status (`pending`, `shortlisted`, `rejected` or `accepted`).

It registers users through a validating serializer. It signs them in with JWT tokens. It lists jobs and shows one job. It accepts one application per applicant and job, and lists a user's applications. A Django admin restricts company admins to their own jobs and to the applications for those jobs.

**Frontend.** A React client made of:
- an authentication provider, which keeps the signed-in user and the two tokens in browser storage;
- login and registration pages;
- a job list page;
- a job page with an application form;
- a "My Applications" page.

The model is organised by the program's own files:

- **Shared types.** `Wrappers`, `Text` and `Wire` hold the shared types. `Text` also holds the two integer readers the tiers use: JavaScript's `parseInt` and Python's `int()`.
- **Backend.** `Models`, `Database` (the ORM tables as a `Store` class with cascading deletes), `Serializers`, `Views` and `Admin`.
- **Frontend.**
  - `AuthContext` has pure step functions and the `AuthProvider` class, whose methods are proved equal to them.
  - `ApplyPage`, `ApplicationsPage` and `JoblistPage` each have a page-state datatype, step functions, a render function and a class for the component's state.
  - `LoginPage` and `RegisterPage` hold the form actions.
- **Both tiers.** `EndToEnd` connects them. What a page sends is what a view reads. What a view answers is what a page shows.

## Model

| member | source | states |
|---|---|---|
| Text.IntString | Frontend/src/ApplyPage.jsx:95-96 | An id's decimal text, as it goes into a form field or a route, is non-empty and is digits after an optional minus sign |
| Text.ParseIntReadsIntString | Frontend/src/ApplyPage.jsx:65 | `parseInt` reads an id back from its decimal text, whatever non-digit text follows it |
| Text.ParseIntWithoutDigits | Frontend/src/ApplyPage.jsx:65 | `parseInt` of text without a digit is NaN, which equals no job id |
| Text.ParseStrictIntReadsIntString | Backend/backend/views.py:94 | Python's `int()` accepts the decimal text of every integer and returns that integer |
| Text.ParseIntAgreesWithStrict | Backend/backend/views.py:100 | On every text `int()` accepts, `parseInt` yields the same number, so both tiers read one id from one text |
| Text.JoinEmptyIff | Frontend/src/RegisterPage.jsx:28-31 | Joining non-empty parts gives the empty string exactly when there are no parts |
| Models.StatusChoicesExact | Backend/backend/models.py:18-25 | Each of the four status choices reads back from its stored value, only that value reads back as it, and the value fits `max_length=20` |
| Database.FindJob | Backend/backend/views.py:79 | `Job.objects.get(id=…)` returns a job of the table with that id, or nothing when no row has it |
| Database.JobDeletionKeepsConsistent | Backend/backend/models.py:27 | Deleting a job and, by cascade, its applications keeps every reference resolved and every id unique |
| Database.ApplicationDeletionKeepsConsistent | Backend/backend/admin.py:49-51 | Deleting one application keeps the store consistent |
| Database.UserDeletionKeepsConsistent | Backend/backend/models.py:24 | Deleting a user cascades to the user's jobs, to the user's applications and to the applications for those jobs (line 12), and keeps the store consistent |
| Database.Store.CreateUser | Backend/backend/serializers.py:26-32 | Adds one user under a fresh id with the given fields, not a superuser, and keeps the store valid |
| Database.Store.InsertJob | Backend/backend/models.py:11 | Appends the job under a fresh id with `posted_at` set to now; users and applications are unchanged |
| Database.Store.UpdateJob | Backend/backend/admin.py:19 | Replaces exactly the row with the job's id and nothing else |
| Database.Store.CreateApplication | Backend/backend/views.py:109-116 | Appends one application with a fresh id and status `pending`; users and jobs are unchanged |
| Database.Store.DeleteJob | Backend/backend/models.py:27 | Removes the job and every application for it; the store stays valid and no duplicate pair appears |
| Database.Store.DeleteApplication | Backend/backend/admin.py:49-51 | Removes the application with that id and nothing else |
| Database.Store.DeleteUser | Backend/backend/models.py:12 | Removes the user, the user's jobs, and every application by the user or for those jobs |
| Serializers.CheckCharField | Backend/backend/serializers.py:7-8 | A DRF `CharField`: passes exactly when present and, after trimming, either blank with blanks allowed or at least the minimum length. The value is trimmed. An absent optional field is omitted. A refusal carries one message |
| Serializers.CheckUsername | Backend/backend/serializers.py:12 | The username passes exactly when present, non-blank and not already taken |
| Serializers.ValidateAcceptsExactly | Backend/backend/serializers.py:6-22 | Registration data is accepted exactly when the username is free, the email is present, both passwords have at least 8 characters and are equal, and the names are blank-allowed |
| Serializers.ValidatedDataComplete | Backend/backend/serializers.py:19-22 | Accepted data holds a free, non-empty username, the email, and two equal passwords of at least 8 characters |
| Serializers.ShortPasswordRejected | Backend/backend/serializers.py:7 | A password shorter than 8 characters is refused with DRF's minimum-length message under `password` |
| Serializers.RegisteringTwiceRejected | Backend/backend/serializers.py:12 | Once a username is registered, the same registration is refused |
| Serializers.MissingEmailRejected | Backend/backend/serializers.py:14 | A registration without an email is refused with `This field is required.` under `email` |
| Serializers.MismatchRejected | Backend/backend/serializers.py:20-21 | Two valid but different passwords give exactly `{password: ["Passwords do not match"]}` |
| Serializers.Create | Backend/backend/serializers.py:24-33 | Drops `password2` and creates one non-superuser with the data's fields, the email normalised as `create_user` does; missing names default to '' |
| Serializers.NormalizeEmailIdempotent | Backend/backend/serializers.py:26-32 | `create_user`'s email normalisation (trim, then lower-case the part after the last `@`) changes nothing when applied to an address it produced |
| Views.RegisterUser | Backend/backend/views.py:17-28 | Valid data: 201, and exactly one user is added with the data's username, password, normalised email, and first and last names ('' when absent), all of which but the password the answer echoes. Invalid data: 400 with the serializer's errors, and the store is unchanged |
| Views.LoginUser | Backend/backend/views.py:31-52 | 200 with the user's id, username, email and both tokens exactly when the credentials authenticate; otherwise 401 `Invalid username or password` |
| Views.LogoutUser | Backend/backend/views.py:54-56 | Always 200 with `Logout successful` |
| Views.GetUserInfo | Backend/backend/views.py:58-68 | 200 with the requester's id, username, email and names exactly when authenticated, else 401 |
| Views.SerializeJob | Backend/backend/serializers.py:40-44 | Every job field is kept, and `created_by` becomes the creator's username |
| Views.JobList | Backend/backend/views.py:70-74 | 200 with every job, serialized, in the store's insertion order |
| Views.JobDetailView | Backend/backend/views.py:76-83 | 200 with the job of that id exactly when one exists, else 404 `Job not found` |
| Views.FindJobFindsRow | Backend/backend/views.py:79 | With unique ids, looking up a row's id finds that row |
| Views.DetailAgreesWithList | Backend/backend/views.py:70-83 | The detail of a listed job is exactly its entry in the listing |
| Views.CoerceId | Backend/backend/views.py:94 | An absent id matches nothing; text `int()` accepts is that id; other text is malformed |
| Views.DecideApplication | Backend/backend/views.py:88-106 | An application is admitted exactly when the applicant exists, the job exists and the pair has no application. Otherwise, in the order checked: a malformed applicant id gives 500 quoting it, a missing or unknown applicant 404 `User not found`; then a malformed job id 500, a missing or unknown job 404 `Job not found`; an existing pair 400 `You have already applied for this job` |
| Views.ApplicantCheckedFirst | Backend/backend/views.py:92-96 | An unknown applicant gets 404 `User not found`, whatever the job field holds |
| Views.DuplicateRefused | Backend/backend/views.py:104-106 | A second application for the same applicant and job is refused with 400 |
| Views.AppendNewPairKeepsDistinct | Backend/backend/views.py:104-116 | Appending an application for a new pair keeps every (applicant, job) pair unique |
| Views.ApplyJob | Backend/backend/views.py:85-121 | Unauthenticated: 401. Refused: the decision's status and message, and the store is unchanged. Admitted: 201, and exactly one `pending` application is appended with the form's fields (missing text defaults to ''). Pairs stay unique |
| Views.HistoryOnlyMine | Backend/backend/views.py:127-147 | Every entry of a user's history is one of that user's applications, with its id, job and a status that reads back as its choice |
| Views.HistoryAllMine | Backend/backend/views.py:127-147 | Every application of the user has an entry in the history |
| Views.UserApplications | Backend/backend/views.py:123-150 | Authenticated: 200 with the history of the applications of `user_id`, built by a loop over the table. Otherwise: 401 |
| Views.CollectEntries | Backend/backend/views.py:127-147 | The loop over the user's applications yields one entry per application of that user, in the store's insertion order, each with its job: exactly the history |
| Admin.JobQueryset | Backend/backend/admin.py:9-14 | A superuser sees all jobs; anyone else sees exactly the jobs they created |
| Admin.ApplicationQueryset | Backend/backend/admin.py:38-43 | A superuser sees all applications; anyone else sees exactly the applications for jobs they created |
| Admin.VisibleApplicationsHaveVisibleJobs | Backend/backend/admin.py:38-43 | The job of every application a company admin sees is among the jobs that admin sees |
| Admin.SaveModel | Backend/backend/admin.py:16-19 | A new job is saved under a fresh id with the requester as its creator; a changed job is saved as edited, creator included, in place of the row with its id; nothing else changes |
| Admin.JobCompany | Backend/backend/admin.py:27-28 | The company shown is the company of the application's job |
| Admin.ApplicationRowShowsApplication | Backend/backend/admin.py:22 | In a line of the application change list, the applicant and job columns joined by ` - ` are the application's string form (Backend/backend/models.py:33-34). The job column is the title of the job with that id (line 14-15) and the company column its company. Two lines show the same status label exactly when their statuses are equal. The resume column holds anchor markup carrying the resume's URL exactly when a resume was uploaded |
| Admin.ViewResumeLinksIff | Backend/backend/admin.py:31-34 | The column holds anchor markup exactly when a resume is stored, and the markup carries that resume's URL |
| Admin.HasAddPermission | Backend/backend/admin.py:45-47 | Nobody may add an application in the admin |
| Admin.HasDeletePermission | Backend/backend/admin.py:49-51 | Only a superuser may delete an application |
| Admin.AdminDeleteApplication | Backend/backend/admin.py:49-51 | The deletion happens exactly for a superuser and then removes only that application |
| AuthContext.Initial | Frontend/src/AuthContext.jsx:14-15 | On mount there is no user, loading is on, and the stored tokens are kept |
| AuthContext.CheckAuthRequest | Frontend/src/AuthContext.jsx:24-37 | A bearer token is sent exactly when a non-empty access token is stored |
| AuthContext.CheckAuthNext | Frontend/src/AuthContext.jsx:22-54 | Loading ends. A user is set exactly when a token was sent and the answer was ok. A rejected token removes both tokens. Any other outcome keeps them |
| AuthContext.LoginNext | Frontend/src/AuthContext.jsx:56-88 | Success exactly on an ok answer. Success stores both tokens and the user's id, username and email. A failure leaves the session as it was and always carries a message |
| AuthContext.LogoutNext | Frontend/src/AuthContext.jsx:90-107 | The user and both tokens are cleared, whatever the request does |
| AuthContext.RegisterOutcome | Frontend/src/AuthContext.jsx:109-137 | Success exactly on an ok answer. A refusal passes on the server's message (or 'Registration failed') and its errors. A network failure reports a network error |
| AuthContext.StepKeepsCoherent | Frontend/src/AuthContext.jsx:22-137 | Every provider action keeps both tokens stored or removed together, and a user only with an access token |
| AuthContext.RunKeepsCoherent | Frontend/src/AuthContext.jsx:22-137 | Any sequence of actions keeps that invariant |
| AuthContext.RejectedTokenNotResent | Frontend/src/AuthContext.jsx:42-47 | After the server rejects the token, the next check sends nothing and finds no user |
| AuthContext.LoggedOutStaysOut | Frontend/src/AuthContext.jsx:103-105 | After logout, a check sends nothing and finds no user |
| AuthContext.SignedInOnlyThroughServer | Frontend/src/AuthContext.jsx:39-41 | Without an ok answer to a login (lines 68-78) or to a check, a signed-out session stays signed out |
| AuthContext.AuthProvider.constructor | Frontend/src/AuthContext.jsx:14-15 | The provider starts in the initial session |
| AuthContext.AuthProvider.CheckAuth | Frontend/src/AuthContext.jsx:22-54 | Updates the fields to `CheckAuthNext` of the old state and sends `CheckAuthRequest`'s token |
| AuthContext.AuthProvider.Login | Frontend/src/AuthContext.jsx:56-88 | Posts the credentials unchanged; new state and result are `LoginNext`'s |
| AuthContext.AuthProvider.Logout | Frontend/src/AuthContext.jsx:90-107 | New state is `LogoutNext` of the old |
| AuthContext.AuthProvider.Register | Frontend/src/AuthContext.jsx:109-137 | Posts the arguments with names defaulting to ''; the result is `RegisterOutcome`'s; changes no state |
| ApplyPage.JobViewOf | Frontend/src/ApplyPage.jsx:37-50 | The job kept from `/jobs/{id}/` carries the server's fields and the fixed benefits and tags |
| ApplyPage.FieldValueMeaning | Frontend/src/ApplyPage.jsx:94-100 | A form field reads the value of its last append, and reads nothing when never appended |
| ApplyPage.HasApplied | Frontend/src/ApplyPage.jsx:65 | True exactly when some entry's job id equals `parseInt` of the route id; never when that is NaN |
| ApplyPage.LoadRequests | Frontend/src/ApplyPage.jsx:21-58 | Both requests go out exactly when there is a user and a token |
| ApplyPage.LoadNext | Frontend/src/ApplyPage.jsx:21-81 | Without a user or a token, nothing changes. Otherwise loading ends; a job failure sets the error; a job success stores the job; only a history success sets `isApplied` |
| ApplyPage.AppendIfRead | Frontend/src/ApplyPage.jsx:97-100 | A conditional append changes what exactly one name reads, and only when its condition holds |
| ApplyPage.ApplicationFieldsRead | Frontend/src/ApplyPage.jsx:94-100 | The sent form reads the job and applicant ids, and each optional field exactly when it is set |
| ApplyPage.BaseFieldsRead | Frontend/src/ApplyPage.jsx:95-96 | The two fixed fields read their values; no other name is set |
| ApplyPage.HandleApplyNext | Frontend/src/ApplyPage.jsx:83-123 | Sends exactly when there are a job, a user and a token, and sends the form's fields. Only an ok answer marks the page applied and closes the form. A missing token alerts `Please login again`. Success alerts `Application submitted successfully!`, a refusal the server's message or `Application failed`, a network failure `Failed to submit application. Check console for details.` |
| ApplyPage.Render | Frontend/src/ApplyPage.jsx:125-136 | The spinner while loading, else the error, else the job page. On the job page the apply button appears exactly when not applied (lines 248-268) |
| ApplyPage.AppliedHidesApply | Frontend/src/ApplyPage.jsx:112-115 | After a successful submission the apply button is gone and the form is closed |
| ApplyPage.FailedJobShowsError | Frontend/src/ApplyPage.jsx:76-80 | A failed job request shows the load error |
| ApplyPage.ApplyPageModel.constructor | Frontend/src/ApplyPage.jsx:9-19 | The page starts not applied, loading, without job, error or form |
| ApplyPage.ApplyPageModel.Load | Frontend/src/ApplyPage.jsx:21-81 | New state is `LoadNext`'s and requests are `LoadRequests`' |
| ApplyPage.ApplyPageModel.OpenForm | Frontend/src/ApplyPage.jsx:250 | Shows the form and changes nothing else |
| ApplyPage.ApplyPageModel.CloseForm | Frontend/src/ApplyPage.jsx:328 | Hides the form and changes nothing else |
| ApplyPage.ApplyPageModel.EditForm | Frontend/src/ApplyPage.jsx:347 | Replaces the form's values and changes nothing else (also lines 362, 376, 390) |
| ApplyPage.ApplyPageModel.HandleApply | Frontend/src/ApplyPage.jsx:83-123 | Builds the form by conditional appends; new state and outcome are `HandleApplyNext`'s |
| ApplicationsPage.LoadRequest | Frontend/src/ApplicationsPage.jsx:12-22 | Fetches `/applications/{user_id}/` exactly when there is a user and a token |
| ApplicationsPage.LoadNext | Frontend/src/ApplicationsPage.jsx:12-36 | Without a user or a token, nothing changes. Otherwise loading ends; success replaces the list; failure keeps it and sets the error |
| ApplicationsPage.StatusColor | Frontend/src/ApplicationsPage.jsx:38-51 | Any value other than the four statuses gets the grey fallback |
| ApplicationsPage.StatusIcon | Frontend/src/ApplicationsPage.jsx:53-66 | Any value other than the four statuses gets the fallback icon |
| ApplicationsPage.StatusBadgesDistinct | Frontend/src/ApplicationsPage.jsx:38-66 | Every status the server stores has its own colour and icon, neither the fallback, and no two statuses share one |
| ApplicationsPage.CardFor | Frontend/src/ApplicationsPage.jsx:135-183 | A card shows its entry's status badge and job title, and links to the entry's job |
| ApplicationsPage.Render | Frontend/src/ApplicationsPage.jsx:110-133 | Spinner while loading, else the error, else `No Applications Yet` exactly for an empty list, else one card per entry in order |
| ApplicationsPage.CardLinkNamesJob | Frontend/src/ApplicationsPage.jsx:179 | A card's link is `/apply/` and text `parseInt` reads back as the job's id |
| ApplicationsPage.ApplicationsPageModel.constructor | Frontend/src/ApplicationsPage.jsx:8-10 | Starts with no applications, loading and no error |
| ApplicationsPage.ApplicationsPageModel.Load | Frontend/src/ApplicationsPage.jsx:12-36 | New state is `LoadNext`'s and the request is `LoadRequest`'s |
| LoginPage.LoginAction | Frontend/src/LoginPage.jsx:16-24 | Moves on to the job list exactly on success, with the message or `Login successful`; otherwise shows the message or the fallback |
| LoginPage.FailureShowsProviderMessage | Frontend/src/LoginPage.jsx:22-24 | A failed login always shows the provider's own, non-empty message |
| LoginPage.SuccessMovesToJobList | Frontend/src/LoginPage.jsx:16-21 | A successful login shows the server's message and moves on to `/joblist` |
| RegisterPage.RegisterArguments | Frontend/src/RegisterPage.jsx:10-17 | The form's four inputs pass unchanged; a missing or empty name becomes '' |
| RegisterPage.ErrorEntryText | Frontend/src/RegisterPage.jsx:29 | An errors entry renders as its key, ': ' and its messages |
| RegisterPage.RegisterAction | Frontend/src/RegisterPage.jsx:19-34 | Moves on to `/login` exactly on success. A failure with errors shows them joined (or the fallback for none). Any other failure shows the message or the fallback |
| RegisterPage.FieldErrorsShown | Frontend/src/RegisterPage.jsx:27-31 | Non-empty field errors are always shown as such; the fallback appears only for an empty errors object |
| RegisterPage.SingleErrorText | Frontend/src/RegisterPage.jsx:28-30 | One field with one message reads `field: message` |
| JoblistPage.Normalize | Frontend/src/JoblistPage.jsx:19-29 | An array is kept, else its `results` array, else its `data` array, else an empty list; a null body throws and keeps the old list |
| JoblistPage.Render | Frontend/src/JoblistPage.jsx:77-94 | `Loading jobs...` exactly for an empty list. A non-empty list renders nothing exactly when some job's card throws: a `null` job (at `job.id`), or an object job whose `title`, `company`, `About`, `location` or `salary_range` React refuses as a child (an object, or an array holding one). Otherwise one card per job linking to `/apply/{id}` |
| JoblistPage.NullOrObjectTitleFails | Frontend/src/JoblistPage.jsx:79-81 | A list holding `null`, or a job whose title is an object, renders nothing |
| JoblistPage.NumberIdLink | Frontend/src/JoblistPage.jsx:91 | A job with a numeric id links to `/apply/` and that number |
| JoblistPage.EmptyOrFailedLooksLoading | Frontend/src/JoblistPage.jsx:27-31 | After a failed fetch, or an answer that normalises to nothing, the page still reads `Loading jobs...` |
| JoblistPage.LoadNext | Frontend/src/JoblistPage.jsx:11-32 | Success replaces the list with the normalised one; failure keeps it |
| JoblistPage.JoblistPageModel.constructor | Frontend/src/JoblistPage.jsx:9 | Starts with an empty list |
| JoblistPage.JoblistPageModel.Load | Frontend/src/JoblistPage.jsx:11-32 | The list becomes `LoadNext` of the old list |
| EndToEnd.LoginThroughBothTiers | Frontend/src/AuthContext.jsx:56-88 | Credentials that authenticate (Backend/backend/views.py:37-50) store the minted tokens and the user and move on to the job list. Others leave the session unchanged and show `Invalid username or password` |
| EndToEnd.CheckAuthThroughBothTiers | Frontend/src/AuthContext.jsx:22-54 | A token the server no longer accepts is removed with the refresh token; an accepted one yields the server's profile |
| EndToEnd.MismatchShownOnPage | Frontend/src/RegisterPage.jsx:27-31 | Two valid, different passwords are refused (Backend/backend/serializers.py:20-21) and the page shows `password: Passwords do not match` |
| EndToEnd.RefusalShowsFieldErrors | Frontend/src/RegisterPage.jsx:27-31 | Every refusal of registration has field errors, and the page shows them rather than a fallback |
| EndToEnd.RefusalHasErrors | Backend/backend/views.py:28 | A refused registration never has an empty errors object |
| EndToEnd.ApplyFormReadByServer | Backend/backend/views.py:89-115 | The server reads the ids the apply form sent, and stores cover letter, phone and LinkedIn exactly as typed (Frontend/src/ApplyPage.jsx:94-100) |
| EndToEnd.AppliedToRoute | Frontend/src/ApplyPage.jsx:65 | Checking the route of a job id asks whether some entry is for that job |
| EndToEnd.ReconciliationMatchesStore | Frontend/src/ApplyPage.jsx:63-66 | Over the server's history (Backend/backend/views.py:123-148), the page marks a job applied exactly when the store holds an application of the user for it |
| EndToEnd.AppliedPageSubmissionRefused | Backend/backend/views.py:104-106 | When the page marks a job applied, submitting its form anyway is refused with 400 |
| EndToEnd.JobListRoundTrip | Frontend/src/JoblistPage.jsx:24-25 | The page keeps every job of `job_list`'s `data` (Backend/backend/views.py:74). The list renders as cards, and each card's link names the job's id, which the apply page reads back, and `job_detail` answers with the listed job |
| EndToEnd.ApplicationCardOpensAppliedJob | Frontend/src/ApplicationsPage.jsx:179 | Following an application card opens a job page that finds itself applied in the same history |

## Left out

**Transport and timing.**
- Network transport, `fetch`, promises and JSON parsing are out of scope. Each request's outcome is a parameter: an ok answer with its body, a refused answer with its body, or a network failure.
- The `loading` flags cover only the values the code sets.
- React's re-rendering, effect re-runs and concurrent requests are not modelled. Each effect is one step taken with both outcomes known.
- `console` logging, the `setTimeout` before navigation and date formatting are left out. An `alert` is recorded as the text it shows, and a redirect as its target path. Timestamps are integers.

**Authentication and tokens.**
- `authenticate`, password hashing and JWT minting and verification are outside the model. The authenticated user and the two token strings are parameters, and so is "the bearer token names this user".
- Views.RegisterUser and Serializers.Create store the password as given: hashing is not modelled.
- Route protection in the client router is not part of this model. Each page gets its user and token as parameters.

**DRF and Django details.**
- Serializers.CheckCharField: DRF's checks on username characters and on email format are not modelled. Only `required`, `allow_blank`, `min_length` and uniqueness are. The same goes for `max_length` (150 for a username) and for `null` versus absent.
- Serializers.CheckCharField: trimming removes ASCII whitespace only (Text.IsSpace). DRF trims with Python's `str.strip`, which also removes Unicode whitespace such as U+00A0, so a value made only of such characters is blank there but not in the model.
- Serializers.Create: `create_user` lower-cases the domain with Python's full Unicode `str.lower`; the model lower-cases ASCII letters only. It also applies NFKC normalisation to the username (`normalize_username`), which the model does not: the username is stored as given.
- Views.RegisterUser: the same two simplifications as Serializers.Create apply to the stored and echoed user.
- Views.CoerceId: Python's `int()` is modelled for ASCII digits, surrounding ASCII whitespace and one sign. Underscores and non-ASCII digits are not modelled.
- Text.ParseIntReadsIntString: `parseInt` is modelled for ASCII whitespace, one sign and decimal digits. Other Unicode spaces and `0x` prefixes are not.
- Text.ParseIntReadsIntString: JavaScript numbers are doubles, exact only for integers of magnitude below 2^53. The model reads `parseInt` and compares with `===` on unbounded integers, so its round trips and id comparisons hold in the original only for ids within that range.
- Views.DecideApplication: the 500 message for a malformed id quotes the text in plain single quotes. Python's `repr` escaping is simplified.
- `user_applications` can also answer 500 from a database error. That path is not modelled.
- Views.ApplyJob: the created application is returned as the stored record. The rendering of `ApplicationSerializer` is not modelled.
- Model field `max_length` limits are not modelled. In the original, the admin's model form checks them before `save_model`, and whether the database enforces them on the API's `create` calls depends on the database backend. Admin.SaveModel takes the job as the form has already validated it.
- Admin.ViewResume: `allow_tags` has had no effect since Django 2.0 and the string is not marked safe, so the admin escapes the anchor markup and shows it as text. The model records the string the method returns, not how the page displays it.
- JSON numbers are integers in the model (`Json.JNumber`). A fractional value, such as an id `1.5` that the job list page would render as `/apply/1.5`, cannot be expressed.
- `Job.objects.all()` and the applications filter have no `order_by`, and the models declare no ordering, so the database's order is unspecified. The model fixes it as insertion order (Views.JobList, Views.CollectEntries).
- The resume's absolute URL is modelled as an origin string followed by the file's URL, standing in for `build_absolute_uri`. File contents and storage naming are not modelled, and an upload reaches the server as a stored-file parameter.

**Files outside this model.**
- The landing page, the sample-data and company-admin management commands, and the URL configuration are not part of this model. The URL configuration contributes only the integer route converters behind `job_id` and `user_id`.

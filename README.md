# Photo uploader service — a verified model of its core

The service takes `POST /upload` requests naming an account (`accountKey`), a
business location (`locationId`) and a list of files stored on Google Drive.
It checks an optional API key, validates the body, and queues a job on a
queue of its own for that account. The queue runs one job at a time. The job
fetches every file into `/app/uploads` under a sanitised name. It then opens a
browser session: it signs in to the account, answering a one-time-code prompt
if one appears, and uploads the files on the location's photos page. The
response reports the number of files with status 200, or the error's message
with status 428 and code `REQUIRES_2FA` when that message is exactly
`REQUIRES_2FA`, and with status 500 and code `ERROR` for any other message.

The model is split into modules by the program's own structure:

- `JsText`: JavaScript strings as sequences of UTF-16 code units, JavaScript truthiness of a string that may be `undefined`, and the `Option` type.
- `Filenames`: the local-name sanitiser and the destination paths.
- `Queues`: the per-account queue registry (`getQueue`), as a class with a mutable map.
- `Http`: the JSON responses and the mapping from a job's outcome to a response.
- `Gate`: the API-key middleware and body validation.
- `Session`: `withBrowser`, with every remote call as a step that may throw.
- `Job`: the job the queue runs: the fetch loop, then the browser session and its upload.
- `Server`: the `/upload` handler that puts these together.

Nothing outside the model is called. Its inputs stand in for the outside world:

- A fetch is given by `fetchFailures`, which maps a file's position to the message of the error its download throws.
- The remote browser is given by `Remote`: the steps that throw, with their messages, and whether the page shows a code field.
- `fn` is given by the value it returns; the `RunFn` step throwing stands for `uploadToGbp` failing.

## Model

| member | source | states |
|---|---|---|
| JsText.EncodeScalar | index.js:122 | a character of the Basic Multilingual Plane is one code unit of the same value; any other character is a high surrogate followed by a low surrogate |
| JsText.Truthy | index.js:113 | a string that may be `undefined` is falsy exactly when it is `undefined` or empty, as in the checks at index.js:15, 79, 113 and 122 |
| JsText.Utf16 | index.js:122 | a text of n characters is between n and 2n code units, and exactly its characters when every character is in the Basic Multilingual Plane |
| Filenames.IsAllowed | index.js:122 | the class `[\w.-]`: ASCII letters, digits, `_`, `.` and `-`; every allowed code unit is ASCII and `/` is not allowed |
| Filenames.IdText | index.js:122 | definition: the text `${f.id}` gives, which is the id itself, or `undefined` when the id is missing |
| Filenames.RawName | index.js:122 | the name before sanitising: the file's name when it is truthy, otherwise the id text followed by `.bin`; never empty |
| Filenames.ReplaceDisallowed | index.js:122 | the replacement of `[^\w.-]` by `_` keeps the length in code units, leaves only `[A-Za-z0-9_.-]`, keeps every allowed code unit where it was and puts `_` in place of every other |
| Filenames.SafeName | index.js:122 | the local name is as long as the name (or `<id>.bin`) it comes from and holds only allowed code units |
| Filenames.Dest | index.js:123 | the destination is `/app/uploads`, then `/`, then the local name, which contains no `/` |
| Filenames.DestPaths | index.js:123-125 | one destination per file, in order, the i-th being `/app/uploads/` followed by the i-th file's local name |
| Filenames.ReplaceConcat | index.js:122 | the replacement works code unit by code unit, so it distributes over concatenation |
| Filenames.ReplaceKeepsAllowed | index.js:122 | a string of allowed code units only is left unchanged |
| Filenames.AllowedNamesDoNotCollide | index.js:122 | two distinct names made of allowed code units only never get the same local name |
| Filenames.SanitiseIdempotent | index.js:122 | sanitising twice gives the same as sanitising once |
| Filenames.AstralCharacterBecomesTwoUnderscores | index.js:122 | a character outside the Basic Multilingual Plane becomes `__`, because the pattern has no `u` flag |
| Filenames.FallbackName | index.js:122 | with `name` missing or empty, the local name is the sanitised id followed by `.bin` |
| Filenames.SafeNameNonEmpty | index.js:122 | the local name is never empty |
| Queues.QueueRegistry.constructor | index.js:29 | the registry starts with no queues |
| Queues.QueueRegistry.GetQueue | index.js:30-33 | returns the key's queue; a known key leaves the registry unchanged and gets its existing queue; an unknown key gets a new queue with concurrency 1 and an id no other queue has, and no other entry changes; entries are never removed |
| Http.JobResponse | index.js:130-133 | success gives 200 with `ok: true` and `uploaded`; an error gives `ok: false` with the error's message, and code `REQUIRES_2FA` with status 428 exactly when the message is `REQUIRES_2FA`, and code `ERROR` with status 500 otherwise |
| Http.ClientRecoversOutcome | index.js:130-133 | the job's outcome can be read back from its response, so distinct outcomes give distinct responses |
| Gate.Authorized | index.js:14-19 | with `API_KEY` set to a non-empty string, a request passes exactly when its `x-api-key` header equals the key; with it unset or empty, every request passes |
| Gate.Validate | index.js:112-115 | the body is accepted exactly when `accountKey` and `locationId` are non-empty strings and `files` is a non-empty array, and the accepted task carries those three values |
| Gate.Admit | index.js:112-115 | a request is rejected exactly when it is unauthorised or its body is invalid; the key check of index.js:14-19 runs first, so 401 comes before 400; an admitted request carries the validated task |
| Session.TwoFactorBlocked | index.js:78-79 | definition: the page shows a code field and the account's `totpSecret` is falsy, the case in which the code cannot be answered |
| Session.Run | index.js:58-91 | definition: the calls a sequence of awaits makes: each call in order, up to and including the first whose rejection ends the session |
| Session.RunError | index.js:58-91 | definition: the error a sequence of awaits rejects with: the message of the first call whose rejection ends the session, or none |
| Session.SessionTrace | index.js:54-93 | definition: the calls `withBrowser` makes: none for an unknown account, otherwise the account's plan cut at the first call that throws |
| Session.SessionOutcome | index.js:54-93 | definition: how `withBrowser` ends: `Unknown accountKey` for an unknown account, else the sign-in's error, else as after sign-in |
| Session.AfterLoginOutcome | index.js:78-92 | definition: how `withBrowser` ends once sign-in got through: the error of the first call that throws, else `REQUIRES_2FA` when the code cannot be answered, else `fn`'s result |
| Session.Fatal | index.js:73-75 | a step ends the session only when it throws, and the first navigation wait never ends it, because its error is caught |
| Session.Plan | index.js:58-91 | the calls of a session with nothing thrown start with the ten sign-in calls and go on after them |
| Session.PlanAfterLogin | index.js:78-91 | what follows sign-in ends with the disconnect; it runs `fn` exactly when no code is asked for or there is a truthy secret, and generates a code exactly when a code is asked for and there is a truthy secret |
| Session.OpenBrowser | index.js:58-61 | the steps made and the error are those of running connect and new-page up to the first that throws |
| Session.EnterEmail | index.js:64-66 | the same for opening the sign-in page, typing the e-mail and clicking next |
| Session.EnterPassword | index.js:68-70 | the same for waiting for the password field, typing the password and clicking next |
| Session.CheckForPrompt | index.js:73-77 | the same for the navigation wait and the look for the code field, where an error of the wait is caught and the wait never ends the session |
| Session.AnswerPrompt | index.js:80-83 | the same for generating the code, typing it, pressing Enter and waiting for the navigation |
| Session.Finish | index.js:90-91 | the same for running `fn` and disconnecting |
| Session.SignIn | index.js:58-77 | the steps and error of the whole sign-in are those of running its steps up to the first that throws |
| Session.AfterSignIn | index.js:78-92 | after sign-in: with no code field, `fn` and the disconnect; with a field and a truthy secret, the code steps first; with a field and no secret, only the disconnect and then `REQUIRES_2FA`; each ends at the first step that throws |
| Session.WithBrowser | index.js:54-93 | the steps and the outcome of `withBrowser` agree with the session's plan for the account, cut at the first step that throws; an unknown account makes no step and fails with `Unknown accountKey` |
| Session.Advance | index.js:58-91 | one awaited call: it either throws and ends the run with its message, or the run goes on with the next call |
| Session.RunStopsAtFirstFatalStep | index.js:58-91 | a run is a prefix of the calls, non-empty when there is a call; only its last call may throw; it ends early only at a call that throws, whose message is the run's error |
| Session.RunIsPrefix | index.js:58-91 | the calls are made in program order |
| Session.RunIsTheOnlySuchPrefix | index.js:58-91 | conversely, a prefix with those properties is the run; which calls throw determines what happens |
| Session.RunWithoutFatalStep | index.js:58-91 | a run has no error exactly when none of its calls throws, and then it makes every call |
| Session.RunAppend | index.js:58-91 | running two call sequences one after the other: the second starts only if the first ran without error |
| Session.AfterLoginShape | index.js:78-92 | after sign-in the session disconnects once, as its last step, and runs `fn` once, just before, unless a code is asked for and there is no secret |
| Session.SignInNeitherRunsFnNorDisconnects | index.js:58-77 | sign-in neither runs `fn` nor disconnects |
| Session.PlanEnd | index.js:85-91 | a session with nothing thrown ends by disconnecting, right after `fn` unless the code cannot be answered |
| Session.PlanCounts | index.js:85-91 | a session with nothing thrown disconnects exactly once and runs `fn` exactly once, or not at all when the code cannot be answered |
| Session.UnknownAccountNeverConnects | index.js:55-58 | no connection is made exactly when the account is unknown, which then fails with `Unknown accountKey`; a known account starts by connecting |
| Session.DisconnectsAtMostOnce | index.js:85-91 | whatever throws, a session disconnects at most once and runs `fn` at most once |
| Session.SuccessIsACompleteRun | index.js:54-93 | a session succeeds exactly when the account is known, nothing throws and any code prompt can be answered, and then it returns `fn`'s result |
| Session.SuccessRunsFnThenDisconnectsOnce | index.js:90-92 | a successful session made every call of its plan, ran `fn` once and disconnected once, after `fn` returned |
| Session.NoOtpFieldGoesStraightToFn | index.js:77-92 | with no code field and nothing thrown, `fn` runs right after sign-in and the session succeeds |
| Session.OtpWithSecretAnswersPrompt | index.js:78-92 | with a code field, a secret and nothing thrown, the code is generated, typed and submitted before `fn` runs, and the session succeeds |
| Session.OtpWithoutSecretNeverRunsFn | index.js:78-87 | with a code field and no truthy secret, `fn` never runs and the session fails |
| Session.OtpWithoutSecretRequiresTwoFactor | index.js:84-86 | in that case, once sign-in got through, the session disconnects and fails with `REQUIRES_2FA`, or with the disconnect's own error |
| Session.FirstNavigationErrorIsSwallowed | index.js:73-75 | whether the first navigation wait throws changes neither the steps nor the outcome |
| Session.RunSameFatalSteps | index.js:58-91 | two remotes that throw at the same calls with the same messages give the same run |
| Job.PhotosUrl | index.js:97 | the photos page of a location is `https://business.google.com/dashboard/l/`, then the location id, then `/photos` |
| Job.LocationOfPhotosUrl | index.js:97 | whatever it reads out of a URL gives that URL back as the location's photos page |
| Job.PhotosUrlRoundTrip | index.js:97 | the location is read back from its photos page, so distinct locations get distinct pages |
| Job.Downloads | index.js:124 | one download per file, in order, of the file's id to its destination |
| Job.FirstFailureFrom | index.js:121-126 | the position found is the first, from the start position on, whose fetch throws, or the end when none does |
| Job.FirstFailureUnique | index.js:121-126 | a position with no failed fetch before it, whose own fetch throws (or the end), is the one found |
| Job.JobOutcome | index.js:119-129 | definition: how the job ends: the first failed fetch's error, else the session's error, else the number of files |
| Job.FetchAll | index.js:120-126 | files are fetched in order to their destinations; at the first failed fetch the loop stops with its error, having started the downloads up to and including that file and collected the paths before it; with none failing, every download is made and `paths` holds every destination |
| Job.UploadJob | index.js:119-129 | the job's result is the first fetch error, else the session's error, else the number of files; after a fetch error no session is opened; `fn` uploads exactly `paths` on the location's photos page and is called only when the session reaches it |
| Job.JobSucceedsIff | index.js:119-129 | a job succeeds exactly when every fetch and the session succeed, and then reports every file as uploaded |
| Job.JobErrorSource | index.js:119-129 | a failed job carries the first failed fetch's message or, when every fetch succeeded, the session's error |
| Server.UploadResponse | index.js:111-135 | definition: the response to a request: the gate's 401 or 400 rejection, else the response the job's outcome maps to |
| Server.HandleUpload | index.js:111-135 | after the key check of index.js:14-19, the response is the gate's rejection or the job's response; a rejected request leaves the queue registry unchanged; an admitted one adds at most its own account's queue and changes no other entry |
| Server.GateComesFirst | index.js:113-115 | after the key check of index.js:14-19, an unauthorised request gets 401 and an invalid body 400, whatever the job would do; an admitted request gets 200, 428 or 500 |
| Server.OkMeansEveryFileUploaded | index.js:128-130 | an admitted request gets `ok: true` exactly when every fetch and the session succeed, and then `uploaded` is the number of files in the request |
| Server.UnknownAccountIsServerError | index.js:131-133 | an admitted request for an account that is not configured, whose fetches all succeed, gets 500 with code `ERROR` and the message `Unknown accountKey` thrown at index.js:56 |

## Left out

- Express wiring is not modelled: `app.listen`, `/health`, JSON body parsing, `multer`. It is transport I/O.
- The Google Drive client and download (index.js:36-51) are not modelled; each file's fetch is an outcome given as input.
- Puppeteer is not modelled beyond the calls themselves. Each awaited call is one step that succeeds or throws with a message. Selectors, timeouts, `networkidle0` and page state are not modelled.
- `uploadToGbp` (index.js:95-108) is modelled only as the page it opens and the paths it hands over. The button wait, the file chooser and the 15-second dwell are one `fn` step that returns or throws.
- `otplib.authenticator.generate` is not modelled: it depends on the clock. Only the fact that it is called, and may throw, is kept.
- PQueue is not modelled: its FIFO scheduling and its concurrency are in a library, and concurrency is outside the model. Only the `concurrency: 1` each queue is created with is kept, and the job runs as soon as it is queued.
- `path.join` is modelled as `UPLOAD_DIR + "/" + name`, with no normalisation. Its effect on `.` and `..` is not modelled. Dots are allowed characters, so no claim is made that a destination stays inside the upload directory.
- `ACCOUNTS` is a map from keys to accounts. Prototype keys such as `"constructor"`, and accounts configured as falsy JSON values, are not modelled.
- Body fields are modelled as strings or missing. A JSON number, boolean, `null` or object in `accountKey`, `locationId`, `files[i].name` or `files[i].id` is not modelled. The same goes for an array in `files` that holds something other than `{id, name}` objects.
- A request with no body is modelled as a body with all three fields missing, which is what `req.body || {}` reads.
- Session.WithBrowser: makes no claim that the browser is disconnected when a step throws. The code has no `finally` or clean-up (index.js:58-91), and the model states the disconnect only on the paths where the code makes it.
- Environment and configuration loading is not modelled: `API_KEY` and `ACCOUNTS_JSON` are parameters, and `mkdirSync` is left out.

# AWS Farm Manager: a Dafny model of the device-farm manager's core

AWS Farm Manager is a Next.js application. Its users manage AWS Device Farm projects,
upload apps, schedule test runs and open remote-access sessions on real devices. This
project models the application's core in Dafny and proves properties of the model:

- **Local store.** The Prisma tables of projects, apps and runs are modelled. Every query
  and mutation is scoped to the calling user (`lib/db/*.ts`). The schemas of
  `lib/validations/*.ts` are modelled as validators with an if-and-only-if to a predicate.
- **Vendor wrapper** (`lib/aws/device-farm.ts`):
  - the client's region and endpoint;
  - the commands the wrapper builds;
  - `deleteProject`, which stops a project's live remote-access sessions, waits, and
    then deletes the project.

  The vendor is an oracle. It fixes what each call answers, and the wrapper's behaviour
  is observed as the sequence of calls it issues.
- **API routes** (`app/api/**/route.ts`). Each handler is a function or a method from
  its inputs to a JSON reply and a status code. A handler that changes the store is a
  method on the `Store` class. The routes covered are:
  - the account reset: vendor teardown of every project, then the local delete;
  - projects, runs, apps, sessions, device pools, devices, and the connectivity probe.
- **Route protection** (`middleware.ts`): which paths are public or protected, and where
  each request is redirected.
- **Client state machines**:
  - the dashboard's remote-session panel: connect, poll on a timer, close;
  - the device list: search, grouping and Connect buttons;
  - the three-step app upload.

  Each has a class whose methods update its fields one event at a time.

## Layout

| file | module | models |
|---|---|---|
| common.dfy | Common | JSON values, JavaScript truthiness, thrown errors, replies, the ZodError catch |
| text.dfy | Text | ASCII case mapping, `startsWith`/`includes`, `replace(/\s+/g, "-")`, decimal digits |
| seqs.dfy | Seqs | filter, find-first, newest-first sort and take: the query operators |
| validations.dfy | Validations | `createRunSchema`, `updateRunSchema`, `uploadAppSchema`, the enums |
| db.dfy | Db | `lib/db/projects.ts`, `apps.ts`, `runs.ts`; the `Store` class |
| device_farm.dfy | DeviceFarm | the client configuration, the commands, `deleteProject` |
| reset_route.dfy | ResetRoute | `DELETE /api/admin/reset` |
| projects_route.dfy | ProjectsRoute | `/api/projects` |
| runs_route.dfy | RunsRoute | `/api/runs` |
| apps_route.dfy | AppsRoute | `/api/apps` |
| sessions_route.dfy | SessionsRoute | `/api/sessions` |
| device_pools_route.dfy | DevicePoolsRoute | `/api/device-pools` |
| devices_route.dfy | DevicesRoute | `/api/devices` |
| status_route.dfy | StatusRoute | `/api/status/aws` |
| middleware.dfy | Middleware | `middleware.ts` |
| dashboard.dfy | Dashboard | the session panel of `app/dashboard/page.tsx` |
| device_list.dfy | DeviceList | `components/dashboard/device-list.tsx` |
| app_uploader.dfy | AppUploader | `components/dashboard/app-uploader.tsx` |

### Two rules of the code worth knowing

- **Polling stop rule.** The page's guard (app/dashboard/page.tsx:44) stops polling in
  two cases only: when the session has an endpoint, or when its status is `FAILED`. An
  `ERRORED` or `COMPLETED` answer is recorded, but polling goes on.
  - `Dashboard.EndedStatusKeepsPolling` shows that polling continues after those answers;
  - `Dashboard.PollingEndsAtFirstStop` proves exactly when polling ends.
- **Reset success.** The reset reports `success: true` whatever happened to the
  individual vendor deletions (app/api/admin/reset/route.ts:26-30).

## Model

| member | source | states |
|---|---|---|
| Common.CatchZod | app/api/runs/route.ts:96-104 | a thrown error named ZodError answers 400 "Invalid input data"; any other answers 500 with the handler's fixed message |
| Common.MessageOr | app/api/sessions/route.ts:26-29 | `error.message \|\| fallback`: the message when it is non-empty, the fallback otherwise |
| Text.ToUpper | app/api/devices/route.ts:20 | same length; every character is mapped to upper case, position by position |
| Text.ToLower | components/dashboard/device-list.tsx:69-70 | same length; every character is mapped to lower case, position by position |
| Text.ToLowerIdempotent | components/dashboard/device-list.tsx:69-70 | lower-casing twice equals lower-casing once |
| Text.ContainsIffOccurs | components/dashboard/device-list.tsx:69-70 | `includes` holds iff the text occurs at some position |
| Text.DashRunsNoSpace | app/dashboard/page.tsx:82 | after `replace(/\s+/g, "-")` no white-space character is left |
| Text.DashRunsOneDashPerRun | app/dashboard/page.tsx:82 | a whole white-space run, however long, becomes exactly one dash |
| Text.DashRunsKeepsPlain | app/dashboard/page.tsx:82 | a string without white space is left unchanged |
| Text.Utf16Length | lib/validations/run.ts:7 | the JavaScript length of a string counts UTF-16 code units: at least its number of characters, at most twice that, zero only for the empty string |
| Text.BmpLength | lib/validations/run.ts:7 | inside the Basic Multilingual Plane the JavaScript length is the number of characters |
| Text.DecimalRoundTrip | lib/aws/device-farm.ts:316 | the decimal digits written for a clock reading read back as that number |
| Validations.AppTypeRoundTrip | lib/validations/app.ts:7 | the `AppType` enum accepts exactly its own stored names |
| Validations.RunStatusRoundTrip | lib/validations/run.ts:13 | the `RunStatus` enum accepts exactly its own stored names |
| Validations.Parse | app/api/runs/route.ts:36 | `schema.parse` returns the parsed value, or throws an error named ZodError |
| Validations.CreateRunParseIff | lib/validations/run.ts:4-10 | `createRunSchema` accepts iff projectId is a cuid string, appId is absent or a cuid string, name has 1 to 100 UTF-16 code units, and the ARNs are absent or strings; the parsed value holds each of those fields with the body's own value, and has each optional one exactly when the body does |
| Validations.EmptyRunNameRejected | lib/validations/run.ts:7 | an empty run name is rejected with the issue "Run name is required" |
| Validations.UpdateRunParseIff | lib/validations/run.ts:12-17 | `updateRunSchema` accepts iff status is absent or a `RunStatus`, and the timestamps are absent or dates; the parsed value holds the body's status, result and dates, each present exactly when the body has it |
| Validations.EmptyUpdateIsValid | lib/validations/run.ts:12-17 | the empty body is a valid update that changes nothing |
| Validations.UploadAppParseIff | lib/validations/app.ts:4-11 | `uploadAppSchema` accepts iff projectId is a cuid, name has 1 to 100 UTF-16 code units, appType is an `AppType`, fileName and awsUploadArn are absent or strings, and fileSize is absent or a positive number; the parsed value holds each field with the body's own value, each optional one present exactly when the body has it |
| Db.GetProjectsByUserId | lib/db/projects.ts:4-9 | exactly the user's projects, each with its multiplicity, newest first |
| Db.ProjectRunsNewestFirst | lib/db/projects.ts:18-19 | exactly the project's runs, newest first |
| Db.GetProjectById | lib/db/projects.ts:11-24 | none iff no project has both the id and the user; otherwise that project with all its apps (newest upload first) and exactly the first 10 of its runs newest first (all of them when there are fewer) |
| Db.NewestRuns | lib/db/projects.ts:14-20 | the kept runs are at most 10 of the project's, newest first; none left out is newer than one kept; fewer than 10 kept means none was left out |
| Db.TakeNewest | lib/db/projects.ts:18-20 | a run left out by `take: 10` is no newer than any run kept |
| Db.ProjectByIdIsolation | lib/db/projects.ts:12-13 | another user never gets a project that is not theirs |
| Db.PatchProject | lib/db/projects.ts:35-40 | the update sets exactly the fields the patch supplies; id, owner and creation time are kept |
| Db.Store.CreateProject | lib/db/projects.ts:26-33 | a row with the input fields and the user is appended; nothing else changes |
| Db.Store.UpdateProject | lib/db/projects.ts:35-40 | only the row with the id and the user is patched; every other row and table is unchanged |
| Db.Store.DeleteProject | lib/db/projects.ts:42-46 | only the row with the id and the user is removed; its apps and runs go with it |
| Db.ProjectDeleteIsolation | lib/db/projects.ts:42-46 | the delete keeps every other project and removes the one matched |
| Db.GetAppsByProjectId | lib/db/apps.ts:4-9 | exactly the user's apps of the project, newest upload first |
| Db.GetAppById | lib/db/apps.ts:11-15 | none iff no app has both the id and the user; otherwise such an app |
| Db.StoredFileSize | lib/db/apps.ts:22 | a missing or zero size is stored as null; an integral size as that integer; a fractional one throws a RangeError |
| Db.Store.CreateApp | lib/db/apps.ts:17-25 | when the size converts, the row is appended with the user and the converted size; when it throws, nothing changes |
| Db.Store.DeleteApp | lib/db/apps.ts:27-31 | only the app with the id and the user is removed |
| Db.UserProjectRuns | lib/db/runs.ts:4-6 | exactly the user's runs of the project, newest first |
| Db.AppOfRun | lib/db/runs.ts:7-14 | the joined app is an app with the run's app id; it is present iff the run has an app id and such an app exists |
| Db.GetRunsByProjectId | lib/db/runs.ts:4-17 | one listing per run of the user's project, in newest-first order, each with its app's name and type |
| Db.GetRunById | lib/db/runs.ts:19-28 | none iff no run has both the id and the user; otherwise that run; its project is present iff a project with the run's project id exists, and is that project; its app is present iff the run names an existing app, and is that app |
| Db.RunListingExact | lib/db/runs.ts:4-17 | the run listing is newest first and leaves out none of the user's runs of the project |
| Db.Store.CreateRun | lib/db/runs.ts:30-37 | a PENDING run with the input fields and the user is appended (the PENDING default is an assumption, see below) |
| Db.PatchRun | lib/db/runs.ts:39-44 | the update sets exactly the fields the patch supplies |
| Db.Store.UpdateRun | lib/db/runs.ts:39-44 | only the run with the id and the user is patched |
| Db.Store.DeleteRun | lib/db/runs.ts:46-50 | only the run with the id and the user is removed |
| Db.ProjectIds | app/api/admin/reset/route.ts:45-48 | the ids of exactly the selected projects |
| Db.Store.DeleteProjectsOfUser | app/api/admin/reset/route.ts:46-48 | the user's projects are removed, with their apps and runs; the count is the number removed |
| Db.UserProjectsDeleteExact | app/api/admin/reset/route.ts:46-48 | a project survives the reset's local delete iff it belongs to another user |
| Db.DeleteKeepsOtherUsers | app/api/admin/reset/route.ts:46-48 | a delete scoped to one user keeps every row of every other user, with its multiplicity |
| DeviceFarm.ClientConfigOf | lib/aws/device-farm.ts:21-28 | the region is AWS_REGION, or us-west-2 when that is unset or empty; the endpoint names that same region; missing credentials become empty strings |
| DeviceFarm.EndpointNamesRegion | lib/aws/device-farm.ts:22-23 | the region can be read back out of the endpoint host |
| DeviceFarm.ScheduleRunCommandOf | lib/aws/device-farm.ts:257-274 | the command carries the given ARNs and name; without a truthy test it sends type BUILTIN_FUZZ |
| DeviceFarm.CreateSessionCommandOf | lib/aws/device-farm.ts:306-326 | billing is METERED; the name is the caller's, or "Session-" followed by the clock's digits |
| DeviceFarm.ListedSessions | lib/aws/device-farm.ts:337-346 | a failed listing is answered with an empty session list |
| DeviceFarm.DeleteProjectTeardown | lib/aws/device-farm.ts:51-80 | issues exactly the teardown calls: listing, stops, pause, delete; it throws iff the delete fails, with that error |
| DeviceFarm.StopCallsExact | lib/aws/device-farm.ts:59-66 | the stops issued are exactly those for listed sessions that have an arn and are not COMPLETED |
| DeviceFarm.TeardownStopsExactly | lib/aws/device-farm.ts:57-66 | same, stated for the whole teardown |
| DeviceFarm.TeardownDeletesLast | lib/aws/device-farm.ts:55-75 | the listing is first, the delete is last, and no other call is a delete |
| DeviceFarm.ListingFailureStillDeletes | lib/aws/device-farm.ts:70-75 | when the session listing fails, the teardown still pauses and deletes |
| DeviceFarm.NothingToStop | lib/aws/device-farm.ts:61-64 | when every session is COMPLETED or has no arn, nothing is stopped |
| ResetRoute.CleanupFarm | app/api/admin/reset/route.ts:16-39 | lists the projects, then runs one teardown per project with an arn, in order; reports whether the listing succeeded |
| ResetRoute.Reset | app/api/admin/reset/route.ts:8-61 | 401 without a user, with no change; 500 with no local change when the listing fails; 500 when the local delete fails; otherwise exactly the user's projects are gone and the reply is success |
| ResetRoute.TeardownDeletesOnce | lib/aws/device-farm.ts:51-80 | a teardown deletes its own project once and nothing else |
| ResetRoute.ResetDeletesEachOnce | app/api/admin/reset/route.ts:20-33 | the deletions are exactly the listed projects with an arn, once each, in list order |
| ResetRoute.ResetIgnoresDeleteFailures | app/api/admin/reset/route.ts:26-30 | which vendor deletions fail does not change the calls the reset makes (by construction: each failure is caught inside the loop) |
| ResetRoute.ResetStopsPrecedeDelete | lib/aws/device-farm.ts:59-75 | every stop of a teardown comes before that project's delete |
| ProjectsRoute.GetProjects | app/api/projects/route.ts:6-20 | 401 without a user; otherwise the `getProjectsByUserId` result: each of the user's projects as often as stored, newest first |
| ProjectsRoute.VendorArn | app/api/projects/route.ts:34-42 | the vendor's arn when the call returned; none when it threw |
| ProjectsRoute.PostProject | app/api/projects/route.ts:22-60 | the vendor project is requested first; a vendor failure is tolerated and the row is stored without an arn; 201 with the stored row |
| RunsRoute.GetRuns | app/api/runs/route.ts:6-26 | 401 without a user; 400 without a projectId; otherwise the `getRunsByProjectId` listing: only the user's runs of the project, all of them, newest first |
| RunsRoute.ProjectArnFor | app/api/runs/route.ts:43-46 | the arn of the user's project with that id, when it has one |
| RunsRoute.ProjectArnIsQueried | app/api/runs/route.ts:43-44 | that arn is the one `getProjectById` returns |
| RunsRoute.AppArnFor | app/api/runs/route.ts:48-54 | the upload arn of the user's app, when the body names one and the app has that arn |
| RunsRoute.FirstPoolArn | app/api/runs/route.ts:67-70 | the arn of the first listed pool, if any |
| RunsRoute.ResolveRun | app/api/runs/route.ts:38-93 | the step-by-step handler gives the same decision and the same calls as the specification `Resolve` |
| RunsRoute.PostRun | app/api/runs/route.ts:28-105 | 401, a ZodError 400, or a refusal leave the store unchanged; for a valid body the calls are those of `Resolve`, a refusal (404 unsynced project, 400 no pool, 400 missing arns) is answered as such, a vendor throw ends in the catch, and a ready run is stored PENDING for the user with its project, app, name, pool arn and vendor run arn and answered with 201 |
| RunsRoute.ResolveNeedsSyncedProject | app/api/runs/route.ts:43-46 | without a synced project of the user the answer is 404, and nothing is called |
| RunsRoute.ResolveSchedulesOwnedArns | app/api/runs/route.ts:81-86 | a scheduled run uses the user's own project arn and app arn, and the built-in fuzz test |
| RunsRoute.ResolvePoolCheckFirst | app/api/runs/route.ts:63-74 | without any pool the answer is "No Device Pool available", whether or not the app resolves |
| RunsRoute.ResolveNeedsAppArn | app/api/runs/route.ts:76-79 | without an app arn nothing is scheduled; "Missing App ARN or Device Pool ARN" always means a missing app arn |
| RunsRoute.ResolveReadyFields | app/api/runs/route.ts:63-93 | a ready run carries the body's pool arn, or else the first pool's, and the vendor's run arn |
| AppsRoute.GetApps | app/api/apps/route.ts:6-26 | 401; 400 without a projectId; otherwise the `getAppsByProjectId` result: each of the user's apps of the project as often as stored, newest upload first |
| AppsRoute.UploadUrlPhase | app/api/apps/route.ts:38-55 | 400 unless projectArn, name and type are truthy; otherwise one CreateUpload call, answered with the upload's url, arn and status |
| AppsRoute.PostApp | app/api/apps/route.ts:28-71 | an upload-url request never touches the store; any other body is validated and stored as the user's app, with every field of the body, the converted size, the fresh id and the clock reading, and answered with 201; every error path leaves the store unchanged |
| SessionsRoute.PostSession | app/api/sessions/route.ts:5-31 | 401; 400 unless projectArn and deviceArn are truthy; the vendor is called, once, exactly when both are, with the body's projectArn, deviceArn and name; 201 with the vendor session; otherwise 500 with the error's message or "Failed to create session" |
| SessionsRoute.GetSession | app/api/sessions/route.ts:33-56 | 401; 400 without arn; 200 with the session; otherwise 500 with the message or "Failed to fetch session" |
| DevicePoolsRoute.GetPools | app/api/device-pools/route.ts:10-30 | 401; 400 without projectArn; one listing call; the pools or `[]`; 500 "Failed to fetch device pools" |
| DevicePoolsRoute.RulesOrEmpty | app/api/device-pools/route.ts:46 | the body's rules when truthy, `[]` otherwise |
| DevicePoolsRoute.PostPool | app/api/device-pools/route.ts:32-52 | 401; 400 unless projectArn and name are truthy; one create call with the rules or `[]`; 201; 500 "Failed to create device pool" |
| DevicePoolsRoute.PatchPool | app/api/device-pools/route.ts:54-74 | 401; 400 unless arn is truthy; one update call passing name and rules as given; 200; 500 "Failed to update device pool" |
| DevicePoolsRoute.DeletePoolHandler | app/api/device-pools/route.ts:76-96 | 401; 400 without arn; one delete call; `{success: true}`; 500 "Failed to delete device pool" |
| DevicePoolsRoute.PoolHandlersGuardVendor | app/api/device-pools/route.ts:10-96 | no handler calls the vendor without a user or without its required field |
| DevicesRoute.PlatformFilters | app/api/devices/route.ts:15-23 | no filters without a platform; otherwise exactly one, PLATFORM EQUALS the upper-cased platform |
| DevicesRoute.PlatformFilterCaseInsensitive | app/api/devices/route.ts:20 | the platform filter does not depend on letter case, and the value sent has no lower-case letter |
| DevicesRoute.GetDevices | app/api/devices/route.ts:5-31 | 401 with no call; otherwise one listing with those filters; the devices or `[]`; 500 "Failed to fetch devices" |
| StatusRoute.ProbeMessage | app/api/status/aws/route.ts:20-23 | "Invalid Credentials" for a CredentialsError; otherwise the message, or "Connection Failed"; never empty |
| StatusRoute.GetAwsStatus | app/api/status/aws/route.ts:5-33 | 401; otherwise 200 either way, connected iff the probe returned |
| StatusRoute.StatusNeverFails | app/api/status/aws/route.ts:25-31 | the probe only ever answers 200 or 401 |
| Middleware.Decide | middleware.ts:4-33 | redirects to /dashboard iff a logged-in visitor opens an /auth/ path; to /auth/signin iff an anonymous visitor opens a protected path that is not public; only matched paths are redirected |
| Middleware.LoggedInNeverToSignIn | middleware.ts:18-26 | a logged-in visitor is never sent to sign-in |
| Middleware.AuthApiNeverRedirected | middleware.ts:9-26 | /api/auth paths always pass, logged in or not |
| Middleware.RedirectsSettle | middleware.ts:18-26 | the target of a redirect is not redirected again |
| Dashboard.StatusOf | app/dashboard/page.tsx:52-56 | a status read from text spells that text back; statuses the page names are never kept as Other |
| Dashboard.StatusRoundTrip | app/dashboard/page.tsx:52-56 | every status the page can hold reads back from its own text |
| Dashboard.Polled | app/dashboard/page.tsx:47-61 | no answer changes nothing; RUNNING takes the answered endpoint; FAILED, ERRORED and COMPLETED are recorded and keep the endpoint; other statuses change nothing; the arn never changes |
| Dashboard.EndedStatusKeepsPolling | app/dashboard/page.tsx:44-56 | after an ERRORED or COMPLETED answer, a session without an endpoint is still polled |
| Dashboard.PollingStops | app/dashboard/page.tsx:44-56 | after an update, polling stops iff the answer was FAILED, or RUNNING with an endpoint |
| Dashboard.PollingEndsAtFirstStop | app/dashboard/page.tsx:43-65 | the number of polls `PollsMade` counts is the position of the first FAILED answer, or the first RUNNING answer with an endpoint, plus one |
| Dashboard.SessionNameShape | app/dashboard/page.tsx:82 | the session name is "Session-" followed by the device name with no white space left; a name without white space is kept as it is |
| Dashboard.StartedSession | app/dashboard/page.tsx:89-93 | the new session keeps the arn and endpoint it was answered with; its status defaults to PENDING |
| Dashboard.SessionPanel.PollRequest | app/dashboard/page.tsx:44-48 | a tick asks about the active session's arn, only while the guard holds |
| Dashboard.SessionPanel.PollAnswered | app/dashboard/page.tsx:48-61 | an answer is applied to the session active when it lands: a known status updates it as `Polled` says (none stays none) and ends loading; any other answer changes nothing |
| Dashboard.SessionPanel.SelectProject | app/dashboard/page.tsx:34 | selecting a project sets the arn the connect handler reads and nothing else |
| Dashboard.SessionPanel.Connect | app/dashboard/page.tsx:67-84 | without a project arn nothing changes and nothing is sent; otherwise it marks the device as connecting, starts loading and sends the session request |
| Dashboard.SessionPanel.ConnectSettled | app/dashboard/page.tsx:86-101 | a started session becomes active; a failure ends loading; the connecting mark is always cleared |
| Dashboard.SessionPanel.CloseSession | app/dashboard/page.tsx:104-108 | the session and device name are cleared and polling stops; the loading flag is untouched |
| Dashboard.ConnectingLocksButtons | components/dashboard/device-list.tsx:111-118 | while a device is connecting, every Connect button is disabled; only the connecting device shows the spinner |
| DeviceList.FilteredDevices | components/dashboard/device-list.tsx:67-71 | a device is kept iff its lower-cased name or manufacturer contains the lower-cased search; the result is a subsequence of the list |
| DeviceList.MatchesIffOccurs | components/dashboard/device-list.tsx:67-71 | a match is an occurrence of the search text at some position |
| DeviceList.EmptySearchKeepsAll | components/dashboard/device-list.tsx:67-71 | an empty search keeps every device, in order |
| DeviceList.SearchIgnoresCase | components/dashboard/device-list.tsx:67-71 | the search does not depend on the letter case of the search text |
| DeviceList.GroupedDevices | components/dashboard/device-list.tsx:73-84 | each of the four groups holds exactly the filtered devices of its platform and form factor, in list order |
| DeviceList.GroupsPartition | components/dashboard/device-list.tsx:73-84 | the group sizes add up to at most the list length, and to exactly that length when every device is of a known kind |
| DeviceList.ConnectButtonOf | components/dashboard/device-list.tsx:111-118 | shown iff the project arn is set; disabled iff some device is connecting; the spinner shows iff this device is the connecting one |
| DeviceList.Panel.FetchDevices | components/dashboard/device-list.tsx:51-65 | success replaces the list and clears the error; failure keeps the list and sets the error; loading ends either way |
| AppUploader.AwsType | components/dashboard/app-uploader.tsx:37 | ANDROID_APP for android, IOS_APP otherwise |
| AppUploader.UploadFlow | components/dashboard/app-uploader.tsx:29-94 | the requests go in order (URL, PUT, save), each only after the previous one succeeded; a missing url stops before the transfer; the record carries the upload arn and the file's name and size; success iff all three succeed |
| AppUploader.RecordFollowsTransfer | components/dashboard/app-uploader.tsx:66-79 | a recorded app was first sent to the url the first step returned |
| AppUploader.Uploader.HandleUpload | components/dashboard/app-uploader.tsx:29-94 | without a file nothing happens; otherwise it makes the `UploadFlow` requests; it clears the file only on success; uploading and progress are always reset |

## Left out

- Authentication: `auth()` is not modelled. The user id is an optional input, and `auth()`
  throwing is not modelled. This also drops each route's outer "Failed to …" catch for
  that case.
- The Prisma and AWS SDK internals are not modelled. The tables are sequences. Each vendor
  call's answer is an input (an oracle), and each vendor call is recorded as a `Call`
  value.
- Database failures other than those the model names are left out: a connection failure
  or a `delete`/`update` of a missing row. The store methods return nothing for a missing
  row instead of throwing. The reset's `deleteMany` failure is an explicit input.
- Db.StoredFileSize: JSON numbers are exact reals (every finite double is one). A size that
  parses to `Infinity`, such as `1e999`, passes `positive()` in the source and then makes
  `BigInt` throw a RangeError; the model has no `Infinity` and stores the integer instead.
- Db.Store.CreateRun stores the status PENDING. `createRun` (lib/db/runs.ts:30-37) sets no
  status, so this is the database default, taken as an assumption: the schema is not part
  of this model.
- Cascading deletes come from a Prisma schema that is not part of this model. The model
  takes them as an assumption and states them in `Db.Store.DeleteProject` and
  `Db.Store.DeleteProjectsOfUser`; they are not derived from a schema. Session rows are
  not modelled.
- `Promise.all` concurrency: the stops of one teardown, and the teardowns of one reset,
  are issued in list order. Their relative order in the source is unspecified.
- The outcome of each stop call is not modelled. `stopRemoteAccessSession` swallows every
  failure, so no outcome can be observed.
- Timing is left out. The two-second pause is a `Settle` call, and each five-second poll
  is a `PollRequest` step followed, later, by a `PollAnswered` step. Clock readings and fresh row ids are parameters.
- A body that is JSON but not an object, and a `res.json()` that throws on the client,
  are not modelled.
- Project validation: `lib/validations/project.ts` is not part of this model, so
  `ProjectsRoute.PostProject` takes the parse outcome as an input.
- `IsCuid` spells out zod 3's cuid pattern (`c` or `C` followed by at least eight UTF-16 code units that are neither white space nor `-`; the pattern has no `u` flag, so each half of a surrogate pair counts); other zod versions' patterns are not modelled.
- zod's default messages for issues other than the named ones are not reproduced.
- Letter-case mapping covers ASCII letters only. `toLowerCase`/`toUpperCase` beyond ASCII
  is not modelled.
- Middleware.Decide: the matcher is read as "every path except those starting with
  `/_next/static`, `/_next/image`, or `/favicon` + any character + `ico`". Next.js
  matcher compilation is not modelled beyond that.
- Raw HTTP transfer is an input: `uploadToPresignedUrl` and the upload form's PUT. The
  remaining thin wrappers (`getUploadStatus`, `listUploads`, `getRunStatus`, `listRuns`,
  `stopRun`, `deleteRun`, `listArtifacts`) are not called by the modelled routes and are
  not modelled.
- Rendering and display formatting are not modelled: JSX, toasts, console logging, and
  the megabyte figure in the progress text.
- Dashboard.SessionPanel.Connect and ConnectSettled split one async handler at its
  `await`. Events in between, such as ticks, are separate steps.
- Dashboard.SessionPanel.PollRequest requires the guard to hold: a timer exists only while
  it does, because the effect re-arms on every session change. The answer to a request
  already in flight is not cut off by `clearInterval`, so `PollAnswered` has no such
  requirement and applies the answer to whatever session is active when it lands.
- AppsRoute.PostApp assumes the reply serializes. The stored
  `fileSize` is converted with `BigInt` (lib/db/apps.ts:22), and JSON serialization of a
  `BigInt` throws unless something patches it. The database schema and client setup are
  not part of this model, so whether the column comes back as a `BigInt` is not known
  here; the model answers 201 instead of the 500 that such a throw would cause, after the
  row is stored.
- AppsRoute.GetApps makes the same assumption: it answers 200 where a listed app with a
  size would make serialization throw and the route answer 500 "Failed to fetch apps".

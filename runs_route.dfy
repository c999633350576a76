/** The runs endpoint (app/api/runs/route.ts): `GET` lists a project's runs; `POST`
    resolves the vendor arns a run needs, schedules it and records it. */
module RunsRoute {
  import opened Common
  import opened Seqs
  import opened Validations
  import opened Db
  import opened DeviceFarm

  /** `GET`: 401 without a user, 400 without a `projectId`, otherwise the caller's runs of
      that project, newest first. */
  function GetRuns(runs: seq<Run>, apps: seq<App>, userId: Option<string>, projectId: Option<string>)
    : (r: Reply<seq<RunListing>>)
    ensures !Present(userId) ==> r == ErrorJson(401, "Unauthorized")
    ensures Present(userId) && !Present(projectId) ==> r == ErrorJson(400, "Project ID is required")
    ensures Present(userId) && Present(projectId) ==>
      r.Json? && r.code == 200 && |r.payload| == |UserProjectRuns(runs, projectId.value, userId.value)| &&
      (forall k :: 0 <= k < |r.payload| ==>
         r.payload[k].run in runs && r.payload[k].run.userId == userId.value && r.payload[k].run.projectId == projectId.value) &&
      (forall i, j :: 0 <= i < j < |r.payload| ==> r.payload[i].run.createdAt >= r.payload[j].run.createdAt) &&
      (forall x :: x in runs && x.userId == userId.value && x.projectId == projectId.value ==>
         exists k :: 0 <= k < |r.payload| && r.payload[k].run == x)
    ensures Present(userId) && Present(projectId) ==> r == Json(200, GetRunsByProjectId(runs, apps, projectId.value, userId.value))
  {
    if !Present(userId) then Unauthorized()
    else if !Present(projectId) then ErrorJson(400, "Project ID is required")
    else
      var listing := GetRunsByProjectId(runs, apps, projectId.value, userId.value);
      RunListingExact(runs, apps, projectId.value, userId.value);
      Json(200, listing)
  }

  /** A device pool as `listDevicePools` lists it. */
  datatype Pool = Pool(arn: Option<string>)

  /** What the vendor answers to the calls `POST` may make: the `devicePools` field of the
      pool listing and the `run.arn` of the scheduling reply, or the errors they throw. */
  datatype RunOracle = RunOracle(pools: Outcome<Option<seq<Pool>>>, scheduled: Outcome<Option<string>>)

  /** The vendor arn of the caller's project, when the project exists and is synced. */
  function ProjectArnFor(projects: seq<Project>, projectId: string, userId: string): (r: Option<string>)
    ensures (forall i :: 0 <= i < |projects| ==> !(projects[i].id == projectId && projects[i].userId == userId)) ==> r.None?
    ensures r.Some? ==> Present(r) && (exists p :: p in projects && p.id == projectId && p.userId == userId && p.awsProjectArn == r)
    ensures var f := FindFirst(projects, ProjectIs(projectId, userId));
      f.Some? && Present(f.value.awsProjectArn) ==> r == f.value.awsProjectArn
  {
    var found := FindFirst(projects, ProjectIs(projectId, userId));
    if found.None? || !Present(found.value.awsProjectArn) then None else found.value.awsProjectArn
  }

  /** The lookup is the project `getProjectById` returns, without its relations. */
  lemma ProjectArnIsQueried(projects: seq<Project>, apps: seq<App>, runs: seq<Run>, projectId: string, userId: string)
    ensures var q := GetProjectById(projects, apps, runs, projectId, userId);
      ProjectArnFor(projects, projectId, userId) ==
        if q.None? || !Present(q.value.project.awsProjectArn) then None else q.value.project.awsProjectArn
  {
  }

  /** The app arn: the `awsUploadArn` of the caller's app `appId`, when there is one. */
  function AppArnFor(apps: seq<App>, appId: Option<string>, userId: string): (r: Option<string>)
    ensures r.Some? ==> Present(appId) && Present(r) && (exists a :: a in apps && a.id == appId.value && a.userId == userId && a.awsUploadArn == r)
    ensures var f := if Present(appId) then FindFirst(apps, AppIs(appId.value, userId)) else None;
      f.Some? && Present(f.value.awsUploadArn) ==> r == f.value.awsUploadArn
    ensures !Present(appId) ==> r.None?
  {
    if !Present(appId) then None
    else
      var app := GetAppById(apps, appId.value, userId);
      if app.Some? && Present(app.value.awsUploadArn) then app.value.awsUploadArn else None
  }

  /** `poolsOutput.devicePools?.[0]?.arn`. */
  function FirstPoolArn(pools: Option<seq<Pool>>): (r: Option<string>)
    ensures r.Some? ==> pools.Some? && |pools.value| > 0 && r == pools.value[0].arn
    ensures pools.Some? && |pools.value| > 0 ==> r == pools.value[0].arn
  {
    if pools.None? || |pools.value| == 0 then None else pools.value[0].arn
  }

  /** Where the resolution of a run ends: an early reply, a thrown error, or the fields of
      the row to insert. */
  datatype Resolution = Refuse(code: int, error: string) | Fail(failure: Failure) | Ready(fields: RunFields)

  /** The part of `POST` between validation and the insert, as a decision: the project must
      exist for the caller and be synced; the app arn comes from the caller's app; a missing
      pool arn falls back to the project's first pool, and that check comes before the app
      check; only then is the run scheduled. The second component is the vendor calls made. */
  function Resolve(projects: seq<Project>, apps: seq<App>, runs: seq<Run>, userId: string,
                   input: CreateRunInput, oracle: RunOracle): (Resolution, seq<Call>)
  {
    var projectArn := ProjectArnFor(projects, input.projectId, userId);
    if projectArn.None? then (Refuse(404, "Project not found or not synced"), [])
    else
      var appArn := AppArnFor(apps, input.appId, userId);
      var listing := if Present(input.devicePoolArn) then [] else [ListDevicePools(projectArn.value)];
      if !Present(input.devicePoolArn) && oracle.pools.Threw? then (Fail(oracle.pools.failure), listing)
      else
        var pool := if Present(input.devicePoolArn) then input.devicePoolArn else FirstPoolArn(oracle.pools.value);
        if !Present(input.devicePoolArn) && !Present(pool) then (Refuse(400, "No Device Pool available"), listing)
        else if !Present(pool) || !Present(appArn) then (Refuse(400, "Missing App ARN or Device Pool ARN"), listing)
        else
          var calls := listing + [ScheduleRun(ScheduleRunCommandOf(projectArn.value, appArn.value, pool.value, input.name, None))];
          if oracle.scheduled.Threw? then (Fail(oracle.scheduled.failure), calls)
          else (Ready(RunFields(input.projectId, input.appId, input.name, pool, oracle.scheduled.value)), calls)
  }

  /** `POST` from validation to the insert, step by step as the handler reassigns `appArn`
      and `devicePoolArn`. */
  method ResolveRun(projects: seq<Project>, apps: seq<App>, runs: seq<Run>, userId: string,
                    input: CreateRunInput, oracle: RunOracle)
    returns (r: Resolution, calls: seq<Call>)
    ensures r == Resolve(projects, apps, runs, userId, input, oracle).0
    ensures calls == Resolve(projects, apps, runs, userId, input, oracle).1
  {
    calls := [];
    var project := ProjectArnFor(projects, input.projectId, userId);
    if project.None? {
      return Refuse(404, "Project not found or not synced"), calls;
    }
    var projectArn := project.value;

    var appArn := AppArnFor(apps, input.appId, userId);

    var devicePoolArn := input.devicePoolArn;
    if !Present(devicePoolArn) {
      calls := calls + [ListDevicePools(projectArn)];
      if oracle.pools.Threw? {
        return Fail(oracle.pools.failure), calls;
      }
      var pool := FirstPoolArn(oracle.pools.value);
      if Present(pool) {
        devicePoolArn := pool;
      } else {
        return Refuse(400, "No Device Pool available"), calls;
      }
    }

    if !Present(devicePoolArn) || !Present(appArn) {
      return Refuse(400, "Missing App ARN or Device Pool ARN"), calls;
    }

    var command := ScheduleRunCommandOf(projectArn, appArn.value, devicePoolArn.value, input.name, None);
    calls := calls + [ScheduleRun(command)];
    if oracle.scheduled.Threw? {
      return Fail(oracle.scheduled.failure), calls;
    }
    r := Ready(RunFields(input.projectId, input.appId, input.name, devicePoolArn, oracle.scheduled.value));
  }

  /** `POST`: 401 without a user; a body that is not JSON or fails the create-run schema
      ends in the `catch` (400 for the schema, 500 otherwise); otherwise the resolution
      decides, and a scheduled run is stored for the caller and answered with 201. */
  method PostRun(store: Store, userId: Option<string>, body: Outcome<Body>, oracle: RunOracle, id: string, now: int)
    returns (reply: Reply<Run>, calls: seq<Call>)
    modifies store
    ensures !Present(userId) ==> reply == ErrorJson(401, "Unauthorized") && calls == [] && unchanged(store)
    ensures Present(userId) && body.Threw? ==>
      reply == CatchZod(body.failure, "Failed to create run") && calls == [] && unchanged(store)
    ensures Present(userId) && body.Done? && ParseCreateRun(body.value).Invalid? ==>
      reply == ErrorJson(400, "Invalid input data") && calls == [] && unchanged(store)
    ensures reply.Json? ==>
      Present(userId) && body.Done? && ParseCreateRun(body.value).Valid? &&
      reply.code == 201 && reply.payload.userId == userId.value &&
      reply.payload.projectId == ParseCreateRun(body.value).value.projectId &&
      Present(reply.payload.devicePoolArn) && reply.payload.status == Pending &&
      store.runs == old(store.runs) + [reply.payload] &&
      |calls| > 0 && calls[|calls| - 1].ScheduleRun? &&
      calls[|calls| - 1].command.devicePoolArn == reply.payload.devicePoolArn.value
    ensures Present(userId) && body.Done? && ParseCreateRun(body.value).Valid? ==>
      var res := Resolve(old(store.projects), old(store.apps), old(store.runs), userId.value,
                         ParseCreateRun(body.value).value, oracle);
      calls == res.1 &&
      (res.0.Refuse? ==> reply == ErrorJson(res.0.code, res.0.error)) &&
      (res.0.Fail? ==> reply == CatchZod(res.0.failure, "Failed to create run")) &&
      (res.0.Ready? ==>
         reply == Json(201, Run(id, userId.value, res.0.fields.projectId, res.0.fields.appId, res.0.fields.name, Pending,
                                res.0.fields.devicePoolArn, res.0.fields.awsRunArn, None, None, None, now)))
    ensures reply.ErrorJson? ==> unchanged(store)
    ensures store.projects == old(store.projects) && store.apps == old(store.apps)
  {
    calls := [];
    if !Present(userId) {
      return Unauthorized(), calls;
    }
    if body.Threw? {
      return CatchZod(body.failure, "Failed to create run"), calls;
    }
    var parsed := Parse(ParseCreateRun(body.value));
    if parsed.Threw? {
      return CatchZod(parsed.failure, "Failed to create run"), calls;
    }
    var resolution;
    resolution, calls := ResolveRun(store.projects, store.apps, store.runs, userId.value, parsed.value, oracle);
    match resolution {
      case Refuse(code, error) =>
        reply := ErrorJson(code, error);
      case Fail(f) =>
        reply := CatchZod(f, "Failed to create run");
      case Ready(fields) =>
        var run := store.CreateRun(userId.value, fields, id, now);
        reply := Json(201, run);
    }
  }

  // ---- properties of the resolution ----

  /** A project that is missing for the caller, or not synced, ends the request with 404
      before any vendor call. */
  lemma ResolveNeedsSyncedProject(projects: seq<Project>, apps: seq<App>, runs: seq<Run>, userId: string,
                                  input: CreateRunInput, oracle: RunOracle)
    requires forall p :: p in projects && p.id == input.projectId && p.userId == userId ==> !Present(p.awsProjectArn)
    ensures Resolve(projects, apps, runs, userId, input, oracle) == (Refuse(404, "Project not found or not synced"), [])
  {
  }

  /** Whatever is scheduled uses the caller's own project and app: the project arn is that
      of a project the caller owns, the app arn the upload arn of an app the caller owns. */
  lemma ResolveSchedulesOwnedArns(projects: seq<Project>, apps: seq<App>, runs: seq<Run>, userId: string,
                                  input: CreateRunInput, oracle: RunOracle, k: int)
    requires var calls := Resolve(projects, apps, runs, userId, input, oracle).1;
      0 <= k < |calls| && calls[k].ScheduleRun?
    ensures var c := Resolve(projects, apps, runs, userId, input, oracle).1[k].command;
      (exists p :: p in projects && p.id == input.projectId && p.userId == userId && p.awsProjectArn == Some(c.projectArn)) &&
      input.appId.Some? &&
      (exists a :: a in apps && a.id == input.appId.value && a.userId == userId && a.awsUploadArn == Some(c.appArn)) &&
      c.devicePoolArn != "" && c.appArn != "" && c.name == input.name && c.test == BuiltinFuzz()
  {
  }

  /** When the body names no pool and the project has none, the answer is "No Device Pool
      available" whether or not the app resolves: the pool check comes first. */
  lemma ResolvePoolCheckFirst(projects: seq<Project>, apps: seq<App>, runs: seq<Run>, userId: string,
                              input: CreateRunInput, oracle: RunOracle)
    requires ProjectArnFor(projects, input.projectId, userId).Some?
    requires !Present(input.devicePoolArn)
    requires oracle.pools.Done? && (oracle.pools.value.None? || oracle.pools.value == Some([]))
    ensures Resolve(projects, apps, runs, userId, input, oracle) ==
      (Refuse(400, "No Device Pool available"), [ListDevicePools(ProjectArnFor(projects, input.projectId, userId).value)])
  {
  }

  /** Without an app arn nothing is scheduled; since the pool arn is always set by then,
      "Missing App ARN or Device Pool ARN" in fact always means a missing app arn. */
  lemma ResolveNeedsAppArn(projects: seq<Project>, apps: seq<App>, runs: seq<Run>, userId: string,
                           input: CreateRunInput, oracle: RunOracle)
    ensures var (r, calls) := Resolve(projects, apps, runs, userId, input, oracle);
      (!Present(AppArnFor(apps, input.appId, userId)) ==> !r.Ready? && forall c :: c in calls ==> !c.ScheduleRun?) &&
      (r == Refuse(400, "Missing App ARN or Device Pool ARN") ==> !Present(AppArnFor(apps, input.appId, userId)))
  {
  }

  /** A ready run carries the pool arn the run was scheduled with (the body's, or else the
      project's first pool) and the vendor's run arn. */
  lemma ResolveReadyFields(projects: seq<Project>, apps: seq<App>, runs: seq<Run>, userId: string,
                           input: CreateRunInput, oracle: RunOracle)
    ensures var (r, calls) := Resolve(projects, apps, runs, userId, input, oracle);
      r.Ready? ==>
        Present(r.fields.devicePoolArn) &&
        r.fields.devicePoolArn == (if Present(input.devicePoolArn) then input.devicePoolArn else FirstPoolArn(oracle.pools.value)) &&
        r.fields.awsRunArn == oracle.scheduled.value &&
        r.fields.projectId == input.projectId && r.fields.appId == input.appId && r.fields.name == input.name &&
        |calls| > 0 && calls[|calls| - 1].ScheduleRun? &&
        calls[|calls| - 1].command.devicePoolArn == r.fields.devicePoolArn.value
  {
  }
}

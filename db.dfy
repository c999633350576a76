/** The local store (lib/db/projects.ts, apps.ts, runs.ts): three tables of records, each
    row owned by one user. Queries are functions over the tables that filter by the owner
    as the `where` clauses do and order as the `orderBy` clauses do; creates, updates and
    deletes are methods of `Store`, which holds the tables.

    Deleting a project also deletes its apps and runs. That cascade is declared by the
    database schema, which is not part of this model: it is assumed, and built into the
    project deletes below. */
module Db {
  import opened Common
  import opened Seqs
  import opened Validations

  datatype Project = Project(
    id: string,
    userId: string,
    name: string,
    description: Option<string>,
    awsProjectArn: Option<string>,
    createdAt: int)

  datatype App = App(
    id: string,
    userId: string,
    projectId: string,
    name: string,
    appType: AppType,
    fileName: Option<string>,
    fileSize: Option<int>,
    awsUploadArn: Option<string>,
    uploadedAt: int)

  datatype Run = Run(
    id: string,
    userId: string,
    projectId: string,
    appId: Option<string>,
    name: string,
    status: RunStatus,
    devicePoolArn: Option<string>,
    awsRunArn: Option<string>,
    result: Option<Value>,
    startedAt: Option<int>,
    completedAt: Option<int>,
    createdAt: int)

  // ---- selectors used by the queries ----

  function ProjectOwnedBy(userId: string): Project -> bool {
    (p: Project) => p.userId == userId
  }

  function ProjectNotOwnedBy(userId: string): Project -> bool {
    (p: Project) => p.userId != userId
  }

  function ProjectIs(id: string, userId: string): Project -> bool {
    (p: Project) => p.id == id && p.userId == userId
  }

  function ProjectIsNot(id: string, userId: string): Project -> bool {
    (p: Project) => !(p.id == id && p.userId == userId)
  }

  function AppIs(id: string, userId: string): App -> bool {
    (a: App) => a.id == id && a.userId == userId
  }

  function AppIsNot(id: string, userId: string): App -> bool {
    (a: App) => !(a.id == id && a.userId == userId)
  }

  function AppOfProject(projectId: string, userId: string): App -> bool {
    (a: App) => a.projectId == projectId && a.userId == userId
  }

  function RunIs(id: string, userId: string): Run -> bool {
    (r: Run) => r.id == id && r.userId == userId
  }

  function RunIsNot(id: string, userId: string): Run -> bool {
    (r: Run) => !(r.id == id && r.userId == userId)
  }

  function RunOfProject(projectId: string, userId: string): Run -> bool {
    (r: Run) => r.projectId == projectId && r.userId == userId
  }

  /** Relation filters of `include`: every row of the project, whoever owns it. */
  function AppInProject(projectId: string): App -> bool {
    (a: App) => a.projectId == projectId
  }

  function RunInProject(projectId: string): Run -> bool {
    (r: Run) => r.projectId == projectId
  }

  /** Cascade: the rows that survive when the projects with these ids are deleted. */
  function AppOutside(ids: set<string>): App -> bool {
    (a: App) => a.projectId !in ids
  }

  function RunOutside(ids: set<string>): Run -> bool {
    (r: Run) => r.projectId !in ids
  }

  function AppWithId(id: string): App -> bool {
    (a: App) => a.id == id
  }

  function ProjectWithId(id: string): Project -> bool {
    (p: Project) => p.id == id
  }

  function ProjectCreatedAt(p: Project): int { p.createdAt }
  function AppUploadedAt(a: App): int { a.uploadedAt }
  function RunCreatedAt(r: Run): int { r.createdAt }

  /** Quantified form of `FilterMultiset`. */
  lemma FilterCounts<T>(s: seq<T>, p: T -> bool)
    ensures forall x :: multiset(Filter(s, p))[x] == if p(x) then multiset(s)[x] else 0
  {
    forall x ensures multiset(Filter(s, p))[x] == if p(x) then multiset(s)[x] else 0 {
      FilterMultiset(s, p, x);
    }
  }

  // ---- lib/db/projects.ts ----

  /** `getProjectsByUserId`: the user's projects, each as often as stored, newest first. */
  function GetProjectsByUserId(projects: seq<Project>, userId: string): (r: seq<Project>)
    ensures forall p :: multiset(r)[p] == if p.userId == userId then multiset(projects)[p] else 0
    ensures SortedDesc(r, ProjectCreatedAt)
    ensures forall k :: 0 <= k < |r| ==> r[k] in projects && r[k].userId == userId
  {
    SortedFilter(projects, ProjectOwnedBy(userId), ProjectCreatedAt);
    SortDesc(Filter(projects, ProjectOwnedBy(userId)), ProjectCreatedAt)
  }

  /** A project with the relations `getProjectById` includes. */
  datatype ProjectDetail = ProjectDetail(project: Project, apps: seq<App>, runs: seq<Run>)

  /** The project's runs, newest first, as `getProjectById` orders them before taking 10. */
  function ProjectRunsNewestFirst(runs: seq<Run>, projectId: string): (r: seq<Run>)
    ensures forall x :: multiset(r)[x] == if x.projectId == projectId then multiset(runs)[x] else 0
    ensures SortedDesc(r, RunCreatedAt)
  {
    SortedFilter(runs, RunInProject(projectId), RunCreatedAt);
    SortDesc(Filter(runs, RunInProject(projectId)), RunCreatedAt)
  }

  /** `getProjectById`: the first project matching both `id` and `userId`, with all its
      apps (newest upload first) and its ten newest runs. */
  function GetProjectById(projects: seq<Project>, apps: seq<App>, runs: seq<Run>, id: string, userId: string)
    : (r: Option<ProjectDetail>)
    ensures r.None? <==> forall i :: 0 <= i < |projects| ==> !(projects[i].id == id && projects[i].userId == userId)
    ensures r.Some? ==> r.value.project in projects && r.value.project.id == id && r.value.project.userId == userId
    ensures r.Some? ==>
      (forall a :: multiset(r.value.apps)[a] == if a.projectId == id then multiset(apps)[a] else 0) &&
      SortedDesc(r.value.apps, AppUploadedAt)
    ensures r.Some? ==>
      |r.value.runs| <= 10 && SortedDesc(r.value.runs, RunCreatedAt) &&
      (forall k :: 0 <= k < |r.value.runs| ==> r.value.runs[k] in runs && r.value.runs[k].projectId == id)
    ensures r.Some? ==>
      forall x: Run :: x.projectId == id && multiset(r.value.runs)[x] < multiset(runs)[x] ==>
        forall k :: 0 <= k < |r.value.runs| ==> r.value.runs[k].createdAt >= x.createdAt
    ensures r.Some? ==> r.value.runs == Take(ProjectRunsNewestFirst(runs, id), 10)
  {
    match FindFirst(projects, ProjectIs(id, userId))
    case None => None
    case Some(p) =>
      SortedFilter(apps, AppInProject(id), AppUploadedAt);
      NewestRuns(runs, id);
      Some(ProjectDetail(p, SortDesc(Filter(apps, AppInProject(id)), AppUploadedAt), Take(ProjectRunsNewestFirst(runs, id), 10)))
  }

  /** The ten newest runs of a project: at most ten, newest first, all of the project; no
      run of the project left out is newer than one kept, and fewer than ten means none was
      left out. */
  lemma NewestRuns(runs: seq<Run>, id: string)
    ensures var newest := Take(ProjectRunsNewestFirst(runs, id), 10);
      |newest| <= 10 && SortedDesc(newest, RunCreatedAt) &&
      (forall k :: 0 <= k < |newest| ==> newest[k] in runs && newest[k].projectId == id) &&
      (forall x: Run :: x.projectId == id && multiset(newest)[x] < multiset(runs)[x] ==>
         forall k :: 0 <= k < |newest| ==> newest[k].createdAt >= x.createdAt) &&
      (|newest| < 10 ==> forall x: Run :: x.projectId == id ==> multiset(newest)[x] == multiset(runs)[x])
  {
    var all := ProjectRunsNewestFirst(runs, id);
    TakeNewest(all, RunCreatedAt, 10);
    TakeSorted(all, RunCreatedAt, 10);
    NewestRunsOfProject(runs, id);
    FewRunsAllKept(runs, id);
  }

  lemma NewestRunsOfProject(runs: seq<Run>, id: string)
    ensures var newest := Take(ProjectRunsNewestFirst(runs, id), 10);
      forall k :: 0 <= k < |newest| ==> newest[k] in runs && newest[k].projectId == id
  {
    var all := ProjectRunsNewestFirst(runs, id);
    var newest := Take(all, 10);
    forall k | 0 <= k < |newest| ensures newest[k] in runs && newest[k].projectId == id {
      assert newest[k] == all[k];
      assert all[k] in multiset(all);
    }
  }

  lemma TakeSorted<T>(s: seq<T>, key: T -> int, n: nat)
    requires SortedDesc(s, key)
    ensures SortedDesc(Take(s, n), key)
  {
    var t := Take(s, n);
    assert forall k :: 0 <= k < |t| ==> t[k] == s[k];
  }

  lemma FewRunsAllKept(runs: seq<Run>, id: string)
    ensures var newest := Take(ProjectRunsNewestFirst(runs, id), 10);
      |newest| < 10 ==> forall x: Run :: x.projectId == id ==> multiset(newest)[x] == multiset(runs)[x]
  {
    var all := ProjectRunsNewestFirst(runs, id);
    if |all| < 10 {
      assert Take(all, 10) == all;
    }
  }

  /** Taking the first `n` of a newest-first sequence keeps the newest: whatever is left
      out is no newer than anything kept. */
  lemma TakeNewest<T>(s: seq<T>, key: T -> int, n: nat)
    requires SortedDesc(s, key)
    ensures forall x :: multiset(Take(s, n))[x] < multiset(s)[x] ==>
      forall k :: 0 <= k < |Take(s, n)| ==> key(Take(s, n)[k]) >= key(x)
  {
    var t := Take(s, n);
    forall x | multiset(t)[x] < multiset(s)[x]
      ensures forall k :: 0 <= k < |t| ==> key(t[k]) >= key(x)
    {
      assert s == t + s[|t|..];
      assert multiset(s) == multiset(t) + multiset(s[|t|..]);
      assert x in multiset(s[|t|..]);
      var j :| 0 <= j < |s[|t|..]| && s[|t|..][j] == x;
      assert s[|t| + j] == x;
    }
  }

  /** The projects `getProjectById` can return for a user are that user's own. */
  lemma ProjectByIdIsolation(projects: seq<Project>, apps: seq<App>, runs: seq<Run>, id: string, owner: string, other: string)
    requires owner != other
    requires forall i :: 0 <= i < |projects| && projects[i].id == id ==> projects[i].userId == owner
    ensures GetProjectById(projects, apps, runs, id, other).None?
  {
  }

  // ---- lib/db/apps.ts ----

  /** `getAppsByProjectId`: the user's apps of the project, newest upload first. */
  function GetAppsByProjectId(apps: seq<App>, projectId: string, userId: string): (r: seq<App>)
    ensures forall a :: multiset(r)[a] == (if a.projectId == projectId && a.userId == userId then multiset(apps)[a] else 0)
    ensures SortedDesc(r, AppUploadedAt)
    ensures forall k :: 0 <= k < |r| ==> r[k] in apps && r[k].projectId == projectId && r[k].userId == userId
  {
    SortedFilter(apps, AppOfProject(projectId, userId), AppUploadedAt);
    SortDesc(Filter(apps, AppOfProject(projectId, userId)), AppUploadedAt)
  }

  /** `getAppById`: the first app matching both `id` and `userId`. */
  function GetAppById(apps: seq<App>, id: string, userId: string): (r: Option<App>)
    ensures r.None? <==> forall i :: 0 <= i < |apps| ==> !(apps[i].id == id && apps[i].userId == userId)
    ensures r.Some? ==> r.value in apps && r.value.id == id && r.value.userId == userId
  {
    FindFirst(apps, AppIs(id, userId))
  }

  // ---- lib/db/runs.ts ----

  /** The `app: { select: { name, appType } }` part of a listed run. */
  datatype AppSummary = AppSummary(name: string, appType: AppType)

  datatype RunListing = RunListing(run: Run, app: Option<AppSummary>)

  /** The app a run refers to, as the relation `app` resolves it. */
  function AppOfRun(apps: seq<App>, appId: Option<string>): (r: Option<App>)
    ensures r.Some? ==> appId.Some? && r.value in apps && r.value.id == appId.value
    ensures appId.None? ==> r.None?
    ensures appId.Some? && (exists a :: a in apps && a.id == appId.value) ==> r.Some?
  {
    if appId.None? then None else FindFirst(apps, AppWithId(appId.value))
  }

  function Summary(a: Option<App>): Option<AppSummary> {
    if a.None? then None else Some(AppSummary(a.value.name, a.value.appType))
  }

  /** The user's runs of the project, newest first, as `getRunsByProjectId` selects and
      orders them. */
  function UserProjectRuns(runs: seq<Run>, projectId: string, userId: string): (r: seq<Run>)
    ensures forall x :: multiset(r)[x] == (if x.projectId == projectId && x.userId == userId then multiset(runs)[x] else 0)
    ensures SortedDesc(r, RunCreatedAt)
    ensures forall k :: 0 <= k < |r| ==> r[k] in runs && r[k].projectId == projectId && r[k].userId == userId
  {
    SortedFilter(runs, RunOfProject(projectId, userId), RunCreatedAt);
    SortDesc(Filter(runs, RunOfProject(projectId, userId)), RunCreatedAt)
  }

  /** `getRunsByProjectId`: those runs, each joined with the name and type of its app. */
  function GetRunsByProjectId(runs: seq<Run>, apps: seq<App>, projectId: string, userId: string)
    : (r: seq<RunListing>)
    ensures |r| == |UserProjectRuns(runs, projectId, userId)|
    ensures forall k :: 0 <= k < |r| ==>
      r[k].run == UserProjectRuns(runs, projectId, userId)[k] &&
      r[k].app == Summary(AppOfRun(apps, r[k].run.appId))
  {
    var sorted := UserProjectRuns(runs, projectId, userId);
    seq(|sorted|, k requires 0 <= k < |sorted| => RunListing(sorted[k], Summary(AppOfRun(apps, sorted[k].appId))))
  }

  /** The listing is newest first and leaves out none of the user's runs of the project. */
  lemma RunListingExact(runs: seq<Run>, apps: seq<App>, projectId: string, userId: string)
    ensures var listing := GetRunsByProjectId(runs, apps, projectId, userId);
      (forall i, j :: 0 <= i < j < |listing| ==> listing[i].run.createdAt >= listing[j].run.createdAt) &&
      (forall x :: x in runs && x.userId == userId && x.projectId == projectId ==>
         exists k :: 0 <= k < |listing| && listing[k].run == x)
  {
    RunListingOrdered(runs, apps, projectId, userId);
    RunListingComplete(runs, apps, projectId, userId);
  }

  lemma RunListingOrdered(runs: seq<Run>, apps: seq<App>, projectId: string, userId: string)
    ensures var listing := GetRunsByProjectId(runs, apps, projectId, userId);
      forall i, j :: 0 <= i < j < |listing| ==> listing[i].run.createdAt >= listing[j].run.createdAt
  {
    var listing := GetRunsByProjectId(runs, apps, projectId, userId);
    var mine := UserProjectRuns(runs, projectId, userId);
    forall i, j | 0 <= i < j < |listing| ensures listing[i].run.createdAt >= listing[j].run.createdAt {
      assert RunCreatedAt(mine[i]) >= RunCreatedAt(mine[j]);
    }
  }

  lemma RunListingComplete(runs: seq<Run>, apps: seq<App>, projectId: string, userId: string)
    ensures var listing := GetRunsByProjectId(runs, apps, projectId, userId);
      forall x :: x in runs && x.userId == userId && x.projectId == projectId ==>
        exists k :: 0 <= k < |listing| && listing[k].run == x
  {
    var listing := GetRunsByProjectId(runs, apps, projectId, userId);
    var mine := UserProjectRuns(runs, projectId, userId);
    forall x | x in runs && x.userId == userId && x.projectId == projectId
      ensures exists k :: 0 <= k < |listing| && listing[k].run == x
    {
      assert x in multiset(mine);
      var k :| 0 <= k < |mine| && mine[k] == x;
      assert listing[k].run == x;
    }
  }

  /** A run with the relations `getRunById` includes (the sessions relation is not modelled). */
  datatype RunDetail = RunDetail(run: Run, app: Option<App>, project: Option<Project>)

  /** `getRunById`: the first run matching both `id` and `userId`, with its app and project. */
  function GetRunById(runs: seq<Run>, apps: seq<App>, projects: seq<Project>, id: string, userId: string)
    : (r: Option<RunDetail>)
    ensures r.None? <==> forall i :: 0 <= i < |runs| ==> !(runs[i].id == id && runs[i].userId == userId)
    ensures r.Some? ==> r.value.run in runs && r.value.run.id == id && r.value.run.userId == userId
    ensures r.Some? && r.value.project.Some? ==>
      r.value.project.value in projects && r.value.project.value.id == r.value.run.projectId
    ensures r.Some? ==>
      (r.value.project.Some? <==> exists p :: p in projects && p.id == r.value.run.projectId)
    ensures r.Some? ==>
      (r.value.app.Some? <==> r.value.run.appId.Some? && exists a :: a in apps && a.id == r.value.run.appId.value)
    ensures r.Some? && r.value.app.Some? ==>
      r.value.app.value in apps && r.value.app.value.id == r.value.run.appId.value
  {
    match FindFirst(runs, RunIs(id, userId))
    case None => None
    case Some(run) =>
      Some(RunDetail(run, AppOfRun(apps, run.appId), FindFirst(projects, ProjectWithId(run.projectId))))
  }

  // ---- updates: only the supplied fields change ----

  function PatchProject(p: Project, patch: ProjectPatch): (q: Project)
    ensures q.id == p.id && q.userId == p.userId && q.createdAt == p.createdAt
    ensures q.name == (if patch.name.Some? then patch.name.value else p.name)
    ensures q.description == (if patch.description.Some? then patch.description else p.description)
    ensures q.awsProjectArn == (if patch.awsProjectArn.Some? then patch.awsProjectArn else p.awsProjectArn)
  {
    p.(name := if patch.name.Some? then patch.name.value else p.name,
       description := if patch.description.Some? then patch.description else p.description,
       awsProjectArn := if patch.awsProjectArn.Some? then patch.awsProjectArn else p.awsProjectArn)
  }

  function PatchRun(r: Run, patch: UpdateRunInput): (q: Run)
    ensures q.id == r.id && q.userId == r.userId && q.projectId == r.projectId && q.appId == r.appId
    ensures q.name == r.name && q.devicePoolArn == r.devicePoolArn && q.awsRunArn == r.awsRunArn
    ensures q.createdAt == r.createdAt
    ensures q.status == (if patch.status.Some? then patch.status.value else r.status)
    ensures q.result == (if patch.result.Some? then patch.result else r.result)
    ensures q.startedAt == (if patch.startedAt.Some? then patch.startedAt else r.startedAt)
    ensures q.completedAt == (if patch.completedAt.Some? then patch.completedAt else r.completedAt)
  {
    r.(status := if patch.status.Some? then patch.status.value else r.status,
       result := if patch.result.Some? then patch.result else r.result,
       startedAt := if patch.startedAt.Some? then patch.startedAt else r.startedAt,
       completedAt := if patch.completedAt.Some? then patch.completedAt else r.completedAt)
  }

  /** The fields of a project row the handler supplies. */
  datatype ProjectFields = ProjectFields(name: string, description: Option<string>, awsProjectArn: Option<string>)

  /** The fields of a run row the handler supplies (`{ ...validatedData, devicePoolArn, awsRunArn }`). */
  datatype RunFields = RunFields(
    projectId: string,
    appId: Option<string>,
    name: string,
    devicePoolArn: Option<string>,
    awsRunArn: Option<string>)

  /** `data.fileSize ? BigInt(data.fileSize) : null`: zero and `undefined` store null; a
      fractional size makes `BigInt` throw a `RangeError`. */
  function StoredFileSize(fileSize: Option<real>): (r: Outcome<Option<int>>)
    ensures fileSize.None? || fileSize == Some(0.0) ==> r == Done(None)
    ensures fileSize.Some? && fileSize.value != 0.0 && fileSize.value.Floor as real == fileSize.value ==>
      r == Done(Some(fileSize.value.Floor))
    ensures fileSize.Some? && fileSize.value.Floor as real != fileSize.value ==> r.Threw? && r.failure.name == "RangeError"
  {
    if fileSize.None? || fileSize.value == 0.0 then Done(None)
    else if fileSize.value.Floor as real == fileSize.value then Done(Some(fileSize.value.Floor))
    else Threw(Failure("RangeError", "The number cannot be converted to a BigInt because it is not an integer"))
  }

  /** The ids of the rows selected by `sel`. */
  function ProjectIds(projects: seq<Project>, sel: Project -> bool): (ids: set<string>)
    ensures forall id :: id in ids <==> exists i :: 0 <= i < |projects| && sel(projects[i]) && projects[i].id == id
  {
    set i | 0 <= i < |projects| && sel(projects[i]) :: projects[i].id
  }

  /** The tables of the store. `id` and the timestamps are generated by the database; the
      methods take them as arguments. */
  class Store {
    var projects: seq<Project>
    var apps: seq<App>
    var runs: seq<Run>

    constructor ()
      ensures projects == [] && apps == [] && runs == []
    {
      projects, apps, runs := [], [], [];
    }

    /** `createProject`: a new row owned by `userId` with the given fields. */
    method CreateProject(userId: string, fields: ProjectFields, id: string, now: int) returns (p: Project)
      modifies this
      ensures p == Project(id, userId, fields.name, fields.description, fields.awsProjectArn, now)
      ensures projects == old(projects) + [p]
      ensures apps == old(apps) && runs == old(runs)
    {
      p := Project(id, userId, fields.name, fields.description, fields.awsProjectArn, now);
      projects := projects + [p];
    }

    /** `updateProject`: the row matching both `id` and `userId` takes the supplied fields;
        `None` when there is no such row (Prisma throws "record not found"). */
    method UpdateProject(id: string, userId: string, patch: ProjectPatch) returns (r: Option<Project>)
      modifies this
      ensures r == (var f := FindFirst(old(projects), ProjectIs(id, userId)); if f.None? then None else Some(PatchProject(f.value, patch)))
      ensures |projects| == |old(projects)|
      ensures forall i :: 0 <= i < |projects| ==>
        projects[i] == if old(projects)[i].id == id && old(projects)[i].userId == userId
                       then PatchProject(old(projects)[i], patch) else old(projects)[i]
      ensures apps == old(apps) && runs == old(runs)
    {
      var found := FindFirst(projects, ProjectIs(id, userId));
      r := if found.None? then None else Some(PatchProject(found.value, patch));
      var rows := projects;
      projects := seq(|rows|, i requires 0 <= i < |rows| =>
        if rows[i].id == id && rows[i].userId == userId then PatchProject(rows[i], patch) else rows[i]);
    }

    /** `deleteProject`: removes the row matching both `id` and `userId`, and by the
        schema's cascade the apps and runs of that project. */
    method DeleteProject(id: string, userId: string) returns (r: Option<Project>)
      modifies this
      ensures r == FindFirst(old(projects), ProjectIs(id, userId))
      ensures projects == Filter(old(projects), ProjectIsNot(id, userId))
      ensures apps == (if r.Some? then Filter(old(apps), AppOutside({id})) else old(apps))
      ensures runs == (if r.Some? then Filter(old(runs), RunOutside({id})) else old(runs))
    {
      r := FindFirst(projects, ProjectIs(id, userId));
      projects := Filter(projects, ProjectIsNot(id, userId));
      if r.Some? {
        apps := Filter(apps, AppOutside({id}));
        runs := Filter(runs, RunOutside({id}));
      }
    }

    /** `prisma.project.deleteMany({ where: { userId } })`: removes every project of the
        user and, by the schema's cascade, their apps and runs. */
    method DeleteProjectsOfUser(userId: string) returns (count: nat)
      modifies this
      ensures projects == Filter(old(projects), ProjectNotOwnedBy(userId))
      ensures apps == Filter(old(apps), AppOutside(ProjectIds(old(projects), ProjectOwnedBy(userId))))
      ensures runs == Filter(old(runs), RunOutside(ProjectIds(old(projects), ProjectOwnedBy(userId))))
      ensures count == |old(projects)| - |projects|
    {
      var ids := ProjectIds(projects, ProjectOwnedBy(userId));
      var before := |projects|;
      projects := Filter(projects, ProjectNotOwnedBy(userId));
      apps := Filter(apps, AppOutside(ids));
      runs := Filter(runs, RunOutside(ids));
      count := before - |projects|;
    }

    /** `createApp`: a new row owned by `userId`; a missing or zero `fileSize` is stored
        as null. The insert does not happen when the size conversion throws. */
    method CreateApp(userId: string, data: UploadAppInput, id: string, now: int) returns (r: Outcome<App>)
      modifies this
      ensures StoredFileSize(data.fileSize).Threw? ==> r == Threw(StoredFileSize(data.fileSize).failure) && unchanged(this)
      ensures StoredFileSize(data.fileSize).Done? ==>
        r == Done(App(id, userId, data.projectId, data.name, data.appType, data.fileName,
                      StoredFileSize(data.fileSize).value, data.awsUploadArn, now)) &&
        apps == old(apps) + [r.value]
      ensures projects == old(projects) && runs == old(runs)
    {
      var size := StoredFileSize(data.fileSize);
      if size.Threw? {
        r := Threw(size.failure);
        return;
      }
      var a := App(id, userId, data.projectId, data.name, data.appType, data.fileName, size.value, data.awsUploadArn, now);
      apps := apps + [a];
      r := Done(a);
    }

    /** `deleteApp`: removes the row matching both `id` and `userId`. */
    method DeleteApp(id: string, userId: string) returns (r: Option<App>)
      modifies this
      ensures r == FindFirst(old(apps), AppIs(id, userId))
      ensures apps == Filter(old(apps), AppIsNot(id, userId))
      ensures projects == old(projects) && runs == old(runs)
    {
      r := FindFirst(apps, AppIs(id, userId));
      apps := Filter(apps, AppIsNot(id, userId));
    }

    /** `createRun`: a new row owned by `userId`, in the schema's default status. */
    method CreateRun(userId: string, fields: RunFields, id: string, now: int) returns (run: Run)
      modifies this
      ensures run == Run(id, userId, fields.projectId, fields.appId, fields.name, Pending,
                         fields.devicePoolArn, fields.awsRunArn, None, None, None, now)
      ensures runs == old(runs) + [run]
      ensures projects == old(projects) && apps == old(apps)
    {
      run := Run(id, userId, fields.projectId, fields.appId, fields.name, Pending,
                 fields.devicePoolArn, fields.awsRunArn, None, None, None, now);
      runs := runs + [run];
    }

    /** `updateRun`: the row matching both `id` and `userId` takes the supplied fields. */
    method UpdateRun(id: string, userId: string, patch: UpdateRunInput) returns (r: Option<Run>)
      modifies this
      ensures r == (var f := FindFirst(old(runs), RunIs(id, userId)); if f.None? then None else Some(PatchRun(f.value, patch)))
      ensures |runs| == |old(runs)|
      ensures forall i :: 0 <= i < |runs| ==>
        runs[i] == if old(runs)[i].id == id && old(runs)[i].userId == userId
                   then PatchRun(old(runs)[i], patch) else old(runs)[i]
      ensures projects == old(projects) && apps == old(apps)
    {
      var found := FindFirst(runs, RunIs(id, userId));
      r := if found.None? then None else Some(PatchRun(found.value, patch));
      var rows := runs;
      runs := seq(|rows|, i requires 0 <= i < |rows| =>
        if rows[i].id == id && rows[i].userId == userId then PatchRun(rows[i], patch) else rows[i]);
    }

    /** `deleteRun`: removes the row matching both `id` and `userId`. */
    method DeleteRun(id: string, userId: string) returns (r: Option<Run>)
      modifies this
      ensures r == FindFirst(old(runs), RunIs(id, userId))
      ensures runs == Filter(old(runs), RunIsNot(id, userId))
      ensures projects == old(projects) && apps == old(apps)
    {
      r := FindFirst(runs, RunIs(id, userId));
      runs := Filter(runs, RunIsNot(id, userId));
    }
  }

  /** A delete keyed on `(id, userId)` keeps every row of every other user, each as often
      as before: one user cannot delete another's data. */
  lemma {:induction false} DeleteKeepsOtherUsers<T>(rows: seq<T>, keep: T -> bool, owner: T -> string, userId: string)
    requires forall x :: owner(x) != userId ==> keep(x)
    ensures forall x :: owner(x) != userId ==> multiset(Filter(rows, keep))[x] == multiset(rows)[x]
  {
    FilterCounts(rows, keep);
  }

  /** A project delete removes at most the rows matching both `id` and `userId`. */
  lemma ProjectDeleteIsolation(projects: seq<Project>, id: string, userId: string)
    ensures forall p: Project :: !(p.id == id && p.userId == userId) ==>
      multiset(Filter(projects, ProjectIsNot(id, userId)))[p] == multiset(projects)[p]
    ensures forall p: Project :: p.id == id && p.userId == userId ==> p !in Filter(projects, ProjectIsNot(id, userId))
  {
    FilterCounts(projects, ProjectIsNot(id, userId));
  }

  /** The reset's bulk delete removes exactly the user's projects. */
  lemma UserProjectsDeleteExact(projects: seq<Project>, userId: string)
    ensures forall p :: p in Filter(projects, ProjectNotOwnedBy(userId)) <==> p in projects && p.userId != userId
  {
    forall p ensures p in Filter(projects, ProjectNotOwnedBy(userId)) <==> p in projects && p.userId != userId {
      FilterMembership(projects, ProjectNotOwnedBy(userId), p);
    }
  }
}

/** The projects endpoint (app/api/projects/route.ts): `GET` lists the caller's projects;
    `POST` creates the project on the vendor first, tolerating a vendor failure, and then
    stores it locally. */
module ProjectsRoute {
  import opened Common
  import opened Seqs
  import opened Validations
  import opened Db
  import opened DeviceFarm

  /** `GET`: 401 without a user, otherwise the caller's projects, newest first. */
  function GetProjects(projects: seq<Project>, userId: Option<string>): (r: Reply<seq<Project>>)
    ensures !Present(userId) ==> r == ErrorJson(401, "Unauthorized")
    ensures Present(userId) ==>
      r.Json? && r.code == 200 && SortedDesc(r.payload, ProjectCreatedAt) &&
      (forall k :: 0 <= k < |r.payload| ==> r.payload[k] in projects && r.payload[k].userId == userId.value) &&
      (forall p :: p in projects && p.userId == userId.value ==> p in r.payload)
    ensures Present(userId) ==> r == Json(200, GetProjectsByUserId(projects, userId.value))
  {
    if !Present(userId) then Unauthorized()
    else
      var mine := GetProjectsByUserId(projects, userId.value);
      assert forall p :: p in projects && p.userId == userId.value ==> p in multiset(mine);
      Json(200, mine)
  }

  /** The arn the local row carries: `awsResponse.project?.arn` when the vendor call
      returned, nothing when it threw. */
  function VendorArn(created: Outcome<Option<string>>): (r: Option<string>)
    ensures created.Threw? ==> r.None?
    ensures created.Done? ==> r == created.value
  {
    if created.Threw? then None else created.value
  }

  /** `POST`. The project schema itself is not part of this model: `parsed` is the outcome of
      reading the body and validating it (a throw in either ends in the `catch`). `created`
      is the vendor's answer to creating a project of that name. */
  method PostProject(store: Store, userId: Option<string>, parsed: Outcome<ProjectInput>,
                     created: Outcome<Option<string>>, id: string, now: int)
    returns (reply: Reply<Project>, calls: seq<Call>)
    modifies store
    ensures !Present(userId) ==> reply == ErrorJson(401, "Unauthorized") && calls == [] && unchanged(store)
    ensures Present(userId) && parsed.Threw? ==>
      reply == CatchZod(parsed.failure, "Failed to create project") && calls == [] && unchanged(store)
    ensures Present(userId) && parsed.Done? ==>
      calls == [CreateProject(parsed.value.name)] &&
      reply == Json(201, Project(id, userId.value, parsed.value.name, parsed.value.description, VendorArn(created), now)) &&
      store.projects == old(store.projects) + [reply.payload] &&
      store.apps == old(store.apps) && store.runs == old(store.runs)
  {
    calls := [];
    if !Present(userId) {
      return Unauthorized(), calls;
    }
    if parsed.Threw? {
      return CatchZod(parsed.failure, "Failed to create project"), calls;
    }
    var data := parsed.value;
    var awsProjectArn: Option<string> := None;
    calls := calls + [CreateProject(data.name)];
    if created.Done? {
      awsProjectArn := created.value;
    }
    // a vendor failure is caught: the project is created without an arn
    var project := store.CreateProject(userId.value, ProjectFields(data.name, data.description, awsProjectArn), id, now);
    reply := Json(201, project);
  }
}

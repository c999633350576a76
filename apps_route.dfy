/** The apps endpoint (app/api/apps/route.ts): `GET` lists a project's apps; `POST` either
    hands out a vendor upload url (`action: "get_upload_url"`) or records an uploaded app. */
module AppsRoute {
  import opened Common
  import opened Validations
  import opened Db
  import opened DeviceFarm
  import opened Seqs

  /** `GET`: 401 without a user, 400 without a `projectId`, otherwise the caller's apps of
      that project, newest upload first. */
  function GetApps(apps: seq<App>, userId: Option<string>, projectId: Option<string>): (r: Reply<seq<App>>)
    ensures !Present(userId) ==> r == ErrorJson(401, "Unauthorized")
    ensures Present(userId) && !Present(projectId) ==> r == ErrorJson(400, "Project ID is required")
    ensures Present(userId) && Present(projectId) ==>
      r.Json? && r.code == 200 && SortedDesc(r.payload, AppUploadedAt) &&
      (forall k :: 0 <= k < |r.payload| ==>
         r.payload[k] in apps && r.payload[k].userId == userId.value && r.payload[k].projectId == projectId.value) &&
      (forall a :: a in apps && a.userId == userId.value && a.projectId == projectId.value ==> a in r.payload)
    ensures Present(userId) && Present(projectId) ==> r == Json(200, GetAppsByProjectId(apps, projectId.value, userId.value))
  {
    if !Present(userId) then Unauthorized()
    else if !Present(projectId) then ErrorJson(400, "Project ID is required")
    else
      var mine := GetAppsByProjectId(apps, projectId.value, userId.value);
      assert forall a :: a in apps && a.userId == userId.value && a.projectId == projectId.value ==> a in multiset(mine);
      Json(200, mine)
  }

  /** The `upload` of the vendor's CreateUpload reply. */
  datatype Upload = Upload(url: Option<string>, arn: Option<string>, status: Option<string>)

  /** The two kinds of successful `POST` payload. */
  datatype AppsPayload =
    | Ticket(uploadUrl: Option<string>, uploadArn: Option<string>, status: Option<string>)
    | Created(app: App)

  /** The body asks for an upload url: `body.action === "get_upload_url"`. */
  predicate WantsUploadUrl(body: Body) {
    Field(body, "action") == Some(Str("get_upload_url"))
  }

  /** The upload-url phase: 400 unless `projectArn`, `name` and `type` are all truthy;
      otherwise one CreateUpload call with them, answered with the url, arn and status of
      the upload (each absent when the reply lacks it). Nothing is stored. */
  function UploadUrlPhase(body: Body, upload: Outcome<Option<Upload>>): (r: (Reply<AppsPayload>, seq<Call>))
    ensures !(Truthy(Field(body, "projectArn")) && Truthy(Field(body, "name")) && Truthy(Field(body, "type"))) ==>
      r == (ErrorJson(400, "Missing required fields"), [])
    ensures Truthy(Field(body, "projectArn")) && Truthy(Field(body, "name")) && Truthy(Field(body, "type")) ==>
      r.1 == [CreateUpload(body["projectArn"], body["name"], body["type"])] &&
      (upload.Threw? ==> r.0 == CatchZod(upload.failure, "Failed to process request")) &&
      (upload.Done? ==>
        (r.0.Json? && r.0.code == 200 && r.0.payload.Ticket? &&
         (upload.value.None? ==> r.0.payload == Ticket(None, None, None)) &&
         (upload.value.Some? ==> r.0.payload == Ticket(upload.value.value.url, upload.value.value.arn, upload.value.value.status))))
  {
    if !Truthy(Field(body, "projectArn")) || !Truthy(Field(body, "name")) || !Truthy(Field(body, "type")) then
      (ErrorJson(400, "Missing required fields"), [])
    else
      var calls := [CreateUpload(body["projectArn"], body["name"], body["type"])];
      match upload
      case Threw(f) => (CatchZod(f, "Failed to process request"), calls)
      case Done(None) => (Json(200, Ticket(None, None, None)), calls)
      case Done(Some(u)) => (Json(200, Ticket(u.url, u.arn, u.status)), calls)
  }

  /** `POST`: 401 without a user; a body that is not JSON ends in the `catch`; an upload-url
      request never touches the store; any other body is validated with the upload-app
      schema and stored as the caller's app, answered with 201. The stored `awsUploadArn`
      is whatever the body supplies: nothing checks that an upload took place. */
  method PostApp(store: Store, userId: Option<string>, body: Outcome<Body>, upload: Outcome<Option<Upload>>,
                 id: string, now: int)
    returns (reply: Reply<AppsPayload>, calls: seq<Call>)
    modifies store
    ensures !Present(userId) ==> reply == ErrorJson(401, "Unauthorized") && calls == [] && unchanged(store)
    ensures Present(userId) && body.Threw? ==>
      reply == CatchZod(body.failure, "Failed to process request") && calls == [] && unchanged(store)
    ensures Present(userId) && body.Done? && WantsUploadUrl(body.value) ==>
      (reply, calls) == UploadUrlPhase(body.value, upload) && unchanged(store)
    ensures Present(userId) && body.Done? && !WantsUploadUrl(body.value) ==> calls == []
    ensures Present(userId) && body.Done? && !WantsUploadUrl(body.value) ==>
      (ParseUploadApp(body.value).Invalid? ==> reply == ErrorJson(400, "Invalid input data") && unchanged(store)) &&
      (ParseUploadApp(body.value).Valid? ==>
         var data := ParseUploadApp(body.value).value;
         (StoredFileSize(data.fileSize).Threw? ==> reply == ErrorJson(500, "Failed to process request") && unchanged(store)) &&
         (StoredFileSize(data.fileSize).Done? ==>
            reply.Json? && reply.code == 201 && reply.payload.Created? &&
            reply.payload.app == App(id, userId.value, data.projectId, data.name, data.appType, data.fileName,
                                     StoredFileSize(data.fileSize).value, data.awsUploadArn, now) &&
            store.apps == old(store.apps) + [reply.payload.app] &&
            store.projects == old(store.projects) && store.runs == old(store.runs)))
  {
    calls := [];
    if !Present(userId) {
      return Unauthorized(), calls;
    }
    if body.Threw? {
      return CatchZod(body.failure, "Failed to process request"), calls;
    }
    if WantsUploadUrl(body.value) {
      reply, calls := UploadUrlPhase(body.value, upload).0, UploadUrlPhase(body.value, upload).1;
      return;
    }
    var parsed := Parse(ParseUploadApp(body.value));
    if parsed.Threw? {
      return CatchZod(parsed.failure, "Failed to process request"), calls;
    }
    var created := store.CreateApp(userId.value, parsed.value, id, now);
    if created.Threw? {
      return CatchZod(created.failure, "Failed to process request"), calls;
    }
    reply := Json(201, Created(created.value));
  }
}

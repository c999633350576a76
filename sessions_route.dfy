/** The remote-access session endpoint (app/api/sessions/route.ts): `POST` opens a session
    on a device, `GET` fetches one. Errors are answered with the error's own message. */
module SessionsRoute {
  import opened Common

  /** The arguments `createRemoteAccessSession` is called with: the body's `projectArn`,
      `deviceArn` and `name` (absent when the body has none), passed on as they are. */
  datatype SessionCall = SessionCall(projectArn: Value, deviceArn: Value, name: Option<Value>)

  /** `POST`: 401 without a user; 400 unless `projectArn` and `deviceArn` are both truthy;
      otherwise one call to open the session on the body's device with the body's name,
      answered with the session the vendor created and 201. Any failure, including a body
      that is not JSON, is a 500 carrying the error's message or "Failed to create
      session". `created` is the `remoteAccessSession` of the vendor's reply. */
  function PostSession(userId: Option<string>, body: Outcome<Body>, created: Outcome<Option<Value>>)
    : (r: (Reply<Option<Value>>, Option<SessionCall>))
    ensures !Present(userId) ==> r.0 == ErrorJson(401, "Unauthorized")
    ensures Present(userId) && body.Threw? ==>
      r.0 == ErrorJson(500, MessageOr(body.failure, "Failed to create session"))
    ensures (Present(userId) && body.Done? &&
             !(Truthy(Field(body.value, "projectArn")) && Truthy(Field(body.value, "deviceArn")))) ==>
      r.0 == ErrorJson(400, "Project ARN and Device ARN are required")
    ensures r.1.Some? <==>
      Present(userId) && body.Done? && Truthy(Field(body.value, "projectArn")) && Truthy(Field(body.value, "deviceArn"))
    ensures r.1.Some? ==>
      Field(body.value, "projectArn") == Some(r.1.value.projectArn) &&
      Field(body.value, "deviceArn") == Some(r.1.value.deviceArn) &&
      r.1.value.name == Field(body.value, "name")
    ensures r.0.Json? <==> r.1.Some? && created.Done?
    ensures r.0.Json? ==> r.0 == Json(201, created.value)
    ensures r.1.Some? && created.Threw? ==> r.0 == ErrorJson(500, MessageOr(created.failure, "Failed to create session"))
    ensures r.0.ErrorJson? && r.0.code == 500 ==> r.0.error != ""
  {
    if !Present(userId) then (Unauthorized(), None)
    else if body.Threw? then (ErrorJson(500, MessageOr(body.failure, "Failed to create session")), None)
    else if !Truthy(Field(body.value, "projectArn")) || !Truthy(Field(body.value, "deviceArn")) then
      (ErrorJson(400, "Project ARN and Device ARN are required"), None)
    else
      var call := SessionCall(body.value["projectArn"], body.value["deviceArn"], Field(body.value, "name"));
      if created.Threw? then (ErrorJson(500, MessageOr(created.failure, "Failed to create session")), Some(call))
      else (Json(201, created.value), Some(call))
  }

  /** `GET`: 401 without a user; 400 without the `arn` query parameter; otherwise the
      fetched session. A failure is a 500 carrying its message or "Failed to fetch
      session". */
  function GetSession(userId: Option<string>, arn: Option<string>, fetched: Outcome<Option<Value>>)
    : (r: Reply<Option<Value>>)
    ensures !Present(userId) ==> r == ErrorJson(401, "Unauthorized")
    ensures Present(userId) && !Present(arn) ==> r == ErrorJson(400, "Session ARN (arn) is required")
    ensures Present(userId) && Present(arn) && fetched.Threw? ==>
      r == ErrorJson(500, MessageOr(fetched.failure, "Failed to fetch session")) && r.error != ""
    ensures r.Json? <==> Present(userId) && Present(arn) && fetched.Done?
    ensures r.Json? ==> r == Json(200, fetched.value)
  {
    if !Present(userId) then Unauthorized()
    else if !Present(arn) then ErrorJson(400, "Session ARN (arn) is required")
    else if fetched.Threw? then ErrorJson(500, MessageOr(fetched.failure, "Failed to fetch session"))
    else Json(200, fetched.value)
  }
}

/** The connectivity probe (app/api/status/aws/route.ts): a ListProjects call decides
    whether the vendor is reachable with the configured credentials. */
module StatusRoute {
  import opened Common

  datatype AwsStatus = Connected | Disconnected(error: string)

  /** The message of a failed probe: credentials problems are named as such; anything else
      keeps its own message, or "Connection Failed" when it has none. */
  function ProbeMessage(f: Failure): (r: string)
    ensures f.name == "CredentialsError" ==> r == "Invalid Credentials"
    ensures f.name != "CredentialsError" ==> r == MessageOr(f, "Connection Failed")
    ensures r != ""
  {
    if f.name == "CredentialsError" then "Invalid Credentials" else MessageOr(f, "Connection Failed")
  }

  /** `GET`: 401 without a user; otherwise 200 either way, reporting connected when the
      probe returned and disconnected, with the failure's message, when it threw. */
  function GetAwsStatus(userId: Option<string>, probe: Outcome<()>): (r: Reply<AwsStatus>)
    ensures !Present(userId) ==> r == ErrorJson(401, "Unauthorized")
    ensures Present(userId) ==> r.Json? && r.code == 200
    ensures Present(userId) ==> (r.payload.Connected? <==> probe.Done?)
    ensures Present(userId) && probe.Threw? ==> r.payload == Disconnected(ProbeMessage(probe.failure))
  {
    if !Present(userId) then Unauthorized()
    else if probe.Threw? then Json(200, Disconnected(ProbeMessage(probe.failure)))
    else Json(200, Connected)
  }

  /** The probe never answers with a server error: a vendor failure is reported in the
      payload, under status 200. */
  lemma StatusNeverFails(userId: Option<string>, probe: Outcome<()>)
    ensures GetAwsStatus(userId, probe).Code() in {200, 401}
  {
  }
}

/** The device-pool endpoint (app/api/device-pools/route.ts): list, create, update and
    delete the pools of a project. Each handler checks the user, then its own required
    fields, then makes one vendor call; any failure becomes a 500 with the handler's fixed
    message. */
module DevicePoolsRoute {
  import opened Common

  /** The vendor call a handler makes. Body fields are passed on as they arrive. */
  datatype PoolCall =
    | ListPools(listedProject: string)
    | CreatePool(poolProject: Value, poolName: Value, poolRules: Value)
    | UpdatePool(poolArn: Value, newName: Option<Value>, newRules: Option<Value>)
    | DeletePool(deletedPool: string)

  /** What a handler answers, and the vendor calls it made. */
  datatype Handled<+T> = Handled(reply: Reply<T>, calls: seq<PoolCall>)

  /** `GET`: 400 without `projectArn`; otherwise the listed pools, or `[]` when the reply
      has none. */
  function GetPools(userId: Option<string>, projectArn: Option<string>, listed: Outcome<Option<seq<Value>>>)
    : (r: Handled<seq<Value>>)
    ensures !Present(userId) ==> r == Handled(ErrorJson(401, "Unauthorized"), [])
    ensures Present(userId) && !Present(projectArn) ==> r == Handled(ErrorJson(400, "Project ARN is required"), [])
    ensures Present(userId) && Present(projectArn) ==>
      r.calls == [ListPools(projectArn.value)] &&
      (listed.Threw? ==> r.reply == ErrorJson(500, "Failed to fetch device pools")) &&
      (listed.Done? ==> r.reply == Json(200, if listed.value.Some? then listed.value.value else []))
  {
    if !Present(userId) then Handled(Unauthorized(), [])
    else if !Present(projectArn) then Handled(ErrorJson(400, "Project ARN is required"), [])
    else
      var calls := [ListPools(projectArn.value)];
      match listed
      case Threw(_) => Handled(ErrorJson(500, "Failed to fetch device pools"), calls)
      case Done(pools) => Handled(Json(200, if pools.Some? then pools.value else []), calls)
  }

  /** `rules || []`. */
  function RulesOrEmpty(rules: Option<Value>): (r: Value)
    ensures Truthy(rules) ==> r == rules.value
    ensures !Truthy(rules) ==> r == Arr([])
  {
    if Truthy(rules) then rules.value else Arr([])
  }

  /** `POST`: 400 unless `projectArn` and `name` are truthy; the pool is created with the
      body's rules, or none, and answered with 201. */
  function PostPool(userId: Option<string>, body: Outcome<Body>, created: Outcome<Option<Value>>)
    : (r: Handled<Option<Value>>)
    ensures !Present(userId) ==> r == Handled(ErrorJson(401, "Unauthorized"), [])
    ensures Present(userId) && body.Threw? ==> r == Handled(ErrorJson(500, "Failed to create device pool"), [])
    ensures (Present(userId) && body.Done? &&
             !(Truthy(Field(body.value, "projectArn")) && Truthy(Field(body.value, "name")))) ==>
      r == Handled(ErrorJson(400, "Project ARN and name are required"), [])
    ensures r.calls != [] ==>
      Present(userId) && body.Done? &&
      r.calls == [CreatePool(body.value["projectArn"], body.value["name"], RulesOrEmpty(Field(body.value, "rules")))] &&
      (created.Threw? ==> r.reply == ErrorJson(500, "Failed to create device pool")) &&
      (created.Done? ==> r.reply == Json(201, created.value))
    ensures Present(userId) && body.Done? && Truthy(Field(body.value, "projectArn")) && Truthy(Field(body.value, "name")) ==>
      r.calls != []
  {
    if !Present(userId) then Handled(Unauthorized(), [])
    else if body.Threw? then Handled(ErrorJson(500, "Failed to create device pool"), [])
    else if !Truthy(Field(body.value, "projectArn")) || !Truthy(Field(body.value, "name")) then
      Handled(ErrorJson(400, "Project ARN and name are required"), [])
    else
      var calls := [CreatePool(body.value["projectArn"], body.value["name"], RulesOrEmpty(Field(body.value, "rules")))];
      match created
      case Threw(_) => Handled(ErrorJson(500, "Failed to create device pool"), calls)
      case Done(pool) => Handled(Json(201, pool), calls)
  }

  /** `PATCH`: 400 unless `arn` is truthy; `name` and `rules` are passed on as given,
      absent ones included. */
  function PatchPool(userId: Option<string>, body: Outcome<Body>, updated: Outcome<Option<Value>>)
    : (r: Handled<Option<Value>>)
    ensures !Present(userId) ==> r == Handled(ErrorJson(401, "Unauthorized"), [])
    ensures Present(userId) && body.Threw? ==> r == Handled(ErrorJson(500, "Failed to update device pool"), [])
    ensures Present(userId) && body.Done? && !Truthy(Field(body.value, "arn")) ==>
      r == Handled(ErrorJson(400, "Device pool ARN is required"), [])
    ensures Present(userId) && body.Done? && Truthy(Field(body.value, "arn")) ==>
      r.calls == [UpdatePool(body.value["arn"], Field(body.value, "name"), Field(body.value, "rules"))] &&
      (updated.Threw? ==> r.reply == ErrorJson(500, "Failed to update device pool")) &&
      (updated.Done? ==> r.reply == Json(200, updated.value))
  {
    if !Present(userId) then Handled(Unauthorized(), [])
    else if body.Threw? then Handled(ErrorJson(500, "Failed to update device pool"), [])
    else if !Truthy(Field(body.value, "arn")) then Handled(ErrorJson(400, "Device pool ARN is required"), [])
    else
      var calls := [UpdatePool(body.value["arn"], Field(body.value, "name"), Field(body.value, "rules"))];
      match updated
      case Threw(_) => Handled(ErrorJson(500, "Failed to update device pool"), calls)
      case Done(pool) => Handled(Json(200, pool), calls)
  }

  /** `{ success: true }`. */
  datatype Success = Success(success: bool)

  /** `DELETE`: 400 without the `arn` query parameter; otherwise the pool is deleted and
      the answer is `{ success: true }`. */
  function DeletePoolHandler(userId: Option<string>, arn: Option<string>, deleted: Outcome<()>)
    : (r: Handled<Success>)
    ensures !Present(userId) ==> r == Handled(ErrorJson(401, "Unauthorized"), [])
    ensures Present(userId) && !Present(arn) ==> r == Handled(ErrorJson(400, "Device pool ARN is required"), [])
    ensures Present(userId) && Present(arn) ==>
      r.calls == [DeletePool(arn.value)] &&
      (deleted.Threw? ==> r.reply == ErrorJson(500, "Failed to delete device pool")) &&
      (deleted.Done? ==> r.reply == Json(200, Success(true)))
  {
    if !Present(userId) then Handled(Unauthorized(), [])
    else if !Present(arn) then Handled(ErrorJson(400, "Device pool ARN is required"), [])
    else
      match deleted
      case Threw(_) => Handled(ErrorJson(500, "Failed to delete device pool"), [DeletePool(arn.value)])
      case Done(_) => Handled(Json(200, Success(true)), [DeletePool(arn.value)])
  }

  /** No handler reaches the vendor without a user, and a call is made only once the
      handler's own required fields are present. */
  lemma PoolHandlersGuardVendor(userId: Option<string>, query: Option<string>, body: Outcome<Body>,
                                listed: Outcome<Option<seq<Value>>>, answered: Outcome<Option<Value>>, deleted: Outcome<()>)
    ensures !Present(userId) ==>
      GetPools(userId, query, listed).calls == [] && PostPool(userId, body, answered).calls == [] &&
      PatchPool(userId, body, answered).calls == [] && DeletePoolHandler(userId, query, deleted).calls == []
    ensures GetPools(userId, query, listed).calls != [] || DeletePoolHandler(userId, query, deleted).calls != [] ==>
      Present(query)
    ensures PatchPool(userId, body, answered).calls != [] ==> body.Done? && Truthy(Field(body.value, "arn"))
  {
  }
}

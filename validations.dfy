/** The zod schemas of lib/validations (run.ts and app.ts) as parsers over a JSON body,
    each paired with a declarative predicate saying which bodies the schema accepts, and
    the two enums of the database schema they refer to. The project schemas
    (lib/validations/project.ts) are not part of this model: only their result types are. */
module Validations {
  import opened Common
  import opened Text

  /** The database enum `AppType`, stored in lower case. */
  datatype AppType = Android | Ios

  function AppTypeName(t: AppType): string {
    match t
    case Android => "android"
    case Ios => "ios"
  }

  /** `z.nativeEnum(AppType)` on a string. */
  function AppTypeOf(s: string): (r: Option<AppType>)
    ensures r.Some? ==> AppTypeName(r.value) == s
  {
    if s == "android" then Some(Android) else if s == "ios" then Some(Ios) else None
  }

  /** The enum accepts exactly the names of its members. */
  lemma AppTypeRoundTrip(t: AppType)
    ensures AppTypeOf(AppTypeName(t)) == Some(t)
  {
  }

  /** The database enum `RunStatus`. */
  datatype RunStatus = Pending | Running | Completed | Failed | Cancelled

  function RunStatusName(s: RunStatus): string {
    match s
    case Pending => "pending"
    case Running => "running"
    case Completed => "completed"
    case Failed => "failed"
    case Cancelled => "cancelled"
  }

  /** `z.nativeEnum(RunStatus)` on a string. */
  function RunStatusOf(s: string): (r: Option<RunStatus>)
    ensures r.Some? ==> RunStatusName(r.value) == s
  {
    if s == "pending" then Some(Pending)
    else if s == "running" then Some(Running)
    else if s == "completed" then Some(Completed)
    else if s == "failed" then Some(Failed)
    else if s == "cancelled" then Some(Cancelled)
    else None
  }

  lemma RunStatusRoundTrip(s: RunStatus)
    ensures RunStatusOf(RunStatusName(s)) == Some(s)
  {
  }

  /** zod 3's `cuid()` check, the pattern `/^c[^\s-]{8,}$/i`. The pattern has no `u` flag, so
      it counts UTF-16 code units: each half of a character outside the Basic Multilingual
      Plane is one of the eight. */
  predicate IsCuid(s: string) {
    Utf16Length(s) >= 9 && (s[0] == 'c' || s[0] == 'C') &&
    forall i :: 1 <= i < |s| ==> !IsSpace(s[i]) && s[i] != '-'
  }

  /** What went wrong with one field. Only the messages the schemas set themselves are
      carried; zod's default wording is not modelled. */
  datatype IssueKind =
    | Required
    | InvalidType
    | InvalidCuid
    | TooShort(message: string)
    | TooLong
    | InvalidEnum
    | NotPositive

  datatype Issue = Issue(path: string, kind: IssueKind)

  /** The result of `schema.safeParse(body)`. */
  datatype Parsed<+T> = Valid(value: T) | Invalid(issues: seq<Issue>)

  /** `schema.parse(body)`: an invalid body throws a `ZodError`. */
  function Parse<T>(p: Parsed<T>): (r: Outcome<T>)
    ensures p.Valid? ==> r == Done(p.value)
    ensures p.Invalid? ==> r.Threw? && r.failure.name == "ZodError"
  {
    match p
    case Valid(v) => Done(v)
    case Invalid(_) => Threw(Failure("ZodError", ""))
  }

  // ---- field checks, in the order zod applies them ----

  /** `z.string()` (required) followed by the string checks of `checks`. */
  function StringIssues(key: string, v: Option<Value>, checks: string -> seq<IssueKind>): seq<Issue> {
    match v
    case None => [Issue(key, Required)]
    case Some(Str(s)) => seq(|checks(s)|, i requires 0 <= i < |checks(s)| => Issue(key, checks(s)[i]))
    case Some(_) => [Issue(key, InvalidType)]
  }

  /** `.optional()` around a string schema: `undefined` passes. */
  function OptionalStringIssues(key: string, v: Option<Value>, checks: string -> seq<IssueKind>): seq<Issue> {
    if v.None? then [] else StringIssues(key, v, checks)
  }

  function NoChecks(s: string): seq<IssueKind> {
    []
  }

  function CuidCheck(s: string): seq<IssueKind> {
    if IsCuid(s) then [] else [InvalidCuid]
  }

  /** `.min(1, message).max(100)`: both checks run, on the length in UTF-16 code units. */
  function NameChecks(message: string): string -> seq<IssueKind> {
    s => (if Utf16Length(s) < 1 then [TooShort(message)] else []) + (if Utf16Length(s) > 100 then [TooLong] else [])
  }

  predicate IsString(v: Option<Value>) {
    v.Some? && v.value.Str?
  }

  predicate OptionalString(v: Option<Value>) {
    v.None? || v.value.Str?
  }

  predicate IsCuidString(v: Option<Value>) {
    IsString(v) && IsCuid(v.value.s)
  }

  predicate NameValue(v: Option<Value>) {
    IsString(v) && 1 <= Utf16Length(v.value.s) <= 100
  }

  function StrOf(v: Option<Value>): Option<string> {
    if v.Some? && v.value.Str? then Some(v.value.s) else None
  }

  // ---- lib/validations/run.ts ----

  /** `CreateRunInput`: the fields the create-run schema keeps. */
  datatype CreateRunInput = CreateRunInput(
    projectId: string,
    appId: Option<string>,
    name: string,
    devicePoolArn: Option<string>,
    awsRunArn: Option<string>)

  function CreateRunIssues(body: Body): seq<Issue> {
    StringIssues("projectId", Field(body, "projectId"), CuidCheck) +
    OptionalStringIssues("appId", Field(body, "appId"), CuidCheck) +
    StringIssues("name", Field(body, "name"), NameChecks("Run name is required")) +
    OptionalStringIssues("devicePoolArn", Field(body, "devicePoolArn"), NoChecks) +
    OptionalStringIssues("awsRunArn", Field(body, "awsRunArn"), NoChecks)
  }

  /** `createRunSchema.safeParse(body)`. */
  function ParseCreateRun(body: Body): Parsed<CreateRunInput> {
    var issues := CreateRunIssues(body);
    if issues != [] then Invalid(issues)
    else Valid(CreateRunInput(
      Field(body, "projectId").value.s,
      StrOf(Field(body, "appId")),
      Field(body, "name").value.s,
      StrOf(Field(body, "devicePoolArn")),
      StrOf(Field(body, "awsRunArn"))))
  }

  /** What the create-run schema accepts: a cuid `projectId`, a `name` of 1 to 100 UTF-16
      code units, and optionally a cuid `appId` and string `devicePoolArn`, `awsRunArn`. */
  predicate CreateRunValid(body: Body) {
    IsCuidString(Field(body, "projectId")) &&
    (Field(body, "appId").None? || IsCuidString(Field(body, "appId"))) &&
    NameValue(Field(body, "name")) &&
    OptionalString(Field(body, "devicePoolArn")) &&
    OptionalString(Field(body, "awsRunArn"))
  }

  /** The parser accepts exactly the bodies the schema describes, and keeps their fields. */
  lemma CreateRunParseIff(body: Body)
    ensures ParseCreateRun(body).Valid? <==> CreateRunValid(body)
    ensures ParseCreateRun(body).Valid? ==>
      var v := ParseCreateRun(body).value;
      Field(body, "projectId") == Some(Str(v.projectId)) && IsCuid(v.projectId) &&
      Field(body, "name") == Some(Str(v.name)) && 1 <= Utf16Length(v.name) <= 100 &&
      (v.appId.Some? <==> Field(body, "appId").Some?) &&
      (v.appId.Some? ==> Field(body, "appId") == Some(Str(v.appId.value)) && IsCuid(v.appId.value)) &&
      (v.devicePoolArn.Some? <==> Field(body, "devicePoolArn").Some?) &&
      (v.devicePoolArn.Some? ==> Field(body, "devicePoolArn") == Some(Str(v.devicePoolArn.value))) &&
      (v.awsRunArn.Some? <==> Field(body, "awsRunArn").Some?) &&
      (v.awsRunArn.Some? ==> Field(body, "awsRunArn") == Some(Str(v.awsRunArn.value)))
  {
  }

  /** An empty run name is refused with the schema's own message. */
  lemma EmptyRunNameRejected(body: Body)
    requires Field(body, "name") == Some(Str(""))
    ensures ParseCreateRun(body).Invalid?
    ensures Issue("name", TooShort("Run name is required")) in ParseCreateRun(body).issues
  {
    var issues := CreateRunIssues(body);
    var nameIssues := StringIssues("name", Field(body, "name"), NameChecks("Run name is required"));
    assert nameIssues[0] == Issue("name", TooShort("Run name is required"));
    assert issues == StringIssues("projectId", Field(body, "projectId"), CuidCheck) +
      OptionalStringIssues("appId", Field(body, "appId"), CuidCheck) + nameIssues +
      (OptionalStringIssues("devicePoolArn", Field(body, "devicePoolArn"), NoChecks) +
       OptionalStringIssues("awsRunArn", Field(body, "awsRunArn"), NoChecks));
  }

  /** `UpdateRunInput`: every field optional. */
  datatype UpdateRunInput = UpdateRunInput(
    status: Option<RunStatus>,
    result: Option<Value>,
    startedAt: Option<int>,
    completedAt: Option<int>)

  function EnumIssues<E>(key: string, v: Option<Value>, parse: string -> Option<E>): seq<Issue> {
    match v
    case None => []
    case Some(Str(s)) => if parse(s).Some? then [] else [Issue(key, InvalidEnum)]
    case Some(_) => [Issue(key, InvalidEnum)]
  }

  function DateIssues(key: string, v: Option<Value>): seq<Issue> {
    match v
    case None => []
    case Some(Date(_)) => []
    case Some(_) => [Issue(key, InvalidType)]
  }

  function UpdateRunIssues(body: Body): seq<Issue> {
    EnumIssues("status", Field(body, "status"), RunStatusOf) +
    DateIssues("startedAt", Field(body, "startedAt")) +
    DateIssues("completedAt", Field(body, "completedAt"))
  }

  function DateOf(v: Option<Value>): Option<int> {
    if v.Some? && v.value.Date? then Some(v.value.t) else None
  }

  /** `updateRunSchema.safeParse(body)`; `result` is `z.any()`, so any value passes. */
  function ParseUpdateRun(body: Body): Parsed<UpdateRunInput> {
    var issues := UpdateRunIssues(body);
    if issues != [] then Invalid(issues)
    else Valid(UpdateRunInput(
      if Field(body, "status").Some? then RunStatusOf(Field(body, "status").value.s) else None,
      Field(body, "result"),
      DateOf(Field(body, "startedAt")),
      DateOf(Field(body, "completedAt"))))
  }

  predicate IsRunStatus(v: Option<Value>) {
    IsString(v) && RunStatusOf(v.value.s).Some?
  }

  /** What the update-run schema accepts: every field may be left out; a `status` must
      name a `RunStatus`, `startedAt` and `completedAt` must be dates. */
  predicate UpdateRunValid(body: Body) {
    (Field(body, "status").None? || IsRunStatus(Field(body, "status"))) &&
    (Field(body, "startedAt").None? || Field(body, "startedAt").value.Date?) &&
    (Field(body, "completedAt").None? || Field(body, "completedAt").value.Date?)
  }

  lemma UpdateRunParseIff(body: Body)
    ensures ParseUpdateRun(body).Valid? <==> UpdateRunValid(body)
    ensures ParseUpdateRun(body).Valid? ==>
      var v := ParseUpdateRun(body).value;
      (v.status.Some? <==> Field(body, "status").Some?) &&
      (v.status.Some? ==> Field(body, "status") == Some(Str(RunStatusName(v.status.value)))) &&
      v.result == Field(body, "result") &&
      (v.startedAt.Some? <==> Field(body, "startedAt").Some?) &&
      (v.startedAt.Some? ==> Field(body, "startedAt") == Some(Date(v.startedAt.value))) &&
      (v.completedAt.Some? <==> Field(body, "completedAt").Some?) &&
      (v.completedAt.Some? ==> Field(body, "completedAt") == Some(Date(v.completedAt.value)))
  {
  }

  /** The empty body is a valid update that changes nothing. */
  lemma EmptyUpdateIsValid()
    ensures ParseUpdateRun(map[]) == Valid(UpdateRunInput(None, None, None, None))
  {
  }

  // ---- lib/validations/app.ts ----

  /** `UploadAppInput`: the fields the upload schema keeps. */
  datatype UploadAppInput = UploadAppInput(
    projectId: string,
    name: string,
    appType: AppType,
    fileName: Option<string>,
    fileSize: Option<real>,
    awsUploadArn: Option<string>)

  /** `z.number().positive().optional()`. */
  function PositiveIssues(key: string, v: Option<Value>): seq<Issue> {
    match v
    case None => []
    case Some(Num(n)) => if n > 0.0 then [] else [Issue(key, NotPositive)]
    case Some(_) => [Issue(key, InvalidType)]
  }

  function UploadAppIssues(body: Body): seq<Issue> {
    StringIssues("projectId", Field(body, "projectId"), CuidCheck) +
    StringIssues("name", Field(body, "name"), NameChecks("App name is required")) +
    EnumIssues("appType", Field(body, "appType"), AppTypeOf) +
    (if Field(body, "appType").None? then [Issue("appType", Required)] else []) +
    OptionalStringIssues("fileName", Field(body, "fileName"), NoChecks) +
    PositiveIssues("fileSize", Field(body, "fileSize")) +
    OptionalStringIssues("awsUploadArn", Field(body, "awsUploadArn"), NoChecks)
  }

  function NumOf(v: Option<Value>): Option<real> {
    if v.Some? && v.value.Num? then Some(v.value.n) else None
  }

  /** `uploadAppSchema.safeParse(body)`. */
  function ParseUploadApp(body: Body): Parsed<UploadAppInput> {
    var issues := UploadAppIssues(body);
    if issues != [] then Invalid(issues)
    else Valid(UploadAppInput(
      Field(body, "projectId").value.s,
      Field(body, "name").value.s,
      AppTypeOf(Field(body, "appType").value.s).value,
      StrOf(Field(body, "fileName")),
      NumOf(Field(body, "fileSize")),
      StrOf(Field(body, "awsUploadArn"))))
  }

  /** What the upload schema accepts: a cuid `projectId`, a `name` of 1 to 100 UTF-16 code units,
      an `appType` naming an `AppType`, and optionally a string `fileName`, a positive
      `fileSize` and a string `awsUploadArn`. */
  predicate UploadAppValid(body: Body) {
    IsCuidString(Field(body, "projectId")) &&
    NameValue(Field(body, "name")) &&
    IsString(Field(body, "appType")) && AppTypeOf(Field(body, "appType").value.s).Some? &&
    OptionalString(Field(body, "fileName")) &&
    (Field(body, "fileSize").None? ||
     (Field(body, "fileSize").value.Num? && Field(body, "fileSize").value.n > 0.0)) &&
    OptionalString(Field(body, "awsUploadArn"))
  }

  lemma UploadAppParseIff(body: Body)
    ensures ParseUploadApp(body).Valid? <==> UploadAppValid(body)
    ensures ParseUploadApp(body).Valid? ==>
      var v := ParseUploadApp(body).value;
      Field(body, "projectId") == Some(Str(v.projectId)) &&
      Field(body, "name") == Some(Str(v.name)) && 1 <= Utf16Length(v.name) <= 100 &&
      Field(body, "appType") == Some(Str(AppTypeName(v.appType))) &&
      (v.fileName.Some? <==> Field(body, "fileName").Some?) &&
      (v.fileName.Some? ==> Field(body, "fileName") == Some(Str(v.fileName.value))) &&
      (v.fileSize.Some? <==> Field(body, "fileSize").Some?) &&
      (v.fileSize.Some? ==> Field(body, "fileSize") == Some(Num(v.fileSize.value)) && v.fileSize.value > 0.0) &&
      (v.awsUploadArn.Some? <==> Field(body, "awsUploadArn").Some?) &&
      (v.awsUploadArn.Some? ==> Field(body, "awsUploadArn") == Some(Str(v.awsUploadArn.value)))
  {
  }

  // ---- lib/validations/project.ts (types only) ----

  /** The result of `createProjectSchema.parse`, plus the vendor ARN the handler adds. */
  datatype ProjectInput = ProjectInput(name: string, description: Option<string>)

  /** `UpdateProjectInput`: every field optional. */
  datatype ProjectPatch = ProjectPatch(name: Option<string>, description: Option<string>, awsProjectArn: Option<string>)
}

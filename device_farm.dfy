/** The Device Farm wrapper (lib/aws/device-farm.ts): the client configuration read from the
    environment, the commands the wrappers build, and `deleteProject`, which stops a
    project's remote-access sessions before deleting it.

    The vendor is an oracle: `Farm` fixes what each call would answer. What the wrapper does
    is observed as the sequence of `Call`s it issues, in order. */
module DeviceFarm {
  import opened Common
  import opened Text

  // ---- client configuration ----

  /** The process environment the client reads. */
  datatype Env = Env(region: Option<string>, accessKeyId: Option<string>, secretAccessKey: Option<string>)

  datatype ClientConfig = ClientConfig(region: string, endpoint: string, accessKeyId: string, secretAccessKey: string)

  const DefaultRegion: string := "us-west-2"

  /** The configuration of the shared client: the region falls back to us-west-2 when
      `AWS_REGION` is unset or empty, the endpoint host names that same region, and
      missing credentials become empty strings. */
  function ClientConfigOf(env: Env): (c: ClientConfig)
    ensures Present(env.region) ==> c.region == env.region.value
    ensures !Present(env.region) ==> c.region == DefaultRegion
    ensures c.endpoint == "https://devicefarm." + c.region + ".amazonaws.com"
    ensures c.accessKeyId == OrElse(env.accessKeyId, "") && c.secretAccessKey == OrElse(env.secretAccessKey, "")
  {
    var region := OrElse(env.region, DefaultRegion);
    ClientConfig(region, "https://devicefarm." + region + ".amazonaws.com",
                 OrElse(env.accessKeyId, ""), OrElse(env.secretAccessKey, ""))
  }

  /** The region can be read back from the endpoint host: the two never disagree. */
  lemma {:induction false} EndpointNamesRegion(env: Env)
    ensures var c := ClientConfigOf(env);
      |c.endpoint| == |c.region| + 33 && c.endpoint[19..|c.endpoint| - 14] == c.region
  {
    var c := ClientConfigOf(env);
    assert c.endpoint == ("https://devicefarm." + c.region) + ".amazonaws.com";
    assert |"https://devicefarm."| == 19;
    assert c.endpoint[19..|c.endpoint| - 14] == c.region;
  }

  // ---- commands ----

  /** The `test` of a scheduled run: the caller's, or the built-in fuzz test. */
  function BuiltinFuzz(): Value {
    Obj(map["type" := Str("BUILTIN_FUZZ")])
  }

  datatype ScheduleRunCommand = ScheduleRunCommand(
    projectArn: string, appArn: string, devicePoolArn: string, name: string, test: Value)

  /** `scheduleRun`: `test || { type: "BUILTIN_FUZZ" }`. */
  function ScheduleRunCommandOf(projectArn: string, appArn: string, devicePoolArn: string, name: string, test: Option<Value>)
    : (c: ScheduleRunCommand)
    ensures c.projectArn == projectArn && c.appArn == appArn && c.devicePoolArn == devicePoolArn && c.name == name
    ensures Truthy(test) ==> c.test == test.value
    ensures !Truthy(test) ==> c.test == BuiltinFuzz() && c.test.fields["type"] == Str("BUILTIN_FUZZ")
  {
    ScheduleRunCommand(projectArn, appArn, devicePoolArn, name, if Truthy(test) then test.value else BuiltinFuzz())
  }

  datatype CreateSessionCommand = CreateSessionCommand(
    projectArn: string, deviceArn: string, name: string, billingMethod: string)

  /** `createRemoteAccessSession`: the name falls back to `Session-<clock>`, billing is
      metered. The clock reading `now` (milliseconds) is an input. */
  function CreateSessionCommandOf(projectArn: string, deviceArn: string, name: Option<string>, now: nat)
    : (c: CreateSessionCommand)
    ensures c.projectArn == projectArn && c.deviceArn == deviceArn && c.billingMethod == "METERED"
    ensures Present(name) ==> c.name == name.value
    ensures !Present(name) ==>
      StartsWith(c.name, "Session-") && |c.name| > 8 &&
      (forall i :: 8 <= i < |c.name| ==> '0' <= c.name[i] <= '9') &&
      DecimalValue(c.name[8..]) == now
  {
    var generated := "Session-" + Decimal(now);
    assert generated[8..] == Decimal(now);
    DecimalRoundTrip(now);
    CreateSessionCommand(projectArn, deviceArn, OrElse(name, generated), "METERED")
  }

  // ---- the vendor oracle ----

  /** A remote-access session as listed: both fields may be absent. */
  datatype RemoteSession = RemoteSession(arn: Option<string>, status: Option<string>)

  /** A project as listed by `listProjects`. */
  datatype FarmProject = FarmProject(arn: Option<string>, name: Option<string>)

  /** What the vendor answers:
      - `projects`: the `projects` field of the ListProjects reply, or the error it throws;
      - `sessions`: per project arn, the `remoteAccessSessions` field of the listing (absent
        when `None`); an arn that is not a key makes the listing throw;
      - `deleteFailures`: the projects whose DeleteProject call throws, with the error.
      Stop calls may fail too, but their outcome is never observed. */
  datatype Farm = Farm(
    projects: Outcome<Option<seq<FarmProject>>>,
    sessions: map<string, Option<seq<RemoteSession>>>,
    deleteFailures: map<string, Failure>)

  /** The vendor calls, in the order they are issued. `Settle` is the two-second pause. */
  datatype Call =
    | ListProjects
    | CreateProject(name: string)
    | ListRemoteAccessSessions(project: string)
    | StopRemoteAccessSession(session: string)
    | Settle
    | DeleteProject(project: string)
    | ListDevicePools(project: string)
    | ScheduleRun(command: ScheduleRunCommand)
    | CreateUpload(uploadProject: Value, uploadName: Value, uploadType: Value)

  /** `listRemoteAccessSessions`: a listing that throws is answered with an empty list. */
  function ListedSessions(farm: Farm, projectArn: string): (r: Option<seq<RemoteSession>>)
    ensures projectArn !in farm.sessions ==> r == Some([])
    ensures projectArn in farm.sessions ==> r == farm.sessions[projectArn]
  {
    if projectArn in farm.sessions then farm.sessions[projectArn] else Some([])
  }

  /** A listed session is stopped when it has an arn and is not COMPLETED. */
  predicate ShouldStop(s: RemoteSession) {
    Present(s.arn) && s.status != Some("COMPLETED")
  }

  /** The stop calls for a session list, in list order. */
  function StopCalls(ss: seq<RemoteSession>): seq<Call> {
    if ss == [] then []
    else StopCalls(ss[..|ss| - 1]) + (if ShouldStop(ss[|ss| - 1]) then [StopRemoteAccessSession(ss[|ss| - 1].arn.value)] else [])
  }

  /** The calls `deleteProject(arn)` issues: the session listing; when the reply carries a
      session list (the empty one a failed listing yields included), one stop per session to
      stop and the pause; and the delete itself. */
  function TeardownTrace(farm: Farm, arn: string): seq<Call> {
    [ListRemoteAccessSessions(arn)]
    + (match ListedSessions(farm, arn)
       case None => []
       case Some(ss) => StopCalls(ss) + [Settle])
    + [DeleteProject(arn)]
  }

  /** `deleteProject`: stops the sessions one by one, pauses, then deletes. Failures while
      listing or stopping are swallowed; the delete's own failure is rethrown. */
  method DeleteProjectTeardown(farm: Farm, arn: string) returns (calls: seq<Call>, result: Outcome<()>)
    ensures calls == TeardownTrace(farm, arn)
    ensures result.Threw? <==> arn in farm.deleteFailures
    ensures result.Threw? ==> result.failure == farm.deleteFailures[arn]
  {
    calls := [ListRemoteAccessSessions(arn)];
    var listed := ListedSessions(farm, arn);
    if listed.Some? {
      var ss := listed.value;
      var i := 0;
      while i < |ss|
        invariant 0 <= i <= |ss|
        invariant calls == [ListRemoteAccessSessions(arn)] + StopCalls(ss[..i])
      {
        if ShouldStop(ss[i]) {
          calls := calls + [StopRemoteAccessSession(ss[i].arn.value)];
        }
        i := i + 1;
        assert ss[..i][..i - 1] == ss[..i - 1];
      }
      assert ss[..|ss|] == ss;
      calls := calls + [Settle];
    }
    calls := calls + [DeleteProject(arn)];
    if arn in farm.deleteFailures {
      result := Threw(farm.deleteFailures[arn]);
    } else {
      result := Done(());
    }
  }

  /** The stop calls are exactly the stops of the listed sessions that have an arn and are
      not COMPLETED, and they are nothing but stops. */
  lemma {:induction false} StopCallsExact(ss: seq<RemoteSession>)
    ensures forall c :: c in StopCalls(ss) ==> c.StopRemoteAccessSession?
    ensures forall x :: StopRemoteAccessSession(x) in StopCalls(ss) <==>
      exists i :: 0 <= i < |ss| && ShouldStop(ss[i]) && ss[i].arn == Some(x)
  {
    if ss != [] {
      var init := ss[..|ss| - 1];
      StopCallsExact(init);
      forall x ensures StopRemoteAccessSession(x) in StopCalls(ss) <==>
        exists i :: 0 <= i < |ss| && ShouldStop(ss[i]) && ss[i].arn == Some(x)
      {
        if StopRemoteAccessSession(x) in StopCalls(init) {
          var i :| 0 <= i < |init| && ShouldStop(init[i]) && init[i].arn == Some(x);
          assert ss[i] == init[i];
        }
        if exists i :: 0 <= i < |ss| && ShouldStop(ss[i]) && ss[i].arn == Some(x) {
          var i :| 0 <= i < |ss| && ShouldStop(ss[i]) && ss[i].arn == Some(x);
          if i < |ss| - 1 {
            assert init[i] == ss[i];
          }
        }
      }
    }
  }

  /** The sessions `deleteProject` stops are exactly the listed ones with an arn and a
      status other than COMPLETED. */
  lemma TeardownStopsExactly(farm: Farm, arn: string)
    ensures forall x :: StopRemoteAccessSession(x) in TeardownTrace(farm, arn) <==>
      ListedSessions(farm, arn).Some? &&
      exists i :: 0 <= i < |ListedSessions(farm, arn).value| &&
        ShouldStop(ListedSessions(farm, arn).value[i]) && ListedSessions(farm, arn).value[i].arn == Some(x)
  {
    if ListedSessions(farm, arn).Some? {
      StopCallsExact(ListedSessions(farm, arn).value);
    }
  }

  /** The delete is the last call and is issued once: every stop precedes it. The listing
      comes first. */
  lemma {:induction false} TeardownDeletesLast(farm: Farm, arn: string)
    ensures var t := TeardownTrace(farm, arn);
      |t| >= 2 && t[0] == ListRemoteAccessSessions(arn) && t[|t| - 1] == DeleteProject(arn) &&
      forall k :: 0 <= k < |t| - 1 ==> !t[k].DeleteProject?
  {
    var t := TeardownTrace(farm, arn);
    var mid := match ListedSessions(farm, arn) case None => [] case Some(ss) => StopCalls(ss) + [Settle];
    assert t == [ListRemoteAccessSessions(arn)] + mid + [DeleteProject(arn)];
    if ListedSessions(farm, arn).Some? {
      StopCallsExact(ListedSessions(farm, arn).value);
    }
    forall k | 0 <= k < |t| - 1 ensures !t[k].DeleteProject? {
      if k > 0 {
        assert t[k] == mid[k - 1];
        assert t[k] in mid;
      }
    }
  }

  /** A session listing that fails still leads to the pause and the delete. */
  lemma ListingFailureStillDeletes(farm: Farm, arn: string)
    requires arn !in farm.sessions
    ensures TeardownTrace(farm, arn) == [ListRemoteAccessSessions(arn), Settle, DeleteProject(arn)]
  {
    assert StopCalls([]) == [];
  }

  /** With all sessions COMPLETED or without an arn, nothing is stopped. */
  lemma {:induction false} NothingToStop(ss: seq<RemoteSession>)
    requires forall i :: 0 <= i < |ss| ==> !ShouldStop(ss[i])
    ensures StopCalls(ss) == []
  {
    if ss != [] {
      NothingToStop(ss[..|ss| - 1]);
    }
  }
}

/** The remote-session panel of the dashboard page (app/dashboard/page.tsx): connecting to
    a device opens a vendor session; while the session has no endpoint and has not FAILED,
    a timer polls the sessions endpoint and records what it answers; closing the panel
    forgets the session. A timer tick and the connect handler are each split at their
    `await`: the request is one step and the answer another, with other events possibly
    in between. */
module Dashboard {
  import opened Common
  import opened Text
  import opened DeviceList

  /** A session status as the vendor spells it; statuses the page does not name are kept
      as text. */
  datatype Status = Pending | Running | Failed | Errored | Completed | Other(text: string)

  function StatusText(st: Status): string {
    match st
    case Pending => "PENDING"
    case Running => "RUNNING"
    case Failed => "FAILED"
    case Errored => "ERRORED"
    case Completed => "COMPLETED"
    case Other(t) => t
  }

  function StatusOf(s: string): (st: Status)
    ensures StatusText(st) == s
    ensures st.Other? ==> s !in {"PENDING", "RUNNING", "FAILED", "ERRORED", "COMPLETED"}
  {
    if s == "PENDING" then Pending
    else if s == "RUNNING" then Running
    else if s == "FAILED" then Failed
    else if s == "ERRORED" then Errored
    else if s == "COMPLETED" then Completed
    else Other(s)
  }

  /** Reading a status back from its text gives the same status, for every status the
      page can hold: text comparisons (`status === "FAILED"`) and constructor tests agree. */
  lemma StatusRoundTrip(st: Status)
    requires st.Other? ==> st.text !in {"PENDING", "RUNNING", "FAILED", "ERRORED", "COMPLETED"}
    ensures StatusOf(StatusText(st)) == st
  {
  }

  /** The active session: its arn (absent when the vendor's reply had none), its status and
      the remote endpoint once there is one. */
  datatype Session = Session(arn: Option<string>, status: Status, endpoint: Option<string>)

  /** The guard of the polling effect: a timer runs only for a session that has no endpoint
      yet and whose status is not FAILED. ERRORED and COMPLETED do not stop it. */
  predicate ShouldPoll(active: Option<Session>) {
    active.Some? && !Present(active.value.endpoint) && active.value.status != Failed
  }

  /** What one poll of the sessions endpoint yields: a request that throws or an answer
      that is not ok, or the session's `status` and `endpoint`. */
  datatype PollResponse = NoAnswer | Answer(status: Option<string>, endpoint: Option<string>)

  /** The session after one poll, or nothing when the poll changes nothing. RUNNING takes
      the answered endpoint; FAILED, ERRORED and COMPLETED are recorded with the endpoint
      kept; anything else is ignored. The arn never changes. */
  function Polled(s: Session, resp: PollResponse): (r: Option<Session>)
    ensures resp.NoAnswer? ==> r.None?
    ensures r.Some? ==> r.value.arn == s.arn && resp.Answer? && resp.status.Some?
    ensures r.Some? <==>
      (resp.Answer? && resp.status.Some? && resp.status.value in {"RUNNING", "FAILED", "ERRORED", "COMPLETED"})
    ensures r.Some? ==> StatusText(r.value.status) == resp.status.value
    ensures r.Some? && r.value.status == Running ==> r.value.endpoint == resp.endpoint
    ensures r.Some? && r.value.status != Running ==> r.value.endpoint == s.endpoint
  {
    match resp
    case NoAnswer => None
    case Answer(status, endpoint) =>
      if status == Some("RUNNING") then Some(Session(s.arn, Running, endpoint))
      else if status == Some("FAILED") || status == Some("ERRORED") || status == Some("COMPLETED") then
        Some(s.(status := StatusOf(status.value)))
      else None
  }

  /** An ERRORED or COMPLETED answer for a session without an endpoint leaves the guard
      open: the page keeps polling such a session. */
  lemma EndedStatusKeepsPolling(s: Session, endpoint: Option<string>, status: string)
    requires ShouldPoll(Some(s))
    requires status == "ERRORED" || status == "COMPLETED"
    ensures Polled(s, Answer(Some(status), endpoint)).Some?
    ensures ShouldPoll(Polled(s, Answer(Some(status), endpoint)))
  {
  }

  /** Polling stops once a FAILED answer arrives, or a RUNNING answer with an endpoint;
      a RUNNING answer without an endpoint keeps it going. */
  lemma PollingStops(s: Session, resp: PollResponse)
    requires ShouldPoll(Some(s)) && Polled(s, resp).Some?
    ensures !ShouldPoll(Polled(s, resp)) <==>
      resp.status == Some("FAILED") || (resp.status == Some("RUNNING") && Present(resp.endpoint))
  {
  }

  /** An answer that closes the guard: FAILED, or RUNNING with an endpoint. */
  predicate StopsPolling(resp: PollResponse) {
    resp.Answer? && (resp.status == Some("FAILED") || (resp.status == Some("RUNNING") && Present(resp.endpoint)))
  }

  /** An answer the polling callback acts on: one whose status is RUNNING, FAILED,
      ERRORED or COMPLETED. */
  predicate Known(resp: PollResponse) {
    resp.Answer? && resp.status.Some? && resp.status.value in {"RUNNING", "FAILED", "ERRORED", "COMPLETED"}
  }

  /** The session after one tick. */
  function AfterTick(s: Session, resp: PollResponse): Session {
    match Polled(s, resp)
    case None => s
    case Some(t) => t
  }

  /** The number of polls made for a session, one answer per tick, until the guard closes
      or the answers run out. */
  function PollsMade(s: Session, answers: seq<PollResponse>): (n: nat)
    requires ShouldPoll(Some(s))
    ensures n <= |answers|
    decreases |answers|
  {
    if answers == [] then 0
    else if !ShouldPoll(Some(AfterTick(s, answers[0]))) then 1
    else 1 + PollsMade(AfterTick(s, answers[0]), answers[1..])
  }

  /** Polling ends with the first answer that is FAILED or RUNNING with an endpoint, and
      not before: every other answer, ERRORED and COMPLETED included, is followed by
      another poll. */
  lemma {:induction false} PollingEndsAtFirstStop(s: Session, answers: seq<PollResponse>, j: nat)
    requires ShouldPoll(Some(s))
    requires j < |answers| && StopsPolling(answers[j])
    requires forall i :: 0 <= i < j ==> !StopsPolling(answers[i])
    ensures PollsMade(s, answers) == j + 1
    decreases j
  {
    var next := AfterTick(s, answers[0]);
    if Polled(s, answers[0]).Some? {
      PollingStops(s, answers[0]);
    }
    if j > 0 {
      assert ShouldPoll(Some(next));
      forall i | 0 <= i < j - 1 ensures !StopsPolling(answers[1..][i]) {
        assert answers[1..][i] == answers[i + 1];
      }
      PollingEndsAtFirstStop(next, answers[1..], j - 1);
    }
  }

  /** The body of the session request: `Session-` and the device name with each run of
      white space turned into one dash. */
  datatype SessionRequest = SessionRequest(projectArn: string, deviceArn: string, name: string)

  function SessionName(deviceName: string): string {
    "Session-" + DashRuns(deviceName)
  }

  /** The session name holds no white space after its prefix, and a device name without
      white space is taken as it is. */
  lemma SessionNameShape(deviceName: string)
    ensures StartsWith(SessionName(deviceName), "Session-") && NoSpace(SessionName(deviceName)[8..])
    ensures NoSpace(deviceName) ==> SessionName(deviceName) == "Session-" + deviceName
  {
    DashRunsNoSpace(deviceName);
    assert SessionName(deviceName)[8..] == DashRuns(deviceName);
    if NoSpace(deviceName) {
      DashRunsKeepsPlain(deviceName);
    }
  }

  /** The answer to the session request: a failure (thrown or not ok), or the session. */
  datatype ConnectResponse = Refused | Started(arn: Option<string>, status: Option<string>, endpoint: Option<string>)

  /** The session the page records from a started one: the status defaults to PENDING. */
  function StartedSession(resp: ConnectResponse): (s: Session)
    requires resp.Started?
    ensures s.arn == resp.arn && s.endpoint == resp.endpoint
    ensures StatusText(s.status) == OrElse(resp.status, "PENDING")
    ensures !Present(resp.status) ==> s.status == Pending
  {
    Session(resp.arn, StatusOf(OrElse(resp.status, "PENDING")), resp.endpoint)
  }

  class SessionPanel {
    /** `selectedProject?.awsProjectArn`: absent when no project is selected. */
    var selectedProjectArn: Option<string>
    var activeSession: Option<Session>
    var sessionDeviceName: string
    var sessionLoading: bool
    var connectingDeviceId: Option<string>

    constructor ()
      ensures selectedProjectArn.None? && activeSession.None? && sessionDeviceName == "" &&
        !sessionLoading && connectingDeviceId.None?
    {
      selectedProjectArn := None;
      activeSession := None;
      sessionDeviceName := "";
      sessionLoading := false;
      connectingDeviceId := None;
    }

    /** A timer is running. */
    predicate Polling()
      reads this
    {
      ShouldPoll(activeSession)
    }

    /** A timer tick, up to the request: the session endpoint is asked about the session
        the timer was started for, which is the active one. Nothing changes yet. */
    method PollRequest() returns (arn: Option<string>)
      requires Polling()
      ensures arn == activeSession.value.arn
    {
      arn := activeSession.value.arn;
    }

    /** A timer tick, once its request has settled. The answer is applied to whatever
        session is active by then (`setActiveSession(prev => ...)`): a request still in
        flight when the panel closed or reconnected lands on no session, or on the new one.
        A response that is not ok, or a request that throws, changes nothing; an answer with
        a status the page knows updates the session as `Polled` says and ends loading. */
    method PollAnswered(resp: PollResponse)
      modifies this
      ensures !Known(resp) ==> activeSession == old(activeSession) && sessionLoading == old(sessionLoading)
      ensures Known(resp) ==> !sessionLoading
      ensures old(activeSession).Some? ==> activeSession == Some(AfterTick(old(activeSession).value, resp))
      ensures old(activeSession).None? ==> activeSession.None?
      ensures selectedProjectArn == old(selectedProjectArn) && sessionDeviceName == old(sessionDeviceName)
      ensures connectingDeviceId == old(connectingDeviceId)
    {
      if !Known(resp) {
        return;
      }
      if resp.status == Some("RUNNING") {
        if activeSession.Some? {
          activeSession := Some(Session(activeSession.value.arn, Running, resp.endpoint));
        }
        sessionLoading := false;
      } else {
        if activeSession.Some? {
          activeSession := Some(activeSession.value.(status := StatusOf(resp.status.value)));
        }
        sessionLoading := false;
      }
    }

    /** `setSelectedProject`: the project list picks a project (or none); only the arn the
        connect handler reads is kept. */
    method SelectProject(projectArn: Option<string>)
      modifies this
      ensures selectedProjectArn == projectArn
      ensures activeSession == old(activeSession) && sessionDeviceName == old(sessionDeviceName)
      ensures sessionLoading == old(sessionLoading) && connectingDeviceId == old(connectingDeviceId)
    {
      selectedProjectArn := projectArn;
    }

    /** The first part of `handleConnectRequest`, up to the request: without a project arn
        nothing happens and nothing is sent; otherwise the device is marked as connecting,
        its name remembered, loading starts, and the session request is sent. */
    method Connect(deviceArn: string, deviceName: string) returns (sent: Option<SessionRequest>)
      modifies this
      ensures !Present(old(selectedProjectArn)) ==> sent.None? && unchanged(this)
      ensures Present(old(selectedProjectArn)) ==>
        sent == Some(SessionRequest(old(selectedProjectArn).value, deviceArn, SessionName(deviceName))) &&
        connectingDeviceId == Some(deviceArn) && sessionDeviceName == deviceName && sessionLoading &&
        activeSession == old(activeSession) && selectedProjectArn == old(selectedProjectArn)
    {
      if !Present(selectedProjectArn) {
        return None;
      }
      connectingDeviceId := Some(deviceArn);
      sessionDeviceName := deviceName;
      sessionLoading := true;
      sent := Some(SessionRequest(selectedProjectArn.value, deviceArn, SessionName(deviceName)));
    }

    /** The rest of `handleConnectRequest`, once the request has settled: a started session
        becomes the active one (loading goes on until a poll ends it); a failure ends
        loading and keeps the previous session. The connecting mark is cleared either way. */
    method ConnectSettled(resp: ConnectResponse)
      modifies this
      ensures resp.Started? ==> activeSession == Some(StartedSession(resp)) && sessionLoading == old(sessionLoading)
      ensures resp.Refused? ==> activeSession == old(activeSession) && !sessionLoading
      ensures connectingDeviceId.None?
      ensures selectedProjectArn == old(selectedProjectArn) && sessionDeviceName == old(sessionDeviceName)
    {
      if resp.Started? {
        activeSession := Some(StartedSession(resp));
      } else {
        sessionLoading := false;
      }
      connectingDeviceId := None;
    }

    /** `closeSession`: the session and the device name are forgotten; nothing is sent to
        the vendor, and the loading flag is left as it was. */
    method CloseSession()
      modifies this
      ensures activeSession.None? && sessionDeviceName == ""
      ensures sessionLoading == old(sessionLoading) && connectingDeviceId == old(connectingDeviceId)
      ensures selectedProjectArn == old(selectedProjectArn)
      ensures !Polling()
    {
      activeSession := None;
      sessionDeviceName := "";
    }
  }

  /** While a device with an arn is connecting, every device's Connect button is disabled,
      so no second request can start; only the connecting device shows the spinner. */
  lemma ConnectingLocksButtons(projectArn: Option<string>, deviceArn: string, d: Device)
    requires Present(projectArn) && deviceArn != ""
    ensures ConnectButtonOf(projectArn, Some(deviceArn), d).Shown?
    ensures ConnectButtonOf(projectArn, Some(deviceArn), d).disabled
    ensures ConnectButtonOf(projectArn, Some(deviceArn), d).spinner <==> d.arn == deviceArn
  {
  }
}

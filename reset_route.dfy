/** The account reset (app/api/admin/reset/route.ts, `DELETE`): first every project on the
    vendor account is torn down, then the caller's local projects are deleted. */
module ResetRoute {
  import opened Common
  import opened Seqs
  import opened Db
  import opened DeviceFarm

  /** The vendor project has an arn (`if (p.arn)`). */
  predicate HasArn(p: FarmProject) {
    Present(p.arn)
  }

  function HasArnFn(): FarmProject -> bool {
    (p: FarmProject) => HasArn(p)
  }

  /** The projects the ListProjects reply lists (none when its `projects` field is absent). */
  function ListedProjects(farm: Farm): seq<FarmProject>
    requires farm.projects.Done?
  {
    if farm.projects.value.None? then [] else farm.projects.value.value
  }

  /** The calls of the teardowns of `ps`, in list order; projects without an arn are skipped. */
  function ResetTrace(farm: Farm, ps: seq<FarmProject>): seq<Call> {
    if ps == [] then []
    else ResetTrace(farm, ps[..|ps| - 1])
         + (if HasArn(ps[|ps| - 1]) then TeardownTrace(farm, ps[|ps| - 1].arn.value) else [])
  }

  /** The vendor phase: list the projects and tear down each one that has an arn, catching
      the failure of each teardown. `listed` is false when the listing throws. */
  method CleanupFarm(farm: Farm) returns (calls: seq<Call>, listed: bool)
    ensures listed <==> farm.projects.Done?
    ensures listed ==> calls == [ListProjects] + ResetTrace(farm, ListedProjects(farm))
    ensures !listed ==> calls == [ListProjects]
  {
    calls := [ListProjects];
    if farm.projects.Threw? {
      return calls, false;
    }
    var ps := ListedProjects(farm);
    var i := 0;
    while i < |ps|
      invariant 0 <= i <= |ps|
      invariant calls == [ListProjects] + ResetTrace(farm, ps[..i])
    {
      if HasArn(ps[i]) {
        var teardown, result := DeleteProjectTeardown(farm, ps[i].arn.value);
        // a failed teardown is caught and the loop goes on
        calls := calls + teardown;
      }
      i := i + 1;
      assert ps[..i][..i - 1] == ps[..i - 1];
    }
    assert ps[..|ps|] == ps;
    return calls, true;
  }

  /** The JSON the reset answers with on success. */
  datatype ResetDone = ResetDone(success: bool, message: string)

  /** `DELETE`: 401 without a user; 500 when the vendor listing fails (nothing local is
      deleted); 500 when the local delete fails; otherwise the user's projects are gone and
      the reply reports success, whatever happened to the individual vendor deletions.
      `dbFailure` is the error `deleteMany` would throw, if any. */
  method Reset(store: Store, userId: Option<string>, farm: Farm, dbFailure: Option<Failure>)
    returns (reply: Reply<ResetDone>, calls: seq<Call>)
    modifies store
    ensures !Present(userId) ==>
      reply == ErrorJson(401, "Unauthorized") && calls == [] && unchanged(store)
    ensures Present(userId) && farm.projects.Threw? ==>
      reply == ErrorJson(500, "Failed to cleanup AWS resources") && calls == [ListProjects] && unchanged(store)
    ensures Present(userId) && farm.projects.Done? ==>
      calls == [ListProjects] + ResetTrace(farm, ListedProjects(farm))
    ensures Present(userId) && farm.projects.Done? && dbFailure.Some? ==>
      reply == ErrorJson(500, "Failed to cleanup database") && unchanged(store)
    ensures Present(userId) && farm.projects.Done? && dbFailure.None? ==>
      reply == Json(200, ResetDone(true, "System completely reset")) &&
      store.projects == Filter(old(store.projects), ProjectNotOwnedBy(userId.value)) &&
      store.apps == Filter(old(store.apps), AppOutside(ProjectIds(old(store.projects), ProjectOwnedBy(userId.value)))) &&
      store.runs == Filter(old(store.runs), RunOutside(ProjectIds(old(store.projects), ProjectOwnedBy(userId.value))))
  {
    if !Present(userId) {
      return Unauthorized(), [];
    }
    var listed;
    calls, listed := CleanupFarm(farm);
    if !listed {
      return ErrorJson(500, "Failed to cleanup AWS resources"), calls;
    }
    if dbFailure.Some? {
      return ErrorJson(500, "Failed to cleanup database"), calls;
    }
    var count := store.DeleteProjectsOfUser(userId.value);
    reply := Json(200, ResetDone(true, "System completely reset"));
  }

  // ---- properties of the vendor phase ----

  /** The projects a `DeleteProject` call is issued for, in order. */
  function Deleted(calls: seq<Call>): seq<string> {
    if calls == [] then []
    else Deleted(calls[..|calls| - 1]) + (if calls[|calls| - 1].DeleteProject? then [calls[|calls| - 1].project] else [])
  }

  /** The arns of the projects, in order. */
  function Arns(ps: seq<FarmProject>): seq<string>
    requires forall i :: 0 <= i < |ps| ==> ps[i].arn.Some?
  {
    if ps == [] then [] else Arns(ps[..|ps| - 1]) + [ps[|ps| - 1].arn.value]
  }

  lemma {:induction false} DeletedAppend(a: seq<Call>, b: seq<Call>)
    ensures Deleted(a + b) == Deleted(a) + Deleted(b)
    decreases |b|
  {
    if b != [] {
      DeletedAppend(a, b[..|b| - 1]);
      assert (a + b)[..|a + b| - 1] == a + b[..|b| - 1];
      var last := b[|b| - 1];
      var d := if last.DeleteProject? then [last.project] else [];
      assert (a + b)[|a + b| - 1] == last;
      assert Deleted(a + b) == Deleted(a + b[..|b| - 1]) + d;
      assert Deleted(b) == Deleted(b[..|b| - 1]) + d;
    } else {
      assert a + b == a;
    }
  }

  /** A teardown deletes its own project and nothing else. */
  lemma TeardownDeletesOnce(farm: Farm, arn: string)
    ensures Deleted(TeardownTrace(farm, arn)) == [arn]
  {
    var t := TeardownTrace(farm, arn);
    TeardownDeletesLast(farm, arn);
    NoDeletes(t[..|t| - 1]);
    assert t == t[..|t| - 1] + [t[|t| - 1]];
    DeletedAppend(t[..|t| - 1], [t[|t| - 1]]);
    assert Deleted([t[|t| - 1]]) == Deleted([]) + [arn];
  }

  lemma {:induction false} NoDeletes(calls: seq<Call>)
    requires forall k :: 0 <= k < |calls| ==> !calls[k].DeleteProject?
    ensures Deleted(calls) == []
  {
    if calls != [] {
      NoDeletes(calls[..|calls| - 1]);
    }
  }

  /** Every listed project with an arn gets exactly one delete attempt, in list order, and
      projects without an arn get none. */
  lemma {:induction false} ResetDeletesEachOnce(farm: Farm, ps: seq<FarmProject>)
    ensures var kept := Filter(ps, HasArnFn());
      (forall i :: 0 <= i < |kept| ==> kept[i].arn.Some?) &&
      Deleted(ResetTrace(farm, ps)) == Arns(kept)
  {
    if ps != [] {
      var init := ps[..|ps| - 1];
      var last := ps[|ps| - 1];
      ResetDeletesEachOnce(farm, init);
      var tail := if HasArn(last) then TeardownTrace(farm, last.arn.value) else [];
      DeletedAppend(ResetTrace(farm, init), tail);
      if HasArn(last) {
        TeardownDeletesOnce(farm, last.arn.value);
        var kept := Filter(ps, HasArnFn());
        assert kept == Filter(init, HasArnFn()) + [last];
        assert kept[..|kept| - 1] == Filter(init, HasArnFn());
      } else {
        assert Deleted(tail) == [];
      }
    }
  }

  /** Which vendor deletions fail does not change what the reset attempts: one failure does
      not keep the other projects from being torn down. `ResetTrace` never reads the delete
      outcomes, because each teardown's failure is caught inside the loop, so this holds by
      construction; together with `ResetDeletesEachOnce` it spells out that promise. */
  lemma {:induction false} ResetIgnoresDeleteFailures(farm: Farm, ps: seq<FarmProject>, failures: map<string, Failure>)
    ensures ResetTrace(farm.(deleteFailures := failures), ps) == ResetTrace(farm, ps)
  {
    if ps != [] {
      ResetIgnoresDeleteFailures(farm, ps[..|ps| - 1], failures);
    }
  }

  /** Every stop of a teardown comes before that project's delete. */
  lemma ResetStopsPrecedeDelete(farm: Farm, arn: string)
    ensures var t := TeardownTrace(farm, arn);
      forall j, k :: 0 <= j < |t| && 0 <= k < |t| && t[j].StopRemoteAccessSession? && t[k] == DeleteProject(arn) ==> j < k
  {
    TeardownDeletesLast(farm, arn);
  }
}

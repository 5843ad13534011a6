/** The top-level run of a manifest (manifest.go, `Run`): a preflight gate
    over every resource, the interleaved run of all of them, and the report
    and exit status. The run is driven by one fair choice of steps; each
    resource's run outcome is supplied as `runError`, which stands for the
    error the resource's own `run` returns. */
module Engine {
  import opened Wrappers
  import opened Ambient
  import opened Resources
  import opened Manifests
  import opened Scheduler
  import Descriptor

  /** Every resource carries its descriptor. */
  predicate Described(res: map<string, Resource>)
  {
    forall id :: id in res ==> res[id].attributes.Some?
  }

  /** The error a resource's preflight checks report. */
  function PreflightError(r: Resource, host: Host): Option<string>
    requires r.attributes.Some?
  {
    Descriptor.PreflightChecks(r.attributes.value, host).err
  }

  /** Some resource fails its preflight checks. */
  predicate AnyPreflightFails(res: map<string, Resource>, host: Host)
    requires Described(res)
  {
    exists id :: id in res && PreflightError(res[id], host).Some?
  }

  /** The gate records each failing resource's preflight error on it and
      leaves every other resource as it was. */
  function PreflightGate(res: map<string, Resource>, host: Host): (out: map<string, Resource>)
    requires Described(res)
    ensures out.Keys == res.Keys
    ensures forall id :: id in res ==> out[id].(error := res[id].error) == res[id]
    ensures forall id :: id in res && PreflightError(res[id], host).Some? ==> out[id].error == PreflightError(res[id], host)
    ensures forall id :: id in res && PreflightError(res[id], host).None? ==> out[id] == res[id]
  {
    map id | id in res :: var e := PreflightError(res[id], host); if e.Some? then res[id].(error := e) else res[id]
  }

  /** On a freshly built manifest the gate's report (the resources with an
      error) is exactly the resources that failed preflight, and the gate
      stops the run exactly when that report is non-empty. */
  lemma GateReportsExactlyFailures(m: Manifest, host: Host)
    requires WellFormed(m)
    ensures var out := PreflightGate(m.resources, host);
      forall id :: id in out ==> (out[id].error.Some? <==> PreflightError(m.resources[id], host).Some?)
    ensures AnyPreflightFails(m.resources, host) <==> exists id :: id in m.resources && PreflightGate(m.resources, host)[id].error.Some?
  {
    var out := PreflightGate(m.resources, host);
    if exists id :: id in m.resources && out[id].error.Some? {
      var id :| id in m.resources && out[id].error.Some?;
      assert PreflightError(m.resources[id], host).Some?;
    }
  }

  /** The scan after the run: whether any resource carries an error. */
  method CompletedWithErrors(res: map<string, Resource>) returns (withErrors: bool)
    ensures withErrors <==> exists id :: id in res && res[id].error.Some?
  {
    withErrors := false;
    var remaining := res.Keys;
    while remaining != {}
      invariant remaining <= res.Keys
      invariant forall id :: id in res && id !in remaining ==> res[id].error.None?
      decreases |remaining|
    {
      var id :| id in remaining;
      if res[id].error.Some? {
        withErrors := true;
        break;
      }
      remaining := remaining - {id};
    }
  }

  /** A listing of the ids of a map, in no particular order. */
  method KeysOf(res: map<string, Resource>) returns (order: seq<string>)
    ensures forall id :: id in res <==> id in order
  {
    order := [];
    var remaining := res.Keys;
    while remaining != {}
      invariant remaining <= res.Keys
      invariant forall id :: id in res <==> id in order || id in remaining
      decreases |remaining|
    {
      var id :| id in remaining;
      order := order + [id];
      remaining := remaining - {id};
    }
  }

  /** The step that moves resource `x` on; when `x` waits for the lock, the
      holder of the lock finishes first. */
  function StepFor(s: State, x: string, runError: Resource -> Option<string>): (a: Action)
    requires Inv(s) && x in s.phase && s.phase[x] != Done
    ensures Next(s, a).Some?
  {
    match s.phase[x]
    case Polling(_) => Poll(x)
    case Running => Finish(x, runError(s.res[x]))
    case Ready =>
      if s.res[x].globalLock && s.holder.Some? then
        Finish(s.holder.value, runError(s.res[s.holder.value]))
      else Enter(x)
  }

  datatype Outcome = Outcome(resources: map<string, Resource>, exitCode: int)

  /** A run's outcome for a resource agrees with what its run returned. */
  predicate RanAsReported(r: Resource, runError: Resource -> Option<string>, original: Resource)
  {
    && (r.status == Failed ==> r.error == runError(original) && r.error.Some?)
    && (r.status == Success ==> runError(original).None?)
  }

  /** The run state still matches the manifest it started from: same ids
      and dependencies, unfinished resources untouched, and every run outcome
      the one its run returned. */
  ghost predicate Tracks(s: State, m: Manifest, runError: Resource -> Option<string>)
  {
    && s.res.Keys == m.resources.Keys
    && (forall id :: id in s.res ==> s.res[id].dependsOn == m.resources[id].dependsOn)
    && (forall id :: id in s.phase && id in s.res && s.phase[id] != Done ==> s.res[id] == m.resources[id])
    && (forall id :: id in s.res ==> RanAsReported(s.res[id], runError, m.resources[id]))
  }

  lemma StepTracks(s: State, x: string, m: Manifest, runError: Resource -> Option<string>)
    requires Inv(s) && Tracks(s, m, runError) && x in s.phase && s.phase[x] != Done
    ensures Tracks(Next(s, StepFor(s, x, runError)).value, m, runError)
  {
    var a := StepFor(s, x, runError);
    match a
    case Poll(_) => PollTracks(s, a, m, runError);
    case Enter(_) => EnterTracks(s, a, m, runError);
    case Finish(_, _) => FinishTracks(s, a, m, runError);
  }

  lemma PollTracks(s: State, a: Action, m: Manifest, runError: Resource -> Option<string>)
    requires Shape(s) && Tracks(s, m, runError) && a.Poll? && Next(s, a).Some?
    ensures Tracks(Next(s, a).value, m, runError)
  {
    var id := a.id;
    var r := s.res[id];
    match PollPass(s.res, r.dependsOn)
    case DependencyFailedAt(d) =>
      var r' := Apply(r, UpstreamFailed(d), None);
      assert Next(s, a).value == Step(s, id, r', Done, s.holder, s.started);
      TracksStep(s, id, r', Done, s.holder, s.started, m, runError);
    case AllSatisfied =>
      assert Next(s, a).value == Step(s, id, r, Ready, s.holder, s.started);
      TracksStep(s, id, r, Ready, s.holder, s.started, m, runError);
    case StillWaiting =>
      var n := s.phase[id].passes;
      if n + 1 < PollLimit {
        assert Next(s, a).value == Step(s, id, r, Polling(n + 1), s.holder, s.started);
        TracksStep(s, id, r, Polling(n + 1), s.holder, s.started, m, runError);
      } else {
        var r' := Apply(r, GaveUp, None);
        assert Next(s, a).value == Step(s, id, r', Done, s.holder, s.started);
        TracksStep(s, id, r', Done, s.holder, s.started, m, runError);
      }
  }

  /** A step that keeps a resource's dependencies, leaves it untouched until
      it finishes, and records an outcome agreeing with its run keeps the
      run tracking the manifest. */
  lemma TracksStep(s: State, id: string, r': Resource, p': Phase, holder': Option<string>, started': set<string>,
                   m: Manifest, runError: Resource -> Option<string>)
    requires Shape(s) && Tracks(s, m, runError) && id in s.res && s.phase[id] != Done
    requires r'.dependsOn == s.res[id].dependsOn
    requires p' != Done ==> r' == s.res[id]
    requires RanAsReported(r', runError, m.resources[id])
    ensures Tracks(Step(s, id, r', p', holder', started'), m, runError)
  {
  }

  lemma EnterTracks(s: State, a: Action, m: Manifest, runError: Resource -> Option<string>)
    requires Shape(s) && Tracks(s, m, runError) && a.Enter? && Next(s, a).Some?
    ensures Tracks(Next(s, a).value, m, runError)
  {
  }

  lemma FinishTracks(s: State, a: Action, m: Manifest, runError: Resource -> Option<string>)
    requires Shape(s) && Tracks(s, m, runError) && a.Finish? && Next(s, a).Some?
    requires a.err == runError(s.res[a.id])
    ensures Tracks(Next(s, a).value, m, runError)
  {
    assert s.res[a.id] == m.resources[a.id];
  }

  /** Every resource that ran found its present dependencies succeeded. */
  predicate DependenciesSucceeded(res: map<string, Resource>)
  {
    forall x, d :: x in res && res[x].status in {Success, Failed} && d in res[x].dependsOn && d in res ==> res[d].status == Success
  }

  /** Steps the run until every resource has finished. */
  method Drive(m: Manifest, runError: Resource -> Option<string>) returns (s: State)
    requires WellFormed(m)
    ensures Inv(s) && AllDone(s) && Tracks(s, m, runError)
  {
    var order := KeysOf(m.resources);
    s := Init(m);
    InitInv(m);
    while exists id :: id in s.phase && s.phase[id] != Done
      invariant Inv(s) && Tracks(s, m, runError)
      decreases RankTotal(s.phase, order)
    {
      var x :| x in s.phase && s.phase[x] != Done;
      var a := StepFor(s, x, runError);
      NextInv(s, a);
      StepTracks(s, x, m, runError);
      NextLowersRank(s, a, order);
      s := Next(s, a).value;
    }
  }

  /** `Run`: when any resource fails preflight, the failures are recorded
      and the program exits with status 1 before anything runs. Otherwise
      every resource is run to an outcome, with its dependencies succeeded
      beforehand, and the exit status is 1 exactly when some resource did not
      succeed. */
  method Run(m: Manifest, host: Host, runError: Resource -> Option<string>) returns (out: Outcome)
    requires WellFormed(m)
    ensures out.resources.Keys == m.resources.Keys
    ensures out.exitCode == 0 || out.exitCode == 1
    ensures out.exitCode == 0 <==> forall id :: id in out.resources ==> out.resources[id].status == Success
    ensures AnyPreflightFails(m.resources, host) ==> forall id :: id in out.resources ==>
      out.resources[id].status == Pending && out.resources[id].error == PreflightError(m.resources[id], host)
    ensures !AnyPreflightFails(m.resources, host) ==> forall id :: id in out.resources ==>
      out.resources[id].status != Pending || out.resources[id].error.Some?
    ensures forall id :: id in out.resources ==> RanAsReported(out.resources[id], runError, m.resources[id])
    ensures DependenciesSucceeded(out.resources)
  {
    if exists id :: id in m.resources && PreflightError(m.resources[id], host).Some? {
      var gated := PreflightGate(m.resources, host);
      GateReportsExactlyFailures(m, host);
      return Outcome(gated, 1);
    }
    var s := Drive(m, runError);
    var withErrors := CompletedWithErrors(s.res);
    ErrorsExactlyUnsuccessful(s);
    forall x, d | x in s.res && s.res[x].status in {Success, Failed} && d in s.res[x].dependsOn && d in s.res
      ensures s.res[d].status == Success
    {
      StartedAfterDependencies(s, x, d);
    }
    out := Outcome(s.res, if withErrors then 1 else 0);
  }
}

/** The run phase of the manifest (manifest.go, `apply` and
    `dependencyCheck`) as a transition system. Each resource polls its
    dependencies, waits for the global lock if it needs it, runs, and
    records its outcome; the steps of different resources interleave in any
    order. A dependency-poll pass is one atomic step, and the run's outcome
    is left open (any error or none), so the properties below hold whatever
    the resources do. */
module Scheduler {
  import opened Wrappers
  import opened Resources
  import opened Manifests

  /** The number of dependency-poll passes before a resource gives up. */
  const PollLimit: nat := 600000

  // ---------------------------------------------------------------------------
  // One poll pass

  /** A present dependency that has failed. */
  predicate DepFailed(res: map<string, Resource>, d: string)
  {
    d in res && IsFailed(res[d].status)
  }

  /** A dependency that does not hold the resource back: absent from the
      map, or succeeded. */
  predicate DepSatisfied(res: map<string, Resource>, d: string)
  {
    d !in res || res[d].status == Success
  }

  /** `deps[i]` is the first failed dependency in the list. */
  predicate FirstFailed(res: map<string, Resource>, deps: seq<string>, i: int)
  {
    0 <= i < |deps| && DepFailed(res, deps[i]) && forall j :: 0 <= j < i ==> !DepFailed(res, deps[j])
  }

  datatype PassResult = DependencyFailedAt(dep: string) | AllSatisfied | StillWaiting

  /** Some dependency present in the map has failed. */
  predicate HasFailedDep(res: map<string, Resource>, deps: seq<string>)
  {
    exists i :: 0 <= i < |deps| && DepFailed(res, deps[i])
  }

  /** One pass over the dependencies in order: stop at the first present
      dependency that failed; otherwise report whether every present one has
      succeeded. Dependencies absent from the map are passed over. */
  function PollPass(res: map<string, Resource>, deps: seq<string>): (r: PassResult)
    ensures r.DependencyFailedAt? <==> HasFailedDep(res, deps)
    ensures r.DependencyFailedAt? ==> exists i :: FirstFailed(res, deps, i) && r.dep == res[deps[i]].id
    ensures r == AllSatisfied <==> forall i :: 0 <= i < |deps| ==> DepSatisfied(res, deps[i])
  {
    if |deps| == 0 then AllSatisfied
    else if DepFailed(res, deps[0]) then
      assert FirstFailed(res, deps, 0);
      DependencyFailedAt(res[deps[0]].id)
    else
      var rest := PollPass(res, deps[1..]);
      if rest.DependencyFailedAt? then
        var i :| FirstFailed(res, deps[1..], i) && rest.dep == res[deps[1..][i]].id;
        assert FirstFailed(res, deps, i + 1);
        rest
      else if rest.AllSatisfied? && !DepSatisfied(res, deps[0]) then StillWaiting
      else
        assert forall i :: 1 <= i < |deps| ==> deps[i] == deps[1..][i - 1];
        rest
  }

  // ---------------------------------------------------------------------------
  // The bounded wait and the outcome

  datatype CheckOutcome = UpstreamFailed(dep: string) | Satisfied | GaveUp

  /** `dependencyCheck`: with no dependencies there is nothing to wait for;
      otherwise up to `PollLimit` passes, pass `i` reading the resources as
      `observe(i)` shows them. */
  method DependencyCheck(deps: seq<string>, observe: nat -> map<string, Resource>)
    returns (outcome: CheckOutcome, passes: nat)
    ensures |deps| == 0 ==> outcome == Satisfied && passes == 0
    ensures |deps| > 0 ==> passes <= PollLimit
    ensures forall i :: 0 <= i < passes ==> PollPass(observe(i), deps) == StillWaiting
    ensures outcome == GaveUp <==> |deps| > 0 && passes == PollLimit
    ensures outcome == Satisfied && |deps| > 0 ==> PollPass(observe(passes), deps) == AllSatisfied
    ensures outcome.UpstreamFailed? ==> PollPass(observe(passes), deps) == DependencyFailedAt(outcome.dep)
  {
    if |deps| == 0 {
      return Satisfied, 0;
    }
    var i: nat := 0;
    while i < PollLimit
      invariant i <= PollLimit
      invariant forall j :: 0 <= j < i ==> PollPass(observe(j), deps) == StillWaiting
    {
      var pass := PollPass(observe(i), deps);
      match pass
      case DependencyFailedAt(d) => return UpstreamFailed(d), i;
      case AllSatisfied => return Satisfied, i;
      case StillWaiting =>
      i := i + 1;
    }
    return GaveUp, PollLimit;
  }

  function UpstreamError(dep: string): string
  {
    "upstream dependency " + dep + " returned an error"
  }

  function GaveUpError(id: string): string
  {
    "resource " + id + " gave up waiting for dependencies"
  }

  /** What `apply` records for a resource: a failed dependency marks it as
      failed by dependency, giving up leaves it pending with an error, and a
      run that took place marks it failed with the run's error or
      succeeded. */
  function Apply(r: Resource, check: CheckOutcome, runErr: Option<string>): (r': Resource)
    ensures r'.dependsOn == r.dependsOn && r'.id == r.id && r'.globalLock == r.globalLock
    ensures r'.attributes == r.attributes && r'.kind == r.kind
    ensures check.UpstreamFailed? ==> r'.status == DependencyFailed && r'.error == Some(UpstreamError(check.dep))
    ensures check == GaveUp ==> r'.status == r.status && r'.error == Some(GaveUpError(r.id))
    ensures check == Satisfied ==> (r'.status == Failed <==> runErr.Some?) && (r'.status == Success <==> runErr.None?)
    ensures check == Satisfied && runErr.Some? ==> r'.error == runErr
    ensures check == Satisfied && runErr.None? ==> r'.error == r.error
  {
    match check
    case UpstreamFailed(d) => r.(status := DependencyFailed, error := Some(UpstreamError(d)))
    case GaveUp => r.(error := Some(GaveUpError(r.id)))
    case Satisfied => if runErr.Some? then r.(status := Failed, error := runErr) else r.(status := Success)
  }

  // ---------------------------------------------------------------------------
  // The interleaved run

  /** Where a resource is in its `apply`: polling after `passes` passes,
      cleared to run (waiting for the lock if it needs it), running, or
      finished. */
  datatype Phase = Polling(passes: nat) | Ready | Running | Done

  /** The manifest's resources, each one's phase, the holder of the global
      lock, and the resources whose run has begun. */
  datatype State = State(
    res: map<string, Resource>,
    phase: map<string, Phase>,
    holder: Option<string>,
    started: set<string>)

  datatype Action = Poll(id: string) | Enter(id: string) | Finish(id: string, err: Option<string>)

  /** Every resource of the manifest is about to poll; no lock is held. */
  function Init(m: Manifest): (s: State)
    ensures s.res == m.resources && s.phase.Keys == m.resources.Keys && s.holder == None && s.started == {}
    ensures forall id :: id in s.phase ==> s.phase[id] == Polling(0)
  {
    State(m.resources, map id | id in m.resources :: Polling(0), None, {})
  }

  /** The step an action takes, when it is enabled. */
  function Next(s: State, a: Action): Option<State>
  {
    if a.id !in s.res || a.id !in s.phase then None
    else
      var r := s.res[a.id];
      match a
      case Poll(id) =>
        if !s.phase[id].Polling? then None
        else
          var n := s.phase[id].passes;
          (match PollPass(s.res, r.dependsOn)
           case DependencyFailedAt(d) =>
             Some(s.(res := s.res[id := Apply(r, UpstreamFailed(d), None)], phase := s.phase[id := Done]))
           case AllSatisfied => Some(s.(phase := s.phase[id := Ready]))
           case StillWaiting =>
             if n + 1 < PollLimit then Some(s.(phase := s.phase[id := Polling(n + 1)]))
             else Some(s.(res := s.res[id := Apply(r, GaveUp, None)], phase := s.phase[id := Done])))
      case Enter(id) =>
        if s.phase[id] != Ready then None
        else if r.globalLock && s.holder.Some? then None
        else Some(State(s.res, s.phase[id := Running], if r.globalLock then Some(id) else s.holder,
                        s.started + {id}))
      case Finish(id, err) =>
        if s.phase[id] != Running then None
        else Some(State(s.res[id := Apply(r, Satisfied, err)], s.phase[id := Done],
                        if s.holder == Some(id) then None else s.holder, s.started))
  }

  /** The shape of a state: phases and resources cover the same ids, polling
      stops before the limit, and a resource that has not finished is still
      pending, without error. */
  ghost predicate Shape(s: State)
  {
    && s.phase.Keys == s.res.Keys
    && s.started <= s.res.Keys
    && (forall id :: id in s.phase && s.phase[id].Polling? ==> s.phase[id].passes < PollLimit)
    && (forall id :: id in s.phase && s.phase[id] != Done ==> s.res[id].status == Pending && s.res[id].error == None)
  }

  /** A finished resource has an outcome (a status other than pending, or the
      give-up error); a success carries no error and a failure always one. */
  ghost predicate Outcomes(s: State)
  {
    && (forall id :: id in s.phase && id in s.res && s.phase[id] == Done ==> s.res[id].status != Pending || s.res[id].error.Some?)
    && (forall id :: id in s.res && s.res[id].status == Success ==> s.res[id].error == None)
    && (forall id :: id in s.res && IsFailed(s.res[id].status) ==> s.res[id].error.Some?)
  }

  /** `x` is running while holding the global lock. */
  predicate LockedRunning(s: State, x: string)
  {
    x in s.phase && x in s.res && s.phase[x] == Running && s.res[x].globalLock
  }

  /** The lock is held by a running resource that needs it, and every such
      resource holds it. */
  ghost predicate LockHeld(s: State)
  {
    && (s.holder.Some? ==> LockedRunning(s, s.holder.value))
    && (forall id :: LockedRunning(s, id) ==> s.holder == Some(id))
  }

  /** A run began exactly for the running resources and for those that
      finished with a run's outcome. */
  ghost predicate StartedExactly(s: State)
  {
    forall id :: id in s.phase && id in s.res ==>
      (id in s.started <==> s.phase[id] == Running || (s.phase[id] == Done && s.res[id].status in {Success, Failed}))
  }

  /** Dependencies are satisfied for every resource cleared to run or started. */
  ghost predicate DepsSatisfied(s: State)
  {
    forall id, i :: id in s.phase && id in s.res && (s.phase[id] == Ready || id in s.started) && 0 <= i < |s.res[id].dependsOn| ==>
      DepSatisfied(s.res, s.res[id].dependsOn[i])
  }

  /** A resource failed by dependency has a failed dependency. */
  ghost predicate Blamed(s: State)
  {
    forall id :: id in s.res && s.res[id].status == DependencyFailed ==> HasFailedDep(s.res, s.res[id].dependsOn)
  }

  /** The invariant of the interleaved run. */
  ghost predicate Inv(s: State)
  {
    Shape(s) && Outcomes(s) && LockHeld(s) && StartedExactly(s) && DepsSatisfied(s) && Blamed(s)
  }

  lemma InitInv(m: Manifest)
    requires WellFormed(m)
    ensures Inv(Init(m))
  {
  }

  /** Statuses are written once: an action changes only its own resource's
      entry, only the status and error of it, and the status only away from
      pending. */
  lemma NextWritesOnce(s: State, a: Action)
    requires Shape(s) && Next(s, a).Some?
    ensures var s' := Next(s, a).value;
      && s'.res.Keys == s.res.Keys
      && (forall id :: id in s.res && id != a.id ==> s'.res[id] == s.res[id])
      && s'.res[a.id].dependsOn == s.res[a.id].dependsOn && s'.res[a.id].globalLock == s.res[a.id].globalLock
      && s'.res[a.id].id == s.res[a.id].id
      && (s'.res[a.id].status != s.res[a.id].status ==> s.res[a.id].status == Pending)
  {
  }

  /** Each step moves its resource forward and no other resource's phase. */
  function PhaseRank(p: Phase): nat
  {
    match p
    case Polling(n) => if n < PollLimit then PollLimit - n + 2 else 3
    case Ready => 2
    case Running => 1
    case Done => 0
  }

  lemma NextProgresses(s: State, a: Action)
    requires Shape(s) && Next(s, a).Some?
    ensures var s' := Next(s, a).value;
      && s'.phase.Keys == s.phase.Keys
      && PhaseRank(s'.phase[a.id]) < PhaseRank(s.phase[a.id])
      && (forall id :: id in s.phase && id != a.id ==> s'.phase[id] == s.phase[id])
  {
    match a
    case Poll(id) =>
      var n := s.phase[id].passes;
      assert n < PollLimit;
    case Enter(_) =>
    case Finish(_, _) =>
  }

  /** The phase ranks of the ids listed in `order`, added up. */
  function RankTotal(phase: map<string, Phase>, order: seq<string>): nat
    requires forall k :: 0 <= k < |order| ==> order[k] in phase
  {
    if |order| == 0 then 0 else PhaseRank(phase[order[0]]) + RankTotal(phase, order[1..])
  }

  /** No rank grows, and one listed rank drops: the total drops. */
  lemma {:induction false} RankTotalDrops(before: map<string, Phase>, after: map<string, Phase>, order: seq<string>, id: string)
    requires forall k :: 0 <= k < |order| ==> order[k] in before && order[k] in after
    requires forall k :: 0 <= k < |order| ==> PhaseRank(after[order[k]]) <= PhaseRank(before[order[k]])
    requires id in before && id in after && PhaseRank(after[id]) < PhaseRank(before[id])
    ensures RankTotal(after, order) <= RankTotal(before, order)
    ensures id in order ==> RankTotal(after, order) < RankTotal(before, order)
  {
    if |order| > 0 {
      RankTotalDrops(before, after, order[1..], id);
      if id in order && order[0] != id {
        assert id in order[1..];
      }
    }
  }

  /** Every step lowers the rank total over a listing of all resources, so
      the run finishes after finitely many steps. */
  lemma NextLowersRank(s: State, a: Action, order: seq<string>)
    requires Shape(s) && Next(s, a).Some?
    requires forall id :: id in s.phase <==> id in order
    ensures forall k :: 0 <= k < |order| ==> order[k] in Next(s, a).value.phase
    ensures RankTotal(Next(s, a).value.phase, order) < RankTotal(s.phase, order)
  {
    NextProgresses(s, a);
    RankTotalDrops(s.phase, Next(s, a).value.phase, order, a.id);
  }

  /** The state after one resource's entry, phase, the lock and the started
      set are replaced. */
  function Step(s: State, id: string, r': Resource, p': Phase, holder': Option<string>, started': set<string>): State
  {
    State(s.res[id := r'], s.phase[id := p'], holder', started')
  }

  /** Updating a pending resource keeps the dependency guarantee of the
      others, since none of them may depend on it; the updated resource
      itself keeps it when it is cleared only with its dependencies
      satisfied. */
  lemma DepsSatisfiedStep(s: State, id: string, r': Resource, p': Phase, holder': Option<string>, started': set<string>)
    requires Shape(s) && DepsSatisfied(s) && id in s.res && s.res[id].status == Pending
    requires r'.dependsOn == s.res[id].dependsOn
    requires started' <= s.started + {id}
    requires p' == Ready || id in started' ==> forall i :: 0 <= i < |r'.dependsOn| ==> DepSatisfied(s.res, r'.dependsOn[i])
    requires s.phase[id] == Ready || id in s.started ==> p' == Ready || id in started'
    ensures DepsSatisfied(Step(s, id, r', p', holder', started'))
  {
    var s' := Step(s, id, r', p', holder', started');
    forall x, i | x in s'.phase && x in s'.res && (s'.phase[x] == Ready || x in s'.started) && 0 <= i < |s'.res[x].dependsOn|
      ensures DepSatisfied(s'.res, s'.res[x].dependsOn[i])
    {
      var d := s'.res[x].dependsOn[i];
      assert DepSatisfied(s.res, d);
    }
  }

  /** Updating a pending resource keeps every blame valid, since a failed
      dependency is never the pending resource itself. */
  lemma BlamedStep(s: State, id: string, r': Resource, p': Phase, holder': Option<string>, started': set<string>)
    requires Blamed(s) && id in s.res && s.res[id].status == Pending
    requires r'.dependsOn == s.res[id].dependsOn
    requires r'.status == DependencyFailed ==> HasFailedDep(s.res, r'.dependsOn)
    ensures Blamed(Step(s, id, r', p', holder', started'))
  {
    var s' := Step(s, id, r', p', holder', started');
    forall x | x in s'.res && s'.res[x].status == DependencyFailed
      ensures HasFailedDep(s'.res, s'.res[x].dependsOn)
    {
      var i :| 0 <= i < |s'.res[x].dependsOn| && DepFailed(s.res, s'.res[x].dependsOn[i]);
      assert DepFailed(s'.res, s'.res[x].dependsOn[i]);
    }
  }

  /** The parts of the invariant about one resource's shape and outcome are
      kept by a step that keeps its identity and dependencies, leaves it
      untouched until it finishes, and finishes it with a consistent
      outcome. */
  lemma ShapeOutcomesStep(s: State, id: string, r': Resource, p': Phase, holder': Option<string>, started': set<string>)
    requires Shape(s) && Outcomes(s) && id in s.res && s.phase[id] != Done
    requires p' != Done ==> r' == s.res[id]
    requires p'.Polling? ==> p'.passes < PollLimit
    requires started' <= s.res.Keys
    requires p' == Done ==> r'.status != Pending || r'.error.Some?
    requires r'.status == Success ==> r'.error == None
    requires IsFailed(r'.status) ==> r'.error.Some?
    ensures Shape(Step(s, id, r', p', holder', started')) && Outcomes(Step(s, id, r', p', holder', started'))
  {
  }

  /** The started set stays exact when it changes only at the stepped
      resource, and there exactly as its new phase and outcome say. */
  lemma StartedStep(s: State, id: string, r': Resource, p': Phase, holder': Option<string>, started': set<string>)
    requires Shape(s) && StartedExactly(s) && id in s.res
    requires forall x :: x != id ==> (x in started' <==> x in s.started)
    requires id in started' <==> p' == Running || (p' == Done && r'.status in {Success, Failed})
    ensures StartedExactly(Step(s, id, r', p', holder', started'))
  {
  }

  /** A step on a pending resource keeps the invariant when each part of it
      is kept at the stepped resource. */
  lemma StepInv(s: State, id: string, r': Resource, p': Phase, holder': Option<string>, started': set<string>)
    requires Inv(s) && id in s.res && s.phase[id] != Done
    requires r'.dependsOn == s.res[id].dependsOn
    requires p' != Done ==> r' == s.res[id]
    requires p'.Polling? ==> p'.passes < PollLimit
    requires p' == Done ==> r'.status != Pending || r'.error.Some?
    requires r'.status == Success ==> r'.error == None
    requires IsFailed(r'.status) ==> r'.error.Some?
    requires forall x :: x != id ==> (x in started' <==> x in s.started)
    requires id in started' <==> p' == Running || (p' == Done && r'.status in {Success, Failed})
    requires p' == Ready || id in started' ==> forall i :: 0 <= i < |r'.dependsOn| ==> DepSatisfied(s.res, r'.dependsOn[i])
    requires s.phase[id] == Ready || id in s.started ==> p' == Ready || id in started'
    requires r'.status == DependencyFailed ==> HasFailedDep(s.res, r'.dependsOn)
    requires LockHeld(Step(s, id, r', p', holder', started'))
    ensures Inv(Step(s, id, r', p', holder', started'))
  {
    assert started' <= s.started + {id};
    ShapeOutcomesStep(s, id, r', p', holder', started');
    StartedStep(s, id, r', p', holder', started');
    DepsSatisfiedStep(s, id, r', p', holder', started');
    BlamedStep(s, id, r', p', holder', started');
  }

  /** A poll step leaves the lock as it was: the polling resource neither
      runs nor holds it. */
  lemma PollLockHeld(s: State, id: string, r': Resource, p': Phase, started': set<string>)
    requires Shape(s) && LockHeld(s) && id in s.res && s.phase[id].Polling?
    requires p' != Running
    ensures LockHeld(Step(s, id, r', p', s.holder, started'))
  {
    var s' := Step(s, id, r', p', s.holder, started');
    forall x | LockedRunning(s', x)
      ensures s'.holder == Some(x)
    {
      assert LockedRunning(s, x);
    }
  }

  /** The invariant is kept by every step. */
  lemma NextInv(s: State, a: Action)
    requires Inv(s) && Next(s, a).Some?
    ensures Inv(Next(s, a).value)
  {
    match a
    case Poll(_) => PollInv(s, a);
    case Enter(_) => EnterInv(s, a);
    case Finish(_, _) => FinishInv(s, a);
  }

  lemma PollInv(s: State, a: Action)
    requires Inv(s) && a.Poll? && Next(s, a).Some?
    ensures Inv(Next(s, a).value)
  {
    match PollPass(s.res, s.res[a.id].dependsOn)
    case AllSatisfied => PollReadyInv(s, a);
    case DependencyFailedAt(d) => PollFailedInv(s, a, d);
    case StillWaiting =>
      if s.phase[a.id].passes + 1 < PollLimit {
        PollWaitInv(s, a);
      } else {
        PollGaveUpInv(s, a);
      }
  }

  /** A pass that clears the resource to run. */
  lemma PollReadyInv(s: State, a: Action)
    requires Inv(s) && a.Poll? && Next(s, a).Some?
    requires PollPass(s.res, s.res[a.id].dependsOn) == AllSatisfied
    ensures Inv(Next(s, a).value)
  {
    var id := a.id;
    var r := s.res[id];
    assert Next(s, a).value == Step(s, id, r, Ready, s.holder, s.started);
    PollLockHeld(s, id, r, Ready, s.started);
    StepInv(s, id, r, Ready, s.holder, s.started);
  }

  /** A pass that finds a failed dependency. */
  lemma PollFailedInv(s: State, a: Action, d: string)
    requires Inv(s) && a.Poll? && Next(s, a).Some?
    requires PollPass(s.res, s.res[a.id].dependsOn) == DependencyFailedAt(d)
    ensures Inv(Next(s, a).value)
  {
    var id := a.id;
    var r' := Apply(s.res[id], UpstreamFailed(d), None);
    assert Next(s, a).value == Step(s, id, r', Done, s.holder, s.started);
    PollLockHeld(s, id, r', Done, s.started);
    StepInv(s, id, r', Done, s.holder, s.started);
  }

  /** A pass after which the resource keeps polling. */
  lemma PollWaitInv(s: State, a: Action)
    requires Inv(s) && a.Poll? && Next(s, a).Some?
    requires PollPass(s.res, s.res[a.id].dependsOn) == StillWaiting && s.phase[a.id].passes + 1 < PollLimit
    ensures Inv(Next(s, a).value)
  {
    var id := a.id;
    var r := s.res[id];
    var p' := Polling(s.phase[id].passes + 1);
    assert Next(s, a).value == Step(s, id, r, p', s.holder, s.started);
    PollLockHeld(s, id, r, p', s.started);
    StepInv(s, id, r, p', s.holder, s.started);
  }

  /** The last pass allowed, after which the resource gives up. */
  lemma PollGaveUpInv(s: State, a: Action)
    requires Inv(s) && a.Poll? && Next(s, a).Some?
    requires PollPass(s.res, s.res[a.id].dependsOn) == StillWaiting && s.phase[a.id].passes + 1 >= PollLimit
    ensures Inv(Next(s, a).value)
  {
    var id := a.id;
    var r' := Apply(s.res[id], GaveUp, None);
    assert Next(s, a).value == Step(s, id, r', Done, s.holder, s.started);
    PollLockHeld(s, id, r', Done, s.started);
    StepInv(s, id, r', Done, s.holder, s.started);
  }

  lemma EnterInv(s: State, a: Action)
    requires Inv(s) && a.Enter? && Next(s, a).Some?
    ensures Inv(Next(s, a).value)
  {
    var id := a.id;
    var r := s.res[id];
    var holder' := if r.globalLock then Some(id) else s.holder;
    var s' := Step(s, id, r, Running, holder', s.started + {id});
    assert Next(s, a).value == s';
    forall x | LockedRunning(s', x)
      ensures s'.holder == Some(x)
    {
      if x != id {
        assert LockedRunning(s, x);
      }
    }
    StepInv(s, id, r, Running, holder', s.started + {id});
  }

  lemma FinishInv(s: State, a: Action)
    requires Inv(s) && a.Finish? && Next(s, a).Some?
    ensures Inv(Next(s, a).value)
  {
    var id := a.id;
    var r' := Apply(s.res[id], Satisfied, a.err);
    var holder' := if s.holder == Some(id) then None else s.holder;
    var s' := Step(s, id, r', Done, holder', s.started);
    assert Next(s, a).value == s';
    forall x | LockedRunning(s', x)
      ensures s'.holder == Some(x)
    {
      assert LockedRunning(s, x);
    }
    StepInv(s, id, r', Done, holder', s.started);
  }

  // ---------------------------------------------------------------------------
  // What the invariant guarantees

  /** At most one resource that takes the global lock runs at a time. */
  lemma LockExclusion(s: State, x: string, y: string)
    requires Inv(s)
    requires LockedRunning(s, x) && LockedRunning(s, y)
    ensures x == y
  {
  }

  /** A resource whose run has begun only began after every dependency
      present in the manifest had succeeded, and they stay succeeded. */
  lemma StartedAfterDependencies(s: State, x: string, d: string)
    requires Inv(s) && x in s.started && d in s.res[x].dependsOn && d in s.res
    ensures s.res[d].status == Success
  {
    var i :| 0 <= i < |s.res[x].dependsOn| && s.res[x].dependsOn[i] == d;
    assert DepSatisfied(s.res, s.res[x].dependsOn[i]);
  }

  /** A resource with a failed dependency never runs, and one that failed by
      dependency did not run either. */
  lemma FailedDependencyBlocksRun(s: State, x: string)
    requires Inv(s) && x in s.res
    ensures (exists i :: 0 <= i < |s.res[x].dependsOn| && DepFailed(s.res, s.res[x].dependsOn[i])) ==> x !in s.started
    ensures s.res[x].status == DependencyFailed ==> x !in s.started
  {
    if exists i :: 0 <= i < |s.res[x].dependsOn| && DepFailed(s.res, s.res[x].dependsOn[i]) {
      var i :| 0 <= i < |s.res[x].dependsOn| && DepFailed(s.res, s.res[x].dependsOn[i]);
    }
  }

  /** A failure propagates: the next poll of a resource with a failed
      dependency marks it failed by dependency, naming the first failed one. */
  lemma FailurePropagates(s: State, x: string, i: int)
    requires Inv(s) && x in s.res && s.phase[x].Polling?
    requires FirstFailed(s.res, s.res[x].dependsOn, i)
    ensures Next(s, Poll(x)).Some?
    ensures var s' := Next(s, Poll(x)).value;
      && s'.res[x].status == DependencyFailed
      && s'.res[x].error == Some(UpstreamError(s.res[s.res[x].dependsOn[i]].id))
      && s'.phase[x] == Done && x !in s'.started
  {
    var deps := s.res[x].dependsOn;
    var pass := PollPass(s.res, deps);
    var j :| FirstFailed(s.res, deps, j) && pass.dep == s.res[deps[j]].id;
  }

  /** The run cannot get stuck: while a resource has not finished, some step
      is enabled. */
  lemma NoDeadlock(s: State, x: string)
    requires Inv(s) && x in s.phase && s.phase[x] != Done
    ensures exists a :: Next(s, a).Some?
  {
    match s.phase[x]
    case Polling(_) => assert Next(s, Poll(x)).Some?;
    case Running => assert Next(s, Finish(x, None)).Some?;
    case Ready =>
      if s.res[x].globalLock && s.holder.Some? {
        assert Next(s, Finish(s.holder.value, None)).Some?;
      } else {
        assert Next(s, Enter(x)).Some?;
      }
  }

  predicate AllDone(s: State)
  {
    forall id :: id in s.phase ==> s.phase[id] == Done
  }

  /** When every resource has finished, some resource carries an error
      exactly when some resource did not succeed. */
  lemma ErrorsExactlyUnsuccessful(s: State)
    requires Inv(s) && AllDone(s)
    ensures (exists id :: id in s.res && s.res[id].error.Some?) <==> (exists id :: id in s.res && s.res[id].status != Success)
  {
    if exists id :: id in s.res && s.res[id].status != Success {
      var id :| id in s.res && s.res[id].status != Success;
      assert s.phase[id] == Done;
      assert s.res[id].error.Some?;
    }
  }

  /** Drives the run through a schedule of actions, skipping those that are
      not enabled; the resulting state keeps the guarantees above. */
  method Schedule(m: Manifest, actions: seq<Action>) returns (s: State)
    requires WellFormed(m)
    ensures s.res.Keys == m.resources.Keys && s.phase.Keys == m.resources.Keys
    ensures forall id :: id in s.res ==> s.res[id].dependsOn == m.resources[id].dependsOn
    ensures forall x, d :: x in s.started && x in s.res && d in s.res[x].dependsOn && d in s.res ==> s.res[d].status == Success
    ensures forall x, y :: LockedRunning(s, x) && LockedRunning(s, y) ==> x == y
    ensures forall id :: id in s.res && s.res[id].status == DependencyFailed ==> id !in s.started
    ensures forall id :: id in s.phase && s.phase[id] != Done ==> s.res[id].status == Pending
  {
    s := Init(m);
    InitInv(m);
    var k := 0;
    while k < |actions|
      invariant 0 <= k <= |actions|
      invariant Inv(s)
      invariant s.res.Keys == m.resources.Keys
      invariant forall id :: id in s.res ==> s.res[id].dependsOn == m.resources[id].dependsOn
    {
      if Next(s, actions[k]).Some? {
        ScheduleStep(s, actions[k], m);
        s := Next(s, actions[k]).value;
      }
      k := k + 1;
    }
    InvGuarantees(s);
  }

  /** One enabled step keeps the invariant, the keys and the dependencies. */
  lemma ScheduleStep(s: State, a: Action, m: Manifest)
    requires Inv(s) && Next(s, a).Some?
    requires s.res.Keys == m.resources.Keys
    requires forall id :: id in s.res ==> s.res[id].dependsOn == m.resources[id].dependsOn
    ensures Inv(Next(s, a).value)
    ensures Next(s, a).value.res.Keys == m.resources.Keys
    ensures forall id :: id in Next(s, a).value.res ==> Next(s, a).value.res[id].dependsOn == m.resources[id].dependsOn
  {
    NextInv(s, a);
    NextWritesOnce(s, a);
  }

  /** What the invariant guarantees about any reachable state. */
  lemma InvGuarantees(s: State)
    requires Inv(s)
    ensures forall x, d :: x in s.started && x in s.res && d in s.res[x].dependsOn && d in s.res ==> s.res[d].status == Success
    ensures forall x, y :: LockedRunning(s, x) && LockedRunning(s, y) ==> x == y
    ensures forall id :: id in s.res && s.res[id].status == DependencyFailed ==> id !in s.started
    ensures forall id :: id in s.phase && s.phase[id] != Done ==> s.res[id].status == Pending
  {
    forall x, d | x in s.started && x in s.res && d in s.res[x].dependsOn && d in s.res
      ensures s.res[d].status == Success
    {
      StartedAfterDependencies(s, x, d);
    }
    forall id | id in s.res
      ensures s.res[id].status == DependencyFailed ==> id !in s.started
    {
      FailedDependencyBlocksRun(s, id);
    }
    forall x, y | LockedRunning(s, x) && LockedRunning(s, y)
      ensures x == y
    {
      LockExclusion(s, x, y);
    }
  }

  /** A dependency absent from the manifest (a stale name, say) holds
      nothing back and blames nothing: the pass is as if it were not
      listed. */
  lemma AbsentDependencyIgnored(res: map<string, Resource>, d: string, deps: seq<string>)
    requires d !in res
    ensures PollPass(res, [d] + deps) == PollPass(res, deps)
  {
    assert ([d] + deps)[1..] == deps;
  }
}

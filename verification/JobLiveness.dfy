/** Every job costs a bounded number of steps, and workers can go on exactly while calls of Execute return. */
module JobLiveness {
  import opened Prelude
  import opened JobStore
  import opened JobProtocol
  import opened JobInvariant
  import opened JobTheorems

  /** The most steps a job can cost: taking it, loading, marking, looking, two calls, the final write. */
  const STEPS_PER_JOB := 7

  function StepsLeft(pc: Pc): nat {
    match pc
    case Idle => 0
    case Stopped => 0
    case Loading(_) => 6
    case Marking(_, _) => 5
    case Looking(_, _) => 4
    case Calling(_, _, n) => if n < MAX_ATTEMPTS then 3 else 2
    case Finishing(_, _, _) => 1
  }

  function Remaining(s: State): nat {
    STEPS_PER_JOB * |s.store.list| + Sum(s.workers, StepsLeft)
  }

  /** A step by which a worker advances a job. */
  predicate Advances(a: Step) {
    a.Pop? || a.LoadJob? || a.Mark? || a.Look? || a.Call? || a.Finish?
  }

  lemma WorkerFalls(c: Setup, s: State, a: Step)
    requires Enabled(c, s, a) && Advances(a) && (a.Call? ==> s.workers[a.w].attempt >= 1)
    ensures Remaining(Apply(c, s, a)) < Remaining(s)
  {
    SumUpdate(s.workers, a.w, Apply(c, s, a).workers[a.w], StepsLeft);
  }

  /** Every step that advances a job leaves less to do; only a submission adds work. */
  lemma RemainingFalls(c: Setup, s: State, a: Step)
    requires PhasesOk(c, s) && Enabled(c, s, a)
    ensures Remaining(Apply(c, s, a)) + One(Advances(a)) <= Remaining(s) + STEPS_PER_JOB * One(a.Submit?)
  {
    if Advances(a) {
      assert WorkerOk(c, s, s.workers[a.w]);
      WorkerFalls(c, s, a);
    } else if a.Stop? {
      SumUpdate(s.workers, a.w, Stopped, StepsLeft);
    }
  }

  function Advancing(run: seq<Step>): nat {
    if run == [] then 0 else One(Advances(run[0])) + Advancing(run[1..])
  }

  function Submissions(run: seq<Step>): nat {
    if run == [] then 0 else One(run[0].Submit?) + Submissions(run[1..])
  }

  lemma OrderGrows(c: Setup, s: State, a: Step)
    requires Enabled(c, s, a)
    ensures |Apply(c, s, a).order| == |s.order| + One(a.Submit?)
  {
  }

  lemma {:induction false} WorkBounded(c: Setup, s: State, run: seq<Step>)
    requires c.json.Lawful() && Inv(c, s) && Legal(c, s, run)
    ensures Advancing(run) + Remaining(After(c, s, run)) <= Remaining(s) + STEPS_PER_JOB * Submissions(run)
    ensures |After(c, s, run).order| == |s.order| + Submissions(run)
    decreases |run|
  {
    if run != [] {
      RemainingFalls(c, s, run[0]);
      OrderGrows(c, s, run[0]);
      StepKeeps(c, s, run[0]);
      WorkBounded(c, Apply(c, s, run[0]), run[1..]);
    }
  }

  /** However steps fail or interleave, workers take at most seven steps for each enqueued job. */
  lemma JobsAreBounded(c: Setup, n: nat, run: seq<Step>)
    requires c.json.Lawful() && Legal(c, Init(n), run)
    ensures Advancing(run) + Remaining(After(c, Init(n), run)) <= STEPS_PER_JOB * |After(c, Init(n), run).order|
  {
    InitInv(c, n);
    SumZero(Workers(n), StepsLeft);
    WorkBounded(c, Init(n), run);
  }

  // ---------------------------------------------------------------- progress, while calls return

  /**
    A step that advances a job when the calls of Execute that the workers in `hung` have made never
    return.  Execute runs under the worker's own context, which has no deadline.
  */
  ghost predicate Possible(c: Setup, s: State, a: Step, hung: set<nat>) {
    Enabled(c, s, a) && Advances(a) && (a.Call? ==> a.w !in hung)
  }

  /** Every worker is idle, stopped or in a call that never returns, and none is there to take a job. */
  ghost predicate Stuck(s: State, hung: set<nat>) {
    && (forall w :: 0 <= w < |s.workers| ==>
          s.workers[w].Idle? || s.workers[w].Stopped? || (s.workers[w].Calling? && w in hung))
    && (s.store.list == [] || forall w :: 0 <= w < |s.workers| ==> !s.workers[w].Idle?)
  }

  /** A worker that holds a job can advance it unless its call never returns. */
  lemma HolderAdvances(c: Setup, s: State, w: nat, hung: set<nat>) returns (a: Step)
    requires PhasesOk(c, s) && At(s, w) && Held(s.workers[w]).Some?
    requires s.workers[w].Calling? ==> w !in hung
    ensures Possible(c, s, a, hung)
  {
    assert WorkerOk(c, s, s.workers[w]);
    match s.workers[w]
    case Loading(_) => a := LoadJob(w, true);
    case Marking(_, _) => a := Mark(w, true);
    case Looking(_, _) => a := Look(w);
    case Calling(_, _, _) => a := Call(w, Failure([]));
    case Finishing(_, _, _) => a := Finish(w, true);
  }

  lemma SomeAdvance(c: Setup, s: State, hung: set<nat>) returns (a: Step)
    requires PhasesOk(c, s) && !Stuck(s, hung)
    ensures Possible(c, s, a, hung)
  {
    if v :| 0 <= v < |s.workers| && Held(s.workers[v]).Some? && (s.workers[v].Calling? ==> v !in hung) {
      a := HolderAdvances(c, s, v, hung);
    } else {
      var w :| 0 <= w < |s.workers| && s.workers[w].Idle?;
      a := Pop(w);
    }
  }

  /**
    Some worker can advance a job exactly when not all of them are idle, stopped or in a call that
    never returns, or a job waits and a worker is idle.
  */
  lemma JobsProgress(c: Setup, n: nat, s: State, hung: set<nat>)
    requires c.json.Lawful() && Reachable(c, n, s)
    ensures (exists a :: Possible(c, s, a, hung)) <==> !Stuck(s, hung)
  {
    ReachableInv(c, n, s);
    if !Stuck(s, hung) {
      var a := SomeAdvance(c, s, hung);
    }
  }

  /** At rest is exactly when nothing remains to be done. */
  lemma QuietIffNothingLeft(s: State)
    ensures Quiet(s) <==> Remaining(s) == 0
  {
    SumZero(s.workers, StepsLeft);
  }

  // ---------------------------------------------------------------- a run to rest

  lemma Prepend(c: Setup, s: State, a: Step, run: seq<Step>) returns (more: seq<Step>)
    requires Enabled(c, s, a) && Legal(c, Apply(c, s, a), run)
    ensures more == [a] + run && Legal(c, s, more)
    ensures After(c, s, more) == After(c, Apply(c, s, a), run)
  {
    more := [a] + run;
    assert more[1..] == run;
  }

  lemma AdvanceKeepsWorkers(c: Setup, s: State, a: Step, w: nat)
    requires Enabled(c, s, a) && Advances(a) && At(s, w)
    ensures At(Apply(c, s, a), w)
    ensures s.workers[w].Stopped? <==> Apply(c, s, a).workers[w].Stopped?
  {
  }

  /** Workers advance jobs until everything is at rest, and no call in `hung` returns. */
  ghost predicate RunsToRest(c: Setup, s: State, run: seq<Step>, hung: set<nat>) {
    && Legal(c, s, run) && Quiet(After(c, s, run))
    && forall k :: 0 <= k < |run| ==> Advances(run[k]) && (run[k].Call? ==> run[k].w !in hung)
  }

  /** When every call returns, a worker that has not stopped is enough to come to rest. */
  lemma {:induction false} RestRun(c: Setup, s: State, w: nat) returns (run: seq<Step>)
    requires c.json.Lawful() && Inv(c, s) && At(s, w) && !s.workers[w].Stopped?
    ensures RunsToRest(c, s, run, {})
    decreases Remaining(s)
  {
    if Quiet(s) {
      run := [];
    } else {
      var a := SomeAdvance(c, s, {});
      RemainingFalls(c, s, a);
      StepKeeps(c, s, a);
      AdvanceKeepsWorkers(c, s, a, w);
      run := RestRun(c, Apply(c, s, a), w);
      run := Prepend(c, s, a, run);
    }
  }

  /** A call that never returns keeps its worker, whatever anyone else does. */
  lemma {:induction false} HungStays(c: Setup, s: State, run: seq<Step>, w: nat)
    requires Legal(c, s, run) && At(s, w) && s.workers[w].Calling?
    requires forall k :: 0 <= k < |run| && run[k].Call? ==> run[k].w != w
    ensures At(After(c, s, run), w) && After(c, s, run).workers[w] == s.workers[w]
    ensures !Quiet(After(c, s, run))
    decreases |run|
  {
    if run == [] {
      assert Held(s.workers[w]).Some?;
    } else {
      HungStays(c, Apply(c, s, run[0]), run[1..], w);
    }
  }

  ghost predicate AllStopped(s: State) {
    forall w :: 0 <= w < |s.workers| ==> s.workers[w].Stopped?
  }

  /** Stopped workers leave a waiting job waiting. */
  lemma StoppedLeaveList(c: Setup, s: State, run: seq<Step>)
    requires Legal(c, s, run) && AllStopped(s)
    requires forall k :: 0 <= k < |run| ==> Advances(run[k])
    ensures run == []
  {
  }

  lemma NoRest(c: Setup, s: State, hung: set<nat>)
    requires forall w :: w in hung ==> At(s, w) && s.workers[w].Calling?
    requires hung != {} || (!Quiet(s) && AllStopped(s))
    ensures forall run :: !RunsToRest(c, s, run, hung)
  {
    forall run | RunsToRest(c, s, run, hung) ensures false {
      if hung != {} {
        var w :| w in hung;
        HungStays(c, s, run, w);
      } else {
        StoppedLeaveList(c, s, run);
      }
    }
  }

  lemma NothingPossible(c: Setup, s: State, hung: set<nat>)
    requires Stuck(s, hung)
    ensures forall a :: !Possible(c, s, a, hung)
  {
  }

  /**
    Suppose exactly the calls of the workers in `hung` never return.  The workers can come to rest if
    and only if there is no such call, and they are at rest or one of them has not stopped.
  */
  lemma RestIsReachable(c: Setup, n: nat, s: State, hung: set<nat>)
    requires c.json.Lawful() && Reachable(c, n, s)
    requires forall w :: w in hung ==> At(s, w) && s.workers[w].Calling?
    ensures (exists run :: RunsToRest(c, s, run, hung))
       <==> hung == {} && (Quiet(s) || !AllStopped(s))
  {
    if hung != {} || (!Quiet(s) && AllStopped(s)) {
      NoRest(c, s, hung);
    } else {
      var run := RestingRun(c, n, s);
    }
  }

  lemma RestingRun(c: Setup, n: nat, s: State) returns (run: seq<Step>)
    requires c.json.Lawful() && Reachable(c, n, s)
    requires Quiet(s) || !AllStopped(s)
    ensures RunsToRest(c, s, run, {})
  {
    if Quiet(s) {
      run := [];
    } else {
      var w :| 0 <= w < |s.workers| && !s.workers[w].Stopped?;
      ReachableInv(c, n, s);
      run := RestRun(c, s, w);
    }
  }

  lemma FirstSubmission(c: Setup, j: Job)
    requires c.json.Lawful() && j.id != [] && GoInts(j)
    ensures Enabled(c, Init(1), Submit(j))
    ensures var s := Apply(c, Init(1), Submit(j));
      && s.store.list == [j.id] && s.workers == [Idle]
      && Load(c.json, Stored(s.store, j.id)) == Ok(Accepted(c.json, j))
  {
    InitInv(c, 1);
    FirstView(c, Init(1), j);
  }

  lemma {:induction false} StaysStopped(c: Setup, s: State, run: seq<Step>, w: nat)
    requires Legal(c, s, run) && At(s, w) && s.workers[w].Stopped?
    ensures At(After(c, s, run), w) && After(c, s, run).workers[w].Stopped?
    decreases |run|
  {
    if run != [] {
      StaysStopped(c, Apply(c, s, run[0]), run[1..], w);
    }
  }

  /** Only an idle worker stops, so with no job in hand, and it never takes one again. */
  lemma StoppedForGood(c: Setup, s: State, w: nat, run: seq<Step>)
    requires Enabled(c, s, Stop(w)) && Legal(c, Apply(c, s, Stop(w)), run)
    ensures Held(s.workers[w]).None? && Apply(c, s, Stop(w)).store == s.store
    ensures var s' := After(c, Apply(c, s, Stop(w)), run); At(s', w) && s'.workers[w].Stopped?
  {
    StaysStopped(c, Apply(c, s, Stop(w)), run, w);
  }

  // ---------------------------------------------------------------- a worker that never comes back

  /**
    For every job in a registered language there is a run that leaves the only worker in its first
    call of Execute.  If that call does not return, no job can be advanced any more.
  */
  lemma StuckWorkerRun(c: Setup, j: Job) returns (run: seq<Step>)
    requires c.json.Lawful() && j.id != [] && GoInts(j) && j.language in c.languages
    ensures Legal(c, Init(1), run)
    ensures var s := After(c, Init(1), run);
      && Stuck(s, {0}) && !(exists a :: Possible(c, s, a, {0}))
      && !(exists more :: RunsToRest(c, s, more, {0}))
      && Poll(c, s, j.id) == Seen(Accepted(c.json, j).(status := RUNNING))
  {
    FirstSubmission(c, j);
    var more := CallingRun(c, Apply(c, Init(1), Submit(j)), j.id, Accepted(c.json, j));
    run := Prepend(c, Init(1), Submit(j), more);
    NothingPossible(c, After(c, Init(1), run), {0});
    NoRest(c, After(c, Init(1), run), {0});
  }

  lemma CallingRun(c: Setup, s: State, id: Id, j: Job) returns (run: seq<Step>)
    requires id != [] && s.store.list == [id] && s.workers == [Idle]
    requires c.json.Lawful() && Load(c.json, Stored(s.store, id)) == Ok(j) && j.language in c.languages
    ensures Legal(c, s, run)
    ensures var s' := After(c, s, run);
      s'.workers == [Calling(id, j, 1)] && s'.store.list == [] && Poll(c, s', id) == Seen(j.(status := RUNNING))
  {
    LoadUpdated(c.json, Stored(s.store, id), j, ToRunning);
    var s1 := Apply(c, s, Pop(0));
    assert s1.workers == [Loading(id)];
    var s2 := Apply(c, s1, LoadJob(0, true));
    assert s2.workers == [Marking(id, j)];
    var s3 := Apply(c, s2, Mark(0, true));
    assert s3.workers == [Looking(id, j)];
    run := Prepend(c, s3, Look(0), []);
    run := Prepend(c, s2, Mark(0, true), run);
    run := Prepend(c, s1, LoadJob(0, true), run);
    run := Prepend(c, s, Pop(0), run);
  }

  // ---------------------------------------------------------------- a job that is given up

  /**
    A job whose Load fails is not dequeued again: for every job there is a run that ends at rest
    with the job popped, given up, and still reading as queued.
  */
  lemma GivenUpRun(c: Setup, j: Job) returns (run: seq<Step>)
    requires c.json.Lawful() && j.id != [] && GoInts(j)
    ensures Legal(c, Init(1), run)
    ensures var s := After(c, Init(1), run);
      Quiet(s) && j.id in s.faulted && Poll(c, s, j.id) == Seen(Accepted(c.json, j))
  {
    FirstSubmission(c, j);
    run := GiveUpRun(c, Apply(c, Init(1), Submit(j)), j.id);
    run := Prepend(c, Init(1), Submit(j), run);
  }

  lemma GiveUpRun(c: Setup, s: State, id: Id) returns (run: seq<Step>)
    requires id != [] && s.store.list == [id] && s.workers == [Idle]
    ensures Legal(c, s, run)
    ensures var s' := After(c, s, run);
      Quiet(s') && id in s'.faulted && s'.store.hashes == s.store.hashes
  {
    var s1 := Apply(c, s, Pop(0));
    assert s1.workers == [Loading(id)] && s1.store.list == [];
    run := Prepend(c, s1, LoadJob(0, false), []);
    run := Prepend(c, s, Pop(0), run);
  }
}

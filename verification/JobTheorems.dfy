/** What the job queue promises, in every reachable state and over every run. */
module JobTheorems {
  import opened Prelude
  import opened JobStore
  import opened JobProtocol
  import opened JobInvariant

  // ---------------------------------------------------------------- first in, first out, once

  /** Ids are taken in the order they were enqueued, each at most once. */
  lemma Fifo(c: Setup, n: nat, s: State)
    requires c.json.Lawful() && Reachable(c, n, s)
    ensures s.taken <= s.order && Distinct(s.taken)
    ensures s.order[|s.taken|..] == Rev(s.store.list)
  {
    ReachableInv(c, n, s);
    forall i, j | 0 <= i < j < |s.taken| ensures s.taken[i] != s.taken[j] {
      assert s.order[i] == s.taken[i] && s.order[j] == s.taken[j];
    }
  }

  function One(b: bool): nat {
    if b then 1 else 0
  }

  lemma ListedIffNotTaken(s: State, id: Id)
    requires QueueOk(s) && id in s.order
    ensures id in s.store.list <==> id !in s.taken
  {
    RevMembers(s.store.list, id);
    if id in s.taken && id in Rev(s.store.list) {
      var i :| 0 <= i < |s.taken| && s.taken[i] == id;
      var j :| 0 <= j < |s.store.list| && Rev(s.store.list)[j] == id;
      SamePlace(s.order, i, |s.taken| + j);
    }
  }

  lemma SamePlace(ids: seq<Id>, i: nat, j: nat)
    requires Distinct(ids) && i < |ids| && j < |ids| && ids[i] == ids[j]
    ensures i == j
  {
  }

  /** Every enqueued id is on the list, or in one worker's hands, or finished, or given up. */
  lemma EachIdOnce(c: Setup, n: nat, s: State, id: Id)
    requires c.json.Lawful() && Reachable(c, n, s) && id in s.order
    ensures One(id in s.store.list) + One(InHand(s.workers, id)) + One(id in s.finished)
            + One(id in s.faulted) == 1
    ensures forall v, w :: 0 <= v < w < |s.workers| && Held(s.workers[v]) == Some(id) ==>
              Held(s.workers[w]) != Some(id)
  {
    ReachableInv(c, n, s);
    ListedIffNotTaken(s, id);
    HandsExclude(s, id);
  }

  lemma HandsExclude(s: State, id: Id)
    requires HandsOk(s)
    ensures InHand(s.workers, id) ==> id in s.taken && id !in s.finished && id !in s.faulted
    ensures id in s.finished || id in s.faulted ==> id in s.taken
  {
  }

  // ---------------------------------------------------------------- loads

  /**
    A poll or a worker reads every stored job without error; an id is not found exactly when it
    was never enqueued or its key has expired.
  */
  lemma LoadsSucceed(c: Setup, n: nat, s: State, id: Id)
    requires c.json.Lawful() && Reachable(c, n, s)
    ensures id in s.order && id !in s.expired ==>
              id in s.record && Load(c.json, Stored(s.store, id)) == Ok(s.record[id])
    ensures id !in s.order || id in s.expired ==> Load(c.json, Stored(s.store, id)) == Err(NotFound)
    ensures !Malformed(c.json, Stored(s.store, id)) || Stored(s.store, id) == map[]
  {
    ReachableInv(c, n, s);
    LoadFailsIff(c.json, Stored(s.store, id));
  }

  // ---------------------------------------------------------------- what a client sees

  /** The result of polling an id. */
  datatype View = Missing | Seen(job: Job)

  ghost function Poll(c: Setup, s: State, id: Id): View {
    match Load(c.json, Stored(s.store, id))
    case Ok(j) => Seen(j)
    case Err(_) => Missing
  }

  predicate QueuedView(v: View) {
    v.Seen? && v.job.status == QUEUED
  }

  predicate RunningView(v: View) {
    v.Seen? && v.job.status == RUNNING
  }

  predicate TerminalView(v: View) {
    v.Seen? && Terminal(v.job.status)
  }

  // ---------------------------------------------------------------- quiescence

  /** Nothing waits and nobody works. */
  ghost predicate Quiet(s: State) {
    s.store.list == [] && forall w :: 0 <= w < |s.workers| ==> Held(s.workers[w]).None?
  }

  /** A Redis command of the worker that holds the id fails. */
  ghost predicate Fails(c: Setup, s: State, a: Step, id: Id)
    requires Enabled(c, s, a)
  {
    (a.LoadJob? || a.Mark? || a.Finish?) && !a.up && Held(s.workers[a.w]) == Some(id)
  }

  ghost predicate FailsIn(c: Setup, s: State, run: seq<Step>, id: Id)
    requires Legal(c, s, run)
    decreases |run|
  {
    run != [] && (Fails(c, s, run[0], id) || FailsIn(c, Apply(c, s, run[0]), run[1..], id))
  }

  lemma StepFaults(c: Setup, s: State, a: Step, id: Id)
    requires PhasesOk(c, s) && StoreOk(c, s) && Enabled(c, s, a)
    ensures id in Apply(c, s, a).faulted <==> id in s.faulted || Fails(c, s, a, id)
  {
    if a.LoadJob? {
      LoadOutcome(c, s, a.w, a.up);
    }
  }

  /** A job is given up exactly when a Redis command of its worker failed; a Load never fails otherwise. */
  lemma {:induction false} FaultedIff(c: Setup, s: State, run: seq<Step>, id: Id)
    requires c.json.Lawful() && Inv(c, s) && Legal(c, s, run)
    ensures id in After(c, s, run).faulted <==> id in s.faulted || FailsIn(c, s, run, id)
    decreases |run|
  {
    if run != [] {
      StepFaults(c, s, run[0], id);
      StepKeeps(c, s, run[0]);
      FaultedIff(c, Apply(c, s, run[0]), run[1..], id);
    }
  }

  /**
    At rest a job has had its final write exactly when no Redis command of its worker failed over the
    whole run; then it reads as terminal until it expires.  Otherwise it reads as
    the queued or running job it was.
  */
  lemma QuietMeansDone(c: Setup, n: nat, run: seq<Step>, id: Id)
    requires c.json.Lawful() && Legal(c, Init(n), run) && Quiet(After(c, Init(n), run))
    requires id in After(c, Init(n), run).order
    ensures var s := After(c, Init(n), run);
      && (id in s.finished <==> !FailsIn(c, Init(n), run, id))
      && (id in s.finished && id !in s.expired ==> TerminalView(Poll(c, s, id)))
      && (id !in s.finished ==>
            && id in s.submitted
            && (Poll(c, s, id) == Seen(Fresh(c, s, id)) || Poll(c, s, id) == Seen(Fresh(c, s, id).(status := RUNNING))))
  {
    var s := After(c, Init(n), run);
    InitInv(c, n);
    RunInv(c, Init(n), run);
    FaultedIff(c, Init(n), run, id);
    EachIdOnce(c, n, s, id);
    assert RecordOk(c, s, id);
  }

  /** No Redis command of a worker fails. */
  ghost predicate NoFault(a: Step) {
    (a.LoadJob? || a.Mark? || a.Finish?) ==> a.up
  }

  lemma {:induction false} NoFaultsOverRun(c: Setup, s: State, run: seq<Step>, id: Id)
    requires Legal(c, s, run) && forall i :: 0 <= i < |run| ==> NoFault(run[i])
    ensures !FailsIn(c, s, run, id)
    decreases |run|
  {
    if run != [] {
      NoFaultsOverRun(c, Apply(c, s, run[0]), run[1..], id);
    }
  }

  /** In a run without Redis errors every job is terminal once the queue is at rest. */
  lemma AllJobsTerminal(c: Setup, n: nat, run: seq<Step>, id: Id)
    requires c.json.Lawful() && Legal(c, Init(n), run) && Quiet(After(c, Init(n), run))
    requires forall i :: 0 <= i < |run| ==> NoFault(run[i])
    requires id in After(c, Init(n), run).order
    ensures var s := After(c, Init(n), run);
      id in s.finished
      && (id in s.expired
          || (Load(c.json, Stored(s.store, id)).Ok? && Terminal(Load(c.json, Stored(s.store, id)).value.status)))
  {
    NoFaultsOverRun(c, Init(n), run, id);
    QuietMeansDone(c, n, run, id);
  }

  // ---------------------------------------------------------------- a monotone history

  /** The submitted part of a record never changes. */
  predicate SameJob(j: Job, k: Job) {
    j == k.(status := j.status, error := j.error, compileError := j.compileError, results := j.results)
  }

  /** One step leaves a record alone, starts a queued job, or ends a running one. */
  predicate Moves(j: Job, j': Job) {
    || j' == j
    || (j.status == QUEUED && j' == j.(status := RUNNING))
    || (j.status == RUNNING && Terminal(j'.status) && SameJob(j', j))
  }

  /** How a client's view may change in one step: a view that disappears was terminal. */
  predicate Next(v: View, v': View) {
    || v' == v
    || (v.Seen? && v'.Seen? && Moves(v.job, v'.job))
    || (TerminalView(v) && v'.Missing?)
  }

  predicate Staged(v: View) {
    QueuedView(v) || RunningView(v) || TerminalView(v) || v.Missing?
  }

  /** How a client's view may change over a run: forwards only. */
  predicate Onward(v: View, v': View) {
    && (QueuedView(v) && QueuedView(v') ==> v' == v)
    && (RunningView(v) ==> v' == v || TerminalView(v') || v'.Missing?)
    && (TerminalView(v) ==> v' == v || v'.Missing?)
    && (v.Missing? ==> v'.Missing?)
    && (v.Seen? && v'.Seen? ==> SameJob(v'.job, v.job))
  }

  lemma PollIsRecord(c: Setup, s: State, id: Id)
    requires Inv(c, s) && id in s.order
    ensures id in s.record
    ensures Poll(c, s, id) == if id in s.expired then Missing else Seen(s.record[id])
  {
  }

  /** The stage of a job that some worker has in hand. */
  lemma InHandStage(c: Setup, s: State, id: Id)
    requires PhasesOk(c, s) && InHand(s.workers, id)
    ensures id in s.record && (s.record[id].status == QUEUED || s.record[id].status == RUNNING)
    ensures s.record[id].results.None?
  {
    var w :| 0 <= w < |s.workers| && Held(s.workers[w]) == Some(id);
    assert WorkerOk(c, s, s.workers[w]);
  }

  /** Every record is queued, running, or finished; results come only with done. */
  lemma RecordStage(c: Setup, s: State, id: Id)
    requires PhasesOk(c, s) && HandsOk(s) && id in s.record
    ensures id in s.finished ==> Final(s.record[id])
    ensures id !in s.finished ==>
              (s.record[id].status == QUEUED || s.record[id].status == RUNNING) && s.record[id].results.None?
  {
    assert RecordOk(c, s, id);
    if id in s.taken && id !in s.finished && id !in s.faulted {
      InHandStage(c, s, id);
    }
  }

  lemma MarkMoves(c: Setup, s: State, w: nat, up: bool, id: Id)
    requires Enabled(c, s, Mark(w, up)) && id in s.record && WorkerOk(c, s, s.workers[w])
    ensures id in Apply(c, s, Mark(w, up)).record
    ensures Moves(s.record[id], Apply(c, s, Mark(w, up)).record[id])
  {
  }

  lemma FinishMoves(c: Setup, s: State, w: nat, up: bool, id: Id)
    requires Enabled(c, s, Finish(w, up)) && id in s.record && WorkerOk(c, s, s.workers[w])
    ensures id in Apply(c, s, Finish(w, up)).record
    ensures Moves(s.record[id], Apply(c, s, Finish(w, up)).record[id])
  {
  }

  lemma OtherMoves(c: Setup, s: State, a: Step, id: Id)
    requires QueueOk(s) && Enabled(c, s, a) && id in s.record && !a.Mark? && !a.Finish?
    ensures id in Apply(c, s, a).record && Apply(c, s, a).record[id] == s.record[id]
  {
  }

  lemma RecordStep(c: Setup, s: State, a: Step, id: Id)
    requires PhasesOk(c, s) && QueueOk(s) && Enabled(c, s, a) && id in s.record
    ensures id in Apply(c, s, a).record
    ensures Moves(s.record[id], Apply(c, s, a).record[id])
  {
    match a
    case Mark(w, up) =>
      assert WorkerOk(c, s, s.workers[w]);
      MarkMoves(c, s, w, up, id);
    case Finish(w, up) =>
      assert WorkerOk(c, s, s.workers[w]);
      FinishMoves(c, s, w, up, id);
    case _ => OtherMoves(c, s, a, id);
  }

  lemma ExpirySteps(c: Setup, s: State, a: Step)
    requires Enabled(c, s, a)
    ensures s.expired <= Apply(c, s, a).expired && s.finished <= Apply(c, s, a).finished
    ensures s.order <= Apply(c, s, a).order
    ensures forall id :: id in Apply(c, s, a).expired && id !in s.expired ==>
              a == Expire(id) && id in s.store.expiring
  {
  }

  function ViewOf(j: Job, gone: bool): View {
    if gone then Missing else Seen(j)
  }

  lemma StepOnward(c: Setup, s: State, a: Step, id: Id)
    requires c.json.Lawful() && Inv(c, s) && Enabled(c, s, a) && id in s.order
    ensures id in Apply(c, s, a).order
    ensures Staged(Poll(c, s, id)) && Next(Poll(c, s, id), Poll(c, Apply(c, s, a), id))
  {
    var s' := Apply(c, s, a);
    RecordStage(c, s, id);
    RecordStep(c, s, a, id);
    ExpirySteps(c, s, a);
    StepKeeps(c, s, a);
    PollIsRecord(c, s, id);
    PollIsRecord(c, s', id);
  }

  /** What a client that polls after every step of a run sees. */
  ghost function History(c: Setup, s: State, run: seq<Step>, id: Id): (vs: seq<View>)
    requires Legal(c, s, run)
    ensures |vs| == |run| + 1 && vs[0] == Poll(c, s, id) && vs[|run|] == Poll(c, After(c, s, run), id)
    decreases |run|
  {
    if run == [] then [Poll(c, s, id)]
    else [Poll(c, s, id)] + History(c, Apply(c, s, run[0]), run[1..], id)
  }

  /** Every view is followed by itself or the next stage. */
  ghost predicate Chain(vs: seq<View>) {
    && (forall k :: 0 <= k < |vs| ==> Staged(vs[k]))
    && forall k :: 0 <= k < |vs| - 1 ==> Next(vs[k], vs[k + 1])
  }

  lemma ChainCons(v: View, vs: seq<View>)
    requires Chain(vs) && Staged(v) && vs != [] && Next(v, vs[0])
    ensures Chain([v] + vs)
  {
    var all := [v] + vs;
    forall k | 0 <= k < |all| - 1 ensures Next(all[k], all[k + 1]) {
      if k > 0 {
        assert all[k] == vs[k - 1] && all[k + 1] == vs[k];
      }
    }
  }

  lemma OnwardTrans(u: View, v: View, w: View)
    requires Staged(u) && Staged(v) && Staged(w) && Next(u, v) && Onward(v, w)
    ensures Onward(u, w)
  {
  }

  lemma {:induction false} ChainOnward(vs: seq<View>)
    requires Chain(vs) && vs != []
    ensures Onward(vs[0], vs[|vs| - 1])
    decreases |vs|
  {
    if |vs| > 1 {
      assert Chain(vs[1..]);
      ChainOnward(vs[1..]);
      OnwardTrans(vs[0], vs[1], vs[|vs| - 1]);
    }
  }

  /** A job that was queued and is terminal, or gone, was seen running in between. */
  lemma {:induction false} RunningBetween(vs: seq<View>) returns (k: nat)
    requires Chain(vs) && vs != [] && QueuedView(vs[0])
    requires TerminalView(vs[|vs| - 1]) || vs[|vs| - 1].Missing?
    ensures k < |vs| && RunningView(vs[k])
    decreases |vs|
  {
    assert Next(vs[0], vs[0 + 1]);
    if RunningView(vs[1]) {
      k := 1;
    } else {
      assert Chain(vs[1..]);
      var j := RunningBetween(vs[1..]);
      k := j + 1;
    }
  }

  lemma {:induction false} HistoryIsChain(c: Setup, s: State, run: seq<Step>, id: Id)
    requires c.json.Lawful() && Inv(c, s) && Legal(c, s, run) && id in s.order
    ensures id in After(c, s, run).order && Chain(History(c, s, run, id))
    decreases |run|
  {
    if run == [] {
      RecordStage(c, s, id);
      PollIsRecord(c, s, id);
    } else {
      StepOnward(c, s, run[0], id);
      StepKeeps(c, s, run[0]);
      HistoryIsChain(c, Apply(c, s, run[0]), run[1..], id);
      ChainCons(Poll(c, s, id), History(c, Apply(c, s, run[0]), run[1..], id));
    }
  }

  /**
    A polling client sees the queued job, then the same job running, then one fixed terminal record,
    then nothing; running always lies between queued and terminal.
  */
  lemma MonotoneHistory(c: Setup, s: State, run: seq<Step>, id: Id)
    requires c.json.Lawful() && Inv(c, s) && Legal(c, s, run) && id in s.order
    ensures id in After(c, s, run).order
    ensures Chain(History(c, s, run, id)) && Onward(Poll(c, s, id), Poll(c, After(c, s, run), id))
    ensures QueuedView(Poll(c, s, id))
            && (TerminalView(Poll(c, After(c, s, run), id)) || Poll(c, After(c, s, run), id).Missing?)
            ==> exists k :: 0 <= k <= |run| && RunningView(History(c, s, run, id)[k])
  {
    HistoryIsChain(c, s, run, id);
    var vs := History(c, s, run, id);
    ChainOnward(vs);
    if QueuedView(vs[0]) && (TerminalView(vs[|run|]) || vs[|run|].Missing?) {
      var k := RunningBetween(vs);
    }
  }

  /** The first view of an id is queued, with no results and no error. */
  lemma FirstView(c: Setup, s: State, j: Job)
    requires c.json.Lawful() && Inv(c, s) && Enabled(c, s, Submit(j))
    ensures Poll(c, s, j.id) == Missing
    ensures Poll(c, Apply(c, s, Submit(j)), j.id) == Seen(Accepted(c.json, j))
  {
    StepKeeps(c, s, Submit(j));
    PollIsRecord(c, Apply(c, s, Submit(j)), j.id);
  }

  /**
    For a positive TTL a stored key expires exactly when its status is terminal; results are never
    seen before done.
  */
  lemma ExpiryIffTerminal(c: Setup, n: nat, s: State, id: Id)
    requires c.json.Lawful() && Reachable(c, n, s) && id in s.order && id !in s.expired
    ensures id in s.store.expiring ==> TerminalView(Poll(c, s, id))
    ensures c.ttl > 0 && TerminalView(Poll(c, s, id)) ==> id in s.store.expiring
    ensures Poll(c, s, id).Seen? && (Poll(c, s, id).job.results.Some? ==> Poll(c, s, id).job.status == DONE)
  {
    ReachableInv(c, n, s);
    PollIsRecord(c, s, id);
    RecordStage(c, s, id);
  }
}

/** The retry arithmetic of workers over an executor whose first N calls fail (package dreddtest). */
module Flaky {
  import opened Prelude
  import opened JobStore
  import opened JobProtocol
  import opened JobInvariant
  import opened JobTheorems

  // ---------------------------------------------------------------- the failing executor

  const TWO_TO_31 := 0x8000_0000

  /** 32-bit two's complement. */
  function Wrap32(x: int): int {
    (x + TWO_TO_31) % TWO_TO_32 - TWO_TO_31
  }

  /** FlakyExecutor: a 32-bit budget, lowered atomically by every call. */
  class FlakyExecutor {
    var failuresLeft: int

    constructor (failures: int)
      requires 0 <= failures < TWO_TO_31
      ensures failuresLeft == BudgetAfter(failures, 0)
    {
      failuresLeft := failures;
    }

    /** The next call of a series: call number k fails, or is passed on to the inner executor. */
    method Execute(ghost failures: int, ghost k: nat) returns (failed: bool)
      requires 0 <= failures < TWO_TO_31 && failuresLeft == BudgetAfter(failures, k)
      modifies this
      ensures failuresLeft == BudgetAfter(failures, k + 1)
      ensures failed <==> BudgetAfter(failures, k + 1) >= 0
      ensures k < failures + TWO_TO_31 ==> (failed <==> k < failures)
    {
      failuresLeft := Wrap32(failuresLeft - 1);
      BudgetFails(failures, k);
      failed := failuresLeft >= 0;
    }
  }

  function BudgetAfter(failures: int, calls: nat): int {
    Wrap32(failures - calls)
  }

  /** Below the wrap-around exactly the first `failures` calls fail; the next one after it fails again. */
  lemma BudgetFails(failures: int, k: nat)
    requires 0 <= failures < TWO_TO_31
    ensures BudgetAfter(failures, k + 1) == Wrap32(BudgetAfter(failures, k) - 1)
    ensures k < failures + TWO_TO_31 ==> (BudgetAfter(failures, k + 1) >= 0 <==> k < failures)
    ensures k == failures + TWO_TO_31 ==> BudgetAfter(failures, k + 1) >= 0
  {
  }

  // ---------------------------------------------------------------- runs over it

  function Min(a: nat, b: nat): nat {
    if a <= b then a else b
  }

  /** The executor fails exactly the first N calls, and the inner one never fails. */
  ghost predicate FlakyRun(c: Setup, s: State, run: seq<Step>, N: nat)
    requires Legal(c, s, run)
    decreases |run|
  {
    run != [] ==>
      && (run[0].Call? ==> (run[0].reply.Failure? <==> s.tally.Calls() < N))
      && FlakyRun(c, Apply(c, s, run[0]), run[1..], N)
  }

  lemma CallCounts(c: Setup, s: State, a: Step)
    requires Inv(c, s) && Enabled(c, s, a)
    ensures var t, t' := s.tally, Apply(c, s, a).tally;
      if a.Call? then t'.Calls() == t.Calls() + 1 && t'.Failing() == t.Failing() + One(a.reply.Failure?)
      else t' == t
  {
    if a.Call? {
      assert WorkerOk(c, s, s.workers[a.w]);
    }
  }

  lemma {:induction false} FailingCalls(c: Setup, s: State, run: seq<Step>, N: nat)
    requires c.json.Lawful() && Inv(c, s) && Legal(c, s, run) && FlakyRun(c, s, run, N)
    requires s.tally.Failing() == Min(N, s.tally.Calls())
    ensures After(c, s, run).tally.Failing() == Min(N, After(c, s, run).tally.Calls())
    decreases |run|
  {
    if run != [] {
      CallCounts(c, s, run[0]);
      StepKeeps(c, s, run[0]);
      FailingCalls(c, Apply(c, s, run[0]), run[1..], N);
    }
  }

  /**
    In any interleaving of any number of workers: min(N, calls) calls fail, every job makes one
    call and one more if its first failed, and at most half the failing calls belong to jobs that
    fail for good.
  */
  lemma RetryBounds(c: Setup, n: nat, run: seq<Step>, N: nat)
    requires c.json.Lawful() && Legal(c, Init(n), run) && FlakyRun(c, Init(n), run, N)
    ensures RetriesAdd(After(c, Init(n), run), N)
  {
    InitInv(c, n);
    RunInv(c, Init(n), run);
    FailingCalls(c, Init(n), run, N);
    RetriesAddUp(After(c, Init(n), run), N);
  }

  predicate AtRest(ws: seq<Pc>) {
    forall w :: 0 <= w < |ws| ==> Held(ws[w]).None?
  }

  predicate RetriesAdd(s: State, N: nat) {
    var t := s.tally;
    && t.Failing() == Min(N, t.Calls())
    && t.Calls() + Sum(s.workers, Second) == t.firsts + t.firstFails
    && 2 * t.bothFail <= Min(N, t.Calls())
    && (AtRest(s.workers) ==> t.Calls() == t.firsts + t.firstFails)
  }

  lemma RetriesAddUp(s: State, N: nat)
    requires TallyOk(s) && s.tally.Failing() == Min(N, s.tally.Calls())
    ensures RetriesAdd(s, N)
  {
    if AtRest(s.workers) {
      SumZero(s.workers, Second);
    }
  }

  // ---------------------------------------------------------------- every job is called

  /** Taken, but the first call of Execute not made yet. */
  function First(pc: Pc): nat {
    if pc.Loading? || pc.Marking? || pc.Looking? || (pc.Calling? && pc.attempt == 1) then 1 else 0
  }

  /** Fault-free, and only jobs in registered languages are submitted. */
  ghost predicate Smooth(c: Setup, a: Step) {
    NoFault(a) && (a.Submit? ==> a.j.language in c.languages)
  }

  ghost predicate Known(c: Setup, s: State) {
    forall id :: id in s.submitted ==> s.submitted[id].language in c.languages
  }

  ghost predicate Called(c: Setup, s: State) {
    Known(c, s) && s.tally.firsts + Sum(s.workers, First) == |s.taken|
  }

  lemma LoadKeepsCalled(c: Setup, s: State, w: nat)
    requires Inv(c, s) && Called(c, s) && Enabled(c, s, LoadJob(w, true))
    ensures Called(c, Apply(c, s, LoadJob(w, true)))
  {
    LoadOutcome(c, s, w, true);
    SumUpdate(s.workers, w, Apply(c, s, LoadJob(w, true)).workers[w], First);
  }

  lemma OtherKeepsCalled(c: Setup, s: State, a: Step)
    requires Called(c, s) && Enabled(c, s, a) && Smooth(c, a) && !a.LoadJob?
    requires a.Pop? ==> s.store.list[|s.store.list| - 1] != []
    requires a.Look? ==> s.workers[a.w].job.language in c.languages
    requires a.Call? ==> 1 <= s.workers[a.w].attempt <= MAX_ATTEMPTS
    ensures Called(c, Apply(c, s, a))
  {
    if !a.Submit? && !a.Expire? {
      SumUpdate(s.workers, a.w, Apply(c, s, a).workers[a.w], First);
    }
  }

  lemma StepKeepsCalled(c: Setup, s: State, a: Step)
    requires Inv(c, s) && Called(c, s) && Enabled(c, s, a) && Smooth(c, a)
    ensures Called(c, Apply(c, s, a))
  {
    if a.LoadJob? {
      LoadKeepsCalled(c, s, a.w);
    } else {
      if a.Pop? {
        PopNext(s);
      } else if a.Look? || a.Call? {
        assert WorkerOk(c, s, s.workers[a.w]);
      }
      OtherKeepsCalled(c, s, a);
    }
  }

  lemma {:induction false} RunKeepsCalled(c: Setup, s: State, run: seq<Step>)
    requires c.json.Lawful() && Inv(c, s) && Called(c, s) && Legal(c, s, run)
    requires forall i :: 0 <= i < |run| ==> Smooth(c, run[i])
    ensures Called(c, After(c, s, run))
    decreases |run|
  {
    if run != [] {
      StepKeepsCalled(c, s, run[0]);
      StepKeeps(c, s, run[0]);
      RunKeepsCalled(c, Apply(c, s, run[0]), run[1..]);
    }
  }

  /** At rest after a smooth run, every submitted job has made its first call. */
  lemma EveryJobCalled(c: Setup, n: nat, run: seq<Step>)
    requires c.json.Lawful() && Legal(c, Init(n), run) && Quiet(After(c, Init(n), run))
    requires forall i :: 0 <= i < |run| ==> Smooth(c, run[i])
    ensures After(c, Init(n), run).tally.firsts == |After(c, Init(n), run).order|
  {
    InitInv(c, n);
    SumZero(Workers(n), First);
    RunInv(c, Init(n), run);
    RunKeepsCalled(c, Init(n), run);
    SumZero(After(c, Init(n), run).workers, First);
  }

  // ---------------------------------------------------------------- failed jobs

  /** The inner executor reports no agent error. */
  predicate Clean(a: Step) {
    a.Call? && a.reply.Response? ==> a.reply.resp.agentError == []
  }

  /** The jobs that are recorded as failed. */
  function FailedIds(s: State): set<Id> {
    Failures(s.finished, s.record)
  }

  function Failures(finished: set<Id>, record: map<Id, Job>): set<Id> {
    set id | id in finished && id in record && record[id].status == FAILED
  }

  lemma OneMoreFinished(finished: set<Id>, record: map<Id, Job>, id: Id, j: Job)
    requires id !in finished
    ensures |Failures(finished + {id}, record[id := j])|
         == |Failures(finished, record)| + if j.status == FAILED then 1 else 0
  {
    assert Failures(finished + {id}, record[id := j])
        == Failures(finished, record) + if j.status == FAILED then {id} else {};
  }

  /** About to record a failure. */
  function Failing(pc: Pc): nat {
    if pc.Finishing? && pc.verdict.ToFinal? && pc.verdict.status == FAILED then 1 else 0
  }

  /** Every job that failed both attempts is recorded as failed, or about to be. */
  ghost predicate FailuresRecorded(s: State) {
    |FailedIds(s)| + Sum(s.workers, Failing) == s.tally.bothFail
  }

  lemma FinishRecordsFailure(c: Setup, s: State, w: nat)
    requires HandsOk(s) && Enabled(c, s, Finish(w, true)) && WorkerOk(c, s, s.workers[w])
    ensures |FailedIds(Apply(c, s, Finish(w, true)))| == |FailedIds(s)| + Failing(s.workers[w])
  {
    var id := s.workers[w].id;
    var s' := Apply(c, s, Finish(w, true));
    assert s'.record == s.record[id := Updated(c.json, s.record[id], s.workers[w].verdict)];
    OneMoreFinished(s.finished, s.record, id, s'.record[id]);
  }

  /** Only a final write records a failure. */
  lemma SameFailedIds(c: Setup, s: State, a: Step)
    requires Enabled(c, s, a) && !a.Finish?
    requires a.Submit? ==> a.j.id !in s.finished
    requires a.Mark? ==> s.workers[a.w].id !in s.finished
    ensures FailedIds(Apply(c, s, a)) == FailedIds(s)
  {
  }

  lemma FinishKeepsFailures(c: Setup, s: State, w: nat)
    requires HandsOk(s) && FailuresRecorded(s) && Enabled(c, s, Finish(w, true)) && WorkerOk(c, s, s.workers[w])
    ensures FailuresRecorded(Apply(c, s, Finish(w, true)))
  {
    FinishRecordsFailure(c, s, w);
    SumUpdate(s.workers, w, Idle, Failing);
  }

  /** A call that fails a second time, and nothing else, makes a worker about to record a failure. */
  lemma FailingSteps(c: Setup, s: State, a: Step)
    requires Enabled(c, s, a) && !a.Finish? && Smooth(c, a) && Clean(a)
    requires a.Look? ==> s.workers[a.w].job.language in c.languages
    requires a.Call? ==> 1 <= s.workers[a.w].attempt <= MAX_ATTEMPTS
    ensures Sum(Apply(c, s, a).workers, Failing) + s.tally.bothFail
         == Sum(s.workers, Failing) + Apply(c, s, a).tally.bothFail
  {
    if !a.Submit? && !a.Expire? {
      SumUpdate(s.workers, a.w, Apply(c, s, a).workers[a.w], Failing);
    }
  }

  lemma StepKeepsFailures(c: Setup, s: State, a: Step)
    requires Inv(c, s) && Known(c, s) && FailuresRecorded(s) && Enabled(c, s, a) && Smooth(c, a) && Clean(a)
    ensures FailuresRecorded(Apply(c, s, a))
  {
    if a.Finish? || a.Look? || a.Call? || a.Mark? {
      assert WorkerOk(c, s, s.workers[a.w]);
    }
    if a.Finish? {
      FinishKeepsFailures(c, s, a.w);
    } else {
      if a.Submit? {
        assert a.j.id !in s.taken;
      }
      SameFailedIds(c, s, a);
      FailingSteps(c, s, a);
    }
  }

  lemma {:induction false} RunKeepsFailures(c: Setup, s: State, run: seq<Step>)
    requires c.json.Lawful() && Inv(c, s) && Called(c, s) && FailuresRecorded(s) && Legal(c, s, run)
    requires forall i :: 0 <= i < |run| ==> Smooth(c, run[i]) && Clean(run[i])
    ensures FailuresRecorded(After(c, s, run))
    decreases |run|
  {
    if run != [] {
      StepKeepsFailures(c, s, run[0]);
      StepKeepsCalled(c, s, run[0]);
      StepKeeps(c, s, run[0]);
      RunKeepsFailures(c, Apply(c, s, run[0]), run[1..]);
    }
  }

  /** A run over a flaky executor whose inner one always works, on known languages and a working Redis. */
  ghost predicate SmoothRun(c: Setup, n: nat, run: seq<Step>, N: nat) {
    && Legal(c, Init(n), run) && FlakyRun(c, Init(n), run, N)
    && forall i :: 0 <= i < |run| ==> Smooth(c, run[i]) && Clean(run[i])
  }

  lemma FailuresOverRun(c: Setup, n: nat, run: seq<Step>, N: nat)
    requires c.json.Lawful() && SmoothRun(c, n, run, N)
    ensures Inv(c, After(c, Init(n), run)) && FailuresRecorded(After(c, Init(n), run))
  {
    InitInv(c, n);
    SumZero(Workers(n), First);
    SumZero(Workers(n), Failing);
    assert FailedIds(Init(n)) == {};
    RunInv(c, Init(n), run);
    RunKeepsFailures(c, Init(n), run);
  }

  /** A job that has not expired reads as failed exactly when it is recorded as failed. */
  lemma FailedReads(c: Setup, s: State, id: Id)
    requires Inv(c, s) && id in s.order && id !in s.expired && id in s.finished
    ensures id in FailedIds(s) <==> TerminalView(Poll(c, s, id)) && Poll(c, s, id).job.status == FAILED
    ensures id !in FailedIds(s) <==> TerminalView(Poll(c, s, id)) && Poll(c, s, id).job.status == DONE
  {
    PollIsRecord(c, s, id);
    RecordStage(c, s, id);
  }

  /**
    With any number of workers, at most half the failing calls are spent on jobs recorded as
    failed; at rest those are exactly the jobs whose two calls failed, and every other job is done.
  */
  lemma FailedJobs(c: Setup, n: nat, run: seq<Step>, N: nat)
    requires c.json.Lawful() && SmoothRun(c, n, run, N)
    ensures var s := After(c, Init(n), run);
      && 2 * |FailedIds(s)| <= Min(N, s.tally.Calls())
      && (Quiet(s) ==> |FailedIds(s)| == s.tally.bothFail && s.tally.Calls() == |s.order| + s.tally.firstFails)
      && (Quiet(s) ==> forall id :: id in s.order && id !in s.expired ==>
            TerminalView(Poll(c, s, id))
            && Poll(c, s, id).job.status == if id in FailedIds(s) then FAILED else DONE)
  {
    var s := After(c, Init(n), run);
    FailuresOverRun(c, n, run, N);
    RetryBounds(c, n, run, N);
    if Quiet(s) {
      SumZero(s.workers, Failing);
      EveryJobCalled(c, n, run);
      forall id | id in s.order && id !in s.expired
        ensures TerminalView(Poll(c, s, id))
        ensures Poll(c, s, id).job.status == if id in FailedIds(s) then FAILED else DONE
      {
        AllJobsTerminal(c, n, run, id);
        FailedReads(c, s, id);
      }
    }
  }

  // ---------------------------------------------------------------- one worker

  /** One worker spends the failing calls two by two. */
  ghost predicate Alone(s: State, N: nat) {
    && |s.workers| == 1
    && var t := s.tally;
       if s.workers[0].Calling? && s.workers[0].attempt == 2 then
         t.Calls() <= N && t.Calls() == 2 * t.firsts - 1 && t.bothFail == t.firsts - 1
       else if t.Calls() < N then t.Calls() == 2 * t.firsts && t.bothFail == t.firsts
       else t.bothFail == N / 2 <= t.firsts
  }

  lemma AloneStep(c: Setup, s: State, a: Step, N: nat)
    requires Alone(s, N) && Enabled(c, s, a)
    requires a.Call? ==> (a.reply.Failure? <==> s.tally.Calls() < N) && 1 <= s.workers[0].attempt <= 2
    ensures Alone(Apply(c, s, a), N)
  {
  }

  lemma {:induction false} AloneOverRun(c: Setup, s: State, run: seq<Step>, N: nat)
    requires c.json.Lawful() && Inv(c, s) && Legal(c, s, run) && FlakyRun(c, s, run, N) && Alone(s, N)
    ensures Alone(After(c, s, run), N)
    decreases |run|
  {
    if run != [] {
      assert WorkerOk(c, s, s.workers[0]);
      AloneStep(c, s, run[0], N);
      StepKeeps(c, s, run[0]);
      AloneOverRun(c, Apply(c, s, run[0]), run[1..], N);
    }
  }

  /** With one worker and M jobs, exactly min(M, N div 2) jobs fail both attempts. */
  lemma OneWorkerFailures(c: Setup, run: seq<Step>, N: nat)
    requires c.json.Lawful() && Legal(c, Init(1), run) && Quiet(After(c, Init(1), run))
    requires FlakyRun(c, Init(1), run, N) && forall i :: 0 <= i < |run| ==> Smooth(c, run[i])
    ensures var s := After(c, Init(1), run); s.tally.bothFail == Min(|s.order|, N / 2)
  {
    InitInv(c, 1);
    AloneOverRun(c, Init(1), run, N);
    EveryJobCalled(c, 1, run);
  }

  /** With one worker and M jobs, exactly min(M, N div 2) jobs are recorded as failed. */
  lemma OneWorkerFailedJobs(c: Setup, run: seq<Step>, N: nat)
    requires c.json.Lawful() && SmoothRun(c, 1, run, N) && Quiet(After(c, Init(1), run))
    ensures var s := After(c, Init(1), run); |FailedIds(s)| == Min(|s.order|, N / 2)
  {
    OneWorkerFailures(c, run, N);
    FailedJobs(c, 1, run, N);
  }
}

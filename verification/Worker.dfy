/** worker.process as one worker executes it, and the run of the job protocol it amounts to. */
module Worker {
  import opened Prelude
  import opened JobStore
  import opened JobProtocol

  /** Which Redis commands succeed, and what the executor answers to a first and second call. */
  datatype Fate = Fate(load: bool, mark: bool, finish: bool, first: Reply, second: Reply)

  /** The final write of a job, and how many calls of Execute led to it. */
  function Outcome(c: Setup, j: Job, f: Fate): (Update, nat) {
    if j.language !in c.languages then (ToFinal(FAILED, [], UNKNOWN_LANGUAGE, None), 0)
    else if f.first.Response? then (VerdictOf(f.first.resp), 1)
    else if f.second.Response? then (VerdictOf(f.second.resp), 2)
    else (ToFinal(FAILED, [], f.second.msg, None), 2)
  }

  /** The store after processing an id, and the number of calls of Execute. */
  function Processed(c: Setup, st: Store, id: Id, f: Fate): (Store, nat) {
    if !f.load || Load(c.json, Stored(st, id)).Err? || !f.mark then (st, 0)
    else
      var (u, calls) := Outcome(c, Load(c.json, Stored(st, id)).value, f);
      var st' := Marked(st, id);
      (if f.finish && u.ToFinal? then
         Concluded(c.json, c.ttl, st', id, u.status, u.compileErr, u.errStr, u.results)
       else st',
       calls)
  }

  method Process(c: Setup, q: Queue, id: Id, f: Fate) returns (calls: nat)
    requires q.json == c.json && q.ttl == c.ttl
    modifies q
    ensures (q.View(), calls) == Processed(c, old(q.View()), id, f)
  {
    calls := 0;
    var loaded := q.LoadJob(id, f.load);
    if loaded.None? || loaded.value.Err? {
      return;
    }
    var job := loaded.value.value;
    var ok := q.SetRunning(id, f.mark);
    if !ok {
      return;
    }
    if job.language !in c.languages {
      ok := q.Finish(id, FAILED, [], UNKNOWN_LANGUAGE, None, f.finish);
      return;
    }
    var lastErr: Bytes := [];
    ghost var marked := q.View();
    for attempt := 1 to MAX_ATTEMPTS + 1
      invariant calls == attempt - 1 && q.View() == marked
      invariant attempt > 1 ==> f.first.Failure?
      invariant attempt > 2 ==> f.second.Failure? && lastErr == f.second.msg
    {
      var reply := if attempt == 1 then f.first else f.second;
      calls := calls + 1;
      if reply.Response? {
        if reply.resp.agentError != [] {
          ok := q.Finish(id, FAILED, [], AGENT_PREFIX + reply.resp.agentError, None, f.finish);
          return;
        }
        ok := q.Finish(id, DONE, reply.resp.compileError, [], reply.resp.results, f.finish);
        return;
      }
      lastErr := reply.msg;
    }
    ok := q.Finish(id, FAILED, [], lastErr, None, f.finish);
  }

  // ---------------------------------------------------------------- the same as a run

  lemma {:induction false} Then(c: Setup, s: State, run: seq<Step>, a: Step) returns (more: seq<Step>)
    requires Legal(c, s, run) && Enabled(c, After(c, s, run), a)
    ensures more == run + [a] && Legal(c, s, more)
    ensures After(c, s, more) == Apply(c, After(c, s, run), a)
    decreases |run|
  {
    more := run + [a];
    if run != [] {
      assert more[1..] == run[1..] + [a];
      var _ := Then(c, Apply(c, s, run[0]), run[1..], a);
    }
  }

  /** The calls of Execute for a loaded job of a known language. */
  lemma CallRun(c: Setup, s: State, w: nat, f: Fate) returns (run: seq<Step>)
    requires At(s, w) && s.workers[w].Calling? && s.workers[w].attempt == 1
    requires s.workers[w].job.language in c.languages
    ensures Legal(c, s, run)
    ensures var s' := After(c, s, run); var (u, calls) := Outcome(c, s.workers[w].job, f);
      && s'.store == s.store && s'.tally.Calls() == s.tally.Calls() + calls
      && s'.workers == s.workers[w := Finishing(s.workers[w].id, s.workers[w].job, u)]
  {
    run := Then(c, s, [], Call(w, f.first));
    if f.first.Failure? {
      run := Then(c, s, run, Call(w, f.second));
    }
  }

  lemma {:induction false} Join(c: Setup, s: State, a: seq<Step>, b: seq<Step>)
    requires Legal(c, s, a) && Legal(c, After(c, s, a), b)
    ensures Legal(c, s, a + b) && After(c, s, a + b) == After(c, After(c, s, a), b)
    decreases |a|
  {
    if a == [] {
      assert a + b == b;
    } else {
      assert (a + b)[1..] == a[1..] + b;
      Join(c, Apply(c, s, a[0]), a[1..], b);
    }
  }

  /** Load, mark and look: the worker gives up, or stands before its first call or its final write. */
  lemma StartRun(c: Setup, s: State, w: nat, f: Fate) returns (run: seq<Step>)
    requires At(s, w) && s.workers[w].Loading?
    ensures Legal(c, s, run)
    ensures var id := s.workers[w].id; var l := Load(c.json, Stored(s.store, id));
      var s' := After(c, s, run);
      && s'.tally == s.tally
      && (if !f.load || l.Err? || !f.mark then
            s'.store == s.store && s'.workers == s.workers[w := Idle]
          else
            && s'.store == Marked(s.store, id)
            && s'.workers == s.workers[w := if l.value.language in c.languages then Calling(id, l.value, 1)
                                            else Finishing(id, l.value, Outcome(c, l.value, f).0)])
  {
    run := Then(c, s, [], LoadJob(w, f.load));
    if f.load && Load(c.json, Stored(s.store, s.workers[w].id)).Ok? {
      run := Then(c, s, run, Mark(w, f.mark));
      if f.mark {
        run := Then(c, s, run, Look(w));
      }
    }
  }

  /** What Process does to the store is what a run of that worker's steps does. */
  lemma ProcessIsRun(c: Setup, s: State, w: nat, f: Fate) returns (run: seq<Step>)
    requires At(s, w) && s.workers[w].Loading?
    ensures Legal(c, s, run)
    ensures var s' := After(c, s, run); var (st, calls) := Processed(c, s.store, s.workers[w].id, f);
      && s'.store == st && s'.tally.Calls() == s.tally.Calls() + calls
      && s'.workers == s.workers[w := Idle]
  {
    run := StartRun(c, s, w, f);
    var s1 := After(c, s, run);
    if s1.workers[w].Calling? {
      var more := CallRun(c, s1, w, f);
      Join(c, s, run, more);
      run := run + more;
    }
    if !s1.workers[w].Idle? {
      run := Then(c, s, run, Finish(w, f.finish));
    }
  }
}

/** The invariant of the job protocol: initially, over every step, over every run. */
module JobInvariant {
  import opened Prelude
  import opened Proto
  import opened JobStore
  import opened JobProtocol

  // ---------------------------------------------------------------- the invariant

  function Rev(s: seq<Id>): (r: seq<Id>)
    ensures |r| == |s|
  {
    if s == [] then [] else [s[|s| - 1]] + Rev(s[..|s| - 1])
  }

  function Held(pc: Pc): Option<Id> {
    match pc
    case Idle => None
    case Stopped => None
    case _ => Some(pc.id)
  }

  ghost predicate Distinct(s: seq<Id>) {
    forall i, j :: 0 <= i < j < |s| ==> s[i] != s[j]
  }

  /** First in, first out: what was taken, then the list read from right to left. */
  ghost predicate QueueOk(s: State) {
    && s.order == s.taken + Rev(s.store.list)
    && Distinct(s.order)
    && (forall id :: id in s.record <==> id in s.order)
    && (forall id :: id in s.submitted <==> id in s.order)
    && (forall id :: id in s.submitted ==> id != [] && GoInts(s.submitted[id]))
  }

  /** Every stored hash reads back as the record; only expired keys are missing. */
  ghost predicate Reads(json: Json, hashes: map<Id, Hash>, expired: set<Id>, record: map<Id, Job>) {
    && (forall id :: id in hashes <==> id in record && id !in expired)
    && (forall id :: id in hashes ==> Load(json, hashes[id]) == Ok(record[id]))
  }

  ghost predicate StoreOk(c: Setup, s: State) {
    Reads(c.json, s.store.hashes, s.expired, s.record)
  }

  ghost predicate InHand(ws: seq<Pc>, id: Id) {
    exists w :: 0 <= w < |ws| && Held(ws[w]) == Some(id)
  }

  /** Every taken id is in one worker's hands, or finished, or given up. */
  ghost predicate Hands(ws: seq<Pc>, taken: seq<Id>, finished: set<Id>, faulted: set<Id>) {
    && (forall w :: 0 <= w < |ws| && Held(ws[w]).Some? ==>
          Held(ws[w]).value in taken && Held(ws[w]).value !in finished + faulted)
    && (forall v, w :: 0 <= v < w < |ws| && Held(ws[v]).Some? ==> Held(ws[v]) != Held(ws[w]))
    && (forall id :: id in finished ==> id in taken && id !in faulted)
    && (forall id :: id in faulted ==> id in taken)
    && (forall id :: id in taken ==> id in finished || id in faulted || InHand(ws, id))
  }

  ghost predicate HandsOk(s: State) {
    Hands(s.workers, s.taken, s.finished, s.faulted)
  }

  ghost function Fresh(c: Setup, s: State, id: Id): Job
    requires id in s.submitted
  {
    Accepted(c.json, s.submitted[id])
  }

  /** Results come only with status done. */
  ghost predicate Final(j: Job) {
    Terminal(j.status) && (j.results.Some? ==> j.status == DONE)
  }

  ghost predicate GoodVerdict(u: Update) {
    u.ToFinal? && Terminal(u.status) && (u.results.Some? ==> u.status == DONE)
  }

  ghost predicate WorkerOk(c: Setup, s: State, pc: Pc) {
    Held(pc).Some? ==>
      var id := Held(pc).value;
      && id in s.submitted && id in s.record && id !in s.expired
      && match pc
         case Loading(_) => s.record[id] == Fresh(c, s, id)
         case Marking(_, j) => s.record[id] == j == Fresh(c, s, id)
         case Looking(_, j) => j == Fresh(c, s, id) && s.record[id] == j.(status := RUNNING)
         case Calling(_, j, n) =>
           j == Fresh(c, s, id) && s.record[id] == j.(status := RUNNING) && 1 <= n <= MAX_ATTEMPTS
         case Finishing(_, j, u) =>
           j == Fresh(c, s, id) && s.record[id] == j.(status := RUNNING) && GoodVerdict(u)
         case _ => true
  }

  ghost predicate RecordOk(c: Setup, s: State, id: Id)
    requires id in s.record && id in s.submitted
  {
    && (id !in s.taken ==> s.record[id] == Fresh(c, s, id))
    && (id in s.finished ==> Final(s.record[id]))
    && (id in s.faulted ==> s.record[id] == Fresh(c, s, id)
                            || s.record[id] == Fresh(c, s, id).(status := RUNNING))
  }

  ghost predicate PhasesOk(c: Setup, s: State) {
    && (forall w :: 0 <= w < |s.workers| ==> WorkerOk(c, s, s.workers[w]))
    && (forall id :: id in s.record ==> id in s.submitted && RecordOk(c, s, id))
  }

  /** An expiry is set exactly on the keys of finished jobs, for a positive TTL. */
  ghost predicate ExpiryOk(c: Setup, s: State) {
    && (forall id :: id in s.store.expiring ==> id in s.finished && id !in s.expired)
    && (forall id :: id in s.expired ==> id in s.finished)
    && (c.ttl > 0 ==> forall id :: id in s.finished ==> id in s.store.expiring || id in s.expired)
    && (c.ttl <= 0 ==> s.store.expiring == {})
  }

  function Second(pc: Pc): nat {
    if pc.Calling? && pc.attempt == 2 then 1 else 0
  }

  /** A quantity summed over the workers. */
  function Sum(ws: seq<Pc>, f: Pc -> nat): nat {
    if ws == [] then 0 else f(ws[0]) + Sum(ws[1..], f)
  }

  /** Every failed first attempt has had its second one, or is about to. */
  ghost predicate TallyOk(s: State) {
    && s.tally.firstFails == s.tally.seconds + Sum(s.workers, Second)
    && s.tally.firstFails <= s.tally.firsts
    && s.tally.bothFail <= s.tally.seconds
  }

  ghost predicate Inv(c: Setup, s: State) {
    && QueueOk(s)
    && StoreOk(c, s)
    && HandsOk(s)
    && PhasesOk(c, s)
    && ExpiryOk(c, s)
    && TallyOk(s)
  }

  // ---------------------------------------------------------------- the list

  lemma {:induction false} RevCons(id: Id, s: seq<Id>)
    ensures Rev([id] + s) == Rev(s) + [id]
  {
    if s != [] {
      assert ([id] + s)[..|s|] == [id] + s[..|s| - 1];
      RevCons(id, s[..|s| - 1]);
    } else {
      assert [id] + s == [id] && [id][..0] == [];
    }
  }

  lemma {:induction false} RevMembers(s: seq<Id>, id: Id)
    ensures id in Rev(s) <==> id in s
  {
    if s != [] {
      assert s == s[..|s| - 1] + [s[|s| - 1]];
      RevMembers(s[..|s| - 1], id);
    }
  }

  /** The id a worker takes is the next one enqueued, and nobody took it before. */
  lemma PopNext(s: State)
    requires QueueOk(s) && s.store.list != []
    ensures var id := s.store.list[|s.store.list| - 1];
      && |s.taken| < |s.order| && s.order[|s.taken|] == id
      && id in s.order && id !in s.taken
  {
    var id := s.store.list[|s.store.list| - 1];
    assert Rev(s.store.list)[0] == id;
    assert s.order[|s.taken|] == id;
    forall i | 0 <= i < |s.taken| ensures s.taken[i] != id {
      assert s.order[i] == s.taken[i];
    }
  }

  // ---------------------------------------------------------------- steps

  lemma SubmitKeepsQueue(c: Setup, s: State, j: Job)
    requires QueueOk(s) && Enabled(c, s, Submit(j))
    ensures QueueOk(Apply(c, s, Submit(j)))
  {
    RevCons(j.id, s.store.list);
    assert s.taken + (Rev(s.store.list) + [j.id]) == s.order + [j.id];
  }

  lemma PopKeepsQueue(c: Setup, s: State, w: nat)
    requires QueueOk(s) && Enabled(c, s, Pop(w))
    ensures QueueOk(Apply(c, s, Pop(w)))
  {
    var id := s.store.list[|s.store.list| - 1];
    assert s.taken + ([id] + Rev(s.store.list[..|s.store.list| - 1])) == (s.taken + [id]) + Rev(Popped(s.store).list);
  }

  /** The other steps leave the queue's bookkeeping alone. */
  lemma SameQueue(c: Setup, s: State, a: Step)
    requires Enabled(c, s, a) && !a.Submit? && !a.Pop?
    ensures var s' := Apply(c, s, a);
      && s'.order == s.order && s'.taken == s.taken && s'.submitted == s.submitted
      && s'.store.list == s.store.list && s'.record.Keys == s.record.Keys
  {
  }

  lemma QueueKept(c: Setup, s: State, a: Step)
    requires QueueOk(s) && Enabled(c, s, a)
    ensures QueueOk(Apply(c, s, a))
  {
    match a
    case Submit(j) => SubmitKeepsQueue(c, s, j);
    case Pop(w) => PopKeepsQueue(c, s, w);
    case _ =>
      SameQueue(c, s, a);
      assert forall id :: id in Apply(c, s, a).record <==> id in s.record.Keys;
  }

  // ---------------------------------------------------------------- the store

  lemma ReadsUpdated(json: Json, st: Store, expired: set<Id>, record: map<Id, Job>, id: Id, u: Update)
    requires json.Lawful() && Reads(json, st.hashes, expired, record) && id in st.hashes
    ensures Reads(json, HSet(st, id, FieldsOf(json, u)).hashes, expired,
                  record[id := Updated(json, record[id], u)])
  {
    LoadUpdated(json, st.hashes[id], record[id], u);
  }

  lemma ReadsPut(json: Json, hashes: map<Id, Hash>, expired: set<Id>, record: map<Id, Job>, id: Id, h: Hash, j: Job)
    requires Reads(json, hashes, expired, record) && id !in expired && Load(json, h) == Ok(j)
    ensures Reads(json, hashes[id := h], expired, record[id := j])
  {
  }

  lemma ReadsEnqueued(json: Json, st: Store, expired: set<Id>, record: map<Id, Job>, j: Job)
    requires json.Lawful() && Reads(json, st.hashes, expired, record) && GoInts(j)
    requires j.id !in st.hashes && j.id !in expired
    ensures Reads(json, Enqueued(json, st, j).hashes, expired, record[j.id := Accepted(json, j)])
  {
    var h := EnqueueFields(json, j);
    LoadEnqueued(json, j);
    ReadsPut(json, st.hashes, expired, record, j.id, h, Accepted(json, j));
    assert map[] + h == h;
  }

  lemma SubmitKeepsStore(c: Setup, s: State, j: Job)
    requires c.json.Lawful() && QueueOk(s) && StoreOk(c, s) && Enabled(c, s, Submit(j)) && j.id !in s.expired
    ensures StoreOk(c, Apply(c, s, Submit(j)))
  {
    ReadsEnqueued(c.json, s.store, s.expired, s.record, j);
  }

  lemma MarkKeepsStore(c: Setup, s: State, w: nat, up: bool)
    requires c.json.Lawful() && StoreOk(c, s) && Enabled(c, s, Mark(w, up)) && WorkerOk(c, s, s.workers[w])
    ensures StoreOk(c, Apply(c, s, Mark(w, up)))
  {
    ReadsUpdated(c.json, s.store, s.expired, s.record, s.workers[w].id, ToRunning);
  }

  lemma FinishKeepsStore(c: Setup, s: State, w: nat, up: bool)
    requires c.json.Lawful() && StoreOk(c, s) && Enabled(c, s, Finish(w, up)) && WorkerOk(c, s, s.workers[w])
    ensures StoreOk(c, Apply(c, s, Finish(w, up)))
  {
    ReadsUpdated(c.json, s.store, s.expired, s.record, s.workers[w].id, s.workers[w].verdict);
  }

  lemma OtherKeepsStore(c: Setup, s: State, a: Step)
    requires StoreOk(c, s) && Enabled(c, s, a) && !a.Submit? && !a.Mark? && !a.Finish?
    ensures StoreOk(c, Apply(c, s, a))
  {
  }

  /** An expired id was enqueued. */
  lemma ExpiredWasEnqueued(c: Setup, s: State, id: Id)
    requires QueueOk(s) && HandsOk(s) && ExpiryOk(c, s) && id in s.expired
    ensures id in s.order
  {
    assert id in s.finished && id in s.taken;
  }

  lemma StoreKept(c: Setup, s: State, a: Step)
    requires c.json.Lawful() && Inv(c, s) && Enabled(c, s, a)
    ensures StoreOk(c, Apply(c, s, a))
  {
    match a
    case Submit(j) =>
      if j.id in s.expired {
        ExpiredWasEnqueued(c, s, j.id);
      }
      SubmitKeepsStore(c, s, j);
    case Mark(w, up) =>
      assert WorkerOk(c, s, s.workers[w]);
      MarkKeepsStore(c, s, w, up);
    case Finish(w, up) =>
      assert WorkerOk(c, s, s.workers[w]);
      FinishKeepsStore(c, s, w, up);
    case _ => OtherKeepsStore(c, s, a);
  }

  // ---------------------------------------------------------------- who has which id

  lemma HandsSame(ws: seq<Pc>, taken: seq<Id>, fin: set<Id>, fau: set<Id>, w: nat, pc: Pc)
    requires Hands(ws, taken, fin, fau) && w < |ws| && Held(pc) == Held(ws[w])
    ensures Hands(ws[w := pc], taken, fin, fau)
  {
    forall id | id in taken && InHand(ws, id) ensures InHand(ws[w := pc], id) {
      var v :| 0 <= v < |ws| && Held(ws[v]) == Some(id);
      assert Held(ws[w := pc][v]) == Some(id);
    }
  }

  lemma HandsTake(ws: seq<Pc>, taken: seq<Id>, fin: set<Id>, fau: set<Id>, w: nat, id: Id)
    requires Hands(ws, taken, fin, fau) && w < |ws| && Held(ws[w]).None? && id !in taken
    ensures Hands(ws[w := Loading(id)], taken + [id], fin, fau)
  {
    var ws' := ws[w := Loading(id)];
    assert Held(ws'[w]) == Some(id);
    forall i | i in taken && InHand(ws, i) ensures InHand(ws', i) {
      var v :| 0 <= v < |ws| && Held(ws[v]) == Some(i);
      assert Held(ws'[v]) == Some(i);
    }
  }

  lemma HandsDrop(ws: seq<Pc>, taken: seq<Id>, fin: set<Id>, fau: set<Id>, w: nat, done: bool)
    requires Hands(ws, taken, fin, fau) && w < |ws| && Held(ws[w]).Some?
    ensures var id := Held(ws[w]).value;
      Hands(ws[w := Idle], taken, if done then fin + {id} else fin, if done then fau else fau + {id})
  {
    var id := Held(ws[w]).value;
    forall i | i in taken && i != id && InHand(ws, i) ensures InHand(ws[w := Idle], i) {
      var v :| 0 <= v < |ws| && Held(ws[v]) == Some(i);
      assert Held(ws[w := Idle][v]) == Some(i);
    }
  }

  /** A step of worker w that keeps its id in hand, drops it as finished, or gives it up. */
  lemma WorkKeepsHands(c: Setup, s: State, a: Step)
    requires HandsOk(s) && Enabled(c, s, a) && (a.LoadJob? || a.Mark? || a.Finish?)
    ensures HandsOk(Apply(c, s, a))
  {
    var w := a.w;
    var pc := Apply(c, s, a).workers[w];
    if pc.Idle? {
      HandsDrop(s.workers, s.taken, s.finished, s.faulted, w, a.Finish? && a.up);
    } else {
      HandsSame(s.workers, s.taken, s.finished, s.faulted, w, pc);
    }
  }

  lemma PopKeepsHands(c: Setup, s: State, w: nat)
    requires QueueOk(s) && HandsOk(s) && Enabled(c, s, Pop(w))
    ensures HandsOk(Apply(c, s, Pop(w)))
  {
    PopNext(s);
    HandsTake(s.workers, s.taken, s.finished, s.faulted, w, s.store.list[|s.store.list| - 1]);
  }

  lemma OtherKeepsHands(c: Setup, s: State, a: Step)
    requires HandsOk(s) && Enabled(c, s, a) && !(a.LoadJob? || a.Mark? || a.Finish? || a.Pop?)
    ensures HandsOk(Apply(c, s, a))
  {
    if !a.Submit? && !a.Expire? {
      HandsSame(s.workers, s.taken, s.finished, s.faulted, a.w, Apply(c, s, a).workers[a.w]);
    }
  }

  lemma HandsKept(c: Setup, s: State, a: Step)
    requires QueueOk(s) && HandsOk(s) && Enabled(c, s, a)
    ensures HandsOk(Apply(c, s, a))
  {
    if a.LoadJob? || a.Mark? || a.Finish? {
      WorkKeepsHands(c, s, a);
    } else if a.Pop? {
      PopKeepsHands(c, s, a.w);
    } else {
      OtherKeepsHands(c, s, a);
    }
  }

  // ---------------------------------------------------------------- phases

  lemma FinishKeepsExpiry(c: Setup, s: State, w: nat, up: bool)
    requires HandsOk(s) && ExpiryOk(c, s) && Enabled(c, s, Finish(w, up)) && WorkerOk(c, s, s.workers[w])
    ensures ExpiryOk(c, Apply(c, s, Finish(w, up)))
  {
  }

  lemma OtherKeepsExpiry(c: Setup, s: State, a: Step)
    requires ExpiryOk(c, s) && Enabled(c, s, a) && !a.Finish?
    ensures ExpiryOk(c, Apply(c, s, a))
  {
  }

  lemma {:induction false} SumUpdate(ws: seq<Pc>, w: nat, pc: Pc, f: Pc -> nat)
    requires w < |ws|
    ensures Sum(ws[w := pc], f) + f(ws[w]) == Sum(ws, f) + f(pc)
  {
    if w == 0 {
      assert ws[w := pc][1..] == ws[1..];
    } else {
      assert ws[w := pc][1..] == ws[1..][w - 1 := pc];
      SumUpdate(ws[1..], w - 1, pc, f);
    }
  }

  lemma {:induction false} SumZero(ws: seq<Pc>, f: Pc -> nat)
    ensures Sum(ws, f) == 0 <==> forall w :: 0 <= w < |ws| ==> f(ws[w]) == 0
  {
    if ws != [] {
      SumZero(ws[1..], f);
      assert forall w :: 1 <= w < |ws| ==> ws[w] == ws[1..][w - 1];
    }
  }

  lemma CallKeepsTally(c: Setup, s: State, w: nat, reply: Reply)
    requires TallyOk(s) && Enabled(c, s, Call(w, reply)) && 1 <= s.workers[w].attempt <= MAX_ATTEMPTS
    ensures TallyOk(Apply(c, s, Call(w, reply)))
  {
    SumUpdate(s.workers, w, Apply(c, s, Call(w, reply)).workers[w], Second);
  }

  lemma OtherKeepsTally(c: Setup, s: State, a: Step)
    requires TallyOk(s) && Enabled(c, s, a) && !a.Call?
    ensures TallyOk(Apply(c, s, a))
  {
    if !a.Submit? && !a.Expire? {
      SumUpdate(s.workers, a.w, Apply(c, s, a).workers[a.w], Second);
    }
  }

  // ---------------------------------------------------------------- what workers know

  /** The records of other ids are left alone. */
  ghost predicate Elsewhere(s: State, s': State, id: Id) {
    forall i :: i != id && i in s.record && i in s.submitted ==>
      && i in s'.record && s'.record[i] == s.record[i]
      && i in s'.submitted && s'.submitted[i] == s.submitted[i]
      && (i in s'.taken <==> i in s.taken)
      && (i in s'.finished <==> i in s.finished) && (i in s'.faulted <==> i in s.faulted)
      && (i in s'.expired <==> i in s.expired)
  }

  lemma WorkerStable(c: Setup, s: State, s': State, id: Id, pc: Pc)
    requires WorkerOk(c, s, pc) && Elsewhere(s, s', id) && Held(pc) != Some(id)
    ensures WorkerOk(c, s', pc)
  {
  }

  /**
    A step by worker w on its own id keeps all phases, provided it keeps that worker's and that
    record's.
  */
  lemma PhasesAt(c: Setup, s: State, s': State, w: nat, id: Id)
    requires PhasesOk(c, s) && HandsOk(s) && w < |s.workers| && Elsewhere(s, s', id)
    requires |s'.workers| == |s.workers| && s'.workers == s.workers[w := s'.workers[w]]
    requires forall v :: 0 <= v < |s.workers| && v != w ==> Held(s.workers[v]) != Some(id)
    requires WorkerOk(c, s', s'.workers[w])
    requires s'.record.Keys <= s.record.Keys + {id}
    requires id in s'.record ==> id in s'.submitted && RecordOk(c, s', id)
    ensures PhasesOk(c, s')
  {
    forall v | 0 <= v < |s'.workers| ensures WorkerOk(c, s', s'.workers[v]) {
      if v != w {
        WorkerStable(c, s, s', id, s.workers[v]);
      }
    }
    forall i | i in s'.record ensures i in s'.submitted && RecordOk(c, s', i) {
      if i != id {
        assert RecordOk(c, s, i);
      }
    }
  }

  /** Nobody else holds the id that worker w holds. */
  lemma SoleHolder(s: State, w: nat, id: Id)
    requires HandsOk(s) && w < |s.workers| && Held(s.workers[w]) == Some(id)
    ensures forall v :: 0 <= v < |s.workers| && v != w ==> Held(s.workers[v]) != Some(id)
  {
  }

  lemma SubmitKeepsPhases(c: Setup, s: State, j: Job)
    requires QueueOk(s) && HandsOk(s) && PhasesOk(c, s) && ExpiryOk(c, s) && Enabled(c, s, Submit(j))
    ensures PhasesOk(c, Apply(c, s, Submit(j)))
  {
    var s' := Apply(c, s, Submit(j));
    assert forall i :: i in s.taken ==> i in s.order;
    forall v | 0 <= v < |s.workers| ensures WorkerOk(c, s', s'.workers[v]) {
      WorkerStable(c, s, s', j.id, s.workers[v]);
    }
    forall i | i in s'.record ensures i in s'.submitted && RecordOk(c, s', i) {
      if i != j.id {
        assert RecordOk(c, s, i);
      }
    }
  }

  lemma PopKeepsPhases(c: Setup, s: State, w: nat)
    requires QueueOk(s) && HandsOk(s) && PhasesOk(c, s) && ExpiryOk(c, s) && Enabled(c, s, Pop(w))
    ensures PhasesOk(c, Apply(c, s, Pop(w)))
  {
    var id := s.store.list[|s.store.list| - 1];
    PopNext(s);
    assert RecordOk(c, s, id);
    PhasesAt(c, s, Apply(c, s, Pop(w)), w, id);
  }

  /** A worker that loads a job finds it, well-formed, exactly as it was submitted. */
  lemma LoadFinds(c: Setup, s: State, w: nat)
    requires PhasesOk(c, s) && StoreOk(c, s) && w < |s.workers| && s.workers[w].Loading?
    ensures s.workers[w].id in s.submitted && s.workers[w].id in s.record
    ensures Load(c.json, Stored(s.store, s.workers[w].id)) == Ok(Fresh(c, s, s.workers[w].id))
  {
    assert WorkerOk(c, s, s.workers[w]);
  }

  lemma LoadOutcome(c: Setup, s: State, w: nat, up: bool)
    requires PhasesOk(c, s) && StoreOk(c, s) && Enabled(c, s, LoadJob(w, up))
    ensures var id := s.workers[w].id;
      && id in s.submitted
      && Apply(c, s, LoadJob(w, up)) == if up then Goto(s, w, Marking(id, Fresh(c, s, id))) else GiveUp(s, w, id)
  {
    LoadFinds(c, s, w);
  }

  lemma GiveUpKeepsPhases(c: Setup, s: State, w: nat)
    requires HandsOk(s) && PhasesOk(c, s) && At(s, w) && Held(s.workers[w]).Some?
    ensures PhasesOk(c, GiveUp(s, w, Held(s.workers[w]).value))
  {
    var id := Held(s.workers[w]).value;
    assert WorkerOk(c, s, s.workers[w]) && RecordOk(c, s, id);
    SoleHolder(s, w, id);
    PhasesAt(c, s, GiveUp(s, w, id), w, id);
  }

  lemma FoundKeepsPhases(c: Setup, s: State, w: nat, id: Id)
    requires HandsOk(s) && PhasesOk(c, s) && At(s, w) && s.workers[w] == Loading(id) && id in s.submitted
    ensures PhasesOk(c, Goto(s, w, Marking(id, Fresh(c, s, id))))
  {
    assert WorkerOk(c, s, s.workers[w]) && RecordOk(c, s, id);
    SoleHolder(s, w, id);
    PhasesAt(c, s, Goto(s, w, Marking(id, Fresh(c, s, id))), w, id);
  }

  lemma LoadKeepsPhases(c: Setup, s: State, w: nat, up: bool)
    requires HandsOk(s) && PhasesOk(c, s) && StoreOk(c, s) && Enabled(c, s, LoadJob(w, up))
    ensures PhasesOk(c, Apply(c, s, LoadJob(w, up)))
  {
    LoadOutcome(c, s, w, up);
    if up {
      FoundKeepsPhases(c, s, w, s.workers[w].id);
    } else {
      GiveUpKeepsPhases(c, s, w);
    }
  }

  lemma MarkKeepsPhases(c: Setup, s: State, w: nat, up: bool)
    requires HandsOk(s) && PhasesOk(c, s) && Enabled(c, s, Mark(w, up))
    ensures PhasesOk(c, Apply(c, s, Mark(w, up)))
  {
    if !up {
      GiveUpKeepsPhases(c, s, w);
    } else {
      var id := s.workers[w].id;
      assert WorkerOk(c, s, s.workers[w]) && RecordOk(c, s, id);
      SoleHolder(s, w, id);
      PhasesAt(c, s, Apply(c, s, Mark(w, up)), w, id);
    }
  }

  lemma LookKeepsPhases(c: Setup, s: State, w: nat)
    requires HandsOk(s) && PhasesOk(c, s) && Enabled(c, s, Look(w))
    ensures PhasesOk(c, Apply(c, s, Look(w)))
  {
    var id := s.workers[w].id;
    assert WorkerOk(c, s, s.workers[w]) && RecordOk(c, s, id);
    SoleHolder(s, w, id);
    PhasesAt(c, s, Apply(c, s, Look(w)), w, id);
  }

  lemma CallKeepsPhases(c: Setup, s: State, w: nat, reply: Reply)
    requires HandsOk(s) && PhasesOk(c, s) && Enabled(c, s, Call(w, reply))
    ensures PhasesOk(c, Apply(c, s, Call(w, reply)))
  {
    var id := s.workers[w].id;
    assert WorkerOk(c, s, s.workers[w]) && RecordOk(c, s, id);
    SoleHolder(s, w, id);
    PhasesAt(c, s, Apply(c, s, Call(w, reply)), w, id);
  }

  lemma FinishKeepsPhases(c: Setup, s: State, w: nat, up: bool)
    requires HandsOk(s) && PhasesOk(c, s) && Enabled(c, s, Finish(w, up))
    ensures PhasesOk(c, Apply(c, s, Finish(w, up)))
  {
    if !up {
      GiveUpKeepsPhases(c, s, w);
    } else {
      var id := s.workers[w].id;
      assert WorkerOk(c, s, s.workers[w]) && RecordOk(c, s, id);
      SoleHolder(s, w, id);
      PhasesAt(c, s, Apply(c, s, Finish(w, up)), w, id);
    }
  }

  lemma IdleKeepsPhases(c: Setup, s: State, a: Step)
    requires HandsOk(s) && PhasesOk(c, s) && ExpiryOk(c, s) && Enabled(c, s, a) && (a.Stop? || a.Expire?)
    ensures PhasesOk(c, Apply(c, s, a))
  {
    var s' := Apply(c, s, a);
    forall v | 0 <= v < |s'.workers| ensures WorkerOk(c, s', s'.workers[v]) {
      assert WorkerOk(c, s, s.workers[v]);
    }
    forall i | i in s'.record ensures i in s'.submitted && RecordOk(c, s', i) {
      assert RecordOk(c, s, i);
    }
  }

  lemma PhasesKept(c: Setup, s: State, a: Step)
    requires Inv(c, s) && Enabled(c, s, a)
    ensures PhasesOk(c, Apply(c, s, a))
  {
    match a
    case Submit(j) => SubmitKeepsPhases(c, s, j);
    case Pop(w) => PopKeepsPhases(c, s, w);
    case LoadJob(w, up) => LoadKeepsPhases(c, s, w, up);
    case Mark(w, up) => MarkKeepsPhases(c, s, w, up);
    case Look(w) => LookKeepsPhases(c, s, w);
    case Call(w, reply) => CallKeepsPhases(c, s, w, reply);
    case Finish(w, up) => FinishKeepsPhases(c, s, w, up);
    case Stop(_) => IdleKeepsPhases(c, s, a);
    case Expire(_) => IdleKeepsPhases(c, s, a);
  }

  lemma StepKeeps(c: Setup, s: State, a: Step)
    requires c.json.Lawful() && Inv(c, s) && Enabled(c, s, a)
    ensures Inv(c, Apply(c, s, a))
  {
    QueueKept(c, s, a);
    StoreKept(c, s, a);
    HandsKept(c, s, a);
    PhasesKept(c, s, a);
    if a.Finish? {
      assert WorkerOk(c, s, s.workers[a.w]);
      FinishKeepsExpiry(c, s, a.w, a.up);
    } else {
      OtherKeepsExpiry(c, s, a);
    }
    if a.Call? {
      assert WorkerOk(c, s, s.workers[a.w]);
      CallKeepsTally(c, s, a.w, a.reply);
    } else {
      OtherKeepsTally(c, s, a);
    }
  }

  lemma InitInv(c: Setup, n: nat)
    ensures Inv(c, Init(n))
  {
    SumZero(Workers(n), Second);
  }

  lemma {:induction false} RunInv(c: Setup, s: State, run: seq<Step>)
    requires c.json.Lawful() && Inv(c, s) && Legal(c, s, run)
    ensures Inv(c, After(c, s, run))
    decreases |run|
  {
    if run != [] {
      StepKeeps(c, s, run[0]);
      RunInv(c, Apply(c, s, run[0]), run[1..]);
    }
  }

  /** A state that n workers and their clients can reach from an empty store. */
  ghost predicate Reachable(c: Setup, n: nat, s: State) {
    exists run :: Legal(c, Init(n), run) && After(c, Init(n), run) == s
  }

  lemma ReachableInv(c: Setup, n: nat, s: State)
    requires c.json.Lawful() && Reachable(c, n, s)
    ensures Inv(c, s)
  {
    var run :| Legal(c, Init(n), run) && After(c, Init(n), run) == s;
    InitInv(c, n);
    RunInv(c, Init(n), run);
  }
}

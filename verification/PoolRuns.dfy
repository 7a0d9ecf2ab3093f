/** The invariant over the steps of Close and of the environment, initially, and over runs. */
module PoolRuns {
  import opened PoolProtocol
  import opened PoolAccounting
  import opened PoolInvariant

  // ---------------------------------------------------------------- Close

  /** wg.Wait has returned: no refill is left that could still offer a VM. */
  lemma WaitedOut(c: Config, s: State, i: nat)
    requires Inv(c, s) && s.sh.wg == 0 && i < |s.threads| && s.threads[i].role.Refill?
    ensures s.threads[i].pc.Finished?
  {
    assert Conserved(Live);
    TotalBounds(s.threads, i, Live);
  }

  lemma CloseKeepsThreads(c: Config, s: State, l: Lang)
    requires Inv(c, s) && CanClose(s.sh, l)
    ensures ThreadsOk(c, s.(sh := CloseMove(s.sh, l)))
  {
    var k := s.sh.stock;
    var k' := CloseMove(s.sh, l).stock;
    forall i | 0 <= i < |s.threads| ensures ThreadOk(c, k', s.threads[i]) {
      var t := s.threads[i];
      if k.closer.Waiting? {
        if t.role.Refill? {
          WaitedOut(c, s, i);
        }
      } else {
        assert Grows(k, k');
        ThreadStable(c, k, k', t);
      }
    }
  }

  /** The drain loop receives a VM. */
  lemma PopKeepsStock(c: Config, sh: Shared, l: Lang)
    requires StockOk(c, sh.stock) && CanClose(sh, l) && sh.stock.closer.Draining?
    requires sh.stock.closer.vm.None? && sh.stock.closer.cur.Some?
    ensures StockOk(c, DrainMove(sh, l).stock)
  {
    var k := sh.stock;
    var k' := DrainMove(sh, l).stock;
    assert ChanOk(k, k.closer.cur.value);
    forall j | j in k'.chans ensures ChanOk(k', j) {
      assert ChanOk(k, j);
    }
  }

  /** The drain loop closes the next channel. */
  lemma NextKeepsStock(c: Config, sh: Shared, l: Lang)
    requires StockOk(c, sh.stock) && CanClose(sh, l) && sh.stock.closer.Draining?
    requires sh.stock.closer.vm.None? && sh.stock.closer.cur.None?
    ensures StockOk(c, DrainMove(sh, l).stock)
  {
    var k := sh.stock;
    var k' := DrainMove(sh, l).stock;
    forall j | j in k'.chans ensures ChanOk(k', j) {
      assert ChanOk(k, j);
    }
  }

  lemma CloseKeepsStock(c: Config, sh: Shared, l: Lang)
    requires StockOk(c, sh.stock) && CanClose(sh, l)
    ensures StockOk(c, CloseMove(sh, l).stock)
  {
    var k := sh.stock;
    if k.closer.Draining? && k.closer.vm.None? {
      if k.closer.cur.Some? {
        PopKeepsStock(c, sh, l);
      } else {
        NextKeepsStock(c, sh, l);
      }
    } else {
      var k' := CloseMove(sh, l).stock;
      forall j | j in k'.chans ensures ChanOk(k', j) {
        assert ChanOk(k, j);
      }
    }
  }

  lemma CloseKeepsFlags(c: Config, sh: Shared, l: Lang)
    requires StockOk(c, sh.stock) && FlagsOk(c, sh) && CanClose(sh, l)
    ensures FlagsOk(c, CloseMove(sh, l))
  {
    if l in sh.stock.chans {
      assert ChanOk(sh.stock, l);
    }
  }

  lemma PopHolds(c: Config, sh: Shared, l: Lang, v: Vm)
    requires StockOk(c, sh.stock) && CanClose(sh, l) && sh.stock.closer.Draining?
    requires sh.stock.closer.vm.None? && sh.stock.closer.cur.Some?
    ensures Balance(c, DrainMove(sh, l), Hold(v)) == Balance(c, sh, Hold(v))
    ensures InQueue(DrainMove(sh, l).stock, v) <= InQueue(sh.stock, v)
  {
    var k := sh.stock;
    if k.chans[k.closer.cur.value].queue != [] {
      QueuePop(k, k.closer.cur.value, v);
    }
  }

  /** Close only moves VMs from a channel to its own hand, and from there to the killed ones. */
  lemma CloseHolds(c: Config, sh: Shared, l: Lang, v: Vm)
    requires StockOk(c, sh.stock) && CanClose(sh, l)
    requires InHand(sh.stock).Some? ==> InHand(sh.stock).value !in sh.killed
    ensures Balance(c, CloseMove(sh, l), Hold(v)) == Balance(c, sh, Hold(v))
    ensures InQueue(CloseMove(sh, l).stock, v) <= InQueue(sh.stock, v)
  {
    var k := sh.stock;
    if k.closer.Draining? && k.closer.vm.None? && k.closer.cur.Some? {
      PopHolds(c, sh, l, v);
    }
  }

  lemma CloseCounts(c: Config, sh: Shared, l: Lang, m: Meter)
    requires CanClose(sh, l) && Counter(m)
    ensures Balance(c, CloseMove(sh, l), m) == Balance(c, sh, m)
  {
  }

  lemma CloseKeeps(c: Config, s: State, l: Lang)
    requires Inv(c, s) && CanClose(s.sh, l)
    ensures Inv(c, Apply(c, s, Close(l)))
  {
    var s' := Apply(c, s, Close(l));
    CloseKeepsThreads(c, s, l);
    CloseKeepsStock(c, s.sh, l);
    CloseKeepsFlags(c, s.sh, l);
    if InHand(s.sh.stock).Some? {
      assert Conserved(Hold(InHand(s.sh.stock).value));
    }
    forall m | Conserved(m) ensures Balance(c, s'.sh, m) + Total(s'.threads, m) == 0 {
      if m.Hold? {
        CloseHolds(c, s.sh, l, m.v);
      } else {
        CloseCounts(c, s.sh, l, m);
      }
    }
    forall v: Vm ensures InQueue(s'.sh.stock, v) + Total(s'.threads, Claim(v)) <= 1 {
      CloseHolds(c, s.sh, l, v);
    }
  }

  // ---------------------------------------------------------------- the environment

  lemma CallKeeps(c: Config, s: State, langID: Lang)
    requires Inv(c, s)
    ensures Inv(c, Apply(c, s, Call(langID)))
  {
    var s' := Apply(c, s, Call(langID));
    var r := NewRequest(c, langID);
    forall m: Meter ensures Total(s'.threads, m) == Total(s.threads, m) + Weight(r, m) {
      TotalConcat(s.threads, [r], m);
      assert [r][1..] == [];
    }
    assert forall m: Meter :: Weight(r, m) == 0;
  }

  lemma FireWeight(t: Thread, m: Meter)
    requires t.role.Request?
    ensures Weight(t.(role := t.role.(ctxDone := true)), m) == Weight(t, m)
  {
  }

  lemma FireKeeps(c: Config, s: State, i: nat)
    requires Inv(c, s) && Enabled(c, s, Fire(i))
    ensures Inv(c, Apply(c, s, Fire(i)))
  {
    var s' := Apply(c, s, Fire(i));
    forall m: Meter ensures Total(s'.threads, m) == Total(s.threads, m) {
      TotalUpdate(s.threads, i, s'.threads[i], m);
      FireWeight(s.threads[i], m);
    }
    assert ThreadOk(c, s.sh.stock, s'.threads[i]) by {
      assert ThreadOk(c, s.sh.stock, s.threads[i]);
    }
  }

  lemma StepKeeps(c: Config, s: State, a: Step)
    requires Inv(c, s) && Enabled(c, s, a)
    ensures Inv(c, Apply(c, s, a))
  {
    match a
    case Run(i, quit) => RunKeeps(c, s, i, quit);
    case Close(l) => CloseKeeps(c, s, l);
    case Call(langID) => CallKeeps(c, s, langID);
    case Fire(i) => FireKeeps(c, s, i);
  }

  // ---------------------------------------------------------------- the first state

  lemma {:induction false} TotalRepeat(t: Thread, n: nat, m: Meter)
    requires Weight(t, m) <= 1
    ensures Total(Repeat(t, n), m) == if Weight(t, m) == 0 then 0 else n
    ensures |Repeat(t, n)| == n
  {
    if n > 0 {
      TotalRepeat(t, n - 1, m);
      TotalConcat(Repeat(t, n - 1), [t], m);
      assert [t][1..] == [];
    }
  }

  lemma {:induction false} RepeatAt(t: Thread, n: nat, i: nat)
    requires i < |Repeat(t, n)|
    ensures Repeat(t, n)[i] == t
  {
    if n > 0 && i < |Repeat(t, n - 1)| {
      RepeatAt(t, n - 1, i);
    }
  }

  lemma {:induction false} SpawnedAt(channels: seq<Lang>, n: nat, i: nat)
    requires i < |Spawned(channels, n)|
    ensures Spawned(channels, n)[i].key in channels
    ensures Spawned(channels, n)[i] == NewRefill(Spawned(channels, n)[i].key)
  {
    var most, last := channels[..|channels| - 1], channels[|channels| - 1];
    if i < |Spawned(most, n)| {
      SpawnedAt(most, n, i);
    } else {
      RepeatAt(NewRefill(last), n, i - |Spawned(most, n)|);
    }
  }

  function SpawnedTotal(channels: seq<Lang>, n: nat, m: Meter): nat {
    match m
    case Live => n * |channels|
    case Population => n * |channels|
    case Slot(l) => if l in channels then n else 0
    case Running(l) => if l in channels then n else 0
    case _ => 0
  }

  lemma OneMore(channels: seq<Lang>, last: Lang, n: nat, m: Meter)
    requires last !in channels && !m.Work?
    ensures SpawnedTotal(channels + [last], n, m)
         == SpawnedTotal(channels, n, m) + if Weight(NewRefill(last), m) == 0 then 0 else n
  {
    assert n * (|channels| + 1) == n * |channels| + n;
  }

  /** A new pool has `n` unfinished refills, hence `n` slots, for each channel. */
  lemma {:induction false} TotalSpawned(channels: seq<Lang>, n: nat, m: Meter)
    requires forall i, j :: 0 <= i < j < |channels| ==> channels[i] != channels[j]
    requires !m.Work?
    ensures Total(Spawned(channels, n), m) == SpawnedTotal(channels, n, m)
  {
    if channels != [] {
      var most, last := channels[..|channels| - 1], channels[|channels| - 1];
      TotalSpawned(most, n, m);
      assert Weight(NewRefill(last), m) <= 1;
      TotalRepeat(NewRefill(last), n, m);
      TotalConcat(Spawned(most, n), Repeat(NewRefill(last), n), m);
      assert channels == most + [last];
      OneMore(most, last, n, m);
    }
  }

  lemma InitInv(c: Config)
    requires c.Valid()
    ensures Inv(c, Init(c))
  {
    var s := Init(c);
    assert s.sh.stock.chans.Keys == c.Keys();
    forall m: Meter | !m.Work?
      ensures Conserved(m) ==> Balance(c, s.sh, m) + Total(s.threads, m) == 0
      ensures m.Claim? ==> Total(s.threads, m) == 0
    {
      TotalSpawned(c.Channels(), c.Capacity(), m);
    }
    forall i | 0 <= i < |s.threads| ensures ThreadOk(c, s.sh.stock, s.threads[i]) {
      SpawnedAt(c.Channels(), c.Capacity(), i);
    }
  }

  // ---------------------------------------------------------------- runs

  lemma {:induction false} RunInv(c: Config, s: State, run: seq<Step>)
    requires Inv(c, s) && Legal(c, s, run)
    ensures Inv(c, After(c, s, run))
    decreases |run|
  {
    if run != [] {
      StepKeeps(c, s, run[0]);
      RunInv(c, Apply(c, s, run[0]), run[1..]);
    }
  }

  /** A state some interleaving leads to from a new pool. */
  ghost predicate Reachable(c: Config, s: State) {
    exists run :: Legal(c, Init(c), run) && After(c, Init(c), run) == s
  }

  lemma ReachableInv(c: Config, s: State)
    requires c.Valid() && Reachable(c, s)
    ensures Inv(c, s)
  {
    var run :| Legal(c, Init(c), run) && After(c, Init(c), run) == s;
    InitInv(c);
    RunInv(c, Init(c), run);
  }
}

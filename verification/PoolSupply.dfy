/** Slots of a channel that are lost for good, and when a waiting Acquire can still be served. */
module PoolSupply {
  import opened Prelude
  import opened PoolProtocol
  import opened PoolAccounting
  import opened PoolInvariant
  import opened PoolRuns
  import opened PoolTheorems
  import opened PoolLiveness

  // ---------------------------------------------------------------- lost slots

  predicate Wasted(m: Meter) {
    m.Lost? || m.Gone?
  }

  lemma MoveWastes(c: Config, sh: Shared, t: Thread, quit: bool, m: Meter)
    requires CanMove(c, sh, t, quit) && Wasted(m)
    ensures Weight(Move(c, sh, t, quit).t, m) >= Weight(t, m)
  {
  }

  lemma WasteNeverFalls(c: Config, s: State, a: Step, m: Meter)
    requires Enabled(c, s, a) && Wasted(m)
    ensures Total(Apply(c, s, a).threads, m) >= Total(s.threads, m)
  {
    match a
    case Run(i, quit) =>
      var o := Move(c, s.sh, s.threads[i], quit);
      TotalStep(s.threads, i, o.t, o.kids, m);
      MoveWastes(c, s.sh, s.threads[i], quit, m);
    case Close(_) =>
    case Call(langID) => TotalConcat(s.threads, [NewRequest(c, langID)], m);
    case Fire(i) =>
      TotalUpdate(s.threads, i, Apply(c, s, a).threads[i], m);
      FireWeight(s.threads[i], m);
  }

  /** Over any run, what failed boots have cost a channel never falls. */
  lemma {:induction false} LossOverRun(c: Config, s: State, run: seq<Step>, m: Meter)
    requires Legal(c, s, run) && Wasted(m)
    ensures Total(After(c, s, run).threads, m) >= Total(s.threads, m)
    decreases |run|
  {
    if run != [] {
      WasteNeverFalls(c, s, run[0], m);
      LossOverRun(c, Apply(c, s, run[0]), run[1..], m);
    }
  }

  lemma {:induction false} LostIsGone(ts: seq<Thread>, l: Lang)
    ensures Total(ts, Lost(l)) <= Total(ts, Gone(l)) <= Total(ts, Slot(l))
  {
    if ts != [] {
      LostIsGone(ts[1..], l);
    }
  }

  /** Queued VMs and hopeless refills together never exceed the capacity. */
  lemma RoomLeft(c: Config, s: State, l: Lang)
    requires Inv(c, s) && l in c.Keys()
    ensures l in s.sh.stock.chans
    ensures |s.sh.stock.chans[l].queue| + Total(s.threads, Gone(l)) <= c.Capacity()
    ensures Total(s.threads, Lost(l)) <= Total(s.threads, Gone(l))
  {
    assert Conserved(Slot(l));
    LostIsGone(s.threads, l);
  }

  /**
    When every slot of a channel is lost, or held by a refill that can only fail, no later receive
    on it yields a VM: a prewarmed Acquire can only fail or see the channel closed, and
    ondemand_spare boots cold while it is open.
  */
  lemma LostForGood(c: Config, s: State, run: seq<Step>, i: nat, l: Lang)
    requires c.Valid() && Reachable(c, s) && Legal(c, s, run) && l in c.Keys()
    requires Total(s.threads, Gone(l)) == c.Capacity()
    requires i < |After(c, s, run).threads|
    requires After(c, s, run).threads[i].pc.Recv? && After(c, s, run).threads[i].key == l
    ensures var s1 := After(c, s, run);
      var t := s1.threads[i];
      && (CanMove(c, s1.sh, t, false) <==> t.role.Request? && (!Open(s1, l) || c.strategy.Spare?))
      && (CanMove(c, s1.sh, t, false) ==>
            Move(c, s1.sh, t, false).t.pc == if Open(s1, l) then Want else Recheck(None))
  {
    ReachableInv(c, s);
    RunInv(c, s, run);
    var s1 := After(c, s, run);
    LossOverRun(c, s, run, Gone(l));
    RoomLeft(c, s1, l);
    assert ThreadOk(c, s1.sh.stock, s1.threads[i]);
  }

  // ---------------------------------------------------------------- no supply, no VM

  /** An open prewarmed pool. */
  ghost predicate Prewarmed(c: Config, s: State) {
    Inv(c, s) && !s.sh.closed && !c.strategy.Spare?
  }

  /** Neither Close nor the end of a request's context interferes. */
  predicate Undisturbed(run: seq<Step>) {
    forall k :: 0 <= k < |run| ==> run[k].Run? || run[k].Call?
  }

  lemma StaysPrewarmed(c: Config, s: State, a: Step)
    requires Prewarmed(c, s) && Enabled(c, s, a) && (a.Run? || a.Call?)
    ensures Prewarmed(c, Apply(c, s, a))
  {
    StepKeeps(c, s, a);
    if a.Run? {
      SameCloser(c, s.sh, s.threads[a.i], a.quit);
    }
  }

  lemma SameCloser(c: Config, sh: Shared, t: Thread, quit: bool)
    requires CanMove(c, sh, t, quit)
    ensures Move(c, sh, t, quit).sh.closed == sh.closed
  {
  }

  /** Waiting in vain, or given up waiting. */
  ghost predicate Starved(c: Config, s: State, i: nat) {
    && i < |s.threads| && s.threads[i].role.Request? && s.threads[i].role.got.None?
    && s.threads[i].key in c.Keys()
    && (s.threads[i].pc.Recv? || s.threads[i].pc.Finished?)
    && Total(s.threads, Gone(s.threads[i].key)) >= c.Capacity()
  }

  lemma StarvedCannotReceive(c: Config, s: State, i: nat)
    requires Prewarmed(c, s) && Starved(c, s, i)
    ensures !CanMove(c, s.sh, s.threads[i], false)
  {
    RoomLeft(c, s, s.threads[i].key);
    assert ChanOk(s.sh.stock, s.threads[i].key);
  }

  lemma StaysStarved(c: Config, s: State, a: Step, i: nat)
    requires Prewarmed(c, s) && Starved(c, s, i) && Enabled(c, s, a) && (a.Run? || a.Call?)
    ensures Starved(c, Apply(c, s, a), i)
  {
    StarvedCannotReceive(c, s, i);
    WasteNeverFalls(c, s, a, Gone(s.threads[i].key));
  }

  lemma {:induction false} StarvedOverRun(c: Config, s: State, run: seq<Step>, i: nat)
    requires Prewarmed(c, s) && Starved(c, s, i) && Legal(c, s, run) && Undisturbed(run)
    ensures Starved(c, After(c, s, run), i)
    decreases |run|
  {
    if run != [] {
      StaysStarved(c, s, run[0], i);
      StaysPrewarmed(c, s, run[0]);
      StarvedOverRun(c, Apply(c, s, run[0]), run[1..], i);
    }
  }

  // ---------------------------------------------------------------- supply, and a VM

  /** A refill that can still deliver to channel l. */
  predicate Promising(t: Thread, l: Lang) {
    && t.role.Refill? && t.key == l
    && (Starting(t.pc) || t.pc.Up? || t.pc.Offer? || (t.pc.Out? && t.pc.r.Some?))
  }

  ghost predicate Waits(s: State, i: nat, l: Lang) {
    i < |s.threads| && s.threads[i].role.Request? && s.threads[i].pc.Recv? && s.threads[i].key == l
  }

  /** Thread i has received a VM after the run. */
  ghost predicate Served(c: Config, s: State, run: seq<Step>, i: nat) {
    && Legal(c, s, run) && i < |After(c, s, run).threads|
    && After(c, s, run).threads[i].role.Request? && After(c, s, run).threads[i].role.got.Some?
  }

  /** A promising refill can move, or waits for a token that some other refill can bring forward. */
  lemma Helper(c: Config, s: State, k: nat, l: Lang) returns (j: nat)
    requires Prewarmed(c, s) && k < |s.threads| && Promising(s.threads[k], l)
    ensures j < |s.threads| && s.threads[j].role.Refill? && CanMove(c, s.sh, s.threads[j], false)
    ensures j != k ==> !s.threads[j].pc.Offer? && s.threads[k].pc.Want?
  {
    j := k;
    if !s.threads[k].pc.Want? {
      var quit := BootingCanMove(c, s, k);
    } else if s.sh.sem >= c.Tokens() {
      assert Conserved(Token);
      j := TotalPositive(s.threads, Token);
      assert ThreadOk(c, s.sh.stock, s.threads[j]);
      var quit := BootingCanMove(c, s, j);
    }
  }

  /** A refill's successful step brings a VM into the channel or keeps the refill promising. */
  lemma HelperMoves(c: Config, s: State, j: nat, k: nat, l: Lang)
    requires Prewarmed(c, s) && k < |s.threads| && Promising(s.threads[k], l) && l in s.sh.stock.chans
    requires j < |s.threads| && s.threads[j].role.Refill? && CanMove(c, s.sh, s.threads[j], false)
    ensures var s' := Apply(c, s, Run(j, false));
      && l in s'.sh.stock.chans
      && Total(s'.threads, Work) < Total(s.threads, Work)
      && (Promising(s'.threads[k], l) || s'.sh.stock.chans[l].queue != [])
  {
    var o := Move(c, s.sh, s.threads[j], false);
    assert ThreadOk(c, s.sh.stock, s.threads[j]) && ThreadOk(c, s.sh.stock, s.threads[k]);
    assert ChanOk(s.sh.stock, l);
    RefillWorks(c, s.sh, s.threads[j], false);
    TotalStep(s.threads, j, o.t, o.kids, Work);
  }

  /** A promising refill leads to a VM for a waiting request. */
  lemma {:induction false} Serve(c: Config, s: State, i: nat, k: nat, l: Lang) returns (run: seq<Step>)
    requires Prewarmed(c, s) && Waits(s, i, l) && l in s.sh.stock.chans && k < |s.threads|
    requires Promising(s.threads[k], l) || s.sh.stock.chans[l].queue != []
    ensures Served(c, s, run, i) && Undisturbed(run)
    decreases Total(s.threads, Work)
  {
    if s.sh.stock.chans[l].queue != [] {
      run := Prepend(c, s, Run(i, false), []);
    } else {
      var j := Helper(c, s, k, l);
      var a := Run(j, false);
      HelperMoves(c, s, j, k, l);
      StaysPrewarmed(c, s, a);
      var rest := Serve(c, Apply(c, s, a), i, k, l);
      run := Prepend(c, s, a, rest);
    }
  }

  /** A request that owes its channel a replacement spawns a promising refill. */
  lemma {:induction false} ServeOwed(c: Config, s: State, i: nat, k: nat, l: Lang) returns (run: seq<Step>)
    requires Prewarmed(c, s) && Waits(s, i, l) && l in s.sh.stock.chans && k < |s.threads|
    requires s.threads[k].key == l && s.threads[k].role.Request? && Replacing(s.threads[k].pc)
    ensures Served(c, s, run, i) && Undisturbed(run)
    decreases if s.threads[k].pc.Recheck? then 1 else 0
  {
    var a := Run(k, false);
    var s' := Apply(c, s, a);
    StaysPrewarmed(c, s, a);
    SameStock(c, s.sh, s.threads[k], false);
    var rest;
    if s.threads[k].pc.Recheck? {
      rest := ServeOwed(c, s', i, k, l);
    } else {
      assert s'.threads[|s.threads|] == NewRefill(l);
      rest := Serve(c, s', i, |s.threads|, l);
    }
    run := Prepend(c, s, a, rest);
  }

  lemma {:induction false} TotalGap(ts: seq<Thread>, m: Meter, n: Meter) returns (k: nat)
    requires Total(ts, m) > Total(ts, n)
    ensures k < |ts| && Weight(ts[k], m) > Weight(ts[k], n)
  {
    if Weight(ts[0], m) > Weight(ts[0], n) {
      k := 0;
    } else {
      var j := TotalGap(ts[1..], m, n);
      k := j + 1;
    }
  }

  /** While a slot of an empty channel is not gone, some refill promises a VM or some request owes a refill. */
  lemma Supplier(c: Config, s: State, l: Lang) returns (k: nat)
    requires Prewarmed(c, s) && l in c.Keys() && l in s.sh.stock.chans && s.sh.stock.chans[l].queue == []
    requires Total(s.threads, SkippedOn(l)) == 0 && s.sh.stock.drained[l] == 0
    requires Total(s.threads, Gone(l)) < c.Capacity()
    ensures k < |s.threads| && s.threads[k].key == l
    ensures Promising(s.threads[k], l) || (s.threads[k].role.Request? && Replacing(s.threads[k].pc))
  {
    assert Conserved(Slot(l));
    k := TotalGap(s.threads, Slot(l), Gone(l));
    TotalBounds(s.threads, k, SkippedOn(l));
    assert ThreadOk(c, s.sh.stock, s.threads[k]);
  }

  /**
    A request that waits in an open prewarmed pool can still be given a VM, without Close or the end
    of a context, exactly when some slot of its channel is neither lost nor held by a hopeless refill.
  */
  lemma ServableIff(c: Config, s: State, i: nat)
    requires c.Valid() && Reachable(c, s) && !s.sh.closed && !c.strategy.Spare?
    requires i < |s.threads| && s.threads[i].pc.Recv?
    ensures (exists run :: Served(c, s, run, i) && Undisturbed(run))
       <==> Total(s.threads, Gone(s.threads[i].key)) < c.Capacity()
  {
    ReachableInv(c, s);
    var l := s.threads[i].key;
    assert ThreadOk(c, s.sh.stock, s.threads[i]);
    if Total(s.threads, Gone(l)) < c.Capacity() {
      OpenSkipsNothing(c, s, l);
      var run := [];
      if s.sh.stock.chans[l].queue != [] {
        run := Serve(c, s, i, i, l);
      } else {
        var k := Supplier(c, s, l);
        if s.threads[k].role.Request? {
          run := ServeOwed(c, s, i, k, l);
        } else {
          run := Serve(c, s, i, k, l);
        }
      }
      assert Served(c, s, run, i) && Undisturbed(run);
    } else {
      forall run | Served(c, s, run, i) && Undisturbed(run) ensures false {
        StarvedOverRun(c, s, run, i);
      }
    }
  }

  // ---------------------------------------------------------------- a call that never returns

  lemma StaysWaiting(c: Config, s: State, a: Step, i: nat)
    requires Prewarmed(c, s) && Starved(c, s, i) && Enabled(c, s, a) && (a.Run? || a.Call?)
    requires s.threads[i].pc.Recv? && !s.threads[i].role.ctxDone
    ensures i < |Apply(c, s, a).threads| && Apply(c, s, a).threads[i] == s.threads[i]
  {
    StarvedCannotReceive(c, s, i);
  }

  lemma {:induction false} WaitsOverRun(c: Config, s: State, run: seq<Step>, i: nat)
    requires Prewarmed(c, s) && Starved(c, s, i) && Legal(c, s, run) && Undisturbed(run)
    requires s.threads[i].pc.Recv? && !s.threads[i].role.ctxDone
    ensures i < |After(c, s, run).threads| && After(c, s, run).threads[i] == s.threads[i]
    decreases |run|
  {
    if run != [] {
      StaysWaiting(c, s, run[0], i);
      StaysStarved(c, s, run[0], i);
      StaysPrewarmed(c, s, run[0]);
      WaitsOverRun(c, Apply(c, s, run[0]), run[1..], i);
    }
  }

  /** The run, if it is one, does not move thread i. */
  ghost predicate Unmoved(c: Config, s: State, run: seq<Step>, i: nat) {
    Legal(c, s, run) && Undisturbed(run) ==>
      i < |s.threads| && i < |After(c, s, run).threads| && After(c, s, run).threads[i] == s.threads[i]
  }

  /**
    A call of Execute that waits in an open prewarmed pool under a context that is not done, as a
    worker's is until shutdown, can never move again exactly when all slots of its channel are gone.
  */
  lemma HangsIff(c: Config, s: State, i: nat)
    requires c.Valid() && Reachable(c, s) && !s.sh.closed && !c.strategy.Spare?
    requires i < |s.threads| && s.threads[i].pc.Recv?
    requires s.threads[i].role.Request? ==> !s.threads[i].role.ctxDone
    ensures (forall run :: Unmoved(c, s, run, i)) <==> Total(s.threads, Gone(s.threads[i].key)) >= c.Capacity()
  {
    ReachableInv(c, s);
    assert ThreadOk(c, s.sh.stock, s.threads[i]);
    if Total(s.threads, Gone(s.threads[i].key)) >= c.Capacity() {
      forall run ensures Unmoved(c, s, run, i) {
        if Legal(c, s, run) && Undisturbed(run) {
          WaitsOverRun(c, s, run, i);
        }
      }
    } else {
      ServableIff(c, s, i);
      var run :| Served(c, s, run, i) && Undisturbed(run);
      assert !Unmoved(c, s, run, i);
    }
  }

  /** When every refill has finished, no slot is hopeless without being lost. */
  lemma {:induction false} SettledGoneIsLost(ts: seq<Thread>, l: Lang)
    requires forall k :: 0 <= k < |ts| && ts[k].role.Refill? ==> ts[k].pc.Finished?
    ensures Total(ts, Gone(l)) == Total(ts, Lost(l))
  {
    if ts != [] {
      SettledGoneIsLost(ts[1..], l);
    }
  }

  /** Once the refills have settled, a waiting request can be served exactly when not all slots are lost. */
  lemma SettledServableIff(c: Config, s: State, i: nat)
    requires c.Valid() && Reachable(c, s) && !s.sh.closed && !c.strategy.Spare? && Settled(c, s)
    requires i < |s.threads| && s.threads[i].pc.Recv?
    ensures (exists run :: Served(c, s, run, i) && Undisturbed(run))
       <==> Total(s.threads, Lost(s.threads[i].key)) < c.Capacity()
  {
    ReachableInv(c, s);
    forall k | 0 <= k < |s.threads| && s.threads[k].role.Refill? ensures s.threads[k].pc.Finished? {
      SettledIsFinished(c, s, k);
    }
    SettledGoneIsLost(s.threads, s.threads[i].key);
    ServableIff(c, s, i);
  }

  // ---------------------------------------------------------------- a lost slot, concretely

  ghost function FailingState(sem: nat, wg: nat, refill: Pc, request: Pc): State {
    var s := SmallState(NotCalled, wg, true, refill, request);
    s.(sh := s.sh.(sem := sem))
  }

  /** The request comes to wait; the refill takes the token and fails to boot. */
  lemma SmallFailure()
    ensures var c := Small();
      && Goes(c, FailingState(0, 1, Want, Check), Run(1, false), FailingState(0, 1, Want, Recv))
      && Goes(c, FailingState(0, 1, Want, Recv), Run(0, false), FailingState(1, 1, Begin, Recv))
      && Goes(c, FailingState(1, 1, Begin, Recv), Run(0, true), FailingState(1, 1, Out(None), Recv))
  {
  }

  /** The refill gives its token back and ends. */
  lemma SmallLoss()
    ensures var c := Small();
      && Goes(c, FailingState(1, 1, Out(None), Recv), Run(0, false), FailingState(0, 1, Exit(false), Recv))
      && Goes(c, FailingState(0, 1, Exit(false), Recv), Run(0, false), FailingState(0, 0, Finished(false), Recv))
  {
  }

  lemma TotalPair(a: Thread, b: Thread, m: Meter)
    ensures Total([a, b], m) == Weight(a, m) + Weight(b, m)
  {
    assert [a, b][1..] == [b] && [b][1..] == [];
    assert Total([b], m) == Weight(b, m);
  }

  lemma FailingRun() returns (early: seq<Step>, late: seq<Step>)
    ensures Legal(Small(), Init(Small()), early)
    ensures After(Small(), Init(Small()), early) == FailingState(1, 1, Out(None), Recv)
    ensures Legal(Small(), FailingState(1, 1, Out(None), Recv), late)
    ensures After(Small(), FailingState(1, 1, Out(None), Recv), late) == FailingState(0, 0, Finished(false), Recv)
  {
    SmallInit();
    SmallFailure();
    SmallLoss();
    early := Grow(Small(), Init(Small()), [], Call("go"));
    early := Grow(Small(), Init(Small()), early, Run(1, false));
    early := Grow(Small(), Init(Small()), early, Run(0, false));
    early := Grow(Small(), Init(Small()), early, Run(0, true));
    late := Grow(Small(), FailingState(1, 1, Out(None), Recv), [], Run(0, false));
    late := Grow(Small(), FailingState(1, 1, Out(None), Recv), late, Run(0, false));
  }

  lemma FailingTotals(sem: nat, wg: nat, refill: Pc)
    ensures var ts := FailingState(sem, wg, refill, Recv).threads;
      && Total(ts, Lost("go")) == Bit(EndedWith(refill, false))
      && Total(ts, Gone("go")) == Bit(Hopeless(refill))
  {
    var ts := FailingState(sem, wg, refill, Recv).threads;
    TotalPair(ts[0], ts[1], Lost("go"));
    TotalPair(ts[0], ts[1], Gone("go"));
  }

  /**
    One failed boot exhausts an open pool of one slot.  After `early` the slot is not lost yet, but
    its refill is hopeless, so the waiting request can no longer be served; after `late` the slot is
    lost, nothing is closed, and the request can neither receive nor give up.
  */
  lemma LostSlotRun() returns (early: seq<Step>, late: seq<Step>)
    ensures Small().Valid() && Legal(Small(), Init(Small()), early)
    ensures var s := After(Small(), Init(Small()), early);
      && s == FailingState(1, 1, Out(None), Recv)
      && Total(s.threads, Lost("go")) == 0 && Total(s.threads, Gone("go")) == Small().Capacity()
      && !(exists run :: Served(Small(), s, run, 1) && Undisturbed(run))
    ensures var s := After(Small(), Init(Small()), early);
      && Legal(Small(), s, late)
      && After(Small(), s, late) == FailingState(0, 0, Finished(false), Recv)
    ensures var s := FailingState(0, 0, Finished(false), Recv);
      && !s.sh.closed && Waits(s, 1, "go") && Total(s.threads, Lost("go")) == Small().Capacity()
      && !Enabled(Small(), s, Run(1, false)) && !Enabled(Small(), s, Run(1, true))
  {
    early, late := FailingRun();
    FailingTotals(1, 1, Out(None));
    FailingTotals(0, 0, Finished(false));
    ServableIff(Small(), FailingState(1, 1, Out(None), Recv), 1);
  }
}

/** What the pool promises, in every reachable state and over every run. */
module PoolTheorems {
  import opened Prelude
  import opened PoolProtocol
  import opened PoolAccounting
  import opened PoolInvariant
  import opened PoolRuns

  // ---------------------------------------------------------------- sends and slots

  /**
    A refill that holds a VM finds its channel open and with room: it neither panics nor blocks.
    This covers refills that an Acquire spawns after wg.Wait has returned.
  */
  lemma SendNeverBlocks(c: Config, s: State, i: nat)
    requires c.Valid() && Reachable(c, s)
    requires i < |s.threads| && s.threads[i].pc.Offer?
    ensures s.threads[i].key in s.sh.stock.chans
    ensures s.sh.stock.chans[s.threads[i].key].open
    ensures |s.sh.stock.chans[s.threads[i].key].queue| < c.Capacity()
    ensures Enabled(c, s, Run(i, false)) && !Apply(c, s, Run(i, false)).sh.panicked
  {
    ReachableInv(c, s);
    var t := s.threads[i];
    assert ThreadOk(c, s.sh.stock, t) && ChanOk(s.sh.stock, t.key);
    assert Conserved(Slot(t.key));
    TotalBounds(s.threads, i, Slot(t.key));
  }

  /** No send on a closed channel, no second close, no negative WaitGroup counter. */
  lemma NeverPanics(c: Config, s: State)
    requires c.Valid() && Reachable(c, s)
    ensures !s.sh.panicked
  {
    ReachableInv(c, s);
  }

  lemma SlotConservation(c: Config, s: State, l: Lang)
    requires c.Valid() && Reachable(c, s) && l in c.Keys()
    ensures l in s.sh.stock.chans
    ensures |s.sh.stock.chans[l].queue| + Total(s.threads, Running(l)) + Total(s.threads, OwedTo(l))
            + Total(s.threads, Lost(l)) + Total(s.threads, SkippedOn(l)) + s.sh.stock.drained[l]
         == c.Capacity()
  {
    ReachableInv(c, s);
    assert Conserved(Slot(l));
    TotalSlot(s.threads, l);
  }

  /** Boots in flight are exactly the tokens taken, at most max(1, BootConcurrency). */
  lemma BootsBounded(c: Config, s: State)
    requires c.Valid() && Reachable(c, s)
    ensures Total(s.threads, Token) == s.sh.sem
    ensures Total(s.threads, Token) <= (if c.bootConcurrency < 1 then 1 else c.bootConcurrency)
    ensures forall i :: 0 <= i < |s.threads| && s.threads[i].pc.Out? ==> Enabled(c, s, Run(i, false))
  {
    ReachableInv(c, s);
    assert Conserved(Token);
    forall i | 0 <= i < |s.threads| && s.threads[i].pc.Out? ensures Enabled(c, s, Run(i, false)) {
      TotalBounds(s.threads, i, Token);
    }
  }

  // ---------------------------------------------------------------- single VMs

  /** Every started VM is in one thread's hands, or in its channel, or in Close's hand, or killed. */
  lemma VmLinear(c: Config, s: State, v: Vm)
    requires c.Valid() && Reachable(c, s) && v < |s.sh.stock.home|
    ensures Total(s.threads, Hold(v)) + InQueue(s.sh.stock, v) + Bit(InHand(s.sh.stock) == Some(v))
            + Bit(v in s.sh.killed) == 1
    ensures forall l :: l in s.sh.stock.chans && v in s.sh.stock.chans[l].queue ==> l == s.sh.stock.home[v]
  {
    ReachableInv(c, s);
    assert Conserved(Hold(v));
    forall l | l in s.sh.stock.chans && v in s.sh.stock.chans[l].queue ensures l == s.sh.stock.home[v] {
      assert ChanOk(s.sh.stock, l);
    }
  }

  lemma KilledStaysKilled(c: Config, s: State, a: Step)
    requires Enabled(c, s, a)
    ensures s.sh.killed <= Apply(c, s, a).sh.killed
  {
  }

  lemma {:induction false} KilledOverRun(c: Config, s: State, run: seq<Step>)
    requires Legal(c, s, run)
    ensures s.sh.killed <= After(c, s, run).sh.killed
    decreases |run|
  {
    if run != [] {
      KilledStaysKilled(c, s, run[0]);
      KilledOverRun(c, Apply(c, s, run[0]), run[1..]);
    }
  }

  /** A killed VM is never in anyone's hands or in a channel again. */
  lemma KilledForGood(c: Config, s: State, run: seq<Step>, v: Vm)
    requires c.Valid() && Reachable(c, s) && Legal(c, s, run) && v in s.sh.killed
    ensures var s' := After(c, s, run);
      && v in s'.sh.killed
      && InQueue(s'.sh.stock, v) == 0 && InHand(s'.sh.stock) != Some(v)
      && forall i :: 0 <= i < |s'.threads| ==> Held(s'.threads[i].pc) != Some(v)
  {
    ReachableInv(c, s);
    RunInv(c, s, run);
    KilledOverRun(c, s, run);
    var s' := After(c, s, run);
    assert Conserved(Hold(v));
    forall i | 0 <= i < |s'.threads| ensures Held(s'.threads[i].pc) != Some(v) {
      TotalBounds(s'.threads, i, Hold(v));
    }
  }

  /** What one thread reserves, no other thread holds or received, and no channel queues. */
  lemma SoleClaim(c: Config, s: State, i: nat, j: nat, v: Vm)
    requires Inv(c, s) && i < |s.threads| && j < |s.threads| && i != j
    requires Weight(s.threads[i], Claim(v)) == 1
    ensures Weight(s.threads[j], Claim(v)) == 0
  {
    TotalBoundsTwo(s.threads, if i < j then i else j, if i < j then j else i, Claim(v));
    assert InQueue(s.sh.stock, v) + Total(s.threads, Claim(v)) <= 1;
  }

  /** Two calls of Execute, such as the two attempts of one job, never receive the same VM. */
  lemma NoVmServesTwo(c: Config, s: State, i: nat, j: nat)
    requires c.Valid() && Reachable(c, s) && i < j < |s.threads|
    requires s.threads[i].role.Request? && s.threads[j].role.Request?
    ensures s.threads[i].role.got.Some? ==> s.threads[i].role.got != s.threads[j].role.got
  {
    ReachableInv(c, s);
    if s.threads[i].role.got.Some? {
      SoleClaim(c, s, i, j, s.threads[i].role.got.value);
    }
  }

  /**
    A VM that Acquire hands out is running, of the requested language, in nobody else's hands,
    not queued, and was never lent before.
  */
  lemma AcquireDelivers(c: Config, s: State, i: nat)
    requires c.Valid() && Reachable(c, s) && i < |s.threads|
    requires s.threads[i].pc.Lent? && s.threads[i].pc.r.Some?
    ensures s.threads[i].role.Request?
    ensures var v := s.threads[i].pc.r.value;
      && v < |s.sh.stock.home| && v !in s.sh.killed && InQueue(s.sh.stock, v) == 0
      && c.LanguageID(s.sh.stock.home[v]) == (if c.strategy.Generic? then "" else s.threads[i].role.lang)
    ensures var v := s.threads[i].pc.r.value;
      forall j :: 0 <= j < |s.threads| && j != i ==>
        && Held(s.threads[j].pc) != Some(v)
        && (s.threads[j].role.Request? ==> s.threads[j].role.got != Some(v))
  {
    ReachableInv(c, s);
    var v := s.threads[i].pc.r.value;
    HolderAlone(c, s, i, v);
    forall j | 0 <= j < |s.threads| && j != i ensures Weight(s.threads[j], Claim(v)) == 0 {
      SoleClaim(c, s, i, j, v);
    }
  }

  lemma HolderAlone(c: Config, s: State, i: nat, v: Vm)
    requires Inv(c, s) && i < |s.threads| && Held(s.threads[i].pc) == Some(v)
    ensures VmOf(s.sh.stock, v, s.threads[i].key) && v !in s.sh.killed && InQueue(s.sh.stock, v) == 0
  {
    assert ThreadOk(c, s.sh.stock, s.threads[i]);
    assert Conserved(Hold(v));
    TotalBounds(s.threads, i, Hold(v));
  }

  lemma NowhereElse(c: Config, s: State, v: Vm)
    requires Inv(c, s) && s.sh.stock.closer.Closed? && v < |s.sh.stock.home|
    requires Total(s.threads, Hold(v)) == 0
    ensures v in s.sh.killed
  {
    var l := s.sh.stock.home[v];
    if l in s.sh.stock.chans {
      assert ChanOk(s.sh.stock, l);
    }
    assert Conserved(Hold(v));
  }

  /**
    Once Close has returned and every call and refill has ended, every VM ever started has been
    killed: queued ones, cold boots outside the WaitGroup, and boots that failed half way.
  */
  lemma CloseLeavesNothing(c: Config, s: State)
    requires c.Valid() && Reachable(c, s) && s.sh.stock.closer.Closed?
    requires forall i :: 0 <= i < |s.threads| ==> s.threads[i].pc.Finished? || s.threads[i].pc.Crashed?
    ensures forall v: Vm :: v < |s.sh.stock.home| <==> v in s.sh.killed
  {
    ReachableInv(c, s);
    forall v: Vm | v < |s.sh.stock.home| ensures v in s.sh.killed {
      TotalZero(s.threads, Hold(v));
      NowhereElse(c, s, v);
    }
  }

  // ---------------------------------------------------------------- the nil VM

  /** Appending a step to a run. */
  lemma {:induction false} Extend(c: Config, s: State, run: seq<Step>, a: Step)
    requires Legal(c, s, run) && Enabled(c, After(c, s, run), a)
    ensures Legal(c, s, run + [a]) && After(c, s, run + [a]) == Apply(c, After(c, s, run), a)
    decreases |run|
  {
    if run == [] {
      assert run + [a] == [a];
    } else {
      assert (run + [a])[1..] == run[1..] + [a];
      Extend(c, Apply(c, s, run[0]), run[1..], a);
    }
  }

  lemma {:induction false} LegalPrefix(c: Config, s: State, run: seq<Step>, k: nat)
    requires Legal(c, s, run) && k <= |run|
    ensures Legal(c, s, run[..k])
    ensures k < |run| ==> Enabled(c, After(c, s, run[..k]), run[k])
    decreases |run|
  {
    if k > 0 {
      assert run[..k][1..] == run[1..][..k - 1];
      LegalPrefix(c, Apply(c, s, run[0]), run[1..], k - 1);
    }
  }

  ghost predicate Open(s: State, l: Lang) {
    l in s.sh.stock.chans && s.sh.stock.chans[l].open
  }

  /** Step k of the run is the one by which Close closes channel l. */
  ghost predicate ClosesAt(c: Config, s: State, run: seq<Step>, k: nat, l: Lang)
    requires Legal(c, s, run) && k < |run|
  {
    LegalPrefix(c, s, run, k);
    && run[k] == Close(l)
    && Open(After(c, s, run[..k]), l)
    && !Open(Apply(c, After(c, s, run[..k]), run[k]), l)
  }

  lemma ThreadsKeepOpen(c: Config, s: State, i: nat, quit: bool, l: Lang)
    requires Inv(c, s) && Enabled(c, s, Run(i, quit)) && Open(s, l)
    ensures Open(Apply(c, s, Run(i, quit)), l)
  {
    var k, k' := s.sh.stock, Apply(c, s, Run(i, quit)).sh.stock;
    RunKeeps(c, s, i, quit);
    assert k'.closer == k.closer && k'.chans.Keys == k.chans.Keys;
    assert ChanOk(k, l) && ChanOk(k', l);
  }

  lemma OnlyCloseCloses(c: Config, s: State, a: Step, l: Lang)
    requires Inv(c, s) && Enabled(c, s, a) && Open(s, l) && !Open(Apply(c, s, a), l)
    ensures a == Close(l)
  {
    match a
    case Run(i, quit) => ThreadsKeepOpen(c, s, i, quit, l);
    case _ =>
  }

  /** Threads keep their identity over a run. */
  lemma {:induction false} SameThread(c: Config, s: State, run: seq<Step>, i: nat)
    requires Legal(c, s, run) && i < |s.threads|
    ensures i < |After(c, s, run).threads|
    ensures After(c, s, run).threads[i].key == s.threads[i].key
    ensures s.threads[i].role.Request? <==> After(c, s, run).threads[i].role.Request?
    ensures s.threads[i].role.Request? ==> After(c, s, run).threads[i].role.lang == s.threads[i].role.lang
    decreases |run|
  {
    if run != [] {
      SameThread(c, Apply(c, s, run[0]), run[1..], i);
    }
  }

  lemma {:induction false} ClosedInBetween(c: Config, s: State, run: seq<Step>, l: Lang) returns (k: nat)
    requires Inv(c, s) && Legal(c, s, run) && Open(s, l) && !Open(After(c, s, run), l)
    ensures k < |run| && ClosesAt(c, s, run, k, l)
    decreases |run|
  {
    var s' := Apply(c, s, run[0]);
    StepKeeps(c, s, run[0]);
    if !Open(s', l) {
      OnlyCloseCloses(c, s, run[0], l);
      k := 0;
    } else {
      var j := ClosedInBetween(c, s', run[1..], l);
      k := j + 1;
      assert run[..k][1..] == run[1..][..j];
    }
  }

  /**
    An Acquire that has passed its first check, in state s, receives after `run`.  It gets a nil
    VM exactly when its channel is closed and empty by then; in that case Close closed the
    channel between the check and the receive, and the Acquire spawns no refill.
  */
  lemma NilOnlyAcrossClose(c: Config, s: State, i: nat, run: seq<Step>)
    requires c.Valid() && Reachable(c, s) && i < |s.threads|
    requires s.threads[i].pc.Check? && !s.sh.closed && s.threads[i].key in s.sh.stock.chans
    requires Legal(c, s, run) && Enabled(c, After(c, s, run), Run(i, false))
    requires After(c, s, run).threads[i].pc.Recv?
    ensures var s1 := After(c, s, run);
      var s2 := Apply(c, s1, Run(i, false));
      var l := s.threads[i].key;
      && l in s1.sh.stock.chans
      && (s2.threads[i].pc == Recheck(None) <==> !Open(s1, l) && s1.sh.stock.chans[l].queue == [])
      && (s2.threads[i].pc == Recheck(None) ==>
            && (exists k :: 0 <= k < |run| && ClosesAt(c, s, run, k, l))
            && s2.sh.closed
            && Move(c, s2.sh, s2.threads[i], false).kids == []
            && Move(c, s2.sh, s2.threads[i], false).t.pc == Lent(None))
  {
    ReachableInv(c, s);
    RunInv(c, s, run);
    SameThread(c, s, run, i);
    var s1 := After(c, s, run);
    var l := s.threads[i].key;
    assert ThreadOk(c, s1.sh.stock, s1.threads[i]);
    assert ChanOk(s.sh.stock, l) && ChanOk(s1.sh.stock, l);
    if !Open(s1, l) {
      var k := ClosedInBetween(c, s, run, l);
    }
  }
}

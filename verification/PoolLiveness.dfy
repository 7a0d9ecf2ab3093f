/** Close terminates, warm-up converges, and the run that yields a nil VM. */
module PoolLiveness {
  import opened Prelude
  import opened PoolProtocol
  import opened PoolAccounting
  import opened PoolInvariant
  import opened PoolRuns
  import opened PoolTheorems

  // ---------------------------------------------------------------- Close terminates

  /** The steps Close needs: its own, those of refills, and of requests about to spawn one. */
  ghost predicate Needed(s: State, a: Step) {
    match a
    case Run(i, _) => i < |s.threads| && (s.threads[i].role.Refill? || s.threads[i].pc.Spawn?)
    case Close(_) => true
    case _ => false
  }

  ghost function PerChannel(c: Config): nat {
    2 * c.Capacity() + 2
  }

  ghost function Times(n: nat, k: nat): nat {
    if n == 0 then 0 else Times(n - 1, k) + k
  }

  /** A bound on the steps of Close itself once the context is cancelled. */
  ghost function DrainWork(c: Config, k: Stock): nat {
    match k.closer
    case Closed => 0
    case Draining(todo, cur, vm) =>
      Times(|todo|, PerChannel(c)) + 1
      + (match cur
         case None => 0
         case Some(l) => 1 + (if l in k.chans then 2 * |k.chans[l].queue| else 0) + Bit(vm.Some?))
    case _ => Times(|k.chans.Keys|, PerChannel(c)) + 2
  }

  ghost function Effort(c: Config, s: State): nat {
    Total(s.threads, Work) + DrainWork(c, s.sh.stock)
  }

  lemma RefillWorks(c: Config, sh: Shared, t: Thread, quit: bool)
    requires CanMove(c, sh, t, quit) && t.role.Refill? && (t.pc.Up? ==> t.pc.stage <= LAST_STAGE)
    ensures Weight(Move(c, sh, t, quit).t, Work) < Weight(t, Work)
    ensures Move(c, sh, t, quit).kids == []
  {
  }

  lemma RequestWorks(c: Config, sh: Shared, t: Thread, quit: bool)
    requires CanMove(c, sh, t, quit) && t.role.Request? && sh.closed
    ensures Weight(Move(c, sh, t, quit).t, Work) + Total(Move(c, sh, t, quit).kids, Work)
         <= Weight(t, Work) - Bit(t.pc.Spawn?)
  {
  }

  /** Threads only ever shorten what Close has left to drain. */
  lemma ThreadsDoNotRefill(c: Config, s: State, i: nat, quit: bool)
    requires Inv(c, s) && Enabled(c, s, Run(i, quit)) && s.sh.cancelled
    ensures DrainWork(c, Apply(c, s, Run(i, quit)).sh.stock) <= DrainWork(c, s.sh.stock)
  {
    var t := s.threads[i];
    assert ThreadOk(c, s.sh.stock, t);
    if !t.pc.Begin? && !t.pc.Recv? && !t.pc.Offer? {
      SameStock(c, s.sh, t, quit);
    } else {
      assert Move(c, s.sh, t, quit).sh.stock.chans.Keys == s.sh.stock.chans.Keys;
    }
  }

  lemma RunEffort(c: Config, s: State, i: nat, quit: bool)
    requires Inv(c, s) && s.sh.cancelled && Enabled(c, s, Run(i, quit))
    ensures Effort(c, Apply(c, s, Run(i, quit))) <= Effort(c, s) - Bit(Needed(s, Run(i, quit)))
  {
    var t := s.threads[i];
    var o := Move(c, s.sh, t, quit);
    assert ThreadOk(c, s.sh.stock, t);
    ThreadsDoNotRefill(c, s, i, quit);
    TotalStep(s.threads, i, o.t, o.kids, Work);
    if t.role.Refill? {
      RefillWorks(c, s.sh, t, quit);
    } else {
      RequestWorks(c, s.sh, t, quit);
    }
  }

  lemma CloseEffort(c: Config, s: State, l: Lang)
    requires Inv(c, s) && s.sh.cancelled && CanClose(s.sh, l)
    ensures Effort(c, Apply(c, s, Close(l))) < Effort(c, s)
  {
    var k := s.sh.stock;
    if k.closer.Draining? && k.closer.vm.None? && k.closer.cur.None? && k.closer.todo != {} {
      assert |k.closer.todo| == |k.closer.todo - {l}| + 1;
      assert Conserved(Slot(l));
    }
  }

  /**
    Once Close has cancelled the context, every step it needs lowers the effort left and no step
    raises it.
  */
  lemma EffortFalls(c: Config, s: State, a: Step)
    requires Inv(c, s) && s.sh.cancelled && Enabled(c, s, a)
    ensures Apply(c, s, a).sh.cancelled
    ensures Effort(c, Apply(c, s, a)) <= Effort(c, s) - Bit(Needed(s, a))
  {
    match a
    case Run(i, quit) => RunEffort(c, s, i, quit);
    case Close(l) => CloseEffort(c, s, l);
    case Call(langID) => TotalConcat(s.threads, [NewRequest(c, langID)], Work);
    case Fire(i) =>
      TotalUpdate(s.threads, i, Apply(c, s, a).threads[i], Work);
      FireWeight(s.threads[i], Work);
  }

  ghost function NeededSteps(c: Config, s: State, run: seq<Step>): nat
    requires Legal(c, s, run)
    decreases |run|
  {
    if run == [] then 0
    else Bit(Needed(s, run[0])) + NeededSteps(c, Apply(c, s, run[0]), run[1..])
  }

  /** A run contains at most `Effort` steps that Close needs, whatever else it contains. */
  lemma {:induction false} CloseTerminates(c: Config, s: State, run: seq<Step>)
    requires Inv(c, s) && s.sh.cancelled && Legal(c, s, run)
    ensures NeededSteps(c, s, run) + Effort(c, After(c, s, run)) <= Effort(c, s)
    decreases |run|
  {
    if run != [] {
      EffortFalls(c, s, run[0]);
      StepKeeps(c, s, run[0]);
      CloseTerminates(c, Apply(c, s, run[0]), run[1..]);
    }
  }

  /** A refill that has not finished can move once the context is cancelled. */
  lemma RefillCanGiveUp(c: Config, s: State, i: nat) returns (quit: bool)
    requires Inv(c, s) && s.sh.cancelled && i < |s.threads|
    requires s.threads[i].role.Refill? && !s.threads[i].pc.Finished?
    ensures Enabled(c, s, Run(i, quit))
  {
    var t := s.threads[i];
    assert ThreadOk(c, s.sh.stock, t);
    quit := t.pc.Want? || t.pc.Begin? || t.pc.Up? || t.pc.Offer?;
    if t.pc.Out? {
      assert Conserved(Token);
      TotalBounds(s.threads, i, Token);
    }
  }

  lemma SomeNeeded(c: Config, s: State) returns (a: Step)
    requires Inv(c, s) && s.sh.cancelled && !s.sh.stock.closer.Closed?
    ensures Enabled(c, s, a) && Needed(s, a)
  {
    var k := s.sh.stock;
    if k.closer.Waiting? && s.sh.wg != 0 {
      assert Conserved(Live);
      var i := TotalPositive(s.threads, Live);
      var quit := RefillCanGiveUp(c, s, i);
      a := Run(i, quit);
    } else if k.closer.Draining? && k.closer.vm.None? && k.closer.cur.None? && k.closer.todo != {} {
      var l :| l in k.closer.todo;
      a := Close(l);
    } else {
      a := Close("");
    }
  }

  /** Until Close has returned, some step it needs is enabled. */
  lemma CloseProgresses(c: Config, s: State) returns (a: Step)
    requires c.Valid() && Reachable(c, s) && s.sh.cancelled && !s.sh.stock.closer.Closed?
    ensures Enabled(c, s, a) && Needed(s, a)
  {
    ReachableInv(c, s);
    a := SomeNeeded(c, s);
  }

  lemma Prepend(c: Config, s: State, a: Step, run: seq<Step>) returns (more: seq<Step>)
    requires Enabled(c, s, a) && Legal(c, Apply(c, s, a), run)
    ensures more == [a] + run && Legal(c, s, more)
    ensures After(c, s, more) == After(c, Apply(c, s, a), run)
  {
    more := [a] + run;
    assert more[1..] == run;
  }

  /** From every state after the cancel, Close can run to its end without any request moving on its own. */
  lemma {:induction false} CloseCanReturn(c: Config, s: State) returns (run: seq<Step>)
    requires Inv(c, s) && s.sh.cancelled
    ensures Legal(c, s, run) && After(c, s, run).sh.stock.closer.Closed?
    ensures NeededSteps(c, s, run) == |run| <= Effort(c, s)
    decreases Effort(c, s)
  {
    if s.sh.stock.closer.Closed? {
      run := [];
    } else {
      var a := SomeNeeded(c, s);
      EffortFalls(c, s, a);
      StepKeeps(c, s, a);
      var rest := CloseCanReturn(c, Apply(c, s, a));
      run := Prepend(c, s, a, rest);
      assert run[0] == a && run[1..] == rest;
    }
  }

  // ---------------------------------------------------------------- late refills

  ghost predicate Suffix(q: seq<Vm>, q': seq<Vm>) {
    |q'| <= |q| && q' == q[|q| - |q'|..]
  }

  lemma RunShrinks(c: Config, s: State, i: nat, quit: bool, l: Lang)
    requires Inv(c, s) && PastWait(s.sh.stock) && Enabled(c, s, Run(i, quit)) && l in s.sh.stock.chans
    ensures l in Apply(c, s, Run(i, quit)).sh.stock.chans
    ensures Suffix(s.sh.stock.chans[l].queue, Apply(c, s, Run(i, quit)).sh.stock.chans[l].queue)
  {
    var t := s.threads[i];
    assert ThreadOk(c, s.sh.stock, t);
    if !t.pc.Begin? && !t.pc.Recv? {
      SameStock(c, s.sh, t, quit);
    }
  }

  lemma CloseShrinks(sh: Shared, a: Lang, l: Lang)
    requires CanClose(sh, a) && l in sh.stock.chans
    ensures l in CloseMove(sh, a).stock.chans
    ensures var q := sh.stock.chans[l].queue;
      CloseMove(sh, a).stock.chans[l].queue == q
      || (q != [] && CloseMove(sh, a).stock.chans[l].queue == q[1..])
  {
  }

  /** After wg.Wait has returned nothing is queued any more, whatever late refills do. */
  lemma NothingQueuedAfterWait(c: Config, s: State, a: Step, l: Lang)
    requires c.Valid() && Reachable(c, s) && PastWait(s.sh.stock) && Enabled(c, s, a) && l in c.Keys()
    ensures l in s.sh.stock.chans && l in Apply(c, s, a).sh.stock.chans
    ensures Suffix(s.sh.stock.chans[l].queue, Apply(c, s, a).sh.stock.chans[l].queue)
  {
    ReachableInv(c, s);
    match a
    case Run(i, quit) => RunShrinks(c, s, i, quit, l);
    case Close(k) => CloseShrinks(s.sh, k, l);
    case _ =>
  }

  // ---------------------------------------------------------------- warm-up

  /** No boot and no refill can take a successful step, and no cold boot any step. */
  ghost predicate Settled(c: Config, s: State) {
    forall i, quit :: 0 <= i < |s.threads| && (s.threads[i].role.Refill? ==> !quit)
      && (s.threads[i].role.Refill? || Booting(s.threads[i].pc))
      ==> !CanMove(c, s.sh, s.threads[i], quit)
  }

  lemma BootingCanMove(c: Config, s: State, i: nat) returns (quit: bool)
    requires Inv(c, s) && !s.sh.closed && i < |s.threads|
    requires Booting(s.threads[i].pc) || (s.threads[i].role.Refill? && Delivering(s.threads[i].pc))
    ensures CanMove(c, s.sh, s.threads[i], quit)
    ensures s.threads[i].role.Refill? ==> !quit
  {
    var t := s.threads[i];
    assert ThreadOk(c, s.sh.stock, t);
    quit := t.role.Request? && t.pc.Up?;
    if t.pc.Out? {
      assert Conserved(Token);
      TotalBounds(s.threads, i, Token);
    } else if t.pc.Offer? {
      assert ChanOk(s.sh.stock, t.key) && Conserved(Slot(t.key));
      TotalBounds(s.threads, i, Slot(t.key));
    }
  }

  /** The boot semaphore never deadlocks: a settled pool has no unfinished refill. */
  lemma SettledIsFinished(c: Config, s: State, i: nat)
    requires Inv(c, s) && !s.sh.closed && Settled(c, s)
    requires i < |s.threads| && s.threads[i].role.Refill?
    ensures s.threads[i].pc.Finished?
  {
    var t := s.threads[i];
    assert ThreadOk(c, s.sh.stock, t);
    if Booting(t.pc) || Delivering(t.pc) {
      var quit := BootingCanMove(c, s, i);
    } else if t.pc.Want? {
      assert !CanMove(c, s.sh, t, false);
      assert Conserved(Token);
      var j := TotalPositive(s.threads, Token);
      var quit := BootingCanMove(c, s, j);
    }
  }

  /** Only refills move. */
  ghost predicate OnlyRefills(c: Config, s: State, run: seq<Step>)
    requires Legal(c, s, run)
    decreases |run|
  {
    run != [] ==>
      && run[0].Run? && s.threads[run[0].i].role.Refill?
      && OnlyRefills(c, Apply(c, s, run[0]), run[1..])
  }

  /** Without requests the steps of refills run out, whatever fails. */
  lemma {:induction false} WarmUpEnds(c: Config, s: State, run: seq<Step>)
    requires Inv(c, s) && Legal(c, s, run) && OnlyRefills(c, s, run)
    ensures |run| + Total(After(c, s, run).threads, Work) <= Total(s.threads, Work)
    decreases |run|
  {
    if run != [] {
      var Run(i, quit) := run[0];
      var t := s.threads[i];
      var o := Move(c, s.sh, t, quit);
      assert ThreadOk(c, s.sh.stock, t);
      RefillWorks(c, s.sh, t, quit);
      TotalStep(s.threads, i, o.t, o.kids, Work);
      StepKeeps(c, s, run[0]);
      WarmUpEnds(c, Apply(c, s, run[0]), run[1..]);
    }
  }

  lemma NothingSkippedWhileOpen(c: Config, s: State, run: seq<Step>, l: Lang)
    requires Inv(c, s) && Legal(c, s, run)
    requires !s.sh.closed ==> Total(s.threads, SkippedOn(l)) == 0 && s.sh.stock.drained[l] == 0
    ensures !After(c, s, run).sh.closed ==>
              Total(After(c, s, run).threads, SkippedOn(l)) == 0 && After(c, s, run).sh.stock.drained[l] == 0
    decreases |run|
  {
    if run != [] {
      StepKeeps(c, s, run[0]);
      SkipsOnlyWhenClosed(c, s, run[0], l);
      NothingSkippedWhileOpen(c, Apply(c, s, run[0]), run[1..], l);
    }
  }

  lemma MoveSkips(c: Config, sh: Shared, t: Thread, quit: bool, l: Lang)
    requires CanMove(c, sh, t, quit) && !sh.closed
    ensures Weight(Move(c, sh, t, quit).t, SkippedOn(l)) + Total(Move(c, sh, t, quit).kids, SkippedOn(l))
         <= Weight(t, SkippedOn(l))
    ensures Move(c, sh, t, quit).sh.stock.drained == sh.stock.drained
  {
  }

  lemma SkipsOnlyWhenClosed(c: Config, s: State, a: Step, l: Lang)
    requires Inv(c, s) && Enabled(c, s, a)
    requires !s.sh.closed ==> Total(s.threads, SkippedOn(l)) == 0 && s.sh.stock.drained[l] == 0
    ensures !Apply(c, s, a).sh.closed ==>
              Total(Apply(c, s, a).threads, SkippedOn(l)) == 0 && Apply(c, s, a).sh.stock.drained[l] == 0
  {
    var s' := Apply(c, s, a);
    StepKeeps(c, s, a);
    if !s'.sh.closed {
      match a
      case Run(i, quit) =>
        var o := Move(c, s.sh, s.threads[i], quit);
        assert s'.sh.stock.closer == s.sh.stock.closer;
        TotalStep(s.threads, i, o.t, o.kids, SkippedOn(l));
        MoveSkips(c, s.sh, s.threads[i], quit, l);
      case Close(_) =>
      case Call(langID) => TotalConcat(s.threads, [NewRequest(c, langID)], SkippedOn(l));
      case Fire(i) =>
        TotalUpdate(s.threads, i, s'.threads[i], SkippedOn(l));
        FireWeight(s.threads[i], SkippedOn(l));
    }
  }

  lemma OpenSkipsNothing(c: Config, s: State, l: Lang)
    requires c.Valid() && Reachable(c, s) && !s.sh.closed
    ensures Total(s.threads, SkippedOn(l)) == 0 && s.sh.stock.drained[l] == 0
  {
    var run :| Legal(c, Init(c), run) && After(c, Init(c), run) == s;
    InitInv(c);
    TotalSpawned(c.Channels(), c.Capacity(), SkippedOn(l));
    NothingSkippedWhileOpen(c, Init(c), run, l);
  }

  /**
    Warm-up converges: when an open pool has settled, every channel is full up to the boots that
    failed and the receipts whose replacement is not yet spawned.
  */
  lemma WarmUpConverges(c: Config, s: State, l: Lang)
    requires c.Valid() && Reachable(c, s) && !s.sh.closed && Settled(c, s) && l in c.Keys()
    ensures l in s.sh.stock.chans
    ensures |s.sh.stock.chans[l].queue|
         == c.Capacity() - Total(s.threads, Lost(l)) - Total(s.threads, OwedTo(l))
    ensures forall i :: 0 <= i < |s.threads| && s.threads[i].role.Refill? ==> s.threads[i].pc.Finished?
  {
    ReachableInv(c, s);
    SlotConservation(c, s, l);
    OpenSkipsNothing(c, s, l);
    forall i | 0 <= i < |s.threads| ensures Weight(s.threads[i], Running(l)) == 0 {
      if s.threads[i].role.Refill? {
        SettledIsFinished(c, s, i);
      }
    }
    TotalZero(s.threads, Running(l));
    forall i | 0 <= i < |s.threads| && s.threads[i].role.Refill? ensures s.threads[i].pc.Finished? {
      SettledIsFinished(c, s, i);
    }
  }

  // ---------------------------------------------------------------- the nil VM, concretely

  /** One language, one slot, one token; thread 0 is the first refill, thread 1 a request. */
  ghost function Small(): Config {
    Config(PerLang, ["go"], 1, 1)
  }

  ghost function SmallState(closer: Closer, wg: nat, open: bool, refill: Pc, request: Pc): State {
    var called := !closer.NotCalled?;
    State(Shared(called, called && !closer.Cancelling?, false, 0, wg, {},
                 Stock(map["go" := Chan([], open)], [], closer, multiset{})),
          [Thread("go", refill, Refill), Thread("go", request, Request("go", false, NoSlot, None))])
  }

  lemma SmallInit()
    ensures Init(Small()).threads == [NewRefill("go")]
    ensures Apply(Small(), Init(Small()), Call("go")) == SmallState(NotCalled, 1, true, Want, Check)
  {
    var c := Small();
    assert c.Channels()[..0] == [] && Repeat(NewRefill("go"), 1) == [] + [NewRefill("go")];
    assert Spawned(c.Channels(), 1) == [] + Repeat(NewRefill("go"), 1);
    assert Init(c).sh.stock.chans == map["go" := Chan([], true)];
  }

  /** The request passes its first check, then Close sets the flag and cancels the context. */
  lemma SmallCancel()
    ensures var c := Small();
      && Goes(c, SmallState(NotCalled, 1, true, Want, Check), Run(1, false), SmallState(NotCalled, 1, true, Want, Recv))
      && Goes(c, SmallState(NotCalled, 1, true, Want, Recv), Close(""), SmallState(Cancelling, 1, true, Want, Recv))
      && Goes(c, SmallState(Cancelling, 1, true, Want, Recv), Close(""), SmallState(Waiting, 1, true, Want, Recv))
  {
  }

  /** The refill gives up. */
  lemma SmallGiveUp()
    ensures var c := Small();
      && Goes(c, SmallState(Waiting, 1, true, Want, Recv), Run(0, true),
              SmallState(Waiting, 1, true, Exit(false), Recv))
      && Goes(c, SmallState(Waiting, 1, true, Exit(false), Recv), Run(0, false),
              SmallState(Waiting, 0, true, Finished(false), Recv))
  {
  }

  /** wg.Wait returns and Close closes the channel. */
  lemma SmallClose()
    ensures var c := Small();
      && Goes(c, SmallState(Waiting, 0, true, Finished(false), Recv), Close(""),
              SmallState(Draining({"go"}, None, None), 0, true, Finished(false), Recv))
      && Goes(c, SmallState(Draining({"go"}, None, None), 0, true, Finished(false), Recv), Close("go"),
              SmallState(Draining({}, Some("go"), None), 0, false, Finished(false), Recv))
  {
    assert map["go" := Chan([], true)].Keys == {"go"};
    assert map["go" := Chan([], true)]["go" := Chan([], false)] == map["go" := Chan([], false)];
  }

  /** The receive on the closed channel yields nil. */
  lemma SmallReceive()
    ensures var c := Small();
      var d := Draining({}, Some("go"), None);
      && Goes(c, SmallState(d, 0, false, Finished(false), Recv), Run(1, false),
              SmallState(d, 0, false, Finished(false), Recheck(None)))
      && Goes(c, SmallState(d, 0, false, Finished(false), Recheck(None)), Run(1, false),
              SmallState(d, 0, false, Finished(false), Lent(None)))
  {
  }

  ghost predicate Goes(c: Config, s: State, a: Step, s': State) {
    Enabled(c, s, a) && Apply(c, s, a) == s'
  }

  /** Thread i is at its receive, and its next two steps make Acquire return a nil VM. */
  ghost predicate ReceivesNil(c: Config, s: State, i: nat) {
    && i < |s.threads| && s.threads[i].pc.Recv? && Enabled(c, s, Run(i, false))
    && var s' := Apply(c, s, Run(i, false));
       s'.threads[i].pc == Recheck(None)
       && Enabled(c, s', Run(i, false)) && Apply(c, s', Run(i, false)).threads[i].pc == Lent(None)
  }

  /**
    A run in which Acquire stands before its closed check, then passes it, and Close runs until the
    channel is closed; Acquire's next two steps then return a nil VM with a nil error.
  */
  lemma NilVmRun() returns (before: seq<Step>, between: seq<Step>)
    ensures Small().Valid() && Legal(Small(), Init(Small()), before)
    ensures var s := After(Small(), Init(Small()), before);
      && |s.threads| == 2 && s.threads[1] == NewRequest(Small(), "go")
      && !s.sh.closed && "go" in s.sh.stock.chans
      && Legal(Small(), s, between) && ReceivesNil(Small(), After(Small(), s, between), 1)
  {
    SmallInit();
    SmallCancel();
    SmallGiveUp();
    SmallClose();
    SmallReceive();
    before := Grow(Small(), Init(Small()), [], Call("go"));
    var s := After(Small(), Init(Small()), before);
    between := Grow(Small(), s, [], Run(1, false));
    between := Grow(Small(), s, between, Close(""));
    between := Grow(Small(), s, between, Close(""));
    between := Grow(Small(), s, between, Run(0, true));
    between := Grow(Small(), s, between, Run(0, false));
    between := Grow(Small(), s, between, Close(""));
    between := Grow(Small(), s, between, Close("go"));
  }

  lemma Grow(c: Config, s: State, run: seq<Step>, a: Step) returns (more: seq<Step>)
    requires Legal(c, s, run) && Enabled(c, After(c, s, run), a)
    ensures more == run + [a] && Legal(c, s, more)
    ensures After(c, s, more) == Apply(c, After(c, s, run), a)
  {
    more := run + [a];
    Extend(c, s, run, a);
  }
}

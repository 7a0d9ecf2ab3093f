/** The invariant holds initially and every step keeps it. */
module PoolInvariant {
  import opened PoolProtocol
  import opened PoolAccounting

  // ---------------------------------------------------------------- the stock

  /** What other threads rely on when the stock changes. */
  ghost predicate Grows(k: Stock, k': Stock) {
    && k'.chans.Keys == k.chans.Keys
    && (forall l :: l in k.chans && !k.chans[l].open ==> !k'.chans[l].open)
    && k.home <= k'.home
    && (PastWait(k') ==> PastWait(k))
  }

  lemma ThreadStable(c: Config, k: Stock, k': Stock, t: Thread)
    requires ThreadOk(c, k, t) && Grows(k, k')
    ensures ThreadOk(c, k', t)
  {
  }

  lemma StockStarted(c: Config, k: Stock, key: Lang)
    requires StockOk(c, k)
    ensures StockOk(c, Started(k, key)) && Grows(k, Started(k, key))
  {
    forall l | l in k.chans ensures ChanOk(Started(k, key), l) {
      assert ChanOk(k, l);
    }
  }

  lemma StockQueue(c: Config, k: Stock, l: Lang, q: seq<Vm>)
    requires StockOk(c, k) && l in k.chans
    requires forall i :: 0 <= i < |q| ==> VmOf(k, q[i], l)
    requires k.chans[l].queue == [] && !k.chans[l].open ==> q == []
    ensures StockOk(c, WithQueue(k, l, q)) && Grows(k, WithQueue(k, l, q))
  {
    var k' := WithQueue(k, l, q);
    assert k'.chans.Keys == k.chans.Keys;
    forall j | j in k'.chans ensures ChanOk(k', j) {
      assert ChanOk(k, j);
    }
  }

  lemma QueuePop(k: Stock, l: Lang, v: Vm)
    requires l in k.chans && ChanOk(k, l) && k.chans[l].queue != []
    ensures InQueue(WithQueue(k, l, k.chans[l].queue[1..]), v)
         == InQueue(k, v) - Bit(v == k.chans[l].queue[0])
  {
    var q := k.chans[l].queue;
    assert q == [q[0]] + q[1..];
  }

  lemma QueuePush(k: Stock, l: Lang, w: Vm, v: Vm)
    requires l in k.chans && VmOf(k, w, l)
    ensures InQueue(WithQueue(k, l, k.chans[l].queue + [w]), v) == InQueue(k, v) + Bit(v == w)
  {
  }

  /** A VM that is not yet started is in no queue. */
  lemma QueueStarted(k: Stock, key: Lang, v: Vm)
    requires key in k.chans ==> ChanOk(k, key)
    ensures InQueue(Started(k, key), v) == InQueue(k, v)
  {
    if key in k.chans {
      assert forall i :: 0 <= i < |k.chans[key].queue| ==> VmOf(k, k.chans[key].queue[i], key);
    }
  }

  // ---------------------------------------------------------------- one thread moves

  /** The few facts about the shared state that a step of one thread rests on. */
  ghost predicate Near(sh: Shared, t: Thread) {
    && (t.key in sh.stock.chans ==> ChanOk(sh.stock, t.key))
    && (PastWait(sh.stock) ==> sh.cancelled)
    && (sh.cancelled ==> sh.closed)
    && (t.pc.Exit? ==> sh.wg > 0)
    && (Held(t.pc).Some? ==> Held(t.pc).value !in sh.killed)
  }

  ghost predicate Ready(c: Config, sh: Shared, t: Thread, quit: bool) {
    ThreadOk(c, sh.stock, t) && CanMove(c, sh, t, quit) && Near(sh, t)
  }

  ghost predicate Kept(c: Config, o: Outcome) {
    && ThreadOk(c, o.sh.stock, o.t)
    && (forall k :: k in o.kids ==> ThreadOk(c, o.sh.stock, k))
  }

  lemma EnterKeeps(c: Config, sh: Shared, t: Thread, quit: bool)
    requires Ready(c, sh, t, quit) && Entering(t.pc)
    ensures Kept(c, EnterStep(sh, t, quit))
  {
  }

  lemma ReplaceKeeps(c: Config, sh: Shared, t: Thread, quit: bool)
    requires Ready(c, sh, t, quit) && Replacing(t.pc)
    ensures Kept(c, ReplaceStep(sh, t))
  {
  }

  lemma StartKeeps(c: Config, sh: Shared, t: Thread, quit: bool)
    requires Ready(c, sh, t, quit) && Starting(t.pc)
    ensures Kept(c, StartStep(sh, t, quit))
  {
  }

  lemma BootKeeps(c: Config, sh: Shared, t: Thread, quit: bool)
    requires Ready(c, sh, t, quit) && BootingUp(t.pc)
    ensures Kept(c, BootStep(sh, t, quit))
  {
  }

  lemma ReleaseKeeps(c: Config, sh: Shared, t: Thread, quit: bool)
    requires Ready(c, sh, t, quit) && t.pc.Out?
    ensures Kept(c, ReleaseStep(sh, t))
  {
  }

  lemma DeliverKeeps(c: Config, sh: Shared, t: Thread, quit: bool)
    requires Ready(c, sh, t, quit) && Delivering(t.pc)
    ensures Kept(c, DeliverStep(sh, t, quit))
  {
  }

  lemma UseKeeps(c: Config, sh: Shared, t: Thread, quit: bool)
    requires Ready(c, sh, t, quit) && Using(t.pc)
    ensures Kept(c, UseStep(sh, t, quit))
  {
  }

  /** What a law gains and loses in one step of a thread. */
  ghost predicate Evens(c: Config, sh: Shared, t: Thread, o: Outcome, m: Meter) {
    Balance(c, o.sh, m) + Weight(o.t, m) + Total(o.kids, m) == Balance(c, sh, m) + Weight(t, m)
  }

  predicate Counter(m: Meter) {
    m.Live? || m.Token? || m.Slot?
  }

  /** The slot a request stands for agrees with its program counter. */
  predicate SlotAgrees(t: Thread) {
    && t.role.Request?
    && match t.pc
       case Check | Recv => t.role.slot.NoSlot?
       case Recheck(r) => t.role.slot == if r.Some? then Owed else NoSlot
       case Spawn(_) => t.role.slot.Owed?
       case _ => true
  }

  lemma EnterCounts(c: Config, sh: Shared, t: Thread, quit: bool, m: Meter)
    requires Entering(t.pc) && Counter(m)
    requires SlotAgrees(t) && (t.pc.Recv? ==> t.key in sh.stock.chans)
    ensures Evens(c, sh, t, EnterStep(sh, t, quit), m)
  {
  }

  lemma ReplaceCounts(c: Config, sh: Shared, t: Thread, m: Meter)
    requires Replacing(t.pc) && Counter(m)
    requires SlotAgrees(t)
    ensures Evens(c, sh, t, ReplaceStep(sh, t), m)
  {
  }

  lemma StartCounts(c: Config, sh: Shared, t: Thread, quit: bool, m: Meter)
    requires Starting(t.pc) && Counter(m)
    ensures Evens(c, sh, t, StartStep(sh, t, quit), m)
  {
  }

  lemma BootCounts(c: Config, sh: Shared, t: Thread, quit: bool, m: Meter)
    requires BootingUp(t.pc) && Counter(m)
    ensures Evens(c, sh, t, BootStep(sh, t, quit), m)
  {
  }

  lemma ReleaseCounts(c: Config, sh: Shared, t: Thread, m: Meter)
    requires t.pc.Out? && Counter(m)
    ensures Evens(c, sh, t, ReleaseStep(sh, t), m)
  {
  }

  lemma DeliverCounts(c: Config, sh: Shared, t: Thread, quit: bool, m: Meter)
    requires Delivering(t.pc) && Counter(m)
    requires t.role.Refill? && (t.pc.Offer? ==> t.key in sh.stock.chans && sh.stock.chans[t.key].open)
    ensures Evens(c, sh, t, DeliverStep(sh, t, quit), m)
  {
  }

  lemma UseCounts(c: Config, sh: Shared, t: Thread, quit: bool, m: Meter)
    requires Using(t.pc) && Counter(m)
    requires t.role.Request?
    ensures Evens(c, sh, t, UseStep(sh, t, quit), m)
  {
  }

  lemma EnterHolds(c: Config, sh: Shared, t: Thread, quit: bool, v: Vm)
    requires Entering(t.pc)
    requires t.role.Request? && (t.pc.Recv? ==> t.key in sh.stock.chans && ChanOk(sh.stock, t.key))
    ensures Evens(c, sh, t, EnterStep(sh, t, quit), Hold(v))
  {
    if t.pc.Recv? && !quit && sh.stock.chans[t.key].queue != [] {
      QueuePop(sh.stock, t.key, v);
    }
  }

  lemma ReplaceHolds(c: Config, sh: Shared, t: Thread, v: Vm)
    requires Replacing(t.pc)
    requires t.role.Request?
    ensures Evens(c, sh, t, ReplaceStep(sh, t), Hold(v))
  {
  }

  lemma StartHolds(c: Config, sh: Shared, t: Thread, quit: bool, v: Vm)
    requires Starting(t.pc)
    requires (t.key in sh.stock.chans ==> ChanOk(sh.stock, t.key)) && |sh.stock.home| !in sh.killed
    ensures Evens(c, sh, t, StartStep(sh, t, quit), Hold(v))
  {
    QueueStarted(sh.stock, t.key, v);
  }

  lemma BootHolds(c: Config, sh: Shared, t: Thread, quit: bool, v: Vm)
    requires BootingUp(t.pc)
    requires Held(t.pc).Some? ==> Held(t.pc).value !in sh.killed
    ensures Evens(c, sh, t, BootStep(sh, t, quit), Hold(v))
  {
  }

  lemma ReleaseHolds(c: Config, sh: Shared, t: Thread, v: Vm)
    requires t.pc.Out?
    ensures Evens(c, sh, t, ReleaseStep(sh, t), Hold(v))
  {
  }

  lemma DeliverHolds(c: Config, sh: Shared, t: Thread, quit: bool, v: Vm)
    requires Delivering(t.pc)
    requires t.pc.Offer? ==> t.key in sh.stock.chans && sh.stock.chans[t.key].open && VmOf(sh.stock, t.pc.vm, t.key)
    requires Held(t.pc).Some? ==> Held(t.pc).value !in sh.killed
    ensures Evens(c, sh, t, DeliverStep(sh, t, quit), Hold(v))
  {
    if t.pc.Offer? && !quit {
      QueuePush(sh.stock, t.key, t.pc.vm, v);
    }
  }

  lemma UseHolds(c: Config, sh: Shared, t: Thread, quit: bool, v: Vm)
    requires Using(t.pc)
    requires Held(t.pc).Some? ==> Held(t.pc).value !in sh.killed
    ensures Evens(c, sh, t, UseStep(sh, t, quit), Hold(v))
  {
  }

  /** Only the start of a VM reserves it; every other step hands reservations on. */
  ghost predicate Hands(sh: Shared, t: Thread, o: Outcome, v: Vm) {
    InQueue(o.sh.stock, v) + Weight(o.t, Claim(v)) + Total(o.kids, Claim(v))
      <= InQueue(sh.stock, v) + Weight(t, Claim(v)) + Bit(v == |sh.stock.home|)
  }

  lemma EnterHands(sh: Shared, t: Thread, quit: bool, v: Vm)
    requires Entering(t.pc)
    requires t.role.Request? && (t.pc.Recv? ==> t.key in sh.stock.chans && ChanOk(sh.stock, t.key))
    ensures Hands(sh, t, EnterStep(sh, t, quit), v)
  {
    if t.pc.Recv? && !quit && sh.stock.chans[t.key].queue != [] {
      QueuePop(sh.stock, t.key, v);
    }
  }

  lemma ReplaceHands(sh: Shared, t: Thread, v: Vm)
    requires Replacing(t.pc)
    requires t.role.Request?
    ensures Hands(sh, t, ReplaceStep(sh, t), v)
  {
  }

  lemma StartHands(sh: Shared, t: Thread, quit: bool, v: Vm)
    requires Starting(t.pc)
    requires t.key in sh.stock.chans ==> ChanOk(sh.stock, t.key)
    ensures Hands(sh, t, StartStep(sh, t, quit), v)
  {
    QueueStarted(sh.stock, t.key, v);
  }

  lemma BootHands(sh: Shared, t: Thread, quit: bool, v: Vm)
    requires BootingUp(t.pc)
    ensures Hands(sh, t, BootStep(sh, t, quit), v)
  {
  }

  lemma ReleaseHands(sh: Shared, t: Thread, v: Vm)
    requires t.pc.Out?
    ensures Hands(sh, t, ReleaseStep(sh, t), v)
  {
  }

  lemma DeliverHands(sh: Shared, t: Thread, quit: bool, v: Vm)
    requires t.role.Refill? && Delivering(t.pc)
    requires t.pc.Offer? ==> t.key in sh.stock.chans && sh.stock.chans[t.key].open && VmOf(sh.stock, t.pc.vm, t.key)
    ensures Hands(sh, t, DeliverStep(sh, t, quit), v)
  {
    if t.pc.Offer? && !quit {
      QueuePush(sh.stock, t.key, t.pc.vm, v);
    }
  }

  lemma UseHands(sh: Shared, t: Thread, quit: bool, v: Vm)
    requires Using(t.pc)
    ensures Hands(sh, t, UseStep(sh, t, quit), v)
  {
  }

  lemma MoveKeeps(c: Config, sh: Shared, t: Thread, quit: bool)
    requires Ready(c, sh, t, quit)
    ensures Kept(c, Move(c, sh, t, quit))
  {
    if Entering(t.pc) {
      EnterKeeps(c, sh, t, quit);
    } else if Replacing(t.pc) {
      ReplaceKeeps(c, sh, t, quit);
    } else if Starting(t.pc) {
      StartKeeps(c, sh, t, quit);
    } else if BootingUp(t.pc) {
      BootKeeps(c, sh, t, quit);
    } else if t.pc.Out? {
      ReleaseKeeps(c, sh, t, quit);
    } else if Delivering(t.pc) {
      DeliverKeeps(c, sh, t, quit);
    } else {
      UseKeeps(c, sh, t, quit);
    }
  }

  lemma MoveCounts(c: Config, sh: Shared, t: Thread, quit: bool, m: Meter)
    requires Ready(c, sh, t, quit) && Counter(m)
    ensures Evens(c, sh, t, Move(c, sh, t, quit), m)
  {
    if Entering(t.pc) {
      EnterCounts(c, sh, t, quit, m);
    } else if Replacing(t.pc) {
      ReplaceCounts(c, sh, t, m);
    } else if Starting(t.pc) {
      StartCounts(c, sh, t, quit, m);
    } else if BootingUp(t.pc) {
      BootCounts(c, sh, t, quit, m);
    } else if t.pc.Out? {
      ReleaseCounts(c, sh, t, m);
    } else if Delivering(t.pc) {
      DeliverCounts(c, sh, t, quit, m);
    } else {
      UseCounts(c, sh, t, quit, m);
    }
  }

  lemma MoveHolds(c: Config, sh: Shared, t: Thread, quit: bool, m: Meter)
    requires Ready(c, sh, t, quit) && |sh.stock.home| !in sh.killed && m.Hold?
    ensures Evens(c, sh, t, Move(c, sh, t, quit), m)
  {
    if Entering(t.pc) {
      EnterHolds(c, sh, t, quit, m.v);
    } else if Replacing(t.pc) {
      ReplaceHolds(c, sh, t, m.v);
    } else if Starting(t.pc) {
      StartHolds(c, sh, t, quit, m.v);
    } else if BootingUp(t.pc) {
      BootHolds(c, sh, t, quit, m.v);
    } else if t.pc.Out? {
      ReleaseHolds(c, sh, t, m.v);
    } else if Delivering(t.pc) {
      DeliverHolds(c, sh, t, quit, m.v);
    } else {
      UseHolds(c, sh, t, quit, m.v);
    }
  }

  lemma MoveHands(c: Config, sh: Shared, t: Thread, quit: bool, v: Vm)
    requires Ready(c, sh, t, quit)
    ensures Hands(sh, t, Move(c, sh, t, quit), v)
  {
    if Entering(t.pc) {
      EnterHands(sh, t, quit, v);
    } else if Replacing(t.pc) {
      ReplaceHands(sh, t, v);
    } else if Starting(t.pc) {
      StartHands(sh, t, quit, v);
    } else if BootingUp(t.pc) {
      BootHands(sh, t, quit, v);
    } else if t.pc.Out? {
      ReleaseHands(sh, t, v);
    } else if Delivering(t.pc) {
      DeliverHands(sh, t, quit, v);
    } else {
      UseHands(sh, t, quit, v);
    }
  }

  lemma SameStock(c: Config, sh: Shared, t: Thread, quit: bool)
    requires CanMove(c, sh, t, quit) && !t.pc.Begin? && !t.pc.Recv? && !t.pc.Offer?
    ensures Move(c, sh, t, quit).sh.stock == sh.stock
  {
  }

  lemma MoveStock(c: Config, sh: Shared, t: Thread, quit: bool)
    requires Ready(c, sh, t, quit) && StockOk(c, sh.stock)
    ensures StockOk(c, Move(c, sh, t, quit).sh.stock)
    ensures Grows(sh.stock, Move(c, sh, t, quit).sh.stock)
  {
    if t.pc.Begin? {
      StockStarted(c, sh.stock, t.key);
    } else if t.pc.Recv? {
      var q := sh.stock.chans[t.key].queue;
      assert q != [] && !quit ==> Move(c, sh, t, quit).sh.stock == WithQueue(sh.stock, t.key, q[1..]);
      if q != [] {
        StockQueue(c, sh.stock, t.key, q[1..]);
      }
    } else if t.pc.Offer? {
      StockQueue(c, sh.stock, t.key, sh.stock.chans[t.key].queue + [t.pc.vm]);
    } else {
      SameStock(c, sh, t, quit);
    }
  }

  lemma MoveFlags(c: Config, sh: Shared, t: Thread, quit: bool)
    requires CanMove(c, sh, t, quit) && FlagsOk(c, sh)
    requires t.pc.Exit? ==> sh.wg > 0
    requires t.pc.Offer? ==> sh.stock.chans[t.key].open
    requires Held(t.pc).Some? ==> Held(t.pc).value < |sh.stock.home|
    ensures FlagsOk(c, Move(c, sh, t, quit).sh)
  {
  }

  // ---------------------------------------------------------------- the invariant over a step

  lemma ThreadReady(c: Config, s: State, i: nat, quit: bool)
    requires Inv(c, s) && Enabled(c, s, Run(i, quit))
    ensures Ready(c, s.sh, s.threads[i], quit)
  {
    var t := s.threads[i];
    assert Conserved(Live);
    TotalBounds(s.threads, i, Live);
    if Held(t.pc).Some? {
      assert Conserved(Hold(Held(t.pc).value));
      TotalBounds(s.threads, i, Hold(Held(t.pc).value));
    }
  }

  /** A VM that is not yet started is queued nowhere and known to nobody. */
  lemma Unborn(c: Config, s: State, v: Vm)
    requires StockOk(c, s.sh.stock) && ThreadsOk(c, s) && v >= |s.sh.stock.home|
    ensures InQueue(s.sh.stock, v) == 0 && Total(s.threads, Claim(v)) == 0
  {
    TotalZero(s.threads, Claim(v));
  }

  lemma RunKeepsBalance(c: Config, s: State, i: nat, quit: bool)
    requires Inv(c, s) && Enabled(c, s, Run(i, quit))
    ensures Balanced(c, Apply(c, s, Run(i, quit)))
  {
    var t := s.threads[i];
    var o := Move(c, s.sh, t, quit);
    ThreadReady(c, s, i, quit);
    forall m | Conserved(m)
      ensures Balance(c, o.sh, m) + Total(s.threads[i := o.t] + o.kids, m) == 0
    {
      if m.Hold? {
        MoveHolds(c, s.sh, t, quit, m);
      } else {
        MoveCounts(c, s.sh, t, quit, m);
      }
      TotalStep(s.threads, i, o.t, o.kids, m);
    }
  }

  lemma RunKeepsClaims(c: Config, s: State, i: nat, quit: bool)
    requires Inv(c, s) && Enabled(c, s, Run(i, quit))
    ensures Claims(Apply(c, s, Run(i, quit)))
  {
    var t := s.threads[i];
    var o := Move(c, s.sh, t, quit);
    ThreadReady(c, s, i, quit);
    forall v: Vm
      ensures InQueue(o.sh.stock, v) + Total(s.threads[i := o.t] + o.kids, Claim(v)) <= 1
    {
      MoveHands(c, s.sh, t, quit, v);
      TotalStep(s.threads, i, o.t, o.kids, Claim(v));
      if v == |s.sh.stock.home| {
        Unborn(c, s, v);
      }
    }
  }

  lemma RunKeepsThreads(c: Config, s: State, i: nat, quit: bool)
    requires Inv(c, s) && Enabled(c, s, Run(i, quit))
    ensures ThreadsOk(c, Apply(c, s, Run(i, quit)))
  {
    var t := s.threads[i];
    var o := Move(c, s.sh, t, quit);
    ThreadReady(c, s, i, quit);
    MoveKeeps(c, s.sh, t, quit);
    MoveStock(c, s.sh, t, quit);
    var ts := s.threads[i := o.t] + o.kids;
    forall j | 0 <= j < |ts| ensures ThreadOk(c, o.sh.stock, ts[j]) {
      if j >= |s.threads| {
        assert ts[j] in o.kids;
      } else if j != i {
        ThreadStable(c, s.sh.stock, o.sh.stock, s.threads[j]);
      }
    }
  }

  lemma RunKeeps(c: Config, s: State, i: nat, quit: bool)
    requires Inv(c, s) && Enabled(c, s, Run(i, quit))
    ensures Inv(c, Apply(c, s, Run(i, quit)))
  {
    ThreadReady(c, s, i, quit);
    MoveStock(c, s.sh, s.threads[i], quit);
    MoveFlags(c, s.sh, s.threads[i], quit);
    RunKeepsThreads(c, s, i, quit);
    RunKeepsBalance(c, s, i, quit);
    RunKeepsClaims(c, s, i, quit);
  }
}

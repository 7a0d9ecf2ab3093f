/**
  Counting over the threads of a pool, and the invariant of every reachable state.

  Every conservation law has the same form: a quantity of the shared state plus the sum of a
  weight over all threads is constant.  A step changes one thread and adds at most one, so a law
  is kept as soon as that step balances locally.
*/
module PoolAccounting {
  import opened Prelude
  import opened PoolProtocol

  // ---------------------------------------------------------------- weights and sums

  /** What is counted: unfinished refills, semaphore tokens, slots of a channel, holders of a VM, borrowers, refills. */
  datatype Meter =
    | Live
    | Token
    | Slot(l: Lang)
    | Running(l: Lang)
    | Lost(l: Lang)
    | Gone(l: Lang)
    | OwedTo(l: Lang)
    | SkippedOn(l: Lang)
    | Hold(v: Vm)
    | Claim(v: Vm)
    | Borrowed
    | Population
    | Work

  /** The VM a thread has in its hands. */
  function Held(pc: Pc): Option<Vm> {
    match pc
    case Recheck(r) => r
    case Spawn(r) => r
    case Up(_, v) => Some(v)
    case Dead(v) => Some(v)
    case Out(r) => r
    case Offer(v) => Some(v)
    case Drop(v) => Some(v)
    case Lent(r) => r
    case Return(v, _) => Some(v)
    case _ => None
  }

  predicate Booting(pc: Pc) {
    pc.Begin? || BootingUp(pc) || pc.Out?
  }

  predicate EndedWith(pc: Pc, ok: bool) {
    pc == Exit(ok) || pc == Finished(ok)
  }

  /** A refill that ended without delivering, or can only end so. */
  predicate Hopeless(pc: Pc) {
    EndedWith(pc, false) || pc.Dead? || pc.Drop? || pc == Out(None)
  }

  /** A bound on the steps a refill still takes, or that a request at Spawn still causes. */
  function StepsLeft(t: Thread): nat {
    if t.role.Request? then if t.pc.Spawn? then 15 else 0
    else match t.pc
      case Want => 14
      case Begin => 13
      case Up(stage, _) => if stage <= LAST_STAGE then 12 - stage else 6
      case Dead(_) => 5
      case Out(_) => 4
      case Offer(_) => 3
      case Drop(_) => 2
      case Exit(_) => 1
      case _ => 0
  }

  function Bit(b: bool): nat {
    if b then 1 else 0
  }

  function Weight(t: Thread, m: Meter): nat {
    match m
    case Live => Bit(t.role.Refill? && !t.pc.Finished?)
    case Token => Bit(Booting(t.pc))
    case Running(l) => Bit(t.key == l && t.role.Refill? && !t.pc.Exit? && !t.pc.Finished?)
    case Lost(l) => Bit(t.key == l && t.role.Refill? && EndedWith(t.pc, false))
    case Gone(l) => Bit(t.key == l && t.role.Refill? && Hopeless(t.pc))
    case OwedTo(l) => Bit(t.key == l && t.role.Request? && t.role.slot.Owed?)
    case SkippedOn(l) => Bit(t.key == l && t.role.Request? && t.role.slot.Skipped?)
    case Slot(l) =>
      Bit(t.key == l && if t.role.Refill? then !EndedWith(t.pc, true)
                        else t.role.slot.Owed? || t.role.slot.Skipped?)
    case Hold(v) => Bit(Held(t.pc) == Some(v))
    case Claim(v) => Bit(Held(t.pc) == Some(v) || (t.role.Request? && t.role.got == Some(v)))
    case Borrowed => Bit(t.role.Request? && Held(t.pc).Some?)
    case Population => Bit(t.role.Refill? || t.pc.Spawn?)
    case Work => StepsLeft(t)
  }

  function Total(ts: seq<Thread>, m: Meter): nat {
    if ts == [] then 0 else Weight(ts[0], m) + Total(ts[1..], m)
  }

  lemma {:induction false} TotalConcat(a: seq<Thread>, b: seq<Thread>, m: Meter)
    ensures Total(a + b, m) == Total(a, m) + Total(b, m)
  {
    if a == [] {
      assert a + b == b;
    } else {
      assert (a + b)[1..] == a[1..] + b;
      TotalConcat(a[1..], b, m);
    }
  }

  lemma {:induction false} TotalAround(ts: seq<Thread>, i: nat, m: Meter)
    requires i < |ts|
    ensures Total(ts, m) == Total(ts[..i], m) + Weight(ts[i], m) + Total(ts[i + 1..], m)
  {
    assert ts == ts[..i] + ts[i..] && ts[i..][1..] == ts[i + 1..];
    TotalConcat(ts[..i], ts[i..], m);
  }

  lemma TotalUpdate(ts: seq<Thread>, i: nat, t: Thread, m: Meter)
    requires i < |ts|
    ensures Total(ts[i := t], m) + Weight(ts[i], m) == Total(ts, m) + Weight(t, m)
  {
    var us := ts[i := t];
    assert us[..i] == ts[..i] && us[i + 1..] == ts[i + 1..];
    TotalAround(ts, i, m);
    TotalAround(us, i, m);
  }

  lemma TotalStep(ts: seq<Thread>, i: nat, t: Thread, kids: seq<Thread>, m: Meter)
    requires i < |ts|
    ensures Total(ts[i := t] + kids, m) + Weight(ts[i], m)
         == Total(ts, m) + Weight(t, m) + Total(kids, m)
  {
    TotalConcat(ts[i := t], kids, m);
    TotalUpdate(ts, i, t, m);
  }

  lemma TotalBounds(ts: seq<Thread>, i: nat, m: Meter)
    requires i < |ts|
    ensures Weight(ts[i], m) <= Total(ts, m)
  {
    TotalAround(ts, i, m);
  }

  /** Two different threads both count. */
  lemma TotalBoundsTwo(ts: seq<Thread>, i: nat, j: nat, m: Meter)
    requires i < j < |ts|
    ensures Weight(ts[i], m) + Weight(ts[j], m) <= Total(ts, m)
  {
    TotalAround(ts, i, m);
    TotalAround(ts[i + 1..], j - i - 1, m);
  }

  lemma {:induction false} TotalZero(ts: seq<Thread>, m: Meter)
    requires forall i :: 0 <= i < |ts| ==> Weight(ts[i], m) == 0
    ensures Total(ts, m) == 0
  {
    if ts != [] {
      forall i | 0 <= i < |ts[1..]| ensures Weight(ts[1..][i], m) == 0 {
        assert ts[1..][i] == ts[i + 1];
      }
      TotalZero(ts[1..], m);
    }
  }

  /** A positive sum has a thread that contributes to it. */
  lemma {:induction false} TotalPositive(ts: seq<Thread>, m: Meter) returns (i: nat)
    requires Total(ts, m) > 0
    ensures i < |ts| && Weight(ts[i], m) > 0
  {
    if Weight(ts[0], m) > 0 {
      i := 0;
    } else {
      var j := TotalPositive(ts[1..], m);
      i := j + 1;
    }
  }

  /** The four ways in which a thread can stand for a slot of a channel. */
  lemma {:induction false} TotalSlot(ts: seq<Thread>, l: Lang)
    ensures Total(ts, Slot(l)) == Total(ts, Running(l)) + Total(ts, Lost(l))
                                + Total(ts, OwedTo(l)) + Total(ts, SkippedOn(l))
  {
    if ts != [] {
      TotalSlot(ts[1..], l);
    }
  }

  // ---------------------------------------------------------------- the invariant

  predicate PastWait(k: Stock) {
    k.closer.Draining? || k.closer.Closed?
  }

  function InHand(k: Stock): Option<Vm> {
    if k.closer.Draining? then k.closer.vm else None
  }

  function Current(k: Stock): Option<Lang> {
    if k.closer.Draining? then k.closer.cur else None
  }

  /** How often a VM is queued in its channel. */
  ghost function InQueue(k: Stock, v: Vm): nat {
    if v < |k.home| && k.home[v] in k.chans then multiset(k.chans[k.home[v]].queue)[v] else 0
  }

  ghost predicate VmOf(k: Stock, v: Vm, key: Lang) {
    v < |k.home| && k.home[v] == key
  }

  ghost predicate ChanOk(k: Stock, l: Lang)
    requires l in k.chans
  {
    var ch := k.chans[l];
    && (ch.open <==> !PastWait(k) || (k.closer.Draining? && l in k.closer.todo))
    && (!ch.open && Current(k) != Some(l) ==> ch.queue == [])
    && forall i :: 0 <= i < |ch.queue| ==> VmOf(k, ch.queue[i], l)
  }

  ghost predicate DrainOk(k: Stock) {
    k.closer.Draining? ==>
      && k.closer.todo <= k.chans.Keys
      && (k.closer.cur.Some? ==> k.closer.cur.value in k.chans && k.closer.cur.value !in k.closer.todo)
      && (k.closer.vm.Some? ==>
            k.closer.cur.Some? && k.closer.vm.value < |k.home| && k.drained[k.closer.cur.value] > 0)
  }

  ghost predicate StockOk(c: Config, k: Stock) {
    && k.chans.Keys == c.Keys()
    && (forall l :: l in k.chans ==> ChanOk(k, l))
    && DrainOk(k)
  }

  ghost predicate FlagsOk(c: Config, sh: Shared) {
    && !sh.panicked
    && 0 <= sh.sem <= c.Tokens()
    && (sh.closed <==> !sh.stock.closer.NotCalled?)
    && (sh.cancelled <==> !sh.stock.closer.NotCalled? && !sh.stock.closer.Cancelling?)
    && (forall v :: v in sh.killed ==> v < |sh.stock.home|)
  }

  ghost predicate RefillOk(k: Stock, t: Thread) {
    && RefillPc(t.pc) && !t.pc.Crashed?
    && t.key in k.chans
    && (PastWait(k) ==> !t.pc.Offer? && !(t.pc.Out? && t.pc.r.Some?))
  }

  ghost predicate RequestOk(c: Config, k: Stock, t: Thread)
    requires t.role.Request?
  {
    var Request(lang, _, slot, got) := t.role;
    && t.key == c.Key(lang)
    && (t.pc.Check? || t.pc == Finished(false) || t.key in k.chans)
    && (got.Some? ==> VmOf(k, got.value, t.key))
    && match t.pc
       case Check | Recv | Crashed => slot.NoSlot? && got.None?
       case Recheck(r) =>
         && r == got && slot == (if r.Some? then Owed else NoSlot)
         && (r.None? ==> !k.chans[t.key].open)
       case Spawn(r) => r.Some? && r == got && slot.Owed?
       case Want | Begin | Up(_, _) | Dead(_) | Out(_) =>
         c.strategy.Spare? && slot.NoSlot? && got.None?
       case Lent(r) => r == got && !slot.Owed? && (r.None? ==> slot.NoSlot? && !k.chans[t.key].open)
       case Return(v, _) => got == Some(v) && !slot.Owed?
       case Finished(ok) => !slot.Owed? && (ok ==> got.Some?)
       case _ => false
  }

  ghost predicate ThreadOk(c: Config, k: Stock, t: Thread) {
    && (if t.role.Refill? then RefillOk(k, t) else RequestOk(c, k, t))
    && (t.pc.Up? ==> t.pc.stage <= LAST_STAGE)
    && (Held(t.pc).Some? ==> VmOf(k, Held(t.pc).value, t.key))
  }

  /** The stock's side of the laws of single VMs and of channel slots. */
  ghost function Stocked(c: Config, k: Stock, m: Meter): int {
    match m
    case Slot(l) => if l in k.chans then |k.chans[l].queue| + k.drained[l] - c.Capacity() else 0
    case Hold(v) => InQueue(k, v) + Bit(InHand(k) == Some(v)) - Bit(v < |k.home|)
    case _ => 0
  }

  /** The shared side of a conservation law; the threads' side is Total. */
  ghost function Balance(c: Config, sh: Shared, m: Meter): int {
    match m
    case Live => -sh.wg
    case Token => -sh.sem
    case Hold(v) => Stocked(c, sh.stock, m) + Bit(v in sh.killed)
    case _ => Stocked(c, sh.stock, m)
  }

  predicate Conserved(m: Meter) {
    m.Live? || m.Token? || m.Slot? || m.Hold?
  }

  ghost predicate Balanced(c: Config, s: State) {
    forall m :: Conserved(m) ==> Balance(c, s.sh, m) + Total(s.threads, m) == 0
  }

  /** A VM is queued, or reserved by one thread, or neither; a request reserves it for ever. */
  ghost predicate Claims(s: State) {
    forall v: Vm :: InQueue(s.sh.stock, v) + Total(s.threads, Claim(v)) <= 1
  }

  ghost predicate ThreadsOk(c: Config, s: State) {
    forall i :: 0 <= i < |s.threads| ==> ThreadOk(c, s.sh.stock, s.threads[i])
  }

  ghost predicate Inv(c: Config, s: State) {
    && StockOk(c, s.sh.stock)
    && FlagsOk(c, s.sh)
    && ThreadsOk(c, s)
    && Balanced(c, s)
    && Claims(s)
  }
}

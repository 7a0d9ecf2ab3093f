/**
  The VM pool as interleaved atomic steps (package pool, with the boot and kill steps of
  package firecracker).

  The three strategies are instances of one protocol:
    PerLang   one channel of `size` VMs per registered language;
    Generic   one channel of `size` VMs, the requested language is ignored;
    Spare     one channel of one VM per language, and a cold boot when it is empty.

  A thread is either a refill goroutine or one call of Executor.Execute, which acquires a VM,
  uses it and kills it.  Every thread has an explicit program counter, and one step moves one
  thread across one access to shared state.
*/
module PoolProtocol {
  import opened Prelude

  type Lang = string

  /** VMs are numbered in the order in which their processes are started. */
  type Vm = nat

  datatype Strategy = PerLang | Generic | Spare

  datatype Config = Config(strategy: Strategy, langs: seq<Lang>, size: nat, bootConcurrency: int) {
    ghost predicate Valid() {
      && size >= 1
      && forall i, j :: 0 <= i < j < |langs| ==> langs[i] != langs[j]
    }

    function Channels(): seq<Lang> {
      if strategy.Generic? then ["generic"] else langs
    }

    function Keys(): set<Lang> {
      set l | l in Channels()
    }

    function Capacity(): nat {
      if strategy.Spare? then 1 else size
    }

    /** newBootSemaphore floors the number of tokens to one. */
    function Tokens(): int {
      if bootConcurrency < 1 then 1 else bootConcurrency
    }

    /** The channel that serves a request. */
    function Key(langID: Lang): Lang {
      if strategy.Generic? then "generic" else langID
    }

    /** The LanguageID written into a VM booted for a channel. */
    function LanguageID(key: Lang): Lang {
      if strategy.Generic? then "" else key
    }
  }

  /**
    Program counters.  Check .. Spawn belong to Acquire; Want .. Out to a boot, whoever runs it;
    Offer .. Exit to the end of a refill; Lent .. Crashed to Execute after Acquire returned.
  */
  datatype Pc =
    | Check                          // before the first closed.Load
    | Recv                           // at the select on the channel
    | Recheck(r: Option<Vm>)         // received, before the second closed.Load
    | Spawn(r: Option<Vm>)           // read closed as false, before wg.Add and go refill
    | Want                           // at sem.acquire
    | Begin                          // token held, process not started
    | Up(stage: nat, vm: Vm)         // process started, about to run a boot stage
    | Dead(vm: Vm)                   // a boot stage failed, about to kill
    | Out(r: Option<Vm>)             // boot returned, token not yet released
    | Offer(vm: Vm)                  // at the select between send and ctx.Done
    | Drop(vm: Vm)                   // chose ctx.Done, about to kill
    | Exit(delivered: bool)          // before the deferred wg.Done
    | Lent(r: Option<Vm>)            // Acquire returned a nil error
    | Return(vm: Vm, ok: bool)       // exchange ended, about to release or discard
    | Finished(ok: bool)
    | Crashed

  /** What became of the channel slot whose VM a request received. */
  datatype SlotUse = NoSlot | Owed | Replaced | Skipped

  /** A refill goroutine, or one call of Execute with its own context and what it received. */
  datatype Role =
    | Refill
    | Request(lang: Lang, ctxDone: bool, slot: SlotUse, got: Option<Vm>)

  /** `key` is the channel a thread works for. */
  datatype Thread = Thread(key: Lang, pc: Pc, role: Role)

  datatype Chan = Chan(queue: seq<Vm>, open: bool)

  datatype Closer =
    | NotCalled
    | Cancelling
    | Waiting
    | Draining(todo: set<Lang>, cur: Option<Lang>, vm: Option<Vm>)
    | Closed

  /**
    The channels, the VMs started so far (`home[v]` is the channel VM v was booted for), how far
    Close has come, and which channels it took VMs from.
  */
  datatype Stock = Stock(
    chans: map<Lang, Chan>, home: seq<Lang>, closer: Closer, drained: multiset<Lang>)

  /** The pool's fields.  `panicked` records a Go run-time panic in the pool's own code. */
  datatype Shared = Shared(
    closed: bool, cancelled: bool, panicked: bool, sem: int, wg: int, killed: set<Vm>, stock: Stock)

  datatype State = State(sh: Shared, threads: seq<Thread>)

  // ---------------------------------------------------------------- construction

  function NewRefill(key: Lang): Thread {
    Thread(key, Want, Refill)
  }

  function NewRequest(c: Config, langID: Lang): Thread {
    Thread(c.Key(langID), Check, Request(langID, false, NoSlot, None))
  }

  function Repeat(t: Thread, n: nat): (ts: seq<Thread>) {
    if n == 0 then [] else Repeat(t, n - 1) + [t]
  }

  function Spawned(channels: seq<Lang>, n: nat): seq<Thread> {
    if channels == [] then []
    else Spawned(channels[..|channels| - 1], n) + Repeat(NewRefill(channels[|channels| - 1]), n)
  }

  function Init(c: Config): State {
    State(
      Shared(false, false, false, 0, c.Capacity() * |c.Channels()|, {},
             Stock(map l | l in c.Keys() :: Chan([], true), [], NotCalled, multiset{})),
      Spawned(c.Channels(), c.Capacity()))
  }

  // ---------------------------------------------------------------- thread steps

  const LAST_STAGE := 6

  /**
    The stages of Driver.Boot after the process is started: 0 waits for the socket, 3 clones
    the rootfs, the others are API calls made under the boot's context.
  */
  predicate IsPut(stage: nat) {
    stage != 0 && stage != 3
  }

  /** The context a thread boots under: the pool's for a refill, the caller's for a request. */
  predicate CtxDone(sh: Shared, t: Thread) {
    match t.role
    case Refill => sh.cancelled
    case Request(_, done, _, _) => done
  }

  predicate Entering(pc: Pc) {
    pc.Check? || pc.Recv?
  }

  predicate Replacing(pc: Pc) {
    pc.Recheck? || pc.Spawn?
  }

  predicate Starting(pc: Pc) {
    pc.Want? || pc.Begin?
  }

  predicate BootingUp(pc: Pc) {
    pc.Up? || pc.Dead?
  }

  predicate Delivering(pc: Pc) {
    pc.Offer? || pc.Drop? || pc.Exit?
  }

  predicate Using(pc: Pc) {
    pc.Lent? || pc.Return?
  }

  predicate RefillPc(pc: Pc) {
    !Entering(pc) && !Replacing(pc) && !Using(pc)
  }

  predicate RequestPc(pc: Pc) {
    !Delivering(pc)
  }

  /**
    Whether a thread can take its next step.  Where the code has a choice, `quit` selects the
    branch: the ctx.Done case of a select, or the failure of a call.
  */
  predicate CanMove(c: Config, sh: Shared, t: Thread, quit: bool) {
    && (if t.role.Refill? then RefillPc(t.pc) else RequestPc(t.pc))
    && match t.pc
       case Check | Recheck(_) | Spawn(_) | Dead(_) | Drop(_) | Exit(_) | Return(_, _) => !quit
       case Recv =>
         && t.key in sh.stock.chans
         && if quit then t.role.ctxDone && !c.strategy.Spare?
            else sh.stock.chans[t.key].queue != [] || !sh.stock.chans[t.key].open || c.strategy.Spare?
       case Want => if quit then CtxDone(sh, t) else sh.sem < c.Tokens()
       case Begin => true
       case Up(stage, _) => quit || !IsPut(stage) || !CtxDone(sh, t)
       case Out(_) => !quit && sh.sem > 0
       case Offer(_) =>
         && t.key in sh.stock.chans
         && if quit then sh.cancelled
            else !sh.stock.chans[t.key].open || |sh.stock.chans[t.key].queue| < c.Capacity()
       case Lent(r) => r.None? ==> !quit
       case Finished(_) | Crashed => false
  }

  datatype Outcome = Outcome(sh: Shared, t: Thread, kids: seq<Thread>)

  function Local(sh: Shared, t: Thread): Outcome {
    Outcome(sh, t, [])
  }

  function Killed(sh: Shared, v: Vm): Shared {
    sh.(killed := sh.killed + {v})
  }

  function WithQueue(k: Stock, l: Lang, q: seq<Vm>): Stock
    requires l in k.chans
  {
    k.(chans := k.chans[l := k.chans[l].(queue := q)])
  }

  function Started(k: Stock, key: Lang): Stock {
    k.(home := k.home + [key])
  }

  /** Acquire up to the receive. */
  function EnterStep(sh: Shared, t: Thread, quit: bool): Outcome
    requires t.role.Request? && (t.pc.Recv? && !quit ==> t.key in sh.stock.chans)
  {
    match t.pc
    case Check =>
      if sh.closed || t.key !in sh.stock.chans then Local(sh, t.(pc := Finished(false)))
      else Local(sh, t.(pc := Recv))
    case Recv =>
      if quit then Local(sh, t.(pc := Finished(false)))
      else
        var q := sh.stock.chans[t.key].queue;
        if q != [] then
          Local(sh.(stock := WithQueue(sh.stock, t.key, q[1..])),
                t.(pc := Recheck(Some(q[0])), role := t.role.(slot := Owed, got := Some(q[0]))))
        else if !sh.stock.chans[t.key].open then Local(sh, t.(pc := Recheck(None)))
        else Local(sh, t.(pc := Want))
    case _ => Local(sh, t)
  }

  /** Acquire after the receive: spawn a replacement unless the pool is closed. */
  function ReplaceStep(sh: Shared, t: Thread): Outcome
    requires t.role.Request?
  {
    match t.pc
    case Recheck(r) =>
      if !sh.closed then Local(sh, t.(pc := Spawn(r)))
      else if r.Some? then Local(sh, t.(pc := Lent(r), role := t.role.(slot := Skipped)))
      else Local(sh, t.(pc := Lent(r)))
    case Spawn(r) =>
      Outcome(sh.(wg := sh.wg + 1), t.(pc := Lent(r), role := t.role.(slot := Replaced)),
              [NewRefill(t.key)])
    case _ => Local(sh, t)
  }

  /** Take a token of the boot semaphore and start the VM's process. */
  function StartStep(sh: Shared, t: Thread, quit: bool): Outcome {
    match t.pc
    case Want =>
      if !quit then Local(sh.(sem := sh.sem + 1), t.(pc := Begin))
      else if t.role.Refill? then Local(sh, t.(pc := Exit(false)))
      else Local(sh, t.(pc := Finished(false)))
    case Begin =>
      if quit then Local(sh, t.(pc := Out(None)))
      else Local(sh.(stock := Started(sh.stock, t.key)), t.(pc := Up(0, |sh.stock.home|)))
    case _ => Local(sh, t)
  }

  /** The stages of Driver.Boot: a failed stage kills the VM. */
  function BootStep(sh: Shared, t: Thread, quit: bool): Outcome {
    match t.pc
    case Up(stage, v) =>
      if quit then Local(sh, t.(pc := Dead(v)))
      else if stage < LAST_STAGE then Local(sh, t.(pc := Up(stage + 1, v)))
      else Local(sh, t.(pc := Out(Some(v))))
    case Dead(v) =>
      Local(Killed(sh, v), t.(pc := Out(None)))
    case _ => Local(sh, t)
  }

  /** Release the token and hand on what Driver.Boot returned. */
  function ReleaseStep(sh: Shared, t: Thread): Outcome
    requires t.pc.Out?
  {
    var sh' := sh.(sem := sh.sem - 1);
    if t.role.Refill? then
      if t.pc.r.Some? then Local(sh', t.(pc := Offer(t.pc.r.value)))
      else Local(sh', t.(pc := Exit(false)))
    else
      if t.pc.r.Some? then Local(sh', t.(pc := Lent(t.pc.r), role := t.role.(got := t.pc.r)))
      else Local(sh', t.(pc := Finished(false)))
  }

  /** The end of a refill: deliver the VM or kill it, then the deferred wg.Done. */
  function DeliverStep(sh: Shared, t: Thread, quit: bool): Outcome
    requires t.pc.Offer? ==> t.key in sh.stock.chans
  {
    match t.pc
    case Offer(v) =>
      if quit then Local(sh, t.(pc := Drop(v)))
      else if !sh.stock.chans[t.key].open then Local(sh.(panicked := true), t.(pc := Crashed))
      else Local(sh.(stock := WithQueue(sh.stock, t.key, sh.stock.chans[t.key].queue + [v])), t.(pc := Exit(true)))
    case Drop(v) =>
      Local(Killed(sh, v), t.(pc := Exit(false)))
    case Exit(d) =>
      Local(sh.(wg := sh.wg - 1, panicked := sh.panicked || sh.wg <= 0), t.(pc := Finished(d)))
    case _ => Local(sh, t)
  }

  /** Execute after Acquire.  exchange dereferences the VM, so a nil VM is a nil-pointer panic. */
  function UseStep(sh: Shared, t: Thread, quit: bool): Outcome {
    match t.pc
    case Lent(None) => Local(sh, t.(pc := Crashed))
    case Lent(Some(v)) => Local(sh, t.(pc := Return(v, !quit)))
    case Return(v, ok) => Local(Killed(sh, v), t.(pc := Finished(ok)))
    case _ => Local(sh, t)
  }

  function Move(c: Config, sh: Shared, t: Thread, quit: bool): Outcome
    requires CanMove(c, sh, t, quit)
  {
    if Entering(t.pc) then EnterStep(sh, t, quit)
    else if Replacing(t.pc) then ReplaceStep(sh, t)
    else if Starting(t.pc) then StartStep(sh, t, quit)
    else if Delivering(t.pc) then DeliverStep(sh, t, quit)
    else if Using(t.pc) then UseStep(sh, t, quit)
    else if BootingUp(t.pc) then BootStep(sh, t, quit)
    else ReleaseStep(sh, t)
  }

  // ---------------------------------------------------------------- Close

  predicate CanClose(sh: Shared, l: Lang) {
    match sh.stock.closer
    case NotCalled | Cancelling => true
    case Waiting => sh.wg == 0
    case Draining(todo, cur, vm) =>
      if vm.Some? then true
      else if cur.Some? then cur.value in sh.stock.chans
      else todo != {} ==> l in todo && l in sh.stock.chans
    case Closed => false
  }

  function Reached(k: Stock, at: Closer): Stock {
    k.(closer := at)
  }

  /** The drain loop: close a channel, then receive and kill until it is empty. */
  function DrainMove(sh: Shared, l: Lang): Shared
    requires CanClose(sh, l) && sh.stock.closer.Draining?
  {
    var Draining(todo, cur, vm) := sh.stock.closer;
    if vm.Some? then Killed(sh, vm.value).(stock := Reached(sh.stock, Draining(todo, cur, None)))
    else if cur.Some? then
      var q := sh.stock.chans[cur.value].queue;
      if q == [] then sh.(stock := Reached(sh.stock, Draining(todo, None, None)))
      else sh.(stock := Reached(WithQueue(sh.stock, cur.value, q[1..]), Draining(todo, cur, Some(q[0]))).(
                 drained := sh.stock.drained + multiset{cur.value}))
    else if todo == {} then sh.(stock := Reached(sh.stock, Closed))
    else sh.(panicked := sh.panicked || !sh.stock.chans[l].open,
             stock := Reached(sh.stock, Draining(todo - {l}, Some(l), None)).(
               chans := sh.stock.chans[l := sh.stock.chans[l].(open := false)]))
  }

  /** One step of Close; `l` is the next key of the range over the channel map. */
  function CloseMove(sh: Shared, l: Lang): Shared
    requires CanClose(sh, l)
  {
    match sh.stock.closer
    case NotCalled => sh.(closed := true, stock := Reached(sh.stock, Cancelling))
    case Cancelling => sh.(cancelled := true, stock := Reached(sh.stock, Waiting))
    case Waiting => sh.(stock := Reached(sh.stock, Draining(sh.stock.chans.Keys, None, None)))
    case Draining(_, _, _) => DrainMove(sh, l)
  }

  // ---------------------------------------------------------------- steps and runs

  datatype Step =
    | Run(i: nat, quit: bool)    // thread i moves
    | Close(l: Lang)             // Close moves
    | Call(langID: Lang)         // a worker calls Execute
    | Fire(i: nat)               // the context of request i is done

  ghost predicate Enabled(c: Config, s: State, a: Step) {
    match a
    case Run(i, quit) => i < |s.threads| && CanMove(c, s.sh, s.threads[i], quit)
    case Close(l) => CanClose(s.sh, l)
    case Call(_) => true
    case Fire(i) => i < |s.threads| && s.threads[i].role.Request?
  }

  ghost function Apply(c: Config, s: State, a: Step): State
    requires Enabled(c, s, a)
  {
    match a
    case Run(i, quit) =>
      var o := Move(c, s.sh, s.threads[i], quit);
      State(o.sh, s.threads[i := o.t] + o.kids)
    case Close(l) => s.(sh := CloseMove(s.sh, l))
    case Call(langID) =>
      s.(threads := s.threads + [NewRequest(c, langID)])
    case Fire(i) => 
      var t := s.threads[i];
      s.(threads := s.threads[i := t.(role := t.role.(ctxDone := true))])
  }

  /** Every step of the list is enabled when its turn comes. */
  ghost predicate Legal(c: Config, s: State, run: seq<Step>)
    decreases |run|
  {
    run == [] || (Enabled(c, s, run[0]) && Legal(c, Apply(c, s, run[0]), run[1..]))
  }

  ghost function After(c: Config, s: State, run: seq<Step>): State
    requires Legal(c, s, run)
    decreases |run|
  {
    if run == [] then s else After(c, Apply(c, s, run[0]), run[1..])
  }
}

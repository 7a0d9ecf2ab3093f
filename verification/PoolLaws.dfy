/** What each operation of the pool does, in the terms of its caller. */
module PoolLaws {
  import opened Prelude
  import opened PoolProtocol
  import opened PoolAccounting
  import opened PoolInvariant
  import opened PoolRuns
  import opened PoolTheorems
  import opened PoolLiveness

  // ---------------------------------------------------------------- construction

  /** A new pool has one refill per slot, all at the semaphore, for channels of size PoolSize, or one. */
  lemma NewPool(c: Config, l: Lang)
    requires c.Valid()
    ensures var s := Init(c); var size := if c.strategy.Spare? then 1 else c.size;
      var channels := if c.strategy.Generic? then 1 else |c.langs|;
      && Total(s.threads, Population) == size * channels == |s.threads| == s.sh.wg
      && (l in s.sh.stock.chans <==> if c.strategy.Generic? then l == "generic" else l in c.langs)
      && (l in s.sh.stock.chans ==>
            s.sh.stock.chans[l] == Chan([], true) && Total(s.threads, Running(l)) == size)
      && !s.sh.closed && !s.sh.cancelled && s.sh.sem == 0 && s.sh.stock.home == []
      && forall i :: 0 <= i < |s.threads| ==> s.threads[i].role.Refill? && s.threads[i].pc.Want?
  {
    var ts := Spawned(c.Channels(), c.Capacity());
    TotalSpawned(c.Channels(), c.Capacity(), Population);
    TotalSpawned(c.Channels(), c.Capacity(), Running(l));
    SpawnedSize(c.Channels(), c.Capacity());
    forall i | 0 <= i < |ts| ensures ts[i].role.Refill? && ts[i].pc.Want? {
      SpawnedAt(c.Channels(), c.Capacity(), i);
    }
  }

  lemma {:induction false} RepeatSize(t: Thread, n: nat)
    ensures |Repeat(t, n)| == n
  {
    if n > 0 {
      RepeatSize(t, n - 1);
    }
  }

  lemma {:induction false} SpawnedSize(channels: seq<Lang>, n: nat)
    ensures |Spawned(channels, n)| == n * |channels|
  {
    if channels != [] {
      SpawnedSize(channels[..|channels| - 1], n);
      RepeatSize(NewRefill(channels[|channels| - 1]), n);
      assert n * |channels| == n * (|channels| - 1) + n;
    }
  }

  // ---------------------------------------------------------------- Acquire

  /** A call is let in exactly when the pool is open and serves the language; otherwise it is an error. */
  lemma CheckDecides(c: Config, s: State, i: nat)
    requires Inv(c, s) && i < |s.threads| && s.threads[i].pc.Check?
    ensures s.threads[i].role.Request? && Enabled(c, s, Run(i, false)) && !Enabled(c, s, Run(i, true))
    ensures var s' := Apply(c, s, Run(i, false));
      var served := c.strategy.Generic? || s.threads[i].role.lang in c.langs;
      && s'.sh == s.sh
      && s'.threads == s.threads[i := s.threads[i].(pc := if !s.sh.closed && served then Recv else Finished(false))]
  {
    assert ThreadOk(c, s.sh.stock, s.threads[i]);
    assert s.threads[i].key in s.sh.stock.chans <==> s.threads[i].key in c.Keys();
  }

  /** The place of a call that is refused. */
  predicate Refused(t: Thread) {
    (t.pc.Check? || t.pc == Finished(false)) && t.role.Request? && t.role.got.None?
  }

  lemma StaysRefused(c: Config, s: State, a: Step, i: nat)
    requires Inv(c, s) && Enabled(c, s, a) && i < |s.threads| && Refused(s.threads[i])
    requires s.sh.closed || (!c.strategy.Generic? && s.threads[i].role.lang !in c.langs)
    ensures i < |Apply(c, s, a).threads| && Refused(Apply(c, s, a).threads[i])
    ensures s.sh.closed ==> Apply(c, s, a).sh.closed
  {
    StepKeeps(c, s, a);
    if a == Run(i, false) && s.threads[i].pc.Check? {
      CheckDecides(c, s, i);
    }
    if a.Run? {
      SameClosed(c, s.sh, s.threads[a.i], a.quit);
    }
  }

  lemma SameClosed(c: Config, sh: Shared, t: Thread, quit: bool)
    requires CanMove(c, sh, t, quit)
    ensures Move(c, sh, t, quit).sh.closed == sh.closed && Move(c, sh, t, quit).sh.cancelled == sh.cancelled
  {
  }

  lemma {:induction false} RefusedOverRun(c: Config, s: State, run: seq<Step>, i: nat)
    requires Inv(c, s) && Legal(c, s, run) && i < |s.threads| && Refused(s.threads[i])
    requires s.sh.closed || (!c.strategy.Generic? && s.threads[i].role.lang !in c.langs)
    ensures i < |After(c, s, run).threads| && Refused(After(c, s, run).threads[i])
    decreases |run|
  {
    if run != [] {
      StaysRefused(c, s, run[0], i);
      StepKeeps(c, s, run[0]);
      SameThread(c, s, [run[0]], i);
      assert [run[0]][1..] == [];
      RefusedOverRun(c, Apply(c, s, run[0]), run[1..], i);
    }
  }

  /**
    A call of Execute for a language, over any run: it stays a request for that language; a VM it is
    given carries that LanguageID, and was booted for it; it is never given one when the language is
    not registered, or when the pool was closed at the call.
  */
  lemma CallGetsItsLanguage(c: Config, s: State, langID: Lang, run: seq<Step>)
    requires Inv(c, s) && Legal(c, Apply(c, s, Call(langID)), run)
    ensures var s' := After(c, Apply(c, s, Call(langID)), run); var i := |s.threads|;
      && i < |s'.threads| && s'.threads[i].role.Request? && s'.threads[i].role.lang == langID
      && (s'.threads[i].role.got.Some? ==>
            var v := s'.threads[i].role.got.value;
            && v < |s'.sh.stock.home|
            && (if c.strategy.Generic? then c.LanguageID(s'.sh.stock.home[v]) == ""
                else c.LanguageID(s'.sh.stock.home[v]) == s'.sh.stock.home[v] == langID))
      && (s.sh.closed || (!c.strategy.Generic? && langID !in c.langs) ==>
            s'.threads[i].role.got.None? && (s'.threads[i].pc.Check? || s'.threads[i].pc == Finished(false)))
  {
    var s1 := Apply(c, s, Call(langID));
    var i := |s.threads|;
    StepKeeps(c, s, Call(langID));
    SameThread(c, s1, run, i);
    RunInv(c, s1, run);
    assert ThreadOk(c, After(c, s1, run).sh.stock, After(c, s1, run).threads[i]);
    if s.sh.closed || (!c.strategy.Generic? && langID !in c.langs) {
      RefusedOverRun(c, s1, run, i);
    }
  }

  /** While waiting, a call can give up exactly when its own context is done, and then ends in an error. */
  lemma WaitDecides(c: Config, s: State, i: nat)
    requires Inv(c, s) && i < |s.threads| && s.threads[i].pc.Recv?
    ensures s.threads[i].role.Request? && s.threads[i].key in s.sh.stock.chans
    ensures Enabled(c, s, Run(i, true)) <==> s.threads[i].role.ctxDone && !c.strategy.Spare?
    ensures Enabled(c, s, Run(i, true)) ==>
              Apply(c, s, Run(i, true)) == s.(threads := s.threads[i := s.threads[i].(pc := Finished(false))])
    ensures var ch := s.sh.stock.chans[s.threads[i].key];
      && (Enabled(c, s, Run(i, false)) <==> ch.queue != [] || !ch.open || c.strategy.Spare?)
      && (Enabled(c, s, Run(i, false)) ==>
            var t := Apply(c, s, Run(i, false)).threads[i];
            if ch.queue != [] then t.pc == Recheck(Some(ch.queue[0])) && t.role.got == Some(ch.queue[0])
            else t.pc == (if ch.open then Want else Recheck(None)) && t.role.got.None?)
  {
    assert ThreadOk(c, s.sh.stock, s.threads[i]);
  }

  /** The end of a call's context changes nothing by itself, and lets a waiting prewarmed call give up. */
  lemma ContextEnds(c: Config, s: State, i: nat)
    requires Inv(c, s) && i < |s.threads| && s.threads[i].role.Request?
    ensures Enabled(c, s, Fire(i))
    ensures var s' := Apply(c, s, Fire(i));
      && s'.sh == s.sh && s'.threads == s.threads[i := s'.threads[i]]
      && s'.threads[i].pc == s.threads[i].pc && s'.threads[i].role == s.threads[i].role.(ctxDone := true)
      && (s.threads[i].pc.Recv? && !c.strategy.Spare? ==> Enabled(c, s', Run(i, true)))
  {
    assert ThreadOk(c, s.sh.stock, s.threads[i]);
  }

  /** A receipt returns its VM, and starts one refill for its channel exactly when the pool is open then. */
  lemma RecheckDecides(c: Config, s: State, i: nat)
    requires Inv(c, s) && i < |s.threads| && s.threads[i].pc.Recheck?
    ensures Enabled(c, s, Run(i, false))
    ensures var s1 := Apply(c, s, Run(i, false)); var r := s.threads[i].pc.r;
      if s.sh.closed then s1.threads[i].pc == Lent(r) && |s1.threads| == |s.threads| && s1.sh == s.sh
      else
        && Enabled(c, s1, Run(i, false))
        && var s2 := Apply(c, s1, Run(i, false));
           && s2.threads[i].pc == Lent(r) && |s2.threads| == |s.threads| + 1
           && s2.threads[|s.threads|] == Thread(s.threads[i].key, Want, Refill)
           && s2.sh == s.sh.(wg := s.sh.wg + 1)
  {
    assert ThreadOk(c, s.sh.stock, s.threads[i]);
  }

  lemma MovePopulates(c: Config, sh: Shared, t: Thread, quit: bool)
    requires CanMove(c, sh, t, quit) && sh.closed
    ensures Weight(Move(c, sh, t, quit).t, Population) + Total(Move(c, sh, t, quit).kids, Population)
         <= Weight(t, Population)
  {
  }

  /** Once the pool is closed, only the calls already past their second check start refills. */
  lemma {:induction false} NoRefillsAfterClose(c: Config, s: State, run: seq<Step>)
    requires Inv(c, s) && s.sh.closed && Legal(c, s, run)
    ensures Total(After(c, s, run).threads, Population) <= Total(s.threads, Population)
    decreases |run|
  {
    if run != [] {
      var a := run[0];
      var s' := Apply(c, s, a);
      StepKeeps(c, s, a);
      match a {
        case Run(i, quit) =>
          var o := Move(c, s.sh, s.threads[i], quit);
          SameClosed(c, s.sh, s.threads[i], quit);
          MovePopulates(c, s.sh, s.threads[i], quit);
          TotalStep(s.threads, i, o.t, o.kids, Population);
        case Close(_) =>
        case Call(langID) => TotalConcat(s.threads, [NewRequest(c, langID)], Population);
        case Fire(i) =>
          TotalUpdate(s.threads, i, s'.threads[i], Population);
          FireWeight(s.threads[i], Population);
      }
      NoRefillsAfterClose(c, s', run[1..]);
    }
  }

  // ---------------------------------------------------------------- channels

  function QueueIn(k: Stock, l: Lang): seq<Vm> {
    if l in k.chans then k.chans[l].queue else []
  }

  function QueueOf(s: State, l: Lang): seq<Vm> {
    QueueIn(s.sh.stock, l)
  }

  /** The VM a refill sends to channel l when it moves. */
  function SentBy(t: Thread, quit: bool, l: Lang): seq<Vm> {
    if t.pc.Offer? && !quit && t.key == l then [t.pc.vm] else []
  }

  /** The VM a request has received from channel l once it has moved from t to t'. */
  function TakenBy(t: Thread, t': Thread, l: Lang): seq<Vm> {
    if t.pc.Recv? && t.key == l && t'.role.Request? && t'.pc.Recheck? && t'.role.got.Some? then [t'.role.got.value]
    else []
  }

  /** The VM Close has newly in its hand, from channel l. */
  function TakenByClose(k: Stock, k': Stock, l: Lang): seq<Vm> {
    if InHand(k).None? && InHand(k').Some? && Current(k) == Some(l) then [InHand(k').value] else []
  }

  ghost function Sent(s: State, a: Step, l: Lang): seq<Vm> {
    if a.Run? && a.i < |s.threads| then SentBy(s.threads[a.i], a.quit, l) else []
  }

  ghost function Taken(c: Config, s: State, a: Step, l: Lang): seq<Vm>
    requires Enabled(c, s, a)
  {
    match a
    case Run(i, quit) => TakenBy(s.threads[i], Move(c, s.sh, s.threads[i], quit).t, l)
    case Close(m) => TakenByClose(s.sh.stock, CloseMove(s.sh, m).stock, l)
    case _ => []
  }

  lemma OfferFifo(sh: Shared, t: Thread, quit: bool, l: Lang)
    requires t.pc.Offer? && t.key in sh.stock.chans && sh.stock.chans[t.key].open
    ensures QueueIn(sh.stock, l) + SentBy(t, quit, l) == QueueIn(DeliverStep(sh, t, quit).sh.stock, l)
  {
  }

  lemma RecvFifo(sh: Shared, t: Thread, quit: bool, l: Lang)
    requires t.pc.Recv? && t.role.Request? && t.role.got.None? && t.key in sh.stock.chans
    ensures QueueIn(sh.stock, l)
         == TakenBy(t, EnterStep(sh, t, quit).t, l) + QueueIn(EnterStep(sh, t, quit).sh.stock, l)
  {
  }

  lemma StartFifo(sh: Shared, t: Thread, quit: bool, l: Lang)
    requires t.pc.Begin?
    ensures QueueIn(StartStep(sh, t, quit).sh.stock, l) == QueueIn(sh.stock, l)
  {
  }

  lemma MoveFifo(c: Config, sh: Shared, t: Thread, quit: bool, l: Lang)
    requires CanMove(c, sh, t, quit) && ThreadOk(c, sh.stock, t)
    requires t.pc.Offer? ==> sh.stock.chans[t.key].open
    ensures var o := Move(c, sh, t, quit);
      QueueIn(sh.stock, l) + SentBy(t, quit, l) == TakenBy(t, o.t, l) + QueueIn(o.sh.stock, l)
  {
    if t.pc.Offer? {
      OfferFifo(sh, t, quit, l);
    } else if t.pc.Recv? {
      RecvFifo(sh, t, quit, l);
    } else if t.pc.Begin? {
      StartFifo(sh, t, quit, l);
    } else {
      SameStock(c, sh, t, quit);
    }
  }

  lemma CloseFifo(sh: Shared, m: Lang, l: Lang)
    requires CanClose(sh, m)
    ensures QueueIn(sh.stock, l)
         == TakenByClose(sh.stock, CloseMove(sh, m).stock, l) + QueueIn(CloseMove(sh, m).stock, l)
  {
  }

  lemma StepFifo(c: Config, s: State, a: Step, l: Lang)
    requires Inv(c, s) && Enabled(c, s, a)
    ensures QueueOf(s, l) + Sent(s, a, l) == Taken(c, s, a, l) + QueueOf(Apply(c, s, a), l)
  {
    match a
    case Run(i, quit) =>
      var t := s.threads[i];
      assert ThreadOk(c, s.sh.stock, t);
      if t.pc.Offer? {
        assert ChanOk(s.sh.stock, t.key);
      }
      MoveFifo(c, s.sh, t, quit, l);
    case Close(m) => CloseFifo(s.sh, m, l);
    case _ =>
  }

  ghost function AllSent(c: Config, s: State, run: seq<Step>, l: Lang): seq<Vm>
    requires Legal(c, s, run)
    decreases |run|
  {
    if run == [] then [] else Sent(s, run[0], l) + AllSent(c, Apply(c, s, run[0]), run[1..], l)
  }

  ghost function AllTaken(c: Config, s: State, run: seq<Step>, l: Lang): seq<Vm>
    requires Legal(c, s, run)
    decreases |run|
  {
    if run == [] then [] else Taken(c, s, run[0], l) + AllTaken(c, Apply(c, s, run[0]), run[1..], l)
  }

  /** VMs leave a channel in the order in which refills sent them, to requests and to Close alike. */
  lemma {:induction false} ChannelFifo(c: Config, s: State, run: seq<Step>, l: Lang)
    requires Inv(c, s) && Legal(c, s, run)
    ensures QueueOf(s, l) + AllSent(c, s, run, l) == AllTaken(c, s, run, l) + QueueOf(After(c, s, run), l)
    decreases |run|
  {
    if run != [] {
      var a := run[0];
      var s' := Apply(c, s, a);
      StepFifo(c, s, a, l);
      StepKeeps(c, s, a);
      ChannelFifo(c, s', run[1..], l);
      Regroup(QueueOf(s, l), Sent(s, a, l), AllSent(c, s', run[1..], l), Taken(c, s, a, l), QueueOf(s', l),
              AllTaken(c, s', run[1..], l), QueueOf(After(c, s', run[1..]), l));
    }
  }

  lemma Regroup(q: seq<Vm>, a: seq<Vm>, b: seq<Vm>, x: seq<Vm>, r: seq<Vm>, y: seq<Vm>, z: seq<Vm>)
    requires q + a == x + r && r + b == y + z
    ensures q + (a + b) == (x + y) + z
  {
    assert q + (a + b) == (q + a) + b == (x + r) + b == x + (r + b) == x + (y + z) == (x + y) + z;
  }

  // ---------------------------------------------------------------- boots

  ghost function WithPc(s: State, i: nat, pc: Pc): State
    requires i < |s.threads|
  {
    s.(threads := s.threads[i := s.threads[i].(pc := pc)])
  }

  /** Waiting for a token, a booter can give up exactly when its context is done, and start while tokens last. */
  lemma TokenDecides(c: Config, s: State, i: nat)
    requires Inv(c, s) && i < |s.threads| && s.threads[i].pc.Want?
    ensures var t := s.threads[i];
      && (Enabled(c, s, Run(i, true)) <==> if t.role.Refill? then s.sh.cancelled else t.role.ctxDone)
      && (Enabled(c, s, Run(i, false)) <==> s.sh.sem < if c.bootConcurrency < 1 then 1 else c.bootConcurrency)
      && (Enabled(c, s, Run(i, true)) ==>
            Apply(c, s, Run(i, true)).sh == s.sh
            && Apply(c, s, Run(i, true)).threads[i].pc == (if t.role.Refill? then Exit(false) else Finished(false)))
      && (Enabled(c, s, Run(i, false)) ==> Apply(c, s, Run(i, false)).threads[i].pc == Begin)
  {
  }

  function Steps(i: nat, n: nat): (run: seq<Step>)
    ensures |run| == n
  {
    seq(n, k => Run(i, false))
  }

  /** A boot takes seven stages: the socket, two settings, the rootfs, the drive, vsock, and the start. */
  lemma {:induction false} BootHasSevenStages(c: Config, s: State, i: nat, v: Vm, stage: nat, n: nat)
    requires i < |s.threads| && s.threads[i].pc == Up(stage, v) && stage + n <= 7 && stage < 7
    requires !CtxDone(s.sh, s.threads[i]) && (s.threads[i].role.Refill? || s.threads[i].role.Request?)
    ensures Legal(c, s, Steps(i, n))
    ensures var s' := After(c, s, Steps(i, n));
      i < |s'.threads| && s'.threads[i].pc == if stage + n < 7 then Up(stage + n, v) else Out(Some(v))
    decreases n
  {
    if n > 0 {
      assert Steps(i, n)[0] == Run(i, false) && Steps(i, n)[1..] == Steps(i, n - 1);
      if stage + 1 < 7 {
        BootHasSevenStages(c, Apply(c, s, Run(i, false)), i, v, stage + 1, n - 1);
      } else {
        assert n == 1 && Steps(i, 0) == [];
      }
    }
  }

  /**
    Any stage of a boot may fail; then the VM is killed and nothing is returned.  Under a done
    context only the socket and the rootfs can still succeed.
  */
  lemma BootDecides(c: Config, s: State, i: nat)
    requires Inv(c, s) && i < |s.threads| && s.threads[i].pc.Up?
    ensures var stage, v := s.threads[i].pc.stage, s.threads[i].pc.vm;
      var dead := WithPc(s, i, Dead(v));
      && stage <= 6
      && (Enabled(c, s, Run(i, false)) <==> stage == 0 || stage == 3 || !CtxDone(s.sh, s.threads[i]))
      && Goes(c, s, Run(i, true), dead)
      && Goes(c, dead, Run(i, false), WithPc(s, i, Out(None)).(sh := s.sh.(killed := s.sh.killed + {v})))
  {
    assert ThreadOk(c, s.sh.stock, s.threads[i]);
  }

  /** With a token, the VM's process is started for the booter's channel, under the next number, or fails to. */
  lemma StartDecides(c: Config, s: State, i: nat)
    requires i < |s.threads| && s.threads[i].pc.Begin? && Inv(c, s)
    ensures Goes(c, s, Run(i, true), WithPc(s, i, Out(None)))
    ensures var k := s.sh.stock;
      Goes(c, s, Run(i, false),
           WithPc(s, i, Up(0, |k.home|)).(sh := s.sh.(stock := k.(home := k.home + [s.threads[i].key]))))
  {
    assert ThreadOk(c, s.sh.stock, s.threads[i]);
  }

  /**
    After a boot the token is given back; a refill goes on to offer its VM or ends without one, a
    cold boot is lent its VM or ends in an error.
  */
  lemma ReleaseDecides(c: Config, s: State, i: nat)
    requires Inv(c, s) && i < |s.threads| && s.threads[i].pc.Out?
    ensures Enabled(c, s, Run(i, false)) && !Enabled(c, s, Run(i, true))
    ensures var s' := Apply(c, s, Run(i, false)); var t, t' := s.threads[i], s'.threads[i]; var r := t.pc.r;
      && s'.sh == s.sh.(sem := s.sh.sem - 1) && s'.threads == s.threads[i := t'] && t'.key == t.key
      && (t.role.Refill? ==> t'.role == t.role && t'.pc == if r.Some? then Offer(r.value) else Exit(false))
      && (t.role.Request? ==>
            t'.role == t.role.(got := r) && t'.pc == if r.Some? then Lent(r) else Finished(false))
  {
    assert ThreadOk(c, s.sh.stock, s.threads[i]) && Conserved(Token);
    TotalBounds(s.threads, i, Token);
  }

  /** A refill that ends counts down the WaitGroup, once, and remembers whether it delivered. */
  lemma ExitDecides(c: Config, s: State, i: nat)
    requires Inv(c, s) && i < |s.threads| && s.threads[i].pc.Exit?
    ensures s.sh.wg > 0 && !Enabled(c, s, Run(i, true))
    ensures Goes(c, s, Run(i, false),
                 WithPc(s, i, Finished(s.threads[i].pc.delivered)).(sh := s.sh.(wg := s.sh.wg - 1)))
  {
    assert ThreadOk(c, s.sh.stock, s.threads[i]) && Conserved(Live);
    TotalBounds(s.threads, i, Live);
  }

  /** A refill whose boot was not finished when the context was cancelled. */
  predicate TooLate(t: Thread) {
    && t.role.Refill?
    && (Starting(t.pc) || BootingUp(t.pc) || t.pc == Out(None) || EndedWith(t.pc, false))
    && (t.pc.Up? ==> t.pc.stage <= 6)
  }

  /** It never hands on a VM: a late refill can start a VM but never ends with one. */
  lemma {:induction false} LateBootYieldsNothing(c: Config, s: State, run: seq<Step>, i: nat)
    requires Inv(c, s) && s.sh.cancelled && Legal(c, s, run) && i < |s.threads| && TooLate(s.threads[i])
    ensures i < |After(c, s, run).threads| && TooLate(After(c, s, run).threads[i])
    decreases |run|
  {
    if run != [] {
      StepKeeps(c, s, run[0]);
      if run[0].Run? {
        SameClosed(c, s.sh, s.threads[run[0].i], run[0].quit);
      }
      LateBootYieldsNothing(c, Apply(c, s, run[0]), run[1..], i);
    }
  }

  /** With a VM in its hands a refill can give up exactly when the pool is cancelled, and then kills it. */
  lemma OfferDecides(c: Config, s: State, i: nat)
    requires Inv(c, s) && i < |s.threads| && s.threads[i].pc.Offer?
    ensures Enabled(c, s, Run(i, true)) <==> s.sh.cancelled
    ensures Enabled(c, s, Run(i, false))
    ensures Apply(c, s, Run(i, false)).threads[i].pc == Exit(true)
    ensures var v := s.threads[i].pc.vm;
      s.sh.cancelled ==>
        && Goes(c, s, Run(i, true), WithPc(s, i, Drop(v)))
        && Goes(c, WithPc(s, i, Drop(v)), Run(i, false),
                WithPc(s, i, Exit(false)).(sh := s.sh.(killed := s.sh.killed + {v})))
  {
    var t := s.threads[i];
    assert ThreadOk(c, s.sh.stock, t) && ChanOk(s.sh.stock, t.key) && Conserved(Slot(t.key));
    TotalBounds(s.threads, i, Slot(t.key));
  }

  // ---------------------------------------------------------------- Execute

  /** The result of a call that was lent a VM is that of its exchange, and the VM is killed either way. */
  lemma UseDecides(c: Config, s: State, i: nat, failed: bool)
    requires Inv(c, s) && i < |s.threads| && s.threads[i].pc.Lent? && s.threads[i].pc.r.Some?
    ensures var v := s.threads[i].pc.r.value;
      var back := WithPc(s, i, Return(v, !failed));
      && Goes(c, s, Run(i, failed), back)
      && Goes(c, back, Run(i, false), WithPc(s, i, Finished(!failed)).(sh := s.sh.(killed := s.sh.killed + {v})))
  {
    assert ThreadOk(c, s.sh.stock, s.threads[i]);
  }

  /** A nil VM crashes the call: nothing is killed and nothing else changes. */
  lemma NilCrashes(c: Config, s: State, i: nat)
    requires Inv(c, s) && i < |s.threads| && s.threads[i].pc == Lent(None)
    ensures Goes(c, s, Run(i, false), WithPc(s, i, Crashed)) && !Enabled(c, s, Run(i, true))
  {
    assert ThreadOk(c, s.sh.stock, s.threads[i]);
  }

  /** The call will report success, or has. */
  predicate Succeeding(t: Thread) {
    t.role.Request? && (t.pc == Finished(true) || (t.pc.Return? && t.pc.ok))
  }

  /** Thread i, with a VM lent to it, has a successful exchange. */
  ghost predicate Exchanges(s: State, a: Step, i: nat) {
    && a == Run(i, false) && i < |s.threads|
    && s.threads[i].role.Request? && s.threads[i].pc.Lent? && s.threads[i].pc.r.Some?
  }

  ghost predicate ExchangesIn(c: Config, s: State, run: seq<Step>, i: nat)
    requires Legal(c, s, run)
    decreases |run|
  {
    run != [] && (Exchanges(s, run[0], i) || ExchangesIn(c, Apply(c, s, run[0]), run[1..], i))
  }

  lemma StepSucceeds(c: Config, s: State, a: Step, i: nat)
    requires Inv(c, s) && Enabled(c, s, a) && i < |s.threads| && s.threads[i].role.Request?
    ensures i < |Apply(c, s, a).threads| && Apply(c, s, a).threads[i].role.Request?
    ensures Succeeding(Apply(c, s, a).threads[i]) <==> Succeeding(s.threads[i]) || Exchanges(s, a, i)
  {
    assert ThreadOk(c, s.sh.stock, s.threads[i]);
  }

  /** A call of Execute reports success exactly when it was lent a VM and its exchange succeeded. */
  lemma {:induction false} SuccessIff(c: Config, s: State, run: seq<Step>, i: nat)
    requires Inv(c, s) && Legal(c, s, run) && i < |s.threads| && s.threads[i].role.Request?
    ensures i < |After(c, s, run).threads|
    ensures Succeeding(After(c, s, run).threads[i]) <==> Succeeding(s.threads[i]) || ExchangesIn(c, s, run, i)
    decreases |run|
  {
    if run != [] {
      StepSucceeds(c, s, run[0], i);
      StepKeeps(c, s, run[0]);
      SuccessIff(c, Apply(c, s, run[0]), run[1..], i);
    }
  }

  /** A call that has ended has killed the VM it was given. */
  ghost predicate Returned(s: State) {
    forall i :: 0 <= i < |s.threads| && s.threads[i].role.Request? && s.threads[i].pc.Finished? ==>
      s.threads[i].role.got.Some? ==> s.threads[i].role.got.value in s.sh.killed
  }

  lemma StepReturns(c: Config, s: State, a: Step)
    requires Inv(c, s) && Returned(s) && Enabled(c, s, a)
    ensures Returned(Apply(c, s, a))
  {
    KilledStaysKilled(c, s, a);
    if a.Run? {
      assert ThreadOk(c, s.sh.stock, s.threads[a.i]);
    }
  }

  lemma {:induction false} RunReturns(c: Config, s: State, run: seq<Step>)
    requires Inv(c, s) && Returned(s) && Legal(c, s, run)
    ensures Returned(After(c, s, run))
    decreases |run|
  {
    if run != [] {
      StepReturns(c, s, run[0]);
      StepKeeps(c, s, run[0]);
      RunReturns(c, Apply(c, s, run[0]), run[1..]);
    }
  }

  /** In every reachable state a call that has ended, well or not, has killed the VM it was given. */
  lemma EndedCallsReturned(c: Config, s: State)
    requires c.Valid() && Reachable(c, s)
    ensures Returned(s)
  {
    var run :| Legal(c, Init(c), run) && After(c, Init(c), run) == s;
    InitInv(c);
    NewPool(c, "");
    RunReturns(c, Init(c), run);
  }

  // ---------------------------------------------------------------- Close

  /**
    The order of Close: no cancel before the flag, no channel closed before the cancel and the end of
    every refill that could deliver, and on return every channel closed and empty.
  */
  lemma CloseOrder(c: Config, s: State, l: Lang)
    requires c.Valid() && Reachable(c, s) && l in c.Keys()
    ensures s.sh.cancelled ==> s.sh.closed
    ensures !Open(s, l) ==> s.sh.cancelled
    ensures !Open(s, l) ==>
              forall i :: 0 <= i < |s.threads| && s.threads[i].role.Refill? && Held(s.threads[i].pc).Some? ==>
                s.threads[i].pc.Up? || s.threads[i].pc.Dead? || s.threads[i].pc.Drop?
    ensures s.sh.stock.closer.Closed? ==> !Open(s, l) && QueueOf(s, l) == []
    ensures s.sh.stock.closer.Waiting? && s.sh.wg != 0 ==> forall m :: !Enabled(c, s, Close(m))
  {
    ReachableInv(c, s);
    assert l in s.sh.stock.chans && ChanOk(s.sh.stock, l);
    forall i | 0 <= i < |s.threads| && s.threads[i].role.Refill? ensures ThreadOk(c, s.sh.stock, s.threads[i]) {
    }
  }

  ghost function At(s: State, closer: Closer): State {
    s.(sh := s.sh.(stock := s.sh.stock.(closer := closer)))
  }

  /** Close, one access at a time: the flag, the cancel, the wait, and then every channel. */
  lemma CloseDecides(c: Config, s: State, l: Lang)
    requires Inv(c, s)
    ensures s.sh.stock.closer.NotCalled? ==>
              Goes(c, s, Close(l), At(s, Cancelling).(sh := At(s, Cancelling).sh.(closed := true)))
    ensures s.sh.stock.closer.Cancelling? ==>
              Goes(c, s, Close(l), At(s, Waiting).(sh := At(s, Waiting).sh.(cancelled := true)))
    ensures s.sh.stock.closer.Waiting? ==>
              && (Enabled(c, s, Close(l)) <==> s.sh.wg == 0)
              && (s.sh.wg == 0 ==> Goes(c, s, Close(l), At(s, Draining(c.Keys(), None, None))))
    ensures s.sh.stock.closer.Closed? ==> !Enabled(c, s, Close(l))
  {
  }

  /**
    The drain loop: it closes each channel once, then takes its VMs from the front one by one and
    kills each before the next, until the channel is empty, and returns when no channel is left.
  */
  lemma DrainDecides(c: Config, s: State, l: Lang)
    requires Inv(c, s) && s.sh.stock.closer.Draining?
    ensures var k := s.sh.stock; var Draining(todo, cur, vm) := k.closer;
      && (vm.Some? ==>
            Goes(c, s, Close(l), At(s, Draining(todo, cur, None)).(
                   sh := At(s, Draining(todo, cur, None)).sh.(killed := s.sh.killed + {vm.value}))))
      && (vm.None? && cur.None? && todo == {} ==> Goes(c, s, Close(l), At(s, Closed)))
      && (vm.None? && cur.None? && todo != {} ==> (Enabled(c, s, Close(l)) <==> l in todo))
      && (vm.None? && cur.None? && l in todo ==>
            && var s' := Apply(c, s, Close(l));
               s'.sh.stock.closer == Draining(todo - {l}, Some(l), None) && s'.sh.killed == s.sh.killed
               && Open(s, l) && s'.sh.stock.chans == k.chans[l := Chan(k.chans[l].queue, false)])
      && (vm.None? && cur.Some? && QueueIn(k, cur.value) == [] ==>
            Goes(c, s, Close(l), At(s, Draining(todo, None, None))))
      && (vm.None? && cur.Some? && QueueIn(k, cur.value) != [] ==>
            Enabled(c, s, Close(l))
            && Apply(c, s, Close(l)).sh.stock.closer == Draining(todo, cur, Some(k.chans[cur.value].queue[0]))
            && QueueOf(Apply(c, s, Close(l)), cur.value) == k.chans[cur.value].queue[1..]
            && Apply(c, s, Close(l)).sh.killed == s.sh.killed)
  {
    var k := s.sh.stock;
    if l in k.chans {
      assert ChanOk(k, l);
    }
  }
}

/**
  The pool as an object with mutable fields.  Its constructor and methods run the code of
  newPrewarmedPerLang, Acquire, refill, Boot and Close between two accesses to shared state, and
  each is proved to take exactly one step of the protocol.
*/
module PoolObject {
  import opened Prelude
  import opened PoolProtocol
  import opened PoolAccounting
  import opened PoolRuns

  class Pool {
    const c: Config
    var closed: bool
    var cancelled: bool
    var panicked: bool
    var chans: map<Lang, Chan>
    var sem: int
    var wg: int
    var home: seq<Lang>
    var killed: set<Vm>
    var closer: Closer
    var drained: multiset<Lang>
    var threads: seq<Thread>

    ghost function View(): State
      reads this
    {
      State(Shared(closed, cancelled, panicked, sem, wg, killed, Stock(chans, home, closer, drained)), threads)
    }

    /** The invariant of every interleaving: no panic, slots conserved, every VM in one place. */
    ghost predicate Valid()
      reads this
    {
      Inv(c, View())
    }

    ghost predicate Ready(i: nat, quit: bool)
      reads this
    {
      Enabled(c, View(), Run(i, quit))
    }

    /** Make the channels and start `Capacity` refills for each. */
    constructor (c: Config)
      requires c.Valid()
      ensures this.c == c && View() == Init(c)
      ensures Valid() && !panicked
    {
      this.c := c;
      closed, cancelled, panicked := false, false, false;
      chans, sem, wg, home, killed := map[], 0, 0, [], {};
      closer, drained, threads := NotCalled, multiset{}, [];
      new;
      MakeChannels(c.Channels(), c.Capacity());
      assert chans == map l | l in c.Keys() :: Chan([], true);
      InitInv(c);
    }

    method MakeChannels(langs: seq<Lang>, n: nat)
      requires chans == map[] && threads == [] && wg == 0
      modifies this`chans, this`wg, this`threads
      ensures threads == Spawned(langs, n) && wg == n * |langs|
      ensures chans.Keys == Named(langs) && AllOpen(chans)
    {
      for j := 0 to |langs|
        invariant threads == Spawned(langs[..j], n)
        invariant wg == n * j
        invariant chans.Keys == Named(langs[..j]) && AllOpen(chans)
      {
        chans := chans[langs[j] := Chan([], true)];
        SpawnRefills(langs[j], n);
        OneMoreChannel(langs, j, n);
      }
      assert langs[..|langs|] == langs;
    }

    static function Named(langs: seq<Lang>): set<Lang> {
      set l | l in langs
    }

    static predicate AllOpen(chans: map<Lang, Chan>) {
      forall l :: l in chans ==> chans[l] == Chan([], true)
    }

    static lemma OneMoreChannel(langs: seq<Lang>, j: nat, n: nat)
      requires j < |langs|
      ensures Named(langs[..j + 1]) == Named(langs[..j]) + {langs[j]}
      ensures Spawned(langs[..j + 1], n) == Spawned(langs[..j], n) + Repeat(NewRefill(langs[j]), n)
      ensures n * (j + 1) == n * j + n
    {
      assert langs[..j + 1] == langs[..j] + [langs[j]] && langs[..j + 1][..j] == langs[..j];
    }

    method SpawnRefills(l: Lang, n: nat)
      modifies this`wg, this`threads
      ensures threads == old(threads) + Repeat(NewRefill(l), n)
      ensures wg == old(wg) + n
    {
      for k := 0 to n
        invariant threads == old(threads) + Repeat(NewRefill(l), k)
        invariant wg == old(wg) + k
      {
        wg := wg + 1;
        threads := threads + [NewRefill(l)];
        assert Repeat(NewRefill(l), k + 1) == Repeat(NewRefill(l), k) + [NewRefill(l)];
      }
    }

    method Goto(i: nat, t: Thread)
      requires i < |threads|
      modifies this`threads
      ensures threads == old(threads)[i := t]
    {
      threads := threads[i := t];
    }

    /** Execute is called: Acquire starts. */
    method Execute(langID: Lang)
      requires Valid()
      modifies this`threads
      ensures View() == Apply(c, old(View()), Call(langID))
      ensures |threads| == |old(threads)| + 1 && threads[..|old(threads)|] == old(threads)
      ensures var t := threads[|old(threads)|];
        && t.pc == Check && t.role == Request(langID, false, NoSlot, None)
        && t.key == (if c.strategy.Generic? then "generic" else langID)
      ensures Valid() && !panicked
    {
      StepKeeps(c, View(), Call(langID));
      threads := threads + [Thread(c.Key(langID), Check, Request(langID, false, NoSlot, None))];
    }

    method Acquire(i: nat, quit: bool)
      requires Ready(i, quit) && (Entering(threads[i].pc) || Replacing(threads[i].pc))
      modifies this
      ensures View() == Apply(c, old(View()), Run(i, quit))
    {
      var t := threads[i];
      match t.pc
      case Check =>
        if closed || t.key !in chans {
          Goto(i, t.(pc := Finished(false)));
        } else {
          Goto(i, t.(pc := Recv));
        }
      case Recv =>
        if quit {
          Goto(i, t.(pc := Finished(false)));
        } else {
          var ch := chans[t.key];
          if ch.queue != [] {
            var vm := ch.queue[0];
            chans := chans[t.key := ch.(queue := ch.queue[1..])];
            Goto(i, t.(pc := Recheck(Some(vm)), role := t.role.(slot := Owed, got := Some(vm))));
          } else if !ch.open {
            Goto(i, t.(pc := Recheck(None)));
          } else {
            Goto(i, t.(pc := Want));
          }
        }
      case Recheck(vm) =>
        if !closed {
          Goto(i, t.(pc := Spawn(vm)));
        } else if vm.Some? {
          Goto(i, t.(pc := Lent(vm), role := t.role.(slot := Skipped)));
        } else {
          Goto(i, t.(pc := Lent(vm)));
        }
      case Spawn(vm) =>
        wg := wg + 1;
        Goto(i, t.(pc := Lent(vm), role := t.role.(slot := Replaced)));
        threads := threads + [NewRefill(t.key)];
    }

    /** sem.acquire, and the start of the VM's process. */
    method Start(i: nat, quit: bool)
      requires Ready(i, quit) && Starting(threads[i].pc)
      modifies this
      ensures View() == Apply(c, old(View()), Run(i, quit))
    {
      var t := threads[i];
      match t.pc
      case Want =>
        if !quit {
          sem := sem + 1;
          Goto(i, t.(pc := Begin));
        } else if t.role.Refill? {
          Goto(i, t.(pc := Exit(false)));
        } else {
          Goto(i, t.(pc := Finished(false)));
        }
      case Begin =>
        if quit {
          Goto(i, t.(pc := Out(None)));
        } else {
          Goto(i, t.(pc := Up(0, |home|)));
          home := home + [t.key];
        }
    }

    /** The stages of Driver.Boot. */
    method Boot(i: nat, quit: bool)
      requires Ready(i, quit) && BootingUp(threads[i].pc)
      modifies this
      ensures View() == Apply(c, old(View()), Run(i, quit))
    {
      var t := threads[i];
      match t.pc
      case Up(stage, vm) =>
        if quit {
          Goto(i, t.(pc := Dead(vm)));
        } else if stage < LAST_STAGE {
          Goto(i, t.(pc := Up(stage + 1, vm)));
        } else {
          Goto(i, t.(pc := Out(Some(vm))));
        }
      case Dead(vm) =>
        killed := killed + {vm};
        Goto(i, t.(pc := Out(None)));
    }

    /** sem.release, and what the booter does with the result. */
    method Release(i: nat)
      requires Ready(i, false) && threads[i].pc.Out?
      modifies this
      ensures View() == Apply(c, old(View()), Run(i, false))
    {
      var t := threads[i];
      var r := t.pc.r;
      sem := sem - 1;
      if t.role.Refill? {
        Goto(i, t.(pc := if r.Some? then Offer(r.value) else Exit(false)));
      } else if r.Some? {
        Goto(i, t.(pc := Lent(r), role := t.role.(got := r)));
      } else {
        Goto(i, t.(pc := Finished(false)));
      }
    }

    /** The end of refill. */
    method Deliver(i: nat, quit: bool)
      requires Ready(i, quit) && Delivering(threads[i].pc)
      modifies this
      ensures View() == Apply(c, old(View()), Run(i, quit))
    {
      var t := threads[i];
      match t.pc
      case Offer(vm) =>
        if quit {
          Goto(i, t.(pc := Drop(vm)));
        } else if !chans[t.key].open {
          panicked := true;
          Goto(i, t.(pc := Crashed));
        } else {
          chans := chans[t.key := chans[t.key].(queue := chans[t.key].queue + [vm])];
          Goto(i, t.(pc := Exit(true)));
        }
      case Drop(vm) =>
        killed := killed + {vm};
        Goto(i, t.(pc := Exit(false)));
      case Exit(delivered) =>
        if wg <= 0 {
          panicked := true;
        }
        wg := wg - 1;
        Goto(i, t.(pc := Finished(delivered)));
    }

    /** Executor.Execute after Acquire: exchange, then exactly one of Release and Discard. */
    method Use(i: nat, quit: bool)
      requires Ready(i, quit) && Using(threads[i].pc)
      modifies this
      ensures View() == Apply(c, old(View()), Run(i, quit))
    {
      var t := threads[i];
      match t.pc
      case Lent(vm) =>
        if vm.None? {
          Goto(i, t.(pc := Crashed));
        } else {
          Goto(i, t.(pc := Return(vm.value, !quit)));
        }
      case Return(vm, ok) =>
        killed := killed + {vm};
        Goto(i, t.(pc := Finished(ok)));
    }

    method CloseStep(l: Lang)
      requires Enabled(c, View(), Close(l))
      modifies this
      ensures View() == Apply(c, old(View()), Close(l))
    {
      match closer
      case NotCalled =>
        closed := true;
        closer := Cancelling;
      case Cancelling =>
        cancelled := true;
        closer := Waiting;
      case Waiting =>
        closer := Draining(chans.Keys, None, None);
      case Draining(todo, cur, vm) =>
        if vm.Some? {
          killed := killed + {vm.value};
          closer := Draining(todo, cur, None);
        } else if cur.Some? {
          var ch := chans[cur.value];
          if ch.queue == [] {
            closer := Draining(todo, None, None);
          } else {
            chans := chans[cur.value := ch.(queue := ch.queue[1..])];
            closer := Draining(todo, cur, Some(ch.queue[0]));
            drained := drained + multiset{cur.value};
          }
        } else if todo == {} {
          closer := Closed;
        } else {
          if !chans[l].open {
            panicked := true;
          }
          chans := chans[l := chans[l].(open := false)];
          closer := Draining(todo - {l}, Some(l), None);
        }
    }

    /** The next piece of a refill's or a request's code. */
    method Advance(i: nat, quit: bool)
      requires Valid() && Ready(i, quit)
      modifies this
      ensures View() == Apply(c, old(View()), Run(i, quit))
      ensures Valid() && !panicked
    {
      StepKeeps(c, View(), Run(i, quit));
      var pc := threads[i].pc;
      if Entering(pc) || Replacing(pc) {
        Acquire(i, quit);
      } else if Starting(pc) {
        Start(i, quit);
      } else if BootingUp(pc) {
        Boot(i, quit);
      } else if Delivering(pc) {
        Deliver(i, quit);
      } else if Using(pc) {
        Use(i, quit);
      } else {
        Release(i);
      }
    }

    /** The next piece of Close. */
    method AdvanceClose(l: Lang)
      requires Valid() && Enabled(c, View(), Close(l))
      modifies this
      ensures View() == Apply(c, old(View()), Close(l))
      ensures Valid() && !panicked
    {
      StepKeeps(c, View(), Close(l));
      CloseStep(l);
    }
  }
}

/** How many VMs can be alive at once. */
module PoolFootprint {
  import opened Prelude
  import opened PoolProtocol
  import opened PoolAccounting
  import opened PoolRuns

  // ---------------------------------------------------------------- sets of VMs

  /** Threads that hold a VM for a request (None), or as a refill of a channel. */
  predicate Holds(t: Thread, channel: Option<Lang>) {
    && Held(t.pc).Some?
    && match channel
       case None => t.role.Request?
       case Some(l) => t.role.Refill? && t.key == l
  }

  function HeldBy(ts: seq<Thread>, channel: Option<Lang>): set<Vm> {
    if ts == [] then {}
    else (if Holds(ts[0], channel) then {Held(ts[0].pc).value} else {}) + HeldBy(ts[1..], channel)
  }

  lemma {:induction false} InHeldBy(ts: seq<Thread>, channel: Option<Lang>, i: nat)
    requires i < |ts| && Holds(ts[i], channel)
    ensures Held(ts[i].pc).value in HeldBy(ts, channel)
  {
    if i > 0 {
      InHeldBy(ts[1..], channel, i - 1);
    }
  }

  lemma {:induction false} FewBorrowed(ts: seq<Thread>)
    ensures |HeldBy(ts, None)| <= Total(ts, Borrowed)
  {
    if ts != [] {
      FewBorrowed(ts[1..]);
    }
  }

  lemma {:induction false} FewRefilled(ts: seq<Thread>, l: Lang)
    ensures |HeldBy(ts, Some(l))| <= Total(ts, Slot(l))
  {
    if ts != [] {
      FewRefilled(ts[1..], l);
    }
  }

  function Members(q: seq<Vm>): set<Vm> {
    set v | v in q
  }

  lemma {:induction false} FewMembers(q: seq<Vm>)
    ensures |Members(q)| <= |q|
  {
    if q != [] {
      FewMembers(q[1..]);
      assert Members(q) == {q[0]} + Members(q[1..]);
    }
  }

  function Below(n: nat): (vs: set<Vm>)
    ensures |vs| == n
    ensures forall v: Vm :: v in vs <==> v < n
  {
    if n == 0 then {} else Below(n - 1) + {n - 1}
  }

  // ---------------------------------------------------------------- the VMs of one channel

  function InCloseHand(k: Stock, l: Lang): set<Vm> {
    if Current(k) == Some(l) && InHand(k).Some? then {InHand(k).value} else {}
  }

  /** What a channel's slots account for: VMs of its refills, queued ones, and one in Close's hand. */
  function OnChannel(s: State, l: Lang): set<Vm> {
    HeldBy(s.threads, Some(l))
    + (if l in s.sh.stock.chans then Members(s.sh.stock.chans[l].queue) else {})
    + InCloseHand(s.sh.stock, l)
  }

  lemma FewOnChannel(c: Config, s: State, l: Lang)
    requires Inv(c, s) && l in c.Keys()
    ensures |OnChannel(s, l)| <= c.Capacity()
  {
    var k := s.sh.stock;
    assert Conserved(Slot(l));
    FewRefilled(s.threads, l);
    FewMembers(k.chans[l].queue);
    var a, b, h := HeldBy(s.threads, Some(l)), Members(k.chans[l].queue), InCloseHand(k, l);
    assert |h| <= k.drained[l];
    assert |a + b + h| <= |a| + |b| + |h|;
  }

  function Union(sets: seq<set<Vm>>): set<Vm> {
    if sets == [] then {} else sets[0] + Union(sets[1..])
  }

  lemma {:induction false} SmallUnion(sets: seq<set<Vm>>, most: nat)
    requires forall i :: 0 <= i < |sets| ==> |sets[i]| <= most
    ensures |Union(sets)| <= most * |sets|
  {
    if sets != [] {
      SmallUnion(sets[1..], most);
      assert most * |sets| == most * |sets[1..]| + most;
    }
  }

  lemma {:induction false} InUnion(sets: seq<set<Vm>>, i: nat, v: Vm)
    requires i < |sets| && v in sets[i]
    ensures v in Union(sets)
  {
    if i > 0 {
      InUnion(sets[1..], i - 1, v);
    }
  }

  function OnChannels(c: Config, s: State): (sets: seq<set<Vm>>)
    ensures |sets| == |c.Channels()|
    ensures forall i :: 0 <= i < |sets| ==> sets[i] == OnChannel(s, c.Channels()[i])
  {
    seq(|c.Channels()|, i requires 0 <= i < |c.Channels()| => OnChannel(s, c.Channels()[i]))
  }

  lemma InOnChannels(c: Config, s: State, l: Lang, v: Vm)
    requires l in c.Keys() && v in OnChannel(s, l)
    ensures v in Union(OnChannels(c, s))
  {
    var i :| 0 <= i < |c.Channels()| && c.Channels()[i] == l;
    InUnion(OnChannels(c, s), i, v);
  }

  // ---------------------------------------------------------------- all VMs

  /** A VM that is alive is on some channel or held by a request. */
  lemma Accounted(c: Config, s: State, v: Vm)
    requires Inv(c, s) && v < |s.sh.stock.home| && v !in s.sh.killed
    ensures v in HeldBy(s.threads, None) + Union(OnChannels(c, s))
  {
    var k := s.sh.stock;
    assert Conserved(Hold(v));
    if Total(s.threads, Hold(v)) > 0 {
      var i := TotalPositive(s.threads, Hold(v));
      var t := s.threads[i];
      assert ThreadOk(c, k, t);
      if t.role.Request? {
        InHeldBy(s.threads, None, i);
      } else {
        InHeldBy(s.threads, Some(t.key), i);
        InOnChannels(c, s, t.key, v);
      }
    } else if InHand(k) == Some(v) {
      InOnChannels(c, s, k.closer.cur.value, v);
    } else {
      InOnChannels(c, s, k.home[v], v);
    }
  }

  /**
    At every moment the VMs that are alive number at most the slots of all channels plus the
    requests that hold one.
  */
  lemma LiveVmsBounded(c: Config, s: State)
    requires c.Valid() && Reachable(c, s)
    ensures |s.sh.stock.home| - |s.sh.killed|
         <= c.Capacity() * |c.Channels()| + Total(s.threads, Borrowed)
  {
    ReachableInv(c, s);
    var all := Below(|s.sh.stock.home|);
    var live := all - s.sh.killed;
    var known := HeldBy(s.threads, None) + Union(OnChannels(c, s));
    assert s.sh.killed <= all;
    assert all == live + s.sh.killed;
    forall v | v in live ensures v in known {
      Accounted(c, s, v);
    }
    SubsetSize(live, known);
    FewBorrowed(s.threads);
    forall i | 0 <= i < |c.Channels()| ensures |OnChannels(c, s)[i]| <= c.Capacity() {
      FewOnChannel(c, s, c.Channels()[i]);
    }
    SmallUnion(OnChannels(c, s), c.Capacity());
  }

  lemma {:induction false} SubsetSize(a: set<Vm>, b: set<Vm>)
    requires a <= b
    ensures |a| <= |b|
  {
    assert b == a + (b - a);
  }
}

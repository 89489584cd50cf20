/** Safety of the scheduler over all runs: the invariant of its state, no context lost, processes served in
    order, and waiting broadcasts released exactly when nobody holds their barrier. */
module SchedulerSafety {
  import opened Common
  import opened SlotMaps
  import opened Scheduler
  import opened SchedulerInvariant

  /** A script with waiting contexts has a process running. */
  ghost predicate Settled(p: Project_, i: nat) {
    i < |p.scripts| && (p.scripts[i].contexts != [] ==> IsLive(p.core, p.scripts[i].process))
  }

  /** What scripts are, as opposed to what they are doing. */
  ghost predicate SameScripts(p: Project_, q: Project_) {
    && |q.scripts| == |p.scripts| && q.nextBarrier == p.nextBarrier
    && forall j :: 0 <= j < |p.scripts| ==>
      q.scripts[j].event == p.scripts[j].event && q.scripts[j].entity == p.scripts[j].entity
  }

  lemma GainedTwice(p: Core, q: Core, r: Core)
    requires Gained(p, q) && Gained(q, r)
    ensures Gained(p, r)
  {
    hide Get;
    var a :| q.queue == p.queue + a;
    var b :| r.queue == q.queue + b;
    assert r.queue == p.queue + (a + b);
  }

  lemma GainedNone(p: Core)
    ensures Gained(p, p)
  {
    assert p.queue == p.queue + [];
  }

  /** Work on one script leaves the others settled. */
  lemma OthersSettled(p: Project_, q: Project_, i: nat, j: nat)
    requires OnlyScript(p, q, i) && Settled(p, j) && i != j && OwnersGood(p.core.procs, p.scripts)
    ensures Settled(q, j)
  {
    hide Get, Issued;
    var ss := p.scripts;
    assert i < j && ss[i].process.Some? && ss[i].process == ss[j].process ==>
             Get(p.core.procs, ss[i].process.value).None?;
    assert j < i && ss[j].process.Some? && ss[j].process == ss[i].process ==>
             Get(p.core.procs, ss[j].process.value).None?;
  }

  lemma {:induction false} ConsumeAllGood(p: Project_, i: nat, hand: set<Key>, extra: multiset<nat>)
    requires Good(p, hand, extra) && i <= |p.scripts|
    ensures var q := ConsumeAll(p, i);
            && Good(q, hand, extra) && SameScripts(p, q) && Gained(p.core, q.core)
            && forall j :: 0 <= j < |p.scripts| && (j >= i || Settled(p, j)) ==> Settled(q, j)
    decreases |p.scripts| - i
  {
    hide ValidSlots, AllRunning, QueueGood, HandlesGood, BarriersGood, OwnersGood, Consume, Gained, Get;
    if i < |p.scripts| {
      var p1 := ConsumeOne(p, i);
      ConsumeGood(p, i, hand, extra);
      assert ConsumeAll(p, i) == ConsumeAll(p1, i + 1);
      ConsumeAllGood(p1, i + 1, hand, extra);
      var q := ConsumeAll(p, i);
      GainedTwice(p.core, p1.core, q.core);
      forall j | 0 <= j < |p.scripts| && (j >= i || Settled(p, j)) ensures Settled(q, j) {
        if j < i {
          OthersSettled(p, p1, i, j);
        }
      }
    } else {
      GainedNone(p.core);
    }
  }

  lemma OnceGood(p: Project_, did: bool, hand: set<Key>, extra: multiset<nat>)
    requires Good(p, hand, extra)
    ensures var q := Once(p, did);
            && Good(q, hand, extra) && SameScripts(p, q) && Gained(p.core, q.core)
            && (!did || NothingLost(p) ==> NothingLost(q))
  {
    hide ValidSlots, AllRunning, QueueGood, HandlesGood, BarriersGood, OwnersGood, ConsumeAll, Gained, Get;
    if did {
      GainedNone(p.core);
    } else {
      ConsumeAllGood(p, 0, hand, extra);
      var q := Once(p, did);
      forall j | 0 <= j < |q.scripts| && q.scripts[j].contexts != [] ensures IsLive(q.core, q.scripts[j].process) {
        assert Settled(q, j);
      }
    }
  }

  lemma OfferOneGood(p: Project_, o: Offer, i: nat, hand: set<Key>, extra: multiset<nat>)
    requires Good(p, hand, extra) && i < |p.scripts| && (o.ctx.barrier.Some? ==> o.ctx.barrier.value < p.nextBarrier)
    ensures var q := OfferOne(p, o, i);
            && Good(q, hand, extra) && OnlyScript(p, q, i) && Settled(q, i)
            && (exists more :: q.core.queue == p.core.queue + more)
            && (NothingLost(p) ==> NothingLost(q))
  {
    hide ValidSlots, AllRunning, QueueGood, HandlesGood, BarriersGood, OwnersGood, Get, StopScript, ScheduleScript;
    var p1 := if o.interrupt then StopScript(p, i) else p;
    if o.interrupt {
      StopGood(p, i, hand, extra);
    }
    HoldGood(p1, o.ctx.barrier, hand, extra);
    var p2 := p1.(core := p1.core.(handles := Hold(p1.core.handles, o.ctx.barrier)));
    ScheduleGood(p2, i, o.ctx, o.max, hand, extra);
    var q := OfferOne(p, o, i);
    assert q == ScheduleScript(p2, i, o.ctx, o.max);
    forall k | Get(p.core.procs, k).Some? && p.scripts[i].process != Some(k)
      ensures Get(q.core.procs, k) == Get(p.core.procs, k)
    {
      assert Get(p1.core.procs, k) == Get(p.core.procs, k);
    }
    assert OnlyScript(p, q, i);
    forall j | 0 <= j < |q.scripts| && q.scripts[j].contexts != [] && NothingLost(p)
      ensures IsLive(q.core, q.scripts[j].process)
    {
      if j != i {
        OthersSettled(p, q, i, j);
      }
    }
  }

  lemma {:induction false} OfferAllGood(p: Project_, o: Offer, i: nat, did: bool, hand: set<Key>, extra: multiset<nat>)
    requires Good(p, hand, extra) && i <= |p.scripts| && (o.ctx.barrier.Some? ==> o.ctx.barrier.value < p.nextBarrier)
    ensures var (q, looked) := OfferAll(p, o, i, did);
            && Good(q, hand, extra) && SameScripts(p, q)
            && (NothingLost(p) || (looked && !did) ==> NothingLost(q))
            && (exists more :: q.core.queue == p.core.queue + more)
    decreases |p.scripts| - i
  {
    hide ValidSlots, AllRunning, QueueGood, HandlesGood, BarriersGood, OwnersGood, Once, OfferOne, NothingLost, Get;
    hide Gained;
    if i >= |p.scripts| {
      assert p.core.queue == p.core.queue + [];
    } else if !o.to(p.scripts[i]) {
      OfferAllGood(p, o, i + 1, did, hand, extra);
    } else {
      var p1 := Once(p, did);
      OnceGood(p, did, hand, extra);
      GainedQueue(p.core, p1.core);
      var p2 := OfferOne(p1, o, i);
      OfferOneGood(p1, o, i, hand, extra);
      SameAfter(p, p1, p2, i);
      OfferAllGood(p2, o, i + 1, true, hand, extra);
      var q := OfferAll(p2, o, i + 1, true).0;
      var a :| p1.core.queue == p.core.queue + a;
      var b :| p2.core.queue == p1.core.queue + b;
      var c :| q.core.queue == p2.core.queue + c;
      assert q.core.queue == p.core.queue + (a + b + c);
    }
  }

  /** An offer looks only at what a script is, not at what it is doing. */
  ghost predicate Steady(o: Offer) {
    forall a: Script, b: Script :: a.event == b.event && a.entity == b.entity ==> o.to(a) == o.to(b)
  }

  lemma {:induction false} OfferHeard(p: Project_, o: Offer, i: nat, did: bool, hand: set<Key>, extra: multiset<nat>)
    requires Good(p, hand, extra) && i <= |p.scripts| && (o.ctx.barrier.Some? ==> o.ctx.barrier.value < p.nextBarrier)
             && Steady(o)
    ensures OfferAll(p, o, i, did).1 <==> did || exists j :: i <= j < |p.scripts| && o.to(p.scripts[j])
    decreases |p.scripts| - i
  {
    hide ValidSlots, AllRunning, QueueGood, HandlesGood, BarriersGood, OwnersGood, Once, OfferOne, NothingLost, Get;
    hide Gained;
    if i < |p.scripts| {
      if o.to(p.scripts[i]) {
        var p1 := Once(p, did);
        OnceGood(p, did, hand, extra);
        OfferOneGood(p1, o, i, hand, extra);
        var p2 := OfferOne(p1, o, i);
        SameAfter(p, p1, p2, i);
        OfferHeard(p2, o, i + 1, true, hand, extra);
      } else {
        OfferHeard(p, o, i + 1, did, hand, extra);
      }
    }
  }

  lemma GainedQueue(p: Core, q: Core)
    requires Gained(p, q)
    ensures exists more :: q.queue == p.queue + more
  {
  }

  lemma SameAfter(p: Project_, p1: Project_, p2: Project_, i: nat)
    requires SameScripts(p, p1) && OnlyScript(p1, p2, i)
    ensures SameScripts(p, p2)
  {
    hide Get;
    forall j | 0 <= j < |p.scripts|
      ensures p2.scripts[j].event == p.scripts[j].event && p2.scripts[j].entity == p.scripts[j].entity
    {
      if j != i {
        assert p2.scripts[j] == p1.scripts[j];
      }
    }
  }

  // ----- the process in hand -----

  lemma FrontGood(p: Project_, k: Key, hand: set<Key>, extra: multiset<nat>)
    requires Good(p, hand + {k}, extra) && k !in hand
    ensures Good(Front(p, k), hand, extra) && (NothingLost(p) ==> NothingLost(Front(p, k)))
  {
    hide ValidSlots, AllRunning, HandlesGood, OwnersGood, Get, Issued, InProcs, InScripts;
    assert k in hand + {k};
    var q := [k] + p.core.queue;
    assert multiset(q) == multiset{k} + multiset(p.core.queue);
    HandlesKept(p, Front(p, k), extra);
  }

  lemma BackGood(p: Project_, k: Key, hand: set<Key>, extra: multiset<nat>)
    requires Good(p, hand + {k}, extra) && k !in hand
    ensures Good(Back(p, k), hand, extra) && (NothingLost(p) ==> NothingLost(Back(p, k)))
  {
    hide ValidSlots, AllRunning, HandlesGood, OwnersGood, Get, Issued, InProcs, InScripts;
    assert k in hand + {k};
    var q := p.core.queue + [k];
    assert multiset(q) == multiset(p.core.queue) + multiset{k};
    HandlesKept(p, Back(p, k), extra);
  }

  lemma HandlesKept(p: Project_, q: Project_, extra: multiset<nat>)
    requires HandlesGood(p, extra) && q.core.procs == p.core.procs && q.core.handles == p.core.handles
             && q.scripts == p.scripts
    ensures HandlesGood(q, extra)
  {
  }

  lemma {:induction false} PopGood(p: Project_)
    requires Good(p, {}, multiset{})
    ensures var (k, rest) := PopLive(p.core.procs, p.core.queue);
            var q := p.(core := p.core.(queue := rest));
            && Good(q, if k.Some? then {k.value} else {}, multiset{})
            && (k.Some? ==> Get(p.core.procs, k.value).Some?)
            && (k.None? ==> rest == [] && forall j :: Get(p.core.procs, j).None?)
            && (NothingLost(p) ==> NothingLost(q))
    decreases |p.core.queue|
  {
    hide ValidSlots, AllRunning, HandlesGood, OwnersGood, Get, Issued, InProcs, InScripts;
    var queue := p.core.queue;
    if queue == [] {
      forall j ensures Get(p.core.procs, j).None? {
        assert multiset(queue)[j] == 0;
      }
    } else {
      var k := queue[0];
      var q := p.(core := p.core.(queue := queue[1..]));
      assert queue == [k] + queue[1..];
      assert multiset(queue) == multiset{k} + multiset(queue[1..]);
      HandlesKept(p, q, multiset{});
      if Get(p.core.procs, k).None? {
        assert Good(q, {}, multiset{});
        PopGood(q);
      }
    }
  }

  lemma WithProcGood(p: Project_, k: Key, waits: Option<nat>, hand: set<Key>, extra: multiset<nat>)
    requires Good(p, hand, extra) && Get(p.core.procs, k).Some? && (waits.Some? ==> waits.value < p.nextBarrier)
    ensures var q := WithProc(p, k, Get(p.core.procs, k).value.(waits := waits));
            Good(q, hand, extra) && (NothingLost(p) ==> NothingLost(q)) && q.scripts == p.scripts
              && q.core.queue == p.core.queue && q.nextBarrier == p.nextBarrier
  {
    hide ValidSlots, Issued, InProcs, InScripts;
    var proc := Get(p.core.procs, k).value.(waits := waits);
    PutRefines(p.core.procs, k, proc);
    var q := WithProc(p, k, proc);
    forall b ensures q.core.handles[b] == InProcs(q.core.procs.slots, b) + InScripts(q.scripts, b) + extra[b] {
      ProcsSet(p.core.procs.slots, k.slot, Entry(Some(proc), k.generation), b);
    }
  }

  lemma RetireGood(p: Project_, k: Key, hand: set<Key>, extra: multiset<nat>)
    requires Good(p, hand + {k}, extra) && k !in hand && Get(p.core.procs, k).Some?
    ensures Good(Retire(p, k), hand, extra)
  {
    hide ValidSlots, Issued, InProcs, InScripts, Removed;
    RemoveRefines(p.core.procs, k);
    var q := Retire(p, k);
    forall b ensures q.core.handles[b] == InProcs(q.core.procs.slots, b) + InScripts(q.scripts, b) + extra[b] {
      RetireHandles(p, k, extra, b);
    }
  }

  lemma RetireHandles(p: Project_, k: Key, extra: multiset<nat>, b: nat)
    requires ValidSlots(p.core.procs) && HandlesGood(p, extra) && Get(p.core.procs, k).Some?
    ensures var q := Retire(p, k);
            q.core.handles[b] == InProcs(q.core.procs.slots, b) + InScripts(q.scripts, b) + extra[b]
  {
    hide ValidSlots;
    ProcsSet(p.core.procs.slots, k.slot, Entry(None, k.generation + 1), b);
  }
}

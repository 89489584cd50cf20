/** Which scripts an input, a message, a broadcast or a new clone reaches, and what becomes of each script then. */
module SchedulerReach {
  import opened Common
  import opened SlotMaps
  import opened Scheduler
  import opened SchedulerInvariant
  import opened SchedulerSafety
  import opened SchedulerSteps
  import opened SchedulerRuns

  // ----- what becomes of a script -----

  /** A new process executes the script for a context: its key has never been used before. */
  ghost predicate Begins(p: Project_, q: Project_, sc: Script, k: Option<Key>, c: Context) {
    && k.Some? && !Issued(p.core.procs, k.value) && Issued(q.core.procs, k.value)
    && Get(q.core.procs, k.value) == Some(Proc(sc.start, c.payload, true, c.barrier, None))
  }

  /** The process of a script, if there is one, is as it was. */
  ghost predicate Runs(p: Project_, q: Project_, k: Option<Key>) {
    IsLive(p.core, k) ==> Get(q.core.procs, k.value) == Get(p.core.procs, k.value)
  }

  /** Nothing happens to script `j`. */
  ghost predicate Spared(p: Project_, q: Project_, j: nat) {
    j < |p.scripts| == |q.scripts| && q.scripts[j] == p.scripts[j] && Runs(p, q, p.scripts[j].process)
  }

  /** Script `j` is looked at: if it has contexts waiting and no process, it starts the oldest. */
  ghost predicate LookedAt(p: Project_, q: Project_, j: nat) {
    && j < |p.scripts| == |q.scripts|
    && var a, b := p.scripts[j], q.scripts[j];
       if a.contexts != [] && !IsLive(p.core, a.process) then
         && b == Script(a.event, a.entity, a.start, b.process, a.contexts[1..])
         && Begins(p, q, a, b.process, a.contexts[0])
       else Spared(p, q, j)
  }

  /** What is left waiting when there is a limit: the newest is refused. */
  function Limited(cs: seq<Context>, max: Option<nat>): seq<Context> {
    if max.Some? && |cs| > max.value then cs[..|cs| - 1] else cs
  }

  /** Script `j` is offered a context. If it is to be interrupted, it drops what it does and what it has waiting, and
      executes the script for the context in a new process. If it has a process, the context waits, unless too many do.
      If it has none, the oldest context is started, which is the new one if no other waits. */
  ghost predicate Served(p: Project_, q: Project_, j: nat, c: Context, interrupt: bool, max: Option<nat>) {
    && j < |p.scripts| == |q.scripts|
    && var a, b := p.scripts[j], q.scripts[j];
       && b == Script(a.event, a.entity, a.start, b.process, b.contexts)
       && if interrupt then
            && b.contexts == [] && Begins(p, q, a, b.process, c)
            && (a.process.Some? ==> Get(q.core.procs, a.process.value).None?)
          else if IsLive(p.core, a.process) then
            && b.process == a.process && Runs(p, q, a.process) && b.contexts == Limited(a.contexts + [c], max)
          else
            && Begins(p, q, a, b.process, (a.contexts + [c])[0])
            && b.contexts == Limited((a.contexts + [c])[1..], max)
  }

  // ----- one operation, on one script -----

  /** Keys that have been issued stay issued, and those that are out of use stay out of use. */
  ghost predicate Later(p: Project_, q: Project_) {
    && |q.scripts| == |p.scripts|
    && (forall k :: Issued(p.core.procs, k) ==> Issued(q.core.procs, k))
    && forall k :: Issued(p.core.procs, k) && Get(p.core.procs, k).None? ==> Get(q.core.procs, k).None?
  }

  lemma LaterTwice(p: Project_, q: Project_, r: Project_)
    requires Later(p, q) && Later(q, r)
    ensures Later(p, r)
  {
    hide Get, Issued;
  }

  lemma LaterSame(p: Project_)
    ensures Later(p, p)
  {
    hide Get, Issued;
  }

  lemma ConsumeLater(q: Project_, i: nat, hand: set<Key>, extra: multiset<nat>)
    requires Good(q, hand, extra) && i < |q.scripts|
    ensures Later(q, ConsumeOne(q, i))
  {
    hide ValidSlots, Get, Issued, Inserted, QueueGood, OwnersGood, HandlesGood, BarriersGood;
    var sc := q.scripts[i];
    if !IsLive(q.core, sc.process) && sc.contexts != [] {
      InsertRefines(q.core.procs, Started(sc.start, sc.contexts[0]));
    }
  }

  lemma StopLater(q: Project_, i: nat)
    requires ValidSlots(q.core.procs) && i < |q.scripts|
    ensures var r := StopScript(q, i);
            && Later(q, r)
            && (q.scripts[i].process.Some? ==> Get(r.core.procs, q.scripts[i].process.value).None?)
            && r.scripts == q.scripts[i := q.scripts[i].(process := None, contexts := [])]
  {
    hide ValidSlots, Get, Issued, Removed;
    if q.scripts[i].process.Some? {
      RemoveRefines(q.core.procs, q.scripts[i].process.value);
    }
  }

  /** What scheduling does, with the list that is left waiting and its limit written out. */
  lemma ScheduleIs(c: Core, sc: Script, ctx: Context, max: Option<nat>)
    requires ValidSlots(c.procs) && AllRunning(c.procs)
    ensures var all := sc.contexts + [ctx];
            var (d, r) := Schedule(c, sc, ctx, max);
            if IsLive(c, sc.process) then d.procs == c.procs && r == sc.(contexts := Limited(all, max))
            else
              var (m, k) := Inserted(c.procs, Started(sc.start, all[0]));
              d.procs == m && r == sc.(process := Some(k), contexts := Limited(all[1..], max))
  {
    hide ValidSlots, Get, Inserted;
    var sc1 := sc.(contexts := sc.contexts + [ctx]);
    assert sc1.contexts != [];
    if IsLive(c, sc.process) {
      assert Consume(c, sc1) == (c, sc1);
    }
  }

  /** An offer that is scheduled, said of the script it is for. */
  lemma ScheduleServes(q: Project_, i: nat, c: Context, max: Option<nat>)
    requires ValidSlots(q.core.procs) && AllRunning(q.core.procs) && i < |q.scripts|
    ensures var r := ScheduleScript(q, i, c, max); Later(q, r) && Served(q, r, i, c, false, max)
  {
    hide ValidSlots, Get, Issued, Inserted, Schedule, Limited, AllRunning;
    var sc := q.scripts[i];
    ScheduleIs(q.core, sc, c, max);
    InsertRefines(q.core.procs, Started(sc.start, (sc.contexts + [c])[0]));
  }

  lemma OfferOneLater(q: Project_, o: Offer, i: nat, hand: set<Key>, extra: multiset<nat>)
    requires Good(q, hand, extra) && i < |q.scripts|
    ensures var r := OfferOne(q, o, i); Later(q, r) && Served(q, r, i, o.ctx, o.interrupt, o.max)
  {
    hide ValidSlots, Get, Issued, StopScript, ScheduleScript, QueueGood, HandlesGood, BarriersGood, AllRunning;
    hide Served;
    var q1 := if o.interrupt then StopScript(q, i) else q;
    LaterSame(q);
    StopLater(q, i);
    StopRunning(q, i);
    var q2 := q1.(core := q1.core.(handles := Hold(q1.core.handles, o.ctx.barrier)));
    ScheduleServes(q2, i, o.ctx, o.max);
    var r := ScheduleScript(q2, i, o.ctx, o.max);
    assert r == OfferOne(q, o, i);
    assert Later(q1, q2);
    LaterTwice(q, q1, q2);
    LaterTwice(q, q2, r);
    if o.interrupt {
      assert q2.scripts[i].contexts + [o.ctx] == [o.ctx];
      InterruptServes(q, q2, r, i, o.ctx, o.max);
    } else {
      SameServes(q, q2, r, i, o.ctx, false, o.max);
    }
  }

  /** What becomes of a script is a matter of processes and scripts only. */
  lemma SameServes(p: Project_, p': Project_, q: Project_, j: nat, c: Context, interrupt: bool, max: Option<nat>)
    requires p'.core.procs == p.core.procs && p'.scripts == p.scripts
    ensures Served(p', q, j, c, interrupt, max) <==> Served(p, q, j, c, interrupt, max)
    ensures LookedAt(p', q, j) <==> LookedAt(p, q, j)
    ensures Spared(p', q, j) <==> Spared(p, q, j)
  {
    hide Get, Issued;
  }

  lemma StopRunning(q: Project_, i: nat)
    requires ValidSlots(q.core.procs) && AllRunning(q.core.procs) && i < |q.scripts|
    ensures AllRunning(StopScript(q, i).core.procs)
  {
    hide ValidSlots, Get, Removed;
    if q.scripts[i].process.Some? {
      RemoveRefines(q.core.procs, q.scripts[i].process.value);
    }
  }

  lemma InterruptServes(q: Project_, q2: Project_, r: Project_, i: nat, c: Context, max: Option<nat>)
    requires i < |q.scripts| && Later(q, q2) && Later(q2, r) && Served(q2, r, i, c, false, max)
    requires q2.scripts == q.scripts[i := q.scripts[i].(process := None, contexts := [])]
    requires q.scripts[i].process.Some? ==> Issued(q2.core.procs, q.scripts[i].process.value)
                                            && Get(q2.core.procs, q.scripts[i].process.value).None?
    ensures Served(q, r, i, c, true, max)
  {
    hide Get, Issued;
    assert [] + [c] == [c] && [c][1..] == [];
  }

  // ----- what happens to one script while the others are worked on -----

  lemma KeyKept(q: Project_, r: Project_, i: nat, j: nat, hand: set<Key>, extra: multiset<nat>)
    requires Good(q, hand, extra) && OnlyScript(q, r, i) && i != j && j < |q.scripts|
    ensures r.scripts[j] == q.scripts[j]
    ensures IsLive(q.core, q.scripts[j].process) ==>
              Get(r.core.procs, q.scripts[j].process.value) == Get(q.core.procs, q.scripts[j].process.value)
  {
    hide ValidSlots, Get, Issued, AllRunning, QueueGood, HandlesGood, BarriersGood;
  }

  /** Working on another script changes nothing about what has become of script `j`. */
  lemma OthersKeep(p: Project_, q: Project_, r: Project_, i: nat, j: nat, hand: set<Key>, extra: multiset<nat>)
    requires Good(p, hand, extra) && Good(q, hand, extra) && OnlyScript(q, r, i) && i != j && j < |p.scripts|
    requires Later(p, q) && Later(q, r)
    ensures Spared(p, q, j) ==> Spared(p, r, j)
    ensures LookedAt(p, q, j) ==> LookedAt(p, r, j)
    ensures forall c, interrupt, max :: Served(p, q, j, c, interrupt, max) ==> Served(p, r, j, c, interrupt, max)
  {
    hide ValidSlots, Get, Issued, AllRunning, QueueGood, HandlesGood, BarriersGood, Limited;
    KeyKept(q, r, i, j, hand, extra);
  }

  /** What has become of script `j` when the scripts before `i` have been looked at. */
  ghost predicate Seen(p: Project_, q: Project_, i: nat, j: nat) {
    if j < i then LookedAt(p, q, j) else Spared(p, q, j)
  }

  lemma SeenOne(p: Project_, q: Project_, i: nat, j: nat, hand: set<Key>, extra: multiset<nat>)
    requires Good(p, hand, extra) && Good(q, hand, extra) && Later(p, q) && i < |p.scripts| && j < |p.scripts|
    requires Seen(p, q, i, j)
    ensures Seen(p, ConsumeOne(q, i), i + 1, j)
  {
    hide ValidSlots, Get, Issued, Good, ConsumeOne, OnlyScript, Gained;
    GoodValid(q, hand, extra);
    ConsumeGood(q, i, hand, extra);
    ConsumeLater(q, i, hand, extra);
    if i == j {
      SparedConsumes(p, q, i, hand, extra);
    } else {
      OthersKeep(p, q, ConsumeOne(q, i), i, j, hand, extra);
    }
  }

  lemma ConsumeServes(p: Project_, q: Project_, i: nat)
    requires ValidSlots(q.core.procs) && AllRunning(q.core.procs) && i < |q.scripts| && Later(p, q)
    requires Spared(p, q, i) && (p.scripts[i].process.Some? ==> Issued(p.core.procs, p.scripts[i].process.value))
    ensures LookedAt(p, ConsumeOne(q, i), i)
  {
    hide ValidSlots, Get, Issued, Inserted;
    var sc := q.scripts[i];
    if !IsLive(q.core, sc.process) && sc.contexts != [] {
      InsertRefines(q.core.procs, Started(sc.start, sc.contexts[0]));
    }
  }

  lemma SparedConsumes(p: Project_, q: Project_, i: nat, hand: set<Key>, extra: multiset<nat>)
    requires Good(p, hand, extra) && Good(q, hand, extra) && Later(p, q) && i < |p.scripts| && Spared(p, q, i)
    ensures LookedAt(p, ConsumeOne(q, i), i)
  {
    hide ValidSlots, Get, Issued, QueueGood, HandlesGood, BarriersGood, ConsumeOne;
    ConsumeServes(p, q, i);
  }

  lemma {:induction false} AllSeen(p: Project_, q: Project_, i: nat, j: nat, hand: set<Key>, extra: multiset<nat>)
    requires Good(p, hand, extra) && Good(q, hand, extra) && Later(p, q) && i <= |p.scripts| && j < |p.scripts|
    requires Seen(p, q, i, j)
    ensures var r := ConsumeAll(q, i); Later(p, r) && LookedAt(p, r, j)
    decreases |p.scripts| - i
  {
    hide ValidSlots, Get, Issued, Good, ConsumeOne, OnlyScript, Gained, Later, LookedAt, Spared;
    GoodValid(q, hand, extra);
    LaterSize(p, q);
    if i < |p.scripts| {
      ConsumeNext(q, i);
      SeenOne(p, q, i, j, hand, extra);
      ConsumeGood(q, i, hand, extra);
      ConsumeLater(q, i, hand, extra);
      LaterTwice(p, q, ConsumeOne(q, i));
      AllSeen(p, ConsumeOne(q, i), i + 1, j, hand, extra);
    }
  }

  lemma LaterSize(p: Project_, q: Project_)
    requires Later(p, q)
    ensures |q.scripts| == |p.scripts|
  {
    hide Get, Issued;
  }

  lemma OnceSees(p: Project_, did: bool, j: nat, hand: set<Key>, extra: multiset<nat>)
    requires Good(p, hand, extra) && j < |p.scripts|
    ensures var r := Once(p, did); Later(p, r) && if did then r == p else LookedAt(p, r, j)
  {
    hide ValidSlots, Get, Issued, Good, ConsumeAll, Later;
    GoodValid(p, hand, extra);
    LaterSame(p);
    if !did {
      SparedSame(p, j);
      AllSeen(p, p, 0, j, hand, extra);
    }
  }

  lemma SparedSame(p: Project_, j: nat)
    requires j < |p.scripts|
    ensures Spared(p, p, j)
  {
    hide Get;
  }

  // ----- an offer to all -----

  /** What has become of script `j` when an offer has been made to the scripts from `from` on and before `i`. */
  ghost predicate Dealt_(p: Project_, q: Project_, o: Offer, from: nat, i: nat, looked: bool, j: nat)
    requires j < |p.scripts|
  {
    if from <= j < i && o.to(p.scripts[j]) then Served(p, q, j, o.ctx, o.interrupt, o.max)
    else if looked then LookedAt(p, q, j)
    else Spared(p, q, j)
  }

  /** A script that has been looked at, or left alone, and then gets the offer. */
  lemma ThenServed(p: Project_, q: Project_, r: Project_, j: nat, c: Context, interrupt: bool, max: Option<nat>)
    requires Later(p, q) && Later(q, r) && Served(q, r, j, c, interrupt, max) && (LookedAt(p, q, j) || Spared(p, q, j))
    requires j < |p.scripts| && (p.scripts[j].process.Some? ==> Issued(p.core.procs, p.scripts[j].process.value))
    ensures Served(p, r, j, c, interrupt, max)
  {
    hide Get, Issued;
    var a := p.scripts[j];
    if !interrupt && a.contexts != [] {
      assert (a.contexts + [c])[0] == a.contexts[0] && (a.contexts + [c])[1..] == a.contexts[1..] + [c];
    }
  }

  lemma DealtOne(p: Project_, q: Project_, o: Offer, from: nat, i: nat, looked: bool, j: nat, hand: set<Key>,
                 extra: multiset<nat>)
    requires Good(p, hand, extra) && Good(q, hand, extra) && Later(p, q) && i < |p.scripts| && j < |p.scripts|
    requires Dealt_(p, q, o, from, i, looked, j) && from <= i && o.to(p.scripts[i])
             && (o.ctx.barrier.Some? ==> o.ctx.barrier.value < q.nextBarrier)
    ensures var r := OfferOne(q, o, i); Later(p, r) && Dealt_(p, r, o, from, i + 1, looked, j)
  {
    hide ValidSlots, Get, Issued, Good, OfferOne, OnlyScript, LookedAt, Spared, Served, Later;
    LaterSize(p, q);
    GoodValid(q, hand, extra);
    var r := OfferOne(q, o, i);
    OfferOneLater(q, o, i, hand, extra);
    OfferOneGood(q, o, i, hand, extra);
    LaterTwice(p, q, r);
    if i == j {
      OwnerIssued(p, j, hand, extra);
      ThenServed(p, q, r, j, o.ctx, o.interrupt, o.max);
    } else {
      OthersKeep(p, q, r, i, j, hand, extra);
    }
  }

  lemma OwnerIssued(p: Project_, j: nat, hand: set<Key>, extra: multiset<nat>)
    requires Good(p, hand, extra) && j < |p.scripts|
    ensures p.scripts[j].process.Some? ==> Issued(p.core.procs, p.scripts[j].process.value)
  {
    hide ValidSlots, Get, Issued, AllRunning, QueueGood, HandlesGood, BarriersGood;
  }

  lemma {:induction false} DealtRest(p: Project_, q: Project_, o: Offer, from: nat, i: nat, looked: bool, j: nat,
                                     hand: set<Key>, extra: multiset<nat>)
    requires Good(p, hand, extra) && Good(q, hand, extra) && Later(p, q) && i <= |p.scripts| && j < |p.scripts|
    requires Dealt_(p, q, o, from, i, looked, j) && from <= i && SameScripts(p, q) && Steady(o)
             && (o.ctx.barrier.Some? ==> o.ctx.barrier.value < q.nextBarrier)
    ensures var r := OfferAll(q, o, i, true).0; Later(p, r) && Dealt_(p, r, o, from, |p.scripts|, looked, j)
    decreases |p.scripts| - i
  {
    hide ValidSlots, Get, Issued, Good, OfferOne, LookedAt, Spared, Served, Later, OnlyScript, ConsumeAll;
    GoodValid(q, hand, extra);
    LaterSize(p, q);
    if i < |p.scripts| {
      if o.to(p.scripts[i]) {
        assert o.to(q.scripts[i]);
        var r := OfferOne(q, o, i);
        DealtOne(p, q, o, from, i, looked, j, hand, extra);
        OfferOneGood(q, o, i, hand, extra);
        OnlyBarrier(q, r, i);
        SameAfter(p, q, r, i);
        DealtRest(p, r, o, from, i + 1, looked, j, hand, extra);
      } else {
        assert !o.to(q.scripts[i]);
        DealtRest(p, q, o, from, i + 1, looked, j, hand, extra);
      }
    }
  }

  lemma OnlyBarrier(q: Project_, r: Project_, i: nat)
    requires OnlyScript(q, r, i)
    ensures r.nextBarrier == q.nextBarrier
  {
    hide Get;
  }

  lemma NoneDealt(p: Project_, o: Offer, from: nat, j: nat)
    requires j < |p.scripts| && forall n :: from <= n < |p.scripts| ==> !o.to(p.scripts[n])
    ensures Dealt_(p, p, o, from, |p.scripts|, false, j)
  {
    hide Spared, Served, LookedAt;
    SparedSame(p, j);
  }

  /** An offer reaches exactly the scripts it is for. All others are looked at, if the project has not looked at them
      before in this step and the offer reaches any script; otherwise they are left alone. */
  lemma {:induction false} OfferReaches(p: Project_, o: Offer, from: nat, i: nat, did: bool, j: nat, hand: set<Key>,
                                        extra: multiset<nat>)
    requires Good(p, hand, extra) && i <= |p.scripts| && j < |p.scripts| && Steady(o)
             && (o.ctx.barrier.Some? ==> o.ctx.barrier.value < p.nextBarrier)
    requires from <= i && forall n :: from <= n < i ==> !o.to(p.scripts[n])
    ensures var r := OfferAll(p, o, i, did).0;
            var looked := !did && exists n :: from <= n < |p.scripts| && o.to(p.scripts[n]);
            Later(p, r) && Dealt_(p, r, o, from, |p.scripts|, looked, j)
    decreases |p.scripts| - i
  {
    hide ValidSlots, Get, Issued, Good, OfferOne, LookedAt, Spared, Served, Later, OnlyScript, Once, Dealt_;
    GoodValid(p, hand, extra);
    LaterSame(p);
    if i >= |p.scripts| {
      NoneDealt(p, o, from, j);
    } else {
      if o.to(p.scripts[i]) {
        FirstReached(p, o, from, i, did, j, hand, extra);
        var r := OfferOne(Once(p, did), o, i);
        DealtRest(p, r, o, from, i + 1, !did, j, hand, extra);
      } else {
        OfferReaches(p, o, from, i + 1, did, j, hand, extra);
      }
    }
  }

  lemma FirstReached(p: Project_, o: Offer, from: nat, i: nat, did: bool, j: nat, hand: set<Key>, extra: multiset<nat>)
    requires Good(p, hand, extra) && from <= i < |p.scripts| && j < |p.scripts| && o.to(p.scripts[i])
             && (o.ctx.barrier.Some? ==> o.ctx.barrier.value < p.nextBarrier)
    requires forall n :: from <= n < i ==> !o.to(p.scripts[n])
    ensures var r := OfferOne(Once(p, did), o, i);
            && Good(r, hand, extra) && Later(p, r) && SameScripts(p, r) && r.nextBarrier == p.nextBarrier
            && Dealt_(p, r, o, from, i + 1, !did, j)
  {
    hide ValidSlots, Get, Issued, Good, OfferOne, LookedAt, Spared, Served, Later, OnlyScript, Once;
    GoodValid(p, hand, extra);
    SparedSame(p, j);
    var q := Once(p, did);
    OnceGood(p, did, hand, extra);
    OnceSees(p, did, j, hand, extra);
    OnceBarrier(p, did, hand, extra);
    assert Dealt_(p, q, o, from, i, !did, j);
    DealtOne(p, q, o, from, i, !did, j, hand, extra);
    var r := OfferOne(q, o, i);
    OfferOneGood(q, o, i, hand, extra);
    OnlyBarrier(q, r, i);
    SameAfter(p, q, r, i);
  }

  lemma OnceBarrier(p: Project_, did: bool, hand: set<Key>, extra: multiset<nat>)
    requires Good(p, hand, extra)
    ensures SameScripts(p, Once(p, did)) && Once(p, did).nextBarrier == p.nextBarrier
  {
    hide Good, ConsumeAll, Get;
    GoodValid(p, hand, extra);
    OnceGood(p, did, hand, extra);
  }

  // ----- input -----

  /** The scripts that an input is for. */
  ghost predicate Invited(sc: Script, input: Input) {
    || (input == Start && sc.event == OnFlag)
    || (input.KeyDown? && (sc.event == OnKey(None) || sc.event == OnKey(Some(input.key))))
    || (input.Custom? && sc.event == CustomEvent(input.name))
  }

  /** What becomes of a script in an operation that serves some scripts and looks at the others. */
  ghost predicate Fares(p: Project_, q: Project_, j: nat, chosen: bool, looked: bool, c: Context, interrupt: bool,
                        max: Option<nat>) {
    && (chosen ==> Served(p, q, j, c, interrupt, max))
    && (!chosen && looked ==> LookedAt(p, q, j))
    && (!chosen && !looked ==> Spared(p, q, j))
  }

  /** The flag and key inputs, and custom events, reach exactly the scripts that are meant: the flag interrupts them; a
      key is dropped by those that are busy; a custom event interrupts or waits, with its payload, as it says. */
  lemma InputReaches(p: Project_, input: Input, j: nat)
    requires Good(p, NOBODY, NO_HANDLES) && j < |p.scripts| && !input.Stop?
    ensures var q := InputStep(p, input);
            && (forall k :: Issued(p.core.procs, k) ==> Issued(q.core.procs, k))
            && Fares(p, q, j, Invited(p.scripts[j], input),
                     exists n :: 0 <= n < |p.scripts| && Invited(p.scripts[n], input),
                     Context(if input.Custom? then input.payload else 0, None),
                     input.Start? || (input.Custom? && input.interrupt),
                     Some(if input.Custom? then input.maxQueue else 0))
  {
    hide Get, Issued, Good, ValidSlots, OfferAll, LookedAt, Spared, Served;
    GoodValid(p, NOBODY, NO_HANDLES);
    var o := OfferOf(input);
    assert Steady(o);
    OfferReaches(p, o, 0, 0, false, j, NOBODY, NO_HANDLES);
    assert forall n :: 0 <= n < |p.scripts| ==> (o.to(p.scripts[n]) <==> Invited(p.scripts[n], input));
  }

  /** Stopping leaves no process and no waiting context. */
  lemma StopReaches(p: Project_)
    requires Good(p, NOBODY, NO_HANDLES)
    ensures var q := InputStep(p, Stop);
            && q.core.queue == [] && (forall k :: Get(q.core.procs, k).None?) && |q.scripts| == |p.scripts|
            && forall j :: 0 <= j < |p.scripts| ==>
                 var a := p.scripts[j]; q.scripts[j] == Script(a.event, a.entity, a.start, None, [])
  {
    hide Get, Issued, StopScripts, Cleared, HeldBy;
    var q := StopScripts(p, 0);
    AllStopped(p, 0);
    ClearRefines(q.core.procs);
  }

  lemma {:induction false} AllStopped(p: Project_, i: nat)
    requires ValidSlots(p.core.procs) && i <= |p.scripts|
    ensures var q := StopScripts(p, i);
            && |q.scripts| == |p.scripts| && (forall j :: 0 <= j < i ==> q.scripts[j] == p.scripts[j])
            && forall j :: i <= j < |p.scripts| ==>
                 var a := p.scripts[j]; q.scripts[j] == Script(a.event, a.entity, a.start, None, [])
    decreases |p.scripts| - i
  {
    hide ValidSlots, Get, Removed, DropContexts;
    if i < |p.scripts| {
      var p1 := StopScript(p, i);
      assert p1.scripts == p.scripts[i := p.scripts[i].(process := None, contexts := [])];
      AllStopped(p1, i + 1);
    }
  }

  // ----- messages -----

  /** A network message is offered, with its payload and without a limit, to exactly the scripts of its type. */
  lemma MessageReaches(p: Project_, m: Message, j: nat)
    requires Good(p, NOBODY, NO_HANDLES) && j < |p.scripts|
    ensures var q := Delivered(p, Some(m)).0;
            Fares(p, q, j, p.scripts[j].event == NetworkMessage(m.msgType),
                  exists n :: 0 <= n < |p.scripts| && p.scripts[n].event == NetworkMessage(m.msgType),
                  Context(m.payload, None), false, None)
  {
    hide Get, Issued, Good, ValidSlots, OfferAll, LookedAt, Spared, Served;
    GoodValid(p, NOBODY, NO_HANDLES);
    var o := Incoming(m);
    assert Steady(o);
    OfferReaches(p, o, 0, 0, false, j, NOBODY, NO_HANDLES);
    assert forall n :: 0 <= n < |p.scripts| ==>
                         (o.to(p.scripts[n]) <==> p.scripts[n].event == NetworkMessage(m.msgType));
  }

  // ----- broadcasts -----

  /** The process in hand broadcasts: exactly the scripts that are addressed are interrupted and restarted with the
      message, and with the barrier if the sender waits; all others are looked at or left alone. `did` says whether the
      project has looked at them in this step already. */
  lemma BroadcastReaches(p: Project_, k: Key, act: Act, did: bool, j: nat)
    requires Good(p, {k}, NO_HANDLES) && Get(p.core.procs, k).Some? && act.Broadcasts? && j < |p.scripts|
    ensures var q := React(p, k, act, did).0;
            Fares(Sending(p, k, act), q, j, Addressed(p.scripts[j], act),
                  !did && exists n :: 0 <= n < |p.scripts| && Addressed(p.scripts[n], act),
                  Context(act.msgType, if act.wait then Some(p.nextBarrier) else None), true, Some(0))
    ensures Sending(p, k, act).scripts == p.scripts
    ensures forall l :: l != k ==> Get(Sending(p, k, act).core.procs, l) == Get(p.core.procs, l)
    ensures var a, b := Get(p.core.procs, k).value, Get(Sending(p, k, act).core.procs, k);
            b == Some(Proc(a.start, a.payload, a.running, a.barrier, if act.wait then Some(p.nextBarrier) else a.waits))
  {
    hide Get, Issued, Good, ValidSlots, OfferAll, LookedAt, Spared, Served, Sending;
    GoodValid(p, {k}, NO_HANDLES);
    var b := Ticket(p, act);
    var p1, o := Sending(p, k, act), Outgoing(act, b);
    SendingIs(p, k, act);
    SendingGood(p, k, act);
    SteadyBroadcast(act, b);
    OfferReaches(p1, o, 0, 0, did, j, {k}, Hold(NO_HANDLES, b));
    forall n | 0 <= n < |p.scripts| ensures o.to(p.scripts[n]) <==> Addressed(p.scripts[n], act) {
      HearsIs(p.scripts[n], act);
    }
    var q := OfferAll(p1, o, 0, did).0;
    BroadcastReacts(p, k, act, did);
    FaresOn(p1, q, React(p, k, act, did).0, j);
  }

  lemma SteadyBroadcast(act: Act, b: Option<nat>)
    requires act.Broadcasts?
    ensures Steady(Outgoing(act, b))
  {
  }

  lemma SendingIs(p: Project_, k: Key, act: Act)
    requires ValidSlots(p.core.procs) && Get(p.core.procs, k).Some? && act.Broadcasts?
    ensures Sending(p, k, act).scripts == p.scripts
    ensures forall l :: l != k ==> Get(Sending(p, k, act).core.procs, l) == Get(p.core.procs, l)
    ensures var a, b := Get(p.core.procs, k).value, Get(Sending(p, k, act).core.procs, k);
            b == Some(Proc(a.start, a.payload, a.running, a.barrier, if act.wait then Some(p.nextBarrier) else a.waits))
    ensures Ticket(p, act) == (if act.wait then Some(p.nextBarrier) else None)
            && Sending(p, k, act).nextBarrier == p.nextBarrier + if act.wait then 1 else 0
  {
    hide ValidSlots, Get, Put;
    PutRefines(p.core.procs, k, Get(p.core.procs, k).value.(waits := Some(p.nextBarrier)));
  }

  lemma BroadcastReacts(p: Project_, k: Key, act: Act, did: bool)
    requires ValidSlots(p.core.procs) && Get(p.core.procs, k).Some? && act.Broadcasts?
    ensures var q, r := OfferAll(Sending(p, k, act), Outgoing(act, Ticket(p, act)), 0, did).0, React(p, k, act, did).0;
            r.core.procs == q.core.procs && r.scripts == q.scripts
  {
    hide ValidSlots, Get, OfferAll, WithProc;
  }

  lemma FaresOn(p: Project_, q: Project_, r: Project_, j: nat)
    requires r.core.procs == q.core.procs && r.scripts == q.scripts
    ensures forall c, interrupt, max :: Served(p, q, j, c, interrupt, max) ==> Served(p, r, j, c, interrupt, max)
    ensures LookedAt(p, q, j) ==> LookedAt(p, r, j)
    ensures Spared(p, q, j) ==> Spared(p, r, j)
  {
    hide Get, Issued;
  }

  /** The same for a whole step, whatever message it hands out first. */
  lemma BroadcastStep(p: Project_, msg: Option<Message>, act: Act, j: nat)
    requires Good(p, NOBODY, NO_HANDLES) && act.Broadcasts? && Picked(p, msg).Some? && InHand(p, msg, act).1 == act
    requires j < |Delivered(p, msg).0.scripts|
    ensures var h, k, q := InHand(p, msg, act).0, Picked(p, msg).value, Step(p, msg, act).0;
            && h.scripts == Delivered(p, msg).0.scripts && h.nextBarrier == Delivered(p, msg).0.nextBarrier
            && Fares(Sending(h, k, act), q, j, Addressed(h.scripts[j], act),
                     !Matched(p, msg) && exists n :: 0 <= n < |h.scripts| && Addressed(h.scripts[n], act),
                     Context(act.msgType, if act.wait then Some(h.nextBarrier) else None), true, Some(0))
  {
    hide Get, Issued, Good, ValidSlots, Delivered, Fares, Sending, Matched, InHand, React, Addressed;
    GoodValid(p, NOBODY, NO_HANDLES);
    InHandGood(p, msg, act);
    InHandIs(p, msg, act);
    DeliveredGood(p, msg);
    StepUnfolds(p, msg, act);
    BroadcastReaches(InHand(p, msg, act).0, Picked(p, msg).value, act, Delivered(p, msg).1, j);
  }

  /** The process in hand is off the queue, and no longer waits for anything. */
  lemma InHandIs(p: Project_, msg: Option<Message>, act: Act)
    requires ValidSlots(p.core.procs) && Picked(p, msg).Some?
    ensures var d, (h, done) := Delivered(p, msg).0, InHand(p, msg, act);
            && h.scripts == d.scripts && h.nextBarrier == d.nextBarrier
            && (forall l :: l != Picked(p, msg).value ==> Get(h.core.procs, l) == Get(d.core.procs, l))
  {
    hide ValidSlots, Get, Delivered, PopLive, Put;
    var d := Delivered(p, msg).0;
    PopLiveResolves(d.core.procs, d.core.queue);
    var k := PopLive(d.core.procs, d.core.queue).0.value;
    PutRefines(d.core.procs, k, Get(d.core.procs, k).value.(waits := None));
  }

  // ----- clones -----

  /** Indices in ascending order, none below `lo`. */
  ghost predicate Rising(origin: seq<nat>, lo: nat) {
    && (forall i :: 0 <= i < |origin| ==> lo <= origin[i])
    && forall i, j :: 0 <= i < j < |origin| ==> origin[i] < origin[j]
  }

  /** They are those of the scripts of an entity, from `lo` on. */
  ghost predicate Hits(scripts: seq<Script>, root: nat, origin: seq<nat>, lo: nat) {
    forall n :: lo <= n < |scripts| ==> (n in origin <==> scripts[n].entity == root)
  }

  /** A script as it is, for another entity, with no process and no contexts. */
  ghost predicate CopyOf(scripts: seq<Script>, entity: nat, sc: Script, n: nat) {
    n < |scripts| && sc == Script(scripts[n].event, entity, scripts[n].start, None, [])
  }

  ghost predicate Copies(scripts: seq<Script>, entity: nat, young: seq<Script>, origin: seq<nat>) {
    |origin| == |young| && forall i :: 0 <= i < |young| ==> CopyOf(scripts, entity, young[i], origin[i])
  }

  /** The scripts of a clone: copies of those of its root, in the same order. */
  ghost predicate Copied(scripts: seq<Script>, root: nat, entity: nat, young: seq<Script>, origin: seq<nat>) {
    Rising(origin, 0) && Hits(scripts, root, origin, 0) && Copies(scripts, entity, young, origin)
  }

  lemma {:induction false} ClonedAre(scripts: seq<Script>, root: nat, entity: nat) returns (origin: seq<nat>)
    ensures Copied(scripts, root, entity, ClonedScripts(scripts, root, entity), origin)
    decreases |scripts|
  {
    hide Rising, Hits, Copies;
    if scripts == [] {
      origin := [];
      NoneCopied(root, entity);
    } else {
      var rest := ClonedAre(scripts[1..], root, entity);
      var young := ClonedScripts(scripts[1..], root, entity);
      var later := seq(|rest|, i requires 0 <= i < |rest| => rest[i] + 1);
      origin := if scripts[0].entity == root then [0] + later else later;
      LaterRising(rest, later);
      LaterHits(scripts, root, rest, later);
      LaterCopies(scripts, entity, young, rest, later);
      FirstRising(later);
      FirstHits(scripts, root, later);
      FirstCopies(scripts, entity, young, later);
    }
  }

  lemma NoneCopied(root: nat, entity: nat)
    ensures Copied([], root, entity, [], [])
  {
  }

  ghost predicate OneMore(rest: seq<nat>, later: seq<nat>) {
    |later| == |rest| && forall i :: 0 <= i < |rest| ==> later[i] == rest[i] + 1
  }

  lemma LaterRising(rest: seq<nat>, later: seq<nat>)
    requires Rising(rest, 0) && OneMore(rest, later)
    ensures Rising(later, 1)
  {
  }

  lemma FirstRising(later: seq<nat>)
    requires Rising(later, 1)
    ensures Rising(later, 0) && Rising([0] + later, 0)
  {
    var all := [0] + later;
    assert forall i :: 0 < i < |all| ==> all[i] == later[i - 1];
  }

  lemma LaterHits(scripts: seq<Script>, root: nat, rest: seq<nat>, later: seq<nat>)
    requires scripts != [] && Hits(scripts[1..], root, rest, 0) && OneMore(rest, later)
    ensures Hits(scripts, root, later, 1)
  {
    forall n | 1 <= n < |scripts| ensures n in later <==> scripts[n].entity == root {
      assert scripts[1..][n - 1] == scripts[n];
      if n - 1 in rest {
        var i :| 0 <= i < |rest| && rest[i] == n - 1;
        assert later[i] == n;
      }
    }
  }

  lemma FirstHits(scripts: seq<Script>, root: nat, later: seq<nat>)
    requires scripts != [] && Rising(later, 1) && Hits(scripts, root, later, 1)
    ensures Hits(scripts, root, if scripts[0].entity == root then [0] + later else later, 0)
  {
    var all := [0] + later;
    assert all[0] == 0;
    assert forall n :: n in later ==> n in all;
    assert forall n :: n in all ==> n == 0 || n in later;
  }

  lemma LaterCopies(scripts: seq<Script>, entity: nat, young: seq<Script>, rest: seq<nat>, later: seq<nat>)
    requires scripts != [] && Copies(scripts[1..], entity, young, rest) && OneMore(rest, later)
    ensures Copies(scripts, entity, young, later)
  {
    forall i | 0 <= i < |young| ensures CopyOf(scripts, entity, young[i], later[i]) {
      assert CopyOf(scripts[1..], entity, young[i], rest[i]);
    }
  }

  lemma FirstCopies(scripts: seq<Script>, entity: nat, young: seq<Script>, later: seq<nat>)
    requires scripts != [] && Copies(scripts, entity, young, later)
    ensures Copies(scripts, entity, [Script(scripts[0].event, entity, scripts[0].start, None, [])] + young, [0] + later)
  {
    var all, origin := [Script(scripts[0].event, entity, scripts[0].start, None, [])] + young, [0] + later;
    forall i | 0 <= i < |all| ensures CopyOf(scripts, entity, all[i], origin[i]) {
      if i > 0 {
        assert CopyOf(scripts, entity, young[i - 1], later[i - 1]);
      }
    }
  }

  /** A clone gets copies of the scripts of its root, behind all others, and those that are for new clones are
      started. */
  lemma CloneReaches(p: Project_, k: Key, act: Act, did: bool, j: nat) returns (young: seq<Script>, origin: seq<nat>)
    requires Good(p, {k}, NO_HANDLES) && Get(p.core.procs, k).Some? && act.Clones?
    ensures Copied(p.scripts, act.root, act.entity, young, origin)
    ensures var all, q := p.scripts + young, React(p, k, act, did).0;
            j < |all| ==>
              Fares(p.(scripts := all), q, j, j >= |p.scripts| && all[j].event == OnClone,
                    !did && exists n :: |p.scripts| <= n < |all| && all[n].event == OnClone,
                    Context(0, None), false, Some(0))
  {
    hide Get, Issued, Good, ValidSlots, OfferAll, LookedAt, Spared, Served, ClonedScripts, StartClone, AllIdle;
    GoodValid(p, {k}, NO_HANDLES);
    origin := ClonedAre(p.scripts, act.root, act.entity);
    young := ClonedScripts(p.scripts, act.root, act.entity);
    ClonedIdle(p.scripts, act.root, act.entity);
    WithScriptsGood(p, young, {k}, NO_HANDLES);
    CloneIsOffer(p, young, 0, did);
    var w := WithScripts(p, young);
    if j < |w.scripts| {
      OfferReaches(w, Born(), |p.scripts|, |p.scripts|, did, j, {k}, NO_HANDLES);
      assert forall n :: 0 <= n < |w.scripts| ==> (Born().to(w.scripts[n]) <==> w.scripts[n].event == OnClone);
      CloneReacts(p, k, act, did);
      var q := OfferAll(w, Born(), |p.scripts|, did).0;
      FaresOn(w, q, React(p, k, act, did).0, j);
    }
  }

  lemma CloneReacts(p: Project_, k: Key, act: Act, did: bool)
    requires ValidSlots(p.core.procs) && Get(p.core.procs, k).Some? && act.Clones?
    ensures var young := ClonedScripts(p.scripts, act.root, act.entity);
            var (q, grown, _) := StartClone(p, young, 0, did);
            var r := React(p, k, act, did).0;
            r.core.procs == q.core.procs && r.scripts == q.scripts + grown
  {
    hide ValidSlots, Get, StartClone, ClonedScripts;
  }

  // ----- what a step reports, and whose turn comes next -----

  /** What the project says of a step, and where the process in hand goes: it stays in front, goes to the back of the
      queue, or is gone. */
  lemma StepReports(p: Project_, msg: Option<Message>, act: Act)
    requires Good(p, NOBODY, NO_HANDLES)
    ensures var (q, r) := Step(p, msg, act);
            && (Picked(p, msg).None? ==> r == Idle)
            && (Picked(p, msg).Some? ==>
                  var k, done := Picked(p, msg).value, InHand(p, msg, act).1;
                  && (done == act || done == Yields)
                  && (done == Yields ==> r == Yielded && q.core.queue != [] && q.core.queue[|q.core.queue| - 1] == k)
                  && (done == Watches ==> r == Watcher && q.core.queue != [] && q.core.queue[0] == k)
                  && (done == Pauses ==> r == Paused && q.core.queue != [] && q.core.queue[0] == k)
                  && (done == Normal || done.Forks? || done.Clones? || done.Broadcasts? ==>
                        r == Went && q.core.queue != [] && q.core.queue[0] == k)
                  && (done == Ends ==> r == ProcessTerminated && Get(q.core.procs, k).None?)
                  && (done == Fails ==> r == ErrorStep && Get(q.core.procs, k).None?))
  {
    hide Get, Issued, Good, ValidSlots, Delivered, InHand, React, PopLive;
    GoodValid(p, NOBODY, NO_HANDLES);
    if Picked(p, msg).Some? {
      var h, done := InHand(p, msg, act).0, InHand(p, msg, act).1;
      InHandGood(p, msg, act);
      StepUnfolds(p, msg, act);
      InHandAct(p, msg, act);
      ReactReports(h, Picked(p, msg).value, done, Delivered(p, msg).1);
    }
  }

  lemma InHandAct(p: Project_, msg: Option<Message>, act: Act)
    requires ValidSlots(p.core.procs) && Picked(p, msg).Some?
    ensures InHand(p, msg, act).1 == act || InHand(p, msg, act).1 == Yields
  {
    hide ValidSlots, Get, Delivered, PopLive, WithProc;
  }

  lemma ReactReports(p: Project_, k: Key, act: Act, did: bool)
    requires Good(p, {k}, NO_HANDLES) && Get(p.core.procs, k).Some?
    ensures var (q, r) := React(p, k, act, did);
            && (act == Yields ==> r == Yielded && q.core.queue != [] && q.core.queue[|q.core.queue| - 1] == k)
            && (act == Watches ==> r == Watcher && q.core.queue != [] && q.core.queue[0] == k)
            && (act == Pauses ==> r == Paused && q.core.queue != [] && q.core.queue[0] == k)
            && (act == Normal || act.Forks? || act.Clones? || act.Broadcasts? ==>
                  r == Went && q.core.queue != [] && q.core.queue[0] == k)
            && (act == Ends ==> r == ProcessTerminated && Get(q.core.procs, k).None?)
            && (act == Fails ==> r == ErrorStep && Get(q.core.procs, k).None?)
  {
    hide Get, Issued, Good, ValidSlots, Once, OfferAll, StartClone, Retire, Inserted, WithProc, ClonedScripts, Outgoing;
    GoodValid(p, {k}, NO_HANDLES);
    if act.Ends? || act.Fails? {
      Gone(p, k, did);
    }
  }

  lemma Gone(p: Project_, k: Key, did: bool)
    requires Good(p, {k}, NO_HANDLES) && Get(p.core.procs, k).Some?
    ensures Get(Once(Retire(p, k), did).core.procs, k).None?
  {
    hide Get, Issued, Good, ValidSlots, Once, Removed;
    GoodValid(p, {k}, NO_HANDLES);
    assert NOBODY + {k} == {k};
    RetireGood(p, k, NOBODY, NO_HANDLES);
    RemoveRefines(p.core.procs, k);
    LiveIsIssued(p.core.procs, k);
    OnceStale(Retire(p, k), did, k);
  }

  lemma OnceStale(p: Project_, did: bool, k: Key)
    requires Good(p, NOBODY, NO_HANDLES) && Issued(p.core.procs, k) && Get(p.core.procs, k).None?
    ensures Get(Once(p, did).core.procs, k).None?
  {
    hide Get, Issued, Good, ValidSlots, ConsumeAll;
    GoodValid(p, NOBODY, NO_HANDLES);
    if !did {
      ConsumeStale(p, p, 0);
    }
  }

  lemma {:induction false} ConsumeStale(p: Project_, q: Project_, i: nat)
    requires Good(q, NOBODY, NO_HANDLES) && Later(p, q) && i <= |q.scripts|
    ensures Later(p, ConsumeAll(q, i))
    decreases |q.scripts| - i
  {
    hide Get, Issued, Good, ValidSlots, ConsumeOne, Later;
    GoodValid(q, NOBODY, NO_HANDLES);
    if i < |q.scripts| {
      ConsumeNext(q, i);
      ConsumeGood(q, i, NOBODY, NO_HANDLES);
      ConsumeLater(q, i, NOBODY, NO_HANDLES);
      LaterTwice(p, q, ConsumeOne(q, i));
      ConsumeStale(p, ConsumeOne(q, i), i + 1);
    }
  }

  /** A forked process executes what it was forked for, and is last in the queue. */
  lemma ForkReaches(p: Project_, k: Key, start: nat, payload: nat, did: bool)
    requires Good(p, {k}, NO_HANDLES) && Get(p.core.procs, k).Some?
    ensures var q := React(p, k, Forks(start, payload), did).0;
            q.core.queue != []
            && var f := q.core.queue[|q.core.queue| - 1];
               !Issued(p.core.procs, f) && Get(q.core.procs, f) == Some(Proc(start, payload, true, None, None))
  {
    hide Get, Issued, Good, ValidSlots, Once, Inserted;
    GoodValid(p, {k}, NO_HANDLES);
    var proc := Started(start, Context(payload, None));
    InsertRefines(p.core.procs, proc);
    ForkGood(p, proc, {k}, NO_HANDLES);
    var (m, f) := Inserted(p.core.procs, proc);
    var p1 := p.(core := p.core.(procs := m));
    OnceGood(p1, did, {k} + {f}, NO_HANDLES);
    GoodValid(p1, {k} + {f}, NO_HANDLES);
  }
}

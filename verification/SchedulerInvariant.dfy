/** What holds between the steps of a project: every process runs and has its key in the queue once, no
    process has two owners, and the outstanding handles are those that processes and waiting contexts hold. */
module SchedulerInvariant {
  import opened Common
  import opened SlotMaps
  import opened Scheduler

  // ----- the handles held -----

  /** Whether a handle is of barrier `b`, as a number. */
  function One(o: Option<nat>, b: nat): nat {
    if o == Some(b) then 1 else 0
  }

  function HandleOf(e: Entry<Proc>): Option<nat> {
    if e.value.Some? then e.value.value.barrier else None
  }

  function InProcs(slots: seq<Entry<Proc>>, b: nat): nat
    decreases |slots|
  {
    if slots == [] then 0 else InProcs(slots[..|slots| - 1], b) + One(HandleOf(slots[|slots| - 1]), b)
  }

  function InContexts(cs: seq<Context>, b: nat): nat
    decreases |cs|
  {
    if cs == [] then 0 else One(cs[0].barrier, b) + InContexts(cs[1..], b)
  }

  function InScripts(ss: seq<Script>, b: nat): nat
    decreases |ss|
  {
    if ss == [] then 0 else InScripts(ss[..|ss| - 1], b) + InContexts(ss[|ss| - 1].contexts, b)
  }

  lemma {:induction false} ProcsSet(slots: seq<Entry<Proc>>, i: nat, e: Entry<Proc>, b: nat)
    requires i < |slots|
    ensures InProcs(slots[i := e], b) + One(HandleOf(slots[i]), b) == InProcs(slots, b) + One(HandleOf(e), b)
    ensures One(HandleOf(slots[i]), b) <= InProcs(slots, b)
    decreases |slots|
  {
    var n := |slots| - 1;
    if i < n {
      ProcsSet(slots[..n], i, e, b);
      assert slots[i := e][..n] == slots[..n][i := e];
    } else {
      assert slots[i := e][..n] == slots[..n];
    }
  }

  lemma ProcsAdd(slots: seq<Entry<Proc>>, e: Entry<Proc>, b: nat)
    ensures InProcs(slots + [e], b) == InProcs(slots, b) + One(HandleOf(e), b)
  {
    assert (slots + [e])[..|slots|] == slots;
  }

  lemma {:induction false} ScriptsSet(ss: seq<Script>, i: nat, sc: Script, b: nat)
    requires i < |ss|
    ensures InScripts(ss[i := sc], b) + InContexts(ss[i].contexts, b) == InScripts(ss, b) + InContexts(sc.contexts, b)
    ensures InContexts(ss[i].contexts, b) <= InScripts(ss, b)
    decreases |ss|
  {
    var n := |ss| - 1;
    if i < n {
      ScriptsSet(ss[..n], i, sc, b);
      assert ss[i := sc][..n] == ss[..n][i := sc];
    } else {
      assert ss[i := sc][..n] == ss[..n];
    }
  }

  lemma {:induction false} ContextsAdd(cs: seq<Context>, c: Context, b: nat)
    ensures InContexts(cs + [c], b) == InContexts(cs, b) + One(c.barrier, b)
    decreases |cs|
  {
    if cs == [] {
      assert [] + [c] == [c] && [c][1..] == [];
    } else {
      assert (cs + [c])[1..] == cs[1..] + [c];
      ContextsAdd(cs[1..], c, b);
    }
  }

  lemma {:induction false} DropCounts(h: multiset<nat>, cs: seq<Context>, b: nat)
    requires h[b] >= InContexts(cs, b)
    ensures DropContexts(h, cs)[b] == h[b] - InContexts(cs, b)
    decreases |cs|
  {
    if cs != [] {
      DropCounts(Drop(h, cs[0].barrier), cs[1..], b);
    }
  }

  lemma {:induction false} HeldCounts(slots: seq<Entry<Proc>>, b: nat)
    ensures HeldBy(slots)[b] == InProcs(slots, b)
    decreases |slots|
  {
    if slots != [] {
      HeldCounts(slots[..|slots| - 1], b);
    }
  }

  // ----- the invariant; `hand` are processes off the queue, `extra` are handles in local variables -----

  lemma LiveIsIssued(m: Slots<Proc>, k: Key)
    requires Get(m, k).Some?
    ensures Issued(m, k)
  {
  }

  ghost predicate AllRunning(procs: Slots<Proc>) {
    forall k :: Get(procs, k).Some? ==> Get(procs, k).value.running
  }

  ghost predicate QueueGood(procs: Slots<Proc>, queue: seq<Key>, hand: set<Key>) {
    && (forall k :: k in queue ==> Issued(procs, k))
    && (forall k :: k in hand ==> Issued(procs, k))
    && (forall k :: Get(procs, k).Some? ==> multiset(queue)[k] == if k in hand then 0 else 1)
  }

  ghost predicate OwnersGood(procs: Slots<Proc>, ss: seq<Script>) {
    && (forall i :: 0 <= i < |ss| && ss[i].process.Some? ==> Issued(procs, ss[i].process.value))
    && (forall i, j :: 0 <= i < j < |ss| && ss[i].process.Some? && ss[i].process == ss[j].process ==>
          Get(procs, ss[i].process.value).None?)
  }

  /** The outstanding handles are those held by processes, by waiting contexts, and the extra ones. */
  ghost predicate HandlesGood(p: Project_, extra: multiset<nat>) {
    forall b :: p.core.handles[b] == InProcs(p.core.procs.slots, b) + InScripts(p.scripts, b) + extra[b]
  }

  ghost predicate BarriersGood(p: Project_) {
    && (forall b :: b in p.core.handles ==> b < p.nextBarrier)
    && (forall k :: Get(p.core.procs, k).Some? && Get(p.core.procs, k).value.waits.Some? ==>
          Get(p.core.procs, k).value.waits.value < p.nextBarrier)
  }

  ghost predicate Good(p: Project_, hand: set<Key>, extra: multiset<nat>) {
    && ValidSlots(p.core.procs) && AllRunning(p.core.procs) && QueueGood(p.core.procs, p.core.queue, hand)
    && OwnersGood(p.core.procs, p.scripts)
    && HandlesGood(p, extra) && BarriersGood(p)
  }

  /** A key that is not in the map has no claim on it: it never resolves again. */
  ghost predicate NothingLost(p: Project_) {
    forall i :: 0 <= i < |p.scripts| && p.scripts[i].contexts != [] ==> IsLive(p.core, p.scripts[i].process)
  }

  /** A broadcast is for a script: it has an event for messages of this type, or of all types, and its entity is one of
      the targets, if there are any. */
  ghost predicate Addressed(sc: Script, act: Act)
    requires act.Broadcasts?
  {
    && (sc.event == LocalMessage(None) || sc.event == LocalMessage(Some(act.msgType)))
    && (act.targets == None || (act.targets.Some? && sc.entity in act.targets.value))
  }

  lemma HearsIs(sc: Script, act: Act)
    requires act.Broadcasts?
    ensures Hears(sc, act) <==> Addressed(sc, act)
  {
  }

  // ----- one script -----

  /** `q` is `p` after script `i` has been worked on: other scripts are as they were, and no process but
      that of script `i` is gone. */
  ghost predicate OnlyScript(p: Project_, q: Project_, i: nat) {
    && |q.scripts| == |p.scripts| && i < |p.scripts| && q.nextBarrier == p.nextBarrier
    && (forall j :: 0 <= j < |p.scripts| && j != i ==> q.scripts[j] == p.scripts[j])
    && (forall k :: Get(p.core.procs, k).Some? && p.scripts[i].process != Some(k) ==>
          Get(q.core.procs, k) == Get(p.core.procs, k))
    && q.scripts[i].event == p.scripts[i].event && q.scripts[i].entity == p.scripts[i].entity
  }

  function ConsumeOne(p: Project_, i: nat): (r: Project_)
    requires ValidSlots(p.core.procs) && i < |p.scripts|
    ensures ValidSlots(r.core.procs) && |r.scripts| == |p.scripts|
  {
    ConsumeValid(p.core, p.scripts[i]);
    var (c, sc) := Consume(p.core, p.scripts[i]);
    p.(core := c, scripts := p.scripts[i := sc])
  }

  /** A process of its own for a context. */
  lemma InsertQueue(c: Core, proc: Proc, hand: set<Key>)
    requires ValidSlots(c.procs) && AllRunning(c.procs) && QueueGood(c.procs, c.queue, hand) && proc.running
    ensures var (m, k) := Inserted(c.procs, proc);
            ValidSlots(m) && AllRunning(m) && QueueGood(m, c.queue + [k], hand)
  {
    hide Inserted, ValidSlots, Get, Issued;
    InsertRefines(c.procs, proc);
    var (m, k) := Inserted(c.procs, proc);
    var q := c.queue + [k];
    assert multiset(q) == multiset(c.queue) + multiset{k};
    assert k !in c.queue;
  }

  lemma InsertHeld(c: Core, proc: Proc, b: nat)
    requires ValidSlots(c.procs)
    ensures InProcs(Inserted(c.procs, proc).0.slots, b) == InProcs(c.procs.slots, b) + One(proc.barrier, b)
  {
    if c.procs.empty != [] {
      var i := c.procs.empty[|c.procs.empty| - 1];
      assert i in c.procs.empty;
      ProcsSet(c.procs.slots, i, Entry(Some(proc), c.procs.slots[i].generation), b);
    } else {
      ProcsAdd(c.procs.slots, Entry(Some(proc), 0), b);
    }
  }

  /** `procs` has gained at most a process under a new key, and lost nothing. */
  ghost predicate Gained(p: Core, q: Core) {
    && (forall k :: Get(p.procs, k).Some? ==> Get(q.procs, k) == Get(p.procs, k))
    && (exists more :: q.queue == p.queue + more)
  }

  lemma StartGood(p: Project_, i: nat, hand: set<Key>, extra: multiset<nat>)
    requires Good(p, hand, extra) && i < |p.scripts| && p.scripts[i].contexts != []
             && !IsLive(p.core, p.scripts[i].process)
    ensures var q := ConsumeOne(p, i);
            Good(q, hand, extra) && OnlyScript(p, q, i) && Gained(p.core, q.core)
              && IsLive(q.core, q.scripts[i].process)
  {
    hide ValidSlots, Get, Issued, InProcs, InScripts, InContexts, QueueGood, Inserted;
    var sc := p.scripts[i];
    var q := ConsumeOne(p, i);
    var proc := Started(sc.start, sc.contexts[0]);
    InsertRefines(p.core.procs, proc);
    InsertQueue(p.core, proc, hand);
    forall b ensures q.core.handles[b] == InProcs(q.core.procs.slots, b) + InScripts(q.scripts, b) + extra[b] {
      InsertHeld(p.core, proc, b);
      ScriptsSet(p.scripts, i, q.scripts[i], b);
      ContextsFirst(sc.contexts, b);
    }
    assert q.core.queue == p.core.queue + [Inserted(p.core.procs, proc).1];
  }

  lemma ContextsFirst(cs: seq<Context>, b: nat)
    requires cs != []
    ensures InContexts(cs, b) == One(cs[0].barrier, b) + InContexts(cs[1..], b)
  {
  }

  lemma ConsumeGood(p: Project_, i: nat, hand: set<Key>, extra: multiset<nat>)
    requires Good(p, hand, extra) && i < |p.scripts|
    ensures var q := ConsumeOne(p, i);
            && Good(q, hand, extra) && OnlyScript(p, q, i) && Gained(p.core, q.core)
            && (q.scripts[i].contexts != [] ==> IsLive(q.core, q.scripts[i].process))
  {
    hide ValidSlots, Get, Issued, InProcs, InScripts, InContexts, QueueGood, Inserted, OwnersGood, HandlesGood;
    hide BarriersGood;
    var sc := p.scripts[i];
    var q := ConsumeOne(p, i);
    if IsLive(p.core, sc.process) || sc.contexts == [] {
      assert q.scripts == p.scripts;
      assert q.core.queue == p.core.queue + [];
    } else {
      StartGood(p, i, hand, extra);
    }
  }

  lemma StopHandles(p: Project_, i: nat, extra: multiset<nat>, b: nat)
    requires ValidSlots(p.core.procs) && HandlesGood(p, extra) && i < |p.scripts|
    ensures var q := StopScript(p, i);
            q.core.handles[b] == InProcs(q.core.procs.slots, b) + InScripts(q.scripts, b) + extra[b]
  {
    hide ValidSlots, Removed, InProcs, InScripts, DropContexts;
    var sc := p.scripts[i];
    var q := StopScript(p, i);
    ScriptsSet(p.scripts, i, q.scripts[i], b);
    if IsLive(p.core, sc.process) {
      var k := sc.process.value;
      RemovedHandles(p.core, k, b);
      DropCounts(Drop(p.core.handles, Get(p.core.procs, k).value.barrier), sc.contexts, b);
    } else {
      RemovedNothing(p.core, sc.process);
      DropCounts(p.core.handles, sc.contexts, b);
    }
  }

  lemma RemovedHandles(c: Core, k: Key, b: nat)
    requires ValidSlots(c.procs) && Get(c.procs, k).Some?
    ensures var (m, r) := Removed(c.procs, k);
            r == Get(c.procs, k) && InProcs(m.slots, b) + One(r.value.barrier, b) == InProcs(c.procs.slots, b)
  {
    hide ValidSlots, InProcs;
    ProcsSet(c.procs.slots, k.slot, Entry(None, k.generation + 1), b);
  }

  lemma RemovedNothing(c: Core, k: Option<Key>)
    requires ValidSlots(c.procs) && !IsLive(c, k)
    ensures k.Some? ==> Removed(c.procs, k.value) == (c.procs, None)
  {
    hide ValidSlots;
  }

  lemma DropSubset(h: multiset<nat>, cs: seq<Context>)
    ensures forall b :: b in DropContexts(h, cs) ==> b in h
    decreases |cs|
  {
    if cs != [] {
      DropSubset(Drop(h, cs[0].barrier), cs[1..]);
    }
  }

  lemma StopGood(p: Project_, i: nat, hand: set<Key>, extra: multiset<nat>)
    requires Good(p, hand, extra) && i < |p.scripts|
    ensures var q := StopScript(p, i);
            Good(q, hand, extra) && OnlyScript(p, q, i) && q.scripts[i].contexts == [] && q.scripts[i].process.None?
              && q.core.queue == p.core.queue
  {
    hide ValidSlots, Get, Issued, InProcs, InScripts, InContexts, Removed, BarriersGood;
    var sc := p.scripts[i];
    var q := StopScript(p, i);
    forall b ensures q.core.handles[b] == InProcs(q.core.procs.slots, b) + InScripts(q.scripts, b) + extra[b] {
      StopHandles(p, i, extra, b);
    }
    if sc.process.Some? {
      RemoveRefines(p.core.procs, sc.process.value);
    }
    StopBarriers(p, i);
  }

  lemma StopBarriers(p: Project_, i: nat)
    requires ValidSlots(p.core.procs) && BarriersGood(p) && i < |p.scripts|
    ensures BarriersGood(StopScript(p, i))
  {
    hide ValidSlots, Get, Removed;
    var sc := p.scripts[i];
    if sc.process.Some? {
      RemoveRefines(p.core.procs, sc.process.value);
      if IsLive(p.core, sc.process) {
        DropSubset(Drop(p.core.handles, Get(p.core.procs, sc.process.value).value.barrier), sc.contexts);
      } else {
        DropSubset(p.core.handles, sc.contexts);
      }
    } else {
      DropSubset(p.core.handles, sc.contexts);
    }
  }

  lemma HoldGood(p: Project_, b: Option<nat>, hand: set<Key>, extra: multiset<nat>)
    requires Good(p, hand, extra) && (b.Some? ==> b.value < p.nextBarrier)
    ensures Good(p.(core := p.core.(handles := Hold(p.core.handles, b))), hand, Hold(extra, b))
  {
    hide ValidSlots, Get, Issued, InProcs, InScripts, InContexts;
  }

  /** A context offered to a script takes the extra handle with it. */
  lemma OfferedGood(p: Project_, i: nat, ctx: Context, hand: set<Key>, extra: multiset<nat>)
    requires Good(p, hand, Hold(extra, ctx.barrier)) && i < |p.scripts|
    ensures Good(p.(scripts := p.scripts[i := p.scripts[i].(contexts := p.scripts[i].contexts + [ctx])]), hand, extra)
  {
    hide ValidSlots, Get, Issued, InProcs, InScripts, InContexts, QueueGood, AllRunning;
    var sc := p.scripts[i].(contexts := p.scripts[i].contexts + [ctx]);
    var q := p.(scripts := p.scripts[i := sc]);
    forall b ensures q.core.handles[b] == InProcs(q.core.procs.slots, b) + InScripts(q.scripts, b) + extra[b] {
      ContextsAdd(p.scripts[i].contexts, ctx, b);
      ScriptsSet(p.scripts, i, sc, b);
      assert Hold(extra, ctx.barrier)[b] == extra[b] + One(ctx.barrier, b);
    }
  }

  lemma DroppedGood(p: Project_, i: nat, hand: set<Key>, extra: multiset<nat>)
    requires Good(p, hand, extra) && i < |p.scripts| && p.scripts[i].contexts != []
    ensures var cs := p.scripts[i].contexts;
            var n := |cs| - 1;
            Good(p.(core := p.core.(handles := Drop(p.core.handles, cs[n].barrier)),
                    scripts := p.scripts[i := p.scripts[i].(contexts := cs[..n])]), hand, extra)
  {
    hide ValidSlots, Get, Issued, InProcs, InScripts, InContexts, QueueGood, AllRunning;
    var cs := p.scripts[i].contexts;
    var n := |cs| - 1;
    var sc := p.scripts[i].(contexts := cs[..n]);
    var q := p.(core := p.core.(handles := Drop(p.core.handles, cs[n].barrier)), scripts := p.scripts[i := sc]);
    assert cs == cs[..n] + [cs[n]];
    forall b ensures q.core.handles[b] == InProcs(q.core.procs.slots, b) + InScripts(q.scripts, b) + extra[b] {
      ContextsAdd(cs[..n], cs[n], b);
      ScriptsSet(p.scripts, i, sc, b);
    }
  }

  lemma ScheduleGood(p: Project_, i: nat, ctx: Context, max: Option<nat>, hand: set<Key>, extra: multiset<nat>)
    requires Good(p, hand, Hold(extra, ctx.barrier)) && i < |p.scripts|
    ensures var q := ScheduleScript(p, i, ctx, max);
            && Good(q, hand, extra) && OnlyScript(p, q, i) && Gained(p.core, q.core)
            && (q.scripts[i].contexts != [] ==> IsLive(q.core, q.scripts[i].process))
  {
    hide ValidSlots, Get, Issued, InProcs, InScripts, InContexts, QueueGood, OwnersGood, HandlesGood, BarriersGood;
    hide Consume, Inserted;
    var sc := p.scripts[i].(contexts := p.scripts[i].contexts + [ctx]);
    var p1 := p.(scripts := p.scripts[i := sc]);
    OfferedGood(p, i, ctx, hand, extra);
    ConsumeGood(p1, i, hand, extra);
    var p2 := ConsumeOne(p1, i);
    var q := ScheduleScript(p, i, ctx, max);
    var cs := p2.scripts[i].contexts;
    assert p1.scripts[i] == sc;
    if max.Some? && |cs| > max.value {
      DroppedGood(p2, i, hand, extra);
      assert q.scripts == p2.scripts[i := p2.scripts[i].(contexts := cs[..|cs| - 1])];
    } else {
      assert q.scripts == p2.scripts;
    }
  }
}

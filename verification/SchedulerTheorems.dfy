/** What the scheduler guarantees over whole runs. */
module SchedulerTheorems {
  import opened Common
  import opened SlotMaps
  import opened Scheduler
  import opened SchedulerInvariant
  import opened SchedulerSafety
  import opened SchedulerSteps
  import opened SchedulerRuns
  import opened SchedulerBarriers

  /** Whatever happens to a project set up from scripts: every process runs, its key is queued exactly once,
      at most one script owns it, and any other queued key never resolves again. */
  lemma EveryRun(templates: seq<Template>, ms: seq<Move>, more: seq<Move>, k: Key)
    ensures var p := Ran(FromInit(templates), ms);
            && (Get(p.core.procs, k).Some? ==>
                  && Get(p.core.procs, k).value.running && multiset(p.core.queue)[k] == 1
                  && forall i, j :: 0 <= i < j < |p.scripts| && p.scripts[i].process == Some(k) ==>
                    p.scripts[j].process != Some(k))
            && (Get(p.core.procs, k).None?
                && (k in p.core.queue || exists i :: 0 <= i < |p.scripts| && p.scripts[i].process == Some(k)) ==>
                  Get(Ran(p, more).core.procs, k).None?)
  {
    hide ValidSlots, Get, Issued, Ran, FromInit, HandlesGood, BarriersGood, Quiet;
    FromInitGood(templates);
    GoodValid(FromInit(templates), NOBODY, NO_HANDLES);
    AlwaysGood(FromInit(templates), ms);
    var p := Ran(FromInit(templates), ms);
    RunDrifts(p, more, 0);
  }

  /** If no step of a run strands a context, a script with waiting contexts always has a process, and the
      project only says that it is idle when no script has any. */
  lemma NoContextLost(templates: seq<Template>, ms: seq<Move>, msg: Option<Message>, act: Act)
    requires StrandsNever(FromInit(templates), ms)
    ensures var p := Ran(FromInit(templates), ms);
            && (forall i :: 0 <= i < |p.scripts| && p.scripts[i].contexts != [] ==>
                  IsLive(p.core, p.scripts[i].process))
            && (Step(p, msg, act).1 == Idle ==> forall i :: 0 <= i < |Step(p, msg, act).0.scripts| ==>
                  Step(p, msg, act).0.scripts[i].contexts == [])
  {
    hide Good, Get, Ran, FromInit, StrandsNever, Step;
    FromInitGood(templates);
    GoodValid(FromInit(templates), NOBODY, NO_HANDLES);
    AlwaysGood(FromInit(templates), ms);
    NeverLost(FromInit(templates), ms);
    IdleIsEmpty(Ran(FromInit(templates), ms), msg, act);
  }

  /** Contexts can be lost. A script has been started by a message; in the step in which it ends, the same
      message arrives again. The project is idle then, and the message is not handled until something else makes
      the project look at its scripts. */
  lemma ContextLost()
    ensures var m := Some(Message(7, 0));
            var p := Ran(FromInit([Template(NetworkMessage(7), 0, 0)]), [Tick(m, Normal), Tick(m, Ends)]);
            |p.scripts| == 1 && p.scripts[0].contexts == [Context(0, None)] && Step(p, None, Normal) == (p, Idle)
  {
    var m := Some(Message(7, 0));
    var c := Context(0, None);
    var sc := Script(NetworkMessage(7), 0, 0, None, []);
    var p0 := FromInit([Template(NetworkMessage(7), 0, 0)]);
    assert p0.scripts == [sc];
    var k := Key(0, 0);
    var busy := Slots([Entry(Some(Started(0, c)), 0)], [], 1);
    var sc1 := sc.(process := Some(k));
    var p1 := Project_(Core(busy, [k], multiset{}), [sc1], 0);
    FirstTick(p0, sc, m, c);
    assert Step(p0, m, Normal).0 == p1;
    var p2 := Project_(Core(Slots([Entry(None, 1)], [0], 0), [], multiset{}), [sc1.(contexts := [c])], 0);
    SecondTick(p1, sc1, m, c);
    assert Step(p1, m, Ends).0 == p2;
    assert [Tick(m, Normal), Tick(m, Ends)][1..] == [Tick(m, Ends)];
    assert [Tick(m, Ends)][1..] == [];
    assert Ran(p1, [Tick(m, Ends)]) == p2;
  }

  lemma FirstTick(p0: Project_, sc: Script, m: Option<Message>, c: Context)
    requires sc == Script(NetworkMessage(7), 0, 0, None, []) && m == Some(Message(7, 0)) && c == Context(0, None)
    requires p0 == Project_(Core(Slots([], [], 0), [], multiset{}), [sc], 0)
    ensures Step(p0, m, Normal).0 == Project_(Core(Slots([Entry(Some(Started(0, c)), 0)], [], 1), [Key(0, 0)],
                                                   multiset{}), [sc.(process := Some(Key(0, 0)))], 0)
  {
    var o := Incoming(m.value);
    assert ConsumeAll(p0, 0) == p0 by {
      assert [sc][0 := sc] == [sc];
      assert ConsumeAll(p0, 1) == p0;
    }
    var p1 := OfferOne(p0, o, 0);
    assert [c][1..] == [];
    assert OfferAll(p0, o, 0, false) == (p1, true) by {
      assert OfferAll(p1, o, 1, true) == (p1, true);
    }
    assert p1.core.queue == [Key(0, 0)];
    assert [Key(0, 0)][1..] == [];
  }

  lemma SecondTick(p1: Project_, sc: Script, m: Option<Message>, c: Context)
    requires sc == Script(NetworkMessage(7), 0, 0, Some(Key(0, 0)), []) && m == Some(Message(7, 0))
             && c == Context(0, None)
    requires p1 == Project_(Core(Slots([Entry(Some(Started(0, c)), 0)], [], 1), [Key(0, 0)], multiset{}), [sc], 0)
    ensures Step(p1, m, Ends).0 == Project_(Core(Slots([Entry(None, 1)], [0], 0), [], multiset{}),
                                            [sc.(contexts := [c])], 0)
  {
    var o := Incoming(m.value);
    assert ConsumeAll(p1, 0) == p1 by {
      assert [sc][0 := sc] == [sc];
      assert ConsumeAll(p1, 1) == p1;
    }
    var p2 := OfferOne(p1, o, 0);
    assert [] + [c] == [c];
    assert p2 == p1.(scripts := [sc.(contexts := [c])]);
    assert OfferAll(p1, o, 0, false) == (p2, true) by {
      assert OfferAll(p2, o, 1, true) == (p2, true);
    }
    assert [Key(0, 0)][1..] == [];
    var e := Entry(Some(Started(0, c)), 0);
    var p3 := p2.(core := p2.core.(queue := []));
    assert [e][0 := e] == [e] && [] + [0] == [0];
    assert WithProc(p3, Key(0, 0), Started(0, c)) == p3;
    assert [e][0 := Entry(None, 1)] == [Entry(None, 1)];
    assert Step(p1, m, Ends).0 == Retire(p3, Key(0, 0));
  }

  // ----- broadcast and wait -----

  /** Script `i` runs a process of its own that a broadcast has just started. */
  predicate Restarted(p: Project_, i: nat, act: Act, b: Option<nat>)
    requires i < |p.scripts| && act.Broadcasts?
  {
    && p.scripts[i].contexts == [] && IsLive(p.core, p.scripts[i].process)
    && Get(p.core.procs, p.scripts[i].process.value).value == Proc(p.scripts[i].start, act.msgType, true, b, None)
  }

  /** The scripts before `i` that the broadcast is for have been restarted by it, and its barrier is held by
      their processes alone. */
  ghost predicate Reached(p: Project_, act: Act, b: nat, i: nat)
    requires act.Broadcasts?
  {
    && i <= |p.scripts|
    && (forall j :: 0 <= j < i && Addressed(p.scripts[j], act) ==> Restarted(p, j, act, Some(b)))
    && (forall k :: Holds(p.core, k, b) ==>
          exists j :: 0 <= j < i && Addressed(p.scripts[j], act) && p.scripts[j].process == Some(k))
    && Quiet(p, b)
  }

  lemma ConsumeLeaves(p: Project_, i: nat, j: nat)
    requires ValidSlots(p.core.procs) && i < |p.scripts| && j < |p.scripts| && p.scripts[j].contexts == []
    ensures ConsumeOne(p, i).scripts[j] == p.scripts[j] && ConsumeOne(p, i).nextBarrier == p.nextBarrier
  {
    hide ValidSlots, Get, Inserted;
  }

  lemma {:induction false} ConsumeAllLeaves(p: Project_, i: nat, j: nat)
    requires ValidSlots(p.core.procs) && i <= |p.scripts| && j < |p.scripts| && p.scripts[j].contexts == []
    ensures ConsumeAll(p, i).scripts[j] == p.scripts[j]
    decreases |p.scripts| - i
  {
    hide ValidSlots, Consume;
    if i < |p.scripts| {
      ConsumeLeaves(p, i, j);
      assert ConsumeAll(p, i) == ConsumeAll(ConsumeOne(p, i), i + 1);
      ConsumeAllLeaves(ConsumeOne(p, i), i + 1, j);
    }
  }

  lemma {:induction false} ConsumeAllSame(p: Project_, i: nat)
    requires ValidSlots(p.core.procs) && i <= |p.scripts|
    ensures |ConsumeAll(p, i).scripts| == |p.scripts| && forall j :: 0 <= j < |p.scripts| ==>
              SameKind(p.scripts[j], ConsumeAll(p, i).scripts[j])
    decreases |p.scripts| - i
  {
    hide ValidSlots, Get, Inserted;
    if i < |p.scripts| {
      assert ConsumeAll(p, i) == ConsumeAll(ConsumeOne(p, i), i + 1);
      ConsumeAllSame(ConsumeOne(p, i), i + 1);
    }
  }

  /** What a script is never changes. */
  predicate SameKind(a: Script, b: Script) {
    a.event == b.event && a.entity == b.entity && a.start == b.start
  }

  lemma OnceReached(p: Project_, did: bool, act: Act, b: nat, i: nat, hand: set<Key>, extra: multiset<nat>)
    requires Good(p, hand, extra) && act.Broadcasts? && Reached(p, act, b, i)
    ensures Reached(Once(p, did), act, b, i)
  {
    hide ValidSlots, Good, NothingLost, Quiet, Get, Issued, ConsumeAll;
    GoodValid(p, hand, extra);
    if !did {
      var q := Once(p, did);
      OnceGood(p, did, hand, extra);
      OnceEvolves(p, did, b, hand, extra);
      ConsumeAllSame(p, 0);
      forall j | 0 <= j < i && Addressed(q.scripts[j], act) ensures Restarted(q, j, act, Some(b)) {
        assert SameKind(p.scripts[j], q.scripts[j]);
        assert Restarted(p, j, act, Some(b));
        ConsumeAllLeaves(p, 0, j);
      }
      forall k | Holds(q.core, k, b)
        ensures exists j :: 0 <= j < i && Addressed(q.scripts[j], act) && q.scripts[j].process == Some(k)
      {
        assert Issued(p.core.procs, k);
        assert Holds(p.core, k, b);
        var j :| 0 <= j < i && Addressed(p.scripts[j], act) && p.scripts[j].process == Some(k);
        ConsumeAllLeaves(p, 0, j);
      }
    }
  }

  /** A script that is interrupted for an offer runs it at once in a new process, and has nothing else to do. */
  lemma Interrupted(p: Project_, o: Offer, i: nat, hand: set<Key>, extra: multiset<nat>)
    requires Good(p, hand, extra) && i < |p.scripts| && o.interrupt
             && (o.ctx.barrier.Some? ==> o.ctx.barrier.value < p.nextBarrier)
    ensures var q := OfferOne(p, o, i);
            && q.scripts[i].process.Some? && !Issued(p.core.procs, q.scripts[i].process.value)
            && q.scripts == p.scripts[i := p.scripts[i].(process := q.scripts[i].process, contexts := [])]
            && (forall k :: Get(q.core.procs, k) ==
                  if Some(k) == q.scripts[i].process then Some(Started(p.scripts[i].start, o.ctx))
                  else if Some(k) == p.scripts[i].process then None else Get(p.core.procs, k))
  {
    hide ValidSlots, Get, Issued, Good, Inserted, Removed, DropContexts;
    GoodValid(p, hand, extra);
    StopGood(p, i, hand, extra);
    var p1 := StopScript(p, i);
    if p.scripts[i].process.Some? {
      RemoveRefines(p.core.procs, p.scripts[i].process.value);
    }
    var proc := Started(p.scripts[i].start, o.ctx);
    InsertRefines(p1.core.procs, proc);
    assert (p1.scripts[i].contexts + [o.ctx]) == [o.ctx];
    assert [o.ctx][1..] == [];
  }

  lemma OfferReached(p: Project_, act: Act, b: nat, i: nat, hand: set<Key>, extra: multiset<nat>)
    requires Good(p, hand, extra) && act.Broadcasts? && Reached(p, act, b, i) && i < |p.scripts|
             && Addressed(p.scripts[i], act) && b < p.nextBarrier
    ensures Reached(OfferOne(p, Outgoing(act, Some(b)), i), act, b, i + 1)
  {
    hide ValidSlots, Good, NothingLost, Get, Issued, OfferOne, Addressed;
    GoodValid(p, hand, extra);
    var o := Outgoing(act, Some(b));
    var q := OfferOne(p, o, i);
    Interrupted(p, o, i, hand, extra);
    AddressedKind(p.scripts[i], q.scripts[i], act);
    forall j | 0 <= j < i + 1 && Addressed(q.scripts[j], act) ensures Restarted(q, j, act, Some(b)) {
      if j < i {
        assert Restarted(p, j, act, Some(b));
        Apart(p, i, j, hand, extra);
        LiveIsIssued(p.core.procs, p.scripts[j].process.value);
      }
    }
    forall k | Holds(q.core, k, b)
      ensures exists j :: 0 <= j < i + 1 && Addressed(q.scripts[j], act) && q.scripts[j].process == Some(k)
    {
      if Some(k) == q.scripts[i].process {
        assert Addressed(q.scripts[i], act);
      } else {
        assert Holds(p.core, k, b);
        var j :| 0 <= j < i && Addressed(p.scripts[j], act) && p.scripts[j].process == Some(k);
        assert q.scripts[j] == p.scripts[j];
      }
    }
    QuietReached(p, q, i, b);
  }

  lemma QuietReached(p: Project_, q: Project_, i: nat, b: nat)
    requires Quiet(p, b) && i < |p.scripts| && |q.scripts| == |p.scripts|
    requires q.scripts == p.scripts[i := p.scripts[i].(process := q.scripts[i].process, contexts := [])]
    ensures Quiet(q, b)
  {
  }

  lemma AddressedKind(a: Script, b: Script, act: Act)
    requires act.Broadcasts? && a.event == b.event && a.entity == b.entity
    ensures Addressed(a, act) <==> Addressed(b, act)
  {
  }

  lemma Apart(p: Project_, i: nat, j: nat, hand: set<Key>, extra: multiset<nat>)
    requires Good(p, hand, extra) && j < i < |p.scripts| && IsLive(p.core, p.scripts[j].process)
    ensures p.scripts[i].process != p.scripts[j].process
  {
    hide ValidSlots, Get, Issued, AllRunning, QueueGood, HandlesGood, BarriersGood;
  }

  lemma {:induction false} AllReached(p: Project_, act: Act, b: nat, i: nat, did: bool, hand: set<Key>,
                                      extra: multiset<nat>)
    requires Good(p, hand, extra) && act.Broadcasts? && Reached(p, act, b, i) && b < p.nextBarrier
    ensures var q := OfferAll(p, Outgoing(act, Some(b)), i, did).0; Reached(q, act, b, |q.scripts|)
    decreases |p.scripts| - i
  {
    hide ValidSlots, Good, Once, OfferOne, NothingLost, Get, Gained, Hears, Addressed, Holds, Quiet, Restarted;
    GoodValid(p, hand, extra);
    var o := Outgoing(act, Some(b));
    if i < |p.scripts| {
      HearsIs(p.scripts[i], act);
      if Addressed(p.scripts[i], act) {
        var p1 := Once(p, did);
        OnceGood(p, did, hand, extra);
        GoodValid(p1, hand, extra);
        OnceReached(p, did, act, b, i, hand, extra);
        AddressedKind(p.scripts[i], p1.scripts[i], act);
        OfferOneGood(p1, o, i, hand, extra);
        OfferReached(p1, act, b, i, hand, extra);
        AllReached(OfferOne(p1, o, i), act, b, i + 1, true, hand, extra);
      } else {
        AllReached(p, act, b, i + 1, did, hand, extra);
      }
    }
  }

  /** A barrier that does not exist yet is held by nobody. */
  lemma NewBarrier(p: Project_, k: Key, act: Act)
    requires Good(p, {k}, NO_HANDLES) && Get(p.core.procs, k).Some? && act.Broadcasts? && act.wait
    ensures Reached(Sending(p, k, act), act, p.nextBarrier, 0)
  {
    hide ValidSlots, Get, Issued, Put, InProcs, InScripts, QueueGood, OwnersGood, AllRunning;
    GoodValid(p, {k}, NO_HANDLES);
    var b := p.nextBarrier;
    var q := Sending(p, k, act);
    PutRefines(p.core.procs, k, Get(p.core.procs, k).value.(waits := Some(b)));
    assert b !in p.core.handles;
    assert InProcs(p.core.procs.slots, b) == 0 && InScripts(p.scripts, b) == 0;
    forall j ensures !Holds(q.core, j, b) {
      if Holds(q.core, j, b) {
        assert Holds(p.core, j, b);
        HolderCounts(p.core.procs, j, b);
      }
    }
    QuietCounts(p.scripts, b);
    forall i | 0 <= i < |q.scripts| ensures NoContext(q.scripts[i], b) {
    }
  }

  lemma HolderCounts(m: Slots<Proc>, k: Key, b: nat)
    requires Get(m, k).Some? && Get(m, k).value.barrier == Some(b)
    ensures InProcs(m.slots, b) > 0
  {
    ProcsSet(m.slots, k.slot, m.slots[k.slot], b);
  }

  lemma {:induction false} SomeHolder(m: Slots<Proc>, n: nat, b: nat) returns (k: Key)
    requires n <= |m.slots| && InProcs(m.slots[..n], b) > 0
    ensures Get(m, k).Some? && Get(m, k).value.barrier == Some(b)
  {
    assert m.slots[..n][..n - 1] == m.slots[..n - 1];
    if HandleOf(m.slots[n - 1]) == Some(b) {
      k := Key(n - 1, m.slots[n - 1].generation);
    } else {
      k := SomeHolder(m, n - 1, b);
    }
  }

  lemma {:induction false} NoContextCounts(cs: seq<Context>, b: nat)
    ensures InContexts(cs, b) == 0 <==> forall n :: 0 <= n < |cs| ==> cs[n].barrier != Some(b)
    decreases |cs|
  {
    if cs != [] {
      NoContextCounts(cs[1..], b);
      if InContexts(cs, b) == 0 {
        forall n | 0 <= n < |cs| ensures cs[n].barrier != Some(b) {
          if n > 0 {
            assert cs[1..][n - 1] == cs[n];
          }
        }
      }
    }
  }

  lemma {:induction false} QuietCounts(ss: seq<Script>, b: nat)
    ensures InScripts(ss, b) == 0 <==> forall i :: 0 <= i < |ss| ==> NoContext(ss[i], b)
    decreases |ss|
  {
    hide NoContext, InContexts;
    if ss != [] {
      var n := |ss| - 1;
      QuietCounts(ss[..n], b);
      ContextsQuiet(ss[n], b);
      assert forall i :: 0 <= i < n ==> ss[..n][i] == ss[i];
    }
  }

  lemma ContextsQuiet(sc: Script, b: nat)
    ensures InContexts(sc.contexts, b) == 0 <==> NoContext(sc, b)
  {
    NoContextCounts(sc.contexts, b);
  }

  /** Between steps, a process waiting for a broadcast is held up exactly if some process or some waiting
      context still holds the barrier. */
  lemma HeldUp(p: Project_, b: nat)
    requires Good(p, NOBODY, NO_HANDLES)
    ensures p.core.handles[b] > 0 <==> !Quiet(p, b) || exists k :: Holds(p.core, k, b)
  {
    hide ValidSlots, AllRunning, QueueGood, OwnersGood, BarriersGood, Get, InProcs, InScripts;
    QuietCounts(p.scripts, b);
    if k :| Holds(p.core, k, b) {
      HolderCounts(p.core.procs, k, b);
    } else if InProcs(p.core.procs.slots, b) > 0 {
      assert p.core.procs.slots[..|p.core.procs.slots|] == p.core.procs.slots;
      var k := SomeHolder(p.core.procs, |p.core.procs.slots|, b);
      assert Holds(p.core, k, b);
    }
  }

  /** What a broadcast with waiting does: every script that it is for is restarted with it, the processes so
      started are all that hold its barrier, and the sender (unless it has restarted itself) waits for it. */
  lemma BroadcastGoesOut(p: Project_, k: Key, act: Act, did: bool)
    requires Good(p, {k}, NO_HANDLES) && Get(p.core.procs, k).Some? && act.Broadcasts? && act.wait
    ensures var q := React(p, k, act, did).0;
            && Reached(q, act, p.nextBarrier, |q.scripts|) && p.nextBarrier < q.nextBarrier
            && (Get(q.core.procs, k).Some? ==> Get(q.core.procs, k).value.waits == Some(p.nextBarrier))
  {
    hide ValidSlots, Get, Issued, Good, NothingLost, OfferAll, Quiet, Sending, React, Reached, Put;
    GoodValid(p, {k}, NO_HANDLES);
    var b := p.nextBarrier;
    var p1 := Sending(p, k, act);
    var o := Outgoing(act, Some(b));
    SendingGood(p, k, act);
    SendingDrift(p, k, act, b + 1);
    NewBarrier(p, k, act);
    AllReached(p1, act, b, 0, did, {k}, Hold(NO_HANDLES, Some(b)));
    OfferAllGood(p1, o, 0, did, {k}, Hold(NO_HANDLES, Some(b)));
    OfferAllEvolves(p1, o, 0, did, b + 1, {k}, Hold(NO_HANDLES, Some(b)));
    SenderWaits(p, k, act);
    BroadcastReaction(p, k, act, did);
    var p2 := OfferAll(p1, o, 0, did).0;
    ReachedSame(p2, React(p, k, act, did).0, act, b);
  }

  lemma SenderWaits(p: Project_, k: Key, act: Act)
    requires ValidSlots(p.core.procs) && Get(p.core.procs, k).Some? && act.Broadcasts? && act.wait
    ensures Get(Sending(p, k, act).core.procs, k).Some?
            && Get(Sending(p, k, act).core.procs, k).value.waits == Some(p.nextBarrier)
    ensures Issued(Sending(p, k, act).core.procs, k)
  {
  }

  lemma ReachedSame(p: Project_, q: Project_, act: Act, b: nat)
    requires act.Broadcasts? && Reached(p, act, b, |p.scripts|) && q.core.procs == p.core.procs
             && q.scripts == p.scripts
    ensures Reached(q, act, b, |q.scripts|)
  {
    hide Get, Addressed;
    forall k | Holds(q.core, k, b)
      ensures exists j :: 0 <= j < |q.scripts| && Addressed(q.scripts[j], act) && q.scripts[j].process == Some(k)
    {
      assert Holds(p.core, k, b);
    }
  }

  /** Broadcast and wait, over all runs: from the step of the broadcast on, a process that waits for it is
      held up exactly as long as one of the processes that the broadcast has started is still there. */
  lemma BroadcastAndWait(p: Project_, msg: Option<Message>, act: Act, ms: seq<Move>, k: Key)
    requires Good(p, NOBODY, NO_HANDLES) && act.Broadcasts? && act.wait && Picked(p, msg).Some?
             && InHand(p, msg, act).1 == act
    ensures var q := Step(p, msg, act).0;
            var r := Ran(q, ms);
            && Reached(q, act, p.nextBarrier, |q.scripts|)
            && (Get(q.core.procs, Picked(p, msg).value).Some? ==>
                  Get(q.core.procs, Picked(p, msg).value).value.waits == Some(p.nextBarrier))
            && (Get(r.core.procs, k).Some? && Get(r.core.procs, k).value.waits == Some(p.nextBarrier) ==>
                  (Blocked(r.core.handles, Get(r.core.procs, k).value) <==>
                     exists j :: Holds(q.core, j, p.nextBarrier) && Get(r.core.procs, j).Some?))
  {
    hide ValidSlots, Good, Delivered, PopLive, NothingLost, Get, React, InHand, Matched, Evolves, Drifts, Reached, Ran;
    hide Quiet;
    GoodValid(p, NOBODY, NO_HANDLES);
    var b := p.nextBarrier;
    DeliveredEvolves(p, msg, b);
    InHandDrifts(p, msg, act, b);
    InHandGood(p, msg, act);
    StepUnfolds(p, msg, act);
    var h := InHand(p, msg, act).0;
    BroadcastGoesOut(h, Picked(p, msg).value, act, Delivered(p, msg).1);
    var q := Step(p, msg, act).0;
    StepKeeps(p, msg, act);
    GoodValid(q, NOBODY, NO_HANDLES);
    var r := Ran(q, ms);
    AlwaysGood(q, ms);
    RunDrifts(q, ms, b);
    HeldUp(r, b);
    StillThere(q, r, act, b);
  }

  lemma StillThere(q: Project_, r: Project_, act: Act, b: nat)
    requires act.Broadcasts? && Reached(q, act, b, |q.scripts|) && Drifts(q, r, b) && b < q.nextBarrier
    ensures Quiet(r, b)
    ensures (exists j :: Holds(r.core, j, b)) <==> exists j :: Holds(q.core, j, b) && Get(r.core.procs, j).Some?
  {
    hide Get, Issued, Quiet, Addressed, Restarted;
    if j :| Holds(r.core, j, b) {
      assert Holds(q.core, j, b);
    }
    if j :| Holds(q.core, j, b) && Get(r.core.procs, j).Some? {
      LiveIsIssued(q.core.procs, j);
      assert Holds(r.core, j, b);
    }
  }
}

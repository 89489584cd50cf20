/** Broadcast and wait: the sender is held up exactly for as long as one of the processes that its broadcast
    started is still there. */
module SchedulerBarriers {
  import opened Common
  import opened SlotMaps
  import opened Scheduler
  import opened SchedulerInvariant
  import opened SchedulerSafety
  import opened SchedulerSteps
  import opened SchedulerRuns

  /** A live process that holds a handle of barrier `b`. */
  predicate Holds(c: Core, k: Key, b: nat) {
    Get(c.procs, k).Some? && Get(c.procs, k).value.barrier == Some(b)
  }

  ghost predicate NoContext(sc: Script, b: nat) {
    forall n :: 0 <= n < |sc.contexts| ==> sc.contexts[n].barrier != Some(b)
  }

  /** No waiting context holds a handle of barrier `b`. */
  ghost predicate Quiet(p: Project_, b: nat) {
    forall i :: 0 <= i < |p.scripts| ==> NoContext(p.scripts[i], b)
  }

  /** Keys that were issued before either name what they named, or nothing; and a barrier that no waiting
      context holds gains no new holder. */
  ghost predicate Evolves(p: Project_, q: Project_, b: nat) {
    && (forall k :: Issued(p.core.procs, k) ==> Issued(q.core.procs, k))
    && (forall k :: Issued(p.core.procs, k) && Get(q.core.procs, k).Some? ==>
          Get(q.core.procs, k) == Get(p.core.procs, k))
    && (Quiet(p, b) ==> Quiet(q, b) && forall k :: Holds(q.core, k, b) ==> Issued(p.core.procs, k))
  }

  /** The same over whole steps, where a process may begin or end to wait. */
  ghost predicate Drifts(p: Project_, q: Project_, b: nat) {
    && (forall k :: Issued(p.core.procs, k) ==> Issued(q.core.procs, k))
    && (forall k :: Issued(p.core.procs, k) && Get(q.core.procs, k).Some? ==>
          Get(p.core.procs, k).Some? && Get(q.core.procs, k).value.barrier == Get(p.core.procs, k).value.barrier)
    && (b < p.nextBarrier && Quiet(p, b) ==> Quiet(q, b) && forall k :: Holds(q.core, k, b) ==> Issued(p.core.procs, k))
    && p.nextBarrier <= q.nextBarrier
  }

  lemma EvolvesTwice(p: Project_, q: Project_, r: Project_, b: nat)
    requires Evolves(p, q, b) && Evolves(q, r, b)
    ensures Evolves(p, r, b)
  {
    hide Get, Issued, Quiet;
    forall k | Issued(p.core.procs, k) && Get(r.core.procs, k).Some?
      ensures Get(r.core.procs, k) == Get(p.core.procs, k)
    {
      assert Issued(q.core.procs, k);
    }
    if Quiet(p, b) {
      forall k | Holds(r.core, k, b) ensures Issued(p.core.procs, k) {
        assert Issued(q.core.procs, k);
        assert Get(r.core.procs, k) == Get(q.core.procs, k);
        assert Holds(q.core, k, b);
      }
    }
  }

  lemma DriftsTwice(p: Project_, q: Project_, r: Project_, b: nat)
    requires Drifts(p, q, b) && Drifts(q, r, b)
    ensures Drifts(p, r, b)
  {
    hide Get, Issued, Quiet;
    forall k | Issued(p.core.procs, k) && Get(r.core.procs, k).Some?
      ensures Get(p.core.procs, k).Some? && Get(r.core.procs, k).value.barrier == Get(p.core.procs, k).value.barrier
    {
      assert Issued(q.core.procs, k);
    }
    if b < p.nextBarrier && Quiet(p, b) {
      forall k | Holds(r.core, k, b) ensures Issued(p.core.procs, k) {
        assert Issued(q.core.procs, k);
        assert Get(r.core.procs, k).value.barrier == Get(q.core.procs, k).value.barrier;
        assert Holds(q.core, k, b);
      }
    }
  }

  lemma EvolvesSame(p: Project_, q: Project_, b: nat)
    requires p.core.procs == q.core.procs && p.scripts == q.scripts
    ensures Evolves(p, q, b)
  {
  }

  lemma EvolvesDrifts(p: Project_, q: Project_, b: nat)
    requires Evolves(p, q, b) && p.nextBarrier <= q.nextBarrier
    ensures Drifts(p, q, b)
  {
    hide Quiet;
  }

  // ----- one script -----

  lemma QuietSet(p: Project_, i: nat, sc: Script, b: nat)
    requires i < |p.scripts| && (NoContext(p.scripts[i], b) ==> NoContext(sc, b))
    ensures Quiet(p, b) ==> Quiet(p.(scripts := p.scripts[i := sc]), b)
  {
  }

  /** A new process, holding something else. */
  lemma InsertedEvolves(p: Project_, proc: Proc, q: Project_, b: nat)
    requires ValidSlots(p.core.procs) && q.core.procs == Inserted(p.core.procs, proc).0
    requires Quiet(p, b) ==> Quiet(q, b) && proc.barrier != Some(b)
    ensures Evolves(p, q, b)
  {
    hide ValidSlots, Get, Issued, Quiet, Inserted;
    InsertRefines(p.core.procs, proc);
    var k := Inserted(p.core.procs, proc).1;
    forall j | Holds(q.core, j, b) && Quiet(p, b) ensures Issued(p.core.procs, j) {
      assert j != k;
      LiveIsIssued(p.core.procs, j);
    }
  }

  lemma ConsumeEvolves(p: Project_, i: nat, b: nat, hand: set<Key>, extra: multiset<nat>)
    requires Good(p, hand, extra) && i < |p.scripts|
    ensures Evolves(p, ConsumeOne(p, i), b)
  {
    hide ValidSlots, Get, Issued, Quiet, Inserted, QueueGood, OwnersGood, HandlesGood, BarriersGood, Evolves;
    var sc := p.scripts[i];
    var q := ConsumeOne(p, i);
    if IsLive(p.core, sc.process) || sc.contexts == [] {
      assert q.scripts == p.scripts;
      EvolvesSame(p, q, b);
    } else {
      QuietSet(p, i, q.scripts[i], b);
      if Quiet(p, b) {
        assert NoContext(sc, b) by { QuietAt(p, i, b); }
      }
      assert q.scripts == p.(scripts := p.scripts[i := q.scripts[i]]).scripts;
      QuietOf(p.(scripts := p.scripts[i := q.scripts[i]]), q, b);
      InsertedEvolves(p, Started(sc.start, sc.contexts[0]), q, b);
    }
  }

  lemma QuietAt(p: Project_, i: nat, b: nat)
    requires Quiet(p, b) && i < |p.scripts|
    ensures NoContext(p.scripts[i], b)
  {
  }

  lemma QuietOf(p: Project_, q: Project_, b: nat)
    requires p.scripts == q.scripts
    ensures Quiet(p, b) <==> Quiet(q, b)
  {
  }

  lemma StopEvolves(p: Project_, i: nat, b: nat)
    requires ValidSlots(p.core.procs) && i < |p.scripts|
    ensures Evolves(p, StopScript(p, i), b)
  {
    hide ValidSlots, Get, Issued, Removed, DropContexts;
    var sc := p.scripts[i];
    var q := StopScript(p, i);
    if sc.process.Some? {
      RemoveRefines(p.core.procs, sc.process.value);
    }
    forall k | Holds(q.core, k, b) ensures Issued(p.core.procs, k) {
      LiveIsIssued(p.core.procs, k);
    }
  }

  lemma ScheduleEvolves(p: Project_, i: nat, ctx: Context, max: Option<nat>, b: nat, hand: set<Key>,
                        extra: multiset<nat>)
    requires Good(p, hand, Hold(extra, ctx.barrier)) && i < |p.scripts| && ctx.barrier != Some(b)
    ensures Evolves(p, ScheduleScript(p, i, ctx, max), b)
  {
    hide ValidSlots, Get, Issued, Good, Quiet, Inserted, Evolves, Consume;
    GoodValid(p, hand, Hold(extra, ctx.barrier));
    var sc := p.scripts[i].(contexts := p.scripts[i].contexts + [ctx]);
    var p1 := p.(scripts := p.scripts[i := sc]);
    QuietSet(p, i, sc, b);
    OfferedGood(p, i, ctx, hand, extra);
    AddedEvolves(p, p1, b);
    var p2 := ConsumeOne(p1, i);
    ConsumeEvolves(p1, i, b, hand, extra);
    EvolvesTwice(p, p1, p2, b);
    var q := ScheduleScript(p, i, ctx, max);
    assert p1.scripts[i] == sc;
    var cs := p2.scripts[i].contexts;
    if max.Some? && |cs| > max.value {
      QuietSet(p2, i, q.scripts[i], b);
      assert q.scripts == p2.scripts[i := q.scripts[i]];
      QuietOf(q, p2.(scripts := p2.scripts[i := q.scripts[i]]), b);
      AddedEvolves(p2, q, b);
      EvolvesTwice(p, p2, q, b);
    } else {
      assert q.scripts == p2.scripts;
      EvolvesSame(p2, q, b);
      EvolvesTwice(p, p2, q, b);
    }
  }

  lemma AddedEvolves(p: Project_, q: Project_, b: nat)
    requires p.core.procs == q.core.procs && (Quiet(p, b) ==> Quiet(q, b))
    ensures Evolves(p, q, b)
  {
    hide Quiet;
  }

  lemma {:induction false} ConsumeAllEvolves(p: Project_, i: nat, b: nat, hand: set<Key>, extra: multiset<nat>)
    requires Good(p, hand, extra) && i <= |p.scripts|
    ensures Evolves(p, ConsumeAll(p, i), b)
    decreases |p.scripts| - i
  {
    hide ValidSlots, Good, Consume, Evolves, Get, Gained;
    GoodValid(p, hand, extra);
    if i < |p.scripts| {
      var p1 := ConsumeOne(p, i);
      ConsumeGood(p, i, hand, extra);
      ConsumeEvolves(p, i, b, hand, extra);
      assert ConsumeAll(p, i) == ConsumeAll(p1, i + 1);
      ConsumeAllEvolves(p1, i + 1, b, hand, extra);
      EvolvesTwice(p, p1, ConsumeAll(p, i), b);
    } else {
      EvolvesSame(p, p, b);
    }
  }

  lemma OnceEvolves(p: Project_, did: bool, b: nat, hand: set<Key>, extra: multiset<nat>)
    requires Good(p, hand, extra)
    ensures Evolves(p, Once(p, did), b)
  {
    hide Good, Evolves, ConsumeAll;
    if did {
      EvolvesSame(p, p, b);
    } else {
      ConsumeAllEvolves(p, 0, b, hand, extra);
    }
  }

  lemma OfferOneEvolves(p: Project_, o: Offer, i: nat, b: nat, hand: set<Key>, extra: multiset<nat>)
    requires Good(p, hand, extra) && i < |p.scripts| && (o.ctx.barrier.Some? ==> o.ctx.barrier.value < p.nextBarrier)
             && o.ctx.barrier != Some(b)
    ensures Evolves(p, OfferOne(p, o, i), b)
  {
    hide ValidSlots, Good, Get, StopScript, ScheduleScript, Evolves;
    GoodValid(p, hand, extra);
    var p1 := if o.interrupt then StopScript(p, i) else p;
    if o.interrupt {
      StopGood(p, i, hand, extra);
      StopEvolves(p, i, b);
    } else {
      EvolvesSame(p, p1, b);
    }
    HoldGood(p1, o.ctx.barrier, hand, extra);
    var p2 := p1.(core := p1.core.(handles := Hold(p1.core.handles, o.ctx.barrier)));
    EvolvesSame(p1, p2, b);
    EvolvesTwice(p, p1, p2, b);
    ScheduleEvolves(p2, i, o.ctx, o.max, b, hand, extra);
    EvolvesTwice(p, p2, OfferOne(p, o, i), b);
  }

  lemma {:induction false} OfferAllEvolves(p: Project_, o: Offer, i: nat, did: bool, b: nat, hand: set<Key>,
                                           extra: multiset<nat>)
    requires Good(p, hand, extra) && i <= |p.scripts| && (o.ctx.barrier.Some? ==> o.ctx.barrier.value < p.nextBarrier)
             && o.ctx.barrier != Some(b)
    ensures Evolves(p, OfferAll(p, o, i, did).0, b)
    decreases |p.scripts| - i
  {
    hide ValidSlots, Good, Once, OfferOne, NothingLost, Get, Gained, Evolves;
    GoodValid(p, hand, extra);
    if i >= |p.scripts| {
      EvolvesSame(p, p, b);
    } else if !o.to(p.scripts[i]) {
      OfferAllEvolves(p, o, i + 1, did, b, hand, extra);
    } else {
      var p1 := Once(p, did);
      OnceGood(p, did, hand, extra);
      GoodValid(p1, hand, extra);
      OnceEvolves(p, did, b, hand, extra);
      var p2 := OfferOne(p1, o, i);
      OfferOneGood(p1, o, i, hand, extra);
      SameAfter(p, p1, p2, i);
      OfferOneEvolves(p1, o, i, b, hand, extra);
      EvolvesTwice(p, p1, p2, b);
      OfferAllEvolves(p2, o, i + 1, true, b, hand, extra);
      EvolvesTwice(p, p2, OfferAll(p2, o, i + 1, true).0, b);
    }
  }

  // ----- steps, inputs, runs -----

  lemma ForksDrift(p: Project_, k: Key, act: Act, did: bool, b: nat)
    requires Good(p, {k}, NO_HANDLES) && Get(p.core.procs, k).Some? && act.Forks?
    ensures Drifts(p, React(p, k, act, did).0, b)
  {
    hide ValidSlots, Get, Issued, Good, NothingLost, Once, Inserted, Evolves, Quiet, Gained, Drifts;
    GoodValid(p, {k}, NO_HANDLES);
    var proc := Started(act.start, Context(act.payload, None));
    ForkGood(p, proc, {k}, NO_HANDLES);
    var (m, f) := Inserted(p.core.procs, proc);
    var p1 := p.(core := p.core.(procs := m));
    GoodValid(p1, {k} + {f}, NO_HANDLES);
    QuietOf(p, p1, b);
    InsertedEvolves(p, proc, p1, b);
    var p2 := Once(p1, did);
    OnceGood(p1, did, {k} + {f}, NO_HANDLES);
    OnceEvolves(p1, did, b, {k} + {f}, NO_HANDLES);
    EvolvesTwice(p, p1, p2, b);
    var q := React(p, k, act, did).0;
    EvolvesSame(p2, q, b);
    EvolvesTwice(p, p2, q, b);
    EvolvesDrifts(p, q, b);
  }

  lemma WithScriptsEvolves(p: Project_, more: seq<Script>, b: nat)
    requires AllIdle(more)
    ensures Evolves(p, WithScripts(p, more), b)
  {
    var q := WithScripts(p, more);
    if Quiet(p, b) {
      forall i | 0 <= i < |q.scripts| ensures NoContext(q.scripts[i], b) {
        if i < |p.scripts| {
          QuietAt(p, i, b);
        }
      }
    }
  }

  lemma ClonesDrift(p: Project_, k: Key, act: Act, did: bool, b: nat)
    requires Good(p, {k}, NO_HANDLES) && Get(p.core.procs, k).Some? && act.Clones?
    ensures Drifts(p, React(p, k, act, did).0, b)
  {
    hide ValidSlots, Get, Issued, Good, NothingLost, StartClone, OfferAll, Evolves, Quiet, Drifts;
    GoodValid(p, {k}, NO_HANDLES);
    var young := ClonedScripts(p.scripts, act.root, act.entity);
    ClonedIdle(p.scripts, act.root, act.entity);
    WithScriptsGood(p, young, {k}, NO_HANDLES);
    var p1 := WithScripts(p, young);
    WithScriptsEvolves(p, young, b);
    CloneIsOffer(p, young, 0, did);
    var p2 := OfferAll(p1, Born(), |p.scripts|, did).0;
    OfferAllGood(p1, Born(), |p.scripts|, did, {k}, NO_HANDLES);
    OfferAllEvolves(p1, Born(), |p.scripts|, did, b, {k}, NO_HANDLES);
    EvolvesTwice(p, p1, p2, b);
    var q := React(p, k, act, did).0;
    EvolvesSame(p2, q, b);
    EvolvesTwice(p, p2, q, b);
    EvolvesDrifts(p, q, b);
  }

  lemma WaitsDrift(p: Project_, q: Project_, k: Key, waits: Option<nat>, b: nat)
    requires ValidSlots(p.core.procs) && Get(p.core.procs, k).Some? && p.nextBarrier <= q.nextBarrier
    requires q.core.procs == Put(p.core.procs, k, Get(p.core.procs, k).value.(waits := waits)) && q.scripts == p.scripts
    ensures Drifts(p, q, b)
  {
    hide ValidSlots, Get, Issued, Put, Quiet;
    PutRefines(p.core.procs, k, Get(p.core.procs, k).value.(waits := waits));
    QuietOf(p, q, b);
    forall j | Holds(q.core, j, b) ensures Issued(p.core.procs, j) {
      LiveIsIssued(p.core.procs, j);
    }
  }

  lemma SendingDrift(p: Project_, k: Key, act: Act, b: nat)
    requires ValidSlots(p.core.procs) && Get(p.core.procs, k).Some? && act.Broadcasts?
    ensures Drifts(p, Sending(p, k, act), b) && Sending(p, k, act).nextBarrier == p.nextBarrier + if act.wait then 1
            else 0
  {
    hide ValidSlots, Get, Put, Drifts, Evolves;
    var q := Sending(p, k, act);
    if act.wait {
      WaitsDrift(p, q, k, Some(p.nextBarrier), b);
    } else {
      EvolvesSame(p, q, b);
      EvolvesDrifts(p, q, b);
    }
  }

  /** The sender's own handle is gone once the broadcast is out, and it stays at the front. */
  lemma BroadcastReaction(p: Project_, k: Key, act: Act, did: bool)
    requires ValidSlots(p.core.procs) && Get(p.core.procs, k).Some? && act.Broadcasts?
    ensures var q := OfferAll(Sending(p, k, act), Outgoing(act, Ticket(p, act)), 0, did).0;
            React(p, k, act, did).0 == Front(q.(core := q.core.(handles := Drop(q.core.handles, Ticket(p, act)))), k)
  {
    hide ValidSlots, Get, OfferAll;
  }

  lemma BroadcastsDrift(p: Project_, k: Key, act: Act, did: bool, b: nat)
    requires Good(p, {k}, NO_HANDLES) && Get(p.core.procs, k).Some? && act.Broadcasts? && Ticket(p, act) != Some(b)
    ensures Drifts(p, React(p, k, act, did).0, b)
  {
    hide ValidSlots, Get, Issued, Good, NothingLost, OfferAll, Evolves, Quiet, Drifts, Sending, React;
    GoodValid(p, {k}, NO_HANDLES);
    var t := Ticket(p, act);
    SendingGood(p, k, act);
    SendingDrift(p, k, act, b);
    var p1 := Sending(p, k, act);
    OfferAllGood(p1, Outgoing(act, t), 0, did, {k}, Hold(NO_HANDLES, t));
    OfferAllEvolves(p1, Outgoing(act, t), 0, did, b, {k}, Hold(NO_HANDLES, t));
    var p2 := OfferAll(p1, Outgoing(act, t), 0, did).0;
    BroadcastReaction(p, k, act, did);
    var q := React(p, k, act, did).0;
    EvolvesSame(p2, q, b);
    EvolvesTwice(p1, p2, q, b);
    EvolvesDrifts(p1, q, b);
    DriftsTwice(p, p1, q, b);
  }

  /** Of a barrier that is not there yet, nothing is said. */
  lemma DriftsOther(p: Project_, q: Project_, c: nat, b: nat)
    requires Drifts(p, q, c) && p.nextBarrier <= b
    ensures Drifts(p, q, b)
  {
    hide Get, Issued, Quiet;
  }

  lemma RetireEvolves(p: Project_, k: Key, b: nat)
    requires ValidSlots(p.core.procs) && Get(p.core.procs, k).Some?
    ensures Evolves(p, Retire(p, k), b)
  {
    hide ValidSlots, Get, Issued, Removed, Quiet;
    RemoveRefines(p.core.procs, k);
    var q := Retire(p, k);
    QuietOf(p, q, b);
    forall j | Holds(q.core, j, b) ensures Issued(p.core.procs, j) {
      LiveIsIssued(p.core.procs, j);
    }
  }

  lemma ReactDrifts(p: Project_, k: Key, act: Act, did: bool, b: nat)
    requires Good(p, {k}, NO_HANDLES) && Get(p.core.procs, k).Some?
    ensures Drifts(p, React(p, k, act, did).0, b)
  {
    hide ValidSlots, Get, Issued, Good, NothingLost, Once, Inserted, StartClone, OfferAll, Retire, Evolves, Quiet;
    hide Drifts;
    GoodValid(p, {k}, NO_HANDLES);
    var q := React(p, k, act, did).0;
    if act.Forks? {
      ForksDrift(p, k, act, did, b);
    } else if act.Clones? {
      ClonesDrift(p, k, act, did, b);
    } else if act.Broadcasts? {
      if Ticket(p, act) == Some(b) {
        BroadcastsDrift(p, k, act, did, b + 1);
        DriftsOther(p, q, b + 1, b);
      } else {
        BroadcastsDrift(p, k, act, did, b);
      }
    } else if act.Yields? {
      var p1 := Once(p, did);
      OnceGood(p, did, {k}, NO_HANDLES);
      OnceEvolves(p, did, b, {k}, NO_HANDLES);
      EvolvesSame(p1, q, b);
      EvolvesTwice(p, p1, q, b);
      EvolvesDrifts(p, q, b);
    } else if Ending(act) {
      var p1 := Retire(p, k);
      assert NOBODY + {k} == {k};
      RetireGood(p, k, NOBODY, NO_HANDLES);
      RetireEvolves(p, k, b);
      RetireKeeps(p, k);
      OnceGood(p1, did, NOBODY, NO_HANDLES);
      OnceEvolves(p1, did, b, NOBODY, NO_HANDLES);
      EvolvesTwice(p, p1, q, b);
      EvolvesDrifts(p, q, b);
    } else {
      EvolvesSame(p, q, b);
      EvolvesDrifts(p, q, b);
    }
  }

  lemma RetireKeeps(p: Project_, k: Key)
    requires ValidSlots(p.core.procs) && Get(p.core.procs, k).Some?
    ensures Retire(p, k).nextBarrier == p.nextBarrier
  {
  }

  lemma DeliveredEvolves(p: Project_, msg: Option<Message>, b: nat)
    requires Good(p, NOBODY, NO_HANDLES)
    ensures Evolves(p, Delivered(p, msg).0, b) && Delivered(p, msg).0.nextBarrier == p.nextBarrier
  {
    hide ValidSlots, Good, OfferAll, NothingLost, Get, Evolves;
    GoodValid(p, NOBODY, NO_HANDLES);
    if msg.Some? {
      OfferAllGood(p, Incoming(msg.value), 0, false, NOBODY, NO_HANDLES);
      OfferAllEvolves(p, Incoming(msg.value), 0, false, b, NOBODY, NO_HANDLES);
    } else {
      EvolvesSame(p, p, b);
    }
  }

  /** Taking a process in hand: it no longer waits, if it is not held up. */
  lemma InHandDrifts(p: Project_, msg: Option<Message>, act: Act, b: nat)
    requires ValidSlots(p.core.procs) && Picked(p, msg).Some?
    ensures Drifts(Delivered(p, msg).0, InHand(p, msg, act).0, b)
    ensures InHand(p, msg, act).0.nextBarrier == Delivered(p, msg).0.nextBarrier
  {
    hide ValidSlots, Delivered, PopLive, Get, Drifts, Evolves, Put;
    var p1 := Delivered(p, msg).0;
    PopLiveResolves(p1.core.procs, p1.core.queue);
    var (k, rest) := PopLive(p1.core.procs, p1.core.queue);
    var p2 := p1.(core := p1.core.(queue := rest));
    var q := InHand(p, msg, act).0;
    if Blocked(p2.core.handles, Get(p2.core.procs, k.value).value) {
      EvolvesSame(p1, q, b);
      EvolvesDrifts(p1, q, b);
    } else {
      WaitsDrift(p1, q, k.value, None, b);
    }
  }

  lemma StepDrifts(p: Project_, msg: Option<Message>, act: Act, b: nat)
    requires Good(p, NOBODY, NO_HANDLES)
    ensures Drifts(p, Step(p, msg, act).0, b)
  {
    hide ValidSlots, Good, Delivered, PopLive, NothingLost, Get, React, InHand, Matched, Evolves, Drifts;
    GoodValid(p, NOBODY, NO_HANDLES);
    var p1 := Delivered(p, msg).0;
    DeliveredEvolves(p, msg, b);
    EvolvesDrifts(p, p1, b);
    var q := Step(p, msg, act).0;
    if Picked(p, msg).Some? {
      var (h, done) := InHand(p, msg, act);
      InHandDrifts(p, msg, act, b);
      InHandGood(p, msg, act);
      StepUnfolds(p, msg, act);
      ReactDrifts(h, Picked(p, msg).value, done, Delivered(p, msg).1, b);
      DriftsTwice(p, p1, h, b);
      DriftsTwice(p, h, q, b);
    } else {
      EvolvesSame(p1, q, b);
      EvolvesTwice(p, p1, q, b);
      EvolvesDrifts(p, q, b);
    }
  }

  lemma {:induction false} StopScriptsEvolve(p: Project_, i: nat, b: nat)
    requires ValidSlots(p.core.procs) && i <= |p.scripts|
    ensures Evolves(p, StopScripts(p, i), b) && StopScripts(p, i).nextBarrier == p.nextBarrier
    decreases |p.scripts| - i
  {
    hide ValidSlots, Evolves, StopAll;
    if i < |p.scripts| {
      var p1 := StopScript(p, i);
      StopEvolves(p, i, b);
      StopScriptsEvolve(p1, i + 1, b);
      EvolvesTwice(p, p1, StopScripts(p, i), b);
    } else {
      EvolvesSame(p, p, b);
    }
  }

  lemma ClearedEvolves(p: Project_, q: Project_, b: nat)
    requires ValidSlots(p.core.procs) && q.core.procs == Cleared(p.core.procs) && q.scripts == p.scripts
    ensures Evolves(p, q, b)
  {
    hide ValidSlots, Get, Issued, Quiet, Cleared;
    ClearRefines(p.core.procs);
    QuietOf(p, q, b);
  }

  lemma InputDrifts(p: Project_, input: Input, b: nat)
    requires Good(p, NOBODY, NO_HANDLES)
    ensures Drifts(p, InputStep(p, input), b)
  {
    hide ValidSlots, Good, Get, NothingLost, StopScripts, OfferAll, Cleared, HeldBy, Evolves, Drifts;
    GoodValid(p, NOBODY, NO_HANDLES);
    var q := InputStep(p, input);
    if input.Stop? {
      var p1 := StopScripts(p, 0);
      StopScriptsEvolve(p, 0, b);
      ClearedEvolves(p1, q, b);
      EvolvesTwice(p, p1, q, b);
    } else {
      OfferAllGood(p, OfferOf(input), 0, false, NOBODY, NO_HANDLES);
      OfferAllEvolves(p, OfferOf(input), 0, false, b, NOBODY, NO_HANDLES);
    }
    EvolvesDrifts(p, q, b);
  }

  lemma {:induction false} RunDrifts(p: Project_, ms: seq<Move>, b: nat)
    requires Good(p, NOBODY, NO_HANDLES)
    ensures Drifts(p, Ran(p, ms), b)
    decreases |ms|
  {
    hide Good, Step, InputStep, NothingLost, StrandsOne, Evolves, Drifts;
    GoodValid(p, NOBODY, NO_HANDLES);
    if ms == [] {
      EvolvesSame(p, p, b);
      EvolvesDrifts(p, p, b);
    } else {
      var p1 := Moved(p, ms[0]);
      MoveKeeps(p, ms[0]);
      match ms[0] {
        case Enter(input) => InputDrifts(p, input, b);
        case Tick(msg, act) => StepDrifts(p, msg, act, b);
      }
      DriftsNext(p, p1, b);
      RunDrifts(p1, ms[1..], b);
      DriftsTwice(p, p1, Ran(p, ms), b);
    }
  }

  lemma DriftsNext(p: Project_, q: Project_, b: nat)
    requires Drifts(p, q, b)
    ensures p.nextBarrier <= q.nextBarrier
  {
  }
}

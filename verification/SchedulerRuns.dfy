/** Whole runs of a project: the invariant always holds, and when a waiting context can be forgotten. */
module SchedulerRuns {
  import opened Common
  import opened SlotMaps
  import opened Scheduler
  import opened SchedulerInvariant
  import opened SchedulerSafety
  import opened SchedulerSteps

  // ----- who hears what -----

  /** A script listens for a network message. */
  predicate Listens(sc: Script, msg: Option<Message>) {
    msg.Some? && sc.event == NetworkMessage(msg.value.msgType)
  }

  /** Whether a network message is for any script at all. */
  ghost predicate Matched(p: Project_, msg: Option<Message>) {
    exists i :: 0 <= i < |p.scripts| && Listens(p.scripts[i], msg)
  }

  lemma DeliveredGood(p: Project_, msg: Option<Message>)
    requires Good(p, NOBODY, NO_HANDLES)
    ensures var (q, did) := Delivered(p, msg);
            && Good(q, NOBODY, NO_HANDLES) && (did <==> Matched(p, msg))
            && (NothingLost(p) || did ==> NothingLost(q))
  {
    hide ValidSlots, AllRunning, QueueGood, HandlesGood, BarriersGood, OwnersGood, OfferAll, NothingLost, Get;
    if msg.Some? {
      OfferAllGood(p, Incoming(msg.value), 0, false, NOBODY, NO_HANDLES);
      OfferHeard(p, Incoming(msg.value), 0, false, NOBODY, NO_HANDLES);
    }
  }

  // ----- a step -----

  /** The process that a step steps, if there is one. */
  function Picked(p: Project_, msg: Option<Message>): Option<Key>
    requires ValidSlots(p.core.procs)
  {
    var p1 := Delivered(p, msg).0;
    PopLive(p1.core.procs, p1.core.queue).0
  }

  /** The project as the step of the process in hand finds it, and what that process does then. */
  function InHand(p: Project_, msg: Option<Message>, act: Act): (r: (Project_, Act))
    requires ValidSlots(p.core.procs) && Picked(p, msg).Some?
    ensures ValidSlots(r.0.core.procs) && Get(r.0.core.procs, Picked(p, msg).value).Some?
  {
    var p1 := Delivered(p, msg).0;
    PopLiveResolves(p1.core.procs, p1.core.queue);
    var (k, rest) := PopLive(p1.core.procs, p1.core.queue);
    var p2 := p1.(core := p1.core.(queue := rest));
    var proc := Get(p2.core.procs, k.value).value;
    if Blocked(p2.core.handles, proc) then (p2, Yields) else (WithProc(p2, k.value, proc.(waits := None)), act)
  }

  lemma StepUnfolds(p: Project_, msg: Option<Message>, act: Act)
    requires ValidSlots(p.core.procs) && Picked(p, msg).Some?
    ensures var (h, done) := InHand(p, msg, act);
            Step(p, msg, act) == React(h, Picked(p, msg).value, done, Delivered(p, msg).1)
  {
    hide React, Delivered, PopLive;
  }

  lemma InHandGood(p: Project_, msg: Option<Message>, act: Act)
    requires Good(p, NOBODY, NO_HANDLES) && Picked(p, msg).Some?
    ensures var (h, _) := InHand(p, msg, act);
            Good(h, {Picked(p, msg).value}, NO_HANDLES) && (NothingLost(p) || Matched(p, msg) ==> NothingLost(h))
              && h.scripts == Delivered(p, msg).0.scripts
  {
    hide ValidSlots, Good, Delivered, PopLive, NothingLost, Get;
    GoodValid(p, NOBODY, NO_HANDLES);
    DeliveredGood(p, msg);
    var p1 := Delivered(p, msg).0;
    PopGood(p1);
    var (k, rest) := PopLive(p1.core.procs, p1.core.queue);
    var p2 := p1.(core := p1.core.(queue := rest));
    WithProcGood(p2, k.value, None, {k.value}, NO_HANDLES);
  }

  /** The step finds, when it has handed out a network message and the process in hand ends, contexts waiting
      in the script of that process. */
  ghost predicate Abandons(p: Project_, msg: Option<Message>, act: Act)
    requires ValidSlots(p.core.procs)
  {
    && Matched(p, msg) && Picked(p, msg).Some?
    && Ending(InHand(p, msg, act).1)
    && var q := Delivered(p, msg).0;
       exists i :: 0 <= i < |q.scripts| && Waiting(q.scripts[i], Picked(p, msg))
  }

  /** The process whose turn it is. */
  function Next(p: Project_): Option<Key> {
    PopLive(p.core.procs, p.core.queue).0
  }

  predicate Unblocked(p: Project_, k: Key) {
    Get(p.core.procs, k).Some? && !Blocked(p.core.handles, Get(p.core.procs, k).value)
  }

  /** The project looks at the waiting contexts of all scripts in this step: a message arrives that some script
      listens for, or the process whose turn it is is blocked, or it asks for something that makes the project look. */
  ghost predicate Looks(p: Project_, msg: Option<Message>, act: Act) {
    || Matched(p, msg)
    || (Next(p).Some? && (!Unblocked(p, Next(p).value) || LooksFor(p.scripts, act)))
  }

  lemma {:induction false} Unheard(p: Project_, o: Offer, i: nat, did: bool)
    requires ValidSlots(p.core.procs) && forall j :: i <= j < |p.scripts| ==> !o.to(p.scripts[j])
    ensures OfferAll(p, o, i, did) == (p, did)
    decreases |p.scripts| - i
  {
    hide ValidSlots, Once, OfferOne;
    if i < |p.scripts| {
      Unheard(p, o, i + 1, did);
    }
  }

  lemma UnmatchedLooks(p: Project_, msg: Option<Message>, act: Act)
    requires ValidSlots(p.core.procs) && !Matched(p, msg)
    ensures Delivered(p, msg) == (p, false) && Picked(p, msg) == Next(p)
    ensures Looks(p, msg, act) ==> Picked(p, msg).Some? && LooksFor(p.scripts, InHand(p, msg, act).1)
  {
    hide ValidSlots, OfferAll, PopLive, Get;
    if msg.Some? {
      forall j | 0 <= j < |p.scripts| ensures !Incoming(msg.value).to(p.scripts[j]) {
        assert !Listens(p.scripts[j], msg);
      }
      Unheard(p, Incoming(msg.value), 0, false);
    }
    PopLiveResolves(p.core.procs, p.core.queue);
  }

  predicate Waiting(sc: Script, k: Option<Key>) {
    sc.process == k && sc.contexts != []
  }

  lemma RetireLost(p: Project_, k: Key)
    requires ValidSlots(p.core.procs) && NothingLost(p) && Get(p.core.procs, k).Some?
    ensures NothingLost(Retire(p, k)) <==> forall i :: 0 <= i < |p.scripts| ==> !Waiting(p.scripts[i], Some(k))
  {
    hide ValidSlots, Get, Removed;
    RemoveRefines(p.core.procs, k);
    var q := Retire(p, k);
    if i :| 0 <= i < |p.scripts| && Waiting(p.scripts[i], Some(k)) {
      assert !IsLive(q.core, q.scripts[i].process);
    } else {
      forall i | 0 <= i < |q.scripts| && q.scripts[i].contexts != [] ensures IsLive(q.core, q.scripts[i].process) {
        assert !Waiting(p.scripts[i], Some(k));
        assert IsLive(p.core, p.scripts[i].process);
      }
    }
  }

  lemma StepLoses(p: Project_, msg: Option<Message>, act: Act)
    requires Good(p, NOBODY, NO_HANDLES)
    ensures Good(Step(p, msg, act).0, NOBODY, NO_HANDLES)
    ensures NothingLost(p) || Looks(p, msg, act) ==> (NothingLost(Step(p, msg, act).0) <==> !Abandons(p, msg, act))
  {
    hide ValidSlots, Good, Delivered, PopLive, NothingLost, Get, React, InHand, Matched, Waiting, Retire, LooksFor;
    GoodValid(p, NOBODY, NO_HANDLES);
    DeliveredGood(p, msg);
    var p1 := Delivered(p, msg).0;
    PopGood(p1);
    if Picked(p, msg).Some? {
      var k := Picked(p, msg).value;
      var (h, done) := InHand(p, msg, act);
      StepUnfolds(p, msg, act);
      InHandGood(p, msg, act);
      ReactGood(h, k, done, Delivered(p, msg).1);
      if Matched(p, msg) && Ending(done) {
        RetireLost(h, k);
        EndingReaction(h, k, done);
      }
    }
    if !Matched(p, msg) {
      UnmatchedLooks(p, msg, act);
    }
  }

  lemma EndingReaction(p: Project_, k: Key, act: Act)
    requires ValidSlots(p.core.procs) && Get(p.core.procs, k).Some? && Ending(act)
    ensures React(p, k, act, true).0 == Retire(p, k)
  {
    hide ValidSlots, Get, Retire;
  }

  // ----- when a step loses a context, said of the state before it -----

  /** The script of process `k` has a context waiting, or is about to get one. */
  predicate Busy(sc: Script, k: Option<Key>, msg: Option<Message>) {
    sc.process == k && (sc.contexts != [] || Listens(sc, msg))
  }

  /** A script that has contexts waiting and no process to take one. */
  predicate Asleep(p: Project_, i: int) {
    0 <= i < |p.scripts| && p.scripts[i].contexts != [] && !IsLive(p.core, p.scripts[i].process)
  }

  predicate FirstAsleep(p: Project_, i: int) {
    Asleep(p, i) && forall j :: 0 <= j < i ==> !Asleep(p, j)
  }

  /** A message arrives that some script listens for; the process whose turn it is is not blocked, and ends;
      and its script has a context waiting, or listens for the message itself. If there is no process, the turn is
      that of the first script that was forgotten: it starts one of its contexts. */
  ghost predicate Strands(p: Project_, msg: Option<Message>, act: Act) {
    && Matched(p, msg) && Ending(act)
    && if Next(p).Some? then
         Unblocked(p, Next(p).value) && exists i :: 0 <= i < |p.scripts| && Busy(p.scripts[i], Next(p), msg)
       else exists i :: FirstAsleep(p, i) && (|p.scripts[i].contexts| > 1 || Listens(p.scripts[i], msg))
  }

  /** What becomes of a script when a message is handed out: with a process running, the message waits; without,
      it is started by the message at once. */
  ghost predicate Dealt(procs: Slots<Proc>, before: Script, after: Script, heard: bool) {
    if before.process.Some? && Get(procs, before.process.value).Some? then
      after.process == before.process && (after.contexts != [] <==> before.contexts != [] || heard)
    else
      after.contexts == [] && (after.process.Some? ==> Get(procs, after.process.value).None?)
  }

  /** The project when a message has been handed to the scripts before `i`. */
  ghost predicate HandedOut(p: Project_, q: Project_, msg: Option<Message>, i: nat) {
    && |q.scripts| == |p.scripts| && q.core.handles == p.core.handles
    && (forall k :: Issued(p.core.procs, k) ==> Issued(q.core.procs, k) && Get(q.core.procs, k) == Get(p.core.procs, k))
    && (exists more :: q.core.queue == p.core.queue + more)
    && (forall j :: i <= j < |p.scripts| ==> q.scripts[j] == p.scripts[j])
    && forall j :: 0 <= j < |p.scripts| ==>
         Dealt(p.core.procs, p.scripts[j], q.scripts[j], j < i && Listens(p.scripts[j], msg))
  }

  /** With nothing lost and every process running, there is nothing to consume. */
  lemma {:induction false} NothingToConsume(p: Project_, i: nat)
    requires ValidSlots(p.core.procs) && AllRunning(p.core.procs) && NothingLost(p)
    ensures ConsumeAll(p, i) == p
    decreases |p.scripts| - i
  {
    hide ValidSlots, Get;
    if i < |p.scripts| {
      assert p.scripts[i := p.scripts[i]] == p.scripts;
      assert Consume(p.core, p.scripts[i]) == (p.core, p.scripts[i]);
      NothingToConsume(p, i + 1);
    }
  }

  /** A message for a script whose process runs is left waiting. */
  lemma OfferWaits(q: Project_, m: Message, i: nat)
    requires ValidSlots(q.core.procs) && AllRunning(q.core.procs)
    requires i < |q.scripts| && IsLive(q.core, q.scripts[i].process)
    ensures var sc := q.scripts[i];
            OfferOne(q, Incoming(m), i)
              == q.(scripts := q.scripts[i := sc.(contexts := sc.contexts + [Context(m.payload, None)])])
  {
    hide ValidSlots, Get;
  }

  /** A message for a script without a process starts one. */
  lemma OfferStarts(q: Project_, m: Message, i: nat)
    requires ValidSlots(q.core.procs)
    requires i < |q.scripts| && !IsLive(q.core, q.scripts[i].process) && q.scripts[i].contexts == []
    ensures var sc := q.scripts[i];
            var (procs, k) := Inserted(q.core.procs, Started(sc.start, Context(m.payload, None)));
            OfferOne(q, Incoming(m), i)
              == q.(core := Core(procs, q.core.queue + [k], q.core.handles),
                    scripts := q.scripts[i := sc.(process := Some(k))])
  {
    hide ValidSlots, Get, Inserted;
    var c := Context(m.payload, None);
    assert [] + [c] == [c] && [c][1..] == [];
  }

  lemma DealOne(p: Project_, q: Project_, m: Message, i: nat)
    requires Good(p, NOBODY, NO_HANDLES) && NothingLost(p) && Good(q, NOBODY, NO_HANDLES) && NothingLost(q)
    requires i < |p.scripts| && HandedOut(p, q, Some(m), i) && Listens(p.scripts[i], Some(m))
    ensures HandedOut(p, OfferOne(q, Incoming(m), i), Some(m), i + 1)
  {
    hide ValidSlots, AllRunning, QueueGood, HandlesGood, BarriersGood, Get, Issued, OfferOne, Inserted;
    var sc := q.scripts[i];
    var r := OfferOne(q, Incoming(m), i);
    var more :| q.core.queue == p.core.queue + more;
    if IsLive(q.core, sc.process) {
      OfferWaits(q, m, i);
      assert r.core.queue == p.core.queue + more;
    } else {
      assert sc.contexts == [];
      OfferStarts(q, m, i);
      var proc := Started(sc.start, Context(m.payload, None));
      InsertRefines(q.core.procs, proc);
      var (procs, k) := Inserted(q.core.procs, proc);
      assert r.core.queue == p.core.queue + (more + [k]);
      if Get(p.core.procs, k).Some? {
        LiveIsIssued(p.core.procs, k);
        assert false;
      }
    }
  }

  lemma {:induction false} Deal(p: Project_, q: Project_, m: Message, i: nat, did: bool)
    requires Good(p, NOBODY, NO_HANDLES) && NothingLost(p) && Good(q, NOBODY, NO_HANDLES) && NothingLost(q)
    requires i <= |p.scripts| && HandedOut(p, q, Some(m), i)
    ensures HandedOut(p, OfferAll(q, Incoming(m), i, did).0, Some(m), |p.scripts|)
    decreases |p.scripts| - i
  {
    hide ValidSlots, AllRunning, QueueGood, HandlesGood, BarriersGood, OwnersGood, NothingLost, Get, Issued;
    hide OfferOne, Dealt, Once;
    if i < |p.scripts| {
      if Listens(p.scripts[i], Some(m)) {
        OnceIsNothing(q, did);
        DealOne(p, q, m, i);
        OfferOneGood(q, Incoming(m), i, NOBODY, NO_HANDLES);
        Deal(p, OfferOne(q, Incoming(m), i), m, i + 1, true);
      } else {
        assert HandedOut(p, q, Some(m), i + 1);
        Deal(p, q, m, i + 1, did);
      }
    }
  }

  lemma OnceIsNothing(p: Project_, did: bool)
    requires ValidSlots(p.core.procs) && AllRunning(p.core.procs) && NothingLost(p)
    ensures Once(p, did) == p
  {
    hide ValidSlots, AllRunning, NothingLost, ConsumeAll;
    NothingToConsume(p, 0);
  }

  lemma AllDealt(p: Project_, msg: Option<Message>)
    requires Good(p, NOBODY, NO_HANDLES) && NothingLost(p)
    ensures HandedOut(p, Delivered(p, msg).0, msg, |p.scripts|)
  {
    hide ValidSlots, AllRunning, QueueGood, HandlesGood, BarriersGood, Get, Issued, OfferAll;
    assert p.core.queue == p.core.queue + [];
    if msg.Some? {
      assert HandedOut(p, p, msg, 0);
      Deal(p, p, msg.value, 0, false);
    }
  }

  /** The process whose turn it is before new keys join the queue is the one whose turn it is afterwards. */
  lemma {:induction false} NextStays(procs: Slots<Proc>, later: Slots<Proc>, queue: seq<Key>, more: seq<Key>)
    requires forall k :: k in queue ==> Get(later, k) == Get(procs, k)
    ensures PopLive(procs, queue).0.Some? ==> PopLive(later, queue + more).0 == PopLive(procs, queue).0
    ensures PopLive(procs, queue).0.None? ==> forall k :: k in queue ==> Get(procs, k).None?
    decreases |queue|
  {
    hide Get;
    if queue != [] {
      assert (queue + more)[0] == queue[0] && (queue + more)[1..] == queue[1..] + more;
      if Get(procs, queue[0]).None? {
        NextStays(procs, later, queue[1..], more);
      }
    }
  }

  /** With no process whose turn it is there is no process at all, and what a message then starts has no
      contexts waiting. */
  lemma NobodyBusy(p: Project_, q: Project_, msg: Option<Message>)
    requires Good(p, NOBODY, NO_HANDLES) && HandedOut(p, q, msg, |p.scripts|)
    requires forall k :: k in p.core.queue ==> Get(p.core.procs, k).None?
    ensures forall i :: 0 <= i < |q.scripts| ==> q.scripts[i].contexts == []
  {
    hide ValidSlots, AllRunning, HandlesGood, BarriersGood, OwnersGood, Get, Issued;
    forall i | 0 <= i < |q.scripts| ensures q.scripts[i].contexts == [] {
      var k := p.scripts[i].process;
      if k.Some? && Get(p.core.procs, k.value).Some? {
        assert false;
      }
    }
  }

  /** The script whose process is `k` has a context waiting after the message exactly when it has one, or
      listens, before it. */
  lemma BusyThenWaits(p: Project_, q: Project_, msg: Option<Message>, k: Key)
    requires HandedOut(p, q, msg, |p.scripts|) && Get(p.core.procs, k).Some?
    ensures (exists i :: 0 <= i < |q.scripts| && Waiting(q.scripts[i], Some(k)))
            <==> exists i :: 0 <= i < |p.scripts| && Busy(p.scripts[i], Some(k), msg)
  {
    hide Get, Issued, Listens;
    if i :| 0 <= i < |q.scripts| && Waiting(q.scripts[i], Some(k)) {
      assert Busy(p.scripts[i], Some(k), msg);
    }
    if i :| 0 <= i < |p.scripts| && Busy(p.scripts[i], Some(k), msg) {
      assert Waiting(q.scripts[i], Some(k));
    }
  }

  /** The process in hand is the one whose turn it was, as it was. */
  lemma NextInHand(p: Project_, msg: Option<Message>, act: Act)
    requires Good(p, NOBODY, NO_HANDLES) && NothingLost(p) && Next(p).Some?
    ensures Picked(p, msg) == Next(p) && Get(p.core.procs, Next(p).value).Some?
    ensures Ending(InHand(p, msg, act).1) <==> Unblocked(p, Next(p).value) && Ending(act)
  {
    hide AllRunning, HandlesGood, BarriersGood, OwnersGood, Get, Issued, Delivered, PopLive, NothingLost, Dealt;
    hide ValidSlots;
    AllDealt(p, msg);
    var q := Delivered(p, msg).0;
    var more :| q.core.queue == p.core.queue + more;
    NextStays(p.core.procs, q.core.procs, p.core.queue, more);
    PopLiveResolves(p.core.procs, p.core.queue);
    LiveIsIssued(p.core.procs, Next(p).value);
  }

  lemma SettledStrands(p: Project_, msg: Option<Message>, act: Act)
    requires Good(p, NOBODY, NO_HANDLES) && NothingLost(p)
    ensures Abandons(p, msg, act) <==> Strands(p, msg, act)
  {
    hide ValidSlots, AllRunning, HandlesGood, BarriersGood, OwnersGood, Get, Issued, Delivered, PopLive;
    hide Dealt;
    hide InHand, Waiting, Busy, Matched, Unblocked;
    AllDealt(p, msg);
    var q := Delivered(p, msg).0;
    if Next(p).Some? {
      NextInHand(p, msg, act);
      BusyThenWaits(p, q, msg, Next(p).value);
    } else {
      var more :| q.core.queue == p.core.queue + more;
      NextStays(p.core.procs, q.core.procs, p.core.queue, more);
      NobodyBusy(p, q, msg);
      NoneWaits(q);
    }
  }

  // Looking at all scripts first, as handing out a message does, changes nothing about whether a step strands a
  // context: only that nothing is forgotten any more.

  /** What becomes of a script when the project looks: one that was asleep has started its oldest context. */
  ghost predicate Roused(p: Project_, q: Project_, j: int, i: nat) {
    && 0 <= j < |p.scripts| == |q.scripts|
    && if j < i && Asleep(p, j) then
         && q.scripts[j].contexts == p.scripts[j].contexts[1..] && q.scripts[j].event == p.scripts[j].event
         && q.scripts[j].process.Some? && !Issued(p.core.procs, q.scripts[j].process.value)
       else q.scripts[j] == p.scripts[j]
  }

  /** `first` is the first process that is new, if any: that of the first script that was asleep. */
  ghost predicate Rouses(p: Project_, q: Project_, i: nat, first: Option<Key>) {
    && (first.None? ==> forall j :: 0 <= j < i ==> !Asleep(p, j))
    && (first.Some? ==>
          && Get(q.core.procs, first.value).Some? && Get(q.core.procs, first.value).value.waits.None?
          && exists f :: 0 <= f < i && FirstAsleep(p, f) && f < |q.scripts| && q.scripts[f].process == first)
  }

  function Head(keys: seq<Key>): Option<Key> {
    if keys == [] then None else Some(keys[0])
  }

  /** The project when it has looked at the scripts before `i`. */
  ghost predicate Looked(p: Project_, q: Project_, i: nat) {
    && |q.scripts| == |p.scripts| && q.core.handles == p.core.handles
    && (forall k :: Issued(p.core.procs, k) ==> Issued(q.core.procs, k) && Get(q.core.procs, k) == Get(p.core.procs, k))
    && (forall j :: 0 <= j < |p.scripts| ==> Roused(p, q, j, i))
    && exists more :: q.core.queue == p.core.queue + more && Rouses(p, q, i, Head(more))
  }

  lemma RousedOne(p: Project_, q: Project_, r: Project_, i: nat, k: nat)
    requires |q.scripts| == |p.scripts| == |r.scripts| && forall j :: 0 <= j < |p.scripts| ==> Roused(p, q, j, i)
    requires forall j :: 0 <= j < |p.scripts| && j != i ==> r.scripts[j] == q.scripts[j]
    requires i < |p.scripts| && k == i + 1 && Roused(p, r, i, k)
    ensures forall j :: 0 <= j < |p.scripts| ==> Roused(p, r, j, k)
  {
    hide Asleep, Issued;
    forall j | 0 <= j < |p.scripts| ensures Roused(p, r, j, k) {
      assert Roused(p, q, j, i);
    }
  }

  lemma LookedOne(p: Project_, q: Project_, i: nat)
    requires Good(p, NOBODY, NO_HANDLES) && Good(q, NOBODY, NO_HANDLES) && Looked(p, q, i) && i < |p.scripts|
    ensures Looked(p, ConsumeOne(q, i), i + 1)
  {
    hide ValidSlots, QueueGood, HandlesGood, BarriersGood, Get, Issued, Inserted;
    var more :| q.core.queue == p.core.queue + more && Rouses(p, q, i, Head(more));
    var r := ConsumeOne(q, i);
    var sc := p.scripts[i];
    assert Roused(p, q, i, i);
    if Asleep(p, i) {
      var proc := Started(sc.start, sc.contexts[0]);
      InsertRefines(q.core.procs, proc);
      var (m, k) := Inserted(q.core.procs, proc);
      assert r.core.queue == p.core.queue + (more + [k]);
      assert Head(more + [k]) == if more == [] then Some(k) else Head(more);
      RousedOne(p, q, r, i, i + 1);
      if more == [] {
        assert FirstAsleep(p, i);
      }
    } else {
      assert r.scripts == q.scripts && r.core == q.core;
      RousedOne(p, q, r, i, i + 1);
    }
  }

  lemma {:induction false} AllLooked(p: Project_, q: Project_, i: nat)
    requires Good(p, NOBODY, NO_HANDLES) && Good(q, NOBODY, NO_HANDLES) && Looked(p, q, i) && i <= |p.scripts|
    ensures Looked(p, ConsumeAll(q, i), |p.scripts|)
    decreases |p.scripts| - i
  {
    hide Good, Looked, ConsumeOne;
    GoodValid(q, NOBODY, NO_HANDLES);
    LookedSize(p, q, i);
    if i < |p.scripts| {
      LookedOne(p, q, i);
      ConsumeGood(q, i, NOBODY, NO_HANDLES);
      AllLooked(p, ConsumeOne(q, i), i + 1);
      ConsumeNext(q, i);
    }
  }

  lemma LookedSize(p: Project_, q: Project_, i: nat)
    requires Looked(p, q, i)
    ensures |q.scripts| == |p.scripts|
  {
    hide Roused, Rouses;
  }

  lemma ConsumeNext(p: Project_, i: nat)
    requires ValidSlots(p.core.procs) && i < |p.scripts|
    ensures ConsumeAll(p, i) == ConsumeAll(ConsumeOne(p, i), i + 1)
  {
    hide ValidSlots, Consume;
  }

  /** A message that somebody listens for finds the project as if it had looked before. */
  lemma {:induction false} OfferLooked(p: Project_, q: Project_, o: Offer, i: nat)
    requires Good(p, NOBODY, NO_HANDLES) && Good(q, NOBODY, NO_HANDLES) && NothingLost(q)
    requires q == Once(p, false) && SameScripts(p, q) && Steady(o)
    requires exists j :: i <= j < |p.scripts| && o.to(p.scripts[j])
    ensures OfferAll(p, o, i, false) == OfferAll(q, o, i, false)
    decreases |p.scripts| - i
  {
    hide ValidSlots, AllRunning, QueueGood, HandlesGood, BarriersGood, OwnersGood, Once, OfferOne, NothingLost, Get;
    if o.to(p.scripts[i]) {
      OnceIsNothing(q, false);
    } else {
      OfferLooked(p, q, o, i + 1);
    }
  }

  lemma DeliveredLooked(p: Project_, q: Project_, msg: Option<Message>)
    requires Good(p, NOBODY, NO_HANDLES) && Good(q, NOBODY, NO_HANDLES) && NothingLost(q)
    requires q == Once(p, false) && SameScripts(p, q) && Matched(p, msg)
    ensures Delivered(p, msg) == Delivered(q, msg) && Matched(q, msg)
  {
    hide Good, NothingLost, Once, OfferAll;
    var i :| 0 <= i < |p.scripts| && Listens(p.scripts[i], msg);
    assert Listens(q.scripts[i], msg);
    assert Incoming(msg.value).to(p.scripts[i]);
    OfferLooked(p, q, Incoming(msg.value), 0);
  }

  lemma {:induction false} SkipDead(procs: Slots<Proc>, queue: seq<Key>, more: seq<Key>)
    requires forall k :: k in queue ==> Get(procs, k).None?
    ensures PopLive(procs, queue + more).0 == PopLive(procs, more).0
    decreases |queue|
  {
    hide Get;
    if queue == [] {
      assert [] + more == more;
    } else {
      assert (queue + more)[0] == queue[0] && (queue + more)[1..] == queue[1..] + more;
      SkipDead(procs, queue[1..], more);
    }
  }

  /** The process whose turn it is when the project has looked: the one whose turn it was, or else that of the first
      script that was asleep. */
  lemma NextLooked(p: Project_, q: Project_)
    requires Good(p, NOBODY, NO_HANDLES) && Looked(p, q, |p.scripts|)
    ensures Next(p).Some? ==> Next(q) == Next(p) && Get(q.core.procs, Next(p).value) == Get(p.core.procs, Next(p).value)
    ensures Next(p).Some? ==> Get(p.core.procs, Next(p).value).Some? && Issued(p.core.procs, Next(p).value)
    ensures Next(p).None? ==> Rouses(p, q, |p.scripts|, Next(q))
  {
    hide ValidSlots, AllRunning, HandlesGood, BarriersGood, OwnersGood, Get, Issued, Roused;
    var more :| q.core.queue == p.core.queue + more && Rouses(p, q, |p.scripts|, Head(more));
    NextStays(p.core.procs, q.core.procs, p.core.queue, more);
    if Next(p).Some? {
      PopLiveResolves(p.core.procs, p.core.queue);
      LiveIsIssued(p.core.procs, Next(p).value);
    } else {
      SkipDead(q.core.procs, p.core.queue, more);
    }
  }

  lemma BusyLooked(p: Project_, q: Project_, msg: Option<Message>, k: Key, i: nat)
    requires Looked(p, q, |p.scripts|) && i < |p.scripts| && Get(p.core.procs, k).Some? && Issued(p.core.procs, k)
    ensures i < |q.scripts| && (Busy(q.scripts[i], Some(k), msg) <==> Busy(p.scripts[i], Some(k), msg))
  {
    hide Get, Issued, Rouses;
    assert Roused(p, q, i, |p.scripts|);
  }

  /** The first script that was asleep, and only that one, has the process whose turn it is. */
  lemma BusyRoused(p: Project_, q: Project_, msg: Option<Message>, k: Key)
    requires Good(q, NOBODY, NO_HANDLES) && Looked(p, q, |p.scripts|) && Rouses(p, q, |p.scripts|, Some(k))
    ensures (exists i :: 0 <= i < |q.scripts| && Busy(q.scripts[i], Some(k), msg))
            <==> exists i :: FirstAsleep(p, i) && (|p.scripts[i].contexts| > 1 || Listens(p.scripts[i], msg))
    ensures Unblocked(q, k)
  {
    hide ValidSlots, AllRunning, QueueGood, HandlesGood, BarriersGood, Get, Issued;
    var f :| 0 <= f < |p.scripts| && FirstAsleep(p, f) && f < |q.scripts| && q.scripts[f].process == Some(k);
    assert Roused(p, q, f, |p.scripts|);
    if i :| 0 <= i < |q.scripts| && Busy(q.scripts[i], Some(k), msg) {
      OneOwner(q, i, f);
    }
    if i :| FirstAsleep(p, i) && (|p.scripts[i].contexts| > 1 || Listens(p.scripts[i], msg)) {
      assert i == f;
      assert Busy(q.scripts[f], Some(k), msg);
    }
  }

  lemma OneOwner(q: Project_, i: nat, j: nat)
    requires Good(q, NOBODY, NO_HANDLES) && i < |q.scripts| && j < |q.scripts|
    requires IsLive(q.core, q.scripts[i].process) && q.scripts[i].process == q.scripts[j].process
    ensures i == j
  {
    hide ValidSlots, AllRunning, QueueGood, HandlesGood, BarriersGood, Get;
  }

  lemma StrandsLooked(p: Project_, q: Project_, msg: Option<Message>, act: Act)
    requires Good(p, NOBODY, NO_HANDLES) && Good(q, NOBODY, NO_HANDLES) && NothingLost(q)
    requires Looked(p, q, |p.scripts|) && Matched(p, msg) && Matched(q, msg)
    ensures Strands(q, msg, act) <==> Strands(p, msg, act)
  {
    hide Good, Get, Issued, Matched, Busy, Rouses, Roused, Next, FirstAsleep;
    NextLooked(p, q);
    LookedSize(p, q, |p.scripts|);
    if Next(p).Some? {
      var k := Next(p).value;
      forall i | 0 <= i < |p.scripts|
        ensures Busy(q.scripts[i], Some(k), msg) <==> Busy(p.scripts[i], Some(k), msg)
      {
        BusyLooked(p, q, msg, k, i);
      }
    } else if Next(q).Some? {
      BusyRoused(p, q, msg, Next(q).value);
    } else {
      NobodyAsleep(p, q);
    }
  }

  lemma NobodyAsleep(p: Project_, q: Project_)
    requires NothingLost(q) && Rouses(p, q, |p.scripts|, None)
    ensures forall i :: !FirstAsleep(p, i) && !FirstAsleep(q, i)
  {
  }

  /** A step abandons a context exactly if it strands one. */
  lemma AbandonsIsStrands(p: Project_, msg: Option<Message>, act: Act)
    requires Good(p, NOBODY, NO_HANDLES)
    ensures Abandons(p, msg, act) <==> Strands(p, msg, act)
  {
    hide Good, NothingLost, Looked, Once, Matched, Delivered, Get, PopLive;
    GoodValid(p, NOBODY, NO_HANDLES);
    if Matched(p, msg) {
      var q := Once(p, false);
      OnceGood(p, false, NOBODY, NO_HANDLES);
      OnceLooks(p);
      DeliveredLooked(p, q, msg);
      SettledStrands(q, msg, act);
      StrandsLooked(p, q, msg, act);
    }
  }

  lemma OnceLooks(p: Project_)
    requires Good(p, NOBODY, NO_HANDLES)
    ensures Looked(p, Once(p, false), |p.scripts|)
  {
    hide Good, Looked, ConsumeAll;
    GoodValid(p, NOBODY, NO_HANDLES);
    LookedNone(p);
    AllLooked(p, p, 0);
  }

  lemma LookedNone(p: Project_)
    ensures Looked(p, p, 0)
  {
    assert p.core.queue == p.core.queue + [];
    assert Rouses(p, p, 0, Head([]));
  }

  lemma NoneWaits(q: Project_)
    requires forall i :: 0 <= i < |q.scripts| ==> q.scripts[i].contexts == []
    ensures forall i, k :: 0 <= i < |q.scripts| ==> !Waiting(q.scripts[i], k)
  {
  }

  /** Every step keeps the invariant. No context is forgotten, except exactly when the step strands one. */
  lemma StepKeeps(p: Project_, msg: Option<Message>, act: Act)
    requires Good(p, NOBODY, NO_HANDLES)
    ensures Good(Step(p, msg, act).0, NOBODY, NO_HANDLES)
    ensures NothingLost(p) ==> (NothingLost(Step(p, msg, act).0) <==> !Strands(p, msg, act))
  {
    hide ValidSlots, Good, Step, Abandons, Strands, NothingLost, Looks;
    StepLoses(p, msg, act);
    AbandonsIsStrands(p, msg, act);
  }

  /** A forgotten context is found again as soon as something makes the project look: whatever was lost
      before the step, nothing is afterwards, unless the step itself strands a context. */
  lemma LookRestores(p: Project_, msg: Option<Message>, act: Act)
    requires Good(p, NOBODY, NO_HANDLES) && Looks(p, msg, act)
    ensures NothingLost(Step(p, msg, act).0) <==> !Strands(p, msg, act)
  {
    hide Good, Looks, Abandons, Strands, NothingLost, Step;
    StepLoses(p, msg, act);
    AbandonsIsStrands(p, msg, act);
  }

  /** A project is idle exactly when no process is left; and then, if nothing was forgotten before, no
      context is waiting anywhere. */
  lemma IdleIsEmpty(p: Project_, msg: Option<Message>, act: Act)
    requires Good(p, NOBODY, NO_HANDLES)
    ensures var (q, r) := Step(p, msg, act);
            && (r == Idle <==> forall k :: Get(Delivered(p, msg).0.core.procs, k).None?)
            && (r == Idle && NothingLost(p) ==> forall i :: 0 <= i < |q.scripts| ==> q.scripts[i].contexts == [])
  {
    hide ValidSlots, Good, Delivered, PopLive, NothingLost, Get, React, InHand;
    GoodValid(p, NOBODY, NO_HANDLES);
    DeliveredGood(p, msg);
    var p1 := Delivered(p, msg).0;
    PopGood(p1);
    var (q, r) := Step(p, msg, act);
    if Picked(p, msg).Some? {
      var (h, done) := InHand(p, msg, act);
      StepUnfolds(p, msg, act);
      NotIdle(h, Picked(p, msg).value, done, Delivered(p, msg).1);
    } else if NothingLost(p) {
      NoneWaiting(q);
    }
  }

  lemma NotIdle(p: Project_, k: Key, act: Act, did: bool)
    requires ValidSlots(p.core.procs) && Get(p.core.procs, k).Some?
    ensures React(p, k, act, did).1 != Idle
  {
    hide ValidSlots, Get, Once, Retire, StartClone, OfferAll, Inserted;
  }

  lemma NoneWaiting(p: Project_)
    requires NothingLost(p) && forall k :: Get(p.core.procs, k).None?
    ensures forall i :: 0 <= i < |p.scripts| ==> p.scripts[i].contexts == []
  {
    hide Get;
  }

  // ----- input -----

  lemma {:induction false} StopScriptsGood(p: Project_, i: nat)
    requires Good(p, NOBODY, NO_HANDLES) && i <= |p.scripts| && forall j :: 0 <= j < i ==>
               p.scripts[j].process.None? && p.scripts[j].contexts == []
    ensures Good(StopScripts(p, i), NOBODY, NO_HANDLES) && AllIdle(StopScripts(p, i).scripts)
    decreases |p.scripts| - i
  {
    hide ValidSlots, Good, Get, StopScript;
    GoodValid(p, NOBODY, NO_HANDLES);
    if i < |p.scripts| {
      StopGood(p, i, NOBODY, NO_HANDLES);
      assert StopScripts(p, i) == StopScripts(StopScript(p, i), i + 1);
      StopScriptsGood(StopScript(p, i), i + 1);
    }
  }

  lemma {:induction false} NobodyHolds(slots: seq<Entry<Proc>>, b: nat)
    requires forall i :: 0 <= i < |slots| ==> slots[i].value.None?
    ensures InProcs(slots, b) == 0
    decreases |slots|
  {
    if slots != [] {
      NobodyHolds(slots[..|slots| - 1], b);
    }
  }

  lemma {:induction false} IdleHoldNothing(ss: seq<Script>, b: nat)
    requires AllIdle(ss)
    ensures InScripts(ss, b) == 0
    decreases |ss|
  {
    if ss != [] {
      IdleHoldNothing(ss[..|ss| - 1], b);
    }
  }

  lemma EmptySlots(m: Slots<Proc>)
    requires forall k :: Get(m, k).None?
    ensures forall i :: 0 <= i < |m.slots| ==> m.slots[i].value.None?
  {
    forall i | 0 <= i < |m.slots| ensures m.slots[i].value.None? {
      assert Get(m, Key(i, m.slots[i].generation)).None?;
    }
  }

  lemma StoppedGood(p: Project_)
    requires Good(p, NOBODY, NO_HANDLES) && AllIdle(p.scripts)
    ensures var q := p.(core := Core(Cleared(p.core.procs), [], p.core.handles - HeldBy(p.core.procs.slots)));
            Good(q, NOBODY, NO_HANDLES) && NothingLost(q)
  {
    hide ValidSlots, Get, Issued, InProcs, InScripts, Cleared, HeldBy;
    var q := p.(core := Core(Cleared(p.core.procs), [], p.core.handles - HeldBy(p.core.procs.slots)));
    ClearRefines(p.core.procs);
    EmptySlots(q.core.procs);
    forall b ensures q.core.handles[b] == InProcs(q.core.procs.slots, b) + InScripts(q.scripts, b) + NO_HANDLES[b] {
      HeldCounts(p.core.procs.slots, b);
      NobodyHolds(q.core.procs.slots, b);
      IdleHoldNothing(p.scripts, b);
    }
  }

  /** An input that stops all scripts, or that some script reacts to. */
  ghost predicate Touches(p: Project_, input: Input) {
    input.Stop? || exists i :: 0 <= i < |p.scripts| && OfferOf(input).to(p.scripts[i])
  }

  /** Every input keeps the invariant, and forgets nothing; and if it touches any script, what was forgotten
      before is found again. */
  lemma InputKeeps(p: Project_, input: Input)
    requires Good(p, NOBODY, NO_HANDLES)
    ensures Good(InputStep(p, input), NOBODY, NO_HANDLES)
    ensures NothingLost(p) || Touches(p, input) ==> NothingLost(InputStep(p, input))
  {
    hide ValidSlots, Good, Get, NothingLost, StopScripts, OfferAll, Cleared, HeldBy, AllIdle;
    GoodValid(p, NOBODY, NO_HANDLES);
    if input.Stop? {
      StopScriptsGood(p, 0);
      StoppedGood(StopScripts(p, 0));
    } else {
      OfferAllGood(p, OfferOf(input), 0, false, NOBODY, NO_HANDLES);
      OfferHeard(p, OfferOf(input), 0, false, NOBODY, NO_HANDLES);
    }
  }

  // ----- runs -----

  datatype Move = Enter(input: Input) | Tick(msg: Option<Message>, act: Act)

  function Moved(p: Project_, m: Move): (r: Project_)
    requires ValidSlots(p.core.procs)
    ensures ValidSlots(r.core.procs)
  {
    match m
    case Enter(input) => InputStep(p, input)
    case Tick(msg, act) => Step(p, msg, act).0
  }

  function Ran(p: Project_, ms: seq<Move>): (r: Project_)
    requires ValidSlots(p.core.procs)
    ensures ValidSlots(r.core.procs)
    decreases |ms|
  {
    if ms == [] then p else Ran(Moved(p, ms[0]), ms[1..])
  }

  datatype Template = Template(event: Event, entity: nat, start: nat)

  /** A project as it is set up: its scripts, none of them started. */
  function FromInit(templates: seq<Template>): (p: Project_) {
    Project_(Core(Slots([], [], 0), [], multiset{}),
             seq(|templates|, i requires 0 <= i < |templates| =>
                 Script(templates[i].event, templates[i].entity, templates[i].start, None, [])), 0)
  }

  lemma FromInitGood(templates: seq<Template>)
    ensures Good(FromInit(templates), NOBODY, NO_HANDLES) && NothingLost(FromInit(templates))
  {
    hide InScripts;
    var p := FromInit(templates);
    forall b ensures p.core.handles[b] == InProcs(p.core.procs.slots, b) + InScripts(p.scripts, b) + NO_HANDLES[b] {
      IdleHoldNothing(p.scripts, b);
    }
  }

  lemma MoveKeeps(p: Project_, m: Move)
    requires Good(p, NOBODY, NO_HANDLES)
    ensures Good(Moved(p, m), NOBODY, NO_HANDLES)
    ensures NothingLost(p) ==> (NothingLost(Moved(p, m)) <==> !StrandsOne(p, m))
  {
    hide Good, NothingLost, Strands, Step, InputStep;
    GoodValid(p, NOBODY, NO_HANDLES);
    match m {
      case Enter(input) => InputKeeps(p, input);
      case Tick(msg, act) => StepKeeps(p, msg, act);
    }
  }

  ghost predicate StrandsOne(p: Project_, m: Move)
    requires ValidSlots(p.core.procs)
  {
    m.Tick? && Strands(p, m.msg, m.act)
  }

  ghost predicate StrandsNever(p: Project_, ms: seq<Move>)
    requires ValidSlots(p.core.procs)
    decreases |ms|
  {
    ms == [] || (!StrandsOne(p, ms[0]) && StrandsNever(Moved(p, ms[0]), ms[1..]))
  }

  /** The invariant holds after every run. */
  lemma {:induction false} AlwaysGood(p: Project_, ms: seq<Move>)
    requires Good(p, NOBODY, NO_HANDLES)
    ensures Good(Ran(p, ms), NOBODY, NO_HANDLES)
    decreases |ms|
  {
    hide Good, Moved, NothingLost, StrandsOne;
    GoodValid(p, NOBODY, NO_HANDLES);
    if ms != [] {
      MoveKeeps(p, ms[0]);
      AlwaysGood(Moved(p, ms[0]), ms[1..]);
    }
  }

  /** No context is ever forgotten in a run that never strands one. */
  lemma {:induction false} NeverLost(p: Project_, ms: seq<Move>)
    requires Good(p, NOBODY, NO_HANDLES) && NothingLost(p) && StrandsNever(p, ms)
    ensures NothingLost(Ran(p, ms))
    decreases |ms|
  {
    hide Good, Moved, NothingLost, StrandsOne;
    GoodValid(p, NOBODY, NO_HANDLES);
    if ms != [] {
      MoveKeeps(p, ms[0]);
      NeverLost(Moved(p, ms[0]), ms[1..]);
    }
  }
}

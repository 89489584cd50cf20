/** Processes are served in turn: nobody moves backwards in the queue, and everyone moves forward when
    another process gives way. */
module SchedulerFairness {
  import opened Common
  import opened SlotMaps
  import opened Scheduler
  import opened SchedulerInvariant
  import opened SchedulerSafety
  import opened SchedulerSteps
  import opened SchedulerRuns

  /** How many entries of the queue are ahead of a key. */
  function Ahead(queue: seq<Key>, k: Key): nat
    decreases |queue|
  {
    if queue == [] || queue[0] == k then 0 else 1 + Ahead(queue[1..], k)
  }

  lemma {:induction false} AheadAppend(queue: seq<Key>, more: seq<Key>, k: Key)
    requires k in queue
    ensures Ahead(queue + more, k) == Ahead(queue, k)
    decreases |queue|
  {
    assert (queue + more)[0] == queue[0];
    if queue[0] != k {
      assert (queue + more)[1..] == queue[1..] + more;
      AheadAppend(queue[1..], more, k);
    }
  }

  lemma AheadPush(queue: seq<Key>, h: Key, k: Key)
    requires h != k
    ensures Ahead([h] + queue, k) == 1 + Ahead(queue, k)
  {
    assert ([h] + queue)[1..] == queue;
  }

  /** Popping the next process takes at least one entry from ahead of every other live one. */
  lemma {:induction false} PopAhead(procs: Slots<Proc>, queue: seq<Key>, k: Key)
    requires k in queue && Get(procs, k).Some?
    ensures var (h, rest) := PopLive(procs, queue);
            h.Some? && (h == Some(k) || (k in rest && Ahead(rest, k) + 1 <= Ahead(queue, k)))
    decreases |queue|
  {
    hide Get;
    if Get(procs, queue[0]).None? {
      PopAhead(procs, queue[1..], k);
    }
  }

  // ----- the queue in a reaction -----

  ghost predicate Extends(q: seq<Key>, r: seq<Key>) {
    q <= r
  }

  lemma OfferExtends(p: Project_, o: Offer, i: nat, did: bool, hand: set<Key>, extra: multiset<nat>)
    requires Good(p, hand, extra) && i <= |p.scripts| && (o.ctx.barrier.Some? ==> o.ctx.barrier.value < p.nextBarrier)
    ensures Extends(p.core.queue, OfferAll(p, o, i, did).0.core.queue)
  {
    hide ValidSlots, Good, OfferAll, NothingLost, Get;
    OfferAllGood(p, o, i, did, hand, extra);
  }

  lemma OnceExtends(p: Project_, did: bool, hand: set<Key>, extra: multiset<nat>)
    requires Good(p, hand, extra)
    ensures Extends(p.core.queue, Once(p, did).core.queue)
  {
    hide ValidSlots, Good, Once, NothingLost, Get;
    OnceGood(p, did, hand, extra);
  }

  predicate GivesWay(r: StepResult) {
    r == Yielded || r == ProcessTerminated || r == ErrorStep
  }

  lemma ForkQueue(p: Project_, k: Key, act: Act, did: bool)
    requires Good(p, {k}, NO_HANDLES) && Get(p.core.procs, k).Some? && act.Forks?
    ensures ValidSlots(p.core.procs) && Extends([k] + p.core.queue, React(p, k, act, did).0.core.queue)
  {
    hide ValidSlots, Get, Issued, Good, NothingLost, Once, Inserted;
    GoodValid(p, {k}, NO_HANDLES);
    var proc := Started(act.start, Context(act.payload, None));
    ForkGood(p, proc, {k}, NO_HANDLES);
    var (m, f) := Inserted(p.core.procs, proc);
    var p1 := p.(core := p.core.(procs := m));
    GoodValid(p1, {k} + {f}, NO_HANDLES);
    OnceExtends(p1, did, {k} + {f}, NO_HANDLES);
  }

  lemma CloneQueue(p: Project_, k: Key, act: Act, did: bool)
    requires Good(p, {k}, NO_HANDLES) && Get(p.core.procs, k).Some? && act.Clones?
    ensures ValidSlots(p.core.procs) && Extends([k] + p.core.queue, React(p, k, act, did).0.core.queue)
  {
    hide ValidSlots, Get, Issued, Good, NothingLost, StartClone, OfferAll;
    GoodValid(p, {k}, NO_HANDLES);
    var young := ClonedScripts(p.scripts, act.root, act.entity);
    ClonedIdle(p.scripts, act.root, act.entity);
    WithScriptsGood(p, young, {k}, NO_HANDLES);
    CloneIsOffer(p, young, 0, did);
    OfferExtends(WithScripts(p, young), Born(), |p.scripts|, did, {k}, NO_HANDLES);
  }

  lemma BroadcastQueue(p: Project_, k: Key, act: Act, did: bool)
    requires Good(p, {k}, NO_HANDLES) && Get(p.core.procs, k).Some? && act.Broadcasts?
    ensures ValidSlots(p.core.procs) && Extends([k] + p.core.queue, React(p, k, act, did).0.core.queue)
  {
    hide ValidSlots, Get, Issued, Good, NothingLost, OfferAll, Sending, React;
    GoodValid(p, {k}, NO_HANDLES);
    var b := Ticket(p, act);
    SendingGood(p, k, act);
    SendingQueue(p, k, act);
    OfferExtends(Sending(p, k, act), Outgoing(act, b), 0, did, {k}, Hold(NO_HANDLES, b));
  }

  /** The process in hand goes back to the front of the queue unless it gives way. */
  lemma ReactQueue(p: Project_, k: Key, act: Act, did: bool)
    requires Good(p, {k}, NO_HANDLES) && Get(p.core.procs, k).Some?
    ensures var (q, r) := React(p, k, act, did);
            && GivesWay(r) == (act.Yields? || Ending(act))
            && Extends(if GivesWay(r) then p.core.queue else [k] + p.core.queue, q.core.queue)
  {
    hide ValidSlots, Get, Issued, Good, NothingLost, Once, Inserted, StartClone, OfferAll, Retire;
    GoodValid(p, {k}, NO_HANDLES);
    if act.Forks? {
      ForkQueue(p, k, act, did);
    } else if act.Clones? {
      CloneQueue(p, k, act, did);
    } else if act.Broadcasts? {
      BroadcastQueue(p, k, act, did);
    } else if act.Yields? {
      OnceExtends(p, did, {k}, NO_HANDLES);
    } else if Ending(act) {
      RetireGood2(p, k);
      OnceExtends(Retire(p, k), did, NOBODY, NO_HANDLES);
    }
  }

  lemma RetireGood2(p: Project_, k: Key)
    requires Good(p, {k}, NO_HANDLES) && Get(p.core.procs, k).Some?
    ensures ValidSlots(p.core.procs) && Good(Retire(p, k), NOBODY, NO_HANDLES)
            && Retire(p, k).core.queue == p.core.queue
  {
    hide ValidSlots, Get, Good, Removed;
    GoodValid(p, {k}, NO_HANDLES);
    assert NOBODY + {k} == {k};
    RetireGood(p, k, NOBODY, NO_HANDLES);
  }

  lemma SendingQueue(p: Project_, k: Key, act: Act)
    requires ValidSlots(p.core.procs) && Get(p.core.procs, k).Some? && act.Broadcasts?
    ensures Sending(p, k, act).core.queue == p.core.queue
            && Sending(p, k, act).nextBarrier == p.nextBarrier + if act.wait then 1 else 0
    ensures forall b ::
              React(p, k, act, b).0.core.queue
                  == [k] + OfferAll(Sending(p, k, act), Outgoing(act, Ticket(p, act)), 0, b).0.core.queue
  {
    hide ValidSlots, Get, OfferAll;
  }

  // ----- delivery takes no process away -----

  lemma {:induction false} OfferAllGained(p: Project_, o: Offer, i: nat, did: bool, hand: set<Key>,
                                          extra: multiset<nat>)
    requires Good(p, hand, extra) && i <= |p.scripts| && o.ctx.barrier.None? && !o.interrupt
    ensures Gained(p.core, OfferAll(p, o, i, did).0.core)
    decreases |p.scripts| - i
  {
    hide ValidSlots, Good, Once, OfferOne, NothingLost, Get, Gained;
    GoodValid(p, hand, extra);
    if i >= |p.scripts| {
      GainedNone(p.core);
    } else if !o.to(p.scripts[i]) {
      OfferAllGained(p, o, i + 1, did, hand, extra);
    } else {
      var p1 := Once(p, did);
      OnceGood(p, did, hand, extra);
      GoodValid(p1, hand, extra);
      var p2 := OfferOne(p1, o, i);
      OfferOneGood(p1, o, i, hand, extra);
      OfferOneGained(p1, o, i, hand, extra);
      OfferAllGained(p2, o, i + 1, true, hand, extra);
      GainedTwice(p.core, p1.core, p2.core);
      GainedTwice(p.core, p2.core, OfferAll(p2, o, i + 1, true).0.core);
    }
  }

  lemma OfferOneGained(p: Project_, o: Offer, i: nat, hand: set<Key>, extra: multiset<nat>)
    requires Good(p, hand, extra) && i < |p.scripts| && o.ctx.barrier.None? && !o.interrupt
    ensures Gained(p.core, OfferOne(p, o, i).core)
  {
    hide ValidSlots, Good, ScheduleScript, NothingLost, Get, Gained;
    GoodValid(p, hand, extra);
    assert Hold(p.core.handles, o.ctx.barrier) == p.core.handles;
    assert p.(core := p.core.(handles := p.core.handles)) == p;
    assert Hold(extra, o.ctx.barrier) == extra;
    ScheduleGood(p, i, o.ctx, o.max, hand, extra);
  }

  lemma DeliveredGained(p: Project_, msg: Option<Message>)
    requires Good(p, NOBODY, NO_HANDLES)
    ensures Gained(p.core, Delivered(p, msg).0.core)
  {
    hide ValidSlots, Good, OfferAll, NothingLost, Get, Gained;
    GoodValid(p, NOBODY, NO_HANDLES);
    if msg.Some? {
      OfferAllGained(p, Incoming(msg.value), 0, false, NOBODY, NO_HANDLES);
    } else {
      GainedNone(p.core);
    }
  }

  // ----- steps -----

  lemma Queued(p: Project_, k: Key)
    requires Good(p, NOBODY, NO_HANDLES) && Get(p.core.procs, k).Some?
    ensures k in p.core.queue
  {
    hide Get, Issued, ValidSlots, HandlesGood, BarriersGood, OwnersGood;
    assert multiset(p.core.queue)[k] == 1;
  }

  lemma GainedAhead(p: Core, q: Core, k: Key)
    requires Gained(p, q) && k in p.queue && Get(p.procs, k).Some?
    ensures k in q.queue && Ahead(q.queue, k) == Ahead(p.queue, k) && Get(q.procs, k).Some?
  {
    hide Get;
    var more :| q.queue == p.queue + more;
    AheadAppend(p.queue, more, k);
  }

  lemma ExtendsAhead(q: seq<Key>, r: seq<Key>, k: Key)
    requires Extends(q, r) && k in q
    ensures k in r && Ahead(r, k) == Ahead(q, k)
  {
    assert r == q + r[|q|..];
    AheadAppend(q, r[|q|..], k);
  }

  /** A step of another process never puts a live one further back, and if the other gives way it comes
      closer. */
  lemma StepAhead(p: Project_, msg: Option<Message>, act: Act, k: Key)
    requires Good(p, NOBODY, NO_HANDLES) && Get(p.core.procs, k).Some? && Picked(p, msg) != Some(k)
    ensures var (q, r) := Step(p, msg, act);
            k in q.core.queue && Ahead(q.core.queue, k) + (if GivesWay(r) then 1 else 0) <= Ahead(p.core.queue, k)
  {
    hide ValidSlots, Good, Delivered, PopLive, NothingLost, Get, React, InHand, Gained;
    GoodValid(p, NOBODY, NO_HANDLES);
    Queued(p, k);
    DeliveredGood(p, msg);
    DeliveredGained(p, msg);
    var p1 := Delivered(p, msg).0;
    GainedAhead(p.core, p1.core, k);
    PopAhead(p1.core.procs, p1.core.queue, k);
    var (h, rest) := PopLive(p1.core.procs, p1.core.queue);
    StepUnfolds(p, msg, act);
    InHandGood(p, msg, act);
    var (p2, done) := InHand(p, msg, act);
    InHandQueue(p, msg, act);
    ReactQueue(p2, h.value, done, Delivered(p, msg).1);
    var (q, r) := Step(p, msg, act);
    if GivesWay(r) {
      ExtendsAhead(rest, q.core.queue, k);
    } else {
      AheadPush(rest, h.value, k);
      ExtendsAhead([h.value] + rest, q.core.queue, k);
    }
  }

  lemma InHandQueue(p: Project_, msg: Option<Message>, act: Act)
    requires ValidSlots(p.core.procs) && Picked(p, msg).Some?
    ensures var p1 := Delivered(p, msg).0; InHand(p, msg, act).0.core.queue == PopLive(p1.core.procs, p1.core.queue).1
  {
    hide Delivered, PopLive, ValidSlots, Get;
  }

  lemma InputAhead(p: Project_, input: Input, k: Key)
    requires Good(p, NOBODY, NO_HANDLES) && k in p.core.queue && !input.Stop?
    ensures k in InputStep(p, input).core.queue && Ahead(InputStep(p, input).core.queue, k) == Ahead(p.core.queue, k)
  {
    hide ValidSlots, Good, OfferAll, NothingLost, Get;
    GoodValid(p, NOBODY, NO_HANDLES);
    OfferExtends(p, OfferOf(input), 0, false, NOBODY, NO_HANDLES);
    ExtendsAhead(p.core.queue, InputStep(p, input).core.queue, k);
  }

  // ----- runs -----

  /** A run in which a process stays, and never has its turn. */
  ghost predicate Overlooked(p: Project_, ms: seq<Move>, k: Key)
    requires ValidSlots(p.core.procs)
    decreases |ms|
  {
    && Get(p.core.procs, k).Some?
    && (ms == [] || (!Serves(p, ms[0], k) && Overlooked(Moved(p, ms[0]), ms[1..], k)))
  }

  ghost predicate Serves(p: Project_, m: Move, k: Key)
    requires ValidSlots(p.core.procs)
  {
    m.Tick? && Picked(p, m.msg) == Some(k)
  }

  ghost predicate Passes(p: Project_, m: Move)
    requires ValidSlots(p.core.procs)
  {
    m.Tick? && GivesWay(Step(p, m.msg, m.act).1)
  }

  /** How often some process gives way in a run. */
  ghost function Turns(p: Project_, ms: seq<Move>): nat
    requires ValidSlots(p.core.procs)
    decreases |ms|
  {
    if ms == [] then 0 else (if Passes(p, ms[0]) then 1 else 0) + Turns(Moved(p, ms[0]), ms[1..])
  }

  lemma MoveAhead(p: Project_, m: Move, k: Key)
    requires Good(p, NOBODY, NO_HANDLES) && Get(p.core.procs, k).Some? && !Serves(p, m, k)
             && Get(Moved(p, m).core.procs, k).Some?
    ensures Ahead(Moved(p, m).core.queue, k) + (if Passes(p, m) then 1 else 0) <= Ahead(p.core.queue, k)
  {
    hide ValidSlots, Good, Get, Step, InputStep, Picked, GivesWay;
    GoodValid(p, NOBODY, NO_HANDLES);
    Queued(p, k);
    match m {
      case Tick(msg, act) => StepAhead(p, msg, act, k);
      case Enter(input) =>
        if input.Stop? {
          StopEnds(p, k);
        } else {
          InputAhead(p, input, k);
        }
    }
  }

  lemma StopEnds(p: Project_, k: Key)
    requires ValidSlots(p.core.procs)
    ensures Get(InputStep(p, Input.Stop).core.procs, k).None?
  {
    hide ValidSlots, Get, Cleared, StopScripts;
    ClearRefines(StopScripts(p, 0).core.procs);
  }

  /** Bounded waiting: before other processes have given way more often than there were entries ahead of it
      in the queue, every process either has its turn or is stopped. */
  lemma {:induction false} BoundedWaiting(p: Project_, ms: seq<Move>, k: Key)
    requires Good(p, NOBODY, NO_HANDLES) && Overlooked(p, ms, k)
    ensures Turns(p, ms) + Ahead(Ran(p, ms).core.queue, k) <= Ahead(p.core.queue, k)
    decreases |ms|
  {
    hide ValidSlots, Good, Get, Moved, NothingLost, StrandsOne, Passes, Serves;
    GoodValid(p, NOBODY, NO_HANDLES);
    if ms != [] {
      MoveKeeps(p, ms[0]);
      OverlookedLive(Moved(p, ms[0]), ms[1..], k);
      MoveAhead(p, ms[0], k);
      BoundedWaiting(Moved(p, ms[0]), ms[1..], k);
    }
  }

  lemma OverlookedLive(p: Project_, ms: seq<Move>, k: Key)
    requires ValidSlots(p.core.procs) && Overlooked(p, ms, k)
    ensures Get(p.core.procs, k).Some?
  {
  }

  // ----- contexts are started in order -----

  /** What a script that may start a context starts. */
  function Starts(c: Core, sc: Script): seq<Context> {
    if !IsLive(c, sc.process) && sc.contexts != [] then [sc.contexts[0]] else []
  }

  /** Offering a context to a script: what it starts, followed by what is left waiting, is what was waiting
      before, followed by the new context unless exactly that one was dropped. */
  lemma ScheduleInOrder(c: Core, sc: Script, ctx: Context, max: Option<nat>)
    requires ValidSlots(c.procs) && AllRunning(c.procs)
    ensures var (c', sc') := Schedule(c, sc, ctx, max);
            var started := Starts(c, sc.(contexts := sc.contexts + [ctx]));
            var dropped := max.Some? && |sc.contexts| + 1 - |started| > max.value;
            && started + sc'.contexts == sc.contexts + (if dropped then [] else [ctx])
            && (started != [] <==> !IsLive(c, sc.process))
            && (started != [] ==>
                  && IsLive(c', sc'.process)
                  && Get(c'.procs, sc'.process.value)
                     == Some(Proc(sc.start, started[0].payload, true, started[0].barrier, None)))
            && (started == [] ==> c'.procs == c.procs && sc'.process == sc.process)
  {
    hide ValidSlots, Get, Inserted;
    var sc1 := sc.(contexts := sc.contexts + [ctx]);
    assert sc1.contexts[0] == if sc.contexts == [] then ctx else sc.contexts[0];
    if !IsLive(c, sc.process) {
      InsertRefines(c.procs, Started(sc.start, sc1.contexts[0]));
    }
    var rest := Consume(c, sc1).1.contexts;
    if rest != [] {
      assert rest[|rest| - 1] == ctx;
    }
  }
}

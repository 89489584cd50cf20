/** Every step and every input keeps the invariant of the scheduler, whatever the processes ask for. */
module SchedulerSteps {
  import opened Common
  import opened SlotMaps
  import opened Scheduler
  import opened SchedulerInvariant
  import opened SchedulerSafety

  const NOBODY: set<Key> := {}
  const NO_HANDLES: multiset<nat> := multiset{}

  // ----- new processes and new scripts -----

  lemma ForkGood(p: Project_, proc: Proc, hand: set<Key>, extra: multiset<nat>)
    requires Good(p, hand, extra) && proc.running && proc.waits.None? && proc.barrier.None?
    ensures var (m, f) := Inserted(p.core.procs, proc);
            var q := p.(core := p.core.(procs := m));
            && Good(q, hand + {f}, extra) && f !in hand && Get(m, f).Some?
            && (NothingLost(p) ==> NothingLost(q))
            && (forall k :: Get(p.core.procs, k).Some? ==> Get(m, k) == Get(p.core.procs, k))
  {
    hide ValidSlots, Get, Issued, InProcs, InScripts, Inserted;
    InsertRefines(p.core.procs, proc);
    var (m, f) := Inserted(p.core.procs, proc);
    var q := p.(core := p.core.(procs := m));
    assert f !in p.core.queue;
    forall b ensures q.core.handles[b] == InProcs(q.core.procs.slots, b) + InScripts(q.scripts, b) + extra[b] {
      InsertHeld(p.core, proc, b);
    }
  }

  ghost predicate AllIdle(ss: seq<Script>) {
    forall i :: 0 <= i < |ss| ==> ss[i].process.None? && ss[i].contexts == []
  }

  function WithScripts(p: Project_, more: seq<Script>): Project_ {
    p.(scripts := p.scripts + more)
  }

  lemma {:induction false} ClonedIdle(ss: seq<Script>, root: nat, entity: nat)
    ensures AllIdle(ClonedScripts(ss, root, entity))
    decreases |ss|
  {
    if ss != [] {
      ClonedIdle(ss[1..], root, entity);
    }
  }

  lemma {:induction false} IdleHandles(ss: seq<Script>, more: seq<Script>, b: nat)
    requires AllIdle(more)
    ensures InScripts(ss + more, b) == InScripts(ss, b)
    decreases |more|
  {
    if more == [] {
      assert ss + more == ss;
    } else {
      var n := |more| - 1;
      assert (ss + more)[..|ss| + n] == ss + more[..n];
      IdleHandles(ss, more[..n], b);
    }
  }

  lemma WithScriptsGood(p: Project_, more: seq<Script>, hand: set<Key>, extra: multiset<nat>)
    requires Good(p, hand, extra) && AllIdle(more)
    ensures Good(WithScripts(p, more), hand, extra) && (NothingLost(p) ==> NothingLost(WithScripts(p, more)))
  {
    hide ValidSlots, Get, Issued, InProcs, InScripts;
    var q := WithScripts(p, more);
    forall b ensures q.core.handles[b] == InProcs(q.core.procs.slots, b) + InScripts(q.scripts, b) + extra[b] {
      IdleHandles(p.scripts, more, b);
    }
  }

  lemma {:induction false} ConsumeIdle(p: Project_, i: nat)
    requires ValidSlots(p.core.procs) && forall j :: i <= j < |p.scripts| ==> p.scripts[j].contexts == []
    ensures ConsumeAll(p, i) == p
    decreases |p.scripts| - i
  {
    if i < |p.scripts| {
      assert p.scripts[i := p.scripts[i]] == p.scripts;
      ConsumeIdle(p, i + 1);
    }
  }

  /** Scripts with nothing to do may as well be there already. */
  lemma {:induction false} ConsumeWith(p: Project_, more: seq<Script>, i: nat)
    requires ValidSlots(p.core.procs) && AllIdle(more) && i <= |p.scripts|
    ensures ConsumeAll(WithScripts(p, more), i) == WithScripts(ConsumeAll(p, i), more)
    decreases |p.scripts| - i
  {
    hide ValidSlots, Consume;
    var w := WithScripts(p, more);
    if i == |p.scripts| {
      ConsumeIdle(w, i);
    } else {
      ConsumeValid(p.core, p.scripts[i]);
      var (c, sc) := Consume(p.core, p.scripts[i]);
      assert w.scripts[i := sc] == p.scripts[i := sc] + more;
      ConsumeWith(p.(core := c, scripts := p.scripts[i := sc]), more, i + 1);
    }
  }

  lemma ScheduleValid(c: Core, sc: Script, ctx: Context, max: Option<nat>)
    requires ValidSlots(c.procs)
    ensures ValidSlots(Schedule(c, sc, ctx, max).0.procs)
  {
    hide ValidSlots, Consume;
    ConsumeValid(c, sc.(contexts := sc.contexts + [ctx]));
  }

  /** What the scripts of a new clone are offered. */
  function Born(): Offer {
    Offer((sc: Script) => sc.event.OnClone?, false, Context(0, None), Some(0))
  }

  /** Starting the scripts of a clone before they join the others is like offering to them afterwards. */
  lemma {:induction false} CloneIsOffer(p: Project_, young: seq<Script>, i: nat, did: bool)
    requires ValidSlots(p.core.procs) && i <= |young| && (did || AllIdle(young))
    ensures var (q, grown, d) := StartClone(p, young, i, did);
            OfferAll(WithScripts(p, young), Born(), |p.scripts| + i, did) == (WithScripts(q, grown), d)
    decreases |young| - i
  {
    hide ValidSlots, Schedule;
    var w := WithScripts(p, young);
    if i < |young| {
      if young[i].event.OnClone? {
        var p1 := Once(p, did);
        if !did {
          ConsumeWith(p, young, 0);
        }
        var w1 := WithScripts(p1, young);
        assert Once(w, did) == w1;
        ScheduleValid(p1.core, young[i], Context(0, None), Some(0));
        var (c, sc) := Schedule(p1.core, young[i], Context(0, None), Some(0));
        assert w1.scripts[|p.scripts| + i := sc] == p1.scripts + young[i := sc];
        assert w1.scripts[|p.scripts| + i] == young[i];
        CloneIsOffer(p1.(core := c), young[i := sc], i + 1, true);
      } else {
        CloneIsOffer(p, young, i + 1, did);
      }
    }
  }

  // ----- reactions -----

  lemma UnholdGood(p: Project_, b: Option<nat>, hand: set<Key>, extra: multiset<nat>)
    requires Good(p, hand, Hold(extra, b))
    ensures var q := p.(core := p.core.(handles := Drop(p.core.handles, b)));
            Good(q, hand, extra) && (NothingLost(p) ==> NothingLost(q))
  {
    hide ValidSlots, Get, Issued, InProcs, InScripts, AllRunning, QueueGood, OwnersGood;
    forall c ensures Drop(p.core.handles, b)[c] == InProcs(p.core.procs.slots, c) + InScripts(p.scripts, c) + extra[c] {
      assert Hold(extra, b)[c] == extra[c] + One(b, c);
    }
  }

  lemma BumpGood(p: Project_, n: nat, hand: set<Key>, extra: multiset<nat>)
    requires Good(p, hand, extra)
    ensures var q := p.(nextBarrier := p.nextBarrier + n); Good(q, hand, extra) && (NothingLost(p) ==> NothingLost(q))
  {
    hide ValidSlots, Get, Issued, InProcs, InScripts, AllRunning, QueueGood, OwnersGood;
  }

  /** Whether the project looks at the waiting contexts of all scripts because of what a process asks for. */
  ghost predicate LooksFor(scripts: seq<Script>, act: Act) {
    || act.Yields? || act.Forks? || Ending(act)
    || (act.Clones? && exists j :: 0 <= j < |scripts| && scripts[j].entity == act.root && scripts[j].event == OnClone)
    || (act.Broadcasts? && exists j :: 0 <= j < |scripts| && Addressed(scripts[j], act))
  }

  predicate Ending(act: Act) {
    act.Ends? || act.Fails?
  }

  lemma ForksGood(p: Project_, k: Key, act: Act, did: bool)
    requires Good(p, {k}, NO_HANDLES) && Get(p.core.procs, k).Some? && act.Forks?
    ensures var q := React(p, k, act, did).0;
            Good(q, NOBODY, NO_HANDLES) && (NothingLost(p) || !did ==> NothingLost(q))
  {
    hide ValidSlots, Get, Issued, Good, NothingLost, Once, Gained, Inserted;
    GoodValid(p, {k}, NO_HANDLES);
    var proc := Started(act.start, Context(act.payload, None));
    ForkGood(p, proc, {k}, NO_HANDLES);
    var (m, f) := Inserted(p.core.procs, proc);
    var p1 := p.(core := p.core.(procs := m));
    GoodValid(p1, {k} + {f}, NO_HANDLES);
    OnceGood(p1, did, {k} + {f}, NO_HANDLES);
    BackGood(Once(p1, did), f, {k}, NO_HANDLES);
    assert NOBODY + {k} == {k};
    FrontGood(Back(Once(p1, did), f), k, NOBODY, NO_HANDLES);
  }

  lemma GoodValid(p: Project_, hand: set<Key>, extra: multiset<nat>)
    requires Good(p, hand, extra)
    ensures ValidSlots(p.core.procs)
  {
  }

  lemma YoungHeard(p: Project_, young: seq<Script>)
    ensures var all := WithScripts(p, young).scripts;
            (exists j :: 0 <= j < |young| && young[j].event.OnClone?)
            ==> exists j :: |p.scripts| <= j < |all| && Born().to(all[j])
  {
    var all := WithScripts(p, young).scripts;
    if j :| 0 <= j < |young| && young[j].event.OnClone? {
      assert all[|p.scripts| + j] == young[j];
      assert Born().to(all[|p.scripts| + j]);
    }
  }

  ghost predicate StartsAny(young: seq<Script>) {
    exists i :: 0 <= i < |young| && young[i].event.OnClone?
  }

  lemma StartsMore(young: seq<Script>, sc: Script)
    requires StartsAny(young) || sc.event.OnClone?
    ensures StartsAny([sc] + young)
  {
    var all := [sc] + young;
    if StartsAny(young) {
      var i :| 0 <= i < |young| && young[i].event.OnClone?;
      assert all[i + 1].event.OnClone?;
    } else {
      assert all[0].event.OnClone?;
    }
  }

  lemma {:induction false} CloneStarts(scripts: seq<Script>, root: nat, entity: nat, j: nat)
    requires j < |scripts| && scripts[j].entity == root && scripts[j].event == OnClone
    ensures StartsAny(ClonedScripts(scripts, root, entity))
    decreases |scripts|
  {
    hide StartsAny;
    if j > 0 {
      CloneStarts(scripts[1..], root, entity, j - 1);
    }
    if scripts[0].entity == root {
      StartsMore(ClonedScripts(scripts[1..], root, entity),
                 scripts[0].(entity := entity, process := None, contexts := []));
    }
  }

  lemma ClonesGood(p: Project_, k: Key, act: Act, did: bool)
    requires Good(p, {k}, NO_HANDLES) && Get(p.core.procs, k).Some? && act.Clones?
    ensures var q := React(p, k, act, did).0;
            && Good(q, NOBODY, NO_HANDLES)
            && (NothingLost(p) || (!did && LooksFor(p.scripts, act)) ==> NothingLost(q))
  {
    hide ClonedScripts, ValidSlots, Get, Issued, Good, NothingLost, Once, Gained, StartClone, OfferAll;
    GoodValid(p, {k}, NO_HANDLES);
    var young := ClonedScripts(p.scripts, act.root, act.entity);
    ClonedIdle(p.scripts, act.root, act.entity);
    WithScriptsGood(p, young, {k}, NO_HANDLES);
    CloneIsOffer(p, young, 0, did);
    OfferAllGood(WithScripts(p, young), Born(), |p.scripts|, did, {k}, NO_HANDLES);
    OfferHeard(WithScripts(p, young), Born(), |p.scripts|, did, {k}, NO_HANDLES);
    if LooksFor(p.scripts, act) {
      var j :| 0 <= j < |p.scripts| && p.scripts[j].entity == act.root && p.scripts[j].event == OnClone;
      CloneStarts(p.scripts, act.root, act.entity, j);
    }
    YoungHeard(p, young);
    var (q, grown, _) := StartClone(p, young, 0, did);
    assert NOBODY + {k} == {k};
    FrontGood(WithScripts(q, grown), k, NOBODY, NO_HANDLES);
  }

  /** The project as it is while a broadcast goes out: the sender waits, and holds one handle itself. */
  function Sending(p: Project_, k: Key, act: Act): (r: Project_)
    requires ValidSlots(p.core.procs) && Get(p.core.procs, k).Some? && act.Broadcasts?
    ensures ValidSlots(r.core.procs)
  {
    var b := if act.wait then Some(p.nextBarrier) else None;
    var proc := Get(p.core.procs, k).value;
    var p1 := if act.wait then WithProc(p, k, proc.(waits := b)) else p;
    p1.(core := p1.core.(handles := Hold(p1.core.handles, b)),
        nextBarrier := p1.nextBarrier + if act.wait then 1 else 0)
  }

  function Ticket(p: Project_, act: Act): Option<nat>
    requires act.Broadcasts?
  {
    if act.wait then Some(p.nextBarrier) else None
  }

  lemma SendingGood(p: Project_, k: Key, act: Act)
    requires Good(p, {k}, NO_HANDLES) && Get(p.core.procs, k).Some? && act.Broadcasts?
    ensures var q := Sending(p, k, act);
            Good(q, {k}, Hold(NO_HANDLES, Ticket(p, act))) && (NothingLost(p) ==> NothingLost(q))
  {
    hide ValidSlots, Issued, Good, NothingLost;
    GoodValid(p, {k}, NO_HANDLES);
    var b := Ticket(p, act);
    var p0 := p.(nextBarrier := p.nextBarrier + if act.wait then 1 else 0);
    BumpGood(p, if act.wait then 1 else 0, {k}, NO_HANDLES);
    if act.wait {
      WithProcGood(p0, k, b, {k}, NO_HANDLES);
      var p1 := WithProc(p0, k, Get(p0.core.procs, k).value.(waits := b));
      HoldGood(p1, b, {k}, NO_HANDLES);
      SameLost(p1, p1.(core := p1.core.(handles := Hold(p1.core.handles, b))));
      assert Sending(p, k, act) == p1.(core := p1.core.(handles := Hold(p1.core.handles, b)));
    } else {
      assert Sending(p, k, act) == p0;
    }
  }

  lemma SameLost(p: Project_, q: Project_)
    requires q.core.procs == p.core.procs && q.scripts == p.scripts
    ensures NothingLost(p) <==> NothingLost(q)
  {
  }

  lemma BroadcastHeard(scripts: seq<Script>, act: Act, b: Option<nat>)
    requires act.Broadcasts?
    ensures LooksFor(scripts, act) ==> exists j :: 0 <= j < |scripts| && Outgoing(act, b).to(scripts[j])
  {
    hide Hears, Addressed;
    if LooksFor(scripts, act) {
      var j :| 0 <= j < |scripts| && Addressed(scripts[j], act);
      HearsIs(scripts[j], act);
      assert Outgoing(act, b).to(scripts[j]);
    }
  }

  lemma BroadcastsGood(p: Project_, k: Key, act: Act, did: bool)
    requires Good(p, {k}, NO_HANDLES) && Get(p.core.procs, k).Some? && act.Broadcasts?
    ensures var q := React(p, k, act, did).0;
            && Good(q, NOBODY, NO_HANDLES)
            && (NothingLost(p) || (!did && LooksFor(p.scripts, act)) ==> NothingLost(q))
  {
    hide ValidSlots, Get, Issued, Good, NothingLost, OfferAll, Hold, Drop;
    GoodValid(p, {k}, NO_HANDLES);
    var b := Ticket(p, act);
    var p2 := Sending(p, k, act);
    SendingGood(p, k, act);
    OfferAllGood(p2, Outgoing(act, b), 0, did, {k}, Hold(NO_HANDLES, b));
    OfferHeard(p2, Outgoing(act, b), 0, did, {k}, Hold(NO_HANDLES, b));
    BroadcastHeard(p.scripts, act, b);
    var q := OfferAll(p2, Outgoing(act, b), 0, did).0;
    UnholdGood(q, b, {k}, NO_HANDLES);
    var q1 := q.(core := q.core.(handles := Drop(q.core.handles, b)));
    assert NOBODY + {k} == {k};
    FrontGood(q1, k, NOBODY, NO_HANDLES);
    assert React(p, k, act, did).0 == Front(q1, k);
  }

  lemma ReactGood(p: Project_, k: Key, act: Act, did: bool)
    requires Good(p, {k}, NO_HANDLES) && Get(p.core.procs, k).Some?
    ensures var q := React(p, k, act, did).0;
            && Good(q, NOBODY, NO_HANDLES)
            && (NothingLost(p) && !(did && Ending(act)) ==> NothingLost(q))
            && (!did && LooksFor(p.scripts, act) ==> NothingLost(q))
  {
    hide ValidSlots, Get, Issued, Good, NothingLost, Once, Front, Back, Retire, Gained;
    GoodValid(p, {k}, NO_HANDLES);
    assert NOBODY + {k} == {k};
    match act {
      case Forks(_, _) => ForksGood(p, k, act, did);
      case Clones(_, _) => ClonesGood(p, k, act, did);
      case Broadcasts(_, _, _) => BroadcastsGood(p, k, act, did);
      case Yields =>
        OnceGood(p, did, {k}, NO_HANDLES);
        BackGood(Once(p, did), k, NOBODY, NO_HANDLES);
      case Normal => FrontGood(p, k, NOBODY, NO_HANDLES);
      case Watches => FrontGood(p, k, NOBODY, NO_HANDLES);
      case Pauses => FrontGood(p, k, NOBODY, NO_HANDLES);
      case Ends =>
        RetireGood(p, k, NOBODY, NO_HANDLES);
        OnceGood(Retire(p, k), did, NOBODY, NO_HANDLES);
      case Fails =>
        RetireGood(p, k, NOBODY, NO_HANDLES);
        OnceGood(Retire(p, k), did, NOBODY, NO_HANDLES);
    }
  }
}

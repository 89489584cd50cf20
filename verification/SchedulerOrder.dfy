/** Over whole runs, the contexts of a script are started in the order in which they were offered. */
module SchedulerOrder {
  import opened Common
  import opened SlotMaps
  import opened Scheduler
  import opened SchedulerInvariant
  import opened SchedulerSteps
  import opened SchedulerSafety
  import opened SchedulerRuns
  import opened SchedulerReach

  // ----- what happens to the contexts of a script -----

  /** A context is offered, the oldest one is started, the newest one is refused, or all that wait are thrown away. */
  datatype Happening = Offers(c: Context) | Starts(c: Context) | Refuses | Throws

  function ConsumeLog(c: Core, sc: Script): seq<Happening> {
    if IsLive(c, sc.process) && Get(c.procs, sc.process.value).value.running then []
    else if sc.contexts == [] then []
    else [Starts(sc.contexts[0])]
  }

  function ScheduleLog(c: Core, sc: Script, ctx: Context, max: Option<nat>): seq<Happening>
    requires ValidSlots(c.procs)
  {
    var sc1 := sc.(contexts := sc.contexts + [ctx]);
    var rest := Consume(c, sc1).1.contexts;
    [Offers(ctx)] + ConsumeLog(c, sc1) + (if max.Some? && |rest| > max.value then [Refuses] else [])
  }

  /** What happens to script `s` when every script from `i` on gets to start a context. */
  function ConsumeAllLog(p: Project_, i: nat, s: nat): seq<Happening>
    requires ValidSlots(p.core.procs)
    decreases |p.scripts| - i
  {
    if i >= |p.scripts| then []
    else (if i == s then ConsumeLog(p.core, p.scripts[i]) else []) + ConsumeAllLog(ConsumeOne(p, i), i + 1, s)
  }

  function OnceLog(p: Project_, did: bool, s: nat): seq<Happening>
    requires ValidSlots(p.core.procs)
  {
    if did then [] else ConsumeAllLog(p, 0, s)
  }

  /** A script as it is when a context is offered to it. */
  function Receiving(p: Project_, o: Offer, i: nat): (r: Project_)
    requires ValidSlots(p.core.procs) && i < |p.scripts|
    ensures ValidSlots(r.core.procs) && |r.scripts| == |p.scripts|
  {
    var p1 := if o.interrupt then StopScript(p, i) else p;
    p1.(core := p1.core.(handles := Hold(p1.core.handles, o.ctx.barrier)))
  }

  function OfferOneLog(p: Project_, o: Offer, i: nat): seq<Happening>
    requires ValidSlots(p.core.procs) && i < |p.scripts|
  {
    var r := Receiving(p, o, i);
    (if o.interrupt then [Throws] else []) + ScheduleLog(r.core, r.scripts[i], o.ctx, o.max)
  }

  function OfferAllLog(p: Project_, o: Offer, i: nat, did: bool, s: nat): seq<Happening>
    requires ValidSlots(p.core.procs)
    decreases |p.scripts| - i
  {
    if i >= |p.scripts| then []
    else if !o.to(p.scripts[i]) then OfferAllLog(p, o, i + 1, did, s)
    else
      var p1 := Once(p, did);
      OnceLog(p, did, s) + (if i == s then OfferOneLog(p1, o, i) else [])
        + OfferAllLog(OfferOne(p1, o, i), o, i + 1, true, s)
  }

  /** The scripts of a clone are counted behind those there are already. */
  function StartCloneLog(p: Project_, young: seq<Script>, i: nat, did: bool, s: nat): seq<Happening>
    requires ValidSlots(p.core.procs)
    decreases |young| - i
  {
    if i >= |young| then []
    else if !young[i].event.OnClone? then StartCloneLog(p, young, i + 1, did, s)
    else
      var p1 := Once(p, did);
      ConsumeValid(p1.core, young[i].(contexts := young[i].contexts + [Context(0, None)]));
      var (c, sc) := Schedule(p1.core, young[i], Context(0, None), Some(0));
      OnceLog(p, did, s)
        + (if s == |p.scripts| + i then ScheduleLog(p1.core, young[i], Context(0, None), Some(0)) else [])
        + StartCloneLog(p1.(core := c), young[i := sc], i + 1, true, s)
  }

  function ReactLog(p: Project_, k: Key, act: Act, did: bool, s: nat): seq<Happening>
    requires ValidSlots(p.core.procs) && Get(p.core.procs, k).Some?
  {
    match act
    case Normal => []
    case Watches => []
    case Pauses => []
    case Yields => OnceLog(p, did, s)
    case Forks(start, payload) =>
      InsertRefines(p.core.procs, Started(start, Context(payload, None)));
      OnceLog(p.(core := p.core.(procs := Inserted(p.core.procs, Started(start, Context(payload, None))).0)), did, s)
    case Clones(root, entity) => StartCloneLog(p, ClonedScripts(p.scripts, root, entity), 0, did, s)
    case Broadcasts(_, _, _) => OfferAllLog(Sending(p, k, act), Outgoing(act, Ticket(p, act)), 0, did, s)
    case Ends => OnceLog(Retire(p, k), did, s)
    case Fails => OnceLog(Retire(p, k), did, s)
  }

  /** What a move makes happen to script `s`. */
  function MoveLog(p: Project_, m: Move, s: nat): seq<Happening>
    requires ValidSlots(p.core.procs)
  {
    match m
    case Enter(input) =>
      if input.Stop? then if s < |p.scripts| then [Throws] else []
      else OfferAllLog(p, OfferOf(input), 0, false, s)
    case Tick(msg, act) =>
      (if msg.Some? then OfferAllLog(p, Incoming(msg.value), 0, false, s) else [])
        + if Picked(p, msg).None? then []
          else ReactLog(InHand(p, msg, act).0, Picked(p, msg).value, InHand(p, msg, act).1, Delivered(p, msg).1, s)
  }

  /** What a run makes happen to script `s`, in order. */
  function RunLog(p: Project_, ms: seq<Move>, s: nat): seq<Happening>
    requires ValidSlots(p.core.procs)
    decreases |ms|
  {
    if ms == [] then [] else MoveLog(p, ms[0], s) + RunLog(Moved(p, ms[0]), ms[1..], s)
  }

  /** A start in the log is one: the script has a running process that was given the context. */
  lemma StartIsReal(c: Core, sc: Script)
    requires ValidSlots(c.procs)
    ensures var (c', sc') := Consume(c, sc);
            || (ConsumeLog(c, sc) == [] && c' == c && sc' == sc)
            || (sc.contexts != [] && ConsumeLog(c, sc) == [Starts(sc.contexts[0])] && IsLive(c', sc'.process)
                && Get(c'.procs, sc'.process.value)
                   == Some(Proc(sc.start, sc.contexts[0].payload, true, sc.contexts[0].barrier, None)))
  {
    hide ValidSlots, Get, Inserted, Put;
    if sc.contexts != [] {
      var p := Started(sc.start, sc.contexts[0]);
      InsertRefines(c.procs, p);
      if IsLive(c, sc.process) {
        PutRefines(c.procs, sc.process.value, p);
      }
    }
  }

  // ----- what becomes of every context that is offered -----

  datatype Fate = Held | Begun | Refused | Thrown

  /** All contexts that were offered, in order, and what has become of each. */
  type Ledger = seq<(Context, Fate)>

  /** The first context that waits is started. */
  function Begin(f: Ledger): (r: Ledger)
    ensures |r| == |f|
  {
    if f == [] then [] else if f[0].1 == Held then [(f[0].0, Begun)] + f[1..] else [f[0]] + Begin(f[1..])
  }

  function Throw(f: Ledger): Ledger {
    seq(|f|, i requires 0 <= i < |f| => if f[i].1 == Held then (f[i].0, Thrown) else f[i])
  }

  function Note(f: Ledger, h: Happening): Ledger {
    match h
    case Offers(c) => f + [(c, Held)]
    case Starts(_) => Begin(f)
    case Refuses => if f == [] then f else f[|f| - 1 := (f[|f| - 1].0, Refused)]
    case Throws => Throw(f)
  }

  function Noted(f: Ledger, hs: seq<Happening>): Ledger
    decreases |hs|
  {
    if hs == [] then f else Noted(Note(f, hs[0]), hs[1..])
  }

  function Offered(f: Ledger): seq<Context> {
    seq(|f|, i requires 0 <= i < |f| => f[i].0)
  }

  /** The contexts with a fate, in the order in which they were offered. */
  function Pick(f: Ledger, fate: Fate): seq<Context> {
    if f == [] then [] else (if f[0].1 == fate then [f[0].0] else []) + Pick(f[1..], fate)
  }

  /** The contexts that were neither refused nor thrown away. */
  function Kept(f: Ledger): seq<Context> {
    if f == [] then [] else (if f[0].1 == Held || f[0].1 == Begun then [f[0].0] else []) + Kept(f[1..])
  }

  /** No context waits in front of one that was started. */
  ghost predicate FirstInFirstOut(f: Ledger) {
    forall i, j :: 0 <= i < j < |f| ==> !(f[i].1 == Held && f[j].1 == Begun)
  }

  function OffersIn(hs: seq<Happening>): seq<Context> {
    if hs == [] then [] else (if hs[0].Offers? then [hs[0].c] else []) + OffersIn(hs[1..])
  }

  function StartsIn(hs: seq<Happening>): seq<Context> {
    if hs == [] then [] else (if hs[0].Starts? then [hs[0].c] else []) + StartsIn(hs[1..])
  }

  lemma PickFirst(e: (Context, Fate), f: Ledger, fate: Fate)
    ensures Pick([e] + f, fate) == (if e.1 == fate then [e.0] else []) + Pick(f, fate)
  {
    assert ([e] + f)[1..] == f;
  }

  lemma {:induction false} PickAdd(f: Ledger, g: Ledger, fate: Fate)
    ensures Pick(f + g, fate) == Pick(f, fate) + Pick(g, fate)
    decreases |f|
  {
    if f == [] {
      assert f + g == g;
    } else {
      var e, rest := f[0], f[1..];
      PickAdd(rest, g, fate);
      hide Pick;
      PickFirst(e, rest, fate);
      PickFirst(e, rest + g, fate);
      assert [e] + rest == f && [e] + (rest + g) == f + g;
    }
  }

  lemma PickOne(c: Context, fate: Fate, which: Fate)
    ensures Pick([(c, fate)], which) == if fate == which then [c] else []
  {
    assert [(c, fate)][1..] == [];
  }

  lemma {:induction false} NonePicked(f: Ledger, fate: Fate)
    requires forall i :: 0 <= i < |f| ==> f[i].1 != fate
    ensures Pick(f, fate) == []
    decreases |f|
  {
    if f != [] {
      NonePicked(f[1..], fate);
    }
  }

  lemma {:induction false} BeginPicks(f: Ledger)
    requires FirstInFirstOut(f) && Pick(f, Held) != []
    ensures Pick(Begin(f), Held) == Pick(f, Held)[1..]
    ensures Pick(Begin(f), Begun) == Pick(f, Begun) + [Pick(f, Held)[0]]
    ensures FirstInFirstOut(Begin(f))
    ensures forall j :: 0 <= j < |f| && Begin(f)[j].1 == Held ==> f[j].1 == Held
    decreases |f|
  {
    var r := Begin(f);
    if f[0].1 == Held {
      assert r[1..] == f[1..];
      forall j | 0 <= j < |f[1..]| ensures f[1..][j].1 != Begun {
        assert f[1..][j] == f[j + 1];
      }
      NonePicked(f[1..], Begun);
    } else {
      assert r[1..] == Begin(f[1..]);
      BeginPicks(f[1..]);
      assert forall j :: 0 < j < |f| ==> r[j] == Begin(f[1..])[j - 1] && f[j] == f[1..][j - 1];
    }
  }

  lemma {:induction false} BeginOffers(f: Ledger)
    ensures Offered(Begin(f)) == Offered(f)
    decreases |f|
  {
    if f != [] && f[0].1 != Held {
      BeginOffers(f[1..]);
      assert forall j :: 0 < j < |f| ==> f[j] == f[1..][j - 1];
      forall j | 0 <= j < |f| ensures Begin(f)[j].0 == f[j].0 {
        if 0 < j {
          assert Offered(Begin(f[1..]))[j - 1] == Offered(f[1..])[j - 1];
        }
      }
    }
  }

  /** The first context that waits is not the last of the ledger if others wait. */
  lemma {:induction false} BeginAdd(f: Ledger, g: Ledger)
    requires Pick(f, Held) != []
    ensures Begin(f + g) == Begin(f) + g
    decreases |f|
  {
    assert (f + g)[0] == f[0] && (f + g)[1..] == f[1..] + g;
    if f[0].1 != Held {
      BeginAdd(f[1..], g);
    }
  }

  lemma {:induction false} ThrowPicks(f: Ledger)
    ensures Pick(Throw(f), Held) == [] && Pick(Throw(f), Begun) == Pick(f, Begun) && Offered(Throw(f)) == Offered(f)
    decreases |f|
  {
    if f != [] {
      assert Throw(f)[1..] == Throw(f[1..]);
      ThrowPicks(f[1..]);
    }
  }

  // ----- logs and queues -----

  ghost predicate Tallies(f: Ledger, cs: seq<Context>) {
    FirstInFirstOut(f) && Pick(f, Held) == cs
  }

  /** From any ledger for the waiting contexts `cs`, noting what happens gives a ledger for `cs'`. */
  ghost predicate Leads(cs: seq<Context>, hs: seq<Happening>, cs': seq<Context>) {
    forall f: Ledger {:trigger Noted(f, hs)} :: Tallies(f, cs) ==>
      Tallies(Noted(f, hs), cs') && Pick(Noted(f, hs), Begun) == Pick(f, Begun) + StartsIn(hs)
        && Offered(Noted(f, hs)) == Offered(f) + OffersIn(hs)
  }

  lemma {:induction false} NotedAdd(f: Ledger, a: seq<Happening>, b: seq<Happening>)
    ensures Noted(f, a + b) == Noted(Noted(f, a), b)
    decreases |a|
  {
    hide Note;
    if a == [] {
      assert a + b == b;
    } else {
      assert (a + b)[0] == a[0] && (a + b)[1..] == a[1..] + b;
      NotedAdd(Note(f, a[0]), a[1..], b);
    }
  }

  lemma {:induction false} StartsInAdd(a: seq<Happening>, b: seq<Happening>)
    ensures StartsIn(a + b) == StartsIn(a) + StartsIn(b)
    decreases |a|
  {
    if a == [] {
      assert a + b == b;
    } else {
      assert (a + b)[0] == a[0] && (a + b)[1..] == a[1..] + b;
      StartsInAdd(a[1..], b);
    }
  }

  lemma {:induction false} OffersInAdd(a: seq<Happening>, b: seq<Happening>)
    ensures OffersIn(a + b) == OffersIn(a) + OffersIn(b)
    decreases |a|
  {
    if a == [] {
      assert a + b == b;
    } else {
      assert (a + b)[0] == a[0] && (a + b)[1..] == a[1..] + b;
      OffersInAdd(a[1..], b);
    }
  }

  lemma InAdd(a: seq<Happening>, b: seq<Happening>)
    ensures StartsIn(a + b) == StartsIn(a) + StartsIn(b) && OffersIn(a + b) == OffersIn(a) + OffersIn(b)
  {
    hide StartsIn, OffersIn;
    StartsInAdd(a, b);
    OffersInAdd(a, b);
  }

  lemma Stays(cs: seq<Context>)
    ensures Leads(cs, [], cs)
  {
  }

  lemma LeadsOn(cs: seq<Context>, a: seq<Happening>, cs1: seq<Context>, b: seq<Happening>, cs2: seq<Context>)
    requires Leads(cs, a, cs1) && Leads(cs1, b, cs2)
    ensures Leads(cs, a + b, cs2)
  {
    hide Tallies, Pick, Offered, Noted, StartsIn, OffersIn;
    forall f: Ledger | Tallies(f, cs)
      ensures Tallies(Noted(f, a + b), cs2) && Pick(Noted(f, a + b), Begun) == Pick(f, Begun) + StartsIn(a + b)
              && Offered(Noted(f, a + b)) == Offered(f) + OffersIn(a + b)
    {
      NotedAdd(f, a, b);
      InAdd(a, b);
      var g := Noted(f, a);
      assert Tallies(g, cs1);
      assert Tallies(Noted(g, b), cs2);
      assert Pick(f, Begun) + (StartsIn(a) + StartsIn(b)) == Pick(f, Begun) + StartsIn(a) + StartsIn(b);
      assert Offered(f) + (OffersIn(a) + OffersIn(b)) == Offered(f) + OffersIn(a) + OffersIn(b);
    }
  }

  /** A single happening. */
  lemma NotedOne(f: Ledger, h: Happening)
    ensures Noted(f, [h]) == Note(f, h)
    ensures StartsIn([h]) == (if h.Starts? then [h.c] else []) && OffersIn([h]) == if h.Offers? then [h.c] else []
  {
    assert [h][1..] == [];
  }

  lemma StartLeads(cs: seq<Context>)
    requires cs != []
    ensures Leads(cs, [Starts(cs[0])], cs[1..])
  {
    hide Noted, Pick, FirstInFirstOut, Begin, StartsIn, OffersIn;
    forall f: Ledger | Tallies(f, cs)
      ensures Tallies(Noted(f, [Starts(cs[0])]), cs[1..])
      ensures Pick(Noted(f, [Starts(cs[0])]), Begun) == Pick(f, Begun) + StartsIn([Starts(cs[0])])
      ensures Offered(Noted(f, [Starts(cs[0])])) == Offered(f) + OffersIn([Starts(cs[0])])
    {
      NotedOne(f, Starts(cs[0]));
      BeginPicks(f);
      BeginOffers(f);
    }
  }

  lemma ThrowLeads(cs: seq<Context>)
    ensures Leads(cs, [Throws], [])
  {
    hide Noted, Pick, Throw, StartsIn, OffersIn;
    forall f: Ledger | Tallies(f, cs)
      ensures Tallies(Noted(f, [Throws]), [])
      ensures Pick(Noted(f, [Throws]), Begun) == Pick(f, Begun) + StartsIn([Throws])
      ensures Offered(Noted(f, [Throws])) == Offered(f) + OffersIn([Throws])
    {
      NotedOne(f, Throws);
      ThrowPicks(f);
      NoneHeld(f);
    }
  }

  lemma NoneHeld(f: Ledger)
    ensures FirstInFirstOut(Throw(f))
  {
  }

  lemma OfferTallies(f: Ledger, cs: seq<Context>, ctx: Context)
    requires Tallies(f, cs)
    ensures Tallies(f + [(ctx, Held)], cs + [ctx]) && Pick(f + [(ctx, Held)], Begun) == Pick(f, Begun)
  {
    hide Pick;
    PickAdd(f, [(ctx, Held)], Held);
    PickAdd(f, [(ctx, Held)], Begun);
    PickOne(ctx, Held, Held);
    PickOne(ctx, Held, Begun);
  }

  lemma OfferLeads(cs: seq<Context>, ctx: Context)
    ensures Leads(cs, [Offers(ctx)], cs + [ctx])
  {
    hide Tallies, Noted, Pick, StartsIn, OffersIn;
    forall f: Ledger | Tallies(f, cs)
      ensures Tallies(Noted(f, [Offers(ctx)]), cs + [ctx])
      ensures Pick(Noted(f, [Offers(ctx)]), Begun) == Pick(f, Begun) + StartsIn([Offers(ctx)])
      ensures Offered(Noted(f, [Offers(ctx)])) == Offered(f) + OffersIn([Offers(ctx)])
    {
      NotedOne(f, Offers(ctx));
      OfferTallies(f, cs, ctx);
    }
  }

  /** Refusing the context that was offered last takes it out again. */
  lemma RefuseTallies(f: Ledger, ctx: Context, cs: seq<Context>)
    requires Tallies(f + [(ctx, Held)], cs)
    ensures cs != [] && Tallies(f + [(ctx, Refused)], cs[..|cs| - 1])
    ensures Pick(f + [(ctx, Refused)], Begun) == Pick(f + [(ctx, Held)], Begun)
    ensures Offered(f + [(ctx, Refused)]) == Offered(f + [(ctx, Held)])
    ensures Note(f + [(ctx, Held)], Refuses) == f + [(ctx, Refused)]
  {
    hide Pick;
    var g, r := f + [(ctx, Held)], f + [(ctx, Refused)];
    PickAdd(f, [(ctx, Held)], Held);
    PickAdd(f, [(ctx, Refused)], Held);
    PickAdd(f, [(ctx, Held)], Begun);
    PickAdd(f, [(ctx, Refused)], Begun);
    PickOne(ctx, Held, Held);
    PickOne(ctx, Held, Begun);
    PickOne(ctx, Refused, Held);
    PickOne(ctx, Refused, Begun);
    assert forall i :: 0 <= i < |f| ==> g[i] == f[i] && r[i] == f[i];
    assert g[|g| - 1 := (ctx, Refused)] == r;
  }

  /** A context that is offered and refused at once, whether an older one is started in between or not. */
  lemma RefusedLeads(cs: seq<Context>, ctx: Context)
    ensures Leads(cs, [Offers(ctx), Refuses], cs)
    ensures cs != [] ==> Leads(cs, [Offers(ctx), Starts(cs[0]), Refuses], cs[1..])
  {
    hide Tallies, Noted, Pick, StartsIn, OffersIn, Begin, Offered;
    forall f: Ledger | Tallies(f, cs)
      ensures Tallies(Noted(f, [Offers(ctx), Refuses]), cs)
      ensures Pick(Noted(f, [Offers(ctx), Refuses]), Begun) == Pick(f, Begun) + StartsIn([Offers(ctx), Refuses])
      ensures Offered(Noted(f, [Offers(ctx), Refuses])) == Offered(f) + OffersIn([Offers(ctx), Refuses])
    {
      assert [Offers(ctx)] + [Refuses] == [Offers(ctx), Refuses];
      NotedAdd(f, [Offers(ctx)], [Refuses]);
      InAdd([Offers(ctx)], [Refuses]);
      NotedOne(f, Offers(ctx));
      NotedOne(f + [(ctx, Held)], Refuses);
      OfferTallies(f, cs, ctx);
      RefuseTallies(f, ctx, cs + [ctx]);
      OfferedAdd(f, ctx);
    }
    if cs != [] {
      var hs := [Offers(ctx), Starts(cs[0]), Refuses];
      forall f: Ledger | Tallies(f, cs)
        ensures Tallies(Noted(f, hs), cs[1..])
        ensures Pick(Noted(f, hs), Begun) == Pick(f, Begun) + StartsIn(hs)
        ensures Offered(Noted(f, hs)) == Offered(f) + OffersIn(hs)
      {
        RefusedBehind(f, cs, ctx);
      }
    }
  }

  lemma OfferedAdd(f: Ledger, ctx: Context)
    ensures Offered(f + [(ctx, Held)]) == Offered(f) + [ctx]
  {
  }

  lemma RefusedBehind(f: Ledger, cs: seq<Context>, ctx: Context)
    requires cs != [] && Tallies(f, cs)
    ensures var hs := [Offers(ctx), Starts(cs[0]), Refuses];
            && Tallies(Noted(f, hs), cs[1..])
            && Pick(Noted(f, hs), Begun) == Pick(f, Begun) + StartsIn(hs)
            && Offered(Noted(f, hs)) == Offered(f) + OffersIn(hs)
  {
    hide Noted, Pick, StartsIn, OffersIn, Begin, Offered, FirstInFirstOut;
    var hs := [Offers(ctx), Starts(cs[0]), Refuses];
    var f1 := f + [(ctx, Held)];
    assert [Offers(ctx), Starts(cs[0])] == [Offers(ctx)] + [Starts(cs[0])];
    assert hs == [Offers(ctx), Starts(cs[0])] + [Refuses];
    NotedAdd(f, [Offers(ctx), Starts(cs[0])], [Refuses]);
    NotedAdd(f, [Offers(ctx)], [Starts(cs[0])]);
    InAdd([Offers(ctx), Starts(cs[0])], [Refuses]);
    InAdd([Offers(ctx)], [Starts(cs[0])]);
    NotedOne(f, Offers(ctx));
    NotedOne(f1, Starts(cs[0]));
    OfferTallies(f, cs, ctx);
    BeginPicks(f1);
    BeginOffers(f1);
    BeginAdd(f, [(ctx, Held)]);
    OfferedAdd(f, ctx);
    var rest := cs[1..] + [ctx];
    assert (cs + [ctx])[1..] == rest && rest[..|rest| - 1] == cs[1..];
    RefuseTallies(Begin(f), ctx, rest);
    NotedOne(Begin(f) + [(ctx, Held)], Refuses);
  }

  lemma ConsumeLeads(c: Core, sc: Script)
    requires ValidSlots(c.procs)
    ensures Leads(sc.contexts, ConsumeLog(c, sc), Consume(c, sc).1.contexts)
  {
    hide ValidSlots, Get, Inserted, Leads;
    Stays(sc.contexts);
    if sc.contexts != [] {
      StartLeads(sc.contexts);
    }
  }

  lemma ScheduleLeads(c: Core, sc: Script, ctx: Context, max: Option<nat>)
    requires ValidSlots(c.procs)
    ensures Leads(sc.contexts, ScheduleLog(c, sc, ctx, max), Schedule(c, sc, ctx, max).1.contexts)
  {
    hide ValidSlots, Get, Inserted, Leads;
    var cs := sc.contexts;
    var sc1 := sc.(contexts := cs + [ctx]);
    var rest := Consume(c, sc1).1.contexts;
    ConsumeLeads(c, sc1);
    OfferLeads(cs, ctx);
    LeadsOn(cs, [Offers(ctx)], cs + [ctx], ConsumeLog(c, sc1), rest);
    if max.Some? && |rest| > max.value {
      RefusedLeads(cs, ctx);
      if ConsumeLog(c, sc1) == [] {
        assert [Offers(ctx)] + [] + [Refuses] == [Offers(ctx), Refuses];
        assert (cs + [ctx])[..|cs|] == cs;
      } else {
        assert cs != [] && (cs + [ctx])[0] == cs[0];
        assert [Offers(ctx)] + [Starts(cs[0])] + [Refuses] == [Offers(ctx), Starts(cs[0]), Refuses];
        assert (cs + [ctx])[1..] == cs[1..] + [ctx] && (cs[1..] + [ctx])[..|cs| - 1] == cs[1..];
      }
    } else {
      assert [Offers(ctx)] + ConsumeLog(c, sc1) + [] == [Offers(ctx)] + ConsumeLog(c, sc1);
    }
  }

  // ----- projects -----

  /** The contexts waiting in script `s`, if there is such a script. */
  function Waits(p: Project_, s: nat): seq<Context> {
    if s < |p.scripts| then p.scripts[s].contexts else []
  }

  lemma {:induction false} ConsumeAllLeads(p: Project_, i: nat, s: nat)
    requires ValidSlots(p.core.procs)
    ensures Leads(Waits(p, s), ConsumeAllLog(p, i, s), Waits(ConsumeAll(p, i), s))
    decreases |p.scripts| - i
  {
    hide ValidSlots, Get, Leads, Consume, ConsumeLog;
    Stays(Waits(p, s));
    if i < |p.scripts| {
      ConsumeNext(p, i);
      ConsumeLeads(p.core, p.scripts[i]);
      var q := ConsumeOne(p, i);
      ConsumeAllLeads(q, i + 1, s);
      LeadsOn(Waits(p, s), if i == s then ConsumeLog(p.core, p.scripts[i]) else [], Waits(q, s),
              ConsumeAllLog(q, i + 1, s), Waits(ConsumeAll(p, i), s));
    }
  }

  lemma OnceLeads(p: Project_, did: bool, s: nat)
    requires ValidSlots(p.core.procs)
    ensures Leads(Waits(p, s), OnceLog(p, did, s), Waits(Once(p, did), s))
  {
    hide ValidSlots, Leads, ConsumeAll, ConsumeAllLog;
    Stays(Waits(p, s));
    ConsumeAllLeads(p, 0, s);
  }

  lemma OfferOneLeads(p: Project_, o: Offer, i: nat)
    requires ValidSlots(p.core.procs) && i < |p.scripts|
    ensures Leads(Waits(p, i), OfferOneLog(p, o, i), Waits(OfferOne(p, o, i), i))
    ensures forall s: nat :: s != i ==> Waits(OfferOne(p, o, i), s) == Waits(p, s)
  {
    hide ValidSlots, Get, Leads, Schedule, ScheduleLog, Removed;
    var r := Receiving(p, o, i);
    Stays(Waits(p, i));
    ThrowLeads(Waits(p, i));
    ScheduleLeads(r.core, r.scripts[i], o.ctx, o.max);
    assert OfferOne(p, o, i) == ScheduleScript(r, i, o.ctx, o.max);
    LeadsOn(Waits(p, i), if o.interrupt then [Throws] else [], Waits(r, i),
            ScheduleLog(r.core, r.scripts[i], o.ctx, o.max), Waits(OfferOne(p, o, i), i));
  }

  lemma {:induction false} OfferAllLeads(p: Project_, o: Offer, i: nat, did: bool, s: nat)
    requires ValidSlots(p.core.procs)
    ensures Leads(Waits(p, s), OfferAllLog(p, o, i, did, s), Waits(OfferAll(p, o, i, did).0, s))
    decreases |p.scripts| - i
  {
    hide ValidSlots, Get, Leads, Once, OnceLog, OfferOne, OfferOneLog, Waits;
    Stays(Waits(p, s));
    if i < |p.scripts| {
      if o.to(p.scripts[i]) {
        var p1 := Once(p, did);
        var p2 := OfferOne(p1, o, i);
        var one := if i == s then OfferOneLog(p1, o, i) else [];
        OnceLeads(p, did, s);
        OfferOneLeads(p1, o, i);
        Stays(Waits(p1, s));
        OfferAllLeads(p2, o, i + 1, true, s);
        LeadsOn(Waits(p, s), OnceLog(p, did, s), Waits(p1, s), one, Waits(p2, s));
        LeadsOn(Waits(p, s), OnceLog(p, did, s) + one, Waits(p2, s), OfferAllLog(p2, o, i + 1, true, s),
                Waits(OfferAll(p, o, i, did).0, s));
      } else {
        OfferAllLeads(p, o, i + 1, did, s);
      }
    }
  }

  /** The contexts waiting in script `s` when the scripts of a clone have joined those there are. */
  function WaitsWith(p: Project_, young: seq<Script>, s: nat): seq<Context> {
    Waits(p.(scripts := p.scripts + young), s)
  }

  lemma WithYoung(p: Project_, young: seq<Script>, s: nat)
    ensures WaitsWith(p, young, s) == if s < |p.scripts| then Waits(p, s)
                                      else if s - |p.scripts| < |young| then young[s - |p.scripts|].contexts else []
  {
  }

  lemma {:induction false} StartCloneLeads(p: Project_, young: seq<Script>, i: nat, did: bool, s: nat)
    requires ValidSlots(p.core.procs)
    ensures var (q, grown, _) := StartClone(p, young, i, did);
            Leads(WaitsWith(p, young, s), StartCloneLog(p, young, i, did, s), WaitsWith(q, grown, s))
    decreases |young| - i
  {
    hide ValidSlots, Get, Leads, Once, OnceLog, Schedule, ScheduleLog, WaitsWith, Waits;
    Stays(WaitsWith(p, young, s));
    if i < |young| {
      if young[i].event.OnClone? {
        var ctx := Context(0, None);
        var p1 := Once(p, did);
        ScheduleValid(p1.core, young[i], ctx, Some(0));
        var (c, sc) := Schedule(p1.core, young[i], ctx, Some(0));
        var p2, young2 := p1.(core := c), young[i := sc];
        var one := if s == |p.scripts| + i then ScheduleLog(p1.core, young[i], ctx, Some(0)) else [];
        WithYoung(p, young, s);
        WithYoung(p1, young, s);
        WithYoung(p2, young2, s);
        SameWaits(p1, p2, s);
        OnceLeads(p, did, s);
        NothingOnce(p, did, s);
        Stays(WaitsWith(p1, young, s));
        ScheduleLeads(p1.core, young[i], ctx, Some(0));
        StartCloneLeads(p2, young2, i + 1, true, s);
        var (q, grown, _) := StartClone(p, young, i, did);
        LeadsOn(WaitsWith(p, young, s), OnceLog(p, did, s), WaitsWith(p1, young, s), one, WaitsWith(p2, young2, s));
        LeadsOn(WaitsWith(p, young, s), OnceLog(p, did, s) + one, WaitsWith(p2, young2, s),
                StartCloneLog(p2, young2, i + 1, true, s), WaitsWith(q, grown, s));
      } else {
        StartCloneLeads(p, young, i + 1, did, s);
      }
    }
  }

  lemma SameWaits(p: Project_, q: Project_, s: nat)
    requires q.scripts == p.scripts
    ensures Waits(q, s) == Waits(p, s)
  {
  }

  /** Looking at the scripts there are does nothing to those that are not there yet. */
  lemma {:induction false} NothingConsumed(p: Project_, i: nat, s: nat)
    requires ValidSlots(p.core.procs) && s >= |p.scripts|
    ensures ConsumeAllLog(p, i, s) == []
    decreases |p.scripts| - i
  {
    hide ValidSlots, Consume, ConsumeLog;
    if i < |p.scripts| {
      NothingConsumed(ConsumeOne(p, i), i + 1, s);
    }
  }

  lemma NothingOnce(p: Project_, did: bool, s: nat)
    requires ValidSlots(p.core.procs)
    ensures s >= |p.scripts| ==> OnceLog(p, did, s) == []
  {
    hide ValidSlots, ConsumeAllLog;
    if s >= |p.scripts| {
      NothingConsumed(p, 0, s);
    }
  }

  lemma ReactLeads(p: Project_, k: Key, act: Act, did: bool, s: nat)
    requires ValidSlots(p.core.procs) && Get(p.core.procs, k).Some?
    ensures Leads(Waits(p, s), ReactLog(p, k, act, did, s), Waits(React(p, k, act, did).0, s))
  {
    hide ValidSlots, Get, Leads, Once, OnceLog, OfferAll, OfferAllLog, StartClone, StartCloneLog, Retire, Inserted;
    hide ClonedScripts, Outgoing;
    Stays(Waits(p, s));
    if act.Yields? {
      OnceLeads(p, did, s);
    } else if act.Forks? {
      var proc := Started(act.start, Context(act.payload, None));
      InsertRefines(p.core.procs, proc);
      OnceLeads(p.(core := p.core.(procs := Inserted(p.core.procs, proc).0)), did, s);
    } else if act.Clones? {
      var young := ClonedScripts(p.scripts, act.root, act.entity);
      StartCloneLeads(p, young, 0, did, s);
      ClonedIdle(p.scripts, act.root, act.entity);
      YoungIdle(p, young, s);
    } else if act.Broadcasts? {
      OfferAllLeads(Sending(p, k, act), Outgoing(act, Ticket(p, act)), 0, did, s);
    } else if Ending(act) {
      OnceLeads(Retire(p, k), did, s);
    }
  }

  lemma YoungIdle(p: Project_, young: seq<Script>, s: nat)
    requires AllIdle(young)
    ensures WaitsWith(p, young, s) == Waits(p, s)
  {
    if |p.scripts| <= s < |p.scripts| + |young| {
      assert (p.scripts + young)[s] == young[s - |p.scripts|];
    }
  }

  lemma {:induction false} StopsThrow(p: Project_, i: nat, s: nat)
    requires ValidSlots(p.core.procs)
    ensures Waits(StopScripts(p, i), s) == if i <= s then [] else Waits(p, s)
    decreases |p.scripts| - i
  {
    hide ValidSlots, Removed, Get;
    if i < |p.scripts| {
      StopsThrow(StopScript(p, i), i + 1, s);
    }
  }

  lemma MoveLeads(p: Project_, m: Move, s: nat)
    requires ValidSlots(p.core.procs)
    ensures Leads(Waits(p, s), MoveLog(p, m, s), Waits(Moved(p, m), s))
  {
    hide ValidSlots, Get, Leads, OfferAll, OfferAllLog, StopScripts, React, ReactLog, PopLive, Cleared, HeldBy;
    Stays(Waits(p, s));
    match m {
      case Enter(input) =>
        if input.Stop? {
          StopsThrow(p, 0, s);
          ThrowLeads(Waits(p, s));
        } else {
          OfferAllLeads(p, OfferOf(input), 0, false, s);
        }
      case Tick(msg, act) => TickLeads(p, msg, act, s);
    }
  }

  lemma TickLeads(p: Project_, msg: Option<Message>, act: Act, s: nat)
    requires ValidSlots(p.core.procs)
    ensures Leads(Waits(p, s), MoveLog(p, Tick(msg, act), s), Waits(Step(p, msg, act).0, s))
  {
    hide ValidSlots, Get, Leads, OfferAll, OfferAllLog, React, ReactLog, PopLive;
    var first := if msg.Some? then OfferAllLog(p, Incoming(msg.value), 0, false, s) else [];
    var p1 := Delivered(p, msg).0;
    Stays(Waits(p, s));
    Stays(Waits(p1, s));
    if msg.Some? {
      OfferAllLeads(p, Incoming(msg.value), 0, false, s);
    }
    if Picked(p, msg).Some? {
      var (h, done) := InHand(p, msg, act);
      var k, did := Picked(p, msg).value, Delivered(p, msg).1;
      StepUnfolds(p, msg, act);
      ReactLeads(h, k, done, did, s);
      LeadsOn(Waits(p, s), first, Waits(p1, s), ReactLog(h, k, done, did, s), Waits(Step(p, msg, act).0, s));
    } else {
      assert first + [] == first;
    }
  }

  lemma {:induction false} RunLeads(p: Project_, ms: seq<Move>, s: nat)
    requires ValidSlots(p.core.procs)
    ensures Leads(Waits(p, s), RunLog(p, ms, s), Waits(Ran(p, ms), s))
    decreases |ms|
  {
    hide ValidSlots, Leads, Moved, MoveLog, Waits;
    Stays(Waits(p, s));
    if ms != [] {
      var q := Moved(p, ms[0]);
      MoveLeads(p, ms[0], s);
      RunLeads(q, ms[1..], s);
      LeadsOn(Waits(p, s), MoveLog(p, ms[0], s), Waits(q, s), RunLog(q, ms[1..], s), Waits(Ran(p, ms), s));
    }
  }

  lemma TailInOrder(f: Ledger)
    requires FirstInFirstOut(f) && f != []
    ensures FirstInFirstOut(f[1..])
    ensures f[0].1 == Held ==> forall j :: 0 <= j < |f[1..]| ==> f[1..][j].1 != Begun
  {
    var rest := f[1..];
    assert forall j :: 0 <= j < |rest| ==> rest[j] == f[j + 1];
  }

  lemma FirstFate(f: Ledger)
    requires f != []
    ensures forall fate :: Pick(f, fate) == (if f[0].1 == fate then [f[0].0] else []) + Pick(f[1..], fate)
    ensures Kept(f) == (if f[0].1 == Held || f[0].1 == Begun then [f[0].0] else []) + Kept(f[1..])
  {
  }

  lemma KeptNone()
    ensures Kept([]) == Pick([], Begun) + Pick([], Held)
  {
  }

  lemma {:induction false} KeptIs(f: Ledger)
    requires FirstInFirstOut(f)
    ensures Kept(f) == Pick(f, Begun) + Pick(f, Held)
    decreases |f|
  {
    hide FirstInFirstOut, Kept, Pick;
    if f == [] {
      KeptNone();
    } else {
      TailInOrder(f);
      KeptIs(f[1..]);
      FirstFate(f);
      if f[0].1 == Held {
        NonePicked(f[1..], Begun);
      }
    }
  }

  /** Over every run, the contexts that a script has started, followed by those that wait, are those that were offered
      to it, in order, less those that were refused or thrown away. */
  lemma StartedInOrder(templates: seq<Template>, ms: seq<Move>, s: nat)
    ensures var p := FromInit(templates);
            var hs := RunLog(p, ms, s);
            var f := Noted([], hs);
            && Offered(f) == OffersIn(hs) && FirstInFirstOut(f)
            && Pick(f, Begun) == StartsIn(hs) && Pick(f, Held) == Waits(Ran(p, ms), s)
            && StartsIn(hs) + Waits(Ran(p, ms), s) == Kept(f)
  {
    hide Ran, RunLog, Kept, OffersIn, StartsIn;
    var p := FromInit(templates);
    FromInitGood(templates);
    RunLeads(p, ms, s);
    assert Tallies([], Waits(p, s));
    var f := Noted([], RunLog(p, ms, s));
    KeptIs(f);
    assert Offered([]) == [] && Pick([], Begun) == [];
  }

  // ----- what an input offers -----

  lemma {:induction false} LookingOffers(p: Project_, i: nat, s: nat)
    requires ValidSlots(p.core.procs)
    ensures OffersIn(ConsumeAllLog(p, i, s)) == []
    decreases |p.scripts| - i
  {
    hide ValidSlots, Get, Consume;
    if i < |p.scripts| {
      var one := if i == s then ConsumeLog(p.core, p.scripts[i]) else [];
      LookingOffers(ConsumeOne(p, i), i + 1, s);
      OffersInAdd(one, ConsumeAllLog(ConsumeOne(p, i), i + 1, s));
      ConsumingOffers(p.core, p.scripts[i]);
    }
  }

  lemma ConsumingOffers(c: Core, sc: Script)
    ensures OffersIn(ConsumeLog(c, sc)) == []
  {
    hide Get;
    if sc.contexts != [] {
      NotedOne([], Starts(sc.contexts[0]));
    }
  }

  lemma SchedulingOffers(c: Core, sc: Script, ctx: Context, max: Option<nat>)
    requires ValidSlots(c.procs)
    ensures OffersIn(ScheduleLog(c, sc, ctx, max)) == [ctx]
  {
    hide ValidSlots, Get, Consume, ConsumeLog, OffersIn;
    var sc1 := sc.(contexts := sc.contexts + [ctx]);
    var full := max.Some? && |Consume(c, sc1).1.contexts| > max.value;
    var log, end: seq<Happening> := ConsumeLog(c, sc1), if full then [Refuses] else [];
    NotedOne([], Refuses);
    NotedOne([], Offers(ctx));
    NoneOffered();
    ConsumingOffers(c, sc1);
    OffersInAdd([Offers(ctx)], log);
    OffersInAdd([Offers(ctx)] + log, end);
  }

  lemma OneOffers(p: Project_, o: Offer, i: nat)
    requires ValidSlots(p.core.procs) && i < |p.scripts|
    ensures OffersIn(OfferOneLog(p, o, i)) == [o.ctx]
  {
    hide ValidSlots, Get, Receiving, ScheduleLog, OffersIn;
    var r := Receiving(p, o, i);
    var first: seq<Happening> := if o.interrupt then [Throws] else [];
    NotedOne([], Throws);
    NoneOffered();
    SchedulingOffers(r.core, r.scripts[i], o.ctx, o.max);
    OffersInAdd(first, ScheduleLog(r.core, r.scripts[i], o.ctx, o.max));
  }

  lemma NoneOffered()
    ensures OffersIn([]) == []
  {
  }

  lemma {:induction false} AllOffers(p: Project_, o: Offer, i: nat, did: bool, s: nat)
    requires Good(p, NOBODY, NO_HANDLES) && Steady(o) && o.ctx.barrier.None?
    ensures OffersIn(OfferAllLog(p, o, i, did, s))
            == if i <= s < |p.scripts| && o.to(p.scripts[s]) then [o.ctx] else []
    decreases |p.scripts| - i
  {
    hide ValidSlots, Good, Get, OfferOne, OfferOneLog, Once, OnceLog, OnlyScript, OffersIn;
    GoodValid(p, NOBODY, NO_HANDLES);
    NoneOffered();
    if i < |p.scripts| {
      if o.to(p.scripts[i]) {
        var p1 := Once(p, did);
        OnceGood(p, did, NOBODY, NO_HANDLES);
        OnceBarrier(p, did, NOBODY, NO_HANDLES);
        GoodValid(p1, NOBODY, NO_HANDLES);
        OfferOneGood(p1, o, i, NOBODY, NO_HANDLES);
        var p2 := OfferOne(p1, o, i);
        SameAfter(p, p1, p2, i);
        AllOffers(p2, o, i + 1, true, s);
        OnceOffers(p, did, s);
        OneOffers(p1, o, i);
        var one := if i == s then OfferOneLog(p1, o, i) else [];
        OffersInAdd(OnceLog(p, did, s), one);
        OffersInAdd(OnceLog(p, did, s) + one, OfferAllLog(p2, o, i + 1, true, s));
      } else {
        AllOffers(p, o, i + 1, did, s);
      }
    }
  }

  lemma OnceOffers(p: Project_, did: bool, s: nat)
    requires ValidSlots(p.core.procs)
    ensures OffersIn(OnceLog(p, did, s)) == []
  {
    hide ValidSlots, ConsumeAllLog;
    LookingOffers(p, 0, s);
  }

  /** In the log of a run, an input offers its context once to each script that it is for, and nothing to any other. */
  lemma InputOffers(p: Project_, input: Input, s: nat)
    requires Good(p, NOBODY, NO_HANDLES) && s < |p.scripts|
    ensures OffersIn(MoveLog(p, Enter(input), s))
            == if Invited(p.scripts[s], input) then [Context(if input.Custom? then input.payload else 0, None)] else []
  {
    hide ValidSlots, Good, Get, OfferAllLog, OffersIn;
    GoodValid(p, NOBODY, NO_HANDLES);
    if input.Stop? {
      NotedOne([], Throws);
    } else {
      var o := OfferOf(input);
      assert Steady(o);
      AllOffers(p, o, 0, false, s);
      assert o.to(p.scripts[s]) <==> Invited(p.scripts[s], input);
    }
  }
}

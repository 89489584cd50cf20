/** The cooperative scheduler of a project: scripts with queues of contexts, processes in a slot map, and a
    queue of process keys. Every operation is given as a function on the project's state. */
module Scheduler {
  import opened Common
  import opened SlotMaps

  /** What a process is started with: its variables and message (as one payload), and the handle that
      keeps a waiting broadcast from going on. */
  datatype Context = Context(payload: nat, barrier: Option<nat>)

  /** A process, as far as scheduling is concerned. `waits` is the broadcast it waits for. */
  datatype Proc = Proc(start: nat, payload: nat, running: bool, barrier: Option<nat>, waits: Option<nat>)

  datatype Event =
    | OnFlag
    | OnKey(filter: Option<nat>)
    | CustomEvent(name: nat)
    | NetworkMessage(msgType: nat)
    | LocalMessage(recvType: Option<nat>)
    | OnClone

  datatype Script = Script(event: Event, entity: nat, start: nat, process: Option<Key>, contexts: seq<Context>)

  /** Processes, the queue of keys, and the outstanding handles of every barrier: one element for each
      clone that has not been dropped. */
  datatype Core = Core(procs: Slots<Proc>, queue: seq<Key>, handles: multiset<nat>)

  datatype Project_ = Project_(core: Core, scripts: seq<Script>, nextBarrier: nat)

  function Drop(handles: multiset<nat>, b: Option<nat>): multiset<nat> {
    if b.Some? then handles - multiset{b.value} else handles
  }

  function DropContexts(handles: multiset<nat>, cs: seq<Context>): multiset<nat>
    decreases |cs|
  {
    if cs == [] then handles else DropContexts(Drop(handles, cs[0].barrier), cs[1..])
  }

  function Started(start: nat, c: Context): Proc {
    Proc(start, c.payload, true, c.barrier, None)
  }

  predicate IsLive(c: Core, k: Option<Key>) {
    k.Some? && Get(c.procs, k.value).Some?
  }

  /** Starts the oldest context of a script that has no process running. */
  function Consume(c: Core, sc: Script): (Core, Script)
    requires ValidSlots(c.procs)
  {
    if IsLive(c, sc.process) && Get(c.procs, sc.process.value).value.running then (c, sc)
    else if sc.contexts == [] then (c, sc)
    else
      var p := Started(sc.start, sc.contexts[0]);
      var rest := sc.(contexts := sc.contexts[1..]);
      if IsLive(c, sc.process) then
        var k := sc.process.value;
        (Core(Put(c.procs, k, p), c.queue + [k], Drop(c.handles, Get(c.procs, k).value.barrier)), rest)
      else
        var (m, k) := Inserted(c.procs, p);
        (Core(m, c.queue + [k], c.handles), rest.(process := Some(k)))
  }

  function StopAll(c: Core, sc: Script): (Core, Script)
    requires ValidSlots(c.procs)
  {
    var c1 :=
      if sc.process.None? then c
      else
        var (m, r) := Removed(c.procs, sc.process.value);
        c.(procs := m, handles := if r.Some? then Drop(c.handles, r.value.barrier) else c.handles);
    (c1.(handles := DropContexts(c1.handles, sc.contexts)), sc.(process := None, contexts := []))
  }

  /** Offers a context; beyond `max` waiting contexts, it is dropped again. */
  function Schedule(c: Core, sc: Script, ctx: Context, max: Option<nat>): (Core, Script)
    requires ValidSlots(c.procs)
  {
    var (c1, sc1) := Consume(c, sc.(contexts := sc.contexts + [ctx]));
    var n := |sc1.contexts|;
    if max.Some? && n > max.value then
      (c1.(handles := Drop(c1.handles, sc1.contexts[n - 1].barrier)), sc1.(contexts := sc1.contexts[..n - 1]))
    else (c1, sc1)
  }

  lemma ConsumeValid(c: Core, sc: Script)
    requires ValidSlots(c.procs)
    ensures ValidSlots(Consume(c, sc).0.procs)
  {
    if sc.contexts != [] {
      var p := Started(sc.start, sc.contexts[0]);
      if IsLive(c, sc.process) {
        PutRefines(c.procs, sc.process.value, p);
      } else {
        InsertRefines(c.procs, p);
      }
    }
  }

  lemma StopAllValid(c: Core, sc: Script)
    requires ValidSlots(c.procs)
    ensures ValidSlots(StopAll(c, sc).0.procs)
  {
    if sc.process.Some? {
      RemoveRefines(c.procs, sc.process.value);
    }
  }

  /** Every script from `i` on gets to start a context. */
  function ConsumeAll(p: Project_, i: nat): (r: Project_)
    requires ValidSlots(p.core.procs)
    ensures ValidSlots(r.core.procs) && |r.scripts| == |p.scripts|
    decreases |p.scripts| - i
  {
    if i >= |p.scripts| then p
    else
      ConsumeValid(p.core, p.scripts[i]);
      var (c, sc) := Consume(p.core, p.scripts[i]);
      ConsumeAll(p.(core := c, scripts := p.scripts[i := sc]), i + 1)
  }

  /** The contexts of all scripts are consumed before something new is scheduled, but once a step only. */
  function Once(p: Project_, did: bool): (r: Project_)
    requires ValidSlots(p.core.procs)
    ensures ValidSlots(r.core.procs) && |r.scripts| == |p.scripts|
  {
    if did then p else ConsumeAll(p, 0)
  }

  function StopScript(p: Project_, i: nat): (r: Project_)
    requires ValidSlots(p.core.procs) && i < |p.scripts|
    ensures ValidSlots(r.core.procs) && |r.scripts| == |p.scripts|
  {
    StopAllValid(p.core, p.scripts[i]);
    var (c, sc) := StopAll(p.core, p.scripts[i]);
    p.(core := c, scripts := p.scripts[i := sc])
  }

  function ScheduleScript(p: Project_, i: nat, ctx: Context, max: Option<nat>): (r: Project_)
    requires ValidSlots(p.core.procs) && i < |p.scripts|
    ensures ValidSlots(r.core.procs) && |r.scripts| == |p.scripts|
  {
    ConsumeValid(p.core, p.scripts[i].(contexts := p.scripts[i].contexts + [ctx]));
    var (c, sc) := Schedule(p.core, p.scripts[i], ctx, max);
    p.(core := c, scripts := p.scripts[i := sc])
  }

  // ----- offering a context to scripts -----

  /** A context on offer: to which scripts, whether it interrupts what they are doing, and how many
      contexts may be left waiting. */
  datatype Offer = Offer(to: Script -> bool, interrupt: bool, ctx: Context, max: Option<nat>)

  /** Makes an offer to every script it is meant for, from `i` on. Each of them gets a clone of the handle. */
  function OfferAll(p: Project_, o: Offer, i: nat, did: bool): (r: (Project_, bool))
    requires ValidSlots(p.core.procs)
    ensures ValidSlots(r.0.core.procs) && |r.0.scripts| == |p.scripts|
    decreases |p.scripts| - i
  {
    if i >= |p.scripts| then (p, did)
    else if !o.to(p.scripts[i]) then OfferAll(p, o, i + 1, did)
    else OfferAll(OfferOne(Once(p, did), o, i), o, i + 1, true)
  }

  function OfferOne(p: Project_, o: Offer, i: nat): (r: Project_)
    requires ValidSlots(p.core.procs) && i < |p.scripts|
    ensures ValidSlots(r.core.procs) && |r.scripts| == |p.scripts|
  {
    var p1 := if o.interrupt then StopScript(p, i) else p;
    var p2 := p1.(core := p1.core.(handles := Hold(p1.core.handles, o.ctx.barrier)));
    ScheduleScript(p2, i, o.ctx, o.max)
  }

  function Hold(handles: multiset<nat>, b: Option<nat>): multiset<nat> {
    if b.Some? then handles + multiset{b.value} else handles
  }

  datatype Message = Message(msgType: nat, payload: nat)

  /** A network message: nothing is interrupted, and nothing is dropped. */
  function Incoming(m: Message): Offer {
    Offer((sc: Script) => sc.event == NetworkMessage(m.msgType), false, Context(m.payload, None), None)
  }

  // ----- input -----

  datatype Input = Start | KeyDown(key: nat) | Custom(name: nat, payload: nat, interrupt: bool, maxQueue: nat) | Stop

  function OfferOf(input: Input): Offer
    requires !input.Stop?
  {
    match input
    case Start => Offer((sc: Script) => sc.event.OnFlag?, true, Context(0, None), Some(0))
    case KeyDown(key) =>
      Offer((sc: Script) => sc.event.OnKey? && (sc.event.filter.Some? ==> sc.event.filter.value == key), false,
            Context(0, None), Some(0))
    case Custom(name, payload, interrupt, maxQueue) =>
      Offer((sc: Script) => sc.event == CustomEvent(name), interrupt, Context(payload, None), Some(maxQueue))
  }

  function StopScripts(p: Project_, i: nat): (r: Project_)
    requires ValidSlots(p.core.procs)
    ensures ValidSlots(r.core.procs) && |r.scripts| == |p.scripts|
    decreases |p.scripts| - i
  {
    if i >= |p.scripts| then p else StopScripts(StopScript(p, i), i + 1)
  }

  /** The handles that processes hold. */
  function HeldBy(slots: seq<Entry<Proc>>): multiset<nat>
    decreases |slots|
  {
    if slots == [] then multiset{}
    else
      var last := slots[|slots| - 1];
      Hold(HeldBy(slots[..|slots| - 1]), if last.value.Some? then last.value.value.barrier else None)
  }

  function InputStep(p: Project_, input: Input): (r: Project_)
    requires ValidSlots(p.core.procs)
    ensures ValidSlots(r.core.procs)
  {
    if input.Stop? then
      var q := StopScripts(p, 0);
      ClearRefines(q.core.procs);
      q.(core := Core(Cleared(q.core.procs), [], q.core.handles - HeldBy(q.core.procs.slots)))
    else OfferAll(p, OfferOf(input), 0, false).0
  }

  // ----- one step -----

  /** What a process asks for when it is stepped. */
  datatype Act =
    | Normal | Yields | Watches | Pauses
    | Forks(start: nat, payload: nat)
    | Clones(root: nat, entity: nat)
    | Broadcasts(msgType: nat, wait: bool, targets: Option<set<nat>>)
    | Ends | Fails

  datatype StepResult = Idle | Yielded | Went | Watcher | Paused | ProcessTerminated | ErrorStep

  /** The first key of the queue that still resolves, and the queue behind it. */
  function PopLive(procs: Slots<Proc>, queue: seq<Key>): (Option<Key>, seq<Key>)
    decreases |queue|
  {
    if queue == [] then (None, [])
    else if Get(procs, queue[0]).Some? then (Some(queue[0]), queue[1..])
    else PopLive(procs, queue[1..])
  }

  /** A process that waits for a broadcast is blocked for as long as there are handles. */
  predicate Blocked(handles: multiset<nat>, proc: Proc) {
    proc.waits.Some? && handles[proc.waits.value] > 0
  }

  predicate Hears(sc: Script, act: Act)
    requires act.Broadcasts?
  {
    && sc.event.LocalMessage?
    && (sc.event.recvType.Some? ==> sc.event.recvType.value == act.msgType)
    && (act.targets.Some? ==> sc.entity in act.targets.value)
  }

  /** A broadcast interrupts and restarts every script that hears it. */
  function Outgoing(act: Act, b: Option<nat>): Offer
    requires act.Broadcasts?
  {
    Offer((sc: Script) => Hears(sc, act), true, Context(act.msgType, b), Some(0))
  }

  /** The scripts a clone gets: those of the entity it was made from. */
  function ClonedScripts(scripts: seq<Script>, root: nat, entity: nat): seq<Script>
    decreases |scripts|
  {
    if scripts == [] then []
    else
      var rest := ClonedScripts(scripts[1..], root, entity);
      if scripts[0].entity == root then [scripts[0].(entity := entity, process := None, contexts := [])] + rest
      else rest
  }

  /** Starts those scripts of a clone, from `i` on, that run when a clone is made. */
  function StartClone(p: Project_, young: seq<Script>, i: nat, did: bool): (r: (Project_, seq<Script>, bool))
    requires ValidSlots(p.core.procs)
    ensures ValidSlots(r.0.core.procs) && |r.0.scripts| == |p.scripts|
    decreases |young| - i
  {
    if i >= |young| then (p, young, did)
    else if !young[i].event.OnClone? then StartClone(p, young, i + 1, did)
    else
      var p1 := Once(p, did);
      ConsumeValid(p1.core, young[i].(contexts := young[i].contexts + [Context(0, None)]));
      var (c, sc) := Schedule(p1.core, young[i], Context(0, None), Some(0));
      StartClone(p1.(core := c), young[i := sc], i + 1, true)
  }

  function Front(p: Project_, k: Key): Project_ {
    p.(core := p.core.(queue := [k] + p.core.queue))
  }

  function Back(p: Project_, k: Key): Project_ {
    p.(core := p.core.(queue := p.core.queue + [k]))
  }

  function WithProc(p: Project_, k: Key, proc: Proc): (r: Project_)
    requires ValidSlots(p.core.procs) && Get(p.core.procs, k).Some?
    ensures ValidSlots(r.core.procs) && Get(r.core.procs, k) == Some(proc)
  {
    PutRefines(p.core.procs, k, proc);
    p.(core := p.core.(procs := Put(p.core.procs, k, proc)))
  }

  /** What the project makes of what the process in hand asks for. */
  function React(p: Project_, k: Key, act: Act, did: bool): (r: (Project_, StepResult))
    requires ValidSlots(p.core.procs) && Get(p.core.procs, k).Some?
    ensures ValidSlots(r.0.core.procs)
  {
    match act
    case Normal => (Front(p, k), Went)
    case Watches => (Front(p, k), Watcher)
    case Pauses => (Front(p, k), Paused)
    case Yields => (Back(Once(p, did), k), Yielded)
    case Forks(start, payload) =>
      InsertRefines(p.core.procs, Started(start, Context(payload, None)));
      var (m, f) := Inserted(p.core.procs, Started(start, Context(payload, None)));
      (Front(Back(Once(p.(core := p.core.(procs := m)), did), f), k), Went)
    case Clones(root, entity) =>
      var (q, young, _) := StartClone(p, ClonedScripts(p.scripts, root, entity), 0, did);
      (Front(q.(scripts := q.scripts + young), k), Went)
    case Broadcasts(_, wait, _) =>
      var b := if wait then Some(p.nextBarrier) else None;
      var proc := Get(p.core.procs, k).value;
      var p1 := if wait then WithProc(p, k, proc.(waits := b)) else p;
      var p2 := p1.(core := p1.core.(handles := Hold(p1.core.handles, b)),
                    nextBarrier := p1.nextBarrier + if wait then 1 else 0);
      var (q, _) := OfferAll(p2, Outgoing(act, b), 0, did);
      (Front(q.(core := q.core.(handles := Drop(q.core.handles, b))), k), Went)
    case Ends => (Once(Retire(p, k), did), ProcessTerminated)
    case Fails => (Once(Retire(p, k), did), ErrorStep)
  }

  /** A process that ends drops its handle and leaves the map. */
  function Retire(p: Project_, k: Key): (r: Project_)
    requires ValidSlots(p.core.procs) && Get(p.core.procs, k).Some?
    ensures ValidSlots(r.core.procs) && r.scripts == p.scripts
  {
    RemoveRefines(p.core.procs, k);
    p.(core := p.core.(procs := Removed(p.core.procs, k).0,
                       handles := Drop(p.core.handles, Get(p.core.procs, k).value.barrier)))
  }

  lemma {:induction false} PopLiveResolves(procs: Slots<Proc>, queue: seq<Key>)
    ensures var (k, _) := PopLive(procs, queue); k.Some? ==> Get(procs, k.value).Some?
    decreases |queue|
  {
    if queue != [] && Get(procs, queue[0]).None? {
      PopLiveResolves(procs, queue[1..]);
    }
  }

  function Delivered(p: Project_, msg: Option<Message>): (r: (Project_, bool))
    requires ValidSlots(p.core.procs)
    ensures ValidSlots(r.0.core.procs) && |r.0.scripts| == |p.scripts|
  {
    if msg.Some? then OfferAll(p, Incoming(msg.value), 0, false) else (p, false)
  }

  /** One step of the project: an incoming message, then one step of the first live process. */
  function Step(p: Project_, msg: Option<Message>, act: Act): (r: (Project_, StepResult))
    requires ValidSlots(p.core.procs)
    ensures ValidSlots(r.0.core.procs)
  {
    var (p1, did) := Delivered(p, msg);
    PopLiveResolves(p1.core.procs, p1.core.queue);
    var (k, rest) := PopLive(p1.core.procs, p1.core.queue);
    var p2 := p1.(core := p1.core.(queue := rest));
    if k.None? then (p2, Idle)
    else
      var proc := Get(p2.core.procs, k.value).value;
      if Blocked(p2.core.handles, proc) then React(p2, k.value, Yields, did)
      else React(WithProc(p2, k.value, proc.(waits := None)), k.value, act, did)
  }
}

/** The project as the program keeps it: its queue, scripts and processes are updated in place. Every method
    is proved to do what the function of the same purpose in `Scheduler` says. */
module Projects {
  import opened Common
  import opened SlotMaps
  import opened Scheduler
  import opened SchedulerInvariant
  import opened SchedulerSteps
  import opened SchedulerRuns
  import opened SchedulerBarriers

  class Project {
    const processes: SlotMap<Proc>
    var processQueue: seq<Key>
    var scripts: seq<Script>
    /** One element for each clone of a barrier's handle that has not been dropped. */
    var handles: multiset<nat>
    var nextBarrier: nat

    ghost function View(): Project_
      reads this, processes
    {
      Project_(Core(processes.Content(), processQueue, handles), scripts, nextBarrier)
    }

    ghost predicate Valid()
      reads this, processes
    {
      ValidSlots(processes.Content())
    }

    constructor (templates: seq<Template>)
      ensures Valid() && View() == FromInit(templates) && fresh(processes)
    {
      processes := new SlotMap();
      processQueue, handles, nextBarrier := [], multiset{}, 0;
      scripts := seq(|templates|, i requires 0 <= i < |templates| =>
                     Script(templates[i].event, templates[i].entity, templates[i].start, None, []));
    }

    method ConsumeContext(i: nat)
      requires Valid() && i < |scripts|
      modifies this, processes
      ensures Valid() && View() == ConsumeOne(old(View()), i)
    {
      hide ValidSlots, Get, Inserted, Put;
      ghost var before := View();
      ConsumeValid(before.core, scripts[i]);
      var sc := scripts[i];
      var process: Option<Proc> := None;
      if sc.process.Some? {
        process := processes.Lookup(sc.process.value);
      }
      if (process.Some? && process.value.running) || sc.contexts == [] {
        assert scripts[i := sc] == scripts;
        return;
      }
      var context := sc.contexts[0];
      sc := sc.(contexts := sc.contexts[1..]);
      var started := Started(sc.start, context);
      if process.Some? {
        processes.Update(sc.process.value, started);
        handles := Drop(handles, process.value.barrier);
        processQueue := processQueue + [sc.process.value];
      } else {
        var key := processes.Insert(started);
        processQueue := processQueue + [key];
        sc := sc.(process := Some(key));
      }
      scripts := scripts[i := sc];
    }

    method StopAll(i: nat)
      requires Valid() && i < |scripts|
      modifies this, processes
      ensures Valid() && View() == StopScript(old(View()), i)
    {
      hide ValidSlots, Get, Removed, DropContexts;
      var sc := scripts[i];
      if sc.process.Some? {
        var gone := processes.Remove(sc.process.value);
        if gone.Some? {
          handles := Drop(handles, gone.value.barrier);
        }
      }
      handles := DropContexts(handles, sc.contexts);
      scripts := scripts[i := sc.(process := None, contexts := [])];
    }

    method Schedule(i: nat, context: Context, maxQueue: Option<nat>)
      requires Valid() && i < |scripts|
      modifies this, processes
      ensures Valid() && View() == ScheduleScript(old(View()), i, context, maxQueue)
    {
      hide ValidSlots, Consume;
      ghost var before := View();
      scripts := scripts[i := scripts[i].(contexts := scripts[i].contexts + [context])];
      ghost var queued := View();
      ConsumeContext(i);
      assert View() == ConsumeOne(queued, i);
      var sc := scripts[i];
      var n := |sc.contexts|;
      assert before.scripts[i := before.scripts[i].(contexts := before.scripts[i].contexts + [context])][i := sc]
             == before.scripts[i := sc];
      if maxQueue.Some? && n > maxQueue.value {
        handles := Drop(handles, sc.contexts[n - 1].barrier);
        scripts := scripts[i := sc.(contexts := sc.contexts[..n - 1])];
        assert scripts == before.scripts[i := sc.(contexts := sc.contexts[..n - 1])];
      }
    }

    /** Lets every script start a context, unless that was done before in the same step. */
    method DoOnce(did: bool)
      requires Valid()
      modifies this, processes
      ensures Valid() && View() == Once(old(View()), did)
    {
      hide ValidSlots, Consume;
      ghost var before := View();
      if !did {
        for i := 0 to |scripts|
          invariant Valid() && |scripts| == |before.scripts|
          invariant ConsumeAll(View(), i) == ConsumeAll(before, 0)
        {
          ConsumeContext(i);
        }
      }
    }

    /** Makes an offer to one script after the other. */
    method Offering(o: Offer, did0: bool) returns (did: bool)
      requires Valid()
      modifies this, processes
      ensures Valid() && (View(), did) == OfferAll(old(View()), o, 0, did0)
    {
      hide ValidSlots, Once, StopScript, ScheduleScript;
      ghost var before := View();
      did := did0;
      for i := 0 to |scripts|
        invariant Valid() && |scripts| == |before.scripts|
        invariant OfferAll(View(), o, i, did) == OfferAll(before, o, 0, did0)
      {
        if o.to(scripts[i]) {
          ghost var was, had := View(), did;
          DoOnce(did);
          did := true;
          ghost var mid := View();
          if o.interrupt {
            StopAll(i);
          }
          handles := Hold(handles, o.ctx.barrier);
          Schedule(i, o.ctx, o.max);
          assert View() == OfferOne(mid, o, i);
          assert OfferAll(was, o, i, had) == OfferAll(View(), o, i + 1, true);
        }
      }
    }

    method Enter(input: Input)
      requires Valid()
      modifies this, processes
      ensures Valid() && View() == InputStep(old(View()), input)
    {
      hide ValidSlots, StopScript, OfferAll, HeldBy, Cleared;
      ghost var before := View();
      if input.Stop? {
        for i := 0 to |scripts|
          invariant Valid() && |scripts| == |before.scripts|
          invariant StopScripts(View(), i) == StopScripts(before, 0)
        {
          StopAll(i);
        }
        handles := handles - HeldBy(processes.slots);
        processes.Clear();
        processQueue := [];
      } else {
        var _ := Offering(OfferOf(input), false);
      }
    }

    /** Takes keys from the queue up to the first that resolves. */
    method PopProcess() returns (key: Option<Key>)
      requires Valid()
      modifies this`processQueue
      ensures Valid() && (key, processQueue) == PopLive(processes.Content(), old(processQueue))
    {
      hide Get;
      while processQueue != []
        invariant PopLive(processes.Content(), processQueue) == PopLive(processes.Content(), old(processQueue))
        decreases |processQueue|
      {
        var k := processQueue[0];
        processQueue := processQueue[1..];
        var proc := processes.Lookup(k);
        if proc.Some? {
          return Some(k);
        }
      }
      return None;
    }

    method Clone(root: nat, entity: nat, did0: bool) returns (did: bool)
      requires Valid()
      modifies this, processes
      ensures Valid()
      ensures var (q, young, d) := StartClone(old(View()), ClonedScripts(old(scripts), root, entity), 0, did0);
              View() == WithScripts(q, young) && did == d
    {
      hide ValidSlots, Once, Consume;
      ghost var before := View();
      var young := NewScripts(scripts, root, entity);
      ghost var born := young;
      did := did0;
      for i := 0 to |young|
        invariant Valid() && |young| == |born|
        invariant StartClone(View(), young, i, did) == StartClone(before, born, 0, did0)
      {
        if young[i].event.OnClone? {
          ghost var was, had, them := View(), did, young;
          DoOnce(did);
          did := true;
          ghost var mid := View();
          var sc := ScheduleNew(young[i]);
          young := young[i := sc];
          assert StartClone(was, them, i, had) == StartClone(View(), young, i + 1, true);
        }
      }
      scripts := scripts + young;
    }

    /** Schedules an empty context for a script that is not among the others yet. */
    method ScheduleNew(script: Script) returns (sc: Script)
      requires Valid()
      modifies this, processes
      ensures Valid() && scripts == old(scripts) && nextBarrier == old(nextBarrier)
      ensures (View().core, sc) == Scheduler.Schedule(old(View().core), script, Context(0, None), Some(0))
    {
      hide ValidSlots, Consume;
      var n := |scripts|;
      ghost var was := scripts;
      ghost var core := View().core;
      ScheduleValid(core, script, Context(0, None), Some(0));
      scripts := scripts + [script];
      Schedule(n, Context(0, None), Some(0));
      sc := scripts[n];
      scripts := scripts[..n];
      assert scripts == was;
    }

    /** One step: hands out an incoming message, and steps the first process that is still there. */
    method Step(msg: Option<Message>, act: Act) returns (r: StepResult)
      requires Valid()
      modifies this, processes
      ensures Valid() && (View(), r) == Scheduler.Step(old(View()), msg, act)
    {
      hide ValidSlots, OfferAll, React, PopLive, Get, Put;
      var did := false;
      if msg.Some? {
        did := Offering(Incoming(msg.value), did);
      }
      assert (View(), did) == Delivered(old(View()), msg);
      PopLiveResolves(View().core.procs, processQueue);
      var key := PopProcess();
      if key.None? {
        return Idle;
      }
      var k := key.value;
      var proc := processes.Lookup(k);
      var stepped := act;
      if Blocked(handles, proc.value) {
        stepped := Yields;
      } else {
        PutRefines(processes.Content(), k, proc.value.(waits := None));
        processes.Update(k, proc.value.(waits := None));
      }
      r := Reacts(k, stepped, did);
    }

    /** What the project makes of what the process in hand asks for. */
    method Reacts(k: Key, act: Act, did: bool) returns (r: StepResult)
      requires Valid() && Get(processes.Content(), k).Some?
      modifies this, processes
      ensures Valid() && (View(), r) == React(old(View()), k, act, did)
    {
      hide ValidSlots, OfferAll, Get, Inserted, Retire, Once, StartClone, Sending;
      match act {
        case Normal => processQueue, r := [k] + processQueue, Went;
        case Watches => processQueue, r := [k] + processQueue, Watcher;
        case Pauses => processQueue, r := [k] + processQueue, Paused;
        case Yields =>
          DoOnce(did);
          processQueue, r := processQueue + [k], Yielded;
        case Forks(start, payload) =>
          var forked := processes.Insert(Started(start, Context(payload, None)));
          DoOnce(did);
          processQueue := processQueue + [forked];
          processQueue, r := [k] + processQueue, Went;
        case Clones(root, entity) =>
          var _ := Clone(root, entity, did);
          processQueue, r := [k] + processQueue, Went;
        case Broadcasts(_, _, _) =>
          SendOut(k, act, did);
          r := Went;
        case _ =>
          TakeOut(k);
          DoOnce(did);
          r := if act.Ends? then ProcessTerminated else ErrorStep;
      }
    }

    /** Takes a process out of the map, and with it the handle it has. */
    method TakeOut(k: Key)
      requires Valid() && Get(processes.Content(), k).Some?
      modifies this, processes
      ensures Valid() && View() == Retire(old(View()), k)
    {
      hide ValidSlots, Get, Removed;
      RemoveRefines(processes.Content(), k);
      var gone := processes.Remove(k);
      handles := Drop(handles, gone.value.barrier);
    }

    /** The sender of a broadcast gets the first handle of a new barrier, and waits for it. */
    method Announce(k: Key, act: Act) returns (barrier: Option<nat>)
      requires Valid() && Get(processes.Content(), k).Some? && act.Broadcasts?
      modifies this, processes
      ensures Valid() && View() == Sending(old(View()), k, act) && barrier == Ticket(old(View()), act)
    {
      hide ValidSlots, Get, Put;
      barrier := None;
      if act.wait {
        barrier := Some(nextBarrier);
        var proc := processes.Lookup(k);
        processes.Update(k, proc.value.(waits := barrier));
        handles := Hold(handles, barrier);
        nextBarrier := nextBarrier + 1;
      }
    }

    /** Sends a broadcast; the handle that the sender itself got is dropped once it is out. */
    method SendOut(k: Key, act: Act, did: bool)
      requires Valid() && Get(processes.Content(), k).Some? && act.Broadcasts?
      modifies this, processes
      ensures Valid() && View() == React(old(View()), k, act, did).0
    {
      hide ValidSlots, OfferAll, Get, Put, Sending, React;
      BroadcastReaction(View(), k, act, did);
      var barrier := Announce(k, act);
      var _ := Offering(Outgoing(act, barrier), did);
      handles := Drop(handles, barrier);
      processQueue := [k] + processQueue;
    }
  }

  method NewScripts(scripts: seq<Script>, root: nat, entity: nat) returns (young: seq<Script>)
    ensures young == ClonedScripts(scripts, root, entity)
  {
    young := [];
    for i := 0 to |scripts|
      invariant young + ClonedScripts(scripts[i..], root, entity) == ClonedScripts(scripts, root, entity)
    {
      assert scripts[i..][0] == scripts[i] && scripts[i..][1..] == scripts[i + 1..];
      if scripts[i].entity == root {
        young := young + [scripts[i].(entity := entity, process := None, contexts := [])];
      }
    }
  }
}

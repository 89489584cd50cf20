/** What the simulation says about whole processes: linked code and the evaluator agree on every run,
    and the interpreter never meets a missing operand, handler or instruction. */
module Compiled {
  import opened Common
  import opened Bytecode
  import opened Values
  import opened Machine
  import opened Ast
  import opened Source
  import opened Codegen
  import opened Simulation
  import opened Rounds
  import opened Calls
  import opened Correctness

  /** A script: the body at `entry`, run by a process of its own. */
  datatype Script = Script(ent: Option<nat>, body: seq<Stmt>, entry: nat)

  /** What a process starts from: its variables, the heap, and the closures made so far, in both forms. */
  datatype Setup = Setup(locals: Locals, heap: Heap, clo: seq<Clo<nat>>, src: seq<Clo<Block>>)

  ghost predicate Loaded(I: Image, x: Script, z: Setup) {
    && Filled(I) && Tied(I, z.clo, z.src)
    && BodyAt(Scope(I.p.fns, x.ent), I.slots, [], x.body, x.entry)
  }

  function Begin(x: Script, z: Setup): State {
    Initial(x.entry, z.locals, z.heap, z.clo)
  }

  /** The evaluator's account of the whole process. */
  function Meaning(p: Prog, x: Script, z: Setup, fuel: nat): Out<Value> {
    RunBody(p, fuel, Ctx(None, 1, 0, x.ent), [], x.body, St(z.locals, z.heap, z.src, 0))
  }

  /** The process makes `n` steps and then the given last one. */
  ghost predicate EndsWith(I: Image, s: State, n: nat, o: Outcome) {
    match Run(I.M(), s, n) case Some(r) => Step(I.M(), r) == o case None => false
  }

  ghost predicate SameEffects(I: Image, u: State, st: St) {
    u.heap == st.heap && u.turns == st.turns && Tied(I, u.closures, st.closures)
  }

  lemma BeginIsAt(x: Script, z: Setup)
    ensures Begin(x, z) == At(Begin(x, z), x.entry, [], St(z.locals, z.heap, z.src, 0), z.clo)
    ensures Fits(Ctx(None, 1, 0, x.ent), Begin(x, z))
  {
  }

  lemma RootReturns(I: Image, x: Script, z: Setup, r: State, v: Value, st: St, clo: seq<Clo<nat>>)
    requires Filled(I) && Returning(I, Begin(x, z), [], r, v, st, clo)
    ensures match Step(I.M(), r)
            case Terminated(x, u) =>
              x == v && u.heap == st.heap && u.turns == st.turns && u.closures == clo && u.values == []
            case _ => false
  {
    hide BodyAt, Filled, OnStack, ExecJump, ExecVariable, Unwind;
    FilledIs(I, r.pos, Return);
    assert r.calls == [Frame(None, None, 0, 0, 0, st.locals)];
    assert Exec(I.p.w, I.p.outer, Return, r.pos + 1, r) == ExecCall(I.p.w, I.p.outer, Return, r.pos + 1, r);
  }

  lemma RootFails(I: Image, x: Script, z: Setup, r: State, err: Error, u: State, st: St, clo: seq<Clo<nat>>)
    requires StepImpl(I.M(), r) == Failed(err, u) && Wreck(Begin(x, z), [], u, st, clo)
    ensures Step(I.M(), r) == Failed(err, u)
  {
    hide StepImpl;
  }

  /** The compiled process does what the program means: it reports the same value, or halts with the
      same error, having had the same effects; and for as long as the evaluator still has work to do,
      it keeps running. */
  lemma ProcessRefines(I: Image, x: Script, z: Setup, fuel: nat) returns (n: nat, u: State)
    requires Loaded(I, x, z)
    ensures match Meaning(I.p, x, z, fuel)
            case Done(v, st) => EndsWith(I, Begin(x, z), n, Terminated(v, u)) && SameEffects(I, u, st) && u.values == []
            case Raised(err, st) => EndsWith(I, Begin(x, z), n, Failed(err, u)) && SameEffects(I, u, st)
            case OutOfFuel => Run(I.M(), Begin(x, z), fuel) == Some(u)
  {
    hide Filled, Tied, Fits, At, Begin, StepImpl, Step, Run, BodyAt, RunBody, Wreck, Returning;
    var s := Begin(x, z);
    var c := Ctx(None, 1, 0, x.ent);
    var st := St(z.locals, z.heap, z.src, 0);
    BeginIsAt(x, z);
    BeginCalls(x, z);
    var clo;
    n, clo := SimBody(I, c, s, [], x.body, x.entry, [], st, z.clo, fuel);
    var o := RunBody(I.p, fuel, c, [], x.body, st);
    assert Meets(I, s, s, [], 0, n, clo, fuel, BodyGoal(o));
    if o.OutOfFuel? {
      u := Run(I.M(), s, fuel).value;
    } else {
      var r := Run(I.M(), s, n).value;
      if o.Done? {
        RootReturns(I, x, z, r, o.v, o.st, clo);
        u := Step(I.M(), r).s;
      } else {
        u := StepImpl(I.M(), r).s;
        RootFails(I, x, z, r, o.err, u, o.st, clo);
        WreckParts(s, [], u, o.st, clo);
      }
    }
  }

  lemma WreckParts(base: State, floor: seq<Value>, f: State, st: St, clo: seq<Clo<nat>>)
    requires Wreck(base, floor, f, st, clo)
    ensures f.heap == st.heap && f.turns == st.turns && f.closures == clo
  {
  }

  lemma BeginCalls(x: Script, z: Setup)
    ensures Begin(x, z).calls != []
  {
  }

  /** A process that has stopped has nothing after its last step. */
  lemma StopsOnce(m: Machine, s: State, n: nat, k: nat)
    requires match Run(m, s, n) case Some(r) => !Step(m, r).Went? case None => false
    requires Run(m, s, k).Some?
    ensures k <= n
  {
    hide Step;
    if k > n {
      RunLess(m, s, n + 1, k);
      RunAdd(m, s, n, 1);
    }
  }

  ghost predicate Reported(I: Image, o: Outcome, v: Value, st: St) {
    match o case Terminated(x, u) => x == v && SameEffects(I, u, st) && u.values == [] case _ => false
  }

  ghost predicate Refused(I: Image, o: Outcome, err: Error, st: St) {
    match o case Failed(x, u) => x == err && SameEffects(I, u, st) case _ => false
  }

  /** The other direction: a compiled process that stops, stops the way the program means, for every
      amount of fuel that is more than the number of steps it took. */
  lemma ProcessReflects(I: Image, x: Script, z: Setup, n: nat, o: Outcome, fuel: nat)
    requires Loaded(I, x, z) && EndsWith(I, Begin(x, z), n, o) && !o.Went? && n < fuel
    ensures match Meaning(I.p, x, z, fuel)
            case Done(v, st) => Reported(I, o, v, st)
            case Raised(err, st) => Refused(I, o, err, st)
            case OutOfFuel => false
  {
    hide Loaded, Begin, Step, Run, Meaning, SameEffects;
    var k, u := ProcessRefines(I, x, z, fuel);
    var e := Meaning(I.p, x, z, fuel);
    if e.OutOfFuel? {
      StopsOnce(I.M(), Begin(x, z), n, fuel);
    } else {
      StopsOnce(I.M(), Begin(x, z), n, k);
      StopsOnce(I.M(), Begin(x, z), k, n);
    }
  }

  /** Stack discipline: whatever state a compiled process reaches, its next step never runs out of
      values, calls, handlers or code. */
  lemma NeverStuck(I: Image, x: Script, z: Setup, n: nat)
    requires Loaded(I, x, z)
    ensures match Run(I.M(), Begin(x, z), n) case Some(r) => !Step(I.M(), r).Stuck? case None => true
  {
    hide Loaded, Begin, Step, Run, Meaning, SameEffects;
    if Run(I.M(), Begin(x, z), n).None? {
      return;
    }
    var o := Step(I.M(), Run(I.M(), Begin(x, z), n).value);
    if o.Stuck? {
      ProcessReflects(I, x, z, n, o, n + 1);
    }
  }

  ghost predicate Diverges(p: Prog, x: Script, z: Setup) {
    forall fuel :: Meaning(p, x, z, fuel).OutOfFuel?
  }

  ghost predicate RunsForever(m: Machine, s: State) {
    forall n: nat :: Run(m, s, n).Some?
  }

  /** A program that never finishes, however much fuel it gets, compiles to a process that runs forever. */
  lemma DivergenceKept(I: Image, x: Script, z: Setup)
    requires Loaded(I, x, z)
    ensures Diverges(I.p, x, z) <==> RunsForever(I.M(), Begin(x, z))
  {
    hide Loaded, Begin, Step, Meaning, SameEffects;
    if Diverges(I.p, x, z) {
      forall n: nat ensures Run(I.M(), Begin(x, z), n).Some? {
        var k, u := ProcessRefines(I, x, z, n);
      }
    } else {
      var fuel :| !Meaning(I.p, x, z, fuel).OutOfFuel?;
      var k, u := ProcessRefines(I, x, z, fuel);
      if RunsForever(I.M(), Begin(x, z)) {
        StopsOnce(I.M(), Begin(x, z), k, k + 1);
      }
    }
  }
}

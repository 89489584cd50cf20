/** No program can change a list that nothing refers to, or get a reference to it: whatever it evaluates or calls,
    the secret lists are as before, and still secret. */
module Isolation {
  import opened Common
  import opened Bytecode
  import opened Values
  import opened Elementwise
  import opened Machine
  import opened Ast
  import opened Source
  import opened Secrets

  ghost predicate Sure<T>(st: St, o: Out<T>, secrets: set<nat>) {
    match o
    case Done(_, s) => Safe(st.heap, s.heap, secrets)
    case Raised(_, s) => Safe(st.heap, s.heap, secrets)
    case OutOfFuel => true
  }

  ghost predicate SureValue(st: St, o: Out<Value>, secrets: set<nat>) {
    Sure(st, o, secrets) && (o.Done? ==> Proper(o.v, |o.st.heap.lists|, secrets))
  }

  ghost predicate SureValues(st: St, o: Out<seq<Value>>, secrets: set<nat>) {
    Sure(st, o, secrets) && (o.Done? ==> ProperAll(o.v, |o.st.heap.lists|, secrets))
  }

  ghost predicate SureReport(st: St, o: Out<Option<Value>>, secrets: set<nat>) {
    Sure(st, o, secrets) && (o.Done? && o.v.Some? ==> Proper(o.v.value, |o.st.heap.lists|, secrets))
  }

  lemma After<T>(st: St, s: St, o: Out<T>, secrets: set<nat>)
    requires Sealed(st.heap, secrets) && Safe(st.heap, s.heap, secrets) && Sure(s, o, secrets)
    ensures Sure(st, o, secrets)
  {
    hide Sealed, Safe;
    match o {
      case Done(_, t) => SafeTwice(st.heap, s.heap, t.heap, secrets);
      case Raised(_, t) => SafeTwice(st.heap, s.heap, t.heap, secrets);
      case OutOfFuel =>
    }
  }

  // ----- what does not evaluate anything -----

  lemma PrimSure(p: Prog, ins: Instruction, args: seq<Value>, st: St, secrets: set<nat>)
    requires Sealed(st.heap, secrets) && ProperAll(args, |st.heap.lists|, secrets)
    ensures SureValues(st, ApplyPrim(p, ins, args, st), secrets)
  {
    hide Sealed, Safe, Prim;
    SafeSame(st.heap, secrets);
    if Arity(ins) == Some(|args|) {
      PrimIsSafe(p.w, ins, args, st.heap, secrets);
    } else {
      WrongArity(p.w, ins, args, st.heap);
    }
  }

  lemma WrongArity(w: World, ins: Instruction, args: seq<Value>, heap: Heap)
    requires Arity(ins) != Some(|args|)
    ensures Prim(w, ins, args, heap) == Err(HostError(0))
  {
  }

  lemma SingleSure(st: St, o: Out<seq<Value>>, secrets: set<nat>)
    requires SureValues(st, o, secrets)
    ensures SureValue(st, Single(o), secrets)
  {
    hide Safe;
  }

  lemma QuietSure(st: St, o: Out<seq<Value>>, secrets: set<nat>)
    requires SureValues(st, o, secrets)
    ensures SureReport(st, Quiet(o), secrets)
  {
    hide Safe;
  }

  lemma VariableSure(p: Prog, st: St, name: Str, secrets: set<nat>)
    requires Sealed(st.heap, secrets)
    ensures var c := Lookup(st.locals, p.outer, name);
            c.Some? ==> Proper(Cell(st.heap.cells, c.value), |st.heap.lists|, secrets)
  {
    hide Sealed;
    var c := Lookup(st.locals, p.outer, name);
    if c.Some? {
      CellProper(st.heap, c.value, secrets);
    }
  }

  lemma SetVariableSure(p: Prog, st: St, name: Str, v: Value, secrets: set<nat>)
    requires Sealed(st.heap, secrets) && Proper(v, |st.heap.lists|, secrets)
    ensures SureReport(st, SetVariable(p, st, name, v), secrets)
  {
    hide Sealed, Safe;
    SafeSame(st.heap, secrets);
    var c := Lookup(st.locals, p.outer, name);
    if c.Some? {
      CellSafe(st.heap, c.value, v, secrets);
    }
  }

  lemma ChangeVariableSure(p: Prog, st: St, name: Str, v: Value, secrets: set<nat>)
    requires Sealed(st.heap, secrets)
    ensures SureReport(st, ChangeVariable(p, st, name, v), secrets)
  {
    hide Sealed, Safe, BinaryOn, SetCell;
    SafeSame(st.heap, secrets);
    var c := Lookup(st.locals, p.outer, name);
    if c.Some? {
      var a := Cell(st.heap.cells, c.value);
      var r := BinaryOn(p.w, Add, a, v, st.heap.lists);
      if r.Ok? {
        BinarySafe(p.w, Add, a, v, st.heap, secrets);
        var g := st.heap.(lists := r.value.1);
        SafeSealed(st.heap, g, secrets);
        CellSafe(g, c.value, r.value.0, secrets);
        SafeTwice(st.heap, g, Heap(SetCell(st.heap.cells, c.value, r.value.0), r.value.1), secrets);
      }
    }
  }

  lemma {:induction false} DeclareAllSure(st: St, names: seq<Str>, secrets: set<nat>)
    requires Sealed(st.heap, secrets)
    ensures Safe(st.heap, DeclareAllIn(st, names).heap, secrets)
    decreases |names|
  {
    hide Sealed, Safe;
    SafeSame(st.heap, secrets);
    if names != [] {
      var s := DeclareIn(st, names[0]);
      CellSafe(st.heap, 0, Num(0.0), secrets);
      SafeSealed(st.heap, s.heap, secrets);
      DeclareAllSure(s, names[1..], secrets);
      SafeTwice(st.heap, s.heap, DeclareAllIn(st, names).heap, secrets);
    }
  }

  lemma TakeFirstSure(st: St, work: nat, secrets: set<nat>)
    requires Sealed(st.heap, secrets) && Items(st.heap.lists, work) != [] && work !in secrets
    ensures Safe(st.heap, TakeFirst(st, work).heap, secrets)
            && Proper(Items(st.heap.lists, work)[0], |st.heap.lists|, secrets)
  {
    hide Sealed, Safe;
    ItemsProper(st.heap, work, secrets);
    SetSafe(st.heap, work, Items(st.heap.lists, work)[1..], secrets);
  }

  lemma AppendSure(st: St, list: nat, v: Value, secrets: set<nat>)
    requires Sealed(st.heap, secrets) && list !in secrets && Proper(v, |st.heap.lists|, secrets)
    ensures Safe(st.heap, Append(st, list, v).heap, secrets)
  {
    hide Sealed, Safe;
    ItemsProper(st.heap, list, secrets);
    SetSafe(st.heap, list, Items(st.heap.lists, list) + [v], secrets);
  }

  lemma {:induction false} LitSure(p: Prog, v: Lit, st: St, secrets: set<nat>)
    requires Sealed(st.heap, secrets)
    ensures SureValue(st, EvalLit(p, v, st), secrets)
    decreases v, 0
  {
    hide Sealed, Safe, ApplyPrim, Single, EvalLits;
    SafeSame(st.heap, secrets);
    match v {
      case NumLit(bits) =>
        PrimSure(p, PushNumber(bits), [], st, secrets);
        SingleSure(st, ApplyPrim(p, PushNumber(bits), [], st), secrets);
      case ListLit(items) =>
        LitsSure(p, items, st, secrets);
        var o := EvalLits(p, items, st);
        if o.Done? {
          MakeListSure(p, st, o.v, o.st, secrets);
        }
      case _ =>
    }
  }

  lemma MakeListSure(p: Prog, st: St, vs: seq<Value>, s: St, secrets: set<nat>)
    requires Sealed(st.heap, secrets) && Safe(st.heap, s.heap, secrets) && ProperAll(vs, |s.heap.lists|, secrets)
    ensures SureValue(st, Single(ApplyPrim(p, Variadic(MakeList, Fixed(|vs|)), vs, s)), secrets)
  {
    hide Sealed, Safe, ApplyPrim, Single;
    SafeSealed(st.heap, s.heap, secrets);
    PrimSure(p, Variadic(MakeList, Fixed(|vs|)), vs, s, secrets);
    SingleSure(s, ApplyPrim(p, Variadic(MakeList, Fixed(|vs|)), vs, s), secrets);
    After(st, s, Single(ApplyPrim(p, Variadic(MakeList, Fixed(|vs|)), vs, s)), secrets);
  }

  lemma {:induction false} LitsSure(p: Prog, vs: seq<Lit>, st: St, secrets: set<nat>)
    requires Sealed(st.heap, secrets)
    ensures SureValues(st, EvalLits(p, vs, st), secrets)
    decreases vs, |vs|
  {
    hide Sealed, Safe, EvalLit, Proper;
    SafeSame(st.heap, secrets);
    if vs != [] {
      LitSure(p, vs[0], st, secrets);
      var o := EvalLit(p, vs[0], st);
      if o.Done? {
        SafeSealed(st.heap, o.st.heap, secrets);
        LitsSure(p, vs[1..], o.st, secrets);
        var rest := EvalLits(p, vs[1..], o.st);
        After(st, o.st, rest, secrets);
        if rest.Done? {
          SafeSealed(o.st.heap, rest.st.heap, secrets);
          ProperMore([o.v], |o.st.heap.lists|, |rest.st.heap.lists|, secrets);
          assert [o.v][0] == o.v;
        }
      }
    }
  }

  /** A copy is a new list with the same items. */
  lemma CopySure(p: Prog, v: Value, st: St, secrets: set<nat>)
    requires Sealed(st.heap, secrets) && Proper(v, |st.heap.lists|, secrets)
    ensures SureValue(st, CopyList(p, v, st), secrets)
    ensures match CopyList(p, v, st)
            case Done(w, s) =>
              && v.List? && w == List(NewId(st))
              && s == st.(heap := st.heap.(lists := st.heap.lists + [Items(st.heap.lists, WorkId(v))]))
            case _ => true
  {
    hide Sealed, Safe, Items;
    PrimSure(p, Variadic(MakeList, Dynamic), [v], st, secrets);
    SingleSure(st, ApplyPrim(p, Variadic(MakeList, Dynamic), [v], st), secrets);
  }

  lemma {:induction false} LinkUpvarsSure(p: Prog, c: Ctx, upvars: seq<Str>, st: St, secrets: set<nat>)
    requires Sealed(st.heap, secrets)
    ensures Sure(st, LinkUpvars(p, c, upvars, st), secrets)
    decreases |upvars|
  {
    hide Sealed, Safe, InitUpvarCell;
    SafeSame(st.heap, secrets);
    if upvars != [] {
      var r := InitUpvarCell(p.w, upvars[0], st.locals, p.outer, c.parent, st.heap);
      if r.Ok? {
        LinkUpvarsSure(p, c, upvars[1..], st.(locals := r.value), secrets);
      }
    }
  }

  /** What is known once an evaluation is done. */
  lemma Onward<T>(st: St, o: Out<T>, secrets: set<nat>)
    requires Sure(st, o, secrets) && o.Done?
    ensures Safe(st.heap, o.st.heap, secrets) && Sealed(o.st.heap, secrets) && |st.heap.lists| <= |o.st.heap.lists|
  {
    hide Sealed, Safe;
    SafeSealed(st.heap, o.st.heap, secrets);
  }

  lemma StillProper(v: Value, n: nat, m: nat, secrets: set<nat>)
    requires Proper(v, n, secrets) && n <= m
    ensures Proper(v, m, secrets)
  {
  }

  // ----- expressions -----

  lemma {:induction false} EvalSure(p: Prog, fuel: nat, c: Ctx, e: Expr, st: St, secrets: set<nat>)
    requires Sealed(st.heap, secrets)
    ensures SureValue(st, Eval(p, fuel, c, e, st), secrets)
    decreases fuel, ExprLen(e), 2
  {
    hide Sealed, SureValue, Eval, EvalShort;
    match e {
      case Literal(_) => PlainSure(p, fuel, c, e, st, secrets);
      case Variable(_) => PlainSure(p, fuel, c, e, st, secrets);
      case Lambda(_, _, _) => PlainSure(p, fuel, c, e, st, secrets);
      case Simple(_, _) => SimpleSure(p, fuel, c, e, st, secrets);
      case ListOf(_) => ListOfSure(p, fuel, c, e, st, secrets);
      case Reduce(_, _) => ReduceSure(p, fuel, c, e, st, secrets);
      case Conditional(_, _, _) => ConditionalSure(p, fuel, c, e, st, secrets);
      case Or(left, right) =>
        ShortIs(p, fuel, c, e, left, right, st);
        ShortSure(p, fuel, c, left, right, true, st, secrets);
      case And(left, right) =>
        ShortIs(p, fuel, c, e, left, right, st);
        ShortSure(p, fuel, c, left, right, false, st, secrets);
      case CallFn(_, _, _) => CallFnSure(p, fuel, c, e, st, secrets);
      case CallValue(_, _) => CallValueSure(p, fuel, c, e, st, secrets);
      case Map(_, _) => MapSure(p, fuel, c, e, st, secrets);
      case Keep(_, _) => KeepSure(p, fuel, c, e, st, secrets);
      case FindFirst(_, _) => FindSure(p, fuel, c, e, st, secrets);
      case FoldWith(_, _) => FoldSure(p, fuel, c, e, st, secrets);
    }
  }

  lemma ShortIs(p: Prog, fuel: nat, c: Ctx, e: Expr, left: Expr, right: Expr, st: St)
    requires e == Or(left, right) || e == And(left, right)
    ensures Eval(p, fuel, c, e, st) == EvalShort(p, fuel, c, left, right, e.Or?, st)
  {
    hide EvalShort, ApplyPrim, CallClosureValue, CallNamed, Capture, EvalAll, EvalLit, EvalLits;
    hide EvalReduce, EvalReduceDynamic, EvalTest, EvalWork, ExprLen, FindLoop, FoldLoop, KeepLoop, Lookup, Lower;
    hide MapLoop;
  }

  lemma PlainSure(p: Prog, fuel: nat, c: Ctx, e: Expr, st: St, secrets: set<nat>)
    requires Sealed(st.heap, secrets) && (e.Literal? || e.Variable? || e.Lambda?)
    ensures SureValue(st, Eval(p, fuel, c, e, st), secrets)
  {
    hide Sealed, Safe, EvalLit, Capture, ApplyPrim, CallClosureValue, CallNamed, EvalAll, EvalLits;
    hide EvalReduce, EvalReduceDynamic, EvalShort, EvalTest, EvalWork, ExprLen, FindLoop, FoldLoop, KeepLoop, Lower;
    hide MapLoop;
    SafeSame(st.heap, secrets);
    if e.Literal? {
      LitSure(p, e.v, st, secrets);
    } else if e.Variable? {
      VariableSure(p, st, e.name, secrets);
    }
  }

  lemma {:induction false} SimpleSure(p: Prog, fuel: nat, c: Ctx, e: Expr, st: St, secrets: set<nat>)
    requires Sealed(st.heap, secrets) && e.Simple?
    ensures SureValue(st, Eval(p, fuel, c, e, st), secrets)
    decreases fuel, ExprLen(e), 1
  {
    hide Sealed, Safe, EvalAll, ApplyPrim, Single, Lower, Arity, Proper, ProperAll, CallClosureValue, CallNamed;
    hide Capture, EvalLit, EvalLits, EvalReduce, EvalReduceDynamic, EvalShort, EvalTest, EvalWork;
    hide FindLoop, FoldLoop, KeepLoop, LitLen, LitsLen, Lookup, MapLoop;
    EvalAllSure(p, fuel, c, e.args, st, secrets);
    var o := EvalAll(p, fuel, c, e.args, st);
    if o.Done? {
      Onward(st, o, secrets);
      PrimSure(p, Lower(e.op), o.v, o.st, secrets);
      SingleSure(o.st, ApplyPrim(p, Lower(e.op), o.v, o.st), secrets);
      After(st, o.st, Single(ApplyPrim(p, Lower(e.op), o.v, o.st)), secrets);
    }
  }

  lemma ReducedSure(p: Prog, vop: VariadicOp, st: St, items: Out<seq<Value>>, secrets: set<nat>)
    requires Sealed(st.heap, secrets) && SureValues(st, items, secrets)
    ensures SureValue(st, EvalReduce(p, vop, items), secrets)
  {
    hide Sealed, Safe, ApplyPrim, Single, Proper, ProperAll;
    if items.Done? && !vop.StrCat? {
      Onward(st, items, secrets);
      var ins := Variadic(vop, Fixed(|items.v|));
      PrimSure(p, ins, items.v, items.st, secrets);
      SingleSure(items.st, ApplyPrim(p, ins, items.v, items.st), secrets);
      After(st, items.st, Single(ApplyPrim(p, ins, items.v, items.st)), secrets);
    }
  }

  lemma ReducedDynamicSure(p: Prog, vop: VariadicOp, st: St, src: Out<Value>, secrets: set<nat>)
    requires Sealed(st.heap, secrets) && SureValue(st, src, secrets)
    ensures SureValue(st, EvalReduceDynamic(p, vop, src), secrets)
  {
    hide Sealed, Safe, ApplyPrim, Single, Proper;
    if src.Done? && !vop.StrCat? {
      Onward(st, src, secrets);
      var ins := Variadic(vop, Dynamic);
      PrimSure(p, ins, [src.v], src.st, secrets);
      SingleSure(src.st, ApplyPrim(p, ins, [src.v], src.st), secrets);
      After(st, src.st, Single(ApplyPrim(p, ins, [src.v], src.st)), secrets);
    }
  }

  lemma {:induction false} ListOfSure(p: Prog, fuel: nat, c: Ctx, e: Expr, st: St, secrets: set<nat>)
    requires Sealed(st.heap, secrets) && e.ListOf?
    ensures SureValue(st, Eval(p, fuel, c, e, st), secrets)
    decreases fuel, ExprLen(e), 1
  {
    hide Sealed, SureValue, SureValues, EvalAll, EvalReduce, ApplyPrim, CallClosureValue, CallNamed, Capture;
    hide EvalLit, EvalLits, EvalReduceDynamic, EvalShort, EvalTest, EvalWork, FindLoop, FoldLoop;
    hide KeepLoop, LitLen, LitsLen, Lookup, Lower, MapLoop;
    EvalAllSure(p, fuel, c, e.items, st, secrets);
    ReducedSure(p, MakeList, st, EvalAll(p, fuel, c, e.items, st), secrets);
  }

  lemma {:induction false} ReduceSure(p: Prog, fuel: nat, c: Ctx, e: Expr, st: St, secrets: set<nat>)
    requires Sealed(st.heap, secrets) && e.Reduce?
    ensures SureValue(st, Eval(p, fuel, c, e, st), secrets)
    decreases fuel, ExprLen(e), 1
  {
    hide Sealed, SureValue, SureValues, EvalAll, EvalLits, EvalReduce, EvalReduceDynamic, ApplyPrim, CallClosureValue;
    hide CallNamed, Capture, EvalLit, EvalShort, EvalTest, EvalWork, FindLoop, FoldLoop, KeepLoop;
    hide LitLen, LitsLen, Lookup, Lower, MapLoop;
    match e.src {
      case Literal(ListLit(items)) =>
        LitsSure(p, items, st, secrets);
        ReducedSure(p, e.vop, st, EvalLits(p, items, st), secrets);
      case ListOf(items) =>
        EvalAllSure(p, fuel, c, items, st, secrets);
        ReducedSure(p, e.vop, st, EvalAll(p, fuel, c, items, st), secrets);
      case _ =>
        EvalSure(p, fuel, c, e.src, st, secrets);
        ReducedDynamicSure(p, e.vop, st, Eval(p, fuel, c, e.src, st), secrets);
    }
  }

  lemma {:induction false} ConditionalSure(p: Prog, fuel: nat, c: Ctx, e: Expr, st: St, secrets: set<nat>)
    requires Sealed(st.heap, secrets) && e.Conditional?
    ensures SureValue(st, Eval(p, fuel, c, e, st), secrets)
    decreases fuel, ExprLen(e), 1
  {
    hide Sealed, Safe, EvalTest, Proper, ApplyPrim, CallClosureValue, CallNamed, Capture, EvalAll;
    hide EvalLit, EvalLits, EvalReduce, EvalReduceDynamic, EvalShort, EvalWork, ExprsLen, FindLoop, FoldLoop;
    hide KeepLoop, LitLen, LitsLen, Lookup, Lower, MapLoop;
    TestSure(p, fuel, c, e.cond, st, secrets);
    var o := EvalTest(p, fuel, c, e.cond, st);
    if o.Done? {
      Onward(st, o, secrets);
      var next := if o.v then e.then_ else e.else_;
      EvalSure(p, fuel, c, next, o.st, secrets);
      After(st, o.st, Eval(p, fuel, c, next, o.st), secrets);
    }
  }

  lemma {:induction false} TestSure(p: Prog, fuel: nat, c: Ctx, e: Expr, st: St, secrets: set<nat>)
    requires Sealed(st.heap, secrets)
    ensures Sure(st, EvalTest(p, fuel, c, e, st), secrets)
    decreases fuel, ExprLen(e), 3
  {
    hide Sealed, Safe, Eval, Proper;
    EvalSure(p, fuel, c, e, st, secrets);
  }

  lemma {:induction false} NumSure(p: Prog, fuel: nat, c: Ctx, e: Expr, st: St, secrets: set<nat>)
    requires Sealed(st.heap, secrets)
    ensures Sure(st, EvalNum(p, fuel, c, e, st), secrets)
    decreases fuel, ExprLen(e), 3
  {
    hide Sealed, Safe, Eval, Proper;
    EvalSure(p, fuel, c, e, st, secrets);
  }

  function Flagged(o: Out<bool>): Out<Value> {
    var (b, s) :- o;
    Done(Bool(b), s)
  }

  lemma FlagSure(st: St, o: Out<bool>, secrets: set<nat>)
    requires Sure(st, o, secrets)
    ensures SureValue(st, Flagged(o), secrets)
  {
    hide Safe;
  }

  /** The test that a short-circuit block ends with. */
  function LastTest(p: Prog, fuel: nat, c: Ctx, left: Expr, right: Expr, decides: bool, st: St): Out<bool> {
    match EvalTest(p, fuel, c, left, st)
    case Done(b, s) => if b == decides then Done(b, s) else EvalTest(p, fuel, c, right, s)
    case o => o
  }

  lemma {:induction false} ShortFlag(p: Prog, fuel: nat, c: Ctx, left: Expr, right: Expr, decides: bool, st: St)
    ensures EvalShort(p, fuel, c, left, right, decides, st) == Flagged(LastTest(p, fuel, c, left, right, decides, st))
  {
    hide EvalTest, Eval;
  }

  lemma {:induction false} LastTestSure(p: Prog, fuel: nat, c: Ctx, left: Expr, right: Expr, decides: bool, st: St,
                                        secrets: set<nat>)
    requires Sealed(st.heap, secrets)
    ensures Sure(st, LastTest(p, fuel, c, left, right, decides, st), secrets)
    decreases fuel, ExprLen(left) + ExprLen(right), 4
  {
    hide Sealed, Safe, EvalTest;
    TestSure(p, fuel, c, left, st, secrets);
    var o := EvalTest(p, fuel, c, left, st);
    if o.Done? && o.v != decides {
      Onward(st, o, secrets);
      TestSure(p, fuel, c, right, o.st, secrets);
      After(st, o.st, EvalTest(p, fuel, c, right, o.st), secrets);
    }
  }

  lemma {:induction false} ShortSure(p: Prog, fuel: nat, c: Ctx, left: Expr, right: Expr, decides: bool, st: St,
                                     secrets: set<nat>)
    requires Sealed(st.heap, secrets)
    ensures SureValue(st, EvalShort(p, fuel, c, left, right, decides, st), secrets)
    decreases fuel, ExprLen(left) + ExprLen(right), 5
  {
    hide *;
    ShortFlag(p, fuel, c, left, right, decides, st);
    LastTestSure(p, fuel, c, left, right, decides, st, secrets);
    FlagSure(st, LastTest(p, fuel, c, left, right, decides, st), secrets);
  }
  lemma {:induction false} EvalAllSure(p: Prog, fuel: nat, c: Ctx, es: seq<Expr>, st: St, secrets: set<nat>)
    requires Sealed(st.heap, secrets)
    ensures SureValues(st, EvalAll(p, fuel, c, es, st), secrets)
    decreases fuel, ExprsLen(es), |es| + 3
  {
    hide Sealed, Safe, Eval, Proper;
    SafeSame(st.heap, secrets);
    if es != [] {
      EvalSure(p, fuel, c, es[0], st, secrets);
      var o := Eval(p, fuel, c, es[0], st);
      if o.Done? {
        Onward(st, o, secrets);
        EvalAllSure(p, fuel, c, es[1..], o.st, secrets);
        var rest := EvalAll(p, fuel, c, es[1..], o.st);
        After(st, o.st, rest, secrets);
        if rest.Done? {
          Onward(o.st, rest, secrets);
          StillProper(o.v, |o.st.heap.lists|, |rest.st.heap.lists|, secrets);
        }
      }
    }
  }

  lemma {:induction false} CallFnSure(p: Prog, fuel: nat, c: Ctx, e: Expr, st: St, secrets: set<nat>)
    requires Sealed(st.heap, secrets) && e.CallFn?
    ensures SureValue(st, Eval(p, fuel, c, e, st), secrets)
    decreases fuel, ExprLen(e), 1
  {
    hide Sealed, Safe, EvalAll, CallNamed, DeclareAllIn, Proper, ProperAll, ApplyPrim, CallClosureValue, Capture;
    hide EvalLit, EvalLits, EvalReduce, EvalReduceDynamic, EvalShort, EvalTest, EvalWork, FindLoop;
    hide FoldLoop, KeepLoop, LitLen, LitsLen, Lookup, Lower, MapLoop;
    NamedSure(p, fuel, c, e.function_, e.args, e.upvars, st, secrets);
  }

  /** A call of a custom block, with its operands. */
  lemma {:induction false} NamedSure(p: Prog, fuel: nat, c: Ctx, name: Str, args: seq<Expr>, upvars: seq<Str>, st: St,
                                     secrets: set<nat>)
    requires Sealed(st.heap, secrets)
    ensures var o := EvalAll(p, fuel, c, args, DeclareAllIn(st, upvars));
            && Sure(st, o, secrets)
            && match o case Done(vs, s) => SureValue(st, CallNamed(p, fuel, c, name, vs, s), secrets) case _ => true
    decreases fuel, ExprsLen(args), |args| + 4
  {
    hide Sealed, Safe, EvalAll, CallNamed, DeclareAllIn, Proper, ProperAll;
    var s := DeclareAllIn(st, upvars);
    DeclareAllSure(st, upvars, secrets);
    SafeSealed(st.heap, s.heap, secrets);
    EvalAllSure(p, fuel, c, args, s, secrets);
    var o := EvalAll(p, fuel, c, args, s);
    After(st, s, o, secrets);
    if o.Done? {
      Onward(st, o, secrets);
      CallNamedSure(p, fuel, c, name, o.v, o.st, secrets);
      After(st, o.st, CallNamed(p, fuel, c, name, o.v, o.st), secrets);
    }
  }

  lemma {:induction false} CallValueSure(p: Prog, fuel: nat, c: Ctx, e: Expr, st: St, secrets: set<nat>)
    requires Sealed(st.heap, secrets) && e.CallValue?
    ensures SureValue(st, Eval(p, fuel, c, e, st), secrets)
    decreases fuel, ExprLen(e), 1
  {
    hide Sealed, Safe, EvalAll, CallClosureValue, Proper, ProperAll, ApplyPrim, CallNamed, Capture;
    hide EvalLit, EvalLits, EvalReduce, EvalReduceDynamic, EvalShort, EvalTest, EvalWork, FindLoop, FoldLoop;
    hide KeepLoop, LitLen, LitsLen, Lookup, Lower, MapLoop;
    AppliedSure(p, fuel, c, e.closure, e.args, st, secrets);
  }

  /** A call of a closure, with its operands. */
  /** The arguments of a call, and the call itself. */
  ghost predicate Applied(p: Prog, fuel: nat, c: Ctx, f: Value, args: Out<seq<Value>>, st: St, secrets: set<nat>) {
    && Sure(st, args, secrets)
    && match args case Done(vs, s) => SureValue(st, CallClosureValue(p, fuel, c, f, vs, s), secrets) case _ => true
  }

  lemma {:induction false} AppliedSure(p: Prog, fuel: nat, c: Ctx, f: Expr, args: seq<Expr>, st: St, secrets: set<nat>)
    requires Sealed(st.heap, secrets)
    ensures var o := Eval(p, fuel, c, f, st);
            && Sure(st, o, secrets)
            && match o
               case Done(v, s) => Applied(p, fuel, c, v, EvalAll(p, fuel, c, args, s), st, secrets)
               case _ => true
    decreases fuel, ExprLen(f) + ExprsLen(args), |args| + 4
  {
    hide Sealed, Safe, Eval, EvalAll, CallClosureValue, Proper, ProperAll;
    EvalSure(p, fuel, c, f, st, secrets);
    var o := Eval(p, fuel, c, f, st);
    if o.Done? {
      Onward(st, o, secrets);
      EvalAllSure(p, fuel, c, args, o.st, secrets);
      var q := EvalAll(p, fuel, c, args, o.st);
      After(st, o.st, q, secrets);
      if q.Done? {
        Onward(o.st, q, secrets);
        Onward(st, q, secrets);
        StillProper(o.v, |o.st.heap.lists|, |q.st.heap.lists|, secrets);
        CallClosureSure(p, fuel, c, o.v, q.v, q.st, secrets);
        After(st, q.st, CallClosureValue(p, fuel, c, o.v, q.v, q.st), secrets);
      }
    }
  }

  // ----- calls -----

  lemma {:induction false} BodySure(p: Prog, fuel: nat, c: Ctx, upvars: seq<Str>, body: seq<Stmt>, st: St,
                                    secrets: set<nat>)
    requires Sealed(st.heap, secrets)
    ensures SureValue(st, RunBody(p, fuel, c, upvars, body, st), secrets)
    decreases fuel, StmtsLen(body), |body| + 4
  {
    hide Sealed, Safe, LinkUpvars, ExecAll;
    LinkUpvarsSure(p, c, upvars, st, secrets);
    var o := LinkUpvars(p, c, upvars, st);
    if o.Done? {
      Onward(st, o, secrets);
      ExecAllSure(p, fuel, c, body, o.st, secrets);
      After(st, o.st, ExecAll(p, fuel, c, body, o.st), secrets);
    }
  }

  lemma {:induction false} CallNamedSure(p: Prog, fuel: nat, c: Ctx, name: Str, args: seq<Value>, st: St,
                                         secrets: set<nat>)
    requires Sealed(st.heap, secrets) && ProperAll(args, |st.heap.lists|, secrets)
    ensures SureValue(st, CallNamed(p, fuel, c, name, args, st), secrets)
    decreases fuel, 0, 0
  {
    hide Sealed, Safe, Proper, ProperAll, Resolve, RunBody, DefineAll, StmtLen;
    SafeSame(st.heap, secrets);
    var fn := Resolve(p.fns, c.ent, name);
    if fuel > 0 && fn.Some? && |fn.value.params| == |args| && c.depth < p.w.maxCallDepth {
      DefineAllSafe(map[], st.heap, fn.value.params, args, secrets);
      var (l, h) := DefineAll(map[], st.heap, fn.value.params, args);
      var s := st.(locals := l, heap := h);
      SafeSealed(st.heap, h, secrets);
      BodySure(p, fuel - 1, Callee(c, st, fn.value.ent), fn.value.upvars, fn.value.body, s, secrets);
      After(st, s, RunBody(p, fuel - 1, Callee(c, st, fn.value.ent), fn.value.upvars, fn.value.body, s), secrets);
    }
  }

  lemma {:induction false} CallClosureSure(p: Prog, fuel: nat, c: Ctx, f: Value, args: seq<Value>, st: St,
                                           secrets: set<nat>)
    requires Sealed(st.heap, secrets) && ProperAll(args, |st.heap.lists|, secrets)
    ensures SureValue(st, CallClosureValue(p, fuel, c, f, args, st), secrets)
    decreases fuel, 0, 0
  {
    hide Sealed, Safe, Proper, ProperAll, RunBody, DefineAll, StmtLen;
    SafeSame(st.heap, secrets);
    if fuel > 0 && f.Closure? && f.id < |st.closures| && |st.closures[f.id].params| == |args| {
      var k := st.closures[f.id];
      DefineAllSafe(k.captures, st.heap, k.params, args, secrets);
      var (l, h) := DefineAll(k.captures, st.heap, k.params, args);
      var s := st.(locals := l, heap := h);
      SafeSealed(st.heap, h, secrets);
      BodySure(p, fuel - 1, Callee(c, st, k.code.ent), [], k.code.body, s, secrets);
      After(st, s, RunBody(p, fuel - 1, Callee(c, st, k.code.ent), [], k.code.body, s), secrets);
    }
  }

  // ----- higher-order blocks -----

  lemma {:induction false} WorkSure(p: Prog, fuel: nat, c: Ctx, f: Expr, list: Expr, st: St, secrets: set<nat>)
    requires Sealed(st.heap, secrets)
    ensures var o := EvalWork(p, fuel, c, f, list, st);
            && Sure(st, o, secrets)
            && match o
               case Done(w, s) => Proper(w.0, |s.heap.lists|, secrets) && Proper(List(w.1), |s.heap.lists|, secrets)
               case _ => true
    decreases fuel, ExprLen(f) + ExprLen(list), 3
  {
    hide Sealed, Safe, Eval, CopyList, Proper;
    EvalSure(p, fuel, c, f, st, secrets);
    var o := Eval(p, fuel, c, f, st);
    if o.Done? {
      Onward(st, o, secrets);
      EvalSure(p, fuel, c, list, o.st, secrets);
      var q := Eval(p, fuel, c, list, o.st);
      After(st, o.st, q, secrets);
      if q.Done? {
        Onward(st, q, secrets);
        Onward(o.st, q, secrets);
        CopySure(p, q.v, q.st, secrets);
        var r := CopyList(p, q.v, q.st);
        After(st, q.st, r, secrets);
        if r.Done? {
          Onward(q.st, r, secrets);
          StillProper(o.v, |o.st.heap.lists|, |r.st.heap.lists|, secrets);
        }
      }
    }
  }

  /** One call in a loop over a work list. */
  lemma {:induction false} RoundSure(p: Prog, fuel: nat, c: Ctx, f: Value, args: seq<Value>, work: nat, st: St,
                                     secrets: set<nat>)
    requires Sealed(st.heap, secrets) && Items(st.heap.lists, work) != [] && work !in secrets
             && ProperAll(args, |st.heap.lists|, secrets)
    ensures SureValue(st, CallClosureValue(p, fuel, c, f, args, TakeFirst(st, work)), secrets)
    ensures Proper(FirstOf(Items(st.heap.lists, work)), |st.heap.lists|, secrets)
    decreases fuel, 0, 1
  {
    hide Sealed, Safe, Proper, ProperAll, CallClosureValue, Items;
    TakeFirstSure(st, work, secrets);
    var s := TakeFirst(st, work);
    SafeSealed(st.heap, s.heap, secrets);
    ProperMore(args, |st.heap.lists|, |s.heap.lists|, secrets);
    CallClosureSure(p, fuel, c, f, args, s, secrets);
    After(st, s, CallClosureValue(p, fuel, c, f, args, s), secrets);
  }

  lemma FirstItem(st: St, work: nat, secrets: set<nat>)
    requires Sealed(st.heap, secrets) && Items(st.heap.lists, work) != []
    ensures ProperAll([Items(st.heap.lists, work)[0]], |st.heap.lists|, secrets)
  {
    hide Sealed;
    ItemsProper(st.heap, work, secrets);
  }

  lemma {:induction false} MapLoopSure(p: Prog, fuel: nat, c: Ctx, f: Value, work: nat, out: nat, st: St,
                                       secrets: set<nat>)
    requires Sealed(st.heap, secrets) && work !in secrets && Proper(List(out), |st.heap.lists|, secrets)
    ensures SureValue(st, MapLoop(p, fuel, c, f, work, out, st), secrets)
    decreases fuel, 0, 2
  {
    hide Sealed, Safe, ProperAll, CallClosureValue, Items, TakeFirst, Append;
    SafeSame(st.heap, secrets);
    var items := Items(st.heap.lists, work);
    if items != [] {
      FirstItem(st, work, secrets);
      RoundSure(p, fuel, c, f, [items[0]], work, st, secrets);
      var o := CallClosureValue(p, fuel, c, f, [items[0]], TakeFirst(st, work));
      if o.Done? && fuel > 0 {
        Onward(st, o, secrets);
        AppendSure(o.st, out, o.v, secrets);
        var s := Turn(c, Append(o.st, out, o.v));
        SafeSealed(o.st.heap, s.heap, secrets);
        SafeTwice(st.heap, o.st.heap, s.heap, secrets);
        MapLoopSure(p, fuel - 1, c, f, work, out, s, secrets);
        After(st, s, MapLoop(p, fuel - 1, c, f, work, out, s), secrets);
      }
    }
  }

  lemma {:induction false} KeepLoopSure(p: Prog, fuel: nat, c: Ctx, f: Value, work: nat, out: nat, st: St,
                                        secrets: set<nat>)
    requires Sealed(st.heap, secrets) && work !in secrets && Proper(List(out), |st.heap.lists|, secrets)
    ensures SureValue(st, KeepLoop(p, fuel, c, f, work, out, st), secrets)
    decreases fuel, 0, 2
  {
    hide Sealed, Safe, ProperAll, CallClosureValue, Items, TakeFirst, Append;
    SafeSame(st.heap, secrets);
    var items := Items(st.heap.lists, work);
    if items != [] {
      FirstItem(st, work, secrets);
      RoundSure(p, fuel, c, f, [items[0]], work, st, secrets);
      var o := CallClosureValue(p, fuel, c, f, [items[0]], TakeFirst(st, work));
      if o.Done? && AsBool(o.v).Ok? && fuel > 0 {
        Onward(st, o, secrets);
        AppendSure(o.st, out, items[0], secrets);
        SafeSame(o.st.heap, secrets);
        var s := Turn(c, if AsBool(o.v).value then Append(o.st, out, items[0]) else o.st);
        SafeSealed(o.st.heap, s.heap, secrets);
        SafeTwice(st.heap, o.st.heap, s.heap, secrets);
        KeepLoopSure(p, fuel - 1, c, f, work, out, s, secrets);
        After(st, s, KeepLoop(p, fuel - 1, c, f, work, out, s), secrets);
      }
    }
  }

  lemma {:induction false} FindLoopSure(p: Prog, fuel: nat, c: Ctx, f: Value, work: nat, st: St, secrets: set<nat>)
    requires Sealed(st.heap, secrets) && work !in secrets
    ensures SureValue(st, FindLoop(p, fuel, c, f, work, st), secrets)
    decreases fuel, 0, 2
  {
    hide Sealed, Safe, ProperAll, CallClosureValue, Items, TakeFirst;
    SafeSame(st.heap, secrets);
    var items := Items(st.heap.lists, work);
    if items != [] {
      FirstItem(st, work, secrets);
      RoundSure(p, fuel, c, f, [items[0]], work, st, secrets);
      var o := CallClosureValue(p, fuel, c, f, [items[0]], TakeFirst(st, work));
      if o.Done? && AsBool(o.v).Ok? {
        Onward(st, o, secrets);
        if fuel > 0 && !AsBool(o.v).value {
          FindLoopSure(p, fuel - 1, c, f, work, Turn(c, o.st), secrets);
          After(st, Turn(c, o.st), FindLoop(p, fuel - 1, c, f, work, Turn(c, o.st)), secrets);
        }
      }
    }
  }

  lemma {:induction false} FoldLoopSure(p: Prog, fuel: nat, c: Ctx, f: Value, work: nat, acc: Value, st: St,
                                        secrets: set<nat>)
    requires Sealed(st.heap, secrets) && work !in secrets && Proper(acc, |st.heap.lists|, secrets)
    ensures SureValue(st, FoldLoop(p, fuel, c, f, work, acc, st), secrets)
    decreases fuel, 0, 2
  {
    hide Sealed, Safe, CallClosureValue, Items, TakeFirst;
    SafeSame(st.heap, secrets);
    var items := Items(st.heap.lists, work);
    if items != [] {
      FirstItem(st, work, secrets);
      assert [items[0]][0] == items[0];
      RoundSure(p, fuel, c, f, [acc, items[0]], work, st, secrets);
      var o := CallClosureValue(p, fuel, c, f, [acc, items[0]], TakeFirst(st, work));
      if o.Done? && fuel > 0 {
        Onward(st, o, secrets);
        FoldLoopSure(p, fuel - 1, c, f, work, o.v, Turn(c, o.st), secrets);
        After(st, Turn(c, o.st), FoldLoop(p, fuel - 1, c, f, work, o.v, Turn(c, o.st)), secrets);
      }
    }
  }

  lemma NewListSure(st: St, secrets: set<nat>)
    requires Sealed(st.heap, secrets)
    ensures var s := st.(heap := st.heap.(lists := st.heap.lists + [[]]));
            Safe(st.heap, s.heap, secrets) && Sealed(s.heap, secrets)
              && Proper(List(|st.heap.lists|), |s.heap.lists|, secrets)
  {
    hide Sealed, Safe;
    AllocSafe(st.heap, [], secrets);
    SafeSealed(st.heap, st.heap.(lists := st.heap.lists + [[]]), secrets);
  }

  lemma {:induction false} MapSure(p: Prog, fuel: nat, c: Ctx, e: Expr, st: St, secrets: set<nat>)
    requires Sealed(st.heap, secrets) && e.Map?
    ensures SureValue(st, Eval(p, fuel, c, e, st), secrets)
    decreases fuel, ExprLen(e), 1
  {
    hide Sealed, Safe, EvalWork, MapLoop, ApplyPrim, CallClosureValue, CallNamed, Capture, EvalAll;
    hide EvalLit, EvalLits, EvalReduce, EvalReduceDynamic, EvalShort, EvalTest, ExprsLen, FindLoop, FoldLoop;
    hide KeepLoop, LitLen, LitsLen, Lookup, Lower;
    WorkSure(p, fuel, c, e.f, e.list, st, secrets);
    var o := EvalWork(p, fuel, c, e.f, e.list, st);
    if o.Done? {
      Onward(st, o, secrets);
      NewListSure(o.st, secrets);
      var s := o.st.(heap := o.st.heap.(lists := o.st.heap.lists + [[]]));
      SafeTwice(st.heap, o.st.heap, s.heap, secrets);
      MapLoopSure(p, fuel, c, o.v.0, o.v.1, |o.st.heap.lists|, s, secrets);
      After(st, s, MapLoop(p, fuel, c, o.v.0, o.v.1, |o.st.heap.lists|, s), secrets);
    }
  }

  lemma {:induction false} KeepSure(p: Prog, fuel: nat, c: Ctx, e: Expr, st: St, secrets: set<nat>)
    requires Sealed(st.heap, secrets) && e.Keep?
    ensures SureValue(st, Eval(p, fuel, c, e, st), secrets)
    decreases fuel, ExprLen(e), 1
  {
    hide Sealed, Safe, EvalWork, KeepLoop, ApplyPrim, CallClosureValue, CallNamed, Capture, EvalAll;
    hide EvalLit, EvalLits, EvalReduce, EvalReduceDynamic, EvalShort, EvalTest, ExprsLen, FindLoop, FoldLoop, LitLen;
    hide LitsLen, Lookup, Lower, MapLoop;
    WorkSure(p, fuel, c, e.f, e.list, st, secrets);
    var o := EvalWork(p, fuel, c, e.f, e.list, st);
    if o.Done? {
      Onward(st, o, secrets);
      NewListSure(o.st, secrets);
      var s := o.st.(heap := o.st.heap.(lists := o.st.heap.lists + [[]]));
      SafeTwice(st.heap, o.st.heap, s.heap, secrets);
      KeepLoopSure(p, fuel, c, o.v.0, o.v.1, |o.st.heap.lists|, s, secrets);
      After(st, s, KeepLoop(p, fuel, c, o.v.0, o.v.1, |o.st.heap.lists|, s), secrets);
    }
  }

  lemma {:induction false} FindSure(p: Prog, fuel: nat, c: Ctx, e: Expr, st: St, secrets: set<nat>)
    requires Sealed(st.heap, secrets) && e.FindFirst?
    ensures SureValue(st, Eval(p, fuel, c, e, st), secrets)
    decreases fuel, ExprLen(e), 1
  {
    hide Sealed, Safe, EvalWork, FindLoop, ApplyPrim, CallClosureValue, CallNamed, Capture, EvalAll;
    hide EvalLit, EvalLits, EvalReduce, EvalReduceDynamic, EvalShort, EvalTest, ExprsLen, FoldLoop, KeepLoop, LitLen;
    hide LitsLen, Lookup, Lower, MapLoop;
    WorkSure(p, fuel, c, e.f, e.list, st, secrets);
    var o := EvalWork(p, fuel, c, e.f, e.list, st);
    if o.Done? {
      Onward(st, o, secrets);
      FindLoopSure(p, fuel, c, o.v.0, o.v.1, o.st, secrets);
      After(st, o.st, FindLoop(p, fuel, c, o.v.0, o.v.1, o.st), secrets);
    }
  }

  lemma {:induction false} FoldSure(p: Prog, fuel: nat, c: Ctx, e: Expr, st: St, secrets: set<nat>)
    requires Sealed(st.heap, secrets) && e.FoldWith?
    ensures SureValue(st, Eval(p, fuel, c, e, st), secrets)
    decreases fuel, ExprLen(e), 1
  {
    hide Sealed, Safe, EvalAll, CopyList, FoldLoop, Items, TakeFirst;
    EvalSure(p, fuel, c, e.list, st, secrets);
    var o := Eval(p, fuel, c, e.list, st);
    if o.Done? {
      Onward(st, o, secrets);
      CopySure(p, o.v, o.st, secrets);
      var q := CopyList(p, o.v, o.st);
      After(st, o.st, q, secrets);
      if q.Done? {
        Onward(st, q, secrets);
        EvalSure(p, fuel, c, e.f, q.st, secrets);
        var r := Eval(p, fuel, c, e.f, q.st);
        After(st, q.st, r, secrets);
        if r.Done? {
          Onward(st, r, secrets);
          if Items(r.st.heap.lists, WorkId(q.v)) != [] {
            FoldWorkSure(p, fuel, c, r.v, WorkId(q.v), st, r.st, secrets);
          }
        }
      }
    }
  }

  lemma {:induction false} FoldWorkSure(p: Prog, fuel: nat, c: Ctx, f: Value, work: nat, st: St, s: St,
                                        secrets: set<nat>)
    requires Sealed(st.heap, secrets) && Safe(st.heap, s.heap, secrets) && work !in secrets
             && Items(s.heap.lists, work) != []
    ensures SureValue(st, FoldLoop(p, fuel, c, f, work, FirstOf(Items(s.heap.lists, work)), TakeFirst(s, work)),
                      secrets)
    decreases fuel, 0, 3
  {
    hide Sealed, Safe, FoldLoop, Items, TakeFirst, Proper;
    SafeSealed(st.heap, s.heap, secrets);
    TakeFirstSure(s, work, secrets);
    var t := TakeFirst(s, work);
    SafeSealed(s.heap, t.heap, secrets);
    SafeTwice(st.heap, s.heap, t.heap, secrets);
    StillProper(Items(s.heap.lists, work)[0], |s.heap.lists|, |t.heap.lists|, secrets);
    FoldLoopSure(p, fuel, c, f, work, Items(s.heap.lists, work)[0], t, secrets);
    After(st, t, FoldLoop(p, fuel, c, f, work, Items(s.heap.lists, work)[0], t), secrets);
  }

  // ----- statements -----

  lemma {:induction false} ExecAllSure(p: Prog, fuel: nat, c: Ctx, ss: seq<Stmt>, st: St, secrets: set<nat>)
    requires Sealed(st.heap, secrets)
    ensures SureReport(st, ExecAll(p, fuel, c, ss, st), secrets)
    decreases fuel, StmtsLen(ss), |ss| + 3
  {
    hide Sealed, Safe, Exec1, Proper;
    SafeSame(st.heap, secrets);
    if ss != [] {
      Exec1Sure(p, fuel, c, ss[0], st, secrets);
      var o := Exec1(p, fuel, c, ss[0], st);
      if o.Done? && o.v.None? {
        Onward(st, o, secrets);
        ExecAllSure(p, fuel, c, ss[1..], o.st, secrets);
        After(st, o.st, ExecAll(p, fuel, c, ss[1..], o.st), secrets);
      }
    }
  }

  lemma {:induction false} Exec1Sure(p: Prog, fuel: nat, c: Ctx, s: Stmt, st: St, secrets: set<nat>)
    requires Sealed(st.heap, secrets)
    ensures SureReport(st, Exec1(p, fuel, c, s, st), secrets)
    decreases fuel, StmtLen(s), 2
  {
    hide *;
    match s {
      case SetVar(_, _) => AssignSure(p, fuel, c, s, st, secrets);
      case ChangeVar(_, _) => AssignSure(p, fuel, c, s, st, secrets);
      case ReturnValue(_) => AssignSure(p, fuel, c, s, st, secrets);
      case DeclareLocals(_) => DoSure(p, fuel, c, s, st, secrets);
      case Do(_, _) => DoSure(p, fuel, c, s, st, secrets);
      case Warp(_) => BranchSure(p, fuel, c, s, st, secrets);
      case If(_, _) => BranchSure(p, fuel, c, s, st, secrets);
      case IfElse(_, _, _) => BranchSure(p, fuel, c, s, st, secrets);
      case TryCatch(_, _, _) => TrySure(p, fuel, c, s, st, secrets);
      case InfLoop(_) => LoopSure(p, fuel, c, s, st, secrets);
      case UntilLoop(_, _) => LoopSure(p, fuel, c, s, st, secrets);
      case Repeat(_, _) => LoopSure(p, fuel, c, s, st, secrets);
      case ForLoop(_, _, _, _) => ForSure(p, fuel, c, s, st, secrets);
      case ForeachLoop(_, _, _) => ForeachSure(p, fuel, c, s, st, secrets);
      case RunFn(_, _, _) => RunSure(p, fuel, c, s, st, secrets);
      case RunValue(_, _) => RunSure(p, fuel, c, s, st, secrets);
    }
  }

  lemma {:induction false} AssignSure(p: Prog, fuel: nat, c: Ctx, s: Stmt, st: St, secrets: set<nat>)
    requires Sealed(st.heap, secrets) && (s.SetVar? || s.ChangeVar? || s.ReturnValue?)
    ensures SureReport(st, Exec1(p, fuel, c, s, st), secrets)
    decreases fuel, StmtLen(s), 1
  {
    hide Sealed, Safe, Eval, SetVariable, ChangeVariable, Proper, ApplyPrim, CallClosureValue, CallNamed, EvalAll;
    hide EvalTest, ExecAll, ExprsLen, LitLen, LitsLen, LowerDo, RunForever, RunRepeat, RunUntil;
    hide StmtsLen;
    EvalSure(p, fuel, c, s.value, st, secrets);
    var o := Eval(p, fuel, c, s.value, st);
    if o.Done? {
      Onward(st, o, secrets);
      if s.SetVar? {
        SetVariableSure(p, o.st, s.name, o.v, secrets);
        After(st, o.st, SetVariable(p, o.st, s.name, o.v), secrets);
      } else if s.ChangeVar? {
        ChangeVariableSure(p, o.st, s.name, o.v, secrets);
        After(st, o.st, ChangeVariable(p, o.st, s.name, o.v), secrets);
      }
    }
  }

  lemma {:induction false} DoSure(p: Prog, fuel: nat, c: Ctx, s: Stmt, st: St, secrets: set<nat>)
    requires Sealed(st.heap, secrets) && (s.Do? || s.DeclareLocals?)
    ensures SureReport(st, Exec1(p, fuel, c, s, st), secrets)
    decreases fuel, StmtLen(s), 1
  {
    hide Sealed, Safe, EvalAll, ApplyPrim, Quiet, LowerDo, Arity, Proper, ProperAll, DeclareAllIn, BinaryOn;
    hide CallClosureValue, CallNamed, Eval, EvalTest, ExecAll, ExprLen, Lookup, RunForever;
    hide RunRepeat, RunUntil, StmtsLen;
    if s.DeclareLocals? {
      DeclareAllSure(st, s.names, secrets);
    } else {
      EvalAllSure(p, fuel, c, s.args, st, secrets);
      var o := EvalAll(p, fuel, c, s.args, st);
      if o.Done? {
        Onward(st, o, secrets);
        PrimSure(p, LowerDo(s.op), o.v, o.st, secrets);
        QuietSure(o.st, ApplyPrim(p, LowerDo(s.op), o.v, o.st), secrets);
        After(st, o.st, Quiet(ApplyPrim(p, LowerDo(s.op), o.v, o.st)), secrets);
      }
    }
  }

  lemma {:induction false} BranchSure(p: Prog, fuel: nat, c: Ctx, s: Stmt, st: St, secrets: set<nat>)
    requires Sealed(st.heap, secrets) && (s.Warp? || s.If? || s.IfElse?)
    ensures SureReport(st, Exec1(p, fuel, c, s, st), secrets)
    decreases fuel, StmtLen(s), 1
  {
    hide Sealed, Safe, EvalTest, ExecAll, Proper, ApplyPrim, BinaryOn, CallClosureValue, CallNamed, Eval, EvalAll;
    hide ExprsLen, LitLen, LitsLen, Lookup, LowerDo, RunForever, RunRepeat, RunUntil;
    if s.Warp? {
      ExecAllSure(p, fuel, c.(warp := c.warp + 1), s.body, st, secrets);
    } else {
      TestSure(p, fuel, c, s.cond, st, secrets);
      var o := EvalTest(p, fuel, c, s.cond, st);
      if o.Done? {
        Onward(st, o, secrets);
        var body := if o.v then s.then_ else if s.IfElse? then s.else_ else [];
        ExecAllSure(p, fuel, c, body, o.st, secrets);
        After(st, o.st, ExecAll(p, fuel, c, body, o.st), secrets);
      }
    }
  }

  lemma {:induction false} TrySure(p: Prog, fuel: nat, c: Ctx, s: Stmt, st: St, secrets: set<nat>)
    requires Sealed(st.heap, secrets) && s.TryCatch?
    ensures SureReport(st, Exec1(p, fuel, c, s, st), secrets)
    decreases fuel, StmtLen(s), 1
  {
    hide Sealed, Safe, ExecAll, Proper, Message, ApplyPrim, BinaryOn, CallClosureValue, CallNamed, Eval, EvalAll;
    hide EvalTest, ExprLen, ExprsLen, Lookup, LowerDo, RunForever, RunRepeat, RunUntil;
    ExecAllSure(p, fuel, c, s.body, st, secrets);
    var o := ExecAll(p, fuel, c, s.body, st);
    if o.Raised? {
      SafeSealed(st.heap, o.st.heap, secrets);
      var t := Caught(p, o.st, s.name, o.err);
      CaughtSure(p, o.st, s.name, o.err, secrets);
      SafeTwice(st.heap, o.st.heap, t.heap, secrets);
      SafeSealed(o.st.heap, t.heap, secrets);
      ExecAllSure(p, fuel, c, s.handler, t, secrets);
      After(st, t, ExecAll(p, fuel, c, s.handler, t), secrets);
    }
  }

  lemma CaughtSure(p: Prog, st: St, name: Str, err: Error, secrets: set<nat>)
    requires Sealed(st.heap, secrets)
    ensures Safe(st.heap, Caught(p, st, name, err).heap, secrets)
  {
    hide Sealed, Safe, Message;
    CellSafe(st.heap, 0, Txt(Message(p.w, err)), secrets);
  }

  lemma {:induction false} RunSure(p: Prog, fuel: nat, c: Ctx, s: Stmt, st: St, secrets: set<nat>)
    requires Sealed(st.heap, secrets) && (s.RunFn? || s.RunValue?)
    ensures SureReport(st, Exec1(p, fuel, c, s, st), secrets)
    decreases fuel, StmtLen(s), 1
  {
    hide Sealed, Safe, Eval, EvalAll, CallNamed, CallClosureValue, DeclareAllIn, Proper, ProperAll, ApplyPrim;
    hide BinaryOn, EvalTest, ExecAll, LitLen, LitsLen, Lookup, LowerDo, RunForever, RunRepeat;
    hide RunUntil, StmtsLen;
    if s.RunFn? {
      NamedSure(p, fuel, c, s.function_, s.args, s.upvars, st, secrets);
    } else {
      AppliedSure(p, fuel, c, s.closure, s.args, st, secrets);
    }
  }

  lemma {:induction false} LoopSure(p: Prog, fuel: nat, c: Ctx, s: Stmt, st: St, secrets: set<nat>)
    requires Sealed(st.heap, secrets) && (s.InfLoop? || s.UntilLoop? || s.Repeat?)
    ensures SureReport(st, Exec1(p, fuel, c, s, st), secrets)
    decreases fuel, StmtLen(s), 1
  {
    hide Sealed, Safe, Eval, RunForever, RunUntil, RunRepeat, Proper, ApplyPrim, BinaryOn, CallClosureValue;
    hide CallNamed, EvalAll, EvalTest, ExecAll, ExprsLen, LitLen, LitsLen, Lookup, LowerDo;
    if s.InfLoop? {
      ForeverSure(p, fuel, c, s.body, st, secrets);
    } else if s.UntilLoop? {
      UntilSure(p, fuel, c, s.cond, s.body, st, secrets);
    } else {
      EvalSure(p, fuel, c, s.times, st, secrets);
      var o := Eval(p, fuel, c, s.times, st);
      if o.Done? {
        Onward(st, o, secrets);
        RepeatSure(p, fuel, c, o.v, s.body, o.st, secrets);
        After(st, o.st, RunRepeat(p, fuel, c, o.v, s.body, o.st), secrets);
      }
    }
  }

  lemma {:induction false} ForeverSure(p: Prog, fuel: nat, c: Ctx, body: seq<Stmt>, st: St, secrets: set<nat>)
    requires Sealed(st.heap, secrets)
    ensures SureReport(st, RunForever(p, fuel, c, body, st), secrets)
    decreases fuel, StmtsLen(body), |body| + 4
  {
    hide Sealed, Safe, ExecAll, Proper;
    ExecAllSure(p, fuel, c, body, st, secrets);
    var o := ExecAll(p, fuel, c, body, st);
    if o.Done? && o.v.None? && fuel > 0 {
      Onward(st, o, secrets);
      ForeverSure(p, fuel - 1, c, body, Turn(c, o.st), secrets);
      After(st, Turn(c, o.st), RunForever(p, fuel - 1, c, body, Turn(c, o.st)), secrets);
    }
  }

  lemma {:induction false} UntilSure(p: Prog, fuel: nat, c: Ctx, cond: Expr, body: seq<Stmt>, st: St, secrets: set<nat>)
    requires Sealed(st.heap, secrets)
    ensures SureReport(st, RunUntil(p, fuel, c, cond, body, st), secrets)
    decreases fuel, ExprLen(cond) + StmtsLen(body), |body| + 4
  {
    hide Sealed, Safe, EvalTest, ExecAll, Proper;
    TestSure(p, fuel, c, cond, st, secrets);
    var o := EvalTest(p, fuel, c, cond, st);
    if o.Done? && !o.v {
      Onward(st, o, secrets);
      ExecAllSure(p, fuel, c, body, o.st, secrets);
      var q := ExecAll(p, fuel, c, body, o.st);
      After(st, o.st, q, secrets);
      if q.Done? && q.v.None? && fuel > 0 {
        Onward(st, q, secrets);
        UntilSure(p, fuel - 1, c, cond, body, Turn(c, q.st), secrets);
        After(st, Turn(c, q.st), RunUntil(p, fuel - 1, c, cond, body, Turn(c, q.st)), secrets);
      }
    }
  }

  lemma {:induction false} RepeatSure(p: Prog, fuel: nat, c: Ctx, v: Value, body: seq<Stmt>, st: St, secrets: set<nat>)
    requires Sealed(st.heap, secrets)
    ensures SureReport(st, RunRepeat(p, fuel, c, v, body, st), secrets)
    decreases fuel, StmtsLen(body), |body| + 4
  {
    hide Sealed, Safe, Relates, ExecAll, BinaryOn, Proper, StmtLen;
    SafeSame(st.heap, secrets);
    var more := Relates(p.w, st.heap.lists, Greater, v, Num(0.0));
    if more.Ok? && more.value {
      ExecAllSure(p, fuel, c, body, st, secrets);
      var o := ExecAll(p, fuel, c, body, st);
      if o.Done? && o.v.None? {
        Onward(st, o, secrets);
        var less := BinaryOn(p.w, Sub, v, Num(1.0), o.st.heap.lists);
        if less.Ok? {
          BinarySafe(p.w, Sub, v, Num(1.0), o.st.heap, secrets);
          if fuel > 0 {
            var s := Turn(c, o.st.(heap := o.st.heap.(lists := less.value.1)));
            SafeTwice(st.heap, o.st.heap, s.heap, secrets);
            SafeSealed(st.heap, s.heap, secrets);
            RepeatSure(p, fuel - 1, c, less.value.0, body, s, secrets);
            After(st, s, RunRepeat(p, fuel - 1, c, less.value.0, body, s), secrets);
          }
        }
      }
    }
  }

  lemma {:induction false} ForSure(p: Prog, fuel: nat, c: Ctx, s: Stmt, st: St, secrets: set<nat>)
    requires Sealed(st.heap, secrets) && s.ForLoop?
    ensures SureReport(st, Exec1(p, fuel, c, s, st), secrets)
    decreases fuel, StmtLen(s), 1
  {
    hide Sealed, Safe, EvalNum, RunFor, Proper, DeclareIn;
    var d := DeclareIn(st, s.v.name);
    DeclareOneSure(st, s.v.name, secrets);
    SafeSealed(st.heap, d.heap, secrets);
    NumSure(p, fuel, c, s.start, d, secrets);
    var o := EvalNum(p, fuel, c, s.start, d);
    After(st, d, o, secrets);
    if o.Done? {
      Onward(st, o, secrets);
      NumSure(p, fuel, c, s.stop, o.st, secrets);
      var q := EvalNum(p, fuel, c, s.stop, o.st);
      After(st, o.st, q, secrets);
      if q.Done? {
        Onward(st, q, secrets);
        CountSure(p, fuel, c, s.v.trans, o.v, q.v, 0, s.body, q.st, secrets);
        After(st, q.st, RunFor(p, fuel, c, s.v.trans, o.v, q.v, 0, s.body, q.st), secrets);
      }
    }
  }

  lemma DeclareOneSure(st: St, name: Str, secrets: set<nat>)
    requires Sealed(st.heap, secrets)
    ensures Safe(st.heap, DeclareIn(st, name).heap, secrets)
  {
    hide Sealed, Safe;
    SafeSame(st.heap, secrets);
    CellSafe(st.heap, 0, Num(0.0), secrets);
  }

  lemma {:induction false} CountSure(p: Prog, fuel: nat, c: Ctx, name: Str, a: real, b: real, k: nat, body: seq<Stmt>,
                                     st: St, secrets: set<nat>)
    requires Sealed(st.heap, secrets)
    ensures SureReport(st, RunFor(p, fuel, c, name, a, b, k, body, st), secrets)
    decreases fuel, StmtsLen(body), |body| + 4
  {
    hide Sealed, Safe, SetVariable, ExecAll, Distance, ForValue;
    SafeSame(st.heap, secrets);
    if k as real <= Distance(a, b) {
      SetVariableSure(p, st, name, Num(ForValue(a, b, k)), secrets);
      var o := SetVariable(p, st, name, Num(ForValue(a, b, k)));
      if o.Done? {
        Onward(st, o, secrets);
        ExecAllSure(p, fuel, c, body, o.st, secrets);
        var q := ExecAll(p, fuel, c, body, o.st);
        After(st, o.st, q, secrets);
        if q.Done? && q.v.None? && fuel > 0 {
          Onward(st, q, secrets);
          CountSure(p, fuel - 1, c, name, a, b, k + 1, body, Turn(c, q.st), secrets);
          After(st, Turn(c, q.st), RunFor(p, fuel - 1, c, name, a, b, k + 1, body, Turn(c, q.st)), secrets);
        }
      }
    }
  }

  lemma {:induction false} ForeachSure(p: Prog, fuel: nat, c: Ctx, s: Stmt, st: St, secrets: set<nat>)
    requires Sealed(st.heap, secrets) && s.ForeachLoop?
    ensures SureReport(st, Exec1(p, fuel, c, s, st), secrets)
    decreases fuel, StmtLen(s), 1
  {
    hide Sealed, Safe, Eval, CopyList, RunForeach, DeclareIn;
    var d := DeclareIn(st, s.v.name);
    DeclareOneSure(st, s.v.name, secrets);
    SafeSealed(st.heap, d.heap, secrets);
    EvalSure(p, fuel, c, s.items, d, secrets);
    var o := Eval(p, fuel, c, s.items, d);
    After(st, d, o, secrets);
    if o.Done? {
      Onward(st, o, secrets);
      CopySure(p, o.v, o.st, secrets);
      var q := CopyList(p, o.v, o.st);
      After(st, o.st, q, secrets);
      if q.Done? {
        Onward(st, q, secrets);
        EachSure(p, fuel, c, s.v.trans, WorkId(q.v), s.body, q.st, secrets);
        After(st, q.st, RunForeach(p, fuel, c, s.v.trans, WorkId(q.v), s.body, q.st), secrets);
      }
    }
  }

  lemma {:induction false} EachSure(p: Prog, fuel: nat, c: Ctx, name: Str, work: nat, body: seq<Stmt>, st: St,
                                    secrets: set<nat>)
    requires Sealed(st.heap, secrets) && work !in secrets
    ensures SureReport(st, RunForeach(p, fuel, c, name, work, body, st), secrets)
    decreases fuel, StmtsLen(body), |body| + 4
  {
    hide Sealed, Safe, SetVariable, ExecAll, Items, TakeFirst, Proper, StmtLen;
    SafeSame(st.heap, secrets);
    var items := Items(st.heap.lists, work);
    if items != [] {
      TakeFirstSure(st, work, secrets);
      var t := TakeFirst(st, work);
      SafeSealed(st.heap, t.heap, secrets);
      StillProper(items[0], |st.heap.lists|, |t.heap.lists|, secrets);
      SetVariableSure(p, t, name, items[0], secrets);
      var o := SetVariable(p, t, name, items[0]);
      After(st, t, o, secrets);
      if o.Done? {
        Onward(st, o, secrets);
        ExecAllSure(p, fuel, c, body, o.st, secrets);
        var q := ExecAll(p, fuel, c, body, o.st);
        After(st, o.st, q, secrets);
        if q.Done? && q.v.None? && fuel > 0 {
          Onward(st, q, secrets);
          EachSure(p, fuel - 1, c, name, work, body, Turn(c, q.st), secrets);
          After(st, Turn(c, q.st), RunForeach(p, fuel - 1, c, name, work, body, Turn(c, q.st)), secrets);
        }
      }
    }
  }
}

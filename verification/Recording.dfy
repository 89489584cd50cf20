/** Where the locations of a syntax tree are recorded: the compiler records the location of a block when the block's
    code is complete, behind that code. */
module Recording {
  import opened Common
  import opened Bytecode
  import opened Machine
  import opened Ast
  import opened Source
  import opened Codegen
  import opened Laying
  import opened Codec
  import opened LinkedCode
  import opened Locations
  import opened Located

  /** The parts of a program that code is laid out for. Bodies have no location of their own. */
  datatype Node = OfExpr(e: Expr) | OfStmt(s: Stmt) | OfBody(upvars: seq<Str>, body: seq<Stmt>)

  /** A part of a part, and how far into its code its own code begins. */
  datatype Kid = Kid(off: nat, node: Node)

  function Len(n: Node): nat {
    match n
    case OfExpr(e) => ExprLen(e)
    case OfStmt(s) => StmtLen(s)
    case OfBody(upvars, body) => BodyLen(upvars, body)
  }

  predicate NodeAt(g: Scope, code: seq<Slot>, n: Node, pc: int) {
    match n
    case OfExpr(e) => ExprAt(g, code, e, pc)
    case OfStmt(s) => StmtAt(g, code, s, pc)
    case OfBody(upvars, body) => BodyAt(g, code, upvars, body, pc)
  }

  function ExprKids(es: seq<Expr>, off: nat): seq<Kid> {
    if es == [] then [] else [Kid(off, OfExpr(es[0]))] + ExprKids(es[1..], off + ExprLen(es[0]))
  }

  function StmtKids(ss: seq<Stmt>, off: nat): seq<Kid> {
    if ss == [] then [] else [Kid(off, OfStmt(ss[0]))] + StmtKids(ss[1..], off + StmtLen(ss[0]))
  }

  /** The parts that are appended for an expression, in order. The items of a list under an operator are appended
      without the list. */
  function KidsOfExpr(e: Expr): seq<Kid> {
    if e.Simple? then ExprKids(e.args, 0)
    else if e.ListOf? then ExprKids(e.items, 0)
    else if e.Reduce? then
      if e.src.ListOf? then ExprKids(e.src.items, 0) else if Written(e.src) then [] else ExprKids([e.src], 0)
    else if e.Conditional? then
      var a := ExprLen(e.cond) + 1;
      ExprKids([e.cond], 0) + (ExprKids([e.then_], a) + ExprKids([e.else_], a + ExprLen(e.then_) + 1))
    else if e.Or? || e.And? then ExprKids([e.left], 0) + ExprKids([e.right], ExprLen(e.left) + 3)
    else if e.CallFn? then ExprKids(e.args, |e.upvars|)
    else if e.CallValue? then ExprKids([e.closure], 0) + ExprKids(e.args, ExprLen(e.closure))
    else if e.Map? || e.Keep? || e.FindFirst? then ExprKids([e.f], 0) + ExprKids([e.list], ExprLen(e.f))
    else if e.FoldWith? then ExprKids([e.list], 0) + ExprKids([e.f], ExprLen(e.list) + 1)
    else []
  }

  function KidsOfStmt(s: Stmt): seq<Kid> {
    if s.SetVar? || s.ChangeVar? || s.ReturnValue? then ExprKids([s.value], 0)
    else if s.Do? then ExprKids(s.args, 0)
    else if s.Warp? then StmtKids(s.body, 1)
    else if s.InfLoop? then StmtKids(s.body, 0)
    else if s.UntilLoop? then ExprKids([s.cond], 0) + StmtKids(s.body, ExprLen(s.cond) + 1)
    else if s.Repeat? then ExprKids([s.times], 0) + StmtKids(s.body, ExprLen(s.times) + 4)
    else if s.ForLoop? then
      var a := ExprLen(s.start) + 2;
      ExprKids([s.start], 1) + (ExprKids([s.stop], a) + StmtKids(s.body, a + ExprLen(s.stop) + 19))
    else if s.ForeachLoop? then ExprKids([s.items], 1) + StmtKids(s.body, ExprLen(s.items) + 5)
    else if s.If? then ExprKids([s.cond], 0) + StmtKids(s.then_, ExprLen(s.cond) + 1)
    else if s.IfElse? then
      var a := ExprLen(s.cond) + 1;
      ExprKids([s.cond], 0) + (StmtKids(s.then_, a) + StmtKids(s.else_, a + StmtsLen(s.then_) + 1))
    else if s.TryCatch? then StmtKids(s.body, 1) + StmtKids(s.handler, StmtsLen(s.body) + 4)
    else if s.RunFn? then ExprKids(s.args, |s.upvars|)
    else if s.RunValue? then ExprKids([s.closure], 0) + ExprKids(s.args, ExprLen(s.closure))
    else []
  }

  function Kids(n: Node): seq<Kid> {
    match n
    case OfExpr(e) => KidsOfExpr(e)
    case OfStmt(s) => KidsOfStmt(s)
    case OfBody(upvars, body) => StmtKids(body, |upvars|)
  }

  // ----- every part is there -----

  function NodesOf(ks: seq<Kid>): seq<Node> {
    seq(|ks|, i requires 0 <= i < |ks| => ks[i].node)
  }

  function Exprs(es: seq<Expr>): seq<Node> {
    seq(|es|, i requires 0 <= i < |es| => OfExpr(es[i]))
  }

  function Stmts(ss: seq<Stmt>): seq<Node> {
    seq(|ss|, i requires 0 <= i < |ss| => OfStmt(ss[i]))
  }

  lemma {:induction false} NodesOfExprs(es: seq<Expr>, off: nat)
    ensures NodesOf(ExprKids(es, off)) == Exprs(es)
    decreases |es|
  {
    if es != [] {
      var rest := ExprKids(es[1..], off + ExprLen(es[0]));
      NodesOfExprs(es[1..], off + ExprLen(es[0]));
      assert ExprKids(es, off) == [Kid(off, OfExpr(es[0]))] + rest;
      JoinedNodes([Kid(off, OfExpr(es[0]))], rest);
      assert [OfExpr(es[0])] + Exprs(es[1..]) == Exprs(es);
    }
  }

  lemma {:induction false} NodesOfStmts(ss: seq<Stmt>, off: nat)
    ensures NodesOf(StmtKids(ss, off)) == Stmts(ss)
    decreases |ss|
  {
    if ss != [] {
      var rest := StmtKids(ss[1..], off + StmtLen(ss[0]));
      NodesOfStmts(ss[1..], off + StmtLen(ss[0]));
      assert StmtKids(ss, off) == [Kid(off, OfStmt(ss[0]))] + rest;
      JoinedNodes([Kid(off, OfStmt(ss[0]))], rest);
      assert [OfStmt(ss[0])] + Stmts(ss[1..]) == Stmts(ss);
    }
  }

  lemma JoinedNodes(a: seq<Kid>, b: seq<Kid>)
    ensures NodesOf(a + b) == NodesOf(a) + NodesOf(b)
  {
  }

  /** The parts of an expression are all the expressions in it that are appended, in the order of their code. */
  lemma EveryExprPart(e: Expr)
    ensures var ns := NodesOf(KidsOfExpr(e));
            && (e.Literal? || e.Variable? || e.Lambda? ==> ns == [])
            && (e.Simple? ==> ns == Exprs(e.args)) && (e.ListOf? ==> ns == Exprs(e.items))
            && (e.Reduce? && e.src.ListOf? ==> ns == Exprs(e.src.items))
            && (e.Reduce? && Written(e.src) ==> ns == [])
            && (e.Reduce? && !e.src.ListOf? && !Written(e.src) ==> ns == Exprs([e.src]))
            && (e.Conditional? ==> ns == Exprs([e.cond, e.then_, e.else_]))
            && (e.Or? || e.And? ==> ns == Exprs([e.left, e.right]))
            && (e.CallFn? ==> ns == Exprs(e.args)) && (e.CallValue? ==> ns == Exprs([e.closure] + e.args))
            && (e.Map? || e.Keep? || e.FindFirst? ==> ns == Exprs([e.f, e.list]))
            && (e.FoldWith? ==> ns == Exprs([e.list, e.f]))
  {
    hide ExprKids, NodesOf, ExprLen, ExprsLen, LitLen, LitsLen;
    forall es, off: nat ensures NodesOf(ExprKids(es, off)) == Exprs(es) {
      NodesOfExprs(es, off);
    }
    forall a, b ensures NodesOf(a + b) == NodesOf(a) + NodesOf(b) {
      JoinedNodes(a, b);
    }
    NoNodes();
  }

  lemma NoNodes()
    ensures NodesOf([]) == []
  {
  }

  /** The same for statements. */
  lemma EveryStmtPart(s: Stmt)
    ensures var ns := NodesOf(KidsOfStmt(s));
            && (s.SetVar? || s.ChangeVar? || s.ReturnValue? ==> ns == Exprs([s.value]))
            && (s.DeclareLocals? ==> ns == []) && (s.Do? ==> ns == Exprs(s.args))
            && (s.Warp? || s.InfLoop? ==> ns == Stmts(s.body))
            && (s.UntilLoop? ==> ns == Exprs([s.cond]) + Stmts(s.body))
            && (s.Repeat? ==> ns == Exprs([s.times]) + Stmts(s.body))
            && (s.ForLoop? ==> ns == Exprs([s.start, s.stop]) + Stmts(s.body))
            && (s.ForeachLoop? ==> ns == Exprs([s.items]) + Stmts(s.body))
            && (s.If? ==> ns == Exprs([s.cond]) + Stmts(s.then_))
            && (s.IfElse? ==> ns == Exprs([s.cond]) + Stmts(s.then_) + Stmts(s.else_))
            && (s.TryCatch? ==> ns == Stmts(s.body) + Stmts(s.handler))
            && (s.RunFn? ==> ns == Exprs(s.args)) && (s.RunValue? ==> ns == Exprs([s.closure] + s.args))
  {
    hide ExprKids, StmtKids, NodesOf, ExprLen, ExprsLen, StmtLen, StmtsLen;
    forall es, off: nat ensures NodesOf(ExprKids(es, off)) == Exprs(es) {
      NodesOfExprs(es, off);
    }
    forall ss, off: nat ensures NodesOf(StmtKids(ss, off)) == Stmts(ss) {
      NodesOfStmts(ss, off);
    }
    forall a, b ensures NodesOf(a + b) == NodesOf(a) + NodesOf(b) {
      JoinedNodes(a, b);
    }
    NoNodes();
  }

  // ----- parts stand one behind the other -----

  /** The parts stand in a row between two offsets. */
  ghost predicate Row(ks: seq<Kid>, from: int, to: int) {
    && (forall i :: 0 <= i < |ks| ==> from <= ks[i].off && ks[i].off + Len(ks[i].node) <= to)
    && forall i, j :: 0 <= i < j < |ks| ==> ks[i].off + Len(ks[i].node) <= ks[j].off
  }

  /** Every part has less code than the whole. */
  ghost predicate Smaller(ks: seq<Kid>, bound: nat) {
    forall i :: 0 <= i < |ks| ==> Len(ks[i].node) < bound
  }

  lemma RowJoin(a: seq<Kid>, b: seq<Kid>, from: int, mid: int, mid': int, to: int, bound: nat)
    requires Row(a, from, mid) && Row(b, mid', to) && from <= mid <= mid' <= to
    requires mid - from < bound && to - mid' < bound
    ensures Row(a + b, from, to) && Smaller(a + b, bound)
  {
    hide Len;
  }

  lemma RowWithin(ks: seq<Kid>, from: int, to: int, from': int, to': int, bound: nat)
    requires Row(ks, from, to) && from' <= from && to <= to' && to - from < bound
    ensures Row(ks, from', to') && Smaller(ks, bound)
  {
    hide Len;
  }

  lemma {:induction false} ExprsRow(es: seq<Expr>, off: nat)
    ensures Row(ExprKids(es, off), off, off + ExprsLen(es))
    decreases |es|
  {
    hide ExprLen;
    if es != [] {
      var first, n := [Kid(off, OfExpr(es[0]))], ExprLen(es[0]);
      assert Row(first, off, off + n);
      ExprsRow(es[1..], off + n);
      RowJoin(first, ExprKids(es[1..], off + n), off, off + n, off + n, off + ExprsLen(es), ExprsLen(es) + 1);
    }
  }

  lemma {:induction false} StmtsRow(ss: seq<Stmt>, off: nat)
    ensures Row(StmtKids(ss, off), off, off + StmtsLen(ss))
    decreases |ss|
  {
    hide StmtLen;
    if ss != [] {
      var first, n := [Kid(off, OfStmt(ss[0]))], StmtLen(ss[0]);
      assert Row(first, off, off + n);
      StmtsRow(ss[1..], off + n);
      RowJoin(first, StmtKids(ss[1..], off + n), off, off + n, off + n, off + StmtsLen(ss), StmtsLen(ss) + 1);
    }
  }

  lemma OneRow(e: Expr, off: nat)
    ensures Row(ExprKids([e], off), off, off + ExprLen(e))
  {
    hide ExprKids, Row;
    ExprsRow([e], off);
    OneLen(e);
  }

  lemma OneLen(e: Expr)
    ensures ExprsLen([e]) == ExprLen(e)
  {
    assert [e][1..] == [];
  }

  lemma ExprKidsFit(e: Expr)
    ensures Row(KidsOfExpr(e), 0, ExprLen(e)) && Smaller(KidsOfExpr(e), ExprLen(e))
  {
    hide ExprKids, Row, Smaller, LitLen, LitsLen, ExprsLen;
    var n := ExprLen(e);
    NoRow(n);
    if e.Simple? {
      ExprsRow(e.args, 0);
      RowWithin(ExprKids(e.args, 0), 0, n - 1, 0, n, n);
    } else if e.ListOf? {
      ExprsRow(e.items, 0);
      RowWithin(ExprKids(e.items, 0), 0, n - 1, 0, n, n);
    } else if e.Reduce? {
      if e.src.ListOf? {
        ExprsRow(e.src.items, 0);
        RowWithin(ExprKids(e.src.items, 0), 0, n - 1, 0, n, n);
      } else if !Written(e.src) {
        OneRow(e.src, 0);
        RowWithin(ExprKids([e.src], 0), 0, n - 1, 0, n, n);
      }
    } else if e.Conditional? {
      var a, b := ExprLen(e.cond), ExprLen(e.then_);
      OneRow(e.cond, 0);
      OneRow(e.then_, a + 1);
      OneRow(e.else_, a + b + 2);
      RowJoin(ExprKids([e.then_], a + 1), ExprKids([e.else_], a + b + 2), a + 1, a + b + 1, a + b + 2, n, n);
      RowJoin(ExprKids([e.cond], 0), ExprKids([e.then_], a + 1) + ExprKids([e.else_], a + b + 2), 0, a, a + 1, n, n);
      assert a + 1 + b + 1 == a + b + 2;
    } else if e.Or? || e.And? {
      TwoRow(e.left, e.right, ExprLen(e.left) + 3, n);
    } else if e.CallFn? {
      ExprsRow(e.args, |e.upvars|);
      RowWithin(ExprKids(e.args, |e.upvars|), |e.upvars|, n - 1, 0, n, n);
    } else if e.CallValue? {
      AppliedRow(e.closure, e.args, n);
    } else if e.Map? || e.Keep? || e.FindFirst? {
      TwoRow(e.f, e.list, ExprLen(e.f), n);
    } else if e.FoldWith? {
      TwoRow(e.list, e.f, ExprLen(e.list) + 1, n);
    }
  }

  lemma NoRow(n: nat)
    ensures Row([], 0, n) && Smaller([], n)
  {
  }

  lemma TwoRow(a: Expr, b: Expr, off: nat, n: nat)
    requires ExprLen(a) <= off && off + ExprLen(b) < n
    ensures Row(ExprKids([a], 0) + ExprKids([b], off), 0, n) && Smaller(ExprKids([a], 0) + ExprKids([b], off), n)
  {
    hide ExprKids, Row, Smaller, ExprLen;
    OneRow(a, 0);
    OneRow(b, off);
    var ks := ExprKids([a], 0) + ExprKids([b], off);
    RowJoin(ExprKids([a], 0), ExprKids([b], off), 0, ExprLen(a), off, off + ExprLen(b), n);
    RowWithin(ks, 0, off + ExprLen(b), 0, n, n);
  }

  lemma AppliedRow(f: Expr, args: seq<Expr>, n: nat)
    requires ExprLen(f) + ExprsLen(args) < n
    ensures var ks := ExprKids([f], 0) + ExprKids(args, ExprLen(f)); Row(ks, 0, n) && Smaller(ks, n)
  {
    hide ExprKids, Row, Smaller, ExprLen, ExprsLen;
    var a, b := ExprLen(f), ExprsLen(args);
    OneRow(f, 0);
    ExprsRow(args, a);
    RowJoin(ExprKids([f], 0), ExprKids(args, a), 0, a, a, a + b, n);
    RowWithin(ExprKids([f], 0) + ExprKids(args, a), 0, a + b, 0, n, n);
  }

  /** An expression at `from`, and a body further on. */
  lemma LoopRow(e: Expr, from: nat, body: seq<Stmt>, off: nat, n: nat)
    requires from + ExprLen(e) <= off && off + StmtsLen(body) <= n && ExprLen(e) < n && StmtsLen(body) < n
    ensures var ks := ExprKids([e], from) + StmtKids(body, off); Row(ks, from, n) && Row(ks, 0, n) && Smaller(ks, n)
  {
    hide ExprKids, StmtKids, Row, Smaller, ExprLen, StmtsLen;
    OneRow(e, from);
    StmtsRow(body, off);
    var ks := ExprKids([e], from) + StmtKids(body, off);
    var to := off + StmtsLen(body);
    RowJoin(ExprKids([e], from), StmtKids(body, off), from, from + ExprLen(e), off, to, n);
    RowWithin(ks, from, to, from, n, to - from + 1);
    RowWithin(ks, from, to, 0, n, to - from + 1);
  }

  lemma BodiesRow(a: seq<Stmt>, from: nat, b: seq<Stmt>, off: nat, n: nat)
    requires from + StmtsLen(a) <= off && off + StmtsLen(b) <= n && StmtsLen(a) < n && StmtsLen(b) < n
    ensures var ks := StmtKids(a, from) + StmtKids(b, off); Row(ks, from, n) && Row(ks, 0, n) && Smaller(ks, n)
  {
    hide StmtKids, Row, Smaller, StmtsLen;
    StmtsRow(a, from);
    StmtsRow(b, off);
    var ks := StmtKids(a, from) + StmtKids(b, off);
    var to := off + StmtsLen(b);
    RowJoin(StmtKids(a, from), StmtKids(b, off), from, from + StmtsLen(a), off, to, n);
    RowWithin(ks, from, to, from, n, to - from + 1);
    RowWithin(ks, from, to, 0, n, to - from + 1);
  }

  /** One part in front of a row of others. */
  lemma InFrontRow(e: Expr, from: nat, rest: seq<Kid>, off: nat, n: nat)
    requires from + ExprLen(e) <= off && Row(rest, off, n) && Smaller(rest, n) && from + ExprLen(e) < n && off <= n
    ensures Row(ExprKids([e], from) + rest, 0, n) && Smaller(ExprKids([e], from) + rest, n)
  {
    hide ExprLen, Len;
    OneRow(e, from);
  }

  lemma StmtKidsFit(s: Stmt)
    ensures Row(KidsOfStmt(s), 0, StmtLen(s)) && Smaller(KidsOfStmt(s), StmtLen(s))
  {
    hide ExprKids, StmtKids, Row, Smaller, ExprLen, ExprsLen, StmtsLen;
    var n := StmtLen(s);
    NoRow(n);
    if s.SetVar? || s.ChangeVar? || s.ReturnValue? {
      OneRow(s.value, 0);
      RowWithin(ExprKids([s.value], 0), 0, n - 1, 0, n, n);
    } else if s.Do? {
      ExprsRow(s.args, 0);
      RowWithin(ExprKids(s.args, 0), 0, n - 1, 0, n, n);
    } else if s.RunFn? {
      ExprsRow(s.args, |s.upvars|);
      RowWithin(ExprKids(s.args, |s.upvars|), |s.upvars|, n - 2, 0, n, n);
    } else if s.RunValue? {
      AppliedRow(s.closure, s.args, n);
    } else {
      BlockKidsFit(s);
    }
  }

  /** Statements that have statements in them. */
  lemma BlockKidsFit(s: Stmt)
    requires !s.SetVar? && !s.ChangeVar? && !s.ReturnValue? && !s.Do? && !s.RunFn? && !s.RunValue?
    ensures Row(KidsOfStmt(s), 0, StmtLen(s)) && Smaller(KidsOfStmt(s), StmtLen(s))
  {
    hide ExprKids, StmtKids, Row, Smaller, ExprLen, ExprsLen, StmtsLen;
    var n := StmtLen(s);
    NoRow(n);
    if s.Warp? {
      StmtsRow(s.body, 1);
      RowWithin(StmtKids(s.body, 1), 1, n - 1, 0, n, n);
    } else if s.InfLoop? {
      StmtsRow(s.body, 0);
      RowWithin(StmtKids(s.body, 0), 0, n - 2, 0, n, n);
    } else if s.UntilLoop? {
      LoopRow(s.cond, 0, s.body, ExprLen(s.cond) + 1, n);
    } else if s.Repeat? {
      LoopRow(s.times, 0, s.body, ExprLen(s.times) + 4, n);
    } else if s.ForLoop? {
      var a := ExprLen(s.start) + 2;
      LoopRow(s.stop, a, s.body, a + ExprLen(s.stop) + 19, n);
      InFrontRow(s.start, 1, ExprKids([s.stop], a) + StmtKids(s.body, a + ExprLen(s.stop) + 19), a, n);
    } else if s.ForeachLoop? {
      LoopRow(s.items, 1, s.body, ExprLen(s.items) + 5, n);
    } else if s.If? {
      LoopRow(s.cond, 0, s.then_, ExprLen(s.cond) + 1, n);
    } else if s.IfElse? {
      var a := ExprLen(s.cond) + 1;
      BodiesRow(s.then_, a, s.else_, a + StmtsLen(s.then_) + 1, n);
      InFrontRow(s.cond, 0, StmtKids(s.then_, a) + StmtKids(s.else_, a + StmtsLen(s.then_) + 1), a, n);
    } else if s.TryCatch? {
      BodiesRow(s.body, 1, s.handler, StmtsLen(s.body) + 4, n);
    }
  }

  lemma KidsFit(n: Node)
    ensures Row(Kids(n), 0, Len(n)) && Smaller(Kids(n), Len(n))
    ensures n.OfBody? ==> Row(Kids(n), 0, Len(n) - 2)
  {
    hide KidsOfExpr, KidsOfStmt, StmtKids, Row, Smaller, ExprLen, StmtLen, StmtsLen;
    match n {
      case OfExpr(e) => ExprKidsFit(e);
      case OfStmt(s) => StmtKidsFit(s);
      case OfBody(upvars, body) =>
        StmtsRow(body, |upvars|);
        RowWithin(StmtKids(body, |upvars|), |upvars|, Len(n) - 2, 0, Len(n), Len(n));
        RowWithin(StmtKids(body, |upvars|), |upvars|, Len(n) - 2, 0, Len(n) - 2, Len(n));
    }
  }

  // ----- the marks of a tree: each part when its code is complete -----

  /** A part of a program: how it is reached, and where its code begins. */
  datatype Mark = Mark(node: Node, path: seq<nat>, start: nat)

  function End(m: Mark): nat {
    m.start + Len(m.node)
  }

  function Marks(n: Node, pc: nat, path: seq<nat>): seq<Mark>
    decreases Len(n), 1
  {
    KidsFit(n);
    KidMarks(Kids(n), Len(n), pc, path) + [Mark(n, path, pc)]
  }

  function KidMarks(ks: seq<Kid>, bound: nat, pc: nat, path: seq<nat>): seq<Mark>
    requires Smaller(ks, bound)
    decreases bound, 0, |ks|
  {
    if ks == [] then []
    else
      var k := |ks| - 1;
      KidMarks(ks[..k], bound, pc, path) + Marks(ks[k].node, pc + ks[k].off, path + [k])
  }

  /** Marks lie between two places, and each is behind the ones before it or around them. */
  ghost predicate Nested(ms: seq<Mark>, lo: int, hi: int) {
    && (forall i :: 0 <= i < |ms| ==> lo <= ms[i].start && End(ms[i]) <= hi)
    && forall i, j :: 0 <= i < j < |ms| ==>
         End(ms[i]) <= ms[j].start || (ms[j].start <= ms[i].start && End(ms[i]) <= End(ms[j]))
  }

  /** Marks are told apart by how they are reached. */
  ghost predicate Apart(ms: seq<Mark>, path: seq<nat>) {
    && (forall i :: 0 <= i < |ms| ==> path <= ms[i].path)
    && forall i, j :: 0 <= i < j < |ms| ==> ms[i].path != ms[j].path
  }

  lemma NestedJoin(a: seq<Mark>, b: seq<Mark>, lo: int, mid: int, hi: int)
    requires Nested(a, lo, mid) && Nested(b, mid, hi) && lo <= mid <= hi
    ensures Nested(a + b, lo, hi)
  {
    hide Len;
  }

  lemma NestedMore(ms: seq<Mark>, lo: int, mid: int, hi: int)
    requires Nested(ms, lo, mid) && mid <= hi
    ensures Nested(ms, lo, hi)
  {
  }

  lemma {:induction false} MarksNest(n: Node, pc: nat, path: seq<nat>)
    ensures Nested(Marks(n, pc, path), pc, pc + Len(n)) && Apart(Marks(n, pc, path), path)
    decreases Len(n), 1
  {
    hide Row, Smaller, Len, Kids, KidMarks;
    KidsFit(n);
    KidMarksNest(Kids(n), Len(n), pc, path, 0, Len(n));
    Around(KidMarks(Kids(n), Len(n), pc, path), Mark(n, path, pc), |Kids(n)|);
  }

  /** Marks of parts are reached through one of them. */
  ghost predicate Through(ms: seq<Mark>, path: seq<nat>, k: nat) {
    forall i :: 0 <= i < |ms| ==> path <= ms[i].path && |path| < |ms[i].path| && ms[i].path[|path|] < k
  }

  lemma Around(ms: seq<Mark>, m: Mark, k: nat)
    requires Nested(ms, m.start, End(m)) && Apart(ms, m.path) && Through(ms, m.path, k)
    ensures Nested(ms + [m], m.start, End(m)) && Apart(ms + [m], m.path)
  {
    hide Len;
  }

  lemma RowFront(ks: seq<Kid>, bound: nat, from: nat, to: nat)
    requires ks != [] && Smaller(ks, bound) && Row(ks, from, to)
    ensures var k := |ks| - 1;
            && Smaller(ks[..k], bound) && Row(ks[..k], from, ks[k].off) && from <= ks[k].off
            && ks[k].off + Len(ks[k].node) <= to && Len(ks[k].node) < bound
  {
    hide Len;
  }

  lemma {:induction false} KidMarksNest(ks: seq<Kid>, bound: nat, pc: nat, path: seq<nat>, from: nat, to: nat)
    requires Smaller(ks, bound) && Row(ks, from, to) && from <= to
    ensures Nested(KidMarks(ks, bound, pc, path), pc + from, pc + to) && Apart(KidMarks(ks, bound, pc, path), path)
    ensures Through(KidMarks(ks, bound, pc, path), path, |ks|)
    decreases bound, 0, |ks|
  {
    hide Len, Nested, Apart, Marks, Through, Row, Smaller;
    if ks != [] {
      RowFront(ks, bound, from, to);
      var k := |ks| - 1;
      var off := ks[k].off;
      var front, last := KidMarks(ks[..k], bound, pc, path), Marks(ks[k].node, pc + off, path + [k]);
      KidMarksNest(ks[..k], bound, pc, path, from, off);
      MarksNest(ks[k].node, pc + off, path + [k]);
      NestedMore(last, pc + off, pc + off + Len(ks[k].node), pc + to);
      NestedJoin(front, last, pc + from, pc + off, pc + to);
      ApartJoin(front, last, path, k);
    } else {
      NoMarks(pc + from, pc + to, path);
    }
  }

  lemma NoMarks(lo: int, hi: int, path: seq<nat>)
    ensures Nested([], lo, hi) && Apart([], path) && Through([], path, 0)
  {
  }

  lemma ApartJoin(a: seq<Mark>, b: seq<Mark>, path: seq<nat>, k: nat)
    requires Apart(a, path) && Through(a, path, k) && Apart(b, path + [k])
    ensures Apart(a + b, path) && Through(a + b, path, k + 1)
  {
    forall i | 0 <= i < |b| ensures path <= b[i].path && |path| < |b[i].path| && b[i].path[|path|] == k {
      assert (path + [k])[..|path|] == path && (path + [k])[|path|] == k;
      assert b[i].path[|path|] == (path + [k])[|path|];
    }
  }

  // ----- every mark is where its code is -----

  ghost predicate LaidAll(g: Scope, code: seq<Slot>, ks: seq<Kid>, pc: nat) {
    forall i :: 0 <= i < |ks| ==> NodeAt(g, code, ks[i].node, pc + ks[i].off)
  }

  lemma LaidJoin(g: Scope, code: seq<Slot>, a: seq<Kid>, b: seq<Kid>, pc: nat)
    requires LaidAll(g, code, a, pc) && LaidAll(g, code, b, pc)
    ensures LaidAll(g, code, a + b, pc)
  {
    hide NodeAt;
  }

  lemma {:induction false} ExprsLaid(g: Scope, code: seq<Slot>, es: seq<Expr>, pc: nat, off: nat)
    requires ExprsAt(g, code, es, pc + off)
    ensures LaidAll(g, code, ExprKids(es, off), pc)
    decreases |es|
  {
    hide ExprAt, ExprLen;
    if es != [] {
      ExprsLaid(g, code, es[1..], pc, off + ExprLen(es[0]));
    }
  }

  lemma {:induction false} StmtsLaid(g: Scope, code: seq<Slot>, ss: seq<Stmt>, pc: nat, off: nat)
    requires StmtsAt(g, code, ss, pc + off)
    ensures LaidAll(g, code, StmtKids(ss, off), pc)
    decreases |ss|
  {
    hide StmtAt, StmtLen;
    if ss != [] {
      StmtsLaid(g, code, ss[1..], pc, off + StmtLen(ss[0]));
    }
  }

  lemma OneLaid(g: Scope, code: seq<Slot>, e: Expr, pc: nat, off: nat)
    requires ExprAt(g, code, e, pc + off)
    ensures LaidAll(g, code, ExprKids([e], off), pc)
  {
    hide ExprAt, ExprLen;
    assert [e][1..] == [];
  }

  lemma TwoLaid(g: Scope, code: seq<Slot>, a: Expr, b: Expr, pc: nat, off: nat)
    requires ExprAt(g, code, a, pc) && ExprAt(g, code, b, pc + off)
    ensures LaidAll(g, code, ExprKids([a], 0) + ExprKids([b], off), pc)
  {
    hide ExprAt, ExprKids, LaidAll;
    OneLaid(g, code, a, pc, 0);
    OneLaid(g, code, b, pc, off);
    LaidJoin(g, code, ExprKids([a], 0), ExprKids([b], off), pc);
  }

  lemma AppliedLaid(g: Scope, code: seq<Slot>, f: Expr, args: seq<Expr>, pc: nat)
    requires ExprAt(g, code, f, pc) && ExprsAt(g, code, args, pc + ExprLen(f))
    ensures LaidAll(g, code, ExprKids([f], 0) + ExprKids(args, ExprLen(f)), pc)
  {
    hide ExprAt, ExprsAt, ExprKids, LaidAll, ExprLen;
    OneLaid(g, code, f, pc, 0);
    ExprsLaid(g, code, args, pc, ExprLen(f));
    LaidJoin(g, code, ExprKids([f], 0), ExprKids(args, ExprLen(f)), pc);
  }

  lemma GuardedLaid(g: Scope, code: seq<Slot>, e: Expr, from: nat, body: seq<Stmt>, off: nat, pc: nat)
    requires ExprAt(g, code, e, pc + from) && StmtsAt(g, code, body, pc + off)
    ensures LaidAll(g, code, ExprKids([e], from) + StmtKids(body, off), pc)
  {
    hide ExprAt, StmtsAt, ExprKids, StmtKids, LaidAll;
    OneLaid(g, code, e, pc, from);
    StmtsLaid(g, code, body, pc, off);
    LaidJoin(g, code, ExprKids([e], from), StmtKids(body, off), pc);
  }

  lemma {:induction false} ReduceLaid(g: Scope, code: seq<Slot>, e: Expr, pc: nat)
    requires e.Reduce? && ExprAt(g, code, e, pc)
    ensures LaidAll(g, code, KidsOfExpr(e), pc)
  {
    hide ExprsAt, ExprKids, Is, Are, LitAt, LitsAt, ShortAt, ExprLen, ExprsLen, NodeAt;
    if e.src.ListOf? {
      ExprsLaid(g, code, e.src.items, pc, 0);
    } else if !Written(e.src) {
      OneLaid(g, code, e.src, pc, 0);
    }
  }

  lemma {:induction false} PlainLaid(g: Scope, code: seq<Slot>, e: Expr, pc: nat)
    requires (e.Simple? || e.ListOf? || e.Or? || e.And?) && ExprAt(g, code, e, pc)
    ensures LaidAll(g, code, KidsOfExpr(e), pc)
  {
    hide ExprsAt, ExprKids, Is, Are, LitAt, LitsAt, ExprLen, ExprsLen, NodeAt, Arity, Lower, LaidAll;
    if e.Simple? {
      ExprsLaid(g, code, e.args, pc, 0);
    } else if e.ListOf? {
      ExprsLaid(g, code, e.items, pc, 0);
    } else {
      TwoLaid(g, code, e.left, e.right, pc, ExprLen(e.left) + 3);
    }
  }

  lemma ExprKidsAt(g: Scope, code: seq<Slot>, e: Expr, pc: nat)
    requires ExprAt(g, code, e, pc)
    ensures LaidAll(g, code, KidsOfExpr(e), pc)
  {
    hide ExprAt, ExprsAt, ExprKids, ExprLen, ExprsLen, NodeAt, LaidAll, MapCode, KeepCode, FindCode, FoldCode;
    NoneLaid(g, code, pc);
    if e.Reduce? {
      ReduceLaid(g, code, e, pc);
    } else if e.Simple? || e.ListOf? || e.Or? || e.And? {
      PlainLaid(g, code, e, pc);
    } else if e.Conditional? {
      ConditionalParts(g, code, e.cond, e.then_, e.else_, pc);
      var a, b := ExprLen(e.cond) + 1, ExprLen(e.then_) + 1;
      OneLaid(g, code, e.cond, pc, 0);
      OneLaid(g, code, e.then_, pc, a);
      OneLaid(g, code, e.else_, pc, a + b);
      LaidJoin(g, code, ExprKids([e.then_], a), ExprKids([e.else_], a + b), pc);
      LaidJoin(g, code, ExprKids([e.cond], 0), ExprKids([e.then_], a) + ExprKids([e.else_], a + b), pc);
    } else if e.CallFn? {
      CallFnParts(g, code, e.function_, e.args, e.upvars, pc);
      ExprsLaid(g, code, e.args, pc, |e.upvars|);
    } else if e.CallValue? {
      CallValueParts(g, code, e.closure, e.args, pc);
      AppliedLaid(g, code, e.closure, e.args, pc);
    } else if e.Map? {
      MapParts(g, code, e.f, e.list, pc);
      TwoLaid(g, code, e.f, e.list, pc, ExprLen(e.f));
    } else if e.Keep? {
      KeepParts(g, code, e.f, e.list, pc);
      TwoLaid(g, code, e.f, e.list, pc, ExprLen(e.f));
    } else if e.FindFirst? {
      FindParts(g, code, e.f, e.list, pc);
      TwoLaid(g, code, e.f, e.list, pc, ExprLen(e.f));
    } else if e.FoldWith? {
      FoldParts(g, code, e.f, e.list, pc);
      TwoLaid(g, code, e.list, e.f, pc, ExprLen(e.list) + 1);
    }
  }

  lemma NoneLaid(g: Scope, code: seq<Slot>, pc: nat)
    ensures LaidAll(g, code, [], pc)
  {
  }

  lemma SimpleStmtAt(g: Scope, code: seq<Slot>, s: Stmt, pc: nat)
    requires StmtAt(g, code, s, pc)
    ensures s.SetVar? || s.ChangeVar? || s.ReturnValue? ==> ExprAt(g, code, s.value, pc)
    ensures s.Do? ==> ExprsAt(g, code, s.args, pc)
    ensures s.RunFn? ==> ExprsAt(g, code, s.args, pc + |s.upvars|)
    ensures s.RunValue? ==> ExprAt(g, code, s.closure, pc) && ExprsAt(g, code, s.args, pc + ExprLen(s.closure))
    ensures s.Warp? ==> StmtsAt(g, code, s.body, pc + 1)
    ensures s.InfLoop? ==> StmtsAt(g, code, s.body, pc)
    ensures s.If? ==> ExprAt(g, code, s.cond, pc) && StmtsAt(g, code, s.then_, pc + ExprLen(s.cond) + 1)
  {
    hide ExprAt, ExprsAt, StmtsAt, Is, Are, ForAt, ExprLen, ExprsLen, StmtsLen, Callable, DeclaresAt, Arity, LowerDo;
  }

  lemma ForLoopAt(g: Scope, code: seq<Slot>, s: Stmt, pc: nat)
    requires s.ForLoop? && StmtAt(g, code, s, pc)
    ensures var a, b := ExprLen(s.start), ExprLen(s.stop);
            && ExprAt(g, code, s.start, pc + 1) && ExprAt(g, code, s.stop, pc + a + 2)
            && StmtsAt(g, code, s.body, pc + a + b + 21)
  {
    hide ExprAt, StmtsAt, Is, Are, ExprLen, StmtsLen;
    assert ForAt(g, code, s.v, s.start, s.stop, s.body, pc);
    assert RoundsAt(g, code, s.v.trans, s.body, pc + 15 + ExprLen(s.start) + ExprLen(s.stop));
  }

  lemma StmtKidsAt(g: Scope, code: seq<Slot>, s: Stmt, pc: nat)
    requires StmtAt(g, code, s, pc)
    ensures LaidAll(g, code, KidsOfStmt(s), pc)
  {
    hide StmtAt, ExprAt, ExprsAt, StmtsAt, ExprKids, StmtKids, ExprLen, StmtsLen, ExprsLen, NodeAt, LaidAll;
    NoneLaid(g, code, pc);
    if s.Repeat? {
      RepeatParts(g, code, s.times, s.body, pc);
      GuardedLaid(g, code, s.times, 0, s.body, ExprLen(s.times) + 4, pc);
    } else if s.ForeachLoop? {
      ForeachParts(g, code, s.v, s.items, s.body, pc);
      GuardedLaid(g, code, s.items, 1, s.body, ExprLen(s.items) + 5, pc);
    } else if s.UntilLoop? {
      UntilParts(g, code, s.cond, s.body, pc);
      GuardedLaid(g, code, s.cond, 0, s.body, ExprLen(s.cond) + 1, pc);
    } else if s.ForLoop? {
      ForLoopAt(g, code, s, pc);
      var a, b := ExprLen(s.start) + 2, ExprLen(s.stop);
      OneLaid(g, code, s.start, pc, 1);
      GuardedLaid(g, code, s.stop, a, s.body, a + b + 19, pc);
      LaidJoin(g, code, ExprKids([s.start], 1), ExprKids([s.stop], a) + StmtKids(s.body, a + b + 19), pc);
    } else if s.IfElse? {
      IfElseParts(g, code, s.cond, s.then_, s.else_, pc);
      var a := ExprLen(s.cond) + 1;
      var b := a + StmtsLen(s.then_) + 1;
      OneLaid(g, code, s.cond, pc, 0);
      StmtsLaid(g, code, s.then_, pc, a);
      StmtsLaid(g, code, s.else_, pc, b);
      LaidJoin(g, code, StmtKids(s.then_, a), StmtKids(s.else_, b), pc);
      LaidJoin(g, code, ExprKids([s.cond], 0), StmtKids(s.then_, a) + StmtKids(s.else_, b), pc);
    } else if s.TryCatch? {
      TryParts(g, code, s.body, s.name, s.handler, pc);
      var b := StmtsLen(s.body) + 4;
      StmtsLaid(g, code, s.body, pc, 1);
      StmtsLaid(g, code, s.handler, pc, b);
      LaidJoin(g, code, StmtKids(s.body, 1), StmtKids(s.handler, b), pc);
    } else {
      SimpleStmtAt(g, code, s, pc);
      OthersLaid(g, code, s, pc);
    }
  }

  lemma OthersLaid(g: Scope, code: seq<Slot>, s: Stmt, pc: nat)
    requires !s.Repeat? && !s.ForeachLoop? && !s.UntilLoop? && !s.ForLoop? && !s.IfElse? && !s.TryCatch?
    requires s.SetVar? || s.ChangeVar? || s.ReturnValue? ==> ExprAt(g, code, s.value, pc)
    requires s.Do? ==> ExprsAt(g, code, s.args, pc)
    requires s.RunFn? ==> ExprsAt(g, code, s.args, pc + |s.upvars|)
    requires s.RunValue? ==> ExprAt(g, code, s.closure, pc) && ExprsAt(g, code, s.args, pc + ExprLen(s.closure))
    requires s.Warp? ==> StmtsAt(g, code, s.body, pc + 1)
    requires s.InfLoop? ==> StmtsAt(g, code, s.body, pc)
    requires s.If? ==> ExprAt(g, code, s.cond, pc) && StmtsAt(g, code, s.then_, pc + ExprLen(s.cond) + 1)
    ensures LaidAll(g, code, KidsOfStmt(s), pc)
  {
    hide ExprAt, ExprsAt, StmtsAt, ExprKids, StmtKids, ExprLen, StmtsLen, ExprsLen, NodeAt, LaidAll;
    NoneLaid(g, code, pc);
    if s.SetVar? || s.ChangeVar? || s.ReturnValue? {
      OneLaid(g, code, s.value, pc, 0);
    } else if s.Do? {
      ExprsLaid(g, code, s.args, pc, 0);
    } else if s.RunFn? {
      ExprsLaid(g, code, s.args, pc, |s.upvars|);
    } else if s.RunValue? {
      AppliedLaid(g, code, s.closure, s.args, pc);
    } else if s.Warp? {
      StmtsLaid(g, code, s.body, pc, 1);
    } else if s.InfLoop? {
      StmtsLaid(g, code, s.body, pc, 0);
    } else if s.If? {
      GuardedLaid(g, code, s.cond, 0, s.then_, ExprLen(s.cond) + 1, pc);
    }
  }

  lemma KidsAt(g: Scope, code: seq<Slot>, n: Node, pc: nat)
    requires NodeAt(g, code, n, pc)
    ensures LaidAll(g, code, Kids(n), pc)
  {
    hide ExprAt, StmtAt, StmtsAt, KidsOfExpr, KidsOfStmt, StmtKids, LaidAll, Are, UpvarsAt;
    match n {
      case OfExpr(e) => ExprKidsAt(g, code, e, pc);
      case OfStmt(s) => StmtKidsAt(g, code, s, pc);
      case OfBody(upvars, body) => StmtsLaid(g, code, body, pc, |upvars|);
    }
  }

  ghost predicate MarksAt(g: Scope, code: seq<Slot>, ms: seq<Mark>) {
    forall m :: m in ms ==> NodeAt(g, code, m.node, m.start)
  }

  /** Each part of a program that is laid out at `pc` has its own code from its mark on, up to where the mark ends. */
  lemma {:induction false} MarksLaid(g: Scope, code: seq<Slot>, n: Node, pc: nat, path: seq<nat>)
    requires NodeAt(g, code, n, pc)
    ensures MarksAt(g, code, Marks(n, pc, path))
    decreases Len(n), 1
  {
    hide NodeAt, Len, Kids, KidMarks, Smaller, Row, LaidAll;
    KidsFit(n);
    KidsAt(g, code, n, pc);
    KidMarksLaid(g, code, Kids(n), Len(n), pc, path);
  }

  lemma {:induction false} KidMarksLaid(g: Scope, code: seq<Slot>, ks: seq<Kid>, bound: nat, pc: nat, path: seq<nat>)
    requires Smaller(ks, bound) && LaidAll(g, code, ks, pc)
    ensures MarksAt(g, code, KidMarks(ks, bound, pc, path))
    decreases bound, 0, |ks|
  {
    hide NodeAt, Len, Marks;
    if ks != [] {
      var k := |ks| - 1;
      KidMarksLaid(g, code, ks[..k], bound, pc, path);
      MarksLaid(g, code, ks[k].node, pc + ks[k].off, path + [k]);
    }
  }

  // ----- the blocks that are recorded -----

  /** What is recorded for a mark: a block, if the part has a location. */
  function BlockOf(m: Mark, at: seq<nat> -> Option<Str>): seq<Located.Block> {
    if m.node.OfBody? || at(m.path).None? then [] else [Located.Block(m.start, End(m), at(m.path).value)]
  }

  function Blocks(ms: seq<Mark>, at: seq<nat> -> Option<Str>): seq<Located.Block>
    decreases |ms|
  {
    if ms == [] then [] else Blocks(ms[..|ms| - 1], at) + BlockOf(ms[|ms| - 1], at)
  }

  ghost predicate MadeFrom(ms: seq<Mark>, b: Located.Block, at: seq<nat> -> Option<Str>) {
    exists i :: 0 <= i < |ms| && BlockOf(ms[i], at) == [b]
  }

  lemma {:induction false} BlocksMade(ms: seq<Mark>, at: seq<nat> -> Option<Str>)
    ensures forall b :: b in Blocks(ms, at) ==> MadeFrom(ms, b, at)
    decreases |ms|
  {
    hide BlockOf;
    if ms != [] {
      var n := |ms| - 1;
      BlocksMade(ms[..n], at);
      forall b | b in Blocks(ms, at) ensures MadeFrom(ms, b, at) {
        if b in Blocks(ms[..n], at) {
          var i :| 0 <= i < n && BlockOf(ms[..n][i], at) == [b];
          assert BlockOf(ms[i], at) == [b];
        } else {
          OneBlock(ms[n], at);
          assert BlockOf(ms[n], at) == [b];
        }
      }
    }
  }

  /** Every part that has a location is recorded. */
  lemma {:induction false} EveryBlock(ms: seq<Mark>, at: seq<nat> -> Option<Str>)
    ensures forall m :: m in ms && !m.node.OfBody? && at(m.path).Some? ==>
              Located.Block(m.start, End(m), at(m.path).value) in Blocks(ms, at)
    decreases |ms|
  {
    hide Len;
    if ms != [] {
      var n := |ms| - 1;
      EveryBlock(ms[..n], at);
      forall m | m in ms && !m.node.OfBody? && at(m.path).Some?
        ensures Located.Block(m.start, End(m), at(m.path).value) in Blocks(ms, at)
      {
        if m !in ms[..n] {
          assert m == ms[n];
          assert Located.Block(m.start, End(m), at(m.path).value) in BlockOf(m, at);
        }
      }
    }
  }

  lemma OneBlock(m: Mark, at: seq<nat> -> Option<Str>)
    ensures |BlockOf(m, at)| <= 1
    ensures forall b :: b in BlockOf(m, at) ==> BlockOf(m, at) == [b]
    ensures forall b :: BlockOf(m, at) == [b] ==>
                   !m.node.OfBody? && b.start == m.start && b.end == End(m) && at(m.path) == Some(b.loc)
  {
    hide Len;
    assert forall b :: BlockOf(m, at) == [b] ==> b == BlockOf(m, at)[0];
  }

  /** Different parts have different locations. */
  ghost predicate TellsApart(at: seq<nat> -> Option<Str>) {
    forall p, q :: at(p).Some? && at(p) == at(q) ==> p == q
  }

  lemma {:induction false} BlocksInOrder(ms: seq<Mark>, at: seq<nat> -> Option<Str>, lo: int, hi: int, path: seq<nat>)
    requires Nested(ms, lo, hi) && Apart(ms, path)
    ensures InOrder(Blocks(ms, at)) && (TellsApart(at) ==> Distinct(Blocks(ms, at)))
    decreases |ms|
  {
    hide BlockOf, TellsApart, Len, InOrder, Distinct, Nested, Apart;
    if ms == [] {
      NoOrder();
    } else {
      var n := |ms| - 1;
      var front, last := Blocks(ms[..n], at), BlockOf(ms[n], at);
      FrontNested(ms, lo, hi, path);
      BlocksInOrder(ms[..n], at, lo, hi, path);
      OneBlock(ms[n], at);
      if last == [] {
        assert front + last == front;
      } else {
        var b := last[0];
        assert last == [b];
        LastBehind(ms, at, lo, hi, path, b);
        OrderMore(front, b);
        DistinctMore(front, b, at);
      }
    }
  }

  lemma NoOrder()
    ensures InOrder([]) && Distinct([])
  {
  }

  lemma FrontNested(ms: seq<Mark>, lo: int, hi: int, path: seq<nat>)
    requires ms != [] && Nested(ms, lo, hi) && Apart(ms, path)
    ensures Nested(ms[..|ms| - 1], lo, hi) && Apart(ms[..|ms| - 1], path)
  {
    hide Len;
  }

  /** A block that is recorded behind others. */
  ghost predicate Behind(a: Located.Block, b: Located.Block) {
    a.end <= b.start || (b.start <= a.start && a.end <= b.end)
  }

  lemma OrderMore(bs: seq<Located.Block>, b: Located.Block)
    requires InOrder(bs) && b.start <= b.end && forall a :: a in bs ==> Behind(a, b)
    ensures InOrder(bs + [b])
  {
    var all := bs + [b];
    forall i, j | 0 <= i < j < |all| ensures Behind(all[i], all[j]) {
      if j == |bs| {
        assert all[i] in bs;
      }
    }
  }

  lemma DistinctMore(bs: seq<Located.Block>, b: Located.Block, at: seq<nat> -> Option<Str>)
    requires TellsApart(at) ==> Distinct(bs) && forall a :: a in bs ==> a.loc != b.loc
    ensures TellsApart(at) ==> Distinct(bs + [b])
  {
    hide TellsApart;
    var all := bs + [b];
    forall i, j | TellsApart(at) && 0 <= i < j < |all| ensures all[i].loc != all[j].loc {
      if j == |bs| {
        assert all[i] in bs;
      }
    }
  }

  lemma LastBehind(ms: seq<Mark>, at: seq<nat> -> Option<Str>, lo: int, hi: int, path: seq<nat>, b: Located.Block)
    requires ms != [] && Nested(ms, lo, hi) && Apart(ms, path) && BlockOf(ms[|ms| - 1], at) == [b]
    ensures var front := Blocks(ms[..|ms| - 1], at);
            && b.start <= b.end && (forall a :: a in front ==> Behind(a, b))
            && (TellsApart(at) ==> forall a :: a in front ==> a.loc != b.loc)
  {
    hide BlockOf, TellsApart, Len, Blocks;
    var n := |ms| - 1;
    var front := Blocks(ms[..n], at);
    BlocksMade(ms[..n], at);
    OneBlock(ms[n], at);
    forall a | a in front ensures Behind(a, b) && (TellsApart(at) ==> a.loc != b.loc) {
      var i :| 0 <= i < n && BlockOf(ms[..n][i], at) == [a];
      OneBlock(ms[i], at);
      Different(ms[i].path, ms[n].path, at);
    }
  }

  lemma Different(p: seq<nat>, q: seq<nat>, at: seq<nat> -> Option<Str>)
    requires p != q && at(p).Some?
    ensures TellsApart(at) ==> at(p) != at(q)
  {
  }

  // ----- a whole program: its bodies one behind the other -----

  /** The bodies in the order in which they are appended, and where. */
  function Bodies(bodies: seq<Body>): seq<Kid>
    decreases |bodies|
  {
    if bodies == [] then []
    else
      var front, last := bodies[..|bodies| - 1], bodies[|bodies| - 1];
      Bodies(front) + [Kid(TotalLen(front), OfBody(last.upvars, last.stmts))]
  }

  lemma {:induction false} BodiesFit(bodies: seq<Body>, bound: nat)
    requires TotalLen(bodies) < bound
    ensures var ks := Bodies(bodies);
            Row(ks, 0, TotalLen(bodies)) && Smaller(ks, bound) && forall k :: k in ks ==> k.node.OfBody?
    decreases |bodies|
  {
    hide BodyLen;
    if bodies != [] {
      var front, last := bodies[..|bodies| - 1], bodies[|bodies| - 1];
      var m, one := TotalLen(front), [Kid(TotalLen(front), OfBody(last.upvars, last.stmts))];
      assert Row(one, m, TotalLen(bodies));
      BodiesFit(front, bound);
      RowJoin(Bodies(front), one, 0, m, m, TotalLen(bodies), bound);
    }
  }

  function ProgramMarks(bodies: seq<Body>): seq<Mark> {
    BodiesFit(bodies, TotalLen(bodies) + 1);
    KidMarks(Bodies(bodies), TotalLen(bodies) + 1, 0, [])
  }

  /** The blocks that are recorded for a program whose parts have the locations that `at` gives them. */
  function Recorded(bodies: seq<Body>, at: seq<nat> -> Option<Str>): seq<Located.Block> {
    Blocks(ProgramMarks(bodies), at)
  }

  /** The last two instructions of a body belong to no part of it. */
  lemma {:induction false} EndsBefore(ks: seq<Kid>, bound: nat, from: nat, to: nat)
    requires Smaller(ks, bound) && Row(ks, from, to) && forall k :: k in ks ==> k.node.OfBody?
    ensures forall m :: m in KidMarks(ks, bound, 0, []) ==> m.node.OfBody? || End(m) < to
    decreases |ks|
  {
    hide Len, Kids;
    if ks != [] {
      var k := |ks| - 1;
      EndsBefore(ks[..k], bound, from, ks[k].off);
      assert ks[k] in ks && [] + [k] == [k];
      BodyEnds(ks[k].node, ks[k].off, [k]);
    }
  }

  lemma BodyEnds(n: Node, pc: nat, path: seq<nat>)
    requires n.OfBody?
    ensures forall m :: m in Marks(n, pc, path) ==> m == Mark(n, path, pc) || End(m) < pc + Len(n)
  {
    hide Len, Kids, KidMarks, Row, Smaller;
    KidsFit(n);
    BodyLonger(n);
    KidMarksNest(Kids(n), Len(n), pc, path, 0, Len(n) - 2);
    var ms := KidMarks(Kids(n), Len(n), pc, path);
    forall m | m in ms ensures End(m) <= pc + Len(n) - 2 {
      var i :| 0 <= i < |ms| && ms[i] == m;
    }
  }

  lemma BodyLonger(n: Node)
    requires n.OfBody?
    ensures Len(n) >= 2
  {
  }

  /** Recorded blocks are in order, have different locations if the parts have, and end before the code does. */
  lemma RecordedInOrder(bodies: seq<Body>, at: seq<nat> -> Option<Str>)
    ensures InOrder(Recorded(bodies, at)) && (TellsApart(at) ==> Distinct(Recorded(bodies, at)))
    ensures forall b :: b in Recorded(bodies, at) ==> b.end < TotalLen(bodies)
  {
    hide InOrder, Distinct, TellsApart, Blocks, KidMarks, BlockOf, Row, Smaller, Nested, Apart, Len;
    hide TotalLen, Bodies;
    var n := TotalLen(bodies);
    var ks := Bodies(bodies);
    BodiesFit(bodies, n + 1);
    KidMarksNest(ks, n + 1, 0, [], 0, n);
    BlocksInOrder(ProgramMarks(bodies), at, 0, n, []);
    EndsBefore(ks, n + 1, 0, n);
    BlocksEnd(ProgramMarks(bodies), at, n);
  }

  lemma BlocksEnd(ms: seq<Mark>, at: seq<nat> -> Option<Str>, n: nat)
    requires forall m :: m in ms ==> m.node.OfBody? || End(m) < n
    ensures forall b :: b in Blocks(ms, at) ==> b.end < n
  {
    hide BlockOf, Blocks, Len;
    BlocksMade(ms, at);
    forall b | b in Blocks(ms, at) ensures b.end < n {
      var i :| 0 <= i < |ms| && BlockOf(ms[i], at) == [b];
      OneBlock(ms[i], at);
      assert ms[i] in ms;
    }
  }

  lemma RecordedWithin(bodies: seq<Body>, at: seq<nat> -> Option<Str>)
    ensures Within(Entries(Recorded(bodies, at)), TotalLen(bodies))
  {
    hide Recorded, Entries, Located.Recorded, Ascending;
    var bs := Recorded(bodies, at);
    RecordedInOrder(bodies, at);
    EntriesAre(bs);
    EntriesEnd(bs, TotalLen(bodies));
  }

  lemma EntriesEnd(bs: seq<Located.Block>, n: nat)
    requires (forall b :: b in bs ==> b.end < n) && forall e :: e in Entries(bs) ==> Located.Recorded(bs, e)
    ensures Within(Entries(bs), n)
  {
    hide Entries;
    var es := Entries(bs);
    forall i | 0 <= i < |es| ensures es[i].0 < n {
      assert es[i] in es;
      var k: nat :| Lasts(bs, k) && es[i] == (bs[k].end, bs[k].loc);
      assert bs[k] in bs;
    }
  }

  // ----- the code of what is recorded -----

  /** A part that has the location of a block, and whose code is the block's. */
  ghost predicate Owns(fns: FnTable, slots: seq<Slot>, m: Mark, ent: Option<nat>, b: Located.Block,
                       at: seq<nat> -> Option<Str>) {
    && at(m.path) == Some(b.loc) && b == Located.Block(m.start, End(m), b.loc)
    && NodeAt(Scope(fns, ent), slots, m.node, m.start)
  }

  ghost predicate PartAt(fns: FnTable, slots: seq<Slot>, m: Mark) {
    exists ent :: NodeAt(Scope(fns, ent), slots, m.node, m.start)
  }

  lemma {:induction false} BodiesLaid(fns: FnTable, slots: seq<Slot>, bodies: seq<Body>, bound: nat)
    requires Smaller(Bodies(bodies), bound)
    requires forall i :: 0 <= i < |bodies| ==> StandsAt(fns, slots, bodies[i], TotalLen(bodies[..i]))
    ensures |Bodies(bodies)| == |bodies|
    ensures forall m :: m in KidMarks(Bodies(bodies), bound, 0, []) ==> PartAt(fns, slots, m)
    decreases |bodies|
  {
    hide NodeAt, BodyAt, Len, Marks, TotalLen;
    if bodies != [] {
      var n := |bodies| - 1;
      var front, last, ks := bodies[..n], bodies[n], Bodies(bodies);
      assert ks[..|ks| - 1] == Bodies(front);
      forall i | 0 <= i < n ensures StandsAt(fns, slots, front[i], TotalLen(front[..i])) {
        assert front[..i] == bodies[..i];
      }
      BodiesLaid(fns, slots, front, bound);
      BodyLaid(fns, slots, last, TotalLen(front), [] + [n]);
    }
  }

  lemma BodyLaid(fns: FnTable, slots: seq<Slot>, b: Body, pc: nat, path: seq<nat>)
    requires StandsAt(fns, slots, b, pc)
    ensures forall m :: m in Marks(OfBody(b.upvars, b.stmts), pc, path) ==> PartAt(fns, slots, m)
  {
    hide BodyAt, Marks, ExprAt, StmtAt;
    var g := Scope(fns, b.ent);
    MarksLaid(g, slots, OfBody(b.upvars, b.stmts), pc, path);
    forall m | m in Marks(OfBody(b.upvars, b.stmts), pc, path) ensures PartAt(fns, slots, m) {
      assert NodeAt(g, slots, m.node, m.start);
    }
  }

  /** A recorded block is the code of a part that has its location: it extends from where that code begins to where
      it ends. */
  lemma RecordedLaid(fns: FnTable, slots: seq<Slot>, bodies: seq<Body>, at: seq<nat> -> Option<Str>)
    requires BackToBack(fns, slots, bodies)
    ensures forall b :: b in Recorded(bodies, at) ==> exists m, ent :: Owns(fns, slots, m, ent, b, at)
  {
    hide NodeAt, BodyAt, BodyLen, Len, TotalLen, KidMarks, Bodies, Blocks, Smaller, Row;
    BodiesFit(bodies, TotalLen(bodies) + 1);
    BodiesLaid(fns, slots, bodies, TotalLen(bodies) + 1);
    var ms := ProgramMarks(bodies);
    BlocksMade(ms, at);
    forall b | b in Recorded(bodies, at) ensures exists m, ent :: Owns(fns, slots, m, ent, b, at) {
      var i :| 0 <= i < |ms| && BlockOf(ms[i], at) == [b];
      OneBlock(ms[i], at);
      assert ms[i] in ms;
      var ent :| NodeAt(Scope(fns, ent), slots, ms[i].node, ms[i].start);
      assert Owns(fns, slots, ms[i], ent, b, at);
    }
  }

  /** From a syntax tree to an address and back: looking up any address in an instruction of a linked program gives the
      location of the innermost part with a location that the instruction belongs to, if nothing comes between; and only
      then, where different parts have different locations. The code of that part is the block around the
      instruction. */
  lemma RecordedIsFound(fns: FnTable, slots: seq<Slot>, bodies: seq<Body>, at: seq<nat> -> Option<Str>,
                        prog: seq<Instruction>, code: seq<Byte>, data: seq<Byte>, positions: seq<nat>, t: Table,
                        numbers: seq<seq<Isize>>, q: nat, pos: nat, i: nat)
    requires BackToBack(fns, slots, bodies)
    requires Represents(prog, code, data, positions) && |positions| == |prog| == |slots|
    requires Condenses(t, Placed(Entries(Recorded(bodies, at)), positions), numbers)
    requires AllFaithful(t, Placed(Entries(Recorded(bodies, at)), positions), numbers)
    requires q < |prog| && positions[q] <= pos < EndOf(positions, q, |code|) && Innermost(Recorded(bodies, at), q, i)
    ensures forall i :: 0 <= i < |t.locs| ==> t.locs[i].1 <= |t.tokens|
    ensures exists m, ent :: Owns(fns, slots, m, ent, Recorded(bodies, at)[i], at) && m.start <= q < End(m)
    ensures Clear(Recorded(bodies, at), q, i) ==> Found(t, pos) == Some(Recorded(bodies, at)[i].loc)
    ensures TellsApart(at) ==>
              (Found(t, pos) == Some(Recorded(bodies, at)[i].loc) <==> Clear(Recorded(bodies, at), q, i))
  {
    hide NodeAt, BodyAt, TotalLen, Represents, Condenses, Entries, Found, Clear, InOrder, Distinct, Within;
    hide Recorded, AllFaithful, TellsApart;
    RecordedInOrder(bodies, at);
    RecordedWithin(bodies, at);
    BlockIsFound(prog, code, data, positions, Recorded(bodies, at), t, numbers, q, pos, i);
    RecordedLaid(fns, slots, bodies, at);
    var b := Recorded(bodies, at)[i];
    assert b in Recorded(bodies, at);
    var m, ent :| Owns(fns, slots, m, ent, b, at);
    assert Owns(fns, slots, m, ent, b, at) && m.start <= q < End(m);
  }

  // ----- an example -----

  lemma LeafMarks(n: Node, pc: nat, path: seq<nat>)
    requires Kids(n) == []
    ensures Marks(n, pc, path) == [Mark(n, path, pc)]
  {
    hide Kids, Len;
  }

  lemma OneMoreKid(ks: seq<Kid>, k: Kid, bound: nat, pc: nat, path: seq<nat>)
    requires Smaller(ks + [k], bound)
    ensures Smaller(ks, bound)
    ensures KidMarks(ks + [k], bound, pc, path)
            == KidMarks(ks, bound, pc, path) + Marks(k.node, pc + k.off, path + [|ks|])
  {
    hide Len, Marks;
    var all := ks + [k];
    assert all[..|ks|] == ks && all[|ks|] == k;
    assert forall i :: 0 <= i < |ks| ==> ks[i] == all[i];
  }

  lemma OneKidMarks(n: Node, k: Kid, pc: nat, path: seq<nat>)
    requires Kids(n) == [k]
    ensures Marks(n, pc, path) == Marks(k.node, pc + k.off, path + [0]) + [Mark(n, path, pc)]
  {
    hide Kids, Len, Smaller, Row;
    KidsFit(n);
    assert [] + [k] == [k];
    OneMoreKid([], k, Len(n), pc, path);
  }

  lemma TwoKidMarks(n: Node, a: Kid, b: Kid, pc: nat, path: seq<nat>)
    requires Kids(n) == [a, b]
    ensures Marks(n, pc, path)
            == Marks(a.node, pc + a.off, path + [0]) + Marks(b.node, pc + b.off, path + [1]) + [Mark(n, path, pc)]
  {
    hide Kids, Len, Smaller, Row;
    KidsFit(n);
    assert [a] + [b] == [a, b] && [] + [a] == [a];
    OneMoreKid([a], b, Len(n), pc, path);
    OneMoreKid([], a, Len(n), pc, path);
  }

  lemma SingleKids(e: Expr, s: Stmt, off: nat)
    ensures ExprKids([e], off) == [Kid(off, OfExpr(e))] && StmtKids([s], off) == [Kid(off, OfStmt(s))]
    ensures StmtsLen([s]) == StmtLen(s)
  {
    hide ExprLen, StmtLen;
    assert [e][1..] == [] && [s][1..] == [];
    assert ExprKids([], off + ExprLen(e)) == [] && StmtKids([], off + StmtLen(s)) == [];
  }

  lemma SampleKids(a: Str, b: Str, x: Str)
    ensures Kids(OfExpr(Variable(a))) == Kids(OfExpr(Variable(b))) == []
    ensures Len(OfExpr(Variable(a))) == Len(OfExpr(Variable(b))) == 1
    ensures var t := SetVar(x, Variable(b)); Kids(OfStmt(t)) == [Kid(0, OfExpr(Variable(b)))] && Len(OfStmt(t)) == 2
    ensures var t := SetVar(x, Variable(b));
            var s := If(Variable(a), [t]);
            && Kids(OfStmt(s)) == [Kid(0, OfExpr(Variable(a))), Kid(2, OfStmt(t))] && Len(OfStmt(s)) == 4
            && Kids(OfBody([], [s])) == [Kid(0, OfStmt(s))]
  {
    hide ExprKids, StmtKids, StmtsLen;
    var t := SetVar(x, Variable(b));
    var s := If(Variable(a), [t]);
    SingleKids(Variable(a), s, 0);
    SingleKids(Variable(b), t, 0);
    SingleKids(Variable(b), t, 2);
  }

  lemma NoKidMarks(bound: nat)
    ensures Smaller([], bound) && KidMarks([], bound, 0, []) == []
  {
  }

  lemma OneBodyMarks(s: Stmt)
    ensures ProgramMarks([Body(None, [], [s])]) == Marks(OfBody([], [s]), 0, [0])
  {
    hide Kids, Len, Marks, Smaller, Row, BodyLen, KidMarks;
    var body := Body(None, [], [s]);
    var k := Kid(0, OfBody([], [s]));
    assert [body][..0] == [] && Bodies([]) == [] && [] + [k] == [k];
    assert Bodies([body]) == [k];
    NoKidMarks(TotalLen([body]) + 1);
    assert [] + [0] == [0];
    BodiesFit([body], TotalLen([body]) + 1);
    OneMoreKid([], k, TotalLen([body]) + 1, 0, []);
  }

  lemma OneMoreBlock(ms: seq<Mark>, m: Mark, at: seq<nat> -> Option<Str>)
    ensures Blocks(ms + [m], at) == Blocks(ms, at) + BlockOf(m, at)
  {
    hide BlockOf;
    assert (ms + [m])[..|ms|] == ms;
  }

  /** What is recorded for "if a, set x to b" as a script, where all four blocks have locations: at the conditional jump
      and at the assignment, the way to the innermost block is not clear. */
  lemma WrongRecorded(a: Str, b: Str, x: Str, at: seq<nat> -> Option<Str>)
    requires at([0, 0]).Some? && at([0, 0, 0]).Some? && at([0, 0, 1]).Some? && at([0, 0, 1, 0]).Some?
    ensures var bs := Recorded([Body(None, [], [If(Variable(a), [SetVar(x, Variable(b))])])], at);
            && bs == [Located.Block(0, 1, at([0, 0, 0]).value), Located.Block(2, 3, at([0, 0, 1, 0]).value),
                      Located.Block(2, 4, at([0, 0, 1]).value), Located.Block(0, 4, at([0, 0]).value)]
            && Innermost(bs, 1, 3) && !Clear(bs, 1, 3) && Innermost(bs, 3, 2) && !Clear(bs, 3, 2)
  {
    hide Kids, Len, Marks, Blocks, ProgramMarks;
    var e, f, t := OfExpr(Variable(a)), OfExpr(Variable(b)), OfStmt(SetVar(x, Variable(b)));
    var s := If(Variable(a), [SetVar(x, Variable(b))]);
    SampleKids(a, b, x);
    SampleMarks(e, f, t, OfStmt(s), OfBody([], [s]));
    OneBodyMarks(s);
    var m0, m1 := Mark(e, [0, 0, 0], 0), Mark(f, [0, 0, 1, 0], 2);
    var m2, m3 := Mark(t, [0, 0, 1], 2), Mark(OfStmt(s), [0, 0], 0);
    SampleBlocks(m0, m1, m2, m3, Mark(OfBody([], [s]), [0], 0), at);
    var bs := Recorded([Body(None, [], [s])], at);
    assert bs[1].end < bs[3].end && bs[3].end == bs[2].end;
    assert !Lasts(bs, 2);
  }

  lemma SampleMarks(e: Node, f: Node, t: Node, s: Node, body: Node)
    requires Kids(e) == Kids(f) == [] && Kids(t) == [Kid(0, f)] && Kids(s) == [Kid(0, e), Kid(2, t)]
    requires Kids(body) == [Kid(0, s)]
    ensures Marks(body, 0, [0]) == [Mark(e, [0, 0, 0], 0), Mark(f, [0, 0, 1, 0], 2), Mark(t, [0, 0, 1], 2),
                                    Mark(s, [0, 0], 0), Mark(body, [0], 0)]
  {
    hide Kids, Len, Marks;
    LeafMarks(e, 0, [0, 0, 0]);
    LeafMarks(f, 2, [0, 0, 1, 0]);
    OneKidMarks(t, Kid(0, f), 2, [0, 0, 1]);
    TwoKidMarks(s, Kid(0, e), Kid(2, t), 0, [0, 0]);
    OneKidMarks(body, Kid(0, s), 0, [0]);
    assert [0] + [0] == [0, 0] && [0, 0] + [0] == [0, 0, 0] && [0, 0] + [1] == [0, 0, 1];
    assert [0, 0, 1] + [0] == [0, 0, 1, 0];
  }

  lemma TwoMoreBlocks(ms: seq<Mark>, m: Mark, n: Mark, at: seq<nat> -> Option<Str>)
    ensures Blocks(ms + [m, n], at) == Blocks(ms, at) + (BlockOf(m, at) + BlockOf(n, at))
  {
    hide BlockOf, Blocks;
    assert ms + [m, n] == (ms + [m]) + [n];
    OneMoreBlock(ms, m, at);
    OneMoreBlock(ms + [m], n, at);
  }

  lemma SampleBlocks(m0: Mark, m1: Mark, m2: Mark, m3: Mark, m4: Mark, at: seq<nat> -> Option<Str>)
    ensures Blocks([m0, m1, m2, m3, m4], at)
            == BlockOf(m0, at) + BlockOf(m1, at) + (BlockOf(m2, at) + BlockOf(m3, at)) + BlockOf(m4, at)
  {
    hide BlockOf;
    assert [] + [m0, m1] == [m0, m1];
    TwoMoreBlocks([], m0, m1, at);
    assert [m0, m1] + [m2, m3] == [m0, m1, m2, m3];
    TwoMoreBlocks([m0, m1], m2, m3, at);
    assert [m0, m1, m2, m3] + [m4] == [m0, m1, m2, m3, m4];
    OneMoreBlock([m0, m1, m2, m3], m4, at);
  }
}

/** Run-time values, the heap they live in, and the conversions of the interpreter. */
module Values {
  import opened Common
  import opened Bytecode

  /** Lists and closures are references; closures are kept in a table of their own, so that values mean
      the same whatever form code takes. Numbers are finite. */
  datatype Value = Num(n: real) | Bool(b: bool) | Txt(s: Str) | List(id: nat) | Closure(id: nat)

  /** The variable cells and the lists of a project. */
  datatype Heap = Heap(cells: seq<Value>, lists: seq<seq<Value>>)

  /** Names in scope, each bound to a cell; closures share the cells they capture. */
  type Locals = map<Str, nat>

  datatype Type = NumT | BoolT | TxtT | ListT | ClosureT

  datatype Error =
    | Custom(msg: Str)
    | UndefinedVariable(name: Str)
    | Conversion(got: Type, expected: Type)
    | Incomparable(left: Type, right: Type)
    | IndexOutOfBounds(index: nat, len: nat)
    | ClosureArgCount(params: nat, args: nat)
    | CallDepthLimit(limit: nat)
    | UpvarAtRoot
    | EmptyList
    | BadNumber
    | CyclicValue
    | HostError(code: nat)

  /** What a scalar operation can produce: anything but a reference. */
  datatype Scalar = OfNum(n: real) | OfBool(b: bool) | OfTxt(s: Str)

  datatype Ordering = Below | Same | Above

  /** The parts of the interpreter this model takes as given: number parsing and printing, the other
      scalar operators, and the comparison of values that are not both numbers. */
  datatype World = World(
    parse: Str -> Option<real>,
    show: real -> Str,
    number: U64 -> Option<real>,
    describe: Error -> Str,
    scalar2: (BinaryOp, Value, Value) -> Result<Scalar, Error>,
    scalar1: (UnaryOp, Value) -> Result<Scalar, Error>,
    compare: (seq<seq<Value>>, Value, Value) -> Result<Option<Ordering>, Error>,
    maxCallDepth: nat)

  function TypeOf(v: Value): Type {
    match v
    case Num(_) => NumT
    case Bool(_) => BoolT
    case Txt(_) => TxtT
    case List(_) => ListT
    case Closure(_) => ClosureT
  }

  function FromScalar(s: Scalar): Value {
    match s
    case OfNum(n) => Num(n)
    case OfBool(b) => Bool(b)
    case OfTxt(t) => Txt(t)
  }

  function AsBool(v: Value): Result<bool, Error> {
    if v.Bool? then Ok(v.b) else Err(Conversion(TypeOf(v), BoolT))
  }

  function AsNum(w: World, v: Value): Result<real, Error> {
    match v
    case Num(n) => Ok(n)
    case Txt(s) => var r := w.parse(s); if r.Some? then Ok(r.value) else Err(Conversion(TxtT, NumT))
    case _ => Err(Conversion(TypeOf(v), NumT))
  }

  function AsTxt(w: World, v: Value): Result<Str, Error> {
    match v
    case Txt(s) => Ok(s)
    case Num(n) => Ok(w.show(n))
    case _ => Err(Conversion(TypeOf(v), TxtT))
  }

  function Arith(op: BinaryOp, x: real, y: real): real {
    match op case Add => x + y case Sub => x - y case _ => x * y
  }

  /** A binary operator on two values that are not lists. */
  function Scalar2(w: World, op: BinaryOp, a: Value, b: Value): Result<Scalar, Error> {
    if op.Add? || op.Sub? || op.Mul? then
      var x := AsNum(w, a);
      if x.Err? then Err(x.error)
      else
        var y := AsNum(w, b);
        if y.Err? then Err(y.error) else Ok(OfNum(Arith(op, x.value, y.value)))
    else w.scalar2(op, a, b)
  }

  /** A unary operator on a value that is not a list. */
  function Scalar1(w: World, op: UnaryOp, v: Value): Result<Scalar, Error> {
    if op.Not? then
      var b := AsBool(v);
      if b.Err? then Err(b.error) else Ok(OfBool(!b.value))
    else if op.ToNumber? || op.Abs? || op.Neg? then
      var x := AsNum(w, v);
      if x.Err? then Err(x.error)
      else Ok(OfNum(if op.Neg? || (op.Abs? && x.value < 0.0) then -x.value else x.value))
    else w.scalar1(op, v)
  }

  function Compare(w: World, lists: seq<seq<Value>>, a: Value, b: Value): Result<Option<Ordering>, Error> {
    if a.Num? && b.Num? then Ok(Some(if a.n < b.n then Below else if a.n == b.n then Same else Above))
    else w.compare(lists, a, b)
  }

  /** Whether a relation holds; an order is an error on values that have none. */
  function Relates(w: World, lists: seq<seq<Value>>, r: Relation, a: Value, b: Value): Result<bool, Error> {
    var c := Compare(w, lists, a, b);
    if c.Err? then Err(c.error)
    else match r {
      case Equal => Ok(c.value == Some(Same))
      case NotEqual => Ok(c.value != Some(Same))
      case _ =>
        if c.value.None? then Err(Incomparable(TypeOf(a), TypeOf(b)))
        else
          var o := c.value.value;
          Ok(if r.Less? then o.Below? else if r.LessEq? then !o.Above? else if r.Greater? then o.Above? else !o.Below?)
    }
  }

  /** The items of a list; an unknown id is an empty list. */
  function Items(lists: seq<seq<Value>>, id: nat): seq<Value> {
    if id < |lists| then lists[id] else []
  }

  function SetItems(lists: seq<seq<Value>>, id: nat, items: seq<Value>): (r: seq<seq<Value>>)
    ensures |r| == |lists|
  {
    if id < |lists| then lists[id := items] else lists
  }

  function Cell(cells: seq<Value>, c: nat): Value {
    if c < |cells| then cells[c] else Num(0.0)
  }

  function SetCell(cells: seq<Value>, c: nat, v: Value): (r: seq<Value>)
    ensures |r| == |cells|
  {
    if c < |cells| then cells[c := v] else cells
  }

  /** Innermost scope first: the locals, then what the entity and the project define. */
  function Lookup(locals: Locals, outer: Locals, name: Str): Option<nat> {
    if name in locals then Some(locals[name]) else if name in outer then Some(outer[name]) else None
  }

  function AsList(v: Value): Result<nat, Error> {
    if v.List? then Ok(v.id) else Err(Conversion(TypeOf(v), ListT))
  }
}

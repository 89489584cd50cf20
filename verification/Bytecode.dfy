/** The instruction set and its table of opcodes and operands. */
module Bytecode {
  import opened Common
  import opened Varint

  datatype Relation = Equal | NotEqual | Less | LessEq | Greater | GreaterEq

  datatype TimeQuery = Year | Month | Date | DayOfWeek | Hour | Minute | Second | UnixTimestampMs

  datatype BinaryOp = Add | Sub | Mul | Div | Mod | Pow | Log | Atan2 | SplitBy | Range | Random | StrGet

  datatype UnaryOp =
    | ToNumber | Not | Abs | Neg | Sqrt | Round | Floor | Ceil | Sin | Cos | Tan | Asin | Acos | Atan
    | SplitLetter | SplitWord | SplitTab | SplitCR | SplitLF | SplitCsv | SplitJson
    | StrLen | StrGetLast | StrGetRandom | UnicodeToChar | CharToUnicode

  datatype VariadicOp = AddAll | MulAll | MinOf | MaxOf | StrCat | MakeList | ListCat

  datatype VariadicLen = Fixed(count: nat) | Dynamic

  datatype BasicType = NumberType | StringType | BoolType | ListType | EntityType | ImageType | AudioType

  datatype PrintStyle = Say | Think

  datatype Property =
    | XPos | YPos | Heading | Visible | Size | PenDown | PenSize | PenColor
    | PenColorH | PenColorS | PenColorV | PenColorT | Tempo | Volume | Balance
    | ColorH | ColorS | ColorV | ColorT | Fisheye | Whirl | Pixelate | Mosaic | Negative

  // Each enumeration is stored as one byte, its position in declaration order.
  const RELATIONS := [Equal, NotEqual, Less, LessEq, Greater, GreaterEq]
  const TIME_QUERIES := [Year, Month, Date, DayOfWeek, Hour, Minute, Second, UnixTimestampMs]
  const BINARY_OPS := [Add, Sub, Mul, Div, Mod, Pow, Log, Atan2, SplitBy, Range, Random, StrGet]
  const UNARY_OPS := [ToNumber, Not, Abs, Neg, Sqrt, Round, Floor, Ceil, Sin, Cos, Tan, Asin, Acos, Atan,
                      SplitLetter, SplitWord, SplitTab, SplitCR, SplitLF, SplitCsv, SplitJson,
                      StrLen, StrGetLast, StrGetRandom, UnicodeToChar, CharToUnicode]
  const VARIADIC_OPS := [AddAll, MulAll, MinOf, MaxOf, StrCat, MakeList, ListCat]
  const BASIC_TYPES := [NumberType, StringType, BoolType, ListType, EntityType, ImageType, AudioType]
  const PROPERTIES := [XPos, YPos, Heading, Visible, Size, PenDown, PenSize, PenColor,
                       PenColorH, PenColorS, PenColorV, PenColorT, Tempo, Volume, Balance,
                       ColorH, ColorS, ColorV, ColorT, Fisheye, Whirl, Pixelate, Mosaic, Negative]

  datatype Color = Color(a: Byte, r: Byte, g: Byte, b: Byte)

  /** The instructions that need more than the interpreter has: the host environment, or values and operations that
      are not modelled. They are stored and linked like all others. */
  datatype HostOp =
    | PushColor(color: Color) | PushEntity(name: Str) | PushSelf | TypeQuery(ty: BasicType) | ListFind
    | ListContains | ListDims | ListRank | ListFlatten | ListReshape(len: VariadicLen)
    | ListCartesianProduct(len: VariadicLen) | ListJson | ListCsv | ListColumns | ListLines | ListInsert
    | ListInsertRandom | ListGet | ListGetRandom | ListAssign | ListAssignRandom | ListRemove
    | Watcher(create: bool, name: Str) | Pause | ForkClosure(args: nat) | CallRpc(tokens: Str) | PushRpcError
    | Syscall(len: VariadicLen) | PushSyscallError | SendLocalMessage(wait: bool, target: bool)
    | PushLocalMessage | Print(style: PrintStyle) | Ask | PushAnswer | ResetTimer | PushTimer | Sleep
    | PushRealTime(query: TimeQuery) | SendNetworkMessage(tokens: Str, expectReply: bool) | SendNetworkReply
    | PushProperty(prop: Property) | SetProperty(prop: Property) | ChangeProperty(prop: Property) | PushCostume
    | PushCostumeNumber | PushCostumeList | SetCostume | NextCostume | Clone | ClearEffects | ClearDrawings
    | GotoXY | Goto | PointTowardsXY | PointTowards | Forward | UnknownBlock(name: Str, args: nat)

  /** One instruction. Numbers are carried as their 64 IEEE bits, text and names as UTF-8 bytes, and
      `tokens` as a null-separated join of names. A code operand is an instruction index before
      linking and a byte address after it. */
  datatype Instruction =
    | Yield | WarpStart | WarpStop | PushBool(flag: bool) | PushInt(int32: I32) | PushNumber(bits: U64)
    | PushString(text: Str) | PushVariable(name: Str) | PopValue | DupeValue(topIndex: Byte)
    | SwapValues(topIndex1: Byte, topIndex2: Byte) | ToBool | ToNum | ListCons | ListCdr | ListIsEmpty
    | ListLength | ListRev | ListInsertLast | ListGetLast | ListAssignLast | ListRemoveLast | ListRemoveAll
    | ListPopFirstOrElse(goto: nat) | Binary(bop: BinaryOp) | Variadic(vop: VariadicOp, len: VariadicLen)
    | Cmp(relation: Relation) | Identical | Unary(uop: UnaryOp) | DeclareLocal(name: Str) | InitUpvar(name: Str)
    | Assign(name: Str) | BinaryOpAssign(name: Str, bop: BinaryOp) | Jump(to: nat)
    | ConditionalJump(to: nat, when_: bool) | Call(pos: nat, tokens: Str)
    | MakeClosure(pos: nat, params: nat, tokens: Str) | CallClosure(newEntity: bool, args: nat) | Return
    | PushHandler(pos: nat, name: Str) | PopHandler | Throw
    | Host(host: HostOp)

  /** An operand as the code stream stores it. */
  datatype Operand =
    | Small(b: Byte)
    | Flag(f: bool)
    | Count(n: nat)
    | Folded(i: I32)
    | Float(u: U64)
    | Rgba(c: Color)
    | Length(len: VariadicLen)
    | Address(target: nat)
    | Text(text: Str)

  datatype Kind = KSmall | KFlag | KCount | KFolded | KFloat | KRgba | KLength | KAddress | KText

  function KindOf(o: Operand): Kind {
    match o
    case Small(_) => KSmall
    case Flag(_) => KFlag
    case Count(_) => KCount
    case Folded(_) => KFolded
    case Float(_) => KFloat
    case Rgba(_) => KRgba
    case Length(_) => KLength
    case Address(_) => KAddress
    case Text(_) => KText
  }

  function RelationByte(x: Relation): Byte {
    match x case Equal => 0 case NotEqual => 1 case Less => 2 case LessEq => 3 case Greater => 4 case GreaterEq => 5
  }

  function TimeQueryByte(x: TimeQuery): Byte {
    match x
    case Year => 0 case Month => 1 case Date => 2 case DayOfWeek => 3
    case Hour => 4 case Minute => 5 case Second => 6 case UnixTimestampMs => 7
  }

  function BinaryOpByte(x: BinaryOp): Byte {
    match x
    case Add => 0 case Sub => 1 case Mul => 2 case Div => 3 case Mod => 4 case Pow => 5 case Log => 6
    case Atan2 => 7 case SplitBy => 8 case Range => 9 case Random => 10 case StrGet => 11
  }

  function UnaryOpByte(x: UnaryOp): Byte {
    match x
    case ToNumber => 0 case Not => 1 case Abs => 2 case Neg => 3 case Sqrt => 4 case Round => 5
    case Floor => 6 case Ceil => 7 case Sin => 8 case Cos => 9 case Tan => 10 case Asin => 11
    case Acos => 12 case Atan => 13 case SplitLetter => 14 case SplitWord => 15 case SplitTab => 16
    case SplitCR => 17 case SplitLF => 18 case SplitCsv => 19 case SplitJson => 20 case StrLen => 21
    case StrGetLast => 22 case StrGetRandom => 23 case UnicodeToChar => 24 case CharToUnicode => 25
  }

  function VariadicOpByte(x: VariadicOp): Byte {
    match x
    case AddAll => 0 case MulAll => 1 case MinOf => 2 case MaxOf => 3
    case StrCat => 4 case MakeList => 5 case ListCat => 6
  }

  function BasicTypeByte(x: BasicType): Byte {
    match x
    case NumberType => 0 case StringType => 1 case BoolType => 2 case ListType => 3
    case EntityType => 4 case ImageType => 5 case AudioType => 6
  }

  function PropertyByte(x: Property): Byte {
    match x
    case XPos => 0 case YPos => 1 case Heading => 2 case Visible => 3 case Size => 4 case PenDown => 5
    case PenSize => 6 case PenColor => 7 case PenColorH => 8 case PenColorS => 9 case PenColorV => 10
    case PenColorT => 11 case Tempo => 12 case Volume => 13 case Balance => 14 case ColorH => 15
    case ColorS => 16 case ColorV => 17 case ColorT => 18 case Fisheye => 19 case Whirl => 20
    case Pixelate => 21 case Mosaic => 22 case Negative => 23
  }

  function HostOpcode(op: HostOp): Byte {
    match op
    case PushColor(_) => 7
    case PushEntity(_) => 11
    case PushSelf => 12
    case TypeQuery(_) => 16
    case ListFind => 21
    case ListContains => 22
    case ListDims => 25
    case ListRank => 26
    case ListFlatten => 28
    case ListReshape(_) => 29
    case ListCartesianProduct(_) => 30
    case ListJson => 31
    case ListCsv => 32
    case ListColumns => 33
    case ListLines => 34
    case ListInsert => 35
    case ListInsertRandom => 37
    case ListGet => 38
    case ListGetRandom => 40
    case ListAssign => 41
    case ListAssignRandom => 43
    case ListRemove => 44
    case Watcher(_, _) => 73
    case Pause => 74
    case ForkClosure(_) => 82
    case CallRpc(_) => 87
    case PushRpcError => 88
    case Syscall(_) => 89
    case PushSyscallError => 90
    case SendLocalMessage(wait, target) => if wait then if target then 94 else 93 else if target then 92 else 91
    case PushLocalMessage => 95
    case Print(style) => if style.Say? then 96 else 97
    case Ask => 98
    case PushAnswer => 99
    case ResetTimer => 100
    case PushTimer => 101
    case Sleep => 102
    case PushRealTime(_) => 103
    case SendNetworkMessage(_, expectReply) => if expectReply then 105 else 104
    case SendNetworkReply => 106
    case PushProperty(_) => 107
    case SetProperty(_) => 108
    case ChangeProperty(_) => 109
    case PushCostume => 110
    case PushCostumeNumber => 111
    case PushCostumeList => 112
    case SetCostume => 113
    case NextCostume => 114
    case Clone => 115
    case ClearEffects => 116
    case ClearDrawings => 117
    case GotoXY => 118
    case Goto => 119
    case PointTowardsXY => 120
    case PointTowards => 121
    case Forward => 122
    case UnknownBlock(_, _) => 123
  }

  /** The writer's side of the table: the opcode chosen for an instruction. Frequent special cases
      have opcodes of their own. */
  function Opcode(ins: Instruction): Byte {
    match ins
    case Yield => 0
    case WarpStart => 1
    case WarpStop => 2
    case PushBool(flag) => if flag then 4 else 3
    case PushInt(_) => 5
    case PushNumber(_) => 6
    case PushString(text) => if text == [] then 8 else 9
    case PushVariable(_) => 10
    case PopValue => 13
    case DupeValue(_) => 14
    case SwapValues(_, _) => 15
    case ToBool => 17
    case ToNum => 18
    case ListCons => 19
    case ListCdr => 20
    case ListIsEmpty => 23
    case ListLength => 24
    case ListRev => 27
    case ListInsertLast => 36
    case ListGetLast => 39
    case ListAssignLast => 42
    case ListRemoveLast => 45
    case ListRemoveAll => 46
    case ListPopFirstOrElse(_) => 47
    case Cmp(relation) => 48 + RelationByte(relation)
    case Identical => 54
    case Binary(op) =>
      if op.Add? then 55 else if op.Sub? then 56 else if op.Mul? then 57 else if op.Div? then 58 else 59
    case Variadic(op, _) =>
      if op.AddAll? then 60 else if op.MulAll? then 61 else if op.StrCat? then 62 else if op.MakeList? then 63 else 64
    case Unary(op) => if op.Not? then 65 else if op.Round? then 66 else 67
    case DeclareLocal(_) => 68
    case InitUpvar(_) => 69
    case Assign(_) => 70
    case BinaryOpAssign(_, op) => if op.Add? then 71 else 72
    case Jump(_) => 75
    case ConditionalJump(_, when_) => if when_ then 77 else 76
    case Call(_, _) => 78
    case MakeClosure(_, _, _) => 79
    case CallClosure(newEntity, _) => if newEntity then 81 else 80
    case Return => 83
    case PushHandler(_, _) => 84
    case PopHandler => 85
    case Throw => 86
    case Host(op) => HostOpcode(op)
  }

  function HostOperands(op: HostOp): seq<Operand> {
    match op
    case PushColor(color) => [Rgba(color)]
    case PushEntity(name) => [Text(name)]
    case TypeQuery(ty) => [Small(BasicTypeByte(ty))]
    case ListReshape(len) => [Length(len)]
    case ListCartesianProduct(len) => [Length(len)]
    case Watcher(create, name) => [Flag(create), Text(name)]
    case ForkClosure(args) => [Count(args)]
    case CallRpc(tokens) => [Text(tokens)]
    case Syscall(len) => [Length(len)]
    case PushRealTime(query) => [Small(TimeQueryByte(query))]
    case SendNetworkMessage(tokens, _) => [Text(tokens)]
    case PushProperty(prop) => [Small(PropertyByte(prop))]
    case SetProperty(prop) => [Small(PropertyByte(prop))]
    case ChangeProperty(prop) => [Small(PropertyByte(prop))]
    case UnknownBlock(name, args) => [Text(name), Count(args)]
    case _ => []
  }

  /** The writer's side of the table: the operands that follow the opcode, in stream order. */
  function Operands(ins: Instruction): seq<Operand> {
    match ins
    case PushInt(v) => [Folded(v)]
    case PushNumber(bits) => [Float(bits)]
    case PushString(text) => if text == [] then [] else [Text(text)]
    case PushVariable(name) => [Text(name)]
    case DupeValue(i) => [Small(i)]
    case SwapValues(i, j) => [Small(i), Small(j)]
    case ListPopFirstOrElse(goto) => [Address(goto)]
    case Binary(op) =>
      if op.Add? then [] else if op.Sub? then [] else if op.Mul? then [] else if op.Div? then []
      else [Small(BinaryOpByte(op))]
    case Variadic(op, len) =>
      if op.AddAll? then [Length(len)] else if op.MulAll? then [Length(len)] else if op.StrCat? then [Length(len)]
      else if op.MakeList? then [Length(len)] else [Small(VariadicOpByte(op)), Length(len)]
    case Unary(op) => if op.Not? then [] else if op.Round? then [] else [Small(UnaryOpByte(op))]
    case DeclareLocal(name) => [Text(name)]
    case InitUpvar(name) => [Text(name)]
    case Assign(name) => [Text(name)]
    case BinaryOpAssign(name, op) => if op.Add? then [Text(name)] else [Text(name), Small(BinaryOpByte(op))]
    case Jump(to) => [Address(to)]
    case ConditionalJump(to, _) => [Address(to)]
    case Call(pos, tokens) => [Address(pos), Text(tokens)]
    case MakeClosure(pos, params, tokens) => [Address(pos), Count(params), Text(tokens)]
    case CallClosure(_, args) => [Count(args)]
    case PushHandler(pos, name) => [Address(pos), Text(name)]
    case Host(op) => HostOperands(op)
    case _ => []
  }

  function PushShape(op: Byte): seq<Kind> {
    match op
    case 5 => [KFolded]
    case 6 => [KFloat]
    case 7 => [KRgba]
    case _ => []
  }

  function NameShape(op: Byte): seq<Kind> {
    match op
    case 9 => [KText]
    case 10 => [KText]
    case 11 => [KText]
    case _ => []
  }

  function StackShape(op: Byte): seq<Kind> {
    match op
    case 14 => [KSmall]
    case 15 => [KSmall, KSmall]
    case 16 => [KSmall]
    case _ => []
  }

  function ListQueryShape(op: Byte): seq<Kind> {
    match op
    case _ => []
  }

  function ListFormShape(op: Byte): seq<Kind> {
    match op
    case 29 => [KLength]
    case 30 => [KLength]
    case _ => []
  }

  function ListGrowShape(op: Byte): seq<Kind> {
    match op
    case _ => []
  }

  function ListEditShape(op: Byte): seq<Kind> {
    match op
    case 47 => [KAddress]
    case _ => []
  }

  function ComparisonShape(op: Byte): seq<Kind> {
    match op
    case _ => []
  }

  function BinaryShape(op: Byte): seq<Kind> {
    match op
    case 59 => [KSmall]
    case _ => []
  }

  function VariadicShape(op: Byte): seq<Kind> {
    match op
    case 60 => [KLength]
    case 61 => [KLength]
    case 62 => [KLength]
    case 63 => [KLength]
    case 64 => [KSmall, KLength]
    case _ => []
  }

  function UnaryShape(op: Byte): seq<Kind> {
    match op
    case 67 => [KSmall]
    case _ => []
  }

  function VariableShape(op: Byte): seq<Kind> {
    match op
    case 68 => [KText]
    case 69 => [KText]
    case 70 => [KText]
    case 71 => [KText]
    case 72 => [KText, KSmall]
    case 73 => [KFlag, KText]
    case _ => []
  }

  function JumpShape(op: Byte): seq<Kind> {
    match op
    case 75 => [KAddress]
    case 76 => [KAddress]
    case 77 => [KAddress]
    case 78 => [KAddress, KText]
    case 79 => [KAddress, KCount, KText]
    case _ => []
  }

  function CallShape(op: Byte): seq<Kind> {
    match op
    case 80 => [KCount]
    case 81 => [KCount]
    case 82 => [KCount]
    case 84 => [KAddress, KText]
    case _ => []
  }

  function RequestShape(op: Byte): seq<Kind> {
    match op
    case 87 => [KText]
    case 89 => [KLength]
    case _ => []
  }

  function LocalShape(op: Byte): seq<Kind> {
    match op
    case _ => []
  }

  function DisplayShape(op: Byte): seq<Kind> {
    match op
    case 103 => [KSmall]
    case _ => []
  }

  function MessageShape(op: Byte): seq<Kind> {
    match op
    case 104 => [KText]
    case 105 => [KText]
    case _ => []
  }

  function PropertyShape(op: Byte): seq<Kind> {
    match op
    case 107 => [KSmall]
    case 108 => [KSmall]
    case 109 => [KSmall]
    case _ => []
  }

  function CostumeShape(op: Byte): seq<Kind> {
    match op
    case _ => []
  }

  function MotionShape(op: Byte): seq<Kind> {
    match op
    case 123 => [KText, KCount]
    case _ => []
  }

  /** The reader's side: which operands follow an opcode. */
  function Shape(op: Byte): seq<Kind> {
    if op < 8 then PushShape(op)
    else if op < 13 then NameShape(op)
    else if op < 19 then StackShape(op)
    else if op < 27 then ListQueryShape(op)
    else if op < 35 then ListFormShape(op)
    else if op < 41 then ListGrowShape(op)
    else if op < 48 then ListEditShape(op)
    else if op < 55 then ComparisonShape(op)
    else if op < 60 then BinaryShape(op)
    else if op < 65 then VariadicShape(op)
    else if op < 68 then UnaryShape(op)
    else if op < 75 then VariableShape(op)
    else if op < 80 then JumpShape(op)
    else if op < 87 then CallShape(op)
    else if op < 91 then RequestShape(op)
    else if op < 96 then LocalShape(op)
    else if op < 104 then DisplayShape(op)
    else if op < 107 then MessageShape(op)
    else if op < 110 then PropertyShape(op)
    else if op < 116 then CostumeShape(op)
    else MotionShape(op)
  }

  /** The operands have the kinds listed; no opcode has more than three. */
  predicate OfKinds(xs: seq<Operand>, ks: seq<Kind>) {
    && |xs| == |ks| <= 3
    && (|ks| > 0 ==> KindOf(xs[0]) == ks[0])
    && (|ks| > 1 ==> KindOf(xs[1]) == ks[1])
    && (|ks| > 2 ==> KindOf(xs[2]) == ks[2])
  }

  predicate Shaped(op: Byte, xs: seq<Operand>) {
    OfKinds(xs, Shape(op))
  }

  function BuildPush(op: Byte, xs: seq<Operand>): Option<Instruction>
    requires OfKinds(xs, PushShape(op))
  {
    match op
    case 0 => Some(Yield)
    case 1 => Some(WarpStart)
    case 2 => Some(WarpStop)
    case 3 => Some(PushBool(false))
    case 4 => Some(PushBool(true))
    case 5 => Some(PushInt(xs[0].i))
    case 6 => Some(PushNumber(xs[0].u))
    case 7 => Some(Host(PushColor(xs[0].c)))
    case _ => None
  }

  function BuildName(op: Byte, xs: seq<Operand>): Option<Instruction>
    requires OfKinds(xs, NameShape(op))
  {
    match op
    case 8 => Some(PushString([]))
    case 9 => Some(PushString(xs[0].text))
    case 10 => Some(PushVariable(xs[0].text))
    case 11 => Some(Host(PushEntity(xs[0].text)))
    case 12 => Some(Host(PushSelf))
    case _ => None
  }

  function BuildStack(op: Byte, xs: seq<Operand>): Option<Instruction>
    requires OfKinds(xs, StackShape(op))
  {
    match op
    case 13 => Some(PopValue)
    case 14 => Some(DupeValue(xs[0].b))
    case 15 => Some(SwapValues(xs[0].b, xs[1].b))
    case 16 => if xs[0].b < |BASIC_TYPES| then Some(Host(TypeQuery(BASIC_TYPES[xs[0].b]))) else None
    case 17 => Some(ToBool)
    case 18 => Some(ToNum)
    case _ => None
  }

  function BuildListQuery(op: Byte, xs: seq<Operand>): Option<Instruction>
    requires OfKinds(xs, ListQueryShape(op))
  {
    match op
    case 19 => Some(ListCons)
    case 20 => Some(ListCdr)
    case 21 => Some(Host(ListFind))
    case 22 => Some(Host(ListContains))
    case 23 => Some(ListIsEmpty)
    case 24 => Some(ListLength)
    case 25 => Some(Host(ListDims))
    case 26 => Some(Host(ListRank))
    case _ => None
  }

  function BuildListForm(op: Byte, xs: seq<Operand>): Option<Instruction>
    requires OfKinds(xs, ListFormShape(op))
  {
    match op
    case 27 => Some(ListRev)
    case 28 => Some(Host(ListFlatten))
    case 29 => Some(Host(ListReshape(xs[0].len)))
    case 30 => Some(Host(ListCartesianProduct(xs[0].len)))
    case 31 => Some(Host(ListJson))
    case 32 => Some(Host(ListCsv))
    case 33 => Some(Host(ListColumns))
    case 34 => Some(Host(ListLines))
    case _ => None
  }

  function BuildListGrow(op: Byte, xs: seq<Operand>): Option<Instruction>
    requires OfKinds(xs, ListGrowShape(op))
  {
    match op
    case 35 => Some(Host(ListInsert))
    case 36 => Some(ListInsertLast)
    case 37 => Some(Host(ListInsertRandom))
    case 38 => Some(Host(ListGet))
    case 39 => Some(ListGetLast)
    case 40 => Some(Host(ListGetRandom))
    case _ => None
  }

  function BuildListEdit(op: Byte, xs: seq<Operand>): Option<Instruction>
    requires OfKinds(xs, ListEditShape(op))
  {
    match op
    case 41 => Some(Host(ListAssign))
    case 42 => Some(ListAssignLast)
    case 43 => Some(Host(ListAssignRandom))
    case 44 => Some(Host(ListRemove))
    case 45 => Some(ListRemoveLast)
    case 46 => Some(ListRemoveAll)
    case 47 => Some(ListPopFirstOrElse(xs[0].target))
    case _ => None
  }

  function BuildComparison(op: Byte, xs: seq<Operand>): Option<Instruction>
    requires OfKinds(xs, ComparisonShape(op))
  {
    match op
    case 48 => Some(Cmp(Equal))
    case 49 => Some(Cmp(NotEqual))
    case 50 => Some(Cmp(Less))
    case 51 => Some(Cmp(LessEq))
    case 52 => Some(Cmp(Greater))
    case 53 => Some(Cmp(GreaterEq))
    case 54 => Some(Identical)
    case _ => None
  }

  function BuildBinary(op: Byte, xs: seq<Operand>): Option<Instruction>
    requires OfKinds(xs, BinaryShape(op))
  {
    match op
    case 55 => Some(Binary(Add))
    case 56 => Some(Binary(Sub))
    case 57 => Some(Binary(Mul))
    case 58 => Some(Binary(Div))
    case 59 => if xs[0].b < |BINARY_OPS| then Some(Binary(BINARY_OPS[xs[0].b])) else None
    case _ => None
  }

  function BuildVariadic(op: Byte, xs: seq<Operand>): Option<Instruction>
    requires OfKinds(xs, VariadicShape(op))
  {
    match op
    case 60 => Some(Variadic(AddAll, xs[0].len))
    case 61 => Some(Variadic(MulAll, xs[0].len))
    case 62 => Some(Variadic(StrCat, xs[0].len))
    case 63 => Some(Variadic(MakeList, xs[0].len))
    case 64 => if xs[0].b < |VARIADIC_OPS| then Some(Variadic(VARIADIC_OPS[xs[0].b], xs[1].len)) else None
    case _ => None
  }

  function BuildUnary(op: Byte, xs: seq<Operand>): Option<Instruction>
    requires OfKinds(xs, UnaryShape(op))
  {
    match op
    case 65 => Some(Unary(Not))
    case 66 => Some(Unary(Round))
    case 67 => if xs[0].b < |UNARY_OPS| then Some(Unary(UNARY_OPS[xs[0].b])) else None
    case _ => None
  }

  function BuildVariable(op: Byte, xs: seq<Operand>): Option<Instruction>
    requires OfKinds(xs, VariableShape(op))
  {
    match op
    case 68 => Some(DeclareLocal(xs[0].text))
    case 69 => Some(InitUpvar(xs[0].text))
    case 70 => Some(Assign(xs[0].text))
    case 71 => Some(BinaryOpAssign(xs[0].text, Add))
    case 72 => if xs[1].b < |BINARY_OPS| then Some(BinaryOpAssign(xs[0].text, BINARY_OPS[xs[1].b])) else None
    case 73 => Some(Host(Watcher(xs[0].f, xs[1].text)))
    case 74 => Some(Host(Pause))
    case _ => None
  }

  function BuildJump(op: Byte, xs: seq<Operand>): Option<Instruction>
    requires OfKinds(xs, JumpShape(op))
  {
    match op
    case 75 => Some(Jump(xs[0].target))
    case 76 => Some(ConditionalJump(xs[0].target, false))
    case 77 => Some(ConditionalJump(xs[0].target, true))
    case 78 => Some(Call(xs[0].target, xs[1].text))
    case 79 => Some(MakeClosure(xs[0].target, xs[1].n, xs[2].text))
    case _ => None
  }

  function BuildCall(op: Byte, xs: seq<Operand>): Option<Instruction>
    requires OfKinds(xs, CallShape(op))
  {
    match op
    case 80 => Some(CallClosure(false, xs[0].n))
    case 81 => Some(CallClosure(true, xs[0].n))
    case 82 => Some(Host(ForkClosure(xs[0].n)))
    case 83 => Some(Return)
    case 84 => Some(PushHandler(xs[0].target, xs[1].text))
    case 85 => Some(PopHandler)
    case 86 => Some(Throw)
    case _ => None
  }

  function BuildRequest(op: Byte, xs: seq<Operand>): Option<Instruction>
    requires OfKinds(xs, RequestShape(op))
  {
    match op
    case 87 => Some(Host(CallRpc(xs[0].text)))
    case 88 => Some(Host(PushRpcError))
    case 89 => Some(Host(Syscall(xs[0].len)))
    case 90 => Some(Host(PushSyscallError))
    case _ => None
  }

  function BuildLocal(op: Byte, xs: seq<Operand>): Option<Instruction>
    requires OfKinds(xs, LocalShape(op))
  {
    match op
    case 91 => Some(Host(SendLocalMessage(false, false)))
    case 92 => Some(Host(SendLocalMessage(false, true)))
    case 93 => Some(Host(SendLocalMessage(true, false)))
    case 94 => Some(Host(SendLocalMessage(true, true)))
    case 95 => Some(Host(PushLocalMessage))
    case _ => None
  }

  function BuildDisplay(op: Byte, xs: seq<Operand>): Option<Instruction>
    requires OfKinds(xs, DisplayShape(op))
  {
    match op
    case 96 => Some(Host(Print(Say)))
    case 97 => Some(Host(Print(Think)))
    case 98 => Some(Host(Ask))
    case 99 => Some(Host(PushAnswer))
    case 100 => Some(Host(ResetTimer))
    case 101 => Some(Host(PushTimer))
    case 102 => Some(Host(Sleep))
    case 103 => if xs[0].b < |TIME_QUERIES| then Some(Host(PushRealTime(TIME_QUERIES[xs[0].b]))) else None
    case _ => None
  }

  function BuildMessage(op: Byte, xs: seq<Operand>): Option<Instruction>
    requires OfKinds(xs, MessageShape(op))
  {
    match op
    case 104 => Some(Host(SendNetworkMessage(xs[0].text, false)))
    case 105 => Some(Host(SendNetworkMessage(xs[0].text, true)))
    case 106 => Some(Host(SendNetworkReply))
    case _ => None
  }

  function BuildProperty(op: Byte, xs: seq<Operand>): Option<Instruction>
    requires OfKinds(xs, PropertyShape(op))
  {
    match op
    case 107 => if xs[0].b < |PROPERTIES| then Some(Host(PushProperty(PROPERTIES[xs[0].b]))) else None
    case 108 => if xs[0].b < |PROPERTIES| then Some(Host(SetProperty(PROPERTIES[xs[0].b]))) else None
    case 109 => if xs[0].b < |PROPERTIES| then Some(Host(ChangeProperty(PROPERTIES[xs[0].b]))) else None
    case _ => None
  }

  function BuildCostume(op: Byte, xs: seq<Operand>): Option<Instruction>
    requires OfKinds(xs, CostumeShape(op))
  {
    match op
    case 110 => Some(Host(PushCostume))
    case 111 => Some(Host(PushCostumeNumber))
    case 112 => Some(Host(PushCostumeList))
    case 113 => Some(Host(SetCostume))
    case 114 => Some(Host(NextCostume))
    case 115 => Some(Host(Clone))
    case _ => None
  }

  function BuildMotion(op: Byte, xs: seq<Operand>): Option<Instruction>
    requires OfKinds(xs, MotionShape(op))
  {
    match op
    case 116 => Some(Host(ClearEffects))
    case 117 => Some(Host(ClearDrawings))
    case 118 => Some(Host(GotoXY))
    case 119 => Some(Host(Goto))
    case 120 => Some(Host(PointTowardsXY))
    case 121 => Some(Host(PointTowards))
    case 122 => Some(Host(Forward))
    case 123 => Some(Host(UnknownBlock(xs[0].text, xs[1].n)))
    case _ => None
  }

  /** The reader's side: the instruction an opcode and its operands stand for. An unknown opcode or
      an enumeration byte out of range is no instruction at all. */
  function Build(op: Byte, xs: seq<Operand>): Option<Instruction>
    requires Shaped(op, xs)
  {
    if op < 8 then BuildPush(op, xs)
    else if op < 13 then BuildName(op, xs)
    else if op < 19 then BuildStack(op, xs)
    else if op < 27 then BuildListQuery(op, xs)
    else if op < 35 then BuildListForm(op, xs)
    else if op < 41 then BuildListGrow(op, xs)
    else if op < 48 then BuildListEdit(op, xs)
    else if op < 55 then BuildComparison(op, xs)
    else if op < 60 then BuildBinary(op, xs)
    else if op < 65 then BuildVariadic(op, xs)
    else if op < 68 then BuildUnary(op, xs)
    else if op < 75 then BuildVariable(op, xs)
    else if op < 80 then BuildJump(op, xs)
    else if op < 87 then BuildCall(op, xs)
    else if op < 91 then BuildRequest(op, xs)
    else if op < 96 then BuildLocal(op, xs)
    else if op < 104 then BuildDisplay(op, xs)
    else if op < 107 then BuildMessage(op, xs)
    else if op < 110 then BuildProperty(op, xs)
    else if op < 116 then BuildCostume(op, xs)
    else BuildMotion(op, xs)
  }

  lemma BinaryOpTable(x: BinaryOp)
    ensures BinaryOpByte(x) < |BINARY_OPS| && BINARY_OPS[BinaryOpByte(x)] == x
  {}

  lemma UnaryOpTable(x: UnaryOp)
    ensures UnaryOpByte(x) < |UNARY_OPS| && UNARY_OPS[UnaryOpByte(x)] == x
  {}

  lemma VariadicOpTable(x: VariadicOp)
    ensures VariadicOpByte(x) < |VARIADIC_OPS| && VARIADIC_OPS[VariadicOpByte(x)] == x
  {}

  lemma BasicTypeTable(x: BasicType)
    ensures BasicTypeByte(x) < |BASIC_TYPES| && BASIC_TYPES[BasicTypeByte(x)] == x
  {}

  lemma TimeQueryTable(x: TimeQuery)
    ensures TimeQueryByte(x) < |TIME_QUERIES| && TIME_QUERIES[TimeQueryByte(x)] == x
  {}

  lemma PropertyTable(x: Property)
    ensures PropertyByte(x) < |PROPERTIES| && PROPERTIES[PropertyByte(x)] == x
  {}

  /** What is written for an instruction has the shape its opcode announces, and reads back as the instruction. */
  predicate Agrees(ins: Instruction) {
    Shaped(Opcode(ins), Operands(ins)) && Build(Opcode(ins), Operands(ins)) == Some(ins)
  }

  predicate HostAgree(op: HostOp) {
    Shaped(HostOpcode(op), HostOperands(op)) && Build(HostOpcode(op), HostOperands(op)) == Some(Host(op))
  }

  predicate IsPush(ins: Instruction) {
    ins.Yield? || ins.WarpStart? || ins.WarpStop? || ins.PushBool? || ins.PushInt? || ins.PushNumber?
  }

  lemma PushAgrees(ins: Instruction)
    requires IsPush(ins)
    ensures Agrees(ins)
  {
    match ins
    case Yield =>
    case WarpStart =>
    case WarpStop =>
    case PushBool(_) =>
    case PushInt(_) =>
    case PushNumber(_) =>
    case _ => assert false;
  }

  predicate IsName(ins: Instruction) {
    ins.PushString? || ins.PushVariable?
  }

  lemma NameAgrees(ins: Instruction)
    requires IsName(ins)
    ensures Agrees(ins)
  {
    match ins
    case PushString(_) =>
    case PushVariable(_) =>
    case _ => assert false;
  }

  predicate IsStack(ins: Instruction) {
    ins.PopValue? || ins.DupeValue? || ins.SwapValues? || ins.ToBool? || ins.ToNum?
  }

  lemma StackAgrees(ins: Instruction)
    requires IsStack(ins)
    ensures Agrees(ins)
  {
    match ins
    case PopValue =>
    case DupeValue(_) =>
    case SwapValues(_, _) =>
    case ToBool =>
    case ToNum =>
    case _ => assert false;
  }

  predicate IsList(ins: Instruction) {
    ins.ListCons? || ins.ListCdr? || ins.ListIsEmpty? || ins.ListLength? || ins.ListRev? || ins.ListInsertLast?
    || ins.ListGetLast? || ins.ListAssignLast?
  }

  lemma ListAgrees(ins: Instruction)
    requires IsList(ins)
    ensures Agrees(ins)
  {
    match ins
    case ListCons =>
    case ListCdr =>
    case ListIsEmpty =>
    case ListLength =>
    case ListRev =>
    case ListInsertLast =>
    case ListGetLast =>
    case ListAssignLast =>
    case _ => assert false;
  }

  predicate IsShrink(ins: Instruction) {
    ins.ListRemoveLast? || ins.ListRemoveAll? || ins.ListPopFirstOrElse?
  }

  lemma ShrinkAgrees(ins: Instruction)
    requires IsShrink(ins)
    ensures Agrees(ins)
  {
    match ins
    case ListRemoveLast =>
    case ListRemoveAll =>
    case ListPopFirstOrElse(_) =>
    case _ => assert false;
  }

  predicate IsBinary(ins: Instruction) {
    ins.Binary? || ins.Cmp?
  }

  lemma BinaryAgrees(ins: Instruction)
    requires IsBinary(ins)
    ensures Agrees(ins)
  {
    match ins
    case Binary(op) => BinaryOpTable(op);
    case Cmp(_) =>
    case _ => assert false;
  }

  predicate IsOperator(ins: Instruction) {
    ins.Variadic? || ins.Identical? || ins.Unary?
  }

  lemma OperatorAgrees(ins: Instruction)
    requires IsOperator(ins)
    ensures Agrees(ins)
  {
    match ins
    case Variadic(op, _) => VariadicOpTable(op);
    case Identical =>
    case Unary(op) => UnaryOpTable(op);
    case _ => assert false;
  }

  predicate IsVariable(ins: Instruction) {
    ins.DeclareLocal? || ins.InitUpvar? || ins.Assign? || ins.BinaryOpAssign?
  }

  lemma VariableAgrees(ins: Instruction)
    requires IsVariable(ins)
    ensures Agrees(ins)
  {
    match ins
    case DeclareLocal(_) =>
    case InitUpvar(_) =>
    case Assign(_) =>
    case BinaryOpAssign(_, op) => BinaryOpTable(op);
    case _ => assert false;
  }

  predicate IsJump(ins: Instruction) {
    ins.Jump? || ins.ConditionalJump?
  }

  lemma JumpAgrees(ins: Instruction)
    requires IsJump(ins)
    ensures Agrees(ins)
  {
    match ins
    case Jump(_) =>
    case ConditionalJump(_, _) =>
    case _ => assert false;
  }

  predicate IsBody(ins: Instruction) {
    ins.Call? || ins.MakeClosure?
  }

  lemma BodyAgrees(ins: Instruction)
    requires IsBody(ins)
    ensures Agrees(ins)
  {
    match ins
    case Call(_, _) =>
    case MakeClosure(_, _, _) =>
    case _ => assert false;
  }

  predicate IsCall(ins: Instruction) {
    ins.CallClosure? || ins.Return?
  }

  lemma CallAgrees(ins: Instruction)
    requires IsCall(ins)
    ensures Agrees(ins)
  {
    match ins
    case CallClosure(_, _) =>
    case Return =>
    case _ => assert false;
  }

  predicate IsHandler(ins: Instruction) {
    ins.PushHandler? || ins.PopHandler? || ins.Throw?
  }

  lemma HandlerAgrees(ins: Instruction)
    requires IsHandler(ins)
    ensures Agrees(ins)
  {
    match ins
    case PushHandler(_, _) =>
    case PopHandler =>
    case Throw =>
    case _ => assert false;
  }

  predicate IsSource(op: HostOp) {
    op.PushColor? || op.PushEntity? || op.PushSelf? || op.TypeQuery?
  }

  lemma SourceAgrees(op: HostOp)
    requires IsSource(op)
    ensures HostAgree(op)
  {
    match op
    case PushColor(_) =>
    case PushEntity(_) =>
    case PushSelf =>
    case TypeQuery(ty) => BasicTypeTable(ty);
    case _ => assert false;
  }

  predicate IsListQuery(op: HostOp) {
    op.ListFind? || op.ListContains? || op.ListDims? || op.ListRank?
  }

  lemma ListQueryAgrees(op: HostOp)
    requires IsListQuery(op)
    ensures HostAgree(op)
  {
    match op
    case ListFind =>
    case ListContains =>
    case ListDims =>
    case ListRank =>
    case _ => assert false;
  }

  predicate IsListForm(op: HostOp) {
    op.ListFlatten? || op.ListReshape? || op.ListCartesianProduct? || op.ListJson? || op.ListCsv? || op.ListColumns?
    || op.ListLines?
  }

  lemma ListFormAgrees(op: HostOp)
    requires IsListForm(op)
    ensures HostAgree(op)
  {
    match op
    case ListFlatten =>
    case ListReshape(_) =>
    case ListCartesianProduct(_) =>
    case ListJson =>
    case ListCsv =>
    case ListColumns =>
    case ListLines =>
    case _ => assert false;
  }

  predicate IsListEdit(op: HostOp) {
    op.ListInsert? || op.ListInsertRandom? || op.ListGet? || op.ListGetRandom?
  }

  lemma ListEditAgrees(op: HostOp)
    requires IsListEdit(op)
    ensures HostAgree(op)
  {
    match op
    case ListInsert =>
    case ListInsertRandom =>
    case ListGet =>
    case ListGetRandom =>
    case _ => assert false;
  }

  predicate IsListAssign(op: HostOp) {
    op.ListAssign? || op.ListAssignRandom? || op.ListRemove?
  }

  lemma ListAssignAgrees(op: HostOp)
    requires IsListAssign(op)
    ensures HostAgree(op)
  {
    match op
    case ListAssign =>
    case ListAssignRandom =>
    case ListRemove =>
    case _ => assert false;
  }

  predicate IsWatch(op: HostOp) {
    op.Watcher? || op.Pause? || op.ForkClosure?
  }

  lemma WatchAgrees(op: HostOp)
    requires IsWatch(op)
    ensures HostAgree(op)
  {
    match op
    case Watcher(_, _) =>
    case Pause =>
    case ForkClosure(_) =>
    case _ => assert false;
  }

  predicate IsRequest(op: HostOp) {
    op.CallRpc? || op.PushRpcError?
  }

  lemma RequestAgrees(op: HostOp)
    requires IsRequest(op)
    ensures HostAgree(op)
  {
    match op
    case CallRpc(_) =>
    case PushRpcError =>
    case _ => assert false;
  }

  predicate IsSyscall(op: HostOp) {
    op.Syscall? || op.PushSyscallError?
  }

  lemma SyscallAgrees(op: HostOp)
    requires IsSyscall(op)
    ensures HostAgree(op)
  {
    match op
    case Syscall(_) =>
    case PushSyscallError =>
    case _ => assert false;
  }

  predicate IsLocal(op: HostOp) {
    op.SendLocalMessage? || op.PushLocalMessage?
  }

  lemma LocalAgrees(op: HostOp)
    requires IsLocal(op)
    ensures HostAgree(op)
  {
    match op
    case SendLocalMessage(_, _) =>
    case PushLocalMessage =>
    case _ => assert false;
  }

  predicate IsMessage(op: HostOp) {
    op.SendNetworkMessage? || op.SendNetworkReply?
  }

  lemma MessageAgrees(op: HostOp)
    requires IsMessage(op)
    ensures HostAgree(op)
  {
    match op
    case SendNetworkMessage(_, _) =>
    case SendNetworkReply =>
    case _ => assert false;
  }

  predicate IsDisplay(op: HostOp) {
    op.Print? || op.Ask? || op.PushAnswer?
  }

  lemma DisplayAgrees(op: HostOp)
    requires IsDisplay(op)
    ensures HostAgree(op)
  {
    match op
    case Print(_) =>
    case Ask =>
    case PushAnswer =>
    case _ => assert false;
  }

  predicate IsTimer(op: HostOp) {
    op.ResetTimer? || op.PushTimer? || op.Sleep?
  }

  lemma TimerAgrees(op: HostOp)
    requires IsTimer(op)
    ensures HostAgree(op)
  {
    match op
    case ResetTimer =>
    case PushTimer =>
    case Sleep =>
    case _ => assert false;
  }

  predicate IsClock(op: HostOp) {
    op.PushRealTime?
  }

  lemma ClockAgrees(op: HostOp)
    requires IsClock(op)
    ensures HostAgree(op)
  {
    match op
    case PushRealTime(query) => TimeQueryTable(query);
    case _ => assert false;
  }

  predicate IsReadProperty(op: HostOp) {
    op.PushProperty?
  }

  lemma ReadPropertyAgrees(op: HostOp)
    requires IsReadProperty(op)
    ensures HostAgree(op)
  {
    hide PropertyByte;
    match op
    case PushProperty(prop) => PropertyTable(prop);
    case _ => assert false;
  }

  predicate IsSetProperty(op: HostOp) {
    op.SetProperty?
  }

  lemma SetPropertyAgrees(op: HostOp)
    requires IsSetProperty(op)
    ensures HostAgree(op)
  {
    hide PropertyByte;
    match op
    case SetProperty(prop) => PropertyTable(prop);
    case _ => assert false;
  }

  predicate IsAddProperty(op: HostOp) {
    op.ChangeProperty?
  }

  lemma AddPropertyAgrees(op: HostOp)
    requires IsAddProperty(op)
    ensures HostAgree(op)
  {
    hide PropertyByte;
    match op
    case ChangeProperty(prop) => PropertyTable(prop);
    case _ => assert false;
  }

  predicate IsCostume(op: HostOp) {
    op.PushCostume? || op.PushCostumeNumber? || op.PushCostumeList?
  }

  lemma CostumeAgrees(op: HostOp)
    requires IsCostume(op)
    ensures HostAgree(op)
  {
    match op
    case PushCostume =>
    case PushCostumeNumber =>
    case PushCostumeList =>
    case _ => assert false;
  }

  predicate IsLook(op: HostOp) {
    op.SetCostume? || op.NextCostume? || op.Clone?
  }

  lemma LookAgrees(op: HostOp)
    requires IsLook(op)
    ensures HostAgree(op)
  {
    match op
    case SetCostume =>
    case NextCostume =>
    case Clone =>
    case _ => assert false;
  }

  predicate IsEffect(op: HostOp) {
    op.ClearEffects? || op.ClearDrawings?
  }

  lemma EffectAgrees(op: HostOp)
    requires IsEffect(op)
    ensures HostAgree(op)
  {
    match op
    case ClearEffects =>
    case ClearDrawings =>
    case _ => assert false;
  }

  predicate IsPlace(op: HostOp) {
    op.GotoXY? || op.Goto?
  }

  lemma PlaceAgrees(op: HostOp)
    requires IsPlace(op)
    ensures HostAgree(op)
  {
    match op
    case GotoXY =>
    case Goto =>
    case _ => assert false;
  }

  predicate IsTurn(op: HostOp) {
    op.PointTowardsXY? || op.PointTowards?
  }

  lemma TurnAgrees(op: HostOp)
    requires IsTurn(op)
    ensures HostAgree(op)
  {
    match op
    case PointTowardsXY =>
    case PointTowards =>
    case _ => assert false;
  }

  predicate IsMotion(op: HostOp) {
    op.Forward? || op.UnknownBlock?
  }

  lemma MotionAgrees(op: HostOp)
    requires IsMotion(op)
    ensures HostAgree(op)
  {
    match op
    case Forward =>
    case UnknownBlock(_, _) =>
    case _ => assert false;
  }

  lemma HostAgreesAll(op: HostOp)
    ensures HostAgree(op)
  {
    hide HostAgree;
    match op
    case PushColor(_) => SourceAgrees(op);
    case PushEntity(_) => SourceAgrees(op);
    case PushSelf => SourceAgrees(op);
    case TypeQuery(_) => SourceAgrees(op);
    case ListFind => ListQueryAgrees(op);
    case ListContains => ListQueryAgrees(op);
    case ListDims => ListQueryAgrees(op);
    case ListRank => ListQueryAgrees(op);
    case ListFlatten => ListFormAgrees(op);
    case ListReshape(_) => ListFormAgrees(op);
    case ListCartesianProduct(_) => ListFormAgrees(op);
    case ListJson => ListFormAgrees(op);
    case ListCsv => ListFormAgrees(op);
    case ListColumns => ListFormAgrees(op);
    case ListLines => ListFormAgrees(op);
    case ListInsert => ListEditAgrees(op);
    case ListInsertRandom => ListEditAgrees(op);
    case ListGet => ListEditAgrees(op);
    case ListGetRandom => ListEditAgrees(op);
    case ListAssign => ListAssignAgrees(op);
    case ListAssignRandom => ListAssignAgrees(op);
    case ListRemove => ListAssignAgrees(op);
    case Watcher(_, _) => WatchAgrees(op);
    case Pause => WatchAgrees(op);
    case ForkClosure(_) => WatchAgrees(op);
    case CallRpc(_) => RequestAgrees(op);
    case PushRpcError => RequestAgrees(op);
    case Syscall(_) => SyscallAgrees(op);
    case PushSyscallError => SyscallAgrees(op);
    case SendLocalMessage(_, _) => LocalAgrees(op);
    case PushLocalMessage => LocalAgrees(op);
    case SendNetworkMessage(_, _) => MessageAgrees(op);
    case SendNetworkReply => MessageAgrees(op);
    case Print(_) => DisplayAgrees(op);
    case Ask => DisplayAgrees(op);
    case PushAnswer => DisplayAgrees(op);
    case ResetTimer => TimerAgrees(op);
    case PushTimer => TimerAgrees(op);
    case Sleep => TimerAgrees(op);
    case PushRealTime(_) => ClockAgrees(op);
    case PushProperty(_) => ReadPropertyAgrees(op);
    case SetProperty(_) => SetPropertyAgrees(op);
    case ChangeProperty(_) => AddPropertyAgrees(op);
    case PushCostume => CostumeAgrees(op);
    case PushCostumeNumber => CostumeAgrees(op);
    case PushCostumeList => CostumeAgrees(op);
    case SetCostume => LookAgrees(op);
    case NextCostume => LookAgrees(op);
    case Clone => LookAgrees(op);
    case ClearEffects => EffectAgrees(op);
    case ClearDrawings => EffectAgrees(op);
    case GotoXY => PlaceAgrees(op);
    case Goto => PlaceAgrees(op);
    case PointTowardsXY => TurnAgrees(op);
    case PointTowards => TurnAgrees(op);
    case Forward => MotionAgrees(op);
    case UnknownBlock(_, _) => MotionAgrees(op);
  }

  lemma HostAgrees(op: HostOp)
    ensures Agrees(Host(op))
  {
    hide Shaped, Build, HostOpcode, HostOperands;
    HostAgreesAll(op);
  }

  /** The two sides of the table agree: the operands written for an instruction have the shape its
      opcode announces, and opcode and operands read back as that instruction. */
  lemma TableAgrees(ins: Instruction)
    ensures Shaped(Opcode(ins), Operands(ins))
    ensures Build(Opcode(ins), Operands(ins)) == Some(ins)
  {
    hide Shaped, Opcode, Operands, Build;
    if ins.Host? {
      HostAgrees(ins.host);
    } else if IsPush(ins) {
      PushAgrees(ins);
    } else if IsName(ins) {
      NameAgrees(ins);
    } else if IsStack(ins) {
      StackAgrees(ins);
    } else if IsList(ins) {
      ListAgrees(ins);
    } else if IsShrink(ins) {
      ShrinkAgrees(ins);
    } else if IsBinary(ins) {
      BinaryAgrees(ins);
    } else if IsOperator(ins) {
      OperatorAgrees(ins);
    } else if IsVariable(ins) {
      VariableAgrees(ins);
    } else if IsJump(ins) {
      JumpAgrees(ins);
    } else if IsBody(ins) {
      BodyAgrees(ins);
    } else if IsCall(ins) {
      CallAgrees(ins);
    } else {
      HandlerAgrees(ins);
    }
  }
}

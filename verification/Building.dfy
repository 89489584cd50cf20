/** The whole way of a role, from its blocks to bytes that run as they are meant. */
module Building {
  import opened Common
  import opened Bytecode
  import opened Codec
  import opened Layout
  import opened LinkedCode
  import opened Linker
  import K = Linker
  import opened Values
  import opened Machine
  import opened Ast
  import opened Source
  import opened Codegen
  import opened Simulation
  import opened Compiled
  import opened LinkedRuns
  import opened Compiler
  import opened EndToEnd

  // ----- the texts of a program, and a pool that holds each of them -----

  function OperandTexts(xs: seq<Operand>): seq<Str>
    decreases |xs|
  {
    if xs == [] then []
    else
      var last := xs[|xs| - 1];
      OperandTexts(xs[..|xs| - 1]) + if last.Text? then [last.text] else []
  }

  function Texts(prog: seq<Instruction>): seq<Str>
    decreases |prog|
  {
    if prog == [] then [] else Texts(prog[..|prog| - 1]) + OperandTexts(Operands(prog[|prog| - 1]))
  }

  /** Number of texts before operand `j` of instruction `i`. */
  function TextIndex(prog: seq<Instruction>, i: nat, j: nat): nat {
    if i < |prog| && j <= |Operands(prog[i])| then |Texts(prog[..i])| + |OperandTexts(Operands(prog[i])[..j])| else 0
  }

  lemma {:induction false} OperandTextAt(xs: seq<Operand>, j: nat)
    requires j < |xs| && xs[j].Text?
    ensures |OperandTexts(xs[..j])| < |OperandTexts(xs)| && OperandTexts(xs)[|OperandTexts(xs[..j])|] == xs[j].text
    decreases |xs|
  {
    var n := |xs| - 1;
    if j < n {
      OperandTextAt(xs[..n], j);
      assert xs[..n][..j] == xs[..j];
    }
  }

  lemma {:induction false} TextAt(prog: seq<Instruction>, i: nat, j: nat)
    requires i < |prog| && j < |Operands(prog[i])| && Operands(prog[i])[j].Text?
    ensures TextIndex(prog, i, j) < |Texts(prog)| && Texts(prog)[TextIndex(prog, i, j)] == Operands(prog[i])[j].text
    decreases |prog|
  {
    hide Operands;
    var n := |prog| - 1;
    if i < n {
      TextAt(prog[..n], i, j);
      assert prog[..n][..i] == prog[..i];
    } else {
      OperandTextAt(Operands(prog[i]), j);
    }
  }

  /** A pool that keeps every text in a buffer of its own. */
  function PoolOf(prog: seq<Instruction>): Pool {
    Pool((i, j) => TextIndex(prog, i, j), Texts(prog), seq(|Texts(prog)|, k requires 0 <= k => Slice(k, 0)))
  }

  lemma PoolServes(prog: seq<Instruction>)
    requires |Texts(prog)| < U64_RANGE
    ensures Serves(PoolOf(prog), prog)
  {
    hide Operands, Texts, TextIndex;
    var pool := PoolOf(prog);
    forall i, j | 0 <= i < |prog| && 0 <= j < |Operands(prog[i])| && Operands(prog[i])[j].Text?
      ensures Denotes(pool, pool.index(i, j), Operands(prog[i])[j].text)
    {
      TextAt(prog, i, j);
      var text := Texts(prog)[TextIndex(prog, i, j)];
      assert text[0..0 + |text|] == text;
    }
  }

  // ----- building -----

  /** Whether all the sizes in a program are ones that the machine can store. */
  predicate Fits(prog: seq<Instruction>) {
    && |Texts(prog)| < U64_RANGE && K.Size(Pieces(prog)) < U64_RANGE && PoolSize(Texts(prog)) < U64_RANGE
    && forall p :: 0 <= p < |prog| ==> AllStorable(Operands(prog[p]))
  }

  /** Code and data, and where the scripts of every entity start. */
  datatype Executable = Executable(code: seq<Byte>, data: seq<Byte>, positions: seq<nat>, scripts: seq<seq<nat>>)

  ghost predicate RunsAsMeant(I: Image, x: Script, z: Setup, code: seq<Byte>, data: seq<Byte>, positions: seq<nat>,
                              fuel: nat) {
    exists n, last :: RunAgrees(I, x, z, code, data, positions, fuel, n, last)
  }

  /** There is an entry for every script of every entity. */
  predicate AllScripts(role: Role, scripts: seq<seq<nat>>) {
    |scripts| == |role.entities| && forall e :: 0 <= e < |scripts| ==> |scripts[e]| == |role.entities[e].scripts|
  }

  lemma ScriptsAll(I: Image, role: Role, scripts: seq<seq<nat>>)
    requires AllScriptsAt(I.p.fns, I.slots, role.entities, scripts) && |scripts| == |role.entities|
    ensures AllScripts(role, scripts)
  {
    hide BodyAt;
    forall e | 0 <= e < |scripts| ensures |scripts[e]| == |role.entities[e].scripts| {
      assert ScriptsAt(I.p.fns, I.slots, role.entities[e], e, scripts[e]);
    }
  }

  /** Every script of the role runs as it is meant, whatever it starts from and however long it takes. */
  ghost predicate AllRunAsMeant(I: Image, role: Role, x: Executable) {
    forall e, i, z: Setup, fuel :: HasScript(role, x.scripts, e, i) && Tied(I, z.clo, z.src) ==>
      RunsAsMeant(I, ScriptAt(role, x.scripts, e, i), z, x.code, x.data, x.positions, fuel)
  }

  lemma ScriptRuns(I: Image, role: Role, x: Executable, e: nat, i: nat, z: Setup, fuel: nat)
    requires Filled(I) && AllScriptsAt(I.p.fns, I.slots, role.entities, x.scripts) && Tied(I, z.clo, z.src)
    requires WellSized(I.ins) && Represents(I.ins, x.code, x.data, x.positions) && HasScript(role, x.scripts, e, i)
    ensures RunsAsMeant(I, ScriptAt(role, x.scripts, e, i), z, x.code, x.data, x.positions, fuel)
  {
    hide Filled, AllScriptsAt, Tied, WellSized, Represents, RunAgrees;
    var n, last := RoleRuns(I, role, x.scripts, e, i, z, x.code, x.data, x.positions, fuel);
    assert RunAgrees(I, ScriptAt(role, x.scripts, e, i), z, x.code, x.data, x.positions, fuel, n, last);
  }

  lemma ScriptsRun(I: Image, role: Role, x: Executable)
    requires Filled(I) && AllScriptsAt(I.p.fns, I.slots, role.entities, x.scripts)
    requires WellSized(I.ins) && Represents(I.ins, x.code, x.data, x.positions)
    ensures AllRunAsMeant(I, role, x)
  {
    hide Filled, AllScriptsAt, Tied, WellSized, Represents, RunsAsMeant, HasScript, ScriptAt;
    forall e, i, z: Setup, fuel | HasScript(role, x.scripts, e, i) && Tied(I, z.clo, z.src)
      ensures RunsAsMeant(I, ScriptAt(role, x.scripts, e, i), z, x.code, x.data, x.positions, fuel)
    {
      ScriptRuns(I, role, x, e, i, z, fuel);
    }
  }

  /** Compiles and links a role: the bytes are those of the compiled program, and every script runs from
      them as it is meant. The only roles that are refused are those too large for the machine. */
  method Build(role: Role, ghost w: World, ghost outer: Locals) returns (r: Option<Executable>, ghost I: Image)
    requires Compilable(role)
    ensures I.p == Prog(w, outer, TableOf(AllDecls(role)))
    ensures r.Some? <==> Fits(I.ins)
    ensures match r
            case Some(x) =>
              && Represents(I.ins, x.code, x.data, x.positions) && |x.code| <= K.Size(Pieces(I.ins))
              && AllScripts(role, x.scripts) && AllRunAsMeant(I, role, x)
            case None => true
  {
    hide *;
    var ins, entry, scripts;
    ghost var levels;
    ins, entry, scripts, I, levels := Compile(role, w, outer);
    if !Fits(ins) {
      return None, I;
    }
    FitsParts(ins);
    PoolServes(ins);
    FitsSized(ins);
    CompiledLinkable(ins);
    var code, data, positions, settled, cs := Finalize(ins, PoolOf(ins));
    r := Some(Executable(code, data, positions, scripts));
    ScriptsAll(I, role, scripts);
    ScriptsRun(I, role, r.value);
  }

  lemma FitsSized(prog: seq<Instruction>)
    requires Fits(prog) && forall p :: 0 <= p < |prog| ==> Aims(prog[p], |prog|)
    ensures WellSized(prog)
  {
    hide Texts, K.Size, Pieces, PoolSize, AllStorable, Operands;
  }

  lemma FitsParts(prog: seq<Instruction>)
    requires Fits(prog)
    ensures |Texts(prog)| < U64_RANGE && K.Size(Pieces(prog)) < U64_RANGE && PoolSize(PoolOf(prog).backing) < U64_RANGE
    ensures forall p :: 0 <= p < |prog| ==> AllStorable(Operands(prog[p]))
  {
    hide Texts, K.Size, Pieces, PoolSize, AllStorable, Operands;
  }
}

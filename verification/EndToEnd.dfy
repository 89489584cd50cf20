/** From blocks to bytes: a compiled and linked role runs its scripts as they are meant. */
module EndToEnd {
  import opened Common
  import opened Bytecode
  import opened Codec
  import opened Layout
  import opened LinkedCode
  import opened Values
  import opened Machine
  import opened Ast
  import opened Source
  import opened Codegen
  import opened Simulation
  import opened Compiled
  import opened LinkedRuns
  import opened Compiler

  lemma AimsTargets(ins: Instruction, n: nat)
    requires Aims(ins, n)
    ensures TargetsBelow(Operands(ins), n)
  {
  }

  /** Code operands are inside, and all numbers and texts are of sizes that can be stored. */
  ghost predicate WellSized(ins: seq<Instruction>) {
    forall p :: 0 <= p < |ins| ==> Aims(ins[p], |ins|) && AllStorable(Operands(ins[p]))
  }

  /** Compiled code can be linked as soon as its numbers and texts are of sizes that can be stored. */
  lemma CompiledLinkable(ins: seq<Instruction>)
    requires WellSized(ins)
    ensures Linkable(ins)
  {
    hide Aims, AllStorable, Operands, TargetsBelow;
    forall p | 0 <= p < |ins| ensures AllStorable(Operands(ins[p])) && TargetsBelow(Operands(ins[p]), |ins|) {
      AimsTargets(ins[p], |ins|);
    }
  }

  ghost predicate HasScript(role: Role, scripts: seq<seq<nat>>, e: nat, i: nat) {
    e < |scripts| && |scripts| <= |role.entities| && i < |scripts[e]| && i < |role.entities[e].scripts|
  }

  function ScriptAt(role: Role, scripts: seq<seq<nat>>, e: nat, i: nat): Script {
    if e < |scripts| && e < |role.entities| && i < |scripts[e]| && i < |role.entities[e].scripts|
    then Script(Some(e), role.entities[e].scripts[i], scripts[e][i])
    else Script(None, [], 0)
  }

  lemma ScriptLoaded(I: Image, role: Role, scripts: seq<seq<nat>>, e: nat, i: nat, z: Setup)
    requires Filled(I) && AllScriptsAt(I.p.fns, I.slots, role.entities, scripts) && Tied(I, z.clo, z.src)
    requires HasScript(role, scripts, e, i)
    ensures Loaded(I, ScriptAt(role, scripts, e, i), z)
  {
    hide Filled, BodyAt, Tied;
    assert ScriptsAt(I.p.fns, I.slots, role.entities[e], e, scripts[e]);
  }

  /** Any script of a compiled role, run from the bytes it was linked to, with any amount of fuel. */
  lemma RoleRuns(I: Image, role: Role, scripts: seq<seq<nat>>, e: nat, i: nat, z: Setup,
                 code: seq<Byte>, data: seq<Byte>, positions: seq<nat>, fuel: nat) returns (n: nat, last: Outcome)
    requires Filled(I) && AllScriptsAt(I.p.fns, I.slots, role.entities, scripts) && Tied(I, z.clo, z.src)
    requires WellSized(I.ins) && Represents(I.ins, code, data, positions) && HasScript(role, scripts, e, i)
    ensures RunAgrees(I, ScriptAt(role, scripts, e, i), z, code, data, positions, fuel, n, last)
  {
    hide Filled, AllScriptsAt, Tied, Aims, AllStorable, Operands, Represents, LinksTo, Linkable, Run, Step, Meaning;
    hide Loaded, WellSized, ScriptAt, HasScript, RunAgrees;
    CompiledLinkable(I.ins);
    LinksIntro(I, code, data, positions);
    ScriptLoaded(I, role, scripts, e, i, z);
    n, last := BytesRefine(I, ScriptAt(role, scripts, e, i), z, code, data, positions, fuel);
  }

  lemma LinksIntro(I: Image, code: seq<Byte>, data: seq<Byte>, positions: seq<nat>)
    requires Linkable(I.ins) && Represents(I.ins, code, data, positions)
    ensures LinksTo(I, code, data, positions)
  {
    hide Linkable, Represents;
  }
}

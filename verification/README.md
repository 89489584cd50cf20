# netsblox-vm in Dafny

netsblox-vm compiles the blocks of a project to bytecode, links the bytecode into a compact byte string, and
executes the scripts of the project as processes of a cooperative scheduler. This project models four parts of it
and proves what they are for.

**Linker.** Instructions are written with ten-byte holes where they name other instructions or texts. The holes are
then overwritten with the shortest coding of an address, and the gaps are closed in place, over several cycles, since
moving code changes addresses again. `Varint` and `Codec` have the codings, `Bytecode` the opcode table, `Shrinking`
the in-place copy over one plan, `Relaxation` the effect of a plan on the pieces of a program, and `Linker` the whole
algorithm as methods with loops. `Linked` says what it means that bytes represent a program. `Locations` is the table
from code positions to block locations that is built beside the code. `Recording` says where in the code of a syntax
tree the location of each of its parts is recorded, and `Located` follows it from there, through the linker, to the
look-up of an address.

**Compiler and interpreter.** `Ast` and `Source` are the block language and its meaning: an evaluator with an amount
of fuel, which says what value or error a piece of program gives and what it does to the heap. `Builder` and `Compiler`
are the compiler as it is written, with a growing instruction list, holes that are patched later, and a queue of
closures. `Machine` is the interpreter as a function from state to state, and `Process` the same as an object with
fields, proved against the function. `Codegen` describes where the code of each construct stands; `Simulation`,
`Rounds`, `LoopRounds`, `Calls` and `Correctness` show that the interpreter does on that code what the evaluator says,
and `Compiled`, `Bytes`, `EndToEnd` and `Building` carry this over to whole processes, to bytes, and to a whole role.
`Levels`, `RowLevels`, `CodeLevels` and `Laying` take compiled code apart into bodies and give every instruction the
height of the value stack at it, and `Discipline` shows that processes keep to it and that error handlers find the
stacks as they left them. `Operators`, `Operands`, `Variables` and `Blocks` say what the leaves do that the evaluator
and the interpreter have in common: operators on numbers, lists item by item, variables cell by cell, parameters name
by name; and `RoleTable` says which block a name stands for. `Secrets` and `Isolation` show that no program changes a
list it has no reference to, which `Snapshots` uses to show that the higher-order blocks work on the list as it was when
they began.

**Scheduler.** `SlotMap` has the generational keys. `Scheduler` is the state of a project and every operation on it,
as functions; `Project` is the object with its queues and methods that update them. `SchedulerInvariant`,
`SchedulerSafety`, `SchedulerSteps` and `SchedulerBarriers` have the invariants that every operation keeps, and
`SchedulerReach` says which scripts inputs, messages, broadcasts and clones reach; `SchedulerRuns`, `SchedulerFairness`,
`SchedulerOrder` and `SchedulerTheorems` say what follows for whole runs.

**List operations and the initial heap.** `Elementwise` and `ElementwiseProofs` have the operators that work item by
item over possibly cyclic lists with a memo, `Lists` and `Shapes` flattening, dimensions and reshaping, `Csv` the
reader and the writer of comma-separated tables, and `InitialHeap` and `InitialGraph` the linking of a project's
initial lists.

Where the code works by changing things step by step, the model is a method or a class with the same loops and fields,
and each method is proved equal to a function about which the properties are then proved.

## Findings

These are properties that the code does not have on all inputs. Each comes with an input on which it fails and the
exact condition under which it holds.

- A context can be forgotten. `AllContextsConsumer` acts once in a step (src/project.rs:156-162), and a step that hands
  out a network message has used that up (src/project.rs:287) before it removes a process that ends
  (src/project.rs:376, 383). If the script of that process has a context waiting, or hears the message, it is not
  started until something else makes the project look. `SchedulerTheorems.ContextLost` is a run of two steps after which
  a project is idle with a message unhandled; `SchedulerRuns.StepKeeps` says exactly when this happens, and
  `SchedulerRuns.LookRestores` and `SchedulerRuns.InputKeeps` that what was forgotten is found again at the next step or
  input for which the project looks (src/project.rs:226, 244, 261, 287, 310, 327, 347, 365, 376, 383), unless that step
  does the same again. The condition, `SchedulerRuns.Strands`, is over the state before the step, and covers states in
  which something was forgotten earlier.
- A block location can come out of the location table changed. Whatever one byte follows the prefix is dropped
  (src/bytecode.rs:1167; the assertion at 1164 stops a debug build instead), so behind the prefix `a` the location
  `a15` becomes `a_5`; and the largest number over the smallest base is stored as the number that ends an entry
  (src/bytecode.rs:1187). `Locations.Unfaithful` has both inputs, `Locations.WrongLocation` is about the table that is
  made of `a_1` and `a15`, and `Locations.LookupIsExpected` says exactly which look-ups are affected.
- An error can be reported at the wrong block. A location is recorded at the index behind its block
  (src/bytecode.rs:1654, 2028), and the look-up takes the first one behind the instruction (src/bytecode.rs:1212-1217).
  That is a block inside the right one if such a block follows the instruction, as behind the conditional jump of "if",
  and a block around the right one if both end together, since the later entry replaces the earlier.
  `Located.WrongBlock` and `Recording.WrongRecorded` have both for "if a, set x to b"; `Recording.RecordedIsFound` says
  exactly when the block is right.
- Printing a table and reading it back loses a row without cells, and the table whose one cell is empty
  (src/process.rs:1439-1530). `Csv.TableRoundTrip` and `Csv.RowRoundTrip` are equivalences.

## Model

| member | source | states |
|---|---|---|
| Varint.EncodeU64 | src/bytecode.rs:498-512 | The encoder, with its leading-zeros formula for the number of bytes, appends exactly the padded coding of the value, or the shortest one when no width is forced. |
| Varint.DecodeU64 | src/bytecode.rs:513-523 | The decoder's two loops compute the value and end of the varint at a position; a varint cut off by the end of the buffer ends there. |
| Varint.RoundTrip | src/bytecode.rs:498-564 | A 64-bit value padded to any width that holds it reads back exactly, and the reader stops right behind it, whatever surrounds it. |
| Varint.GroupsMonotone | src/bytecode.rs:2164-2177 | A smaller value never needs more bytes, so an address that has shrunk fits the hole it came from. |
| Varint.FoldRoundTrip | src/bytecode.rs:569-583 | Folding the sign of a 32-bit integer into the lowest bit loses nothing. |
| Bytecode.TableAgrees | src/bytecode.rs:666-1043 | For each of the instructions, those of the host included, the opcode it is written with is read with operand kinds that match its operands, and building from them gives the instruction back. |
| Codec.ReadInstructionBack | src/bytecode.rs:666-1043 | An opcode followed by any codings of the operands, of whatever width, reads back as the instruction, and the reader stops behind the last of them. |
| Linker.Emit | src/bytecode.rs:2082-2093 | The first pass leaves, piece by piece, the plain bytes of every instruction and a hole for every address and text, with a relocation entry for each hole in ascending order. |
| Linker.FlattenPool | src/bytecode.rs:2095-2104 | The backing buffers end up behind each other, each at its recorded start. |
| Shrinking.CloseGaps | src/bytecode.rs:2106-2131 | The overlapping in-place copy, with its running source, destination and shift, leaves exactly the bytes outside the removed hole tails; every instruction position is lowered by what was removed before it, positions stay strictly increasing, and every hole's new address is known. |
| Linker.Retarget | src/bytecode.rs:2132-2140 | Every code hole is overwritten with the new position of the instruction it named, in the width it has. |
| Linker.ApplyShrinkingPlan | src/bytecode.rs:2106-2143 | One plan keeps the correspondence of pieces, positions and relocations, and the code shrinks by exactly the sum of the plan. |
| Linker.FirstPass | src/bytecode.rs:2145-2167 | Every hole is filled with a position in the code or in the data, and the plan made on the way is one that `ApplyShrinkingPlan` accepts. |
| Linker.ShrinkCycle | src/bytecode.rs:2171-2183 | One cycle keeps the correspondence and never grows the code; if it removed nothing, every address is coded as short as it can be. |
| Linker.Finalize | src/bytecode.rs:2081-2183 | Whatever the number of cycles, the bytes represent the program: each instruction reads back at its position with its code operands replaced by the positions of the instructions they named and its texts intact; the code is no longer than first emitted; and if a cycle found nothing to remove, every address is minimal. |
| LinkedCode.DecodesToProgram | src/bytecode.rs:666-854 | Bytes that represent a program, as `Linker.Finalize` makes them, decode from the first byte to the last into exactly the instructions of the program in order, retargeted to byte positions. |
| Locations.Condense | src/bytecode.rs:1142-1204 | The table holds, for each location in order, the numbers read behind the common prefix, over the least of them as base; otherwise the result names the first location that cannot be read. |
| Locations.Lookup | src/bytecode.rs:1212-1228 | Binary search finds the first entry behind a position, and the loop spells out its numbers up to the zero that ends it. |
| Locations.LookupIsExpected | src/bytecode.rs:1194-1202 | A look-up gives the location of the first position behind the one asked for, except exactly if that location is one that does not survive: no underscore behind the prefix, or the largest number over the smallest base. |
| Locations.Unfaithful | src/bytecode.rs:1164-1187 | Both exceptions do happen. |
| Locations.FoundReads | src/bytecode.rs:1212-1228 | Whatever the locations, what comes out of their table is the prefix followed by the numbers that were read for the first position behind, up to one that is stored as zero. |
| Locations.WrongLocation | src/bytecode.rs:1164-1187 | The locations "a_1" and "a15" can be condensed, and in every table that condensing them may give, the second comes out as "a_5". |
| Recording.MarksLaid | src/bytecode.rs:1291-2043 | In code that is laid out for a syntax tree, every part of the tree, however deep, has its own code from its mark on. |
| Recording.EveryExprPart | src/bytecode.rs:1291-1656 | The parts of an expression are all the expressions in it that are appended, in the order of their code. |
| Recording.EveryStmtPart | src/bytecode.rs:1659-2031 | The same for statements. |
| Recording.EveryBlock | src/bytecode.rs:1653-1655 | Every part that has a location is recorded. |
| Recording.RecordedInOrder | src/bytecode.rs:1653-1655 | The blocks recorded for whole programs nest or follow one another, each behind those inside it; where different parts have different locations no two blocks have the same; and none ends behind the last instruction. |
| Recording.RecordedLaid | src/bytecode.rs:1653-1655 | A recorded block is exactly the code of a part that has its location. |
| Recording.RecordedIsFound | src/bytecode.rs:2192 | From syntax tree to address and back, for code made of bodies as `Compiler.Compile` gives it: looking up any address inside an instruction gives the location of the innermost part with a location that the instruction belongs to if no block behind the instruction ends before that part does and no later block ends where it does; and only then, where different parts have different locations. |
| Recording.WrongRecorded | src/bytecode.rs:2027-2029 | What is recorded for "if a, set x to b", and that there the condition fails at the conditional jump and at the assignment. |
| Located.PlacedIsExpected | src/bytecode.rs:2192 | Linking keeps which location comes first: an address anywhere inside an instruction asks for what was recorded for its index. |
| Located.WrongBlock | src/bytecode.rs:1207-1217 | Both ways to get another block do happen, in the code of "if a, set x to b". |
| Locations.TokenIs | src/bytecode.rs:1167-1176 | A token is accepted exactly if it is the decimal form of a number in range. |
| Locations.SampleTokens | src/bytecode.rs:1167-1176 | Which of "0", "-12", "+5", "-0" and "07" are accepted. |
| Builder.Builder.AppendExpr | src/bytecode.rs:1291-1656 | Appending an expression, holes and patches included, adds code that is laid out as `Codegen.ExprAt` describes, changes nothing that stood before, leaves no position unpatched, and keeps every target inside the code. |
| Builder.Builder.AppendStmt | src/bytecode.rs:1659-2031 | The same for statements and `Codegen.StmtAt`. |
| Builder.Builder.AppendStmtsRet | src/bytecode.rs:2033-2043 | The same for a whole body, which ends by reporting an empty text. |
| Builder.Builder.LinkClosure | src/bytecode.rs:2239-2252 | The oldest closure hole is patched to the position its body is about to get; the number of closures still to be compiled falls. |
| Compiler.LinkCalls | src/bytecode.rs:2066-2076 | Every call hole becomes a call to the block its name stands for, blocks of the entity before global ones, and no illegal instruction is left. |
| Compiler.Compile | src/bytecode.rs:2206-2258 | For every role whose called blocks exist, the result is code in which every block, script and closure stands where the table, the positions and the closures say; every jump, handler, call and closure target is an instruction; the code is whole bodies, one behind the other; and every instruction has one level that the code keeps to. |
| Correctness.SimExpr | src/bytecode.rs:1291-1656 | From any state, the code of an expression does what the evaluator says: it leaves the value on the unchanged stack, or fails with the same error having changed the same things, or keeps going for as many steps as there was fuel. |
| Correctness.SimStmts | src/bytecode.rs:1659-2031 | The same for statements, which leave the stack as it was or are about to report a value. |
| Correctness.SimTryCatch | src/bytecode.rs:1954-1974 | An error in the body resumes at the handler with the stacks as they were before the block and the message in the variable; an error in the handler, and a report from either, pass out. |
| Compiled.ProcessRefines | src/process.rs:285-311 | A compiled script does what it means: the process ends with the evaluator's value, or fails with its error, with the same heap and the same number of turns given to others; while the evaluator has work left, the process goes on. |
| Compiled.ProcessReflects | src/process.rs:285-311 | Conversely, a process that stops does so as the program means, for all fuel beyond its number of steps. |
| Compiled.NeverStuck | src/process.rs:312-1037 | No reachable state of a compiled process lacks a value, a call, a handler or an instruction for its next step. |
| Compiled.DivergenceKept | src/process.rs:285-311 | A script diverges if and only if its process executes forever. |
| CodeLevels.ExprSettles | src/bytecode.rs:1291-1656 | On every path through the code of an expression the stack height is fixed by the instruction, no instruction takes values from below the activation or below an open handler, and the expression nets one value. |
| CodeLevels.StmtSettles | src/bytecode.rs:1659-2031 | The same for statements, which net nothing and close the handlers they open, on every path. |
| Discipline.StepAdvances | src/process.rs:285-1037 | One step of a process, failing or not, keeps every activation at a level its code fixes, and leaves what is below the open handlers alone. |
| Discipline.AlwaysDisciplined | src/process.rs:285-311 | In every reachable state the sizes that handlers were pushed with are in bounds and in order, and the running activation is at a level of the code. |
| Discipline.OneLevel | src/bytecode.rs:1291-2043 | With the levels that `Compiler.Compile` gives: whenever a process is at an instruction, the running activation has exactly the number of values above its floor, and of open handlers, that the instruction's level says. |
| Discipline.HandlerRestores | src/process.rs:995-1033 | If a handler is still the innermost one when an instruction fails, however much later, the process resumes at it with values, calls and warp as they were when it was pushed. |
| LinkedRuns.BytesRefine | src/process.rs:312-1037 | The interpreter on linked bytes does what the evaluator says, with addresses in place of instruction numbers. |
| EndToEnd.RoleRuns | src/bytecode.rs:2206-2258 | Any script of a compiled role, executed from the bytes the role was linked to, agrees with the evaluator. |
| Building.Build | src/bytecode.rs:2206-2258 | Compiling and then linking a role gives bytes and an address for every script of every entity, from which the script does what it means, whatever it starts from; only roles too large for 64-bit sizes are refused. |
| Processes.Process.StepImpl | src/process.rs:312-1037 | The object with its position, value stack, call stack, handler stack and warp counter makes the step that the function `Machine.StepImpl` describes. |
| Processes.Process.Step | src/process.rs:285-311 | The same with recovery from errors: the stacks are cut back to the handler's sizes and its variable gets the message. |
| Operands.OperandStep | src/process.rs:493-888 | A step at an instruction on operands, constants, conversions, lists, operators and relations: it leaves in place of its operands what `Operands.Means` says of the items and numbers themselves (for the reversed list: a new list whose items are those of the old one from the back, all other lists unchanged), and changes nothing else; or it fails, for a reason that `Operands.Refuses` says. |
| Operands.FoldsNumbers | src/process.rs:802-833 | Adding up, or multiplying, numbers from left to right gives their sum or product. |
| Operands.PicksBest | src/process.rs:816-835 | Of numbers, the operators for the least and the greatest give a number of the list that is at most, or at least, as large as every other. |
| Operators.NumbersArithmetic | src/process.rs:1577-1582 | On numbers, and texts that spell numbers, the operators are x + y, x - y and x * y. |
| Operators.NumbersRefuse | src/process.rs:1577-1582 | Any other value that is no list makes them fail with a conversion error that names its kind, the first operand first. |
| Operators.LeavesArithmetic | src/process.rs:1532-1582 | On lists, cyclic ones included, the sum, difference or product of x and y stands wherever numbers x and y meet. |
| Operators.ListWithList | src/process.rs:1532-1582 | Two lists of numbers give the list of the results, item by item, as long as the shorter one. |
| Operators.ListWithNumber | src/process.rs:1532-1582 | A list of numbers and a number, on either side, give the list of the results. |
| Operators.NumberSigns | src/process.rs:1656-1662 | Conversion, negation and the absolute value of numbers are x, -x, and x or -x. |
| Operators.NotFlips | src/process.rs:1660 | "Not" of a truth value is the other one. |
| Operators.LeavesSigned | src/process.rs:1635-1662 | In the copy that a unary operator makes of lists, cyclic ones included, every item that is a number or a truth value has been operated on in this way. |
| Operators.HostOperators | src/process.rs:1583-1733 | The other operators get their operands in order, and their results and errors are passed on. |
| Operators.NumbersRelate | src/process.rs:1810-1827 | The six relations of numbers are those of arithmetic. |
| Operators.OthersRelate | src/process.rs:1810-1827 | Other values relate as numbers in the same order do; those without an order are unequal, and asking which comes first is an error that names both kinds. |
| Variables.ReadStep | src/process.rs:514-517 | Pushing a variable gives what the cell of the innermost variable of this name holds; an unknown name is an error. |
| Variables.AssignStep | src/process.rs:904-908 | Assigning writes the operand to that cell and to no other. |
| Variables.ChangeStep | src/process.rs:909-914 | Assigning with an operator writes the result for what the cell held and the operand; for numbers and addition, their sum. |
| Variables.DeclareStep | src/process.rs:889-892 | A variable that is not there gets a cell of its own with zero; otherwise nothing happens. |
| Variables.CallStep | src/process.rs:936-959 | A call runs in a scope in which only the parameters are, each in a new cell with its argument; at the limit of the call depth it fails. |
| Variables.CallClosureStep | src/process.rs:972-989 | The same for closures, whose parameters are in front of what they have captured; a wrong number of arguments is an error. |
| Variables.MakeClosureStep | src/process.rs:960-971 | A closure captures the cells that the captured names stand for where it is made; the first name that stands for nothing is an error. |
| Variables.UpvarStep | src/process.rs:893-903 | A parameter passed by name becomes the variable of the caller that it names. |
| Variables.HandlerStep | src/process.rs:285-304 | After an error the handler's variable is a new one with the message that the program has made, or else the description of the error. |
| Variables.ReadBlock | src/bytecode.rs:1294 | A variable block gives what the cell of the innermost variable of its name holds; an unknown name is an error. |
| Variables.SetBlock | src/bytecode.rs:1661 | After "set x to e" every name that is bound to the cell of x, in whatever scope, gives the value of e, and every other name gives what it gave before. |
| Variables.ChangeBlock | src/bytecode.rs:1662 | The same for "change x by e", with the sum of what x held and the value of e. |
| Variables.RoundReads | src/bytecode.rs:1843-1924 | The same for the variable of "for" and "for each" in every round. |
| Blocks.SimpleBlock | src/bytecode.rs:1294-1345 | Operator, relation and list blocks give what their instruction is meant to make of the operands. |
| Blocks.DoBlock | src/bytecode.rs:1661-1740 | The same for the blocks that change a list, and for "throw". |
| Blocks.ListBlock | src/bytecode.rs:1372-1377 | A list of blocks gives a new list of their values. |
| Blocks.ReduceBlock | src/bytecode.rs:1246-1270 | The same for operators on any number of items, written out or in a list. |
| Blocks.LiteralBlock | src/bytecode.rs:1271-1290 | A literal gives a value that looks like it, in new lists; only a number that is none can make it fail. |
| Blocks.IfBlock | src/bytecode.rs:1925-1953 | A condition decides as it says, and must be a truth value. |
| Blocks.ChoiceBlock | src/bytecode.rs:1422-1437 | The conditional evaluates the one branch that the condition picks. |
| Blocks.ShortBlock | src/bytecode.rs:1438-1463 | "Or" and "and" of two truth values, the second evaluated where the first has left things. |
| Blocks.NamedCall | src/bytecode.rs:1464-1475 | A custom block of the entity is called before a global one of the same name, in a scope with its parameters only. |
| Blocks.ClosureCall | src/bytecode.rs:1476-1485 | The same for closures, with what they have captured behind their parameters. |
| Blocks.UpvarLinked | src/bytecode.rs:2033-2036 | Within a custom block, a parameter passed by name is the variable of the caller. |
| Blocks.LambdaBlock | src/bytecode.rs:1506-1510 | A closure shares the variables that it captures, and belongs to the entity that made it. |
| Blocks.TryBlock | src/bytecode.rs:1954-1974 | An error in the body of "try" goes to the handler, whose variable has the message. |
| Blocks.RepeatRound | src/bytecode.rs:1819-1842 | "Repeat" executes its body while the number is above zero, and counts it down by one. |
| Blocks.DeclareBlock | src/bytecode.rs:1742-1746 | Declaring gives each variable that is not there a cell of its own with zero, and leaves the others. |
| Blocks.DeclareSetReport | src/bytecode.rs:1661 | "Declare x, set x to 5, report x" reports 5, and so for every literal. |
| RoleTable.TableOfRole | src/bytecode.rs:2044-2064 | The table that calls are resolved with has, for every owner and name, the last block of this owner with this name, as it is written, and nothing else. |
| Isolation.EvalSure | src/process.rs:312-1037 | Whatever an expression evaluates or calls, lists that nothing refers to are left as they are, and neither its value nor anything in the heap comes to refer to them. |
| Snapshots.MapBlock | src/bytecode.rs:1528-1552 | "Map" gives a new list with the closure's result for each item the list had at the start, even if the closure changes the list. |
| Snapshots.KeepBlock | src/bytecode.rs:1553-1586 | "Keep" gives a new list of those of these items that the closure reports true for. |
| Snapshots.FindBlock | src/bytecode.rs:1587-1614 | "Find first" gives the first such item, or an empty text. |
| Snapshots.FoldBlock | src/bytecode.rs:1615-1649 | "Combine" gives the left fold of the items the list had, or zero if it had none. |
| Snapshots.ForeachBlock | src/bytecode.rs:1903-1924 | "For each" executes its body for the items the list had. |
| Snapshots.ForBlock | src/bytecode.rs:1843-1902 | "For" visits start, start plus or minus one, and so on: one more number than the whole part of the distance. |
| SlotMaps.SlotMap.Insert | src/slotmap.rs:76-96 | Reuses the slot emptied last, or adds one; the new state and key are those of `SlotMaps.Inserted`. |
| SlotMaps.SlotMap.Remove | src/slotmap.rs:99-112 | Empties the slot and ends its generation, if the key is current. |
| SlotMaps.SlotMap.Clear | src/slotmap.rs:114-126 | Empties all slots in order. |
| SlotMaps.IsAMap | src/slotmap.rs:59-136 | Under every sequence of operations a slot map is a finite map from keys to values. |
| SlotMaps.StaleForever | src/slotmap.rs:76-136 | A key that was handed out and no longer resolves never resolves again and is never handed out again. |
| Projects.Project.ConsumeContext | src/project.rs:108-133 | Starts the oldest context of a script that has no process running, in its old process or a new one. |
| Projects.Project.StopAll | src/project.rs:134-139 | Removes the script's process and drops its waiting contexts, with the barriers they hold. |
| Projects.Project.Schedule | src/project.rs:140-146 | Queues a context, starts one if possible, and drops the new one if too many wait. |
| Projects.Project.DoOnce | src/project.rs:156-162 | Lets every script start a context, the first time it is asked to in a step. |
| Projects.Project.Enter | src/project.rs:220-268 | Handles start, key, custom and stop input. |
| Projects.Project.Step | src/project.rs:270-386 | One step: hand out a message, take the first key of the queue that resolves, step its process, and react to what it asks for. |
| SchedulerReach.InputReaches | src/project.rs:220-268 | The flag, a key and a custom event reach exactly the scripts with that event, with that key or no key, and with that name. The flag interrupts them, a key is dropped by those that are busy, and a custom event interrupts or waits up to its limit; who is not busy starts the context, or the oldest one waiting, in a new process with its payload. All other scripts keep their process. |
| SchedulerReach.StopReaches | src/project.rs:248-254 | Stopping leaves no process, nothing in the queue, and no waiting context. |
| SchedulerReach.MessageReaches | src/project.rs:273-291 | A network message is offered, with its payload and without a limit, to exactly the scripts of its type. |
| SchedulerReach.BroadcastStep | src/project.rs:355-373 | A broadcast restarts exactly the scripts that listen to its type, or to all types, and whose entity is a target if there are targets, with the message and the barrier; all others keep their process. |
| SchedulerReach.CloneReaches | src/project.rs:331-354 | A clone gets copies of exactly the scripts of its root, in order, behind all others; those for new clones are started. |
| SchedulerReach.ForkReaches | src/project.rs:319-330 | A forked process executes what it was forked for, and is last in the queue. |
| SchedulerReach.StepReports | src/project.rs:293-386 | What a step reports for each thing a process can ask for, and where its process is in the queue then. |
| SchedulerTheorems.EveryRun | src/project.rs:220-386 | After every run of a project: every process in the map is running, its key is in the queue exactly once, at most one script owns it, and any other key in the queue or a script never resolves again. |
| SchedulerRuns.StepKeeps | src/project.rs:270-386 | Every step keeps the invariant. Given that no context was lost before, one is lost exactly if a message that some script hears arrives, the process whose turn it is is not blocked and ends, and its script has a context waiting or hears the message. |
| SchedulerRuns.LookRestores | src/project.rs:156-162 | Whatever was lost before, after a step for which the project looks at its scripts nothing is lost, except exactly under the same condition on the state before the step; where no process is left to have the turn, it is the first forgotten script that counts, which loses a context if it has more than one or hears the message. |
| SchedulerRuns.InputKeeps | src/project.rs:220-268 | An input loses nothing, and if any script reacts to it, or it stops all, what was lost before is found again. |
| SchedulerTheorems.NoContextLost | src/project.rs:293-301 | In a run without such a step, a script with waiting contexts has a process, and a project that says it is idle has no waiting contexts. |
| SchedulerTheorems.ContextLost | src/project.rs:156-162 | A run of two steps that loses a context: the project is idle with a message waiting. |
| SchedulerOrder.StartedInOrder | src/project.rs:108-146 | Over every run from the start, for every script there is or will be: the contexts it has started, in the order of starting, followed by those that wait, are those that were offered to it, in the order of offering, less those that were refused and those that `stop_all` threw away. |
| SchedulerOrder.StartIsReal | src/project.rs:108-133 | A start in that account is one: the script then has a running process that was given that context. |
| SchedulerOrder.InputOffers | src/project.rs:220-268 | In that account, an input offers its context once to each script it is for, and nothing to any other. |
| SchedulerFairness.ScheduleInOrder | src/project.rs:140-146 | One offer: what is started, followed by what waits, is what waited before, followed by the new context; only that one can be dropped, exactly if more than the limit would wait. |
| SchedulerFairness.BoundedWaiting | src/project.rs:270-386 | As long as a process has neither had its turn nor been stopped, the turns that others have given up and the entries still ahead of it are together at most the entries ahead of it at the start. |
| SchedulerTheorems.HeldUp | src/runtime.rs:1244-1267 | A barrier is closed exactly as long as a process or a waiting context holds it. |
| SchedulerTheorems.BroadcastAndWait | src/project.rs:355-373 | Over all runs from a broadcast with waiting: the sender is held up exactly as long as one of the processes the broadcast started is still there. |
| Elementwise.BinaryOpImpl | src/process.rs:1532-1576 | The recursive operator with one memo for all calls and a loop that fills each result list computes `Elementwise.Apply`; it terminates on every heap, since pairs not in the memo become fewer. |
| Elementwise.UnaryOpImpl | src/process.rs:1635-1655 | The same for unary operators, where the memo holds only the lists being taken apart. |
| ElementwiseProofs.BinaryIsElementwise | src/process.rs:1532-1576 | On every finite heap, cyclic ones included, a result that is given is right item by item, matrix mode and its fallback included, and the operands are unchanged. |
| ElementwiseProofs.BinaryIsNaive | src/process.rs:1532-1576 | On operands that reach no cycle the memo changes nothing: the operator succeeds exactly when the plain recursive definition on the operands' trees does, with its result, and otherwise fails with its error, whatever other lists there are. |
| ElementwiseProofs.UnaryIsElementwise | src/process.rs:1635-1655 | On every finite heap a result that is given is a copy of the operand's graph with the operator applied to the leaves. |
| ElementwiseProofs.UnaryIsPlain | src/process.rs:1635-1655 | On a value that reaches no cycle the operator gives what the plain definition on its tree gives, errors included. |
| Lists.Flatten | src/process.rs:1334-1354 | The recursive method with its set of open lists computes `Lists.Flat`. |
| Lists.FlattenCyclic | src/process.rs:1334-1354 | Flattening reports a cycle exactly if the value reaches a list that reaches itself. |
| Lists.TreeIsFlat | src/process.rs:1334-1354 | A value that can be written out as a tree flattens to the leaves of the tree in order. |
| Shapes.Measure | src/process.rs:1355-1379 | The method that records the longest list at each depth computes `Shapes.Dimensions`. |
| Shapes.Reshape | src/process.rs:1380-1398 | The result has exactly the dimensions asked for, and its leaves are those of the source over and over, an empty text if it has none; a cyclic source is an error, and a dimension of zero gives an empty list. |
| Csv.FromCsv | src/process.rs:1439-1493 | The three nested loops of the reader compute `Csv.Read`. |
| Csv.ToCsv | src/process.rs:1494-1531 | The writer computes `Csv.CsvText`, quoting where it has to. |
| Csv.ReadsWhatIsSpelled | src/process.rs:1439-1493 | The reader accepts exactly the texts that spell a table, in the manner of section 2 of RFC 4180 with a line feed as row break, and gives that table. |
| Csv.SampleTable | src/process.rs:1439-1493 | One text with a comma, a line feed and quotes, byte by byte, and its table. |
| Csv.CsvRoundTrip | src/process.rs:1439-1531 | A list of lists of texts that is printed reads back as it was, exactly if it has no empty row and is not the table whose one cell is empty. |
| Csv.TableRoundTrip | src/process.rs:1494-1531 | The same for a table of texts. |
| Csv.RowRoundTrip | src/process.rs:1510-1516 | A flat list reads back as the only row of a table, exactly if it has an item and is not the list of one empty text. |
| InitialHeap.ExtractInitInfo | src/bytecode.rs:2259-2411 | Names are registered first and values linked second; the only error is a reference to a name that no list has, and it is the first one in the order of the file. |
| InitialHeap.FromInit | src/runtime.rs:1137-1171 | All lists are allocated before any is filled, and each then has the items its record says. |
| InitialGraph.Load | src/runtime.rs:1137-1171 | Extracting and then building gives a heap that looks like the project file's values to any depth, keeps sharing and cycles through references, and has every list of the file exactly once. |

## Left out

- Number formats, IEEE arithmetic, number parsing and printing, Unicode case folding, and the scalar operators other
  than addition, subtraction, multiplication and absolute value: parameters of the model (`Values.World`). Numbers are
  reals.
- The comparison of values other than two numbers (src/process.rs:1738-1826): a parameter.
- `BinPool` (how texts are shared in the data section): any pool whose indices denote the right bytes is accepted.
- Joining texts (`StrCat`), list blocks beyond those of `Ast.SimpleOp` and `Ast.SimpleDo`, wait-until, fork, clone with
  a new entity inside a process, requests, commands, replies, timers, watchers, pauses, and property, motion, pen,
  colour and costume instructions: they are in the codec and not in the interpreter.
- Deferred operations and what happens when a polled one fails (src/process.rs:376-391): errors are those of executed
  instructions.
- What a variadic operator that fails leaves on the value stack (src/process.rs:856-860): its operands are taken off,
  as by the other instructions. Nothing looks at them: a handler cuts the stack back, and without one the process has
  ended.
- Operators that give lists of their own (splitting, ranges; src/process.rs:1598-1625): a scalar operator gives a
  scalar.
- What other processes do between two steps of a process: the heap of a process changes only by its own steps. The
  number of times it lets others go on is counted.
- The scheduler has processes as what they ask for, not as code, and message contents as numbers.
- `Input::KeyUp`, which the source does not implement, and scripts added without an event (src/project.rs:211-217).
- Images and costumes in the initial heap, JSON, and the garbage collector.
- Sharing of equal texts by reference in the memo of the elementwise operators: a text is identified by where it is
  found.
- The order of patching and appending a closure's code (src/bytecode.rs:2239-2252): the hole is patched just before
  the body is appended, to the same position.
- Which parts of a syntax tree have a location, and which: any assignment of texts to parts.
- XML, networking, the command line and the terminal.
- Locations.Condense: overflow wraps around and debug assertions are off, as in a release build.
- Linker.Finalize: requires that code and data are shorter than two to the power of 64 bytes.

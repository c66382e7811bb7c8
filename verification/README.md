# Saffire: its compiler, its virtual machine and five of its cores

Saffire compiles a syntax tree into stack code with symbolic labels, assembles the code into bytes, and runs
the bytes with an operand stack and a separate block stack for loops and exceptions. This project models that
path from end to end and proves that a compiled program does what it means. Beside it stand five
self-contained cores: MD5, base64, the list shuffle, the INI editor and the doubly linked list.

## How the project is laid out

| files | content |
|---|---|
| `Values`, `Syntax` | values, what the machine asks of objects, the syntax tree, which trees are well formed |
| `Semantics`, `Fuel`, `Laws`, `Witnesses` | what a program means, without code, labels, stacks or blocks; that fuel does not matter; single constructs; programs that surprise |
| `Assembly`, `Emit`, `Assembler` | lines of code, the code of each construct, operands and bytes |
| `Machine`, `StackFrame` | the machine as a step function on values, and as a class that updates its arrays in place |
| `Walker` | the compiler as a class that appends to a frame and moves its counters |
| `Limits`, `Trace`, `Steps`, `Layout`, `Endings` | room on the stacks, runs and steps, where code stands, how code ends |
| `SimulateExpr`, `SimulateAssign`, `SimulateStmt` | the simulation, construct by construct |
| `Labels`, `StmtLabels` | label closure |
| `Frames`, `Anchors`, `Unwinding` | whole frames, which programs start theirs again, and block unwinding on its own |
| `Depths`, `DepthTyping`, `StmtDepths`, `Balance`, `FrameDepths` | the depth of both stacks at each line: from the syntax, along the code, in every step, in whole runs |
| `Foreach`, `ForeachFrames` | foreach over a list, which leaves its iterator on the stack |
| `Md5`, `Base64`, `Shuffle`, `Ini`, `Dll` | the self-contained cores |

The main results are these.

- **Compiler correctness, both ways.** `Frames.FrameCorrect` starts from a syntax tree, compiles it, assembles it to
  bytes, and lets the machine fetch, decode and execute them. For every amount of fuel the run does what
  `Semantics.Exec` says, or is still running after at least as many steps. `Frames.RunsWhatItMeans` and
  `Frames.MeansWhatItRuns` drop the fuel, and `Frames.StopsExactly` says which runs stop. The core of the proof is
  `SimulateStmt.SimStmt`, which holds for code at any place in a frame, any operand stack and any block stack.
- **Stack discipline.** `FrameDepths.LineDepths`: each line of a compiled frame has one block depth and one operand
  depth, which the syntax fixes, and the run has these depths whenever it gets to the line. Finally parts are the one
  exception: they are entered with up to two values more (`FrameDepths.TwoDepths` is a frame that does both).
  `Frames.Disciplined`: in every state the saved depths of the blocks are ordered, the operand stack is no lower
  than the innermost block found it, and nothing is read or written outside the stacks.
- **Unwinding.** `Unwinding.UnwindingEnds` is the exact condition under which `unwind_blocks` ends;
  `Unwinding.ExceptionUnwinds` says where an exception comes out of any block stack.
- **The imperative code.** `Walkers.CompileFrame` and `StackFrames.StackFrame.Execute` tie the two classes, which
  update their state as the C code does, to the functions that the theorems are about.

`Semantics.Exec` follows the code where the code surprises, so it has outcomes beside the usual ones:

- `Hang`: a return out of a loop, a loop jump across a try, and a built-in exception that no catch of its try takes.
  For these `unwind_blocks` has no case that gets anywhere, and it spins (`Unwinding.StuckForever`).
- An exception in a handler or in the finally part starts again at the first catch of the same try. An unmatched
  exception that is an instance of a user class becomes a SystemException, and does so too.
- `Leave`: a return inside a try leaves the frame once the finally part has run, without the finally part of any
  outer try. A return in the finally part leaves at once.
- `Restart`: `breakelse` in a loop without an else part goes to offset 0 with the loop still open
  (`Unwinding.BreakElseTarget`), and that is the state the theorems arrive at. A program none of whose breakelses
  can do that is called anchored (`Syntax.Anchored`), which is read off its text (`Anchors.StaysPut`).
- A `for` without a step has its body where the step belongs, so `continue` skips the test.

The comment above the shuffle names Fisher and Yates, but it draws below i and not up to i. That makes it Sattolo's
algorithm; the model follows the code.

World-dependent behaviour (operators, comparisons, casts to boolean, `instanceof`, the exceptions that the machine
creates, the elements of lists) is a parameter, `Values.World`. Random numbers are a parameter of the shuffle.

## Model

| member | source | states |
|---|---|---|
| Frames.FrameCorrect | src/components/compiler/ast_to_asm.c:1502-1528 | the bytes of every runnable frame do what its syntax tree means, for every amount of fuel, down to the state in which a frame starts again after a breakelse without an else part; running out of fuel costs at least as many steps; every state on the way is properly nested |
| Frames.RunsWhatItMeans | src/components/vm/vm.c:543-1740 | whatever a program means, its compiled frame ends that way |
| Frames.MeansWhatItRuns | src/components/vm/vm.c:543-1740 | and the other way round: a run that stops at any step has stopped the way the program means, for every program whose breakelses are anchored |
| Frames.StopsExactly | src/components/vm/vm.c:1718-1740 | a run stops if and only if the program has a meaning that is no hang, for every program whose breakelses are anchored |
| Frames.Disciplined | src/components/vm/stackframe.c:79-150 | every state of every run is nested and in bounds; the process ends only where the program means so |
| FrameDepths.LineDepths | src/components/compiler/ast_to_asm.c:546-1450 | whenever a line is about to be executed, the number of open blocks is the one of the line, and the operand stack is as deep as the line has it, plus up to two values for each finally part the line stands in; each open try has its marker in place; no assumption about stack sizes or about how the program ends |
| FrameDepths.SameDepth | src/components/compiler/ast_to_asm.c:546-1450 | outside of finally parts there is exactly one operand depth and one block depth for each line |
| FrameDepths.FrameTyped | src/components/compiler/ast_to_asm.c:546-1450 | statically: along every fall-through, jump and unwinding edge of a compiled frame the two ends agree about both depths |
| FrameDepths.FinallyReached | src/components/vm/vm.c:1772-1810 | a try whose block ends normally comes to its finally part with one value, one whose block returns with three |
| FrameDepths.TwoDepths | src/components/compiler/ast_to_asm.c:1137-1221 | a concrete frame that enters the first line of its finally part at two depths, so one operand depth is too much to ask there |
| FrameDepths.FrameKept | src/components/vm/vm.c:1812-1853 | as long as a block stays open, what lay on the operand stack when it was opened stays there, so the catches find the stack of the entry to the try |
| StmtDepths.StmtTyped | src/components/compiler/ast_to_asm.c:546-1450 | the code of every well-formed, anchored statement has one place for each of its lines and ends where it began |
| DepthTyping.ExprTyped | src/components/compiler/ast_to_asm.c:162-257 | the code of an expression nets one value at every place and takes nothing below |
| DepthTyping.AssignTyped | src/components/compiler/ast_to_asm.c:259-312 | an assignment nets nothing, or one value if it is itself assigned |
| Balance.StepFair | src/components/vm/vm.c:590-1740 | one step of the machine keeps both stacks in agreement with the place of the line, whichever instruction or unwinding case it is |
| Balance.UnwindFair | src/components/vm/vm.c:1742-1886 | the part of it about unwinding: every pass resumes at a line whose place agrees, or gets stuck, or leaves |
| Balance.EntryKept | src/components/vm/vm.c:1812-1853 | what lies below an open block is untouched over any number of steps |
| Anchors.StaysPut | src/components/compiler/ast_to_asm.c:627-629 | if every breakelse has an else part, a switch or a try to stop it, no run starts its frame again, at any fuel |
| Anchors.RestartHappens | src/components/compiler/ast_to_asm.c:627-629 | a breakelse without an anchor that does |
| Unwinding.StuckForever | src/components/vm/vm.c:1748-1880 | a pass of unwinding that changes nothing is repeated for ever |
| Frames.FrameLinks | src/components/compiler/output/asm.c:60-98 | label closure of every frame: labels are unique, referenced ones are defined, relative ones further on |
| Frames.FineLinks | src/components/compiler/output/asm.c:60-98 | code whose every label is used properly can be linked |
| Frames.PastEnd | src/components/vm/stackframe.c:49-60 | running past the code leaves the frame |
| Fuel.MoreFuel | src/components/compiler/ast_to_asm.c:546-1450 | an outcome reached with some fuel is reached with any more |
| Fuel.OneMeaning | src/components/compiler/ast_to_asm.c:546-1450 | a program has at most one meaning |
| SimulateStmt.SimStmt | src/components/compiler/ast_to_asm.c:546-1450 | the code of any statement, anywhere in a frame, from any operand and block stack, ends as the statement means, just past its last line and with both stacks as they were if it ends normally; every outcome is accounted for |
| SimulateStmt.SimGroup | src/components/compiler/ast_to_asm.c:505-511 | the same for a sequence of statements |
| SimulateStmt.SimIf | src/components/compiler/ast_to_asm.c:585-626 | the same for if, with or without an else |
| SimulateStmt.SimWhile | src/components/compiler/ast_to_asm.c:698-775 | the same for while; its else part runs when the first test fails and on breakelse |
| SimulateStmt.SimWhileRound | src/components/compiler/ast_to_asm.c:742-749 | one round: back to the test, to the else part, out of the loop with its block popped, or to offset 0 with the block still open |
| SimulateStmt.SimElsePart | src/components/compiler/ast_to_asm.c:753-765 | the else part is still inside the loop |
| SimulateStmt.SimDo | src/components/compiler/ast_to_asm.c:651-697 | the same for do |
| SimulateStmt.SimFor | src/components/compiler/ast_to_asm.c:776-840 | the same for for |
| SimulateStmt.SimForStep | src/components/compiler/ast_to_asm.c:825-839 | continue in the step part starts the step again, without a test |
| SimulateStmt.SimSwitch | src/components/compiler/ast_to_asm.c:1222-1355 | the same for switch; its value is popped exactly once on every exit |
| SimulateStmt.SimSelect | src/components/compiler/ast_to_asm.c:1255-1300 | the cases are compared in source order, and the default is passed over |
| SimulateStmt.SimFallThrough | src/components/compiler/ast_to_asm.c:1302-1348 | the bodies run from one case into the next, through the default as well |
| SimulateStmt.SimTry | src/components/compiler/ast_to_asm.c:1137-1221 | the same for try, catch and finally |
| SimulateStmt.SimHandle | src/components/compiler/ast_to_asm.c:1161-1206 | the catches are tried in source order; the first whose class matches gets the exception bound to its variable |
| SimulateStmt.SimMatch | src/components/compiler/ast_to_asm.c:1167-1190 | one match: the exception stays below the truth value, or is stored |
| SimulateStmt.SimConcluded | src/components/vm/vm.c:1772-1810 | a block or handler that ended with a return goes to the finally part with value and reason above the marker |
| SimulateStmt.SimFinish | src/components/compiler/ast_to_asm.c:1209-1219 | the finally part runs above one, two or three values, as it was reached |
| SimulateStmt.SimEnded | src/components/vm/vm.c:1445-1470 | what END_FINALLY does with each of them |
| SimulateStmt.SimRethrow | src/components/vm/vm.c:1812-1830 | an exception in a handler or the finally part is caught by the same try |
| SimulateExpr.SimExpr | src/components/compiler/ast_to_asm.c:162-257 | the code of an expression pushes exactly its value and touches nothing below, or raises what its evaluation raises |
| SimulateExpr.SimTwo | src/components/compiler/ast_to_asm.c:194-257 | operators take left then right, comparisons right then left |
| SimulateExpr.SimShort | src/components/compiler/ast_to_asm.c:314-352 | and and or leave the value that decided |
| SimulateExpr.SimCoalesce | src/components/compiler/ast_to_asm.c:1356-1403 | coalesce tests truth, not null, and keeps the left value if it is true |
| SimulateExpr.SimTernary | src/components/compiler/ast_to_asm.c:1404-1445 | exactly one branch is evaluated |
| SimulateExpr.SimTuple | src/components/vm/vm.c:1491-1511 | elements are evaluated left to right and packed in that order |
| SimulateAssign.SimAssign | src/components/compiler/ast_to_asm.c:259-312 | a chain nets nothing on the stack, or its value if it is itself assigned |
| SimulateAssign.SimStore | src/components/vm/vm.c:1512-1538 | storing into nested tuple targets consumes exactly the value |
| Emit.MultiAfterChain | src/components/compiler/ast_to_asm.c:276-305 | the global counter is back at 0 after a chain, or one lower inside one |
| Laws.StoreYields | src/components/vm/vm.c:1512-1538 | a store yields the value it stored, or raises the one exception it can |
| Laws.Destructured | src/components/compiler/ast_to_asm.c:512-542 | destructuring succeeds exactly if the value has the shape of the target; then each name has its element, or null beyond the end, and other variables are unchanged |
| Laws.ItemsDestructured | src/components/vm/vm.c:1512-1538 | the same for the list of targets, where the leftmost occurrence of a name wins |
| Laws.ChainDups | src/components/compiler/ast_to_asm.c:276-312 | a chain of n assignments emits n - 1 DUP_TOPs from counter 0, and n from a higher one |
| Laws.ChainStores | src/components/compiler/ast_to_asm.c:259-312 | for every chain, plain or compound, with names and nested tuples: what it produces or raises, and what each name has afterwards, where a compound assignment combines the value from before the chain with that of the assignment inside it |
| Laws.Selects | src/components/compiler/ast_to_asm.c:1222-1355 | the first equal case is entered wherever the default stands; the default only if no case is equal |
| Laws.Falls | src/components/compiler/ast_to_asm.c:1222-1355 | bodies that end normally are run one after the other |
| Laws.SwitchRuns | src/components/compiler/ast_to_asm.c:1222-1355 | a switch runs from the chosen case to its end or to the first break, and a breakelse goes on at the default |
| Laws.FirstCatch | src/components/compiler/ast_to_asm.c:1161-1206 | the first matching catch is the one that runs, with its variable bound |
| Laws.NoCatch | src/components/compiler/ast_to_asm.c:1161-1206 | without a match the finally part runs with the exception pending |
| Laws.FinallyOnce | src/components/compiler/ast_to_asm.c:1137-1221 | however it is reached, after the block, a handler, a return or an exception that no catch took, the finally part runs once; then the try ends, the frame is left with the returned value, or the exception hangs or is replaced |
| Laws.IfDecides | src/components/vm/vm.c:925-952 | a condition holds if it is the boolean true, or no boolean and cast to true; an if takes its first branch exactly then |
| Laws.WhileEnds | src/components/compiler/ast_to_asm.c:698-775 | a while loop ends when its condition does not hold, and runs its else part if that was the first test |
| Laws.WhileTurns | src/components/compiler/ast_to_asm.c:698-775 | while it holds, the loop is its body followed by the same loop |
| Laws.DoTurns | src/components/compiler/ast_to_asm.c:651-697 | the same for do, which tests behind its body |
| Laws.ForEnds | src/components/compiler/ast_to_asm.c:776-840 | a for loop ends when its condition does not hold |
| Laws.ForTurns | src/components/compiler/ast_to_asm.c:776-840 | while it holds, it is body, step and the same loop |
| Laws.LogicDecides | src/components/compiler/ast_to_asm.c:314-352 | which side of and, or and coalesce is the value, by what its left side is or is cast to |
| Laws.TernaryDecides | src/components/compiler/ast_to_asm.c:1404-1445 | which branch of a conditional expression is evaluated |
| Laws.NameHides | src/components/vm/stackframe.c:269-303 | a local identifier is found whatever the frame and the builtins hold, one of the frame whatever the builtins hold |
| Laws.NamesInRow | src/components/vm/vm.c:1512-1538 | distinct names that a tuple is assigned to get its elements in order, and null beyond its end |
| Unwinding.ProgressTable | src/components/vm/vm.c:1748-1880 | a pass gets anywhere exactly for the listed pairs of a reason and a block type; otherwise it only trims, and a second one is the identity |
| Unwinding.UnwindingEnds | src/components/vm/vm.c:1742-1886 | unwinding ends if and only if its first pass gets anywhere |
| Unwinding.UnwoundRun | src/components/vm/vm.c:1742-1886 | the machine gets to the state that unwinding ends in |
| Unwinding.ExceptionUnwinds | src/components/vm/vm.c:1813-1853 | from any block stack an exception comes out at the innermost try, with only the loops inside it popped, or pops every block |
| Unwinding.CutNested | src/components/vm/vm.c:1842-1853 | with nested blocks nothing below the depth of the last popped block is lost |
| Unwinding.CaughtExactly | src/components/vm/vm.c:1812-1830 | an exception arrives at the catches with the stack up to and including the marker of the try, and itself |
| Unwinding.BreakElseTarget | src/components/vm/vm.c:1864-1870 | breakelse in a loop without an else part restarts the frame at offset 0 with the loop still open |
| Witnesses.ReturnInLoop | src/components/vm/vm.c:1748-1880 | a concrete return out of a loop hangs |
| Witnesses.BreakAcrossTry | src/components/vm/vm.c:1748-1880 | a concrete break across a try hangs |
| Witnesses.UncaughtInTry | src/components/vm/vm.c:1445-1470 | a concrete exception that no catch takes hangs |
| Witnesses.ForgottenException | src/components/compiler/ast_to_asm.c:1202-1206 | without any catch the exception is forgotten |
| Witnesses.HandlerCatchesItself | src/components/vm/vm.c:1812-1830 | a handler that throws what it caught runs for ever |
| Witnesses.OuterFinallySkipped | src/components/vm/vm.c:1772-1810 | a return through two tries runs only the inner finally part |
| Witnesses.ContinueSkipsTest | src/components/compiler/ast_to_asm.c:793-839 | a loop without a step that never ends although its condition is false |
| Machine.ExecNested | src/components/vm/block.c:44-103 | every instruction keeps the saved depths ordered and the stack above the innermost of them, if its operands are there |
| Machine.BlocksNested | src/components/vm/block.c:44-103 | the instructions that open, mark and close blocks do |
| Machine.UnwindNested | src/components/vm/vm.c:1742-1886 | and so does a pass of unwinding |
| Machine.JumpsDecide | src/components/vm/vm.c:925-990 | each conditional jump is taken by what the top of the stack is or is cast to, and leaves it there |
| Machine.LoadIdFinds | src/components/vm/stackframe.c:269-303 | locals, then the frame, then builtins, otherwise an exception |
| Machine.TwentyBlocks | src/components/vm/block.c:44-103 | twenty blocks can be opened, each with the depth of the stack; the next is a fatal error |
| Machine.UnpackedItems | src/components/vm/vm.c:1512-1538 | unpacking leaves the elements in their order, with nulls above them |
| Assembler.FetchLine | src/components/compiler/output/asm.c:262-401 | what is fetched at the offset of a line is its instruction, with labels resolved |
| Assembler.DecodeLine | src/components/vm/vm.c:616-622 | decoding the bytes of an instruction gives the instruction |
| Assembler.OperandsFit | src/components/compiler/output/asm.c:334-370 | every operand, patched ones included, fits into 16 bits without a sign |
| Assembler.Operand16 | src/components/vm/stackframe.c:66-73 | two operand bytes, low byte first, read as the number they were made of |
| Assembler.TablesExact | src/components/compiler/output/asm.c:113-208 | each constant and each identifier of the code is in its table exactly once, and `self` first unless the frame is the main one |
| StmtLabels.StmtFine | src/components/compiler/ast_to_asm.c:546-1450 | each label of a statement is defined at most once, in the statement's own range of numbers; the only one it may miss is the one that continue goes to |
| Labels.ExprFine | src/components/compiler/ast_to_asm.c:314-352 | the same for expressions, which miss none |
| StmtLabels.SwitchFine | src/components/compiler/ast_to_asm.c:1222-1355 | the numbered labels of the cases close up at the end of the switch |
| StmtLabels.TryFine | src/components/compiler/ast_to_asm.c:1137-1221 | the labels of catches and finally are all further on than their uses |
| Walkers.CompileFrame | src/components/compiler/ast_to_asm.c:1502-1528 | a fresh walker over a tree appends exactly the frame's code |
| Walkers.Walker.WalkStmt | src/components/compiler/ast_to_asm.c:117-1460 | walking a statement appends its code, restores the contexts and the chain counter, and moves the label and block counters by what it numbers and leaves open |
| Walkers.Walker.WalkExpr | src/components/compiler/ast_to_asm.c:117-257 | load context appends the code of the value, store context that of the target |
| Walkers.Walker.LoadOrStore | src/components/compiler/ast_to_asm.c:87-106 | the innermost context decides |
| Walkers.Walker.WalkOperator | src/components/compiler/ast_to_asm.c:194-223 | left operand, right operand, operator |
| Walkers.Walker.WalkComparison | src/components/compiler/ast_to_asm.c:225-257 | right operand, left operand, comparison |
| Walkers.Walker.WalkBool | src/components/compiler/ast_to_asm.c:314-352 | and and or with their own labels |
| Walkers.Walker.WalkAssign | src/components/compiler/ast_to_asm.c:259-312 | an assignment in a chain, with the counter before and after |
| Walkers.Walker.WalkTuple | src/components/compiler/ast_to_asm.c:512-542 | elements in order when loading, in reverse when storing |
| Walkers.Walker.WalkIf | src/components/compiler/ast_to_asm.c:585-626 | both branches in the enclosing loop's context |
| Walkers.Walker.WalkContinue | src/components/compiler/ast_to_asm.c:633-648 | continue names the innermost loop, and the block counter is as before |
| Walkers.Walker.WalkDo | src/components/compiler/ast_to_asm.c:651-697 | the code of do |
| Walkers.Walker.WalkWhile | src/components/compiler/ast_to_asm.c:698-775 | the code of while, with or without an else part |
| Walkers.Walker.WalkFor | src/components/compiler/ast_to_asm.c:776-840 | the code of for |
| Walkers.Walker.WalkForeach | src/components/compiler/ast_to_asm.c:994-1123 | the code of foreach |
| Walkers.Walker.WalkTry | src/components/compiler/ast_to_asm.c:1137-1221 | the code of try |
| Walkers.Walker.WalkSwitch | src/components/compiler/ast_to_asm.c:1222-1355 | the code of switch, and one more block left open |
| Walkers.Walker.WalkCoalesce | src/components/compiler/ast_to_asm.c:1356-1403 | the code of coalesce |
| Walkers.Walker.WalkTernary | src/components/compiler/ast_to_asm.c:1404-1445 | the code of the conditional |
| StackFrames.StackFrame.Execute | src/components/vm/vm.c:543-1740 | n turns of the dispatch loop over the arrays are n steps of the machine |
| StackFrames.StackFrame.Dispatch | src/components/vm/vm.c:590-683 | one turn is one step |
| StackFrames.StackFrame.Perform | src/components/vm/vm.c:683-1600 | every modelled instruction, over the arrays, does what the machine's does |
| StackFrames.StackFrame.Push | src/components/vm/stackframe.c:109-122 | a push grows the stack by the value; a full stack is not noticed |
| StackFrames.StackFrame.Pop | src/components/vm/stackframe.c:79-105 | a pop returns the top and takes it away; from the empty stack it is a fatal error |
| StackFrames.StackFrame.FetchTop | src/components/vm/stackframe.c:134-140 | the top, with the stack as it was |
| StackFrames.StackFrame.PopTo | src/components/vm/vm.c:1842-1845 | popping stops at the saved depth and never goes below |
| StackFrames.StackFrame.PushBlock | src/components/vm/block.c:44-90 | the block becomes the innermost one with the others untouched; too many are fatal |
| StackFrames.StackFrame.PopBlock | src/components/vm/block.c:91-105 | the innermost block is returned and gone; without one it is a fatal error |
| StackFrames.StackFrame.PeekBlock | src/components/vm/block.c:108-110 | the innermost block |
| StackFrames.StackFrame.SetIdentifier | src/components/vm/stackframe.c:230-234 | exactly that local identifier changes |
| StackFrames.StackFrame.FindIdentifier | src/components/vm/stackframe.c:269-303 | locals come before the frame's identifiers and these before the builtins |
| StackFrames.StackFrame.UnwindOnce | src/components/vm/vm.c:1748-1879 | one turn of the unwinding loop over the arrays |
| StackFrames.StackFrame.UnwindBlocks | src/components/vm/vm.c:1742-1886 | the whole loop, which ends whenever its first turn gets anywhere |
| StackFrames.StackFrame.PackTuple | src/components/vm/vm.c:1491-1511 | values that lie deepest come first in the tuple |
| StackFrames.StackFrame.UnpackTuple | src/components/vm/vm.c:1512-1538 | the first element ends up deepest, with nulls on top where the tuple was too short |
| StackFrames.StackFrame.PerformIterFetch | src/components/vm/vm.c:1565-1598 | null, value, key and hasNext in their order, and the cursor moved if there was a next element |
| Foreach.SimForeach | src/components/compiler/ast_to_asm.c:994-1123 | the code of foreach runs the rounds of its reference semantics and leaves exactly the iterator behind |
| Foreach.SimRound | src/components/compiler/ast_to_asm.c:1046-1083 | one round, whatever its body does |
| Foreach.SimElseRound | src/components/compiler/ast_to_asm.c:1085-1108 | the else part is still inside the loop |
| Foreach.OncePerIndex | src/components/compiler/ast_to_asm.c:994-1123 | if no body leaves the loop it runs once for each index in order with the right key and value; the else part runs exactly when the list is empty |
| ForeachFrames.ForeachCorrect | src/components/compiler/ast_to_asm.c:994-1123 | the bytes of a frame with a foreach do what it means |
| ForeachFrames.EachIndexOnce | src/components/vm/vm.c:1540-1597 | such a frame ends with the variables after one round per index |
| ForeachFrames.ForeachLinks | src/components/compiler/ast_to_asm.c:994-1123 | label closure with a foreach |
| Shuffle.ListObject.Shuffle | src/components/objects/list.c:127-142 | the swaps in place rearrange the table by the arrangement of the draws, and no element is lost or doubled |
| Shuffle.ArrangementCycle | src/components/objects/list.c:127-142 | whatever is drawn, the arrangement is one cycle through all positions |
| Shuffle.NoFixedPoint | src/components/objects/list.c:127-142 | so no position keeps its element |
| Shuffle.Deranged | src/components/objects/list.c:127-142 | for two or more different elements, none is where it was |
| Shuffle.Injective | src/components/objects/list.c:127-142 | different draws give different arrangements |
| Shuffle.Onto | src/components/objects/list.c:127-142 | every cyclic arrangement is drawn by some choices |
| Shuffle.Drawn | src/components/objects/list.c:131-139 | each draw is below its position and differs from its random number by a multiple of that position |
| Shuffle.EveryCycleDrawn | src/components/objects/list.c:127-142 | every cyclic arrangement is what the shuffle makes of some random numbers |
| Shuffle.ListObject.Fetch | src/components/objects/list.c:73-97 | the calls of one fetch together are one turn: the element at the cursor with its key if there is one, and the cursor stops at the end |
| Machine.FetchIsTurn | src/components/vm/vm.c:1565-1598 | the machine fetches by the same turns |
| Md5.State.Append | src/components/general/md5.c:322-358 | after any appends the state is that of the concatenated message: registers over its full blocks, the tail in the buffer, its length in bits in two words |
| Md5.State.Finish | src/components/general/md5.c:360-381 | the digest is that of the padded message of RFC 1321, and nothing stays in the buffer |
| Md5.State.Process | src/components/general/md5.c:131-310 | the unrolled operations, with the words, rotations and constants that are written out in them, are the 64 steps of section 3.4 of RFC 1321 |
| Md5.State.AddLength | src/components/general/md5.c:334-338 | the two words hold the length in bits modulo 2 to the 64 |
| Md5.Pieces | src/components/general/md5.c:322-358 | registers and tail of a concatenation come from those of its parts |
| Md5.Carry | src/components/general/md5.c:334-338 | the test for a carry is right |
| Md5.PadReaches | src/components/general/md5.c:360-381 | the padding is the shortest of at least one byte that reaches 56 modulo 64 |
| Md5.PadFormula | src/components/general/md5.c:376-377 | the code's expression for its length computes that |
| Md5.PaddedText | src/components/general/md5.c:360-378 | the padded message is the message, one set bit, as few clear ones as make whole blocks, and eight bytes which read with the low one first are its length in bits modulo 2 to the 64 |
| Md5.DigestRead | src/components/general/md5.c:379-380 | each four bytes of the digest, read with the low one first, are one of the registers, in turn |
| Md5.WordRead | src/components/general/md5.c:131-195 | each word of a block is four of its bytes read with the low one first |
| Md5.SetSums | src/components/general/md5.c:203-283 | one operation is b plus the rotated sum of a, the round's function, a word and a constant, modulo 2 to the 32 |
| Md5.OnBits | src/components/general/md5.c:197-283 | rotations and the four functions work on the bits of their words |
| Md5.Rotates | src/components/general/md5.c:197-203 | the sixteen rotations bring bits round the end |
| Md5.FirstMix | src/components/general/md5.c:202-203 | F takes the bits of y where x is set and those of z elsewhere |
| Md5.SecondMix | src/components/general/md5.c:228-230 | G takes the bits of x where z is set and those of y elsewhere |
| Md5.ThirdMix | src/components/general/md5.c:254-256 | H is the parity of its three bits |
| Md5.FourthMix | src/components/general/md5.c:280-282 | I is the difference of x and y where z is set and the opposite of y elsewhere |
| Base64.RoundTrip | src/components/general/base64.c:44-117 | decoding the encoding of any non-empty byte string gives the string back |
| Base64.EncodedCanonical | src/components/general/base64.c:53-82 | the encoder only writes canonical text |
| Base64.CanonicalRoundTrip | src/components/general/base64.c:84-117 | encoding what was decoded from canonical text gives the text back |
| Base64.SurvivesExactly | src/components/general/base64.c:53-117 | a text survives decoding and encoding if and only if it is canonical |
| Base64.GroupText | src/components/general/base64.c:59-74 | for each three bytes of any data, the four characters of Table 1 of RFC 4648 that stand for their bits, six at a time from the high end |
| Base64.RestText | src/components/general/base64.c:59-77 | for one or two bytes left over, the characters of their bits with zeros behind, and equals signs |
| Base64.Codec.Encode | src/components/general/base64.c:53-82 | the buffer filled by the loops is the encoding and a NUL |
| Base64.Codec.Decode | src/components/general/base64.c:84-117 | the buffer filled by the loops is the decoding; null for a length that is no multiple of four |
| Base64.Codec.BuildDecodingTable | src/components/general/base64.c:44-51 | the table inverts the alphabet |
| Ini.IndexAgrees | src/components/general/ini.c:57-156 | in every state each indexed offset is that of a line which defines its key, each such key is indexed, and each ending is the section's last line |
| Ini.Editor.Parse | src/components/general/ini.c:57-156 | one pass over the lines builds that index |
| Ini.Editor.Find | src/components/general/ini.c:270-281 | the value that the lines give the key |
| Ini.Editor.Add | src/components/general/ini.c:318-373 | the lines after a key was set, with an index that agrees with them |
| Ini.Editor.Remove | src/components/general/ini.c:376-393 | the lines after a key was removed, and whether it was there |
| Ini.LookupDefines | src/components/general/ini.c:270-281 | a key is found exactly if some line defines it |
| Ini.Qualified | src/components/general/ini.c:283-310 | section and key put together give the full key back exactly if it has a dot |
| Ini.GeneratedPair | src/components/general/ini.c:57-156 | a generated line reads as its key and value exactly if both are made of plain text |
| Ini.AddFinds | src/components/general/ini.c:318-373 | for all keys and values: after add, find gives the value from the line that was added if and only if the key is qualified, the line lands in its section and reads as the pair it was made of |
| Ini.AddsPlainText | src/components/general/ini.c:318-373 | the last part in terms of the text alone: key characters, no leading space or line break, no bracketed name |
| Ini.AddFindsOnly | src/components/general/ini.c:318-373 | there is no other way to find the value, unless the added line replaces one and reads as a header or a new header reads as a pair |
| Ini.SetFinds | src/components/general/ini.c:318-373 | for all keys and values, in terms of keys, sections and text alone: after add, find gives the value from the added line if and only if the key has a dot, both parts are plain text, and its section has no dot where the key is now, or is there, or can be started |
| Ini.NewSectionFinds | src/components/general/ini.c:340-363 | a key with plain text in a section that is not there is found after add if the section's name is not empty, has no closing bracket and at most 1020 characters |
| Ini.HeaderReads | src/components/general/ini.c:347-352 | the header that is written for a section reads as that section exactly under these conditions |
| Ini.NewLands | src/components/general/ini.c:340-363 | the line of a key that is not there lands in its section exactly if that is there or can be started |
| Ini.PairReads | src/components/general/ini.c:83-115 | every line spelled as key, spaces, equals sign, spaces, value and line break reads as key and value |
| Ini.PairOnly | src/components/general/ini.c:83-115 | and every line that reads as a pair is spelled like that |
| Ini.CharClasses | src/components/general/ini.c:83-133 | the characters of keys and of white space |
| Ini.BlankText | src/components/general/ini.c:126-133 | a line is blank exactly if all its characters are white space |
| Ini.KeyParts | src/components/general/ini.c:283-310 | the first dot of a key ends its section; a key without one is in the global section |
| Ini.HeaderText | src/components/general/ini.c:57-156 | a line reads as a header exactly if it has a bracketed name somewhere |
| Ini.HeaderFirst | src/components/general/ini.c:57-156 | and its name is that of the first one |
| Ini.HeaderReplaces | src/components/general/ini.c:332-340 | what happens to every key if a key that is there is set to a value that makes its line a header: it is lost, and the keys behind it change their section |
| Ini.HeaderAdds | src/components/general/ini.c:340-363 | if the key was not there, it still is not, and no other key changes |
| Ini.PairLandsElsewhere | src/components/general/ini.c:347-355 | a new header that does not read as one leaves the key in some other section |
| Ini.BracketsLoseKey | src/components/general/ini.c:318-373 | a concrete key that is lost because its value is in brackets |
| Ini.DottedSection | src/components/general/ini.c:298-373 | a concrete key that is lost because its section has a dot |
| Ini.AddKeeps | src/components/general/ini.c:318-373 | every other key keeps its value |
| Ini.AddedInserts | src/components/general/ini.c:318-373 | every other line survives in order; a new section appends a blank line and a header |
| Ini.AddUnique | src/components/general/ini.c:318-373 | keys stay unique |
| Ini.DottedSectionLost | src/components/general/ini.c:298-373 | a key in a section whose name has a dot becomes another key when it is set again |
| Ini.RemoveExactly | src/components/general/ini.c:376-393 | exactly that key is absent, and exactly its line is gone |
| Ini.AddThenRemove | src/components/general/ini.c:318-393 | removing undoes adding, but for a section that was started |
| Dll.Dll.Prepend | src/components/general/dll.c:62-87 | the element becomes the first one |
| Dll.Dll.Append | src/components/general/dll.c:92-118 | the element becomes the last one |
| Dll.Dll.InsertBefore | src/components/general/dll.c:124-150 | the element comes right before the given one |
| Dll.Dll.InsertAfter | src/components/general/dll.c:155-181 | the element comes right after the given one |
| Dll.Dll.Remove | src/components/general/dll.c:185-208 | exactly that element is gone; removing the only one leaves head and tail empty |
| Dll.Dll.Pop | src/components/general/dll.c:219-227 | the last element is returned and gone |
| Dll.Dll.SeekOffset | src/components/general/dll.c:241-251 | the element at that place, or none past the end |
| Dll.InsertKeeps | src/components/general/dll.c:62-181 | relinking around a new element keeps prev and next symmetric along the whole list |
| Dll.RemoveKeeps | src/components/general/dll.c:185-208 | and so does relinking around a removed one |

## Left out

- Calls, properties, subscripts, classes, imports, goto and user labels, data structures and `return` without a value.
- Expression statements other than assignments; a bare one leaves its value on the stack.
- `for(;;)` with an empty test, for which the compiler emits a constant load with an identifier operand.
- Frames.FrameCorrect: the frame must fit its limits: 16-bit operands, the operand stack (the assembler always reserves 42 entries; the model takes any size that is enough) and 20 blocks.
- Frames.MeansWhatItRuns: requires that every `breakelse` is anchored, and so do the theorems about depths. What a frame does after it has started again is not followed; `Frames.FrameCorrect` ends in the state in which it does.
- Walkers.CompileFrame: requires that the compiler's table of 20 open blocks is large enough; every switch takes one entry for good, so a long sequence of switches overruns it.
- Syntax.WellFormed: excludes a switch without cases, a switch with two defaults, and `continue` in a switch or after one in the same loop.
- StackFrames.StackFrame.UnwindBlocks: is only claimed where unwinding ends; where it does not, the loop of the source never comes back.
- The order in which a list changes under a foreach: the elements of lists are fixed during a run, only cursors move.
- Foreach.SimForeach: the subject must be a list; user-defined iterators are calls.
- Foreach over a list as a statement inside other statements: it leaves its iterator on the stack, so it is kept out of `Syntax.Stmt`.
- Casts to boolean that raise, or give no boolean: `World.castsTrue` is total.
- Parents of frames, visibility, argument binding, reference counts and garbage collection; values are immutable data.
- The identifier table of the surrounding code frame, beyond being read.
- Ini.HeaderAdds: not for a new section whose header has its closing bracket cut off or moved so that it reads as a pair; `Ini.PairLandsElsewhere` says where the key goes then.
- Base64.RoundTrip: not for the empty string; decoding an empty text reads in front of the buffer.
- Base64.Codec.Decode: characters outside the alphabet read entries of the table that were never written; the model allows any value there.
- Md5.State.Append: the shift of a length of 2 to the 28 bytes or more, and the sum of offset and length for one just below 2 to the 31, overflow a signed int in C; the model wraps the former around and does not limit the latter.
- Ini.AddFinds: requires unique keys, and so do the other laws of edits. Which of two lines for one key the hash table keeps is not part of this model.
- The regular expressions of the INI editor are written as a classifier of lines; wildcards in `ini_match` and files are not modelled.
- Shuffle.ListObject.Shuffle: the choice of random numbers is a parameter, so nothing is said about their distribution.
- Bytecode files, signatures, the debugger, FastCGI, the command line and all output.

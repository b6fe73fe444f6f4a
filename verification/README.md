# Lexa: handlers by stack switching, modelled and proved

Lexa compiles lexically scoped effect handlers to code that switches stacks. This project models
the parts of the repository where that can go wrong and proves what they are meant to do.

**The formal translation** (`src/formal_translation`). `Lexa` gives the source language a small-step
semantics with named handlers and one-shot resumptions that are captured lists of frames; `Salt` is
the target machine, `Translate` the compiler, `Assembler` the two-pass assembler. The main results
are in `CompilerCorrect`: each source step is matched by one or more machine steps, a program's
answer and records are those on the machine when it halts, and a safe program halts if and only if
its source run ends, unless that run enters a function with the one name that the assembler reserves. The proof goes through a layout of memory (`Layout`, `LayoutSteps`) in which the
running frames are a chain of stack segments linked through exchangers and every captured resumption
is a ring. `StackDiscipline`, with `Pins`, follows one activation through a run, raises that capture it
and resumes that bring it back included, and shows what the machine's stacks hold below it whenever it
runs again or returns. `SaltMachine` is the simulator in its imperative form; `Lockstep` runs labelled
code directly and shows that assembly only renumbers code pointers. `Mentions` says which programs
assemble, `Pointers` that no reference of a run dangles, `FirstOrder` that no program gets hold of a
function, and `Faults` has the ways a program can stop with an exception that the source text does not
show. `Progress` says exactly when a program goes on, and that reading and writing a field and resuming
go on exactly when the machine does; `Programs` has the three programs of the repository with their answers.

**The stack walker** (`src/stackwalk`). `Evidence` defines evidence passing, in which every
activation holds an environment from slots to handlers, and proves that the walk that rewrites a clue
site by site ends at the handler that evidence passing would have passed, through any nesting of tail
clauses. `Stackwalk` is the C loop over stack
memory, with the saved clues linked through the spare words of raise frames, and says on exactly which
stacks the loop keeps to the return addresses. `TailClauses` says exactly which sites may stand inside
tail clauses, with the stacks on which the others fail, and `CopiedHeaders` what a stack copied by the
runtime does to the walker. `ClueTable` is the table that it reads, as the Python side writes it, and
`Hopper` what the compiler writes into a hopper: a rewritten clue is the capability or label that the
call passes.

**The stack-switching runtime** (`src/stacktrek`). `Continuations` says what handlers mean: a pile of
segments, and resumptions that are values. `Trampolines` is the runtime: blocks of words, exchangers
that are overwritten, stack pointers that are swapped, copies made by `THROW`. `Switching` relates the
two, and `NewStacks`, `Exchanges`, `Dropping` and `Refinement` show that every run of the runtime
keeps to the meaning, that every stack is in one place, that control never comes to a captured stack,
and that a resumption can be used many times. `Leaks` says exactly which runs leave a stack allocated
that nothing leads to, and `Multishot` exactly when a copy may be started and when an abort stays in
its own stack. `Stacktrek` is the runtime as a class whose fields are overwritten; `StackPool` and
`GrowingPool` are the two allocators, with their address arithmetic, and `PoolGrants` shows that the
machine of the trampolines gets the blocks that the first one returns.

**Programs written in Lexa and around it.** The converter to A-normal form (`Anf`) and the n-queens
search (`Queens`) run on abstract machines whose frames a raise captures, for one use and for many;
`InPlaceList` is the pass over a linked list that deletes and replaces through handlers; `Golomb` is
the nested recursion; `Dequeue` is the deque of the schedulers, every operation with the list cells that
it goes through; `OpenOrder` and `OpenTraces` are the order in which the driver concatenates opened files.

## Where the code differs from what it promises

- A function name in operand position is compiled as a variable, because the first of two identical
  patterns catches every symbol (`src/formal_translation/t-salt.rkt:9-16`). No program ever holds a
  function value, and every `call` that is reached makes the machine stop with an exception.
- The assembler turns `add` with a label into `mov` (`src/formal_translation/a-salt.rkt:28`). No
  program that the compiler emits has such an instruction.
- The assembler rebinds the symbol `sp` (`src/formal_translation/a-salt.rkt:35`): a run that enters a
  function of that name makes the machine fault; every other run is preserved.
- No program with `exits` compiles: the clause for values comes first and matches the list
  `(exits v)` too, which is no value (`src/formal_translation/t-salt.rkt:242`, `:249-257`).
- The walker saves the clue of code inside a tail clause without rewriting it by that call site's
  hopper (`src/stackwalk/stackwalk.c:172-195`), so that the hoppers of such sites must keep every slot
  in place. At an install site inside a tail clause it neither saves the clue nor notes the words that
  the raise pushed (`:126-171`); it is right there if and only if the hopper passes no slot on. The
  table can say both of one site (`src/stackwalk/analyze_binary.py:145`, `:194`).
- The walker goes on from a general handler through the exchanger in the header that it is at
  (`src/stackwalk/stackwalk.c:170`). In a stack that `THROW` has copied that word is stale: `RESUME`
  sets the exchanger that all copies share (`src/stacktrek/stacktrek.h:212-221`). The walk then goes
  back through the captured frames, and may end at the handler whose body was copied.
- A program gives back every stack if and only if each of its aborts crosses at most one stack, it
  forgets no resumption, and no more than 64 stacks are in use at a time: `RAISE_ABORT` frees the stack
  that it leaves and no other (`src/stacktrek/stacktrek.h:124-137`), nothing frees the stacks of a
  resumption that is not used, and `free_stack` does nothing for memory that `aligned_alloc` returned
  (`src/stacktrek/stack_pool.h:157-160`, `:172-178`).
- All copies of a resumption share one exchanger. Starting a copy while that exchanger is needed (from
  inside another copy, or while it links a captured stack) sends a later return to the wrong stack.
- The header of an abort handler is copied with its frame, but still holds the stack pointer of the
  time of its installation: an abort does what it means if and only if the frame is in that stack. It
  is, unless the frame was copied since; a copy may come to lie in that stack again, when its block was
  freed and handed out for the copy.
- `free_stack` takes the stack pointer of a completely full stack for one of the neighbouring block,
  and does not recognise an empty stack in the last block (`src/stacktrek/stack_pool.h:168-179`);
  `dup_stack` copies the wrong bytes for an empty stack, as its comment says.
- A cell of a hopper takes two digits only if its index is below 16 (`src/lib/codegen/hopper.ml:14-26`);
  the walker counts cells of two digits.
- Opened files are compared by the text of their paths, so a file that is reached under two names is
  concatenated twice (`src/bin/main.ml:35-65`).

## Model

| member | source | states |
|---|---|---|
| CompilerCorrect.SimStep | src/formal_translation/t-salt.rkt:29-260 | one source step, of any form, from a configuration without function values, as all reachable ones are, is matched by at least one step of the assembled program |
| CompilerCorrect.SimStart | src/formal_translation/t-salt.rkt:263-282 | the machine gets from its first instruction over all function bodies into main |
| CompilerCorrect.SimRun | src/formal_translation/t-salt.rkt:263-282 | after n source steps there is a machine state, n or more steps on, with the matching memory |
| CompilerCorrect.AnswersPreserved | src/formal_translation/t-salt.rkt:29-282 | if the source run of a program that assembles ends without having entered a function named sp, the machine halts with that answer alone on stack 0, and the same records |
| CompilerCorrect.NotYetHalted | src/formal_translation/salt.rkt:204-207 | while the source run goes on, and has not entered a function named sp, the machine neither halts nor faults |
| CompilerCorrect.SameTermination | src/formal_translation/salt.rkt:171-207 | for a program that assembles and never goes wrong: the machine never faults, and halts if and only if the source run ends, if and only if the run never enters a function named sp |
| CompilerCorrect.ReservedFaults | src/formal_translation/a-salt.rkt:33-37 | a run that enters a function named sp, by an installation or by any kind of raise, makes the machine fault |
| Faults.SpBodyFaults | src/formal_translation/a-salt.rkt:33-37 | a program of three functions that assembles, whose source run comes to an answer and whose machine faults |
| Programs.ProgramsAnswer | src/formal_translation/programs.rkt:22-113 | the three programs of the file assemble, and the machine halts with 43, 42 and 43 alone on stack 0; the record that main made holds 42, 42 and 43 |
| Progress.StepsExactly | src/formal_translation/t-salt.rkt:29-260 | a configuration has a successor if and only if the names that its form uses are bound and, form by form: + has integers; the field selected or updated is there; the function entered is defined, last, with 2 or 3 parameters; the newest frame of the handler instance is of the kind that the raise asks for; the resumption is not used up |
| Progress.SafeExactly | src/formal_translation/salt.rkt:171-207 | a program never goes wrong if and only if main is defined without parameters and every configuration of its run that is not an answer meets that condition |
| Progress.SelectGoesOn | src/formal_translation/t-salt.rkt:70-77 | where a run selects a field, of a reference, an integer or nothing, the source run goes on if and only if the machine gets past the load |
| Progress.UpdateGoesOn | src/formal_translation/t-salt.rkt:79-87 | where it updates one, if and only if the machine gets past the store |
| Progress.ResumeGoesOn | src/formal_translation/t-salt.rkt:211-239 | where it resumes a resumption, if and only if the machine gets past the load of the stack pointer: the resumption is unused and the argument bound |
| Pointers.NothingDangles | src/formal_translation/t-salt.rkt:57-239 | in every reachable configuration references denote records, resumptions denote captured or spent ones, handler labels were given out, in environments, frames, records and captured frames alike |
| FirstOrder.WithoutRuns | src/formal_translation/t-salt.rkt:270-282 | as long as it does not enter a function, a program runs as if it were not defined |
| Mentions.AssemblesExactly | src/formal_translation/a-salt.rkt:21-37 | a program that compiles assembles if and only if every function that it names, main among them, is defined or is called sp; names that follow an abortive raise are not looked up |
| Translate.CompilesExactly | src/formal_translation/t-salt.rkt:29-260 | a program compiles if and only if its handlers are of the kinds that there are clauses for and `exits` occurs nowhere in it |
| Translate.ExitsDoesNotCompile | src/formal_translation/t-salt.rkt:242-257 | the shortest program with `exits` does not compile |
| StackDiscipline.StackKept | src/formal_translation/t-salt.rkt:263-282 | between the machine states that match two source configurations, at the second of which an activation runs again or returns its value after any raises that captured it and any resumes: sp is on its stack above the same words; only its stack's exchanger may have changed, and not even that, nor any stack below, if it was never captured |
| StackDiscipline.BodyReturns | src/formal_translation/t-salt.rkt:275-282 | between the machine state that matches the start of a body and the one that matches the return of its value over the same continuation, sp has come back to where it was, and every word below, on this stack and on those below, is as it was |
| StackDiscipline.HomeExactly | src/formal_translation/t-salt.rkt:154-239 | an activation was never captured if and only if the continuation never was shorter than its own |
| Statements.SimPlus | src/formal_translation/t-salt.rkt:32-41 | addition binds the sum on top of the environment's slots |
| Statements.SimNewRef | src/formal_translation/t-salt.rkt:57-68 | allocation makes a record of the values of all fields, in order, and nothing else changes |
| Statements.SimSelect | src/formal_translation/t-salt.rkt:70-77 | selection binds the field of the record that the reference denotes |
| Statements.SimUpdate | src/formal_translation/t-salt.rkt:79-87 | update changes that one field of that one record and binds the value stored |
| Activations.EnterFun | src/formal_translation/t-salt.rkt:275-278 | the pushes of a function's prologue turn argument registers into the parameters' slots, first on top |
| Activations.LeaveFun | src/formal_translation/t-salt.rkt:279-280 | at the end of a body the result is in register 1 and sfree of parameters and lets leaves exactly the caller's words, on the same stacks, from any jump-linked tail position |
| Installs.SimHandleNew | src/formal_translation/t-salt.rkt:89-121 | handle+ starts a stack whose header holds operation, environment, kind and the old stack pointer, and runs the body there |
| Installs.SimHandleSame | src/formal_translation/t-salt.rkt:123-152 | handle= pushes a header on the running stack and runs the body above it |
| HandlerSteps.SimTailRaise | src/formal_translation/t-salt.rkt:181-193 | the clause runs on top of the raise with the handler's environment, found through any frames and stacks |
| HandlerSteps.SimAbortRaise | src/formal_translation/t-salt.rkt:195-209 | abortraise continues as the clause in the place of its handler |
| HandlerSteps.AbortTo | src/formal_translation/t-salt.rkt:204-209 | from any depth of calls, handlers and stacks sp lands right below that handler's header: the stacks above are dropped, its own is cut at the header and those below are the old ones |
| Resumptions.SimRaise | src/formal_translation/t-salt.rkt:154-179 | raise runs the clause below the handler with a fresh resumption of the captured frames |
| Resumptions.RaiseTo | src/formal_translation/t-salt.rkt:169-178 | the chain is cut at the handler's stack: what was above is the ring, stack by stack and unchanged but for the frame of the raise, and what was below goes on |
| Resumptions.SimResume | src/formal_translation/t-salt.rkt:211-239 | resume returns the argument to the raise and uses the resumption up |
| Resumptions.ResumeTo | src/formal_translation/t-salt.rkt:227-238 | the stacks of the ring, as they were captured, are spliced on top of the resumer's own, whatever ran in between |
| ReturnSteps.SimReturn | src/formal_translation/t-salt.rkt:116-150 | a return goes to the next let, through a header on the same stack, to the stack that the exchanger names, or out of main |
| ReturnSteps.ReturnThroughNew | src/formal_translation/t-salt.rkt:117-120 | when the body of handle+ returns control moves to the stack that resumed it last, which is the next of the chain as it was |
| Faults.SecondResumeFaults | src/formal_translation/t-salt.rkt:229-233 | a second resume of one resumption makes the machine fault, in every program |
| FirstOrder.NoFunctionValues | src/formal_translation/t-salt.rkt:7-16 | no value of a reachable configuration is a function |
| Faults.CallsFault | src/formal_translation/t-salt.rkt:43-55 | every call form that a run reaches makes the machine fault, whatever its operand and however many its arguments |
| Linking.FunsUnique | src/formal_translation/t-salt.rkt:93-94 | no generated label is defined twice in a compiled program |
| Linking.FunsAt | src/formal_translation/t-salt.rkt:270-282 | the name of a function resolves to the code of the function that a lookup finds, although the last definition wins in the assembler; the name sp resolves to no code |
| Linking.SkipsAt | src/formal_translation/t-salt.rkt:273-282 | from address 0 the jumps over all bodies lead to the call of main |
| Assembler.AssembledCodeAt | src/formal_translation/a-salt.rkt:5-37 | if no generated label is defined twice, the whole program stands resolved at address 0 and every such label names the next real instruction |
| Assembler.LastDefinition | src/formal_translation/a-salt.rkt:11-14 | a name resolves to the position of its last definition, sp to none |
| AssemblerPasses.AssembleProgram | src/formal_translation/a-salt.rkt:33-37 | the two passes, with sp rebound in between, compute the assembled program |
| AssemblerPasses.CollectFilterLabelDefs | src/formal_translation/a-salt.rkt:5-19 | the fold with its mutable pc and table computes the label table and the stripped code |
| Lockstep.LabelIndex | src/formal_translation/a-salt.rkt:8-17 | every label resolves to the number of real instructions before its last definition |
| Lockstep.ExecRenumbered | src/formal_translation/salt.rkt:64-155 | no instruction looks at code pointers: executing commutes with renumbering them |
| Lockstep.StepSimulated | src/formal_translation/a-salt.rkt:22-31 | one labelled step is one assembled step, faults included, if and only if it does not add a label to a register |
| Lockstep.RunSimulated | src/formal_translation/a-salt.rkt:33-37 | the assembled run is the labelled run, step for step, also with labels defined twice, if and only if it never adds a label to a register |
| Lockstep.CompiledRunSimulated | src/formal_translation/a-salt.rkt:33-37 | so it is for every program that the compiler emits, without a condition |
| SaltRules.PushThenPop | src/formal_translation/salt.rkt:140-155 | pop gives the pushed word back, and everything else is as before, if and only if sp was at the end of its stack or selected a slot with that word |
| SaltRules.CallThenReturn | src/formal_translation/salt.rkt:118-138 | when the callee returns with sp and its stack as it found them, the caller goes on after the call with its stack as it was |
| SaltRules.AddThenLoad | src/formal_translation/salt.rkt:65-73 | adding an integer to an address, in either order of the operands, moves what a load through the sum reads by that integer; two addresses are not added |
| SaltMachine.Machine.RunRounds | src/formal_translation/salt.rkt:183-207 | the loop over registers, memory, pc and sp in place stops on halt or exception and is the n-step run |
| Evidence.WalkIsEvidence | src/stackwalk/stackwalk.c:60-204 | the walk ends at exactly the handler that evidence passing assigns to the raised clue, be it a label, a capability or a captured environment, unless it leaves an install site that is inside a tail clause |
| Evidence.WalkIsEvidenceFrom | src/stackwalk/stackwalk.c:126-202 | from any site, with clues saved in tail clauses still to be looked up where their handlers were installed |
| Evidence.StepOut | src/stackwalk/stackwalk.c:37-50 | a clue rewritten by the hopper means the same handler one site further out |
| Evidence.StepOutOfClause | src/stackwalk/stackwalk.c:172-195 | outside a tail clause the clue of the raise finds the handler whose environment the clause has |
| TailClauses.TailRowExact | src/stackwalk/stackwalk.c:60-204 | a call site may stand inside tail clauses if and only if its hopper keeps every slot in place, an install site if and only if its hopper passes no slot on: then and only then the loop returns the right header on every stack |
| TailClauses.TailRowMisleads | src/stackwalk/stackwalk.c:119-195 | for every other site a table, a stack of six return addresses and a clue on which the loop never gets to the handler |
| Stackwalk.Walk | src/stackwalk/stackwalk.c:60-204 | over stack memory the loop returns the header of that handler, crossing general handlers through the exchangers in their headers where these are not stale, and changes only spare words of raise frames |
| Stackwalk.CourseExact | src/stackwalk/stackwalk.c:119-202 | on every stack the walker visits the return addresses up to the right handler and returns its header if and only if it leaves neither an install site that is inside a tail clause nor a copied one whose own exchanger differs from the shared one |
| CopiedHeaders.StaleCopyMisleads | src/stackwalk/stackwalk.c:159-171 | a stack that was copied word for word and resumed, on which a raise to the outer handler ends at the inner one's header |
| Stackwalk.ShortByAClue | src/stackwalk/stackwalk.c:119-124 | after such an install site the next address but one is read six words too low |
| Stackwalk.InstallLeaves | src/stackwalk/stackwalk.c:126-171 | an install site that is not the end of the walk pops a saved clue if label 0 belongs to one, rewrites the clue, and is left for the next return address, by frame size or exchanger according to the mode in its header |
| Stackwalk.ClauseLeaves | src/stackwalk/stackwalk.c:172-195 | leaving a tail clause saves the clue above the raise, earlier saved clues staying readable, and takes up the clue of the raise |
| Stackwalk.FindRow | src/stackwalk/stackwalk.c:92-104 | the search finds the first row for a return address |
| Stackwalk.UpdateClue | src/stackwalk/stackwalk.c:37-50 | over a written table, a slot of what is called becomes what the compiler wrote for it: a label i of the caller is (0, i), a capability i is (1, i), an unbounded one (2, 0); at a constant site the clue stays, which is the same for every slot that is ever reached |
| Stackwalk.SlotExactly | src/lib/codegen/hopper.ml:14-26 | the clues that the walk is about are exactly those that a cell with an index of one digit names: labels, capabilities and the captured environment of 16 signatures |
| Stackwalk.SaveKeeps | src/stackwalk/stackwalk.c:179-185 | writing a saved clue damages no return address, header or clue saved before |
| ClueTable.WriteTable | src/stackwalk/analyze_binary.py:229-247 | the loops write the number of rows and then the rows, field by field |
| ClueTable.TableRoundTrip | src/stackwalk/analyze_binary.py:229-249 | row i is read back at word 41 * i + 1 with its seven fields, and hopper byte k is digits 2k and 2k + 1 |
| ClueTable.TableLayout | src/stackwalk/analyze_binary.py:229-247 | a written table is the number of rows and 41 words for each, the fields at words 1 to 7 and hopper byte k in word 8 + k / 8, lowest byte first |
| ClueTable.SlotsDistinct | src/stackwalk/stackwalk.c:37-50 | different slots of at most 16 signatures, and the place of the captured environment in the line of each, index different bytes of the 272, all inside the row |
| Hopper.ReadsCell | src/lib/codegen/hopper.ml:56-92 | in the text of lines that the compiler writes, one for each effect with the captured environment, then the capabilities, then the labels, the byte that the walker reads for a slot is the two digits of that slot's cell, for at most 16 slots and indices of one digit; in a constant hopper every cell names its own slot or is never reached |
| Hopper.MakeHopper | src/lib/codegen/hopper.ml:56-85 | the loop over the 16 effects appends the line of each |
| Hopper.LinesAt | src/lib/codegen/hopper.ml:56-85 | cell j of the line of an effect stands after the whole lines of the effects before it |
| Hopper.IsConst | src/lib/codegen/hopper.ml:28-54 | the loops that consume the table report a constant hopper if and only if every cell is its own slot, unbounded in the first place of a line, or marked as never reached |
| Hopper.TextLength | src/lib/codegen/hopper.ml:14-26 | every cell takes two digits if and only if no index needs more than one |
| Refinement.SimAct | src/stacktrek/stacktrek.h:10-221 | every trampoline does to the machine what the action means |
| Refinement.SimRun | src/stacktrek/stacktrek.h:10-221 | so does every run, from every state that implements a pile |
| Refinement.RunFromStart | src/stacktrek/stacktrek.h:10-221 | at the end of any run the current stack holds exactly the words of the top segment, and the stacks lost are exactly those that aborts passed over and those of forgotten resumptions |
| Refinement.EachStackOnce | src/stacktrek/stacktrek.h:78-87 | every allocated stack is on the chain down to main, or in exactly one resumption, or lost |
| NewStacks.SimEnter | src/stacktrek/stacktrek.h:187-211 | ENTER puts a stack on top whose exchanger leads back to the caller |
| NewStacks.SimThrow | src/stacktrek/stacktrek.h:576-584 | THROW puts a copy on top, the original keeping its words, and the shared exchanger leads to the resumer |
| NewStacks.LinkIsUse | src/stacktrek/common.h:50-58 | an exchanger that holds a stack pointer still needed is that of a handler in use |
| NewStacks.UseIsLink | src/stacktrek/common.h:50-58 | and every handler in use has such an exchanger |
| Exchanges.SimRaise | src/stacktrek/stacktrek.h:78-87 | RAISE turns the part of the chain above and including the handler's stack into a ring, RAISE_M into a chain with a saved stack pointer |
| Exchanges.SimFinalThrow | src/stacktrek/stacktrek.h:586-593 | FINAL_THROW opens the ring or chain and splices it in above the resumer |
| Exchanges.HandlerBlock | src/stacktrek/common.h:59-71 | the exchanger of a handler in force holds the top of the stack below the handler's |
| Dropping.SimReturn | src/stacktrek/stacktrek.h:201-209 | when a body returns its stack is freed and control is where it was entered or last resumed |
| Dropping.SimAbortGeneral | src/stacktrek/stacktrek.h:124-137 | an abort to a general handler continues below its stack; i stacks in between are lost |
| Dropping.SimAbortBelow | src/stacktrek/stacktrek.h:276-292 | an abort to a handler in a frame of a lower stack cuts that stack back to the installation; all but the current of the stacks above are lost |
| Dropping.SimForget | src/stacktrek/stacktrek.h:78-87 | a resumption that is not used again leaves all its stacks allocated and out of reach |
| Leaks.LeakExact | src/stacktrek/stack_pool.h:168-191 | at the end of a run every allocated stack can still be reached if and only if each abort crossed at most one stack, no resumption was forgotten, and free_stack was given stacks of the pool only |
| Leaks.CompleteExact | src/stacktrek/stack_pool.h:153-191 | a whole program gives back every stack but main if and only if each abort crosses at most one stack, no resumption is forgotten, and at most 64 stacks are in use at a time |
| Leaks.AbortLeaks | src/stacktrek/stacktrek.h:124-137 | three actions whose abort leaves a stack behind, the other conditions being met |
| Leaks.ForgetLeaks | src/stacktrek/stacktrek.h:78-87 | three actions after which a forgotten resumption leaves a stack behind, the other conditions being met |
| Leaks.NestedLeak | src/stacktrek/stack_pool.h:157-178 | n handlers inside each other whose bodies all return leave nothing behind if and only if n is at most 64 |
| Refinement.CapturedKept | src/stacktrek/stacktrek.h:576-584 | through any run that does not use a resumption up, the runtime keeps its saved stack pointer and every word of its stacks |
| Refinement.HeldNeverRuns | src/stacktrek/stacktrek.h:78-87 | control never comes to a stack of a resumption that is not used up |
| Refinement.CopiesStartFresh | src/stacktrek/stacktrek.h:576-584 | a resumption captured on its handler's own stack starts every copy with the words it was captured with, whatever ran on other stacks since, whether or not it kept to the meaning of handlers |
| Multishot.ReturnsToResumer | src/stacktrek/stacktrek.h:212-221 | what is entered or resumed returns to the stack that did so, with its words as they were |
| Multishot.RaiseThenResume | src/stacktrek/stacktrek.h:78-87 | raise and then resume restore every word, exchanger and the stack pointer |
| Multishot.ThrowExact | src/stacktrek/stacktrek.h:576-584 | a copy does what resuming means if and only if nothing else depends on the shared exchanger |
| Multishot.ReentrantThrow | src/stacktrek/stacktrek.h:196-208 | a resumption started from inside its own copy: after both return, control is in a freed stack |
| Multishot.CopiedAbortHandler | src/stacktrek/stacktrek.h:282-288 | an abort to a handler in a frame that was copied from the stack of its installation leaves the copy for the captured original |
| Multishot.AbortExact | src/stacktrek/stacktrek.h:276-292 | in every state, an abort to a handler in a frame does what it means if and only if that frame is in the stack that the handler was installed in |
| Multishot.UncopiedAbortRight | src/stacktrek/stacktrek.h:276-292 | in every run, an abort does what it means if the frame was not copied since its handler was installed |
| Multishot.RecycledCopy | src/stacktrek/stack_pool.h:153-166 | a run of ten actions after which a frame that was copied twice is in the stack of the installation again |
| Stacktrek.Runtime.PerformAll | src/stacktrek/stacktrek.h:10-221 | a run of the class, with exchangers, blocks and the stack pointer overwritten in place, implements the run of the pile |
| StackPool.FreeExact | src/stacktrek/stack_pool.h:168-179 | free_stack frees the stack's own block and nothing else if and only if the stack pointer is recoverable |
| StackPool.SameBlockExact | src/stacktrek/stack_pool.h:186-189 | free_stack_on_abort tells whether two stack pointers are in one block if and only if neither, being at the start of a block, is taken for the other's neighbour |
| StackPool.CopyExact | src/stacktrek/stack_pool.h:193-199 | dup_stack copies the bytes in use if and only if the stack is not empty |
| StackPool.Pool.GetStack | src/stacktrek/stack_pool.h:153-166 | the lowest free block, or a new one when all are taken; never one that is live |
| StackPool.Pool.FreeStack | src/stacktrek/stack_pool.h:168-179 | for every stack pointer, exactly the block that it is taken for stops being live, its own if it is recoverable, and the bitmap stays the set of pool blocks that are not live |
| StackPool.Pool.FreeStackOnAbort | src/stacktrek/stack_pool.h:181-191 | for every pair of stack pointers: nothing is freed on the main stack or when the test takes them for one block; a recoverable, not confused one is freed unless it is in the target's block |
| StackPool.Pool.DupStack | src/stacktrek/stack_pool.h:193-200 | the copy is in a disjoint block at the same offset with the same bytes up to the base; nothing else changes |
| PoolGrants.Serve | src/stacktrek/stack_pool.h:153-179 | through any run of requests and frees on a new pool, the blocks that the trampolines' machine is granted are those that get_stack returns, and both have the same stacks in use and the same memory from aligned_alloc |
| PoolGrants.GrantedExactly | src/stacktrek/stack_pool.h:153-166 | the machine is granted the lowest of blocks 1 to 64 that is free, or, if and only if all are in use, memory that was never handed out |
| PoolGrants.InARow | src/stacktrek/stack_pool.h:131-166 | 65 requests in a row: 64 blocks of 8192 bytes one after the other, and the last from aligned_alloc |
| PoolGrants.GiveBackOnAbort | src/stacktrek/stack_pool.h:181-191 | free_stack_on_abort on stack pointers inside their blocks does to the pool what an abort does to the machine |
| GrowingPool.DescriptorRight | src/stacktrek/stack_pool.h:94-96 | the descriptor is found from every stack pointer, of empty and full stacks too |
| GrowingPool.Pool.GetStack | src/stacktrek/stack_pool.h:81-92 | the stack freed last, or a new one when none is kept; never one that is live |
| GrowingPool.Pool.FreeStack | src/stacktrek/stack_pool.h:94-104 | at most 16 freed stacks are kept, the others are unmapped |
| GrowingPool.Pool.FreeStackOnAbort | src/stacktrek/stack_pool.h:106-116 | the current stack is freed unless it is the main stack or the target is in the same block, for every stack pointer |
| GrowingPool.Pool.DupStack | src/stacktrek/stack_pool.h:118-125 | the copy has the same offset and bytes, for every stack pointer |
| Anf.Traversal | casestudies/anf/anf.lx:54-66 | under any frames, traverse ends with the last statement, and the clauses of its binds wait below the handler |
| Anf.Converts | casestudies/anf/anf.lx:42-52 | bind_here of traverse runs to the end, each resumption being used once |
| Anf.ConvertMeans | casestudies/anf/anf.lx:54-66 | the statement has the value of the tree and makes the same calls with the same arguments in the same order, whichever names the source uses |
| Anf.ConversionPreservesMeaning | casestudies/anf/anf.lx:42-66 | the running converter ends with a statement of the same meaning, for every tree |
| Anf.ConvertNames | casestudies/anf/anf.lx:25-35 | every let is kept, and the names that bind takes are bound once each |
| Anf.ConvertOrder | casestudies/anf/anf.lx:42-66 | running the statement binds the names of the lets and those of bind in the order of the tree |
| Anf.NewsCountUp | casestudies/anf/anf.lx:25-35 | along that order the names that bind takes count up from the counter, one after the other |
| Queens.SolutionsAre | benchmarks/lexa/nqueens/main.lx:6-17 | the boards counted are exactly the complete ones in range on which no two queens attack each other |
| Queens.BoardCounts | benchmarks/lexa/nqueens/main.lx:19-32 | with some columns placed, the handled rest of the program comes to the number of solutions that extend them |
| Queens.LoopCounts | benchmarks/lexa/nqueens/main.lx:44-49 | the handler's loop adds up what its resumes come to, once for each value |
| Queens.RunCounts | benchmarks/lexa/nqueens/main.lx:34-42 | run(n) ends, with the number of solutions |
| InPlaceList.KeptExactly | benchmarks/lexa/interruptible_iterator/main.lx:56-82 | of distinct nodes exactly those are kept whose value is not negative |
| InPlaceList.Loop | benchmarks/lexa/interruptible_iterator/main.lx:11-40 | after the first node come exactly the nodes that are not negative, in order; values are doubled in place; the first node's removal is left to its predecessor |
| InPlaceList.Pass | benchmarks/lexa/interruptible_iterator/main.lx:56-82 | what is left is the list of the original nodes that were not negative, doubled |
| InPlaceList.Run | benchmarks/lexa/interruptible_iterator/main.lx:56-83 | run(n) is n * (n + 1); for negative n it reads an element of the empty list |
| Golomb.Golomb | benchmarks/lexa/golomb/main.lx:5-13 | the nested recursion ends for every n, is between 1 and n, and raises only for an argument of the outermost call that is not positive |
| Golomb.Steps | benchmarks/lexa/golomb/main.lx:5-13 | from one position to the next the value stays or goes up by one |
| Golomb.SelfDescribing | benchmarks/lexa/golomb/main.lx:5-13 | each k occurs exactly G(k) times |
| Dequeue.CheckRefines | benchmarks/koka/scheduler/dequeue.kk:34-48 | moving elements over keeps the sequence, and neither side is then longer than 4 times the other plus 1 |
| Dequeue.CheckExact | benchmarks/koka/scheduler/dequeue.kk:34-48 | check returns its argument, and goes through no cell, if and only if each size is at most 4 times the other plus 1; otherwise the side that was too long keeps half of the n elements, rounded down, and take, drop, reverse and append go through n + n / 2 cells |
| Dequeue.ApplyCells | benchmarks/koka/scheduler/dequeue.kk:50-77 | what each operation goes through, as a function of the sizes |
| Dequeue.PopFrontRefines | benchmarks/koka/scheduler/dequeue.kk:55-62 | popFront takes the first element and fails exactly on the empty sequence |
| Dequeue.PopBackRefines | benchmarks/koka/scheduler/dequeue.kk:69-77 | popBack takes the last element and fails exactly on the empty sequence |
| Dequeue.RunRefines | benchmarks/koka/scheduler/dequeue.kk:34-77 | through any run the deque answers as the sequence does, its sizes are right and neither side is longer than 4 times the other plus 1 |
| Dequeue.AmortisedConstant | benchmarks/koka/scheduler/dequeue.kk:34-48 | m operations from the empty deque go, in the takes, drops, reversals and appends of their own checks, through at most 6 * m list cells |
| OpenOrder.OpenOrderRight | src/bin/main.ml:35-65 | every reachable name once, after all names it opens, the root last |
| OpenTraces.OrderExact | src/bin/main.ml:35-65 | of two listed names the one comes first that some trace of open declarations leads to which is before every trace to the other: at the first difference an earlier declaration of the same file, or a longer trace before the one that it goes on from |
| OpenOrder.EachFileOnce | src/bin/main.ml:58-65 | each reachable file is concatenated once if and only if no two reachable names lead to the same file |
| OpenOrder.DownwardsOnce | src/bin/main.ml:35-65 | if open declarations lead downwards only, without . and .., and none leads to the root, no two listed names are one file |
| OpenOrder.FileTwice | src/bin/main.ml:35-65 | four names with relative open declarations, two of which are listed and are one file |

## Left out

- CompilerCorrect.AnswersPreserved: memory has no limit of 32 blocks as in `salt.rkt`; the 32 registers are kept.
- CompilerCorrect.SameTermination: says nothing of programs that go wrong in the source semantics, beyond the faults in `Faults` and `Progress`.
- Progress.SelectGoesOn: of a handler label or a resumption, which the machine holds as addresses too, the machine may read a word where the source run has gone wrong; likewise `Progress.UpdateGoesOn`, and `Progress.ResumeGoesOn` of a label or a reference.
- Lockstep.RunSimulated: the machine's exceptions are not told apart, and `dump` prints nothing.
- Evidence.WalkIsEvidence: says nothing of a walk that leaves an install site inside a tail clause; `TailClauses.TailRowExact` and `Stackwalk.CourseExact` say when such a walk is right.
- Stackwalk.Walk: addresses and frame sizes count words; the three bytes of a saved clue are one word and its padding is written as zero; return addresses, headers and spare words of different frames are taken to be disjoint, and the 272 hopper bytes of a row are never exceeded.
- Stackwalk.CourseExact: tail clauses are called by raise sites, which are no install sites; that two wrong turns cancel out, so that the right header is returned from wrong addresses, is not excluded.
- Hopper.ReadsCell: which capabilities and labels a call passes is decided by the type checker and is a parameter; call sites with empty metadata are not in the table.
- ClueTable.WriteTable: writes the fields as numbers; their conversion to bytes is in the reading of hopper bytes only.
- Refinement.SimRun: one step per trampoline; register conventions, alignment and the reads of a stack just freed in ENTER are not modelled beyond the order of events, stacks do not overflow, and `get_stack` returns the lowest free block of the pool or new memory, as `StackPool` shows.
- NewStacks.SimThrow: the runtime reads exchangers through the shared pointer only, so that the exchanger word in a copied header is no part of the copied words; `Stackwalk` has it. A copy is made of a resumption of one block whose header is still allocated, as `dup_stack` requires; copying a resumption of several stacks is not modelled.
- Refinement.SimAct: an abort to a frame that is not in the stack of its handler's installation has no meaning, so that runs which do so are outside of `Refinement.SimRun`; `Multishot.AbortExact` says where such an abort goes wrong.
- StackPool.Pool.GetStack: the lazy initialisation on first use is the constructor, and the block that `aligned_alloc` would return is a parameter; the 64 bits of the bitmap are a sequence of flags.
- PoolGrants.Serve: the stacks given back are neither empty nor full; `StackPool.FreeExact` has the others.
- GrowingPool.Pool.FreeStack: what `mp_gstack_alloc` would return is a parameter; blocks are taken to be aligned with the descriptor at the top of the stack.
- Anf.Converts: arguments of a constructor are evaluated from left to right.
- Queens.RunCounts: a negative size never ends and is not modelled.
- InPlaceList.Run: the unbounded integers of the model do not wrap around.
- OpenOrder.OpenOrderRight: parsing is a function from names to names; a circle of open declarations that the root reaches, on which the driver does not end, is excluded.
- Tail-resumptive and abortive calls through function pointers, the argument counts of RAISE and the choice of a handler's mode from its operations are easy and left out.
- The OCaml type checker, closure conversion and code generator, the LLVM passes, ELF and DWARF reading, `/proc/self/maps`, the garbage collector hooks and the patched libmprompt are not part of this model.
- Floating point, probabilistic programs, `hofstadterq`, whose recursion is not known to end, and benchmark scripts are not part of this model.

# JKind engines: a Dafny model

This project models four parts of JKind, a model checker for Lustre programs:

- the **BMC engine** (`BmcEngine`). At each depth k it asks the solver whether some
  pending property can be false at step k. It reports the falsified properties Invalid,
  with a counterexample of length k+1, and drops them from the pending list. It writes
  every unsat core over the support activation literals to the `_bvc.xml` block file.
  It announces each depth with a BaseStep message, and gives up with an Unknown
  message after `n` steps.
- the **invariant generation engine** (`AbstractInvariantGenerationEngine`). It refines
  a candidate invariant, as a conjunction of clauses, in the base step and then in the
  inductive step. It publishes what survives as proven invariants, and announces valid
  every pending property that a new invariant names.
- the **BMC-based consistency checker** (`BmcBasedConsistencyChecker`). For every
  property of a Valid message routed to it, the checker:
  - builds an over-approximation of the node from the property's inductive validity
    core (IVC), its assertions, equations, locals and outputs;
  - unrolls that node up to depth `n`, asserting the property at each depth, and looks
    for an unsat core;
  - prints a report on the console;
  - forwards the Valid message, one property at a time, along its itinerary.
- the **XML writer** (`XmlWriter`), which renders valid, invalid, unknown, base-step,
  inconsistent and consistency-checker results as lines of XML.

Shared pieces have their own modules:

- `Collections`: list filtering helpers.
- `Text`: decimal rendering and character replacement.
- `Lustre`: the program, expression and value data model.
- `Solvers`: the SMT solver as a class that records every command.
- `Messages`: messages, itineraries and the director's log of sent messages.
- `EngineBase`: variable declaration at an offset, and the transition relation's
  argument order.

Each engine is a `class` whose fields are the source's mutable state:

- the pending `properties`;
- the incoming message queue (`inbox`, one batch per `processMessages`);
- the proven invariants;
- the console and the block file.

Each engine method is proved against a recursive specification function of the old
state and the solver's answers. The answers are a finite tape: an exhausted tape
answers Unknown without a model. Lemmas about those functions state what the source
promises. Examples:

- every property is either still pending or reported;
- reports are sound for the model that falsifies them;
- each consistency check is bracketed by push and pop;
- the checker sends exactly one Valid message per checked property and never an
  Invalid one;
- the XML blocks come in the input order and are numbered from 1.

The checker's counterexample result ends with the closing tag
`</InonsistencyCounterexample>`, which does not match its opening tag
`<InconsistencyWithCounterexample>`. The model reproduces this literally and proves that
the two differ (`Writers.ConsistencyShape`); it makes no claim that the output is
well-formed XML.

## Model

| member | source | states |
|---|---|---|
| Collections.RemoveAll | jkind/src/jkind/engines/BmcEngine.java:98 | `removeAll`: keeps exactly the elements not in the removed list, in their order, never adding occurrences |
| Collections.RetainAll | jkind/src/jkind/solvers/smtinterpol/SmtInterpolSolver.java:113-118 | keeps exactly the elements also in the other list, as a subsequence: the unsat core keeps only the named activation literals |
| Collections.RemoveFirst | jkind/src/jkind/engines/BmcBasedConsistencyChecker.java:62 | `List.remove(x)` drops one occurrence of x when present and changes nothing otherwise |
| Collections.RemoveAllPartition | jkind/src/jkind/engines/BmcEngine.java:97-98 | what `retainAll` keeps and what `removeAll` keeps together make up the whole list, counted with multiplicity |
| Collections.RemoveAllIdempotent | jkind/src/jkind/engines/invariant/AbstractInvariantGenerationEngine.java:121 | removing the same list twice is the same as removing it once |
| Text.IntToString | jkind/src/jkind/writers/XmlWriter.java:61 | printing an int gives a non-empty string that starts with '-' exactly when the number is negative |
| Text.ParseNatToString | jkind/src/jkind/writers/XmlWriter.java:79 | reading back a printed natural number gives the number |
| Text.IntToStringInjective | jkind/src/jkind/writers/XmlWriter.java:61 | two different integers never print the same way, so depths and step numbers in the XML are unambiguous |
| Text.ReplaceChar | jkind/src/jkind/writers/XmlWriter.java:96 | after `String.replace`, the character is gone unless the replacement contains it, and no new characters appear except the replacement's |
| Lustre.Ids | jkind/src/jkind/engines/BmcBasedConsistencyChecker.java:195-196 | `Util.getIds`: the declared names, position by position |
| Solvers.CoreWithin | jkind/src/jkind/solvers/smtinterpol/SmtInterpolSolver.java:102-118 | an unsat core only holds activation literals that were named in the check |
| Solvers.AsQueryResult | jkind/src/jkind/solvers/smtinterpol/SmtInterpolSolver.java:73-96 | `query` keeps the verdict, extracts a model on SAT and UNKNOWN, and gives UNSAT without a core |
| Solvers.AsCheckResult | jkind/src/jkind/solvers/smtinterpol/SmtInterpolSolver.java:99-126 | `quickCheckSat` keeps the verdict, never has a model, and its core is within the named literals |
| Solvers.AsCoreQueryResult | jkind/src/jkind/engines/BmcEngine.java:88-107 | `unsatQuery` keeps the verdict and the model, and its core is within the named literals |
| Solvers.Solver.constructor | jkind/src/jkind/solvers/smtinterpol/SmtInterpolSolver.java:35-44 | a fresh solver has received no command and has no open scope |
| Solvers.Solver.DefineVar | jkind/src/jkind/solvers/smtinterpol/SmtInterpolSolver.java:52-56 | `define(VarDecl)` records one declaration and leaves the answers and scopes alone |
| Solvers.Solver.DefineRel | jkind/src/jkind/solvers/smtinterpol/SmtInterpolSolver.java:58-62 | `define(Relation)` records one relation definition |
| Solvers.Solver.AssertTerm | jkind/src/jkind/solvers/smtinterpol/SmtInterpolSolver.java:47-50 | `assertSexp` records one assertion |
| Solvers.Solver.PushScope | jkind/src/jkind/solvers/smtinterpol/SmtInterpolSolver.java:141-144 | `push` records a push and opens one scope |
| Solvers.Solver.PopScope | jkind/src/jkind/solvers/smtinterpol/SmtInterpolSolver.java:146-149 | `pop` needs an open scope, records a pop and closes one scope |
| Solvers.Solver.CheckQuery | jkind/src/jkind/solvers/smtinterpol/SmtInterpolSolver.java:73-96 | `query` consumes one answer, returns it as `query` reports it, records it, and leaves the scope depth as it was (its own push/pop) |
| Solvers.Solver.CheckQuick | jkind/src/jkind/solvers/smtinterpol/SmtInterpolSolver.java:99-126 | `quickCheckSat` consumes one answer, returns it without a model, with a core within the literals, and records it |
| Solvers.Solver.CheckUnsatQuery | jkind/src/jkind/engines/BmcEngine.java:88 | `unsatQuery` consumes one answer, returns it with a core within the literals, and records it |
| Messages.NextDestination | jkind/src/jkind/engines/BmcBasedConsistencyChecker.java:241 | the next destination is the itinerary's head, and there is none exactly when the itinerary is used up |
| Messages.NextItinerary | jkind/src/jkind/engines/BmcBasedConsistencyChecker.java:205 | the advanced itinerary is the old one without its head |
| Messages.SettledAppend | jkind/src/jkind/engines/BmcEngine.java:114-125 | the properties that Invalid and Unknown messages settle add up over concatenated message logs |
| Messages.Director.Broadcast | jkind/src/jkind/engines/BmcBasedConsistencyChecker.java:206 | `broadcast` appends exactly one message for all engines |
| Messages.Director.ReceiveMessage | jkind/src/jkind/engines/BmcEngine.java:123-125 | `receiveMessage` appends exactly one message for the director only |
| EngineBase.OffsetVarDecls | jkind/src/jkind/engines/BmcBasedConsistencyChecker.java:261-269 | `getOffsetVarDecls(k)`: one declaration per variable, in order, of its stream at step k with its type |
| EngineBase.Symbols | jkind/src/jkind/engines/BmcBasedConsistencyChecker.java:275-276 | `getSymbols`: one symbol per declaration, in order |
| EngineBase.GetTransition | jkind/src/jkind/engines/BmcBasedConsistencyChecker.java:271-278 | `getTransition(k, init)` applies the transition relation to `init` then two blocks of one argument per variable |
| EngineBase.GetTransitionArgs | jkind/src/jkind/engines/BmcBasedConsistencyChecker.java:273-276 | the arguments are `init`, every variable at step k-1, then every variable at step k, in declaration order |
| EngineBase.DefineAll | jkind/src/jkind/engines/BmcBasedConsistencyChecker.java:249-251 | one define command per declaration, in order |
| EngineBase.ConstraintAssertsSound | jkind/src/jkind/engines/BmcBasedConsistencyChecker.java:253-258 | every constraint asserted while creating variables is the type constraint at step k of a variable whose type has one |
| EngineBase.DefineDecls | jkind/src/jkind/engines/BmcEngine.java:55-57 | the solver receives exactly the definitions of the declarations, in order |
| EngineBase.CreateVariables | jkind/src/jkind/engines/BmcBasedConsistencyChecker.java:247-259 | `createVariables(k)` defines every offset declaration, then asserts the type constraints; no answer is consumed and no scope opened |
| Bmc.FalseProperties | jkind/src/jkind/engines/BmcEngine.java:97 | the properties the model falsifies at step k: exactly the pending ones that are false there, never more occurrences than pending |
| Bmc.FalsePropertiesPartition | jkind/src/jkind/engines/BmcEngine.java:97-98 | every pending property is either reported bad or kept pending, never both or neither |
| Bmc.String2Expr | jkind/src/jkind/engines/BmcEngine.java:177-183 | `string2Expr`: one identifier expression per property name, in order |
| Bmc.String2ExprRoundTrip | jkind/src/jkind/engines/BmcEngine.java:177-183 | reading the names back out of `string2Expr`'s result gives the original list |
| Bmc.ActivationLiterals | jkind/src/jkind/engines/BmcEngine.java:44-48 | one activation literal per support unit, in order |
| Bmc.CoreNames | jkind/src/jkind/engines/BmcEngine.java:106-107 | the names recovered from a core are exactly those whose activation literal is in it |
| Bmc.BvcLines | jkind/src/jkind/engines/BmcEngine.java:194-196 | one `<BVC>` line per core name, in order |
| Bmc.BvcBlock | jkind/src/jkind/engines/BmcEngine.java:186-205 | `writeToXmlAllIvcs`: a `<Results>` block with the depth line, then the core names, then the closing tag |
| Bmc.CheckRound | jkind/src/jkind/engines/BmcEngine.java:85-111 | the `checkProperties` loop goes round again only after a SAT answer with properties still pending |
| Bmc.RoundPartition | jkind/src/jkind/engines/BmcEngine.java:85-111 | one pass keeps every pending property either pending or settled by exactly one message |
| Bmc.CheckLoopPartition | jkind/src/jkind/engines/BmcEngine.java:82-112 | over the whole loop, pending = still pending + reported Invalid or Unknown, counted with multiplicity |
| Bmc.RoundReports | jkind/src/jkind/engines/BmcEngine.java:94-104 | an Invalid message of one pass has length k+1, the invalid itinerary, and names only pending properties its model falsifies; others are Unknown; a property reported Invalid is no longer pending |
| Bmc.CheckLoopReports | jkind/src/jkind/engines/BmcEngine.java:82-112 | the same soundness holds for every message of the whole loop at depth k |
| Bmc.PropertyAsserts | jkind/src/jkind/engines/BmcEngine.java:132-141 | one assertion per property expression, each at step k, in order |
| Bmc.AfterMessage | jkind/src/jkind/engines/BmcEngine.java:158-175 | a Valid or Invalid message removes exactly the properties it names; any other message changes nothing |
| Bmc.AfterMessageIdempotent | jkind/src/jkind/engines/BmcEngine.java:158-175 | handling the same message twice is the same as once |
| Bmc.AfterBatch | jkind/src/jkind/engines/BmcEngine.java:150-175 | handling a batch of messages never adds a pending property |
| Bmc.Steps | jkind/src/jkind/engines/BmcEngine.java:66-77 | the depths announced by a run of `main` are 1, 2, …, in order |
| Bmc.MainSendsStep | jkind/src/jkind/engines/BmcEngine.java:66-77 | appending what step k sends (its reports, then BaseStep(k+1)) to what steps 0..k-1 sent keeps every message sound, extends the announced depths to 1..k+1, and keeps each Invalid message's length one more than the BaseStep messages before it |
| Bmc.LiteralDecls | jkind/src/jkind/engines/BmcEngine.java:56 | one Boolean declaration per activation literal, in order |
| Bmc.ReportsAreSends | jkind/src/jkind/engines/BmcEngine.java:114-125 | a report of step k < n is a message `main` may send: not a BaseStep message, and an Invalid one has length k+1 and names only pending properties its model falsifies at k |
| Bmc.BmcEngine.constructor | jkind/src/jkind/engines/BmcEngine.java:40-50 | the engine starts with the node's properties pending, their expressions fixed, and nothing valid or written |
| Bmc.BmcEngine.InitializeSolver | jkind/src/jkind/engines/BmcEngine.java:52-60 | defines the activation literals, then the transition relation, then `%init` |
| Bmc.BmcEngine.HandleMessage | jkind/src/jkind/engines/BmcEngine.java:150-175 | the pending list becomes `AfterMessage` of the old one, and a Valid message's properties are added to `validProperties` |
| Bmc.BmcEngine.ProcessMessages | jkind/src/jkind/engines/BmcEngine.java:150-175 | handles the next batch of messages in order and removes it from the queue |
| Bmc.BmcEngine.CheckOnce | jkind/src/jkind/engines/BmcEngine.java:85-111 | one `unsatQuery` pass: new pending list, messages, core block and recorded query as `CheckRound` gives them |
| Bmc.BmcEngine.CheckProperties | jkind/src/jkind/engines/BmcEngine.java:82-112 | `checkProperties(k)` leaves the state `CheckLoop` gives, then sends BaseStep(k+1) with the remaining properties |
| Bmc.BmcEngine.CheckUntilDone | jkind/src/jkind/engines/BmcEngine.java:83-110 | the `do ... while` of `checkProperties(k)` leaves the pending list, messages, core blocks, solver commands and answers `CheckLoop` gives |
| Bmc.BmcEngine.AssertProperties | jkind/src/jkind/engines/BmcEngine.java:127-141 | asserts every original property expression at step k |
| Bmc.BmcEngine.RunStep | jkind/src/jkind/engines/BmcEngine.java:72-76 | step k of `main`: the pending list, messages (`CheckLoop`'s reports, then BaseStep(k+1) with what is still pending), core blocks, solver commands (step-k variables, base transition k, the queries, the property assertions at k) and remaining answers are exactly those of `CheckLoop` at depth k; every report is sound about the old pending list, Invalid ones having length k+1 and naming properties their model falsifies at k |
| Bmc.BmcEngine.Run | jkind/src/jkind/engines/BmcEngine.java:63-79 | `main` stops early only when nothing is pending; otherwise it runs n steps and then sends Unknown for what is left, never a property it did not start with; the BaseStep messages announce 1..steps in order, and every Invalid message names only original properties that its model falsifies at the step it was found in (its length minus one) |
| Bmc.BmcEngine.Iterate | jkind/src/jkind/engines/BmcEngine.java:68-76 | one iteration drains a batch; it stops, sending and asking nothing, exactly when that leaves nothing pending; otherwise it is step k on the drained list, with the state `CheckLoop` gives and sound messages about the old pending list |
| Bmc.BmcEngine.SendUnknown | jkind/src/jkind/engines/BmcEngine.java:123-125 | sends exactly one Unknown message from "bmc" to the director |
| InvariantGeneration.Refined | jkind/src/jkind/engines/invariant/AbstractInvariantGenerationEngine.java:82 | `refine(model, k)` keeps exactly the clauses the model satisfies at step k, in order |
| InvariantGeneration.RefinedIdempotent | jkind/src/jkind/engines/invariant/AbstractInvariantGenerationEngine.java:82 | refining twice against the same model is refining once |
| InvariantGeneration.StructuredInvariant.constructor | jkind/src/jkind/engines/invariant/AbstractInvariantGenerationEngine.java:40 | a candidate holds the given clauses |
| InvariantGeneration.StructuredInvariant.Copy | jkind/src/jkind/engines/invariant/AbstractInvariantGenerationEngine.java:94 | `copy()` is a new object with the same clauses |
| InvariantGeneration.StructuredInvariant.Refine | jkind/src/jkind/engines/invariant/AbstractInvariantGenerationEngine.java:82 | `refine` replaces the clauses by their refinement |
| InvariantGeneration.StructuredInvariant.ReduceProven | jkind/src/jkind/engines/invariant/AbstractInvariantGenerationEngine.java:121 | `reduceProven` removes the clauses of the proven candidate |
| InvariantGeneration.InductiveQueryShape | jkind/src/jkind/engines/invariant/AbstractInvariantGenerationEngine.java:136-145 | the inductive query has exactly k hypotheses, the candidate at steps 0..k-1, and concludes the candidate at step k |
| InvariantGeneration.InductiveQueryNext | jkind/src/jkind/engines/invariant/AbstractInvariantGenerationEngine.java:136-145 | one step deeper, the old conclusion becomes the last hypothesis |
| InvariantGeneration.AfterMessage | jkind/src/jkind/engines/invariant/AbstractInvariantGenerationEngine.java:175-200 | Valid, Invalid and Unknown messages remove exactly the properties they name; the others change nothing |
| InvariantGeneration.AfterMessageIdempotent | jkind/src/jkind/engines/invariant/AbstractInvariantGenerationEngine.java:175-200 | handling the same message twice is handling it once |
| InvariantGeneration.AfterBatch | jkind/src/jkind/engines/invariant/AbstractInvariantGenerationEngine.java:129-134 | processing a batch never adds a pending property |
| InvariantGeneration.RefinePass | jkind/src/jkind/engines/invariant/AbstractInvariantGenerationEngine.java:74-87 | one round of the refinement loop goes round again only after consuming an answer, and never after stopping |
| InvariantGeneration.RefineLoopShrinks | jkind/src/jkind/engines/invariant/AbstractInvariantGenerationEngine.java:74-112 | refinement only drops clauses and pending properties |
| InvariantGeneration.RefineLoopEnds | jkind/src/jkind/engines/invariant/AbstractInvariantGenerationEngine.java:74-112 | the loop stops the engine only when nothing is pending or, in the base step, on Unknown; otherwise a non-empty candidate ended on Unsat (or Unknown in the inductive step), answered about exactly the remaining clauses |
| InvariantGeneration.InductiveUnknownKeepsCandidate | jkind/src/jkind/engines/invariant/AbstractInvariantGenerationEngine.java:102-112 | for any candidate, pending list, message queue and answer tape: once the next batch leaves something pending, an Unknown answer to the inductive query ends refinement with the whole candidate kept, one query asked and nothing stopped, while the same answer in the base step stops the engine |
| InvariantGeneration.PromoteCounts | jkind/src/jkind/engines/invariant/AbstractInvariantGenerationEngine.java:147-164 | each pending property is either still pending or promoted to valid, counted with multiplicity |
| InvariantGeneration.PromoteSound | jkind/src/jkind/engines/invariant/AbstractInvariantGenerationEngine.java:150-155 | a property is promoted only when a new invariant is exactly its name |
| InvariantGeneration.PromoteComplete | jkind/src/jkind/engines/invariant/AbstractInvariantGenerationEngine.java:150-155 | every pending property named by a new invariant is promoted |
| InvariantGeneration.InvGenSendsConcat | jkind/src/jkind/engines/invariant/AbstractInvariantGenerationEngine.java:147-173 | sound sends stay sound when concatenated |
| InvariantGeneration.InductiveAssertsAt | jkind/src/jkind/engines/invariant/AbstractInvariantGenerationEngine.java:97-100 | the inductive step asserts, for each step i of 0..k in order, the proven invariants at i and then the inductive transition into i, two commands per step |
| InvariantGeneration.BaseTransitionsAt | jkind/src/jkind/engines/invariant/AbstractInvariantGenerationEngine.java:70-72 | the base step asserts the transition into each step 0..k once, in order |
| InvariantGeneration.AnnouncedSends | jkind/src/jkind/engines/invariant/AbstractInvariantGenerationEngine.java:147-173 | publishing sends a Valid message only for properties named by a proven invariant, at a depth within the bound, then the Invariant message |
| InvariantGeneration.InvariantGenerationEngine.constructor | jkind/src/jkind/engines/invariant/AbstractInvariantGenerationEngine.java:30-35 | the engine starts with no proven invariant |
| InvariantGeneration.InvariantGenerationEngine.HandleMessage | jkind/src/jkind/engines/invariant/AbstractInvariantGenerationEngine.java:175-200 | the pending list becomes `AfterMessage` of the old one |
| InvariantGeneration.InvariantGenerationEngine.ProcessMessages | jkind/src/jkind/engines/invariant/AbstractInvariantGenerationEngine.java:175-200 | handles the next batch and removes it from the queue |
| InvariantGeneration.InvariantGenerationEngine.CheckForStop | jkind/src/jkind/engines/invariant/AbstractInvariantGenerationEngine.java:129-134 | `checkForStop` processes messages and stops exactly when no property is pending |
| InvariantGeneration.InvariantGenerationEngine.RefineOnce | jkind/src/jkind/engines/invariant/AbstractInvariantGenerationEngine.java:74-87 | one round of refinement, as `RefinePass` gives it |
| InvariantGeneration.InvariantGenerationEngine.RefineUntilDone | jkind/src/jkind/engines/invariant/AbstractInvariantGenerationEngine.java:74-112 | the whole refinement loop, as `RefineLoop` gives it |
| InvariantGeneration.InvariantGenerationEngine.AssertBaseTransitions | jkind/src/jkind/engines/invariant/AbstractInvariantGenerationEngine.java:70-72 | asserts the base transitions into steps 0..k |
| InvariantGeneration.InvariantGenerationEngine.RefineBaseStep | jkind/src/jkind/engines/invariant/AbstractInvariantGenerationEngine.java:66-90 | `refineBaseStep`: push, the base transitions, the refinement loop, and a pop unless the engine stopped inside the scope |
| InvariantGeneration.InvariantGenerationEngine.AssertInductiveSteps | jkind/src/jkind/engines/invariant/AbstractInvariantGenerationEngine.java:97-100 | asserts, for steps 0..k, the proven invariants and the inductive transition |
| InvariantGeneration.InvariantGenerationEngine.SendValidProperties | jkind/src/jkind/engines/invariant/AbstractInvariantGenerationEngine.java:147-164 | promoted properties leave the pending list and are sent in one Valid message, none when nothing is promoted |
| InvariantGeneration.InvariantGenerationEngine.SendInvariants | jkind/src/jkind/engines/invariant/AbstractInvariantGenerationEngine.java:166-173 | sends exactly one Invariant message with the new invariants |
| InvariantGeneration.InvariantGenerationEngine.RefineCopy | jkind/src/jkind/engines/invariant/AbstractInvariantGenerationEngine.java:93-114 | refines a fresh copy of the candidate in the inductive step, inside its own push/pop |
| InvariantGeneration.InvariantGenerationEngine.Publish | jkind/src/jkind/engines/invariant/AbstractInvariantGenerationEngine.java:116-119 | the new invariants join the proven ones, promoted properties leave the pending list, and the Valid and Invariant messages are sent |
| InvariantGeneration.InvariantGenerationEngine.RefineInductiveStep | jkind/src/jkind/engines/invariant/AbstractInvariantGenerationEngine.java:92-123 | `refineInductiveStep`: if not stopped, what survives is proven and published, and removed from the original candidate |
| InvariantGeneration.InvariantGenerationEngine.BaseHalf | jkind/src/jkind/engines/invariant/AbstractInvariantGenerationEngine.java:51-55 | the base half is `refineBaseStep` at the depth given: candidate, pending list, queue, answers and stop are `RefineLoop`'s in base mode, the solver sees push, the base transitions, the queries and (unless stopped) pop; nothing is sent, no pending property or proven invariant is added |
| InvariantGeneration.InvariantGenerationEngine.InductiveHalf | jkind/src/jkind/engines/invariant/AbstractInvariantGenerationEngine.java:57-58 | the inductive half is `createVariables(k)` then `refineInductiveStep(k)`: the solver sees the variables of step k, push, the inductive assertions over the invariants proven before, the queries and (unless stopped) pop; queue, answers and stop are `RefineLoop`'s in inductive mode; on a stop nothing is learned or sent and the pending list is the loop's; otherwise exactly the refined clauses are learned and dropped from the candidate, the pending list is what `Promote` leaves, and what is sent is exactly `Announced` for the promoted properties and the new invariants |
| InvariantGeneration.InvariantGenerationEngine.Step | jkind/src/jkind/engines/invariant/AbstractInvariantGenerationEngine.java:48-59 | iteration k base-checks depth k-1 and inductively refines at k what the base step left; it ends `main` exactly when the base step stopped, left the candidate trivial, or the inductive step stopped; pending list, queue, answers, messages sent and the whole solver log are those of the base loop when it ends there, otherwise those of the base loop followed by the inductive loop and `Promote`/`Announced` |
| InvariantGeneration.InvariantGenerationEngine.Run | jkind/src/jkind/engines/invariant/AbstractInvariantGenerationEngine.java:37-62 | `main` does nothing for a trivial candidate; otherwise its pending list, proven invariants, queue, answers, stop and per-round messages are exactly those of `Rounds` from step 1, so it runs at most n rounds, a stop ends it in a round that sent nothing, it never adds a pending property, only extends the proven invariants and only sends sound messages |
| InvariantGeneration.RoundShrinks | jkind/src/jkind/engines/invariant/AbstractInvariantGenerationEngine.java:48-59 | one iteration of `main` only drops pending properties and candidate clauses, and only extends the proven invariants |
| InvariantGeneration.RoundEnds | jkind/src/jkind/engines/invariant/AbstractInvariantGenerationEngine.java:48-61 | an iteration that stops the engine ends `main` and sends nothing, and it stops only when nothing is pending or the base step got Unknown; an iteration that ends `main` without a stop left the candidate trivial |
| InvariantGeneration.RoundSends | jkind/src/jkind/engines/invariant/AbstractInvariantGenerationEngine.java:48-59 | every message one iteration sends is sound: Valid only for properties named by a proven invariant, at a depth within the bound |
| InvariantGeneration.RoundsLength | jkind/src/jkind/engines/invariant/AbstractInvariantGenerationEngine.java:48 | `main` runs at most one round per step 1..n |
| InvariantGeneration.RoundsStopLast | jkind/src/jkind/engines/invariant/AbstractInvariantGenerationEngine.java:37-62 | a run that stopped ends with the round that stopped, and that round sent nothing |
| InvariantGeneration.RoundsShrink | jkind/src/jkind/engines/invariant/AbstractInvariantGenerationEngine.java:37-62 | a whole run never adds a pending property and only extends the proven invariants |
| InvariantGeneration.RoundsSends | jkind/src/jkind/engines/invariant/AbstractInvariantGenerationEngine.java:37-62 | every message of a whole run is sound |
| InvariantGeneration.InvariantGenerationEngine.Round | jkind/src/jkind/engines/invariant/AbstractInvariantGenerationEngine.java:48-59 | one iteration of `main`, stated as `RoundOf`: the candidate, pending list, queue, answers and proven invariants it leaves, what it sends, whether it stops and whether it ends `main` are exactly those of `RoundOf` for the state it starts in |
| InvariantGeneration.InvariantGenerationEngine.RunSteps | jkind/src/jkind/engines/invariant/AbstractInvariantGenerationEngine.java:48-61 | the loop of `main` with its consequences: the state is `Rounds`' from step 1, at most n rounds run, a stop ends the run in a silent round, no pending property is added, proven invariants only grow, and every message is sound |
| InvariantGeneration.InvariantGenerationEngine.RunRounds | jkind/src/jkind/engines/invariant/AbstractInvariantGenerationEngine.java:48-61 | the loop of `main` computes exactly `Rounds` from step 1: final state, per-round messages and stop |
| ConsistencyChecker.RemoveAssertions | jkind/src/jkind/engines/BmcBasedConsistencyChecker.java:101-109 | keeps exactly the assertions whose printed form is in the IVC, in order |
| ConsistencyChecker.DependencyNames | jkind/src/jkind/engines/BmcBasedConsistencyChecker.java:113-122 | exactly the names some IVC element depends on |
| ConsistencyChecker.KeepEquations | jkind/src/jkind/engines/BmcBasedConsistencyChecker.java:123-130 | keeps exactly the equations whose left side is in the IVC or a dependency name, in order |
| ConsistencyChecker.RemoveEquations | jkind/src/jkind/engines/BmcBasedConsistencyChecker.java:111-131 | `removeEquations`: an equation is kept iff its left side is in the IVC or depended on by it, in order |
| ConsistencyChecker.LeftIds | jkind/src/jkind/engines/BmcBasedConsistencyChecker.java:135-138 | exactly the names the equations define |
| ConsistencyChecker.KeepDefined | jkind/src/jkind/engines/BmcBasedConsistencyChecker.java:139-143 | keeps exactly the variables whose name is in the list, in order |
| ConsistencyChecker.RemoveVariable | jkind/src/jkind/engines/BmcBasedConsistencyChecker.java:133-145 | `removeVariable`: a variable is kept iff some kept equation defines it, in order |
| ConsistencyChecker.OverApproximateKeeps | jkind/src/jkind/engines/BmcBasedConsistencyChecker.java:87-99 | the over-approximated node has exactly one property, keeps name, inputs and support, and keeps exactly the equations, locals, outputs and assertions above, each as a subsequence |
| ConsistencyChecker.GetAllAssigned | jkind/src/jkind/engines/BmcBasedConsistencyChecker.java:193-198 | the locals' names then the outputs' names, in order |
| ConsistencyChecker.FindRightSide | jkind/src/jkind/engines/BmcBasedConsistencyChecker.java:180-191 | `findRightSide` gives null exactly when no equation defines the name |
| ConsistencyChecker.FindRightSideFirst | jkind/src/jkind/engines/BmcBasedConsistencyChecker.java:181-188 | the answer comes from the first equation defining the name: the asserted expression for an added assertion equation, the name otherwise |
| ConsistencyChecker.Forwarded | jkind/src/jkind/engines/BmcBasedConsistencyChecker.java:204-207 | the forwarded Valid message names one property and keeps source, k, invariants and IVC, with the itinerary advanced by one hop |
| ConsistencyChecker.UnrollFound | jkind/src/jkind/engines/BmcBasedConsistencyChecker.java:153-169 | an inconsistency is found only at a depth below `n`, with a core within the activation literals |
| ConsistencyChecker.NoPropertyInCreate | jkind/src/jkind/engines/BmcBasedConsistencyChecker.java:247-259 | creating variables never asserts a property |
| ConsistencyChecker.UnrollAssumes | jkind/src/jkind/engines/BmcBasedConsistencyChecker.java:153-171 | the property is asserted at step j exactly for the depths passed without an unsat core |
| ConsistencyChecker.CoreLines | jkind/src/jkind/engines/BmcBasedConsistencyChecker.java:163-165 | one console line per core element, with its right side or "null" |
| ConsistencyChecker.CoreNamesDefined | jkind/src/jkind/engines/BmcBasedConsistencyChecker.java:71-73 | every support name of the local node is defined by one of its equations, so the report never prints "null" for it |
| ConsistencyChecker.ClaimCounts | jkind/src/jkind/engines/BmcBasedConsistencyChecker.java:61-62 | each pending property is either still pending or checked, counted with multiplicity |
| ConsistencyChecker.ClaimExact | jkind/src/jkind/engines/BmcBasedConsistencyChecker.java:61-62 | a property is checked only if the message names it, and every named pending property is checked |
| ConsistencyChecker.Forwards | jkind/src/jkind/engines/BmcBasedConsistencyChecker.java:167-177 | one forwarded Valid message per checked property, in order |
| ConsistencyChecker.CheckAllClaims | jkind/src/jkind/engines/BmcBasedConsistencyChecker.java:60-85 | `check` leaves pending what was not claimed and sends exactly one forwarded Valid message per checked property, nothing else |
| ConsistencyChecker.HandleForwardsOnly | jkind/src/jkind/engines/BmcBasedConsistencyChecker.java:209-245 | handling any message sends only Valid messages and never adds a pending property |
| ConsistencyChecker.HandleBatchKeeps | jkind/src/jkind/engines/BmcBasedConsistencyChecker.java:209-245 | a batch of messages sends only Valid messages and never adds a pending property |
| ConsistencyChecker.DrainKeeps | jkind/src/jkind/engines/BmcBasedConsistencyChecker.java:55-58 | a whole run sends only Valid messages and never adds a pending property |
| ConsistencyChecker.Checker.constructor | jkind/src/jkind/engines/BmcBasedConsistencyChecker.java:44-46 | the checker starts with the node's properties pending and an empty console |
| ConsistencyChecker.Checker.CheckDepth | jkind/src/jkind/engines/BmcBasedConsistencyChecker.java:155-157 | creates variables at k, asserts the base transition, and records one `quickCheckSat` |
| ConsistencyChecker.Checker.UnrollDepths | jkind/src/jkind/engines/BmcBasedConsistencyChecker.java:153-171 | the depth loop of `checkConsistency`, as `Unroll` gives it |
| ConsistencyChecker.Checker.PrintCore | jkind/src/jkind/engines/BmcBasedConsistencyChecker.java:163-165 | prints the core lines |
| ConsistencyChecker.Checker.PrintReport | jkind/src/jkind/engines/BmcBasedConsistencyChecker.java:158-176 | prints the inconsistency report, or the no-inconsistency report at depth `n` |
| ConsistencyChecker.Checker.SendValid | jkind/src/jkind/engines/BmcBasedConsistencyChecker.java:204-207 | broadcasts exactly the forwarded message |
| ConsistencyChecker.Checker.CheckConsistency | jkind/src/jkind/engines/BmcBasedConsistencyChecker.java:151-178 | creates variables at -1, unrolls, prints the report and forwards the message once, whatever the outcome |
| ConsistencyChecker.Checker.Declare | jkind/src/jkind/engines/BmcBasedConsistencyChecker.java:75-80 | defines the activation literals, the relation and `%init` |
| ConsistencyChecker.Checker.CheckOne | jkind/src/jkind/engines/BmcBasedConsistencyChecker.java:63-82 | one property's check, between a push and a pop |
| ConsistencyChecker.Checker.Check | jkind/src/jkind/engines/BmcBasedConsistencyChecker.java:60-85 | `check` as `CheckAll` gives it, with push and pop balanced |
| ConsistencyChecker.Checker.HandleMessage | jkind/src/jkind/engines/BmcBasedConsistencyChecker.java:209-245 | only a Valid message whose next destination is this checker is checked; every other message changes nothing |
| ConsistencyChecker.Checker.ProcessMessages | jkind/src/jkind/engines/BmcBasedConsistencyChecker.java:209-245 | handles the next batch and removes it from the queue |
| ConsistencyChecker.Checker.Run | jkind/src/jkind/engines/BmcBasedConsistencyChecker.java:55-58 | `main` processes batches until nothing is pending or the queue runs out |
| Writers.Escape | jkind/src/jkind/writers/XmlWriter.java:95-97 | the escaped text has no '<' or '>', and adds no characters other than those of `&lt;` and `&gt;` |
| Writers.EscapeConcat | jkind/src/jkind/writers/XmlWriter.java:95-97 | escaping works character by character |
| Writers.EscapeOne | jkind/src/jkind/writers/XmlWriter.java:95-97 | only '<' and '>' change: to `&lt;` and `&gt;` |
| Writers.EscapeKeeps | jkind/src/jkind/writers/XmlWriter.java:95-97 | text without '<' or '>' is unchanged, including '&' and quotes |
| Writers.FormatValueBits | jkind/src/jkind/writers/XmlWriter.java:162-177 | Booleans and Boolean intervals print as 1 or 0, and 1 exactly when true |
| Writers.FormatIntervalElement | jkind/src/jkind/writers/XmlWriter.java:167-170 | a numeric interval prints as an `Interval` element |
| Writers.Tagged | jkind/src/jkind/writers/XmlWriter.java:64-69 | one line per item, wrapped in the tags, in order |
| Writers.ShownTimes | jkind/src/jkind/writers/XmlWriter.java:149-154 | the times shown are exactly those below k with a non-arbitrary value, in increasing order |
| Writers.ValueLinesShown | jkind/src/jkind/writers/XmlWriter.java:145-156 | the value lines of a signal are one per shown time, in order |
| Writers.IvcSetsNumbered | jkind/src/jkind/writers/XmlWriter.java:72-88 | IVC set i is written as block number first+i, between the earlier and later sets |
| Writers.ValidBodyShape | jkind/src/jkind/writers/XmlWriter.java:63-89 | with no IVC sets: Invariant lines then Ivc lines; otherwise NumberOfIVCs with the set count, MustElem lines, then the sets numbered from 1 |
| Writers.ValidListInOrder | jkind/src/jkind/writers/XmlWriter.java:48-54 | the list form writes one Property block per property, in order |
| Writers.ConflictLinesShape | jkind/src/jkind/writers/XmlWriter.java:112-122 | no conflicts give no lines; otherwise one line per conflict inside the `Conflicts` wrapper |
| Writers.UnknownShape | jkind/src/jkind/writers/XmlWriter.java:124-135 | an unknown result always has TrueFor, and has K and the counterexample only when there is one |
| Writers.ConsistencyShape | jkind/src/jkind/writers/XmlWriter.java:207-232 | CONSISTENT writes nothing and is the only case that does; the CEX block's closing tag does not match its opening tag |
| Writers.XmlWriter.constructor | jkind/src/jkind/writers/XmlWriter.java:26-34 | the writer starts with no output |
| Writers.XmlWriter.WriteTagged | jkind/src/jkind/writers/XmlWriter.java:64-69 | writes the tagged lines |
| Writers.XmlWriter.WriteValid | jkind/src/jkind/writers/XmlWriter.java:56-93 | writes the valid Property block |
| Writers.XmlWriter.WriteIvcSets | jkind/src/jkind/writers/XmlWriter.java:72-88 | writes the IVC sets numbered from 1 |
| Writers.XmlWriter.WriteIvcSet | jkind/src/jkind/writers/XmlWriter.java:79-86 | writes one numbered IVC set block |
| Writers.XmlWriter.WriteValidList | jkind/src/jkind/writers/XmlWriter.java:48-54 | writes one Property block per property |
| Writers.XmlWriter.WriteSignal | jkind/src/jkind/writers/XmlWriter.java:145-156 | writes the signal header, its shown values and the closing tag |
| Writers.XmlWriter.WriteSignals | jkind/src/jkind/writers/XmlWriter.java:139-141 | writes every signal, in order |
| Writers.XmlWriter.WriteCounterexample | jkind/src/jkind/writers/XmlWriter.java:137-143 | writes the counterexample block |
| Writers.XmlWriter.WriteConflicts | jkind/src/jkind/writers/XmlWriter.java:112-122 | writes the conflicts block |
| Writers.XmlWriter.WriteInvalid | jkind/src/jkind/writers/XmlWriter.java:99-110 | writes the falsifiable Property block |
| Writers.XmlWriter.WriteUnknown | jkind/src/jkind/writers/XmlWriter.java:124-135 | writes the unknown Property block |
| Writers.XmlWriter.WriteUnknownList | jkind/src/jkind/writers/XmlWriter.java:179-185 | writes one unknown block per property with its counterexample, if any |
| Writers.XmlWriter.WriteBaseStep | jkind/src/jkind/writers/XmlWriter.java:187-195 | writes the Progress block |
| Writers.XmlWriter.WriteInconsistent | jkind/src/jkind/writers/XmlWriter.java:197-205 | writes the inconsistent Property block |
| Writers.XmlWriter.WriteConsistencyCheckerResults | jkind/src/jkind/writers/XmlWriter.java:207-232 | writes the result's lines; with an empty counterexample list it fails after the opening line |
| Writers.XmlWriter.WriteInconsistencies | jkind/src/jkind/writers/XmlWriter.java:214-220 | writes the Inconsistencies block |
| Writers.XmlWriter.WriteInconsistencyCounterexample | jkind/src/jkind/writers/XmlWriter.java:222-229 | writes the counterexample variant with its literal closing tag |

## Left out

- The SMT backend is an answer tape. The model does not decide satisfiability; it records
  what each engine asks and follows the answers given. SMTInterpol's `Script` API and
  term conversion are not modelled.
- The director's routing between engines, threads and timing are not modelled. Sending
  is an append to the director's log, and incoming messages are a queue of batches.
- Comments sent to the solver (`comment(...)`) are not recorded.
- `SolverBasedEngine` is not part of this model. `createVariables`, the base transition
  and the inductive transition follow the checker's override (`getOffsetVarDecls`,
  `getTransition`) for every engine.
- `Lustre2Sexp` and `StreamIndex` encodings are symbolic stand-ins: an expression at a
  step, and a stream symbol.
- The transition relation's body and `Specification` slicing (`noSlicing`) are not
  modelled; only the relation's name is.
- `MiniJKind` is not part of this model; its equation-name marker is a parameter.
- `StructuredInvariant` is a flat list of clauses; `toFinalInvariants` is taken to be
  that list, and `ModelEvaluator` reads a clause's value in the model at its stream at
  step k. `InvariantSet` is a sequence.
- Console, file and XML output are sequences of lines; runtimes (doubles) are given as
  already-printed strings.
- Sets (`Set<String>` of IVCs, cores, conflicts) are iterated in sequence order.
- The checker ignores Invalid, Unknown and other messages, so its `main` also ends when
  the message queue runs out.
- `createConditional` in `BmcEngine` is never called and is not modelled.
- `validPropsExpr` in `BmcEngine` is written but never read, and is not modelled.
- Bmc.BmcEngine.AssertProperties: asserts every original property, including those
  already proven or falsified, exactly as the source does.
- Writers.FormatValue: the printed forms of infinite interval endpoints ("-inf", "inf")
  and of other values are assumed; Boolean intervals count as true when both ends are.
- Writers.XmlWriter.WriteSignal: a missing signal value counts as arbitrary and is skipped.
- `begin` and `end` of `XmlWriter` (the enclosing `<Results>` element) are not modelled.
- Writers.XmlWriter.WriteConsistencyCheckerResults: with an empty counterexample list the
  source throws after the opening line; the model returns `failed` instead.

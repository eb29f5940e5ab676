# Verified model of the Aezab agent server's engines

Aezab is an agent server: it answers messages with language models, tools and workflows. Its hard
logic sits in a few small engines with real state. This project models them in Dafny and proves what
they keep over every run.

| engine | files | main results |
|---|---|---|
| Workflow validator and executor | `Workflows`, `AutomaticCycles`, `Decisions`, `WorkflowValidation`, `WorkflowSemantics`, `WorkflowExecution`, `WorkflowSoundness`, `DecisionSafety`, `ConfigurationFaults`, `WorkflowInvariants`, `WorkflowLaws`, `WorkflowTurns`, `WorkflowRoutes`, `DecisionInputs`, `WorkflowLimits` | An accepted definition with A automatic steps makes at most A + 2 step visits a turn, and the depth guard stays silent exactly when A is at most 19. Rejected decisions reach safe steps and cause no external call. Every gated tool call is the direct reply, an explicit affirmative, to the gate of that very step, heard by that step with the data it had shown. Over all turns a confirmation is passed on an explicit affirmative only, and a refusal undoes the form before it exactly when that form made at most four visits. What a visit to each type of step does, stated by its route, its values, its calls and its deliveries. Exactly which accepted definitions can fail for their configuration, which can meet a step the executor does not know, which of their rules can be taken, and which fields can appear in their data. |
| Rolling summary | `Json`, `SummaryPrompts`, `SummaryProtocol`, `SummaryLineage`, `SummaryRequests` | Under any interleaving of turns and any number of folds the summary stands for exactly the rows below the watermark, and summary and history together hold each row once. The summary is the last of a chain of model answers, each asked for with the text of the one before and with exactly the next rows. |
| Context budget and tool loop | `ContextBudget`, `Conversation` | Trimming fits the budget whenever anything it may send does, keeps the longest recent suffix, keeps every tool call answered, and cuts tool results no more than needed; each list of the tool loop ends with the round before it, which shows the model what each call gave. |
| Request guard and `/invoke` | `SessionLocks`, `IdempotencyCache`, `CacheEviction`, `InvokeProtocol`, `InvokeAnswers` | One lock object and one holder per session; exactly when a valid response is missing from the cache; under one lock at most one run per idempotency key until its response expires or is crowded out; every replayed answer was given by the pipeline, fit to be cached, for the same tenant and key. |
| Text and streams | `Squeezing`, `SentenceBoundaries`, `Chunker`, `ChunkerConservation`, `ChunkerLimits`, `ChunkerPacking`, `JsonReader`, `Sse`, `FunctionNames`, `FunctionSpelling` | The chunker loses no text exactly when chunks are at least 50 long and the overlap is not 1, and packs paragraphs and lines: a new chunk starts only where the next part would not have fitted. For the same settings, and no others, the spans of every long line cover it. The widget parses any chunking of the printed stream into the printed events, whose payloads read back as the data sent. Function names are short, distinct and spell the words of the name given. |
| Rate limiter | `RateLimiter` | The purged windows decide like a full request log, and a rejected caller is admitted after exactly as many whole seconds as announced. |

`Text` holds the parts of Python's strings the engines rely on, `Confirmations` the reader of replies and which texts it takes for an affirmative or a refusal.

## How the model is built

Code that updates state in place is a class or a method with loops (`Search`, `Executor`,
`SessionStore`, `LockTable`, `ResponseCache`, `NameTable`, `Widget`, `Limiter`, the chunker, the
trimmer, the validators). Each is proved equal to, or to satisfy, a specification on values, and the
theorems about runs are lemmas about that specification. What the server cannot decide itself is a
parameter the theorems quantify over: the answers of tools, forms, webhooks, conditions, models and
word segmenters, the interleaving of callers and folds, the times at which requests arrive.

The executor is described by one visit to a step (`WorkflowSemantics.Visit`), which either stops the
turn or leaves the session at another step to go on from; `Run` chains visits as the mutual recursion
of the source does, and `TurnTaken` is one message of the requester. A log records visits, gate
displays, judgements, tool calls, webhook calls and the start of each turn.

## What the code does beside its documentation

- `_recursive_split` loses text when the overlap is 1 or chunks are shorter than 50: the window used to
  align the next start then reaches past the end of the span, or the cut falls before its start. The
  upload form allows overlap 1. The exact condition is proved (`NothingIsLostExactly`).
- The fallback in `_fold_session_summary` for a first row that does not fit (lines 181-182) is never
  taken, because a single row is always shrunk until it fits (`SelectBatch`).
- A step whose type is empty passes validation, which reads it as a form, and cannot be executed
  (`BlankTypeIsNotRun`). An accepted workflow can meet a step the executor does not know if and only
  if some step's type is empty (`UnknownTypeExactly`).
- Validation strips names where it lists targets but not where it looks them up, and the executor does
  not strip them: a route to a name written with surrounding blanks passes and fails at run time
  (`UntrimmedNameMisroutes`). An accepted workflow with distinct ids can fail for its configuration if
  and only if a form, confirmation, gated tool or review has a rule, not shadowed by an earlier rule
  with the same condition, whose target is not found, or a gated tool has a fallback that is not
  (`MisroutesExactly`); with trimmed names none can (`AcceptedNeverMisroutes`).
- The same blank before the name of a target of an automatic step ends validation itself in a failed
  look-up instead of a message (`UntrimmedNameBreaksOff`).
- Validation lets a decision depend on any field that some step declares, forms or not. In an accepted
  workflow a field can appear in the data if and only if a form asks for it or a tool call, a decision
  or a webhook stores it (`FieldsAppearExactly`); a decision with an input that no step stores is
  accepted in no run (`UnfedDecisionsAreRejected`, witness `AcceptedButNeverDecided`).
- The same idempotency key sent with two different sessions can run the pipeline twice at once, since
  the lock is the session's; under one lock it cannot (`OverlapExactlyWithDifferentLocks`).
- `_resolve_step_target` is documented to take a name or an order number; the code looks for an id first,
  as the validator's table does (`ResolversAgree`).
- A refused confirmation is meant to return to the form before it. Only the last five snapshots are kept,
  so it does if and only if that form and the automatic steps behind it made at most four visits;
  otherwise nothing but the log changes (`RefusalUndoesForm`).
- The comment in `truncate_text` speaks of a proportional approximation; the code is a binary search
  and finds the longest prefix that fits (`LongestPrefix`).

## Model

| member | source | states |
|---|---|---|
| Text.ParseIntOfIntText | server/engine/workflow_executor.py:1038-1045 | reading a number back from its decimal text gives the number, for every integer; the resolvers of order numbers rest on it |
| Confirmations.RefusalsExactly | server/engine/workflow_executor.py:55-64 | a reply is read as a refusal if and only if it contains a refusing part or is a refusing word, up to case, blanks around it and marks behind it; an affirmative word beside it does not matter |
| Confirmations.AffirmativesExactly | server/engine/workflow_executor.py:55-64 | a reply is read as an affirmative if and only if it is an affirmative word in any case, with any blanks around it and marks behind it |
| Confirmations.SilenceIsNoIntent | server/engine/workflow_executor.py:55-64 | an empty reply neither affirms nor refuses, so a step entered without a message cannot open a gate |
| Workflows.OrderedIsSortedPermutation | server/engine/workflow_executor.py:140-144 | the executor's step list is the definition's steps, each as often, by ascending order |
| Workflows.ResolversAgree | server/api/workflows.py:361-366 | the validator's reference table (id over name over order) and the executor's search (id, then name, then order) find the same step for every target the table lists |
| AutomaticCycles.ClearedIsAcyclic | server/api/workflows.py:380-392 | a depth-first order in which every successor comes earlier rules out any cycle |
| AutomaticCycles.AcyclicPathsAreShort | server/api/workflows.py:350-394 | in a closed acyclic graph a path visits each node at most once, so it is no longer than the graph |
| AutomaticCycles.Search.Visit | server/api/workflows.py:380-391 | the recursive search terminates, keeps its visiting and visited sets consistent and reports a cycle only with a path that closes one |
| AutomaticCycles.Search.FindsCycle | server/api/workflows.py:377-394 | the search reports a cycle if and only if the graph has one, whatever order sets are iterated in |
| Decisions.AcceptedChoiceIsDecisive | server/engine/decision_service.py:24-63 | an accepted decision names a configured choice other than "other", no other choice is more probable, and above an even threshold no other choice reaches it |
| WorkflowValidation.ValidateNextStepRules | server/api/workflows.py:170-224 | the rule check adds no problem exactly when every rule has a target that validation lists and default rules stand last and alone |
| WorkflowValidation.ValidateIdentity | server/api/workflows.py:266-287 | the identity check adds no problem exactly when the step's name is not blank, its order not negative, and no earlier step has the same trimmed name or the same order |
| WorkflowValidation.ValidateRouting | server/api/workflows.py:297-343 | the routing check adds no problem exactly when the type is known or empty and fallback, tool and rules are as execution needs them |
| WorkflowValidation.ValidateDecision | server/api/workflows.py:312-334 | the decision check adds no problem exactly when the configuration is valid and the fallback names a safe step |
| WorkflowValidation.FillReferences | server/api/workflows.py:361-366 | the filled table maps exactly the known references, each to the step they resolve to |
| WorkflowValidation.ValidateAutomaticCycles | server/api/workflows.py:350-394 | the cycle check passes exactly when all routes of automatic steps are known and their graph is acyclic, and breaks off exactly on an unknown route |
| WorkflowValidation.ValidateWorkflowSteps | server/api/workflows.py:227-347 | validation reports nothing if and only if the definition is `Accepted`, and breaks off if and only if all step checks pass and a route of an automatic step is not in the table |
| WorkflowExecution.EvaluateRules | server/engine/rule_evaluator.py:15-46 | the loop returns the target of the first rule that matches, the default where one stands |
| WorkflowExecution.Executor.ResolveStepTarget | server/engine/workflow_executor.py:1019-1048 | the three searches return what `Resolve` does |
| WorkflowExecution.Executor.PerformRollback | server/engine/workflow_executor.py:1050-1097 | popping snapshots in place restores the latest earlier form with fields, its data and its index, and clears the gate; without one the session stays and the turn says so |
| WorkflowExecution.Executor.EnterStep | server/engine/workflow_executor.py:994-1017 | entering a step sets index and status and goes on at once exactly into steps that run by themselves |
| WorkflowExecution.Executor.Advance | server/engine/workflow_executor.py:929-992 | a session leaves a step for the target of the first matching rule, else for the next in order, fails on a target that is not found and ends behind the last step |
| WorkflowExecution.Executor.FollowFallback | server/engine/workflow_executor.py:701-716 | the fallback is followed if it is found, and for a decision only if it is a safe step |
| WorkflowExecution.Executor.HandleToolFailure | server/engine/workflow_executor.py:612-656 | a failed call takes the first of fallback, skip, escalation, rollback and error that applies |
| WorkflowExecution.Executor.HandleToolGate | server/engine/workflow_executor.py:200-224 | a gated tool runs only on an affirmative while its own gate is pending, rolls back on a refusal and otherwise shows its gate again |
| WorkflowExecution.Executor.DeliverCompleteWebhook | server/engine/workflow_executor.py:855-927 | the retry loop makes at most four deliveries, stops at the first success and records the outcome |
| WorkflowExecution.Executor.HandleComplete | server/engine/workflow_executor.py:790-853 | the final step ends the workflow, or keeps it for a retry exactly when no delivery succeeded |
| WorkflowExecution.Executor.TakeSnapshot | server/engine/workflow_executor.py:180-193 | one snapshot a visit, none beside one of the same step, at most five kept |
| WorkflowExecution.Executor.ProcessStep | server/engine/workflow_executor.py:146-234 | the mutual recursion of the methods ends, in exactly the state, log and answer of the chain of visits that the theorems about runs are about |
| WorkflowExecution.Executor.ResumeAfterReview | server/engine/workflow_executor.py:771-788 | the turn that leaves a review step goes on behind it, and without a workflow it fails and changes nothing; the result is `Resumed` |
| WorkflowExecution.Executor.TakeTurn | server/engine/agent_runtime.py:1883-1963 | one message in whatever state the session is in, leaving, retrying and resuming included, changes it as `TurnTaken`, the step of the theorems about all turns |
| WorkflowSoundness.AutomaticMoveIsAnEdge | server/engine/workflow_executor.py:929-1017 | from an automatic step the executor goes on only along an edge of the validator's graph |
| WorkflowSoundness.AutoAdvanceIsBounded | server/engine/workflow_executor.py:157-161 | an accepted definition with A automatic steps makes at most A + 2 visits a turn from any session, whatever is answered |
| WorkflowSoundness.DepthErrorTakesAllCalls | server/engine/workflow_executor.py:157-161 | the depth error is reported only after all 22 visits were attempted |
| WorkflowSoundness.DepthGuardUnreachable | server/engine/workflow_executor.py:157-161 | with at most 19 automatic steps no turn of an accepted definition ends in the depth error |
| WorkflowSoundness.DepthGuardUnreachableAfterReview | server/engine/workflow_executor.py:771-788 | nor does the turn that resumes after a review |
| WorkflowLimits.DepthBoundIsExact | server/engine/workflow_executor.py:157-161 | for each A, the depth guard is silent for all accepted definitions with A automatic steps if and only if A is at most 19 |
| WorkflowLimits.UntrimmedNameMisroutes | server/api/workflows.py:240-250 | for every word-like t, a definition that routes to t where only a step " t" exists is accepted and fails at run time |
| WorkflowLimits.UntrimmedNameBreaksOff | server/api/workflows.py:361-376 | for every such t the same route out of an automatic step passes all step checks, and the cycle check then looks up a reference that is not in the table |
| WorkflowLimits.BlankTypeIsNotRun | server/api/workflows.py:281-283 | the witness: a definition with an empty step type is accepted and the executor refuses the step |
| DecisionSafety.ReferenceIsOrderBlind | server/api/workflows.py:361-366 | looking a target up in the definition and in the ordered list finds the same step |
| DecisionSafety.DecisionFallbackIsSafe | server/api/workflows.py:308-334 | the failure route of every decision of an accepted definition resolves at run time to a safe step |
| DecisionSafety.RejectedDecisionIsSafe | server/engine/workflow_executor.py:658-716 | after a rejected or failed decision the result key is absent, the session is at a safe step, no tool or webhook call follows in the turn, and the unsafe-fallback error does not occur |
| ConfigurationFaults.KnownUnlessTrimmed | server/api/workflows.py:240-250 | a target that validation lists is found at run time, or is the trimmed form of an untrimmed name |
| ConfigurationFaults.TrimmedNamesMakeRoutesKnown | server/api/workflows.py:361-376 | with trimmed names every route of an accepted step is known to the cycle check |
| ConfigurationFaults.AcceptedNeverMisroutes | server/engine/workflow_executor.py:929-1017 | with trimmed names and distinct ids no run of an accepted definition and no turn that leaves a review fails for its configuration |
| ConfigurationFaults.RunIsConfigured | server/engine/workflow_executor.py:929-1017 | without a lost route no run from any session, whatever is answered, ends in a bad branch, a missing or unsafe fallback or a bad decision configuration |
| ConfigurationFaults.ResumptionIsConfigured | server/engine/workflow_executor.py:771-788 | nor does the turn that leaves a review step |
| ConfigurationFaults.MisroutesExactly | server/engine/workflow_executor.py:929-1017 | an accepted definition with distinct ids can fail for its configuration, in a run or on leaving a review, if and only if a form, confirmation, gated tool or review has an unshadowed rule whose target is not found or a gated tool has such a fallback |
| ConfigurationFaults.UnknownTypeExactly | server/engine/workflow_executor.py:225-234 | an accepted definition can meet a step the executor does not know if and only if some step has an empty type |
| WorkflowInvariants.BackToRefillableIsLongest | server/engine/workflow_executor.py:1065-1074 | popping stops at the latest snapshot of another form with fields |
| WorkflowInvariants.RollbackRestoresAVisit | server/engine/workflow_executor.py:1050-1097 | a successful rollback lands on an earlier form other than the current step, restores the data of a logged visit, keeps a prefix of the snapshots and only skipped unusable ones, clears the gate and calls nothing; a failed one changes nothing and had no usable snapshot |
| WorkflowInvariants.VisitKeepsSound | server/engine/workflow_executor.py:146-234 | every visit keeps gates honoured, the pending confirmation at the current step, the snapshots and the status sound |
| WorkflowInvariants.RunsAreSound | server/engine/workflow_executor.py:146-234 | so does every sequence of turns: at most five snapshots, neighbours at different steps, each the data of a logged visit, and between turns a pending gate is the last thing logged |
| WorkflowInvariants.GatedCallsAreConfirmed | server/engine/workflow_executor.py:200-224 | in every run each call of a gated tool directly follows: a visit to that step, its gate, a turn whose text is an affirmative word up to case, blanks and marks (`Affirms`), and a visit to that step with the same data; so no reply to another step and no later reply opens a gate |
| WorkflowInvariants.RunsLogIntents | server/engine/workflow_executor.py:55-64 | each turn is read by its own text only |
| WorkflowInvariants.RejectionsAreQuiet | server/engine/workflow_executor.py:658-716 | over all turns of an accepted workflow no external call follows a rejected decision before the next turn |
| WorkflowLaws.FirstMatchIsFirst | server/engine/rule_evaluator.py:15-46 | the target found is that of the first rule whose condition holds or that has none, and there is none if no rule matches |
| WorkflowLaws.AdvanceTakesItsRoute | server/engine/workflow_executor.py:929-1017 | a session goes to the target of the first matching rule, without one to the next step in order, with its data and log as they were; it ends behind the last step, waits at a step that asks for input and goes on into any other |
| WorkflowLaws.RollbackGoesBack | server/engine/workflow_executor.py:1050-1097 | the session goes back to the latest recorded form other than this step, with the data recorded there and the snapshots up to it; without one nothing changes |
| WorkflowLaws.ArrivalIsRecorded | server/engine/workflow_executor.py:180-193 | a visit makes step and data the latest of at most five snapshots, unless the latest already is of this step, and changes nothing else |
| WorkflowLaws.ConfirmationVisit | server/engine/workflow_executor.py:718-733 | a confirmation takes its route on an affirmative, goes back on a refusal, and on any other reply stays and asks again |
| WorkflowLaws.FormVisit | server/engine/workflow_executor.py:236-347 | a form takes over exactly the submitted values of its fields, removes the dropped ones and changes no other, and is left exactly when it is complete |
| WorkflowLaws.CheckVisit | server/engine/workflow_executor.py:528-550 | a check is passed exactly when its rules hold; otherwise the fallback, then the failure action decide |
| WorkflowLaws.ToolVisit | server/engine/workflow_executor.py:200-224 | a tool without a gate is called at once, a gated one on an affirmative while its own gate is pending; its result is stored under the step and its mapped fields before the route is chosen, a failure takes the first failure action that applies, and any other reply shows the gate |
| WorkflowLaws.DecisionVisit | server/engine/workflow_executor.py:658-699 | a decision takes its route with the choice stored if and only if every input is present and the answer is a complete distribution whose choice is not "other", is not beaten and reaches both thresholds; else the result key is removed and the fallback taken |
| WorkflowLaws.ReviewVisit | server/engine/workflow_executor.py:735-769 | a review step pauses the workflow and notifies, and changes nothing else |
| WorkflowLaws.DeliveryStopsAtSuccess | server/engine/workflow_executor.py:855-927 | the deliveries stop at the first success, and fail exactly when every attempt did |
| WorkflowLaws.EndVisit | server/engine/workflow_executor.py:790-853 | a final step without a webhook ends the workflow; with one it ends it if one of at most four deliveries succeeds and is kept for a retry otherwise, with the outcome recorded |
| WorkflowTurns.UnclearReplyAsksAgain | server/engine/workflow_executor.py:718-733 | at a confirmation a message that neither affirms nor refuses leaves step, data and gate as they were, answers with a question and logs nothing but the message and the visit |
| WorkflowTurns.RefusalGoesBack | server/engine/workflow_executor.py:718-733 | at a confirmation a refusal restores an earlier form with the data of a logged visit, or changes nothing but the log |
| WorkflowTurns.ConfirmationsNeedAnAffirmative | server/engine/workflow_executor.py:718-733 | after any turns: a message to a session at a confirmation is an explicit affirmative, or changes nothing but the log, or is a refusal that restores an earlier form |
| WorkflowTurns.RefusalUndoesForm | server/engine/workflow_executor.py:180-193 | in an accepted workflow: where a message to a form led to a confirmation and the next is a refusal, the session is back at that form with the data it had on arrival if that turn made at most four visits, and otherwise only the log grew |
| WorkflowTurns.StartIsClean | server/engine/agent_runtime.py:1440-1465 | a workflow starts at its first step with no data of an earlier one, and reads the message it was started with |
| WorkflowTurns.MessageReachesItsStep | server/engine/agent_runtime.py:1883-1963 | a message is heard by the step the session is at, with the data it has |
| WorkflowTurns.OtherMessagesCallNothing | server/engine/agent_runtime.py:1883-1963 | leaving cancels the workflow and clears its data; a message to a paused one that does not resume it, or to one kept for a retry that does not ask for it, changes nothing, and a message after the end only forgets the workflow |
| WorkflowTurns.ResumingTakesTheRoute | server/engine/workflow_executor.py:771-788 | resuming after a review takes the route of the review step |
| WorkflowTurns.EndedWorkflowIsCleared | server/engine/agent_runtime.py:1883-1963 | a turn that ends the workflow clears it and its data, and any other keeps them |
| WorkflowRoutes.StepsAreToldApart | server/api/workflows.py:266-287 | in an accepted workflow the steps run in strictly ascending order, from zero on, and no two have the same name, blanks around it aside |
| WorkflowRoutes.RulesCanBeTakenExactly | server/api/workflows.py:170-224 | a rule of an accepted workflow can be taken, for some session and answers, if and only if no earlier rule of the step has the same condition |
| WorkflowRoutes.FallbacksCanBeTaken | server/api/workflows.py:297-343 | every failure route of an accepted workflow can be taken |
| WorkflowRoutes.CertainChoiceIsEarned | server/engine/decision_service.py:24-63 | for a valid configuration every choice but "other" can be accepted once the inputs are present |
| DecisionInputs.FieldsAppearExactly | server/engine/workflow_executor.py:236-927 | in an accepted workflow some visit can put a field into the data if and only if it is a field of a form, an output or the record of a tool call, the result of a decision or the outcome of a webhook |
| DecisionInputs.UnfedDecisionsAreRejected | server/engine/workflow_executor.py:658-699 | a decision with an input that no step fills is accepted in no run |
| DecisionInputs.UnfedInputsAreDeclared | server/api/workflows.py:251-263 | in an accepted workflow such an input is declared by a step that does not ask for it |
| DecisionInputs.AcceptedButNeverDecided | server/api/workflows.py:312-325 | the witness: a definition that validation accepts and whose decision no run accepts |
| DecisionInputs.ResultsAreTheirOwn | server/api/workflows.py:319-323 | in an accepted workflow no form, no mapped tool output and no other decision stores under the key of a decision's result; only the record of a tool step or of the webhook can share it |
| ContextBudget.LongestPrefix | server/engine/context_budget.py:43-50 | the binary search finds the longest prefix within the budget |
| ContextBudget.TruncateText | server/engine/context_budget.py:34-50 | truncation keeps a text that fits and otherwise cuts it as `Truncated` |
| ContextBudget.EstimateAppend | server/engine/context_budget.py:25-31 | the rounded estimate of a concatenation is at most the sum and at least either part |
| ContextBudget.TruncationFits | server/engine/context_budget.py:34-50 | a text within the budget is unchanged; any other becomes a prefix of it, with the marker if that fits, whose estimate is within the budget |
| ContextBudget.TruncationIsMaximal | server/engine/context_budget.py:34-50 | a longer prefix would not fit beside the marker |
| ContextBudget.TruncationShows | server/engine/context_budget.py:34-50 | for limits from the marker on: a text is shown whole if it fits, and else as its longest prefix that fits beside the marker, with the marker |
| ContextBudget.TruncationCuts | server/engine/context_budget.py:127-130 | cutting by an excess saves at least the smaller of excess and size |
| ContextBudget.ShrinkGroup | server/engine/context_budget.py:124-134 | within a group tool results are emptied oldest first, the last one touched is cut by exactly what is too much, and if the excess stays they are all empty |
| ContextBudget.ShrinkRequired | server/engine/context_budget.py:120-134 | the required groups are untouched if they fit, and otherwise cut oldest first and no more than needed (`NeededAt`); if they do not fit afterwards all their tool results are empty |
| ContextBudget.AddRecent | server/engine/context_budget.py:138-146 | recent groups are added back contiguously until the next would not fit, beside the required groups as they were cut |
| ContextBudget.TrimMessages | server/engine/context_budget.py:68-147 | returns the list unchanged if it fits, raises exactly when head and required groups with all tool results emptied exceed the budget, and otherwise returns a fitting list with a maximal recent suffix, shortening tool results only when and only as far as needed |
| Conversation.TrimmingKeepsWellFormed | server/engine/context_budget.py:92-106 | trimming keeps every tool call directly followed by one reply per call id, and no orphan replies |
| Conversation.TrimmingKeepsHeadAndRequest | server/engine/context_budget.py:87-118 | trimming keeps the system head as a prefix and the current user message verbatim |
| Conversation.LongerRunsDoNotFit | server/engine/context_budget.py:138-147 | any longer recent suffix beside the same required groups exceeds the budget |
| Conversation.TrimmingKeepsLastRound | server/engine/context_budget.py:108-147 | trimming keeps the last round of tool calls and replies at the end of the list, with replies shortened at most |
| Conversation.GroupsPartition | server/engine/context_budget.py:92-106 | the groups in order are the message list: grouping loses and invents nothing |
| Conversation.AnswerCalls | server/engine/agent_runtime.py:891-951 | unless a workflow speaks, each call gets one reply in order: a known tool's result as `Truncated` to 2000 tokens, an unknown one the error; where a workflow speaks, the calls up to the first that lets it are answered and its text is returned |
| Conversation.RoundShowsResults | server/engine/agent_runtime.py:891-951 | a round of the loop shows the model, call by call, the result itself if it is within 2000 tokens, else its longest marked prefix, and the error for an unknown tool |
| Conversation.TrimForModel | server/engine/agent_runtime.py:749-772 | what is sent is well formed, within budget, begins with the system head, holds the user's request, and is the list itself or a trimming of it with a maximal recent suffix |
| Conversation.RunToolLoop | server/engine/agent_runtime.py:749-953 | in every round the list sent is fit to send; from the second on it is the list before with that round's calls and the replies to them, as far as that fits, and ends with that round; there are at most the allowed rounds, nothing is sent exactly when even the emptied context is over budget, and the loop ends as the model's last answer tells, with its text |
| Conversation.EachListFollows | server/engine/agent_runtime.py:749-953 | each list sent after the first is the one before with its round, as far as that fits, and that round shows what each call of the model gave |
| Json.DumpsIsOneLine | server/api/invoke.py:212-215 | a printed JSON value is never empty and has no raw control character |
| JsonReader.DumpsIsReadBack | server/api/invoke.py:212-215 | a reader of JSON gives back every printed value whose numbers are printed as JSON numbers: text, names, order and nesting survive, and no two values print alike |
| Json.EscapingCostsAtMostSixfold | server/engine/summary_scheduler.py:227-235 | escaping raises a text's estimate at most sixfold |
| SummaryPrompts.EmptyRowFits | server/engine/summary_scheduler.py:214-236 | any prior summary leaves room for one row with empty content in 6000 tokens |
| SummaryPrompts.CutDescends | server/engine/summary_scheduler.py:229-235 | each round of the shrinking loop lowers the estimate of the content |
| SummaryPrompts.SummaryPrompt | server/engine/summary_scheduler.py:214-236 | the loop terminates for every row and summary, and a one-row request ends within 6000 tokens |
| SummaryPrompts.ShrunkOnlyCuts | server/engine/summary_scheduler.py:229-235 | shrinking never makes the content's estimate larger |
| SummaryPrompts.BatchFits | server/engine/summary_scheduler.py:174-178 | a batch has at least one row, its request fits, and one more row would not fit |
| SummaryPrompts.SelectBatch | server/engine/summary_scheduler.py:174-184 | the growing loop takes exactly that batch, and the fallback for an oversized row is never taken |
| SummaryProtocol.SessionStore.LoadSession | server/engine/summary_scheduler.py:142-152 | a fold starts from a copy of the context, as `Next` |
| SummaryProtocol.SessionStore.CountRows | server/engine/summary_scheduler.py:154-166 | the fold goes on only above the threshold and the watermark, as `Next` |
| SummaryProtocol.SessionStore.ChooseRows | server/engine/summary_scheduler.py:168-185 | the fold reads rows from its watermark on, as `Next` |
| SummaryProtocol.SessionStore.PersistFold | server/engine/summary_scheduler.py:194-211 | the answer, truncated, is stored with the moved watermark only if the watermark is unchanged, as `Next` |
| SummaryProtocol.SessionStore.ContextHistory | server/engine/agent_runtime.py:2219-2233 | the history is the rows from the watermark on, all rows without a summary |
| SummaryProtocol.BudgetPicks | server/engine/summary_scheduler.py:174-185 | the batch the budget allows is a nonempty prefix of the candidates |
| SummaryProtocol.StepIsSound | server/engine/summary_scheduler.py:116-211 | every step of every fold and every turn keeps the summary exact and each fold's rows those after its own watermark |
| SummaryProtocol.SummaryStandsForPrefix | server/engine/summary_scheduler.py:116-211 | under every interleaving the summary stands for exactly the rows below the watermark, which never enters the recent window |
| SummaryLineage.SummaryIsTheAnswer | server/engine/summary_scheduler.py:116-211 | in every run a persisted summary is the truncation of the text answered to a fold whose rows end at the watermark, which was asked with the prior text of its own watermark and with exactly the rows from there on |
| SummaryLineage.SummaryIsAChainOfAnswers | server/engine/summary_scheduler.py:116-211 | in every run the summary is the last of a chain of answers given in it, each asked for with the text the one before left, and together about exactly the rows below the watermark, each once and in order |
| SummaryRequests.RequestNamesAll | server/engine/summary_scheduler.py:214-236 | read back as JSON, the request names the prior summary, within its limit, and role and content of every row, in order |
| SummaryRequests.PersistedIsNamedWhole | server/engine/summary_scheduler.py:186-222 | in every run a request names the persisted summary whole, since what was cut to its limit once is not cut again |
| SummaryRequests.FoldTakesWhatFits | server/engine/summary_scheduler.py:168-185 | a fold takes the rows next after its watermark, at most 100 and none of the recent window, at least one, and unless that is all of them one more would not fit the request |
| SummaryRequests.ShortSessionsAreUntouched | server/engine/summary_scheduler.py:154-166 | in every run a session of fewer than 12 rows has no summary and its history is all its rows |
| SummaryProtocol.EachRowOnce | server/engine/agent_runtime.py:2219-2233 | the rows the summary stands for followed by the history are all rows, each once |
| SummaryProtocol.WatermarkNeverFalls | server/engine/summary_scheduler.py:200-209 | the watermark only grows along every run |
| SummaryProtocol.DeduplicatedFoldsAreCurrent | server/engine/summary_scheduler.py:72-97 | if folds start only when none is in flight, at most one is, and its watermark is never stale |
| SummaryProtocol.SoloFoldProgresses | server/engine/summary_scheduler.py:116-211 | an undisturbed fold that gets an answer moves the watermark on |
| SummaryProtocol.SoloFoldsCatchUp | server/engine/summary_scheduler.py:116-211 | as many undisturbed folds as there are rows summarize all but the recent window |
| SessionLocks.LockTable.RegisterCaller | server/engine/request_guard.py:100-106 | the entry is created on demand and counted as `Next` says |
| SessionLocks.LockTable.Leave | server/engine/request_guard.py:119-127 | release, timeout and cancellation uncount the caller and delete the entry at zero, as `Next` says |
| SessionLocks.StepIsSound | server/engine/request_guard.py:85-127 | every step keeps counts, locks and holders exact |
| SessionLocks.LockTableIsSafe | server/engine/request_guard.py:85-127 | in every run an entry exists exactly while someone is registered, its count is their number, they share one lock object and at most one holds it |
| SessionLocks.EmptyAgain | server/engine/request_guard.py:119-127 | the table is empty exactly when no caller is registered |
| SessionLocks.SomeoneCanMove | server/engine/request_guard.py:108-118 | a waiting caller can acquire, or a caller of the same session holds the lock and its release frees it |
| IdempotencyCache.ResponseCache.PurgeExpired | server/engine/request_guard.py:151-155 | exactly the expired entries go, the rest keep their order |
| IdempotencyCache.ResponseCache.GetResponse | server/engine/request_guard.py:158-176 | a valid entry is returned and becomes the last used; otherwise only expired entries go |
| IdempotencyCache.ResponseCache.StoreResponse | server/engine/request_guard.py:179-194 | the entry becomes the last used and the least recently used ones beyond 1000 go |
| IdempotencyCache.OpKeepsSound | server/engine/request_guard.py:151-194 | every operation keeps the cache bounded, ordered by last use, in agreement with the latest stores and complete up to crowding out |
| IdempotencyCache.LookupIsExact | server/engine/request_guard.py:158-176 | over every history a lookup answers the latest store of the key, still valid; if it answers nothing there is no valid one, or as many other keys as the cache holds were used since |
| CacheEviction.LookupFindsExactly | server/engine/request_guard.py:151-194 | over every history a lookup finds the latest response of the key if and only if it is still valid and no store since the last use of the key found 1000 keys that were used later and still valid, the stored one included |
| IdempotencyCache.CacheIsBounded | server/engine/request_guard.py:193-194 | the cache never exceeds 1000 entries |
| InvokeProtocol.AtMostOncePerKey | server/api/invoke.py:136-168 | where the callers of a key share a lock: once a response is cached, and while it stays cached, nobody with that key runs the pipeline, and every caller with it who is answered gets that response or an error |
| InvokeProtocol.AtMostOnceUntilExpiry | server/api/invoke.py:136-168 | the same until the response expires and until as many other keys as the cache holds have been used, with no assumption that the entry stays cached |
| InvokeProtocol.NobodyEverRunsCached | server/api/invoke.py:148-168 | in every run from the start, where the callers of a key share a lock, no pipeline of that key runs while its response is cached |
| InvokeProtocol.OverlapExactlyWithDifferentLocks | server/api/invoke.py:144-148 | two callers of one key can run the pipeline at the same time if and only if their lock keys differ |
| InvokeProtocol.OneInside | server/api/invoke.py:46-62 | at most one caller of a lock key is inside the lock |
| InvokeProtocol.AdmissionIsBounded | server/engine/request_guard.py:48-60 | the counter of admitted callers is exact and never exceeds the configured maximum |
| InvokeProtocol.LocksTell | server/api/invoke.py:144-147 | without a session the calls of one tenant share a lock exactly when they carry one key, with sessions exactly when they name the same, and a call with neither takes none |
| InvokeAnswers.AnswersAreGenuine | server/api/invoke.py:136-168 | in every run a replayed answer is a response that the pipeline gave in that run, fit to be cached, to a caller with the same tenant and key; a computed one is what the caller's own pipeline gave; and a caller fails only for want of a slot, by giving up waiting or by an error |
| Squeezing.JoinUndoesSplit | server/api/knowledge.py:653-654 | splitting takes out separators only: joining the parts gives the text back |
| Squeezing.PartsSqueeze | server/api/knowledge.py:653-666 | splitting at line breaks, stripping and dropping blank parts loses white space only |
| SentenceBoundaries.FindSentenceBoundary | server/api/knowledge.py:607-644 | the two loops find the cut that `Boundary` describes |
| SentenceBoundaries.BoundaryInWindow | server/api/knowledge.py:607-644 | the cut is the target, or lies after the start and not after the end of the window |
| SentenceBoundaries.BoundaryIsClosest | server/api/knowledge.py:617-628 | if the window, from `window` characters before the target up to as many behind it, holds a sentence end, the cut follows the closest one, the first of equals |
| SentenceBoundaries.ClosestDelimiterIsClosest | server/api/knowledge.py:623-628 | of equally close ones the first is taken |
| SentenceBoundaries.BoundaryIsClosestWord | server/api/knowledge.py:630-642 | if it holds none, the cut is behind the word of the window that ends closest to the target, the first of equals, and at the target if the window has no words or there is no segmenter |
| Chunker.SplitLongLine | server/api/knowledge.py:673-687 | the loop terminates and produces the pieces of `Pieces` |
| Chunker.SplitLongParagraph | server/api/knowledge.py:666-700 | the line loop produces the chunks of its specification |
| Chunker.RecursiveSplit | server/api/knowledge.py:647-721 | the nested loops produce the chunks of `Chunks` |
| ChunkerConservation.PiecesAreSpans | server/api/knowledge.py:674-688 | the pieces of a long line are the stripped slices of the line at its spans |
| ChunkerConservation.SpansLeaveNoGap | server/api/knowledge.py:674-688 | for sizes from 50 and overlaps other than 1 the first span starts where the line does, each later one starts behind the start and not behind the end of the one before, and the last reaches the end of the line |
| ChunkerConservation.SpansCoverLine | server/api/knowledge.py:674-688 | hence for these settings every position of the line lies in a span |
| ChunkerConservation.PiecesKeepLine | server/api/knowledge.py:673-689 | the pieces of a long line hold the whole line in order; without overlap they hold nothing else |
| ChunkerConservation.ChunksHoldText | server/api/knowledge.py:647-721 | the chunks hold the whole text in order, and without overlap nothing else, white space aside |
| ChunkerConservation.ChunksAreShort | server/api/knowledge.py:647-721 | no chunk is blank or longer than the size plus 50, or plus the repeated tail where chunks overlap |
| ChunkerPacking.ParagraphsArePacked | server/api/knowledge.py:647-721 | the chunks are blocks of neighbouring paragraphs joined as long as they fit the size; a paragraph starts a block only if it is the first, stands behind a long paragraph, or would not have fitted, and then behind the repeated end of the full chunk |
| ChunkerPacking.PartsHoldNoSeparator | server/api/knowledge.py:653-666 | the paragraphs and lines that are packed hold no blank line and no line break, respectively |
| ChunkerPacking.LinesArePacked | server/api/knowledge.py:666-700 | the same for the lines of a long paragraph, without repeated ends |
| ChunkerPacking.NeighboursDoNotFit | server/api/knowledge.py:702-717 | where two blocks of short parts are neighbours, the first joined with the first part of the second exceeds the size |
| ChunkerPacking.ShortTextIsOneChunk | server/api/knowledge.py:702-717 | a text whose paragraphs fit together in the size comes out as one chunk, its paragraphs |
| ChunkerPacking.LeadIsAnEnd | server/api/knowledge.py:707-715 | what a chunk repeats is an end of the chunk before it |
| ChunkerLimits.NothingIsLost | server/api/knowledge.py:647-721 | for sizes from 50 and overlaps other than 1 no text is lost, for every text and word segmenter |
| ChunkerLimits.NothingIsRepeated | server/api/knowledge.py:647-721 | without overlap the chunks are exactly the text, white space aside |
| ChunkerLimits.OverlapOneLoses | server/api/knowledge.py:682-688 | with overlap 1 a line of size + 69 letters taken for one word comes out as its first size + 50 letters, for every size from 50 |
| ChunkerLimits.SmallChunksLose | server/api/knowledge.py:677-681 | below size 50 the letter after a leading full stop occurs in no chunk, for every size and overlap |
| ChunkerLimits.NothingIsLostExactly | server/api/knowledge.py:647-721 | no text is ever lost if and only if the size is at least 50 and the overlap is not 1 |
| ChunkerLimits.SpansCoverExactly | server/api/knowledge.py:674-688 | the spans cover every long line, whatever the segmenter, if and only if the size is at least 50 and the overlap is not 1 |
| ChunkerLimits.NothingIsRepeatedExactly | server/api/knowledge.py:647-721 | without overlap the chunks always equal the text if and only if the size is at least 50 |
| LineFeed.FedByLines | static/widget.js:323-325 | splitting at line breaks and handling all but the last part is the same as feeding one character at a time |
| LineFeed.FedAppend | static/widget.js:319-343 | feeding a concatenation is feeding its parts in turn |
| Sse.Widget.Pump | static/widget.js:319-343 | one chunk moves buffer, event, data and handled events as feeding its characters does |
| Sse.Receive | static/widget.js:319-343 | whatever the chunks, the parser ends where it would after the whole text at once |
| Sse.PrintedIsParsed | server/api/invoke.py:212-215 | the printed form of any list of events with plain names and one-line payloads is parsed into that list, leaving nothing pending |
| Sse.RoundTripExactlyForPlainNames | static/widget.js:327-339 | for nonempty one-line payloads the parser gives the events back if and only if every name is nonempty, trimmed and on one line |
| Sse.Stream | static/widget.js:319-343 | messages with JSON payloads, printed and cut anywhere, reach the widget as the printed events, whose names are the messages' and whose payloads read back as the data sent |
| FunctionNames.Sanitized | server/engine/agent_runtime.py:2128-2145 | a cleaned name has 1 to 64 letters, digits and underscores, does not begin with an underscore and has no two in a row |
| FunctionSpelling.SanitizedSpellsWords | server/engine/agent_runtime.py:2128-2145 | the name is the runs of letters and digits of the name given, in order, without digits at its front, joined by underscores and cut at 64; "unnamed" where there are none, and the digest where no character is usable |
| FunctionNames.CleanNamesAreKept | server/engine/agent_runtime.py:2135-2141 | a name that is already clean keeps its spelling |
| FunctionNames.CandidatesDiffer | server/engine/agent_runtime.py:1119-1122 | candidates with different numbers differ, however much of the base is cut |
| FunctionNames.TakenAreFew | server/engine/agent_runtime.py:1119-1122 | there are no more taken candidates than used names, so the loop terminates |
| FunctionNames.FirstFreeName | server/engine/agent_runtime.py:1115-1124 | the loop terminates with the base if it is free and else with the candidate of the least free number |
| FunctionNames.AllocationIsUnique | server/engine/agent_runtime.py:1115-1124 | the names a list of bases gets follow from the bases and the names in use: allocation is deterministic |
| FunctionNames.NameTable.UniqueName | server/engine/agent_runtime.py:1115-1124 | the allocator returns that name for the cleaned base and marks it used |
| FunctionNames.NameTable.UniqueNames | server/engine/agent_runtime.py:1126-1158 | a list of bases gets, one after the other, the first names free |
| FunctionNames.AllocatedAreDistinct | server/engine/agent_runtime.py:1115-1124 | names so allocated are new and pairwise distinct, and at most 64 characters long for fewer than ten to the 63 of them |
| FunctionNames.FunctionNamesAreShortAndDistinct | server/engine/agent_runtime.py:1115-1124 | hence the functions of any list of skills and tools have distinct names of 1 to 64 allowed characters |
| FunctionNames.NameTools | server/engine/agent_runtime.py:2100-2126 | the tool map holds each tool under its own name and nothing else: no tool hides another |
| RateLimiter.Limiter.Consume | server/middleware/auth.py:460-486 | purging, forgetting idle keys and appending leave exactly the windows of `Consumed`, and the verdict is `Decide` |
| RateLimiter.RecentIsCounted | server/middleware/auth.py:465-466 | what purging leaves is as long as the full log's count of recent admissions |
| RateLimiter.NextIsSound | server/middleware/auth.py:460-486 | every request keeps each key's window the end of that key's full log |
| RateLimiter.RefinesFullLog | server/middleware/auth.py:460-486 | over every run with interleaved keys and purging a request is admitted if and only if fewer than the limit were admitted in the last 60 seconds |
| RateLimiter.WindowHoldsAtMostLimit | server/middleware/auth.py:460-486 | any closed interval of 60 seconds holds at most the limit of admissions of a key |
| RateLimiter.WaitingIsRewarded | server/middleware/auth.py:477-484 | a rejected caller who waits the announced time while its key makes no other request is admitted, whatever other keys do |
| RateLimiter.AnnouncedTimeIsLeast | server/middleware/auth.py:477-484 | such a caller who comes back after a whole number of seconds is admitted if and only if that is at least the announced number |
| RateLimiter.OnlyRecentKeysAreKept | server/middleware/auth.py:468-475 | after a request every other key still stored was admitted within the last 60 seconds |

## Left out

- WorkflowExecution.Executor.HandleCollect: does not model extracting, checking and asking for the single fields; which fields a message fills and which the form drops is an answer the theorems quantify over.
- WorkflowExecution.Executor.HandleToolCall: does not model how the tool's input and headers are built, only that the call is made and how its output is stored.
- WorkflowExecution.Executor.HandleValidate: does not model the validation rules, whose outcome is an answer the theorems quantify over.
- WorkflowExecution.Executor.HandleDecision: does not model the audit record of a decision nor the decision metadata kept in the workflow state.
- WorkflowExecution.Executor.TakeTurn: does not model the keywords by which a message asks to leave, to retry or to resume; each is a flag of the turn the theorems quantify over.
- WorkflowValidation.ValidateNextStepRules: does not model the checks of operators, regular expressions, numeric constants and containers in conditions, which only reject more.
- WorkflowValidation.ValidateRouting: does not model the checks of field definitions, which only reject more.
- WorkflowValidation.ValidateDecision: does not model the patterns, lengths and instruction text of the configuration's schema, which only reject more.
- WorkflowValidation.ValidateWorkflowSteps: does not model the checks that only reject more (field definitions, risk levels, retry counts, regular expressions and numeric constants in conditions); the theorems hold for the larger set of definitions. The mode that does not enforce branch targets is not part of this model.
- WorkflowExecution.EvaluateRules: does not model the comparison operators of a condition, whose outcome is an answer the theorems quantify over, nor the alternative container `{rules: [...]}`, which holds the same list.
- WorkflowSoundness.AutoAdvanceIsBounded: the step list is fixed during a run, as edits in the middle of a run are excluded.
- ConfigurationFaults.MisroutesExactly: assumes distinct ids, which the database key gives.
- ConfigurationFaults.AcceptedNeverMisroutes: assumes trimmed names, without which it is false (see `WorkflowLimits.UntrimmedNameMisroutes`); what holds without them is `MisroutesExactly`.
- Confirmations.SilenceIsNoIntent: lower-casing is modelled for ASCII letters only.
- Text.ParseIntOfIntText: number texts are modelled with ASCII digits only.
- Conversation.RunToolLoop: what the caller makes of a failed model, and the direct start of a workflow when the model names one in words, are not part of this model.
- SummaryPrompts.EmptyRowFits: roles are taken to be at most 16 characters long, as the stored ones are; the instruction text enters by its estimate of 87 tokens.
- SummaryProtocol.SummaryStandsForPrefix: excludes deleting and re-creating the same session while a fold is in flight, which the watermark cannot see, and ties in the order of rows.
- SummaryProtocol.DeduplicatedFoldsAreCurrent: the scheduler's set of sessions in flight is modelled by the condition that a fold starts only when none is in flight.
- InvokeProtocol.AtMostOncePerKey: the endpoint is a state machine over the steps of all callers, not a class; whether a response may be cached is a choice of the run.
- IdempotencyCache.LookupIsExact: says when a key may be missing, not when it is, which `CacheEviction.LookupFindsExactly` does; time is a whole number and a response is its serialized text.
- SessionLocks.SomeoneCanMove: timeouts and cancellations are steps that may happen at any time while waiting; the order in which waiters are served is not modelled.
- Sse.Stream: the queue between producer and consumer, UTF-8 decoding and what the widget shows for an event are not part of this model; a number in a payload is given by its printed text.
- JsonReader.DumpsIsReadBack: the reader takes any run of number characters for a number and does not pair escaped surrogates, which the printed form does not contain.
- FunctionNames.Sanitized: the digest of a name without usable characters is any function to eight hexadecimal digits.
- FunctionNames.NameTable.UniqueNames: the cleaner is a parameter, instantiated in `FunctionNamesAreShortAndDistinct`.
- Chunker.RecursiveSplit: the white space of `str.strip` is listed by code point; the three loops are three methods; overlap repeats text by design, so with overlap only containment in order is claimed.
- RateLimiter.RefinesFullLog: time is a real number that never runs backwards; floating-point rounding of the clock is not modelled, and limits of 0 or less switch the limiter off before it is reached.
- Field extraction prompts, validation by a model, knowledge retrieval and scoring, CRUD routes, authentication, secrets, backups, migrations, speech and rendering: input and output around the engines.
- Circuit breaker, retention loop, health cache: their invariants would only add easy members.
- Process crashes, several server processes and asyncio's internals: every engine is modelled inside one process, with cancellation and timeout as plain steps.

# A verified model of the approval, routing and orchestration core

These Dafny files model the parts of the stack whose correctness is hard to see by reading one function, and prove
what they guarantee over every input, every run and every interleaving. `dafny verify dfyconfig.toml` checks them all.

**One-time approval** (`Capabilities`, `ApprovalLog`, `Protocol`, `ProtocolSafety`, `ProtocolGenerations`,
`ProtocolCancellation`, `ProtocolWaiting`, `ProtocolProgress`, `ProtocolAnswers`, `ProtocolTraces`, `ApproverStore`,
`Plugin`). Two execution brokers, an independent approver and the Hermes plugin exchange prepare, submit, decide,
grant and execute messages over a network that loses, repeats and reorders. The brokers and the approver form one step
system with a clock and a policy generation; every read of the generation is a step of its own. Each database
statement is an atomic change of a table, the stores are classes over these tables, and the history is a log. The main
result is a chain of custody for every execution: exactly the request whose summary was shown to the bound user,
approved by that user's single click, granted and claimed before expiry under one binding. A recorded denial forbids
execution by itself; a cancelled nonce can execute only if a handler holds its claim; a grant or claim acts under the
generation in force exactly when none of the steps since its own read raised it. Every step acts on a broker's table
as the store call it makes; a waiting handler waits on, claims or gives up exactly as the store's loop does, a grant
reaches it exactly when the row is spared and unexpired, and from any reachable state an approved operation can
execute and a denied one ends. What a restart loses is never executed.

**Router studio** (`Digraph`, `CycleCheck`, `Ports`, `PortSearch`, `GraphNormal`, `GraphInput`, `RouterPlan`,
`Pipeline`, `RouterStudio`). A graph is normalized, checked for cycles by a three-colour depth-first search, compiled
to an entry, a transition table and a topological stage list, and interpreted. What each raw node and edge becomes,
and which check refuses which input, is told from the raw lists; an edge gets the first ports that fit in the order of
trial. Normalizing twice equals normalizing once exactly when the incoming ids cut cleanly; on what it accepts,
planning fails only for a port used twice or a number of starts other than one, and the plan is unique; walking the
table equals one sweep over the stage list, and what a stage of each kind does is told without the interpreter.

**Orchestration runs** (`OrchestratorPlan`, `OrchestratorInput`, `OrchestratorRun`, `OrchestratorSafety`,
`OrchestratorAnswers`). A planner's answer becomes bounded steps; `advance` and `decide` drive them with approvals and
bounded retries. Over every sequence of calls the rows keep one shape, no step that needs approval is called before
it, a run makes at most sixty step calls and one review, and every output, error and prior result is what the step's
agent answered.

**Routing state** (`Sticky`, `Hysteresis`, `Gates`, `CircuitBreaker`). The SQLite and the Redis sticky store answer
alike exactly when a session's end is the same in both; a session lives exactly by its two limits; a demotion is
always the last of enough low proposals in a row; a tier chosen by gate, stickiness, override or policy can serve the
request, under a condition that is made exact; a model is refused by the circuit breaker exactly when its failure
streak and its last failure say so, and degraded exactly by its failure rate.

**Protocol translators** (`ChatStream`, `ResponsesStream`, `ResponsesEvents`, `ResponsesLifecycle`,
`ResponsesTranslator`, `ResponsesInput`, `AnthropicStream`, `AnthropicTranslator`, `AnthropicAgreement`). Chat chunks
become Responses or Messages event streams, or one buffered completion. For both APIs streaming agrees with buffering
under conditions that are exact; every finished Messages log is well formed, starts and stops each block once and
carries the upstream pieces; every finished or failed Responses stream is whole in the same sense; sending an answer
back as input restores it.

**Chunks** (`Chunks`) cuts documents into overlapping windows. `Text` and `Collections` hold what the others share.

Where the code and a statement one would like to make of it differ, the code is kept and the difference is proved:

- The policy generation read by a grant or a claim may be superseded by the time it takes effect
  (`ProtocolTraces.ExecutedUnderSupersededGeneration`). In every run it is current exactly when no step between the
  handler's read and its statement raised it (`ProtocolGenerations.GrantIsCurrentExactly`,
  `ProtocolGenerations.ClaimIsCurrentExactly`).
- Cancelling after the claim does not stop the execution (`ProtocolTraces.CancelledAfterClaimStillExecutes`): a closed nonce
  that has not executed can still execute exactly when a handler holds its claim
  (`ProtocolCancellation.ClosedCanRunExactlyWhenHeld`).
- `normalize_graph` is not a fixpoint on ids that a cut leaves with a trailing blank (`GraphNormal.CutExposesABlank`), and
  on all other accepted graphs it is (`GraphNormal.NormalizeTwice`).
- The two sticky stores differ for a non-positive session lifetime (`Sticky.StoresDisagree`), which the settings exclude.
- The comment at smart-router/src/smart_router/control_plane.py:231 rests on monotonic capabilities; the start-up checks do
  not give that (`Gates.ValidationIsNotEnough`). Under every factor an upgrade keeps every request exactly when the largest
  prompt the lower tier admits fits beside the higher tier's output limit (`Gates.UpgradesAreSafeExactly`); headroom that
  falls can still be harmless (`Gates.FallingHeadroomCanBeHarmless`).
- An empty answer, tool calls that began in another order than their indexes, or a finish reason before the last choice make
  a Responses stream and its buffered form differ (`ResponsesStream.EmptyAnswersDiffer`,
  `ResponsesStream.OutputsAgreeExactly`, `ResponsesStream.StatusesAgreeExactly`).
- A Messages stream differs from its buffered form also when a call begins before the text, when arguments are no JSON
  object, and when an id or a name comes with a later piece than the first, which the client of the stream never sees
  (`AnthropicAgreement.ContentsAgreeExactly`, `AnthropicAgreement.LateNamesAreLost`).
- A client of a translated stream receives the last batch before the ending twice
  (`AnthropicTranslator.WrapStream`, `ResponsesTranslator.WrapStream`).

## Model

| member | source | states |
|---|---|---|
| Capabilities.ClosedOnce | execution-broker/src/broker/store.py:81-148 | after a claim, a denial or a cancellation no later claim, approval or denial of that nonce succeeds, over any calls by any threads |
| Capabilities.RedeliveryChangesNothing | execution-broker/src/broker/store.py:81-107 | once a decision took effect, any later delivery of any decision for that nonce leaves the table as it is |
| Capabilities.GrantWakesTheWaiter | execution-broker/src/broker/store.py:109-142 | an approval that succeeds between two polls ends the wait at the next one, whatever else other threads call in between; that poll claims the row if and only if no call after the approval touched it and it has not expired |
| Capabilities.IssuedRowStays | execution-broker/src/broker/store.py:68-79 | over any calls by any threads an issued row keeps its binding, its request and its end 300 seconds on, and is in the table if and only if no issue more than an hour after that end purged it |
| Capabilities.DecidedInTime | execution-broker/src/broker/store.py:81-142 | every approval, denial or claim that takes effect does so under the binding its nonce was issued with, less than 300 seconds after it was issued |
| Capabilities.CapabilityStore.IssueCapability | execution-broker/src/broker/store.py:68-79 | the new row is undecided under exactly this binding; the table is the old one with it, purged |
| Capabilities.CapabilityStore.ApproveCapability | execution-broker/src/broker/store.py:81-93 | succeeds exactly on an undecided, unexpired, equally bound row, which becomes claimable; otherwise nothing changes |
| Capabilities.CapabilityStore.DenyCapability | execution-broker/src/broker/store.py:95-107 | succeeds exactly on an undecided, unexpired, equally bound row, which is closed; otherwise nothing changes |
| Capabilities.CapabilityStore.CancelCapability | execution-broker/src/broker/store.py:144-148 | the named row, if there, is closed and no other changes |
| Capabilities.CapabilityStore.CancelSuperseded | execution-broker/src/broker/store.py:150-155 | rows of every other generation are closed, the rest stay |
| Capabilities.CapabilityStore.Consume | execution-broker/src/broker/store.py:109-142 | the wait loop ends at the first poll that can claim, has nothing to wait for or no time left; it returns the sealed request exactly when that poll claimed it |
| ApprovalLog.JustifiedExecutionHasCustody | execution-broker/src/broker/server.py:101-176 | an execution in a justified history has its claim, grant, recorded click and shown prompt before it, in order, with one binding |
| ApprovalLog.AtMostOnce | execution-broker/src/broker/store.py:81-142 | in a justified history decisions, settlements and endings per nonce are at most one each, executions at most endings |
| ApprovalLog.RefusedNeverExecutes | execution-broker/src/broker/store.py:95-107 | nothing after a refusal claims or executes its nonce |
| ApprovalLog.NothingAfterClosing | execution-broker/src/broker/store.py:144-148 | once a nonce is closed it is never settled again, and it is claimed in the end if and only if it was claimed by then |
| ApprovalLog.RecordIsUnique | execution-broker/src/broker/approver.py:81-97 | a nonce has one recorded verdict: one decision, binding and broker |
| ApprovalLog.DenialForbids | execution-broker/src/broker/approver.py:81-97 | a recorded denial excludes grant, claim and execution anywhere in the history, whether or not a broker learns of it |
| ProtocolSafety.StepKeeps | execution-broker/src/broker/server.py:101-176 | every step of the protocol keeps the joint invariant of tables, messages, handler threads and history |
| ProtocolSafety.RunKeeps | execution-broker/src/broker/server.py:101-176 | the invariant holds after any sequence of steps |
| ProtocolSafety.DecidedUnderOneGeneration | execution-broker/src/broker/server.py:118-148 | the four separate generation reads behind a decision that takes effect are equal |
| ProtocolSafety.ExecutedWasApproved | execution-broker/src/broker/approver.py:171-220 | in every run each executed operation is the request whose summary was shown to the bound user, approved by that user's one click, granted and claimed before expiry under the same feature, digest, user, session and generation |
| ProtocolSafety.OncePerNonce | execution-broker/src/broker/store.py:81-142 | in every run, per nonce, at most one decision, one settlement, one of claim and refusal, one execution |
| ProtocolSafety.DeniedIsNeverExecuted | execution-broker/src/broker/approver.py:201-220 | in every run a nonce whose denial the approver recorded is never granted, claimed or executed, also when the message is lost, late or expired |
| ProtocolSafety.RefusedWasDenied | execution-broker/src/broker/server.py:136-148 | a refusal at the broker is the denial recorded for the same nonce and binding, and its nonce is never claimed or executed, before or after |
| ProtocolSafety.CancelledIsNeverClaimed | execution-broker/src/broker/server.py:216 | a cancelled nonce is claimed if and only if it was claimed before the cancellation, and only then can it execute |
| ProtocolCancellation.ClosedCanRunExactlyWhenHeld | execution-broker/src/broker/server.py:150-176 | a claimed, refused or cancelled nonce that has not executed executes in some continuation of the run if and only if a handler holds its claim |
| ProtocolSafety.RedeliveryIsInert | execution-broker/src/broker/approver.py:241-243 | once a nonce is settled, any number of resends, checks, reads, statements and losses of its verdicts, in any order, change no table, no history, no answer and no running handler |
| ProtocolTraces.SlotsAreNeverExceeded | execution-broker/src/broker/server.py:150-176 | at most four operations are in flight at each broker in every run |
| ProtocolGenerations.ClaimIsCurrentExactly | execution-broker/src/broker/server.py:150-157 | every claim in every run: its handler read the generation at one step and claimed at a later one, and the claim's generation is the one in force if and only if no step in between raised it |
| ProtocolGenerations.GrantIsCurrentExactly | execution-broker/src/broker/server.py:136-148 | every grant in every run: its statement's generation was read at one step and the row changed at a later one, and it is the one in force if and only if no step in between raised it |
| ProtocolTraces.ExecutedUnderSupersededGeneration | execution-broker/src/broker/server.py:136-157 | a reachable run in which grant and claim take effect under a generation already superseded |
| ProtocolTraces.CancelledAfterClaimStillExecutes | execution-broker/src/broker/server.py:216 | a reachable run in which a cancellation after the claim does not stop the execution |
| ProtocolWaiting.StepIsAStoreCall | execution-broker/src/broker/server.py:101-216 | every step of the protocol changes each broker's table exactly as the store call it makes there, if any |
| ProtocolWaiting.TablesFollowTheStore | execution-broker/src/broker/store.py:68-155 | in every run each broker's table is what the store makes of the run's calls, so what is proved over any calls holds of it |
| ProtocolWaiting.PollDecides | execution-broker/src/broker/store.py:109-142 | one poll of a waiting handler: it waits on with nothing changed exactly while its row is undecided under its binding, unexpired and time is left; it is sealed with the row's request exactly when the row can be claimed; else it ends |
| ProtocolWaiting.PollIsTheStoresPoll | execution-broker/src/broker/store.py:120-142 | the handler still waits if and only if the store's loop does not stop there, and its table is the loop's |
| ProtocolWaiting.OthersLeaveItWaiting | execution-broker/src/broker/server.py:150-157 | nothing but its own poll and a restart of its broker ends a wait |
| ProtocolWaiting.WaitGoesOn | execution-broker/src/broker/store.py:120-142 | over any steps without such a restart a handler goes on waiting as long as it must wait at each of its polls |
| ProtocolWaiting.ApprovedRowsFate | execution-broker/src/broker/store.py:81-155 | after any steps an approved row is as it was if no step's call touched it, and closed or gone otherwise |
| ProtocolWaiting.GrantReachesTheHandler | execution-broker/src/broker/server.py:136-157 | a grant that takes effect in any run is claimed by the next poll of a handler that waits under the same binding, after any steps in between, if and only if none of them touched the row and it has not expired |
| ProtocolProgress.LostDecisionsComeBack | execution-broker/src/broker/approver.py:222-246 | a lost verdict is in the network again after the next round of the polling loop |
| ProtocolProgress.ApprovedOperationsExecute | execution-broker/src/broker/server.py:101-176 | from any reachable state an enabled operation of an approving user, prepared, shown, clicked, granted, awaited and claimed in the given steps, is executed by the last of them |
| ProtocolProgress.DeniedOperationsEnd | execution-broker/src/broker/server.py:136-157 | the same way with the other button the row is closed, the waiting handler ends at its next poll and nothing is executed |
| ProtocolAnswers.PreparedWasShown | execution-broker/src/broker/server.py:101-121 | in every run a broker that answers "prepared" has had the bound user shown the summary and digest of what it sealed |
| ProtocolAnswers.SubmissionsWereCurrent | execution-broker/src/broker/server.py:118-119 | every submission in the network was made under the generation it names, read when it was submitted, not when its row was issued |
| ProtocolAnswers.ApprovalsWereCurrent | execution-broker/src/broker/approver.py:171-189 | every request the approver keeps was taken in past the floor, under the generation then in force, for a user who was then an approver, and can be answered for 300 seconds from then |
| ProtocolAnswers.IssuedWereEnabled | execution-broker/src/broker/server.py:101-118 | nothing was ever sealed for a feature not enabled at that moment, or by a broker that does not serve it |
| ProtocolAnswers.ChecksWereCurrent | execution-broker/src/broker/server.py:136-142 | a verdict past its broker's check was of the generation then in force and of a feature then enabled there |
| ProtocolAnswers.DecisionsWereClicked | execution-broker/src/broker/approver.py:191-201 | every recorded decision was the click of the bound user, then an approver, on the delivered, unexpired, undecided prompt of that token |
| ProtocolAnswers.RestartEndsHandlers | execution-broker/src/broker/store.py:150-155 | a restart frees every slot and ends every handler of its broker and none of the other's |
| ProtocolAnswers.RestartLosesTheClaim | execution-broker/src/broker/server.py:150-176 | what a handler had claimed and not run when its broker restarted is never executed, whatever follows |
| ApproverStore.ApprovalRequestStore.Create | execution-broker/src/broker/approver.py:54-66 | refuses exactly a repeated capability; otherwise adds this one row, undecided and not yet clickable, and is the protocol's create step for a valid submission |
| ApproverStore.ApprovalRequestStore.MarkDelivered | execution-broker/src/broker/approver.py:68-72 | is the protocol's successful prompt return: an undecided row can be resolved by its user until it expires |
| ApproverStore.ApprovalRequestStore.Discard | execution-broker/src/broker/approver.py:74-79 | is the protocol's failed prompt return: exactly an undecided row is removed, and nobody can resolve it afterwards |
| ApproverStore.ApprovalRequestStore.Resolve | execution-broker/src/broker/approver.py:81-97 | records a decision exactly once, only for the bound user on a delivered, unexpired, undecided row, and returns the verdict the protocol's click sends |
| ApproverStore.ApprovalRequestStore.UnresolvedDecisions | execution-broker/src/broker/approver.py:99-108 | recorded, unacknowledged, unexpired decisions, each once, by expiry, which the protocol's polling loop sends; one is left out only if a hundred that expire no later are listed |
| ApproverStore.DueIsResent | execution-broker/src/broker/approver.py:241-243 | those rows are exactly the ones the protocol's resend step sends, with exactly these verdicts |
| ApproverStore.ApprovalRequestStore.MarkGranted | execution-broker/src/broker/approver.py:110-115 | acknowledges exactly the decision that was recorded, as the protocol's acknowledgement does |
| Plugin.StepKeeps | plugins/stack-execution-policy/__init__.py:145-239 | every plugin step keeps each pending item's state in line with the history |
| Plugin.AtMostOneExecute | plugins/stack-execution-policy/__init__.py:163-187 | per pending id at most one broker execute and one approval prompt |
| Plugin.ExecuteWasAnsweredOnce | plugins/stack-execution-policy/__init__.py:163-239 | every execute of every run was sent by the item's own caller without a problem, and an earlier step answered "once" to the open prompt of that very item |
| Plugin.RefusedNeverExecutes | plugins/stack-execution-policy/__init__.py:229-239 | an item whose open prompt got any other answer is never executed, whatever follows |
| Plugin.AnsweredOnceExecutesOnce | plugins/stack-execution-policy/__init__.py:163-239 | after an answer of "once" to its open prompt, an item's first execute call decides for good: one broker execute if its own caller made it without a problem, else none |
| Plugin.ApprovedItemsExecute | plugins/stack-execution-policy/__init__.py:145-239 | from any state, what its caller prepares under a fresh id, asks for, gets answered "once" and executes is sent |
| Plugin.ExecuteCarriesWhatWasPrepared | plugins/stack-execution-policy/__init__.py:145-187 | in every run the one execute carries the feature, capability, digest, session and user of the only preparation ever made under its id |
| Plugin.CancelCarriesWhatWasPrepared | plugins/stack-execution-policy/__init__.py:171-239 | a cancellation withdraws the capability prepared under its id, which is then never executed |
| Plugin.Pending.Prepare | plugins/stack-execution-policy/__init__.py:145-160 | stores the prepared item under its fresh id |
| Plugin.Pending.PreToolCall | plugins/stack-execution-policy/__init__.py:207-226 | asks for approval exactly for a prepared item of this feature, session and user, and only once |
| Plugin.Pending.PostApprovalResponse | plugins/stack-execution-policy/__init__.py:229-239 | the item waiting under the rule key becomes approved once for the answer "once" and is cancelled for any other, no other item changes; what the answer leads to is `Plugin.ExecuteWasAnsweredOnce` and `Plugin.RefusedNeverExecutes` |
| Plugin.Pending.Execute | plugins/stack-execution-policy/__init__.py:163-187 | sends one execute exactly for an item approved once in the same session by the same user; a mismatch cancels it |
| CycleCheck.HasCycle | smart-router/src/smart_router/graph_v59.py:205-223 | true if and only if the edge relation has a cycle, in any visiting order |
| CycleCheck.Search.Visit | smart-router/src/smart_router/graph_v59.py:211-221 | a grey path and finished nodes that lead to earlier finished nodes only; found means a cycle at hand; it terminates |
| Digraph.SettledIsAcyclic | smart-router/src/smart_router/graph_v59.py:205-223 | nodes listed so that every edge leads to an earlier one admit no cycle |
| Digraph.NoSourceMeansCycle | smart-router/src/smart_router/graph_v59.py:381-412 | a nonempty finite part in which every node has a predecessor contains a cycle |
| Ports.ResolutionIsTyped | smart-router/src/smart_router/graph_v59.py:152-197 | a resolved edge joins declared, compatible ports with the names asked for |
| Ports.ResolutionFailsExactly | smart-router/src/smart_router/graph_v59.py:160-197 | each of the five errors exactly when it is the first check to fail; types are refused exactly when no asked-for pair is compatible |
| Ports.DefaultsArePreferred | smart-router/src/smart_router/graph_v59.py:190-197 | an unnamed edge takes the default ports whenever they fit |
| Ports.NamingIsExact | smart-router/src/smart_router/graph_v59.py:176-197 | naming two compatible ports resolves to these two |
| Ports.StudioPortsAreWellNamed | smart-router/src/smart_router/graph_v59.py:23-109 | in all four studios port names are distinct on each side and survive a trim |
| PortSearch.CompatibleFits | smart-router/src/smart_router/graph_v59.py:112-153 | which outputs an input accepts, told by the input |
| PortSearch.FirstFitIsTaken | smart-router/src/smart_router/graph_v59.py:176-196 | whether an edge names both ports, one or none: it gets the pair that is tried first, by source and then by target, default ports before the others and these as declared, among all it may take and that fit |
| PortSearch.FirstFitIsUnique | smart-router/src/smart_router/graph_v59.py:189-196 | only one pair is tried first |
| PortSearch.WorkflowConnects | smart-router/src/smart_router/graph_v59.py:23-48 | workflow studio, unnamed edges: flow runs from default to default port, knowledge and tools enter agents at their own ports, nothing else connects |
| PortSearch.AgentConnects | smart-router/src/smart_router/graph_v59.py:53-63 | agent studio: everything but an output goes into an agent, and only an agent into an output |
| PortSearch.KnowledgeConnects | smart-router/src/smart_router/graph_v59.py:66-79 | knowledge studio: exactly which kinds follow which, the shortcuts of old graphs included |
| PortSearch.RouterConnects | smart-router/src/smart_router/graph_v59.py:83-109 | router studio: any two nodes connect, from default to default port |
| GraphNormal.NormalizeGraph | smart-router/src/smart_router/graph_v59.py:226-320 | the two loops with their index and seen set, and the search, accept, refuse and build exactly what the specification says |
| GraphInput.AcceptedSaysWhatWasSent | smart-router/src/smart_router/graph_v59.py:242-316 | an accepted graph element by element, from the raw lists: the i-th node has the trimmed, cut id, kind, label, reference and configuration of the i-th raw one or their defaults; the i-th edge starts and ends where the i-th raw one says, under the present names or else the old ones, at the ports it gets, with its id, condition, label and metadata or their defaults |
| GraphInput.RefusedExactly | smart-router/src/smart_router/graph_v59.py:226-320 | every error if and only if it is the first due: form, size, the first raw node to fail a check and which, then the first raw edge and which, then a cycle |
| GraphNormal.AcceptedIsNormal | smart-router/src/smart_router/graph_v59.py:242-320 | accepted graphs have distinct ids and edge keys, compatible declared ports, no self-loop and no cycle |
| GraphNormal.NormalizeTwice | smart-router/src/smart_router/graph_v59.py:242-320 | an accepted graph normalizes to itself, ports, keys, labels and aliases included, if and only if every incoming id, once trimmed, fits its length or is cut behind a visible character |
| GraphNormal.NormalizeIsFixpoint | smart-router/src/smart_router/graph_v59.py:242-320 | in particular normalizing is a fixpoint on its own output when the trimmed ids are within the cut lengths |
| GraphNormal.CutExposesABlank | smart-router/src/smart_router/graph_v59.py:248 | an id whose cut ends in a blank normalizes to something else the second time |
| RouterPlan.BuildTables | smart-router/src/smart_router/graph_v59.py:374-384 | refuses exactly a port used twice; otherwise the tables hold exactly the edges |
| RouterPlan.UnreachedMeansCycle | smart-router/src/smart_router/graph_v59.py:388-397 | with a single start, a node not reached from it lies behind a cycle |
| RouterPlan.Kahn | smart-router/src/smart_router/graph_v59.py:400-409 | the order is distinct, topological and first come, first served, and every node left out still waits for one |
| RouterPlan.FirstComeIsUnique | smart-router/src/smart_router/graph_v59.py:400-409 | first come, first served leaves one order only, so the stage list is stable |
| RouterPlan.UnfinishedMeansCycle | smart-router/src/smart_router/graph_v59.py:410-412 | an order that misses a node means a cycle |
| RouterPlan.RouterGraphPlan | smart-router/src/smart_router/graph_v59.py:367-413 | fails for a port used twice and for starts other than one exactly when they occur, and for reachability or order exactly on the other cyclic graphs; a plan is a topological permutation headed by its entry, with the edges as its table |
| RouterPlan.PlanIsDetermined | smart-router/src/smart_router/graph_v59.py:367-413 | entry, order and table are determined by the graph |
| Pipeline.PlanMovesForward | smart-router/src/smart_router/control_plane.py:2248-2266 | every transition of a compiled plan leads to a later stage |
| Pipeline.RunStage | smart-router/src/smart_router/control_plane.py:362-419 | what a stage of each kind does to the routing and which port it answers, kind by kind: the classifier's three answers, `true` exactly when the condition matches, `matched` exactly when all that is required is available, `healthy` exactly without a model or when the registry says so, the choice of route and load balance, retries, and the fallbacks added |
| Pipeline.FallbacksAreComplete | smart-router/src/smart_router/control_plane.py:413-418 | every candidate that stands for a model other than the current one is listed afterwards |
| Pipeline.FallbacksInOrder | smart-router/src/smart_router/control_plane.py:413-418 | the old list comes first; what is added stands for candidates at ascending places |
| Pipeline.NextIsTheEdge | smart-router/src/smart_router/control_plane.py:426-428 | over a planned graph the next stage is the target of the edge at the answered port, else of the edge at the default port, else there is none |
| Pipeline.NextFollows | smart-router/src/smart_router/control_plane.py:426-428 | over any table, an absent and an empty entry alike lead to the default one, and from there to the end |
| Pipeline.WalkTable | smart-router/src/smart_router/control_plane.py:421-428 | the walk, stop by stop: each stage does what its kind does and the next stands where its port leads; it equals one sweep over the stage list, at strictly increasing positions, ends outside the list within its length and never at the visited guard |
| Pipeline.RunGated | smart-router/src/smart_router/control_plane.py:429-438 | without a table the stages run in order, each as its kind does, and exactly up to the first condition that fails |
| Pipeline.ApplyRouterPipelines | smart-router/src/smart_router/control_plane.py:349-442 | all enabled rows in order, each on the routing the one before left: a walk from its entry to its end, or its list up to a failing condition |
| Pipeline.FallbacksStayDistinct | smart-router/src/smart_router/control_plane.py:413-418 | fallbacks only grow, without repeats, blanks or the current model |
| Pipeline.SweepKeepsBounds | smart-router/src/smart_router/control_plane.py:410-418 | retries stay between 0 and 5 and never fall, fallbacks stay distinct and only grow, over a whole sweep |
| RouterStudio.NormalIsPlannable | smart-router/src/smart_router/graph_v59.py:367-384 | what normalizing accepts meets everything planning assumes and has no cycle |
| RouterStudio.SameKinds | smart-router/src/smart_router/control_plane.py:2229-2232 | the router studio's node kinds are exactly the stage kinds the pipeline allows |
| RouterStudio.CompileDefinition | smart-router/src/smart_router/control_plane.py:2243-2266 | a definition compiles unless normalizing refuses it, a port is used twice or the starts are not one; the result moves forward and has its entry |
| RouterStudio.StagesKeepTheirKinds | smart-router/src/smart_router/control_plane.py:2253-2258 | every compiled stage has the kind of its node |
| RouterStudio.OutcomeIsDeclared | smart-router/src/smart_router/control_plane.py:362-419 | whatever port a stage answers, its kind declares it as an output |
| OrchestratorPlan.Bounded | smart-router/src/smart_router/orchestrator_v60.py:233-246 | any value lands between 1 and the limit, and one already there stays |
| OrchestratorPlan.NormalizePlan | smart-router/src/smart_router/orchestrator_v60.py:249-291 | each error exactly when it is due; otherwise exactly the usable raw steps, at ascending places, each with its own agent and 1 to 3 attempts |
| OrchestratorPlan.PlanIsDetermined | smart-router/src/smart_router/orchestrator_v60.py:249-291 | that description admits one answer only |
| OrchestratorInput.PlansSayWhatWasSent | smart-router/src/smart_router/orchestrator_v60.py:249-291 | told by the planner's raw steps: which error is due; otherwise one step for each one within the limit whose title or action is not blank, with its title, action, agent, first eight named tools, flag and attempts from that step's own fields |
| OrchestratorPlan.FallbackPlan | smart-router/src/smart_router/orchestrator_v60.py:294-312 | the single-step plan is within the same bounds |
| OrchestratorPlan.ApprovalDecision | smart-router/src/smart_router/orchestrator_v60.py:315-335 | approval is required exactly when there is a reason: mode always, or in mode auto a flagged step, a dangerous text, a high-risk tool or a tool nobody registered, each named if and only if it applies |
| OrchestratorRun.RunRecord.constructor | smart-router/src/smart_router/orchestrator_v60.py:465-506 | a new run has one pending, untouched row per step with its approval requirement |
| OrchestratorRun.RunRecord.CallStep | smart-router/src/smart_router/orchestrator_v60.py:632-683 | one attempt as specified: the call, the answer, the row after it and the status; what the row and the call then hold is `OrchestratorAnswers.OutputsAreAnswers` and `OrchestratorAnswers.CallsAreTold` |
| OrchestratorRun.RunRecord.Advance | smart-router/src/smart_router/orchestrator_v60.py:600-710 | the loop and the review do what the recursive specification does, and terminate by remaining attempts |
| OrchestratorRun.RunRecord.Decide | smart-router/src/smart_router/orchestrator_v60.py:713-748 | refused exactly when no row waits; approval reopens the row, rejection refuses it and skips all pending rows |
| OrchestratorSafety.AdvanceKeeps | smart-router/src/smart_router/orchestrator_v60.py:600-710 | advance keeps the invariant and leaves a run waiting for a person or ended, never active |
| OrchestratorSafety.DecideKeeps | smart-router/src/smart_router/orchestrator_v60.py:713-748 | decide is accepted exactly on a run that waits, and keeps the invariant |
| OrchestratorSafety.RunsAreSound | smart-router/src/smart_router/orchestrator_v60.py:600-748 | over any calls: done rows, at most one current row, then untouched rows all pending or all skipped; status agrees; every call was due |
| OrchestratorSafety.RunsFollowTheirPlan | smart-router/src/smart_router/orchestrator_v60.py:486-503 | rows keep their steps and approval requirements over any calls |
| OrchestratorSafety.ApprovalComesFirst | smart-router/src/smart_router/orchestrator_v60.py:623-651 | no call of a step that needs approval precedes its approval; each call is told the stored outputs of all earlier steps, whose contents `OrchestratorAnswers.CallsAreTold` states |
| OrchestratorAnswers.OutputsAreAnswers | smart-router/src/smart_router/orchestrator_v60.py:655-683 | over any calls: a done step's output is the answer of its last call, whole up to 200000 characters and cut and marked beyond; no other step has one; a step has failed if and only if its last allowed attempt got no answer, and its error is that one, cut at 4000 |
| OrchestratorAnswers.CallsAreTold | smart-router/src/smart_router/orchestrator_v60.py:632-654 | over any calls: each call is told exactly the kept answers of all earlier steps, in order, and the error of its own previous attempt, or none on the first |
| OrchestratorSafety.AcceptedPlansAreBounded | smart-router/src/smart_router/orchestrator_v60.py:233-291 | an accepted plan has 1 to 20 steps at ascending places with 1 to 3 attempts each |
| OrchestratorSafety.AtMostSixtyCalls | smart-router/src/smart_router/orchestrator_v60.py:600-710 | over any calls a planned run makes at most sixty step calls, per step at most its attempts, and one review |
| OrchestratorSafety.TerminalIsFinal | smart-router/src/smart_router/orchestrator_v60.py:607-608 | a run that has ended never changes again |
| OrchestratorSafety.WhatTerminalMeans | smart-router/src/smart_router/orchestrator_v60.py:684-709 | completed if and only if all steps are done and the review is no failure; rejected if and only if a step was refused; no ended run waits |
| Sticky.RouteStore.Resolve | smart-router/src/smart_router/database.py:105-193 | purge, both expiry tests and the tier update, whatever expired rows the purge picks |
| Sticky.RedisRouteStore.Resolve | smart-router/src/smart_router/database.py:267-345 | key expiry, both expiry tests and the tier update |
| Sticky.RedisRouteStore.Write | smart-router/src/smart_router/database.py:347-353 | one lifetime folds both limits, never below a second |
| Sticky.StoresAgree | smart-router/src/smart_router/database.py:98-353 | over every history in order both stores give identical results, if a session's end is the same in both |
| Sticky.StoresDisagree | smart-router/src/smart_router/database.py:347-353 | for every other setting some history tells them apart |
| Hysteresis.StoreIsLawful | smart-router/src/smart_router/database.py:105-193 | over every history each session follows a law told without counters, and its row counts its run of low proposals |
| Hysteresis.SessionsEnd | smart-router/src/smart_router/database.py:105-193 | over every history in order, whatever the purges pick: a session is alive if and only if its last proposal is less than the time to live ago and its beginning less than the maximal age; both times are kept |
| Hysteresis.ExistedExactly | smart-router/src/smart_router/database.py:129-146 | a proposal is told that its session existed if and only if it was alive by that rule, and creates one otherwise |
| Hysteresis.KeptTierIsExplained | smart-router/src/smart_router/database.py:148-190 | the previous tier and the reason in a row are those of the last promotion or demotion since the session began |
| Hysteresis.NeverBelowProposal | smart-router/src/smart_router/database.py:148-170 | the selected tier is never below the proposed one |
| Hysteresis.CountStaysBelow | smart-router/src/smart_router/database.py:162-172 | the stored count stays below the turns that demote |
| Hysteresis.DemotionIsEarned | smart-router/src/smart_router/database.py:162-172 | a turn demotes if and only if it is the last of that many proposals in a row, each on a live session and strictly below the one tier held |
| Gates.ApplyCapabilityGates | smart-router/src/smart_router/routing.py:294-325 | the lowest tier at or above the proposal that has the vision and the tools a request needs and room for its prompt at the token factor beside its output; an error exactly when there is none; the reason is the first of these that the proposal lacks |
| Gates.SelectTier | smart-router/src/smart_router/main.py:327-352 | the tier after stickiness and override serves the request in that sense; the override happens exactly when the sticky tier does not |
| Gates.CapableServes | smart-router/src/smart_router/routing.py:273-291 | the gate's test on rounded tokens is exactly that room in real numbers, with vision and tools |
| Gates.UpgradeStaysCapable | smart-router/src/smart_router/routing.py:273-291 | from a capable tier a higher one is capable if and only if the client set a limit or the prompt fits beside its own output limit |
| Gates.PolicyUpgradeIsSafe | smart-router/src/smart_router/control_plane.py:229-232 | the policy's minimum tier keeps a request capable when the limits meet the exact condition or the client set a limit |
| Gates.UpgradesAreSafeExactly | smart-router/src/smart_router/routing.py:273-291 | for every validated configuration, all upgrades between two tiers keep every request if and only if the lower tier admits no prompt or its largest one, at the configured factor, fits beside the higher tier's output limit |
| Gates.RisingHeadroomFits | smart-router/src/smart_router/config.py:186-200 | headroom that never falls is enough, under every factor |
| Gates.FallingHeadroomCanBeHarmless | smart-router/src/smart_router/config.py:133-135 | at the default factor 1.15 a configuration with falling headroom that loses no request |
| Gates.ValidationIsNotEnough | smart-router/src/smart_router/config.py:186-200 | a configuration that passes every start-up check and loses a request on upgrade |
| Gates.DefaultsNeverBreak | smart-router/src/smart_router/config.py:149-153 | with the default limits no upgrade breaks a request, under any factor |
| Gates.OverrideIsNeverNeeded | smart-router/src/smart_router/main.py:346-352 | over every session history, when the limits meet the exact condition, the sticky tier serves whatever the gated proposal serves |
| CircuitBreaker.ProviderHealthRegistry.Available | smart-router/src/smart_router/provider_health.py:32-46 | refuses exactly an open circuit before its time, and turns a later one half-open |
| CircuitBreaker.ProviderHealthRegistry.Record | smart-router/src/smart_router/provider_health.py:48-79 | counts the answer and moves the state |
| CircuitBreaker.HistoriesAreSound | smart-router/src/smart_router/provider_health.py:32-89 | open or half-open if and only if consecutive failures reach the threshold; they equal the qualifying failures since the last success; totals add up; a closed circuit leaves no time behind |
| CircuitBreaker.DegradedExactly | smart-router/src/smart_router/provider_health.py:48-79 | over every history all answers and failures are counted, and a model is degraded if and only if, since the last success, some failure below the threshold found the failure rate too high |
| CircuitBreaker.RefusedExactly | smart-router/src/smart_router/provider_health.py:32-79 | a model is refused if and only if its streak reached the threshold and its last failure is less than a cooldown ago |
| Chunks.WindowEnd | smart-router/src/smart_router/knowledge_v51.py:29-33 | a window ends behind the last line or sentence end of its second half, if there is one, and else at its full size or the end of the text |
| Chunks.ChunkText | smart-router/src/smart_router/knowledge_v51.py:22-38 | windows cover the stripped text without a gap, bounded in size and distance, each ending in its place and the next starting the overlap before that; the chunks are their non-blank contents in order |
| Chunks.WindowsAreDetermined | smart-router/src/smart_router/knowledge_v51.py:22-38 | that description admits one list of windows |
| Chunks.NothingIsLost | smart-router/src/smart_router/knowledge_v51.py:22-38 | every index lies in a window |
| Chunks.EveryWordIsKept | smart-router/src/smart_router/knowledge_v51.py:34-38 | every visible character is inside a window that became a chunk |
| Chunks.DefaultsBoundTheCount | smart-router/src/smart_router/knowledge_v51.py:22-38 | with the default sizes at most ceil(length / 681) windows |
| ChatStream.CollapseChatStream | smart-router/src/smart_router/proxy.py:92-142 | the loop builds the joined text, the merged calls in index order and the last choice's finish reason |
| ChatStream.MergeToolCall | smart-router/src/smart_router/proxy.py:145-157 | the call at the delta's index takes its id and name if given and its argument piece; others stay |
| ChatStream.CallsJoinPieces | smart-router/src/smart_router/proxy.py:145-157 | a call's arguments are all pieces sent for its index, in arrival order |
| ChatStream.CallsTakeLastNames | smart-router/src/smart_router/proxy.py:145-157 | a call is there if and only if some delta names its index; its id and its name are the last non-empty ones sent for it |
| ChatStream.FinishIsLastChoice | smart-router/src/smart_router/proxy.py:92-142 | the finish reason is that of the last chunk with a choice, and there is none exactly when there is no such chunk |
| ResponsesStream.ChatToResponses | smart-router/src/smart_router/responses.py:382-430 | text, then calls, or one empty message; incomplete for `length` and `content_filter`, each with its reason, and completed for every other finish reason |
| ResponsesStream.StreamStatusTells | smart-router/src/smart_router/responses.py:732-767 | the streamed status is incomplete, with its reason, if and only if the last finish reason any chunk gave is `length` or `content_filter` |
| ResponsesStream.OutputsAgree | smart-router/src/smart_router/responses.py:620-672 | streamed and buffered items are equal for a non-empty answer whose tool indexes first appear in ascending order |
| ResponsesStream.OutputsAgreeExactly | smart-router/src/smart_router/responses.py:620-672 | the items are equal if and only if something was said or called and the calls in the order they began are, one by one, the calls in index order |
| ResponsesStream.DistinctCallsMustAscend | smart-router/src/smart_router/responses.py:620-672 | when no two calls are equal, that holds if and only if the indexes first appear in ascending order |
| ResponsesStream.StatusesAgreeExactly | smart-router/src/smart_router/responses.py:760-767 | the statuses are equal if and only if the last choice gives the reason or the kept reason means completion |
| ResponsesStream.EmptyAnswersDiffer | smart-router/src/smart_router/responses.py:408-411 | an empty answer streams no item and buffers one empty message |
| ResponsesEvents.StreamFits | smart-router/src/smart_router/responses.py:437-767 | after any chunks the translator holds what they add up to, and its log carries the same text and arguments piece by piece under numbers from 1 |
| ResponsesEvents.FinishReportsTheAnswer | smart-router/src/smart_router/responses.py:674-693 | the last event of a finished stream is the streamed answer |
| ResponsesEvents.StreamAgreesWithBuffer | smart-router/src/smart_router/responses.py:674-693 | the stream ends with exactly what the buffered completion translates to if and only if both conditions, on items and on status, hold |
| ResponsesEvents.PlacesMatchWithText | smart-router/src/smart_router/responses.py:532-551 | a call's output index is its position in the final output if and only if there is a message |
| ResponsesLifecycle.StreamIsFollowed | smart-router/src/smart_router/responses.py:516-582 | after any chunks a strict client, which breaks on any event out of turn, has pieced together the text and each call's arguments as the translator holds them |
| ResponsesLifecycle.StreamsAreWhole | smart-router/src/smart_router/responses.py:620-709 | every finished and every failed stream is whole: announced first, every item added before its pieces, every ending event repeats the pieces before it, the last event lists exactly the items that were done |
| ResponsesLifecycle.WholeMeans | smart-router/src/smart_router/responses.py:516-709 | in any whole stream each item is added once and done once, and the last event lists the joined text and then every call with its own joined arguments |
| ResponsesTranslator.StreamTranslator.AddText | smart-router/src/smart_router/responses.py:516-528 | opens stream and message if needed, then one delta |
| ResponsesTranslator.StreamTranslator.AddToolDelta | smart-router/src/smart_router/responses.py:553-582 | announces a new call once, at the next output index, then one delta if there are arguments |
| ResponsesTranslator.StreamTranslator.Consume | smart-router/src/smart_router/responses.py:732-767 | text, calls and finish reason of one chunk |
| ResponsesTranslator.StreamTranslator.Finish | smart-router/src/smart_router/responses.py:674-693 | closes message and calls in order and reports the answer, once |
| ResponsesTranslator.StreamTranslator.Fail | smart-router/src/smart_router/responses.py:695-709 | closes what is open and reports the failure, once |
| ResponsesTranslator.WrapStream | smart-router/src/smart_router/responses.py:776-797 | the client receives the log with the last batch before the ending twice, so the log itself exactly when that batch was empty |
| ResponsesInput.InputToMessages | smart-router/src/smart_router/responses.py:141-195 | every part exactly once and in order, neighbouring calls in one message, one empty turn for nothing |
| ResponsesInput.AddItem | smart-router/src/smart_router/responses.py:156-192 | the pending flag says exactly that the last message holds calls, so a call is appended safely |
| ResponsesInput.GroupingIsUnique | smart-router/src/smart_router/responses.py:155-192 | parts and grouping determine the messages |
| ResponsesInput.TranslationReadsBack | smart-router/src/smart_router/responses.py:141-195 | the messages, read back as items, are the instructions and then every item that said anything, in order and each in its one form, with neighbouring calls in one message |
| ResponsesInput.RoundTrip | smart-router/src/smart_router/responses.py:382-430 | an answer's output sent back as input restores the text and the ordered calls with ids, names and arguments |
| AnthropicStream.StreamFits | smart-router/src/smart_router/anthropic.py:375-552 | after any chunks the log is a well-formed open message that carries exactly what they add up to |
| AnthropicStream.FinishedStreamIsComplete | smart-router/src/smart_router/anthropic.py:460-494 | every log ended by finish is a complete message; its text and each call's JSON are the upstream pieces joined |
| AnthropicStream.FailedStreamNeverCompletes | smart-router/src/smart_router/anthropic.py:496-505 | every log ended by fail ends in an error, holds no message_stop and can never complete |
| AnthropicStream.DeltaIsInsideItsBlock | smart-router/src/smart_router/anthropic.py:395-478 | in a complete log each delta lies between the start, of its kind, and the stop of its own block |
| AnthropicStream.CompleteIsFramed | smart-router/src/smart_router/anthropic.py:375-494 | a complete log begins with its only message_start and ends with its only message_stop |
| AnthropicStream.BlocksStartAndStopOnce | smart-router/src/smart_router/anthropic.py:395-478 | in a complete log the blocks are numbered from 0 without a gap, each started exactly once and stopped exactly once, in that order |
| AnthropicTranslator.MessageTranslator.AddText | smart-router/src/smart_router/anthropic.py:408-415 | opens message and text block if needed, then one delta |
| AnthropicTranslator.MessageTranslator.AddToolDelta | smart-router/src/smart_router/anthropic.py:417-458 | opens a new call's block once, at the next index, then one delta if there are arguments |
| AnthropicTranslator.MessageTranslator.Consume | smart-router/src/smart_router/anthropic.py:525-552 | text, calls and stop reason of one chunk |
| AnthropicTranslator.MessageTranslator.FinishBlocks | smart-router/src/smart_router/anthropic.py:460-478 | stops the text block and then each tool block in start order |
| AnthropicTranslator.MessageTranslator.Finish | smart-router/src/smart_router/anthropic.py:480-494 | the ending, once |
| AnthropicTranslator.MessageTranslator.Fail | smart-router/src/smart_router/anthropic.py:496-505 | the error, once |
| AnthropicTranslator.WrapStream | smart-router/src/smart_router/anthropic.py:554-577 | the client receives the log with the last batch before the ending twice, so the log itself exactly when that batch was empty |
| AnthropicAgreement.ChatToAnthropic | smart-router/src/smart_router/anthropic.py:292-340 | text, then calls with their parsed input, or one empty text; `max_tokens` for `length`, `tool_use` for the two call reasons, `end_turn` for every other |
| AnthropicAgreement.StreamReasonTells | smart-router/src/smart_router/anthropic.py:525-552 | the streamed stop reason is `max_tokens` or `tool_use` if and only if the last finish reason any chunk gave is `length`, or one of the two call reasons |
| AnthropicAgreement.ClientContent | smart-router/src/smart_router/anthropic.py:375-494 | what a client puts together from a finished log: the calls in the order they began under their first id and name, the text in the place where it began, and the reported reason |
| AnthropicAgreement.ContentsAgreeExactly | smart-router/src/smart_router/anthropic.py:292-340 | streamed and buffered content are equal if and only if something was said or called, no call began before the text, and the calls in the order they began read like the calls in index order |
| AnthropicAgreement.ContentsAgree | smart-router/src/smart_router/anthropic.py:292-340 | in particular with text first, ascending indexes, ids and names sent at once and arguments that are objects |
| AnthropicAgreement.ReasonsAgreeExactly | smart-router/src/smart_router/anthropic.py:551-552 | the stop reasons are equal if and only if the last choice gives the finish reason or the kept one means the end of the turn |
| AnthropicAgreement.StreamAgreesWithBuffer | smart-router/src/smart_router/anthropic.py:480-494 | the message read off a finished log is the buffered translation if and only if both conditions hold |
| AnthropicAgreement.LateNamesAreLost | smart-router/src/smart_router/anthropic.py:417-458 | a name that comes with the second piece reaches the buffered answer and not the client of the stream |

## Left out

- Docker, SSH, Telegram, HTTP, OpenSSL and SQL engines: each call is one atomic change or a parameter; `_refresh_protected_ids` and the engine checks after consume are the parameter `checksPass`.
- Signatures, request secrets and random ids: verdicts come from the approver only, submissions from the brokers only, nonces, tokens and pending ids are fresh; the canonical digest is injective.
- The text of summaries: only that it is a function of feature and request. It is not injective, so nothing is claimed about what it hides.
- Plugin.Pending.Execute: each plugin handler is atomic up to its broker call; two handlers of one process that interleave inside a handler are not modelled.
- Capabilities.CapabilityStore.Consume: the clock readings and other threads' calls that the loop meets are a parameter; in the protocol one clock serves as wall clock and monotonic clock.
- The policy generation is a number that an administrator's change raises by one; the file it is read from, and a failed read that falls back to the environment's value, are not modelled.
- A restart of the approver, which keeps its table, and the audit table.
- GraphNormal.NormalizeGraph: text is ASCII as far as trimming goes, `str()` of values that are no strings is taken as given, configuration and metadata objects are carried unread, the schema version is omitted.
- RouterStudio.CompileDefinition: node configurations carry no `id` or `type`, which they could overwrite; definitions given as a stage list, `linear_node_order` and the description are omitted.
- Pipeline.ApplyRouterPipelines: condition expressions, the profile table, health answers and candidate choice are functions of an environment; traces are omitted.
- OrchestratorRun.RunRecord.Advance: a process that dies mid-step, runs deleted meanwhile, timestamps, `run.error`, metrics, audit and prompts are omitted; the run lock makes each call atomic.
- OrchestratorPlan.NormalizePlan: profiles and notes are omitted, agents are resolved by a function.
- Sticky.RedisRouteStore.Resolve: the Redis server removes a key by the same clock; a key is a pair, not its concatenated text; a value that is no JSON, failing stores and the `failure_count` column are omitted.
- Gates.ApplyCapabilityGates: the token factor is a real number; scoring, learned models and explicit tier requests only choose the proposal.
- CircuitBreaker.ProviderHealthRegistry.Record: the first row of a model, whose defaults are unset, is excluded; latency, health scores and metrics are omitted.
- ChatStream.CollapseChatStream: chunks are parsed and well typed; raw lines, JSON nulls, list contents and choices after the first are omitted.
- ResponsesTranslator.StreamTranslator.Finish: ids, model, usage and `add_tool_call`, which nothing calls, are omitted; a generated call id is the empty string.
- ResponsesInput.InputToMessages: items arrive classified and their contents converted; image parts are opaque.
- AnthropicAgreement.ChatToAnthropic: the completion has one choice and its arguments are text; json.loads is a function that says whether a text is an object, other JSON or none; a generated call id is the empty string.
- AnthropicTranslator.MessageTranslator.Finish: usage and message ids are omitted; the branch that opens a block at the end is dead, since a block opens with its entry.
- Tools, tool choice, response formats, request translation to the Messages API and token counting.
- Budgets, costs, access lists, guardrails, rate limits, schema validation, the deny patterns, feature extraction, admin panels, dashboards and configuration scripts.

# KubePolaris: verified models

KubePolaris manages Kubernetes clusters. Most of it is plumbing around HTTP, client-go and a database; this project
models the parts that are algorithms or shared state, and proves what they promise for every input, every
interleaving and every run. Everything that comes from outside (the Kubernetes API, the language model, the pod
executor, JSON parsing, clocks, Go's map iteration order) is a parameter or a nondeterministic step.

| File | What it models |
|---|---|
| `InformerProtocol.dfy`, `InformerManager.dfy` | the cluster informer manager: a step system over all interleavings, and the lock-protected objects, each method proved to take exactly one step of it |
| `ArthasPolicy.dfy`, `ArthasPlan.dfy` | the risk policy for Arthas commands; applying it to a plan in place; extracting JSON from a model's answer |
| `ArthasExecutor.dfy`, `ArthasSession.dfy` | executing one command; the diagnosis session with its message-driven handler |
| `ArthasRuns.dfy`, `ArthasReports.dfy`, `ArthasRounds.dfy`, `ArthasOrder.dfy`, `ArthasTrace.dfy` | what holds over every run of it; when reports and dones are sent, step by step and over a whole round; what map iteration order can change; what the client is told about each command |
| `ToolCalls.dfy`, `AiChat.dfy`, `ProviderStream.dfy` | reassembling streamed tool calls, the bounded tool-calling loop with its event trace and conversation, and the stream that feeds it |
| `Utf8.dfy`, `CommandExtraction.dfy`, `TerminalTracker.dfy` | recovering typed commands from raw terminal output that arrives in arbitrary chunks |
| `PodListing.dfy` | namespace permissions and the pod list: wildcard scans, deduplication, search, paging |
| `Search.dfy`, `SearchMatches.dfy` | the quick search with its early exits, and the global search; what the two find, object by object |
| `KubectlSessions.dfy` | reference counts of kubectl terminal pods against the cleanup worker |
| `GoStrings.dfy`, `Wrappers.dfy` | the parts of Go's `strings` and `strconv` that these need; an option type |

Code that changes state is written as methods over fields, arrays and loops, each proved equal to a function of the
old state or of the inputs; the theorems are about those functions.

## What the proofs found

The model follows the code, also where the code does not do what one would expect. Each of these has its exact
condition proved, for all inputs.

- A prompt whose commands all run unattended and all fail gets no `done`; with initial evidence it gets a report and
  no `done` (`ArthasReports.PromptVerdict`, `ArthasReports.FailedRoundIsNotClosed`).
- Resolving by command text takes whichever equal command Go's map iteration finds first. The remaining texts do not
  depend on it; whether a later request by identifier still matches does, exactly when its text is another one and the
  plan holds a second command with the identified one's text (`ArthasOrder.AgreementIsExact`,
  `ArthasOrder.BareIdentifierIsOrderDependent`).
- Against what its refusal text asks for (a class and a method without wildcards, and a numeric limit), a watch or trace
  passes wrongly in exactly two ways and is refused wrongly in exactly one (`ArthasPolicy.WatchVerdict`): the `-n` that
  is found limits nothing, as in `watch com.Foo bar -name` (`ArthasPolicy.FlagPassesForALimit`); an option hides a
  missing target or a wildcard, as in `watch -n 5 * *` (`ArthasPolicy.WildcardHidesBehindALimit`); a `*` in an option is
  taken for a wildcard, as in `watch -x* com.Foo bar -n 5` (`ArthasPolicy.StarredFlagIsRefused`). Behind a limit written
  first the target is never looked at (`ArthasPolicy.LeadingLimitHidesTheTarget`), so `watch -n 5` passes
  (`ArthasPolicy.WatchNeedsNoClass`).
- A confirm that carries a pending identifier and another text executes that text and takes the identified command out
  as done, with the other result as evidence (`ArthasReports.ConfirmTakesItsOwnText`,
  `ArthasReports.ConfirmCanTakeAnotherCommand`): confirming the `heapdump` of `cmd-1` with the text `jvm` does
  (`ArthasReports.HeapdumpIsTakenByJvm`).
- When the context of a model stream runs out, the error event competes with the cancellation. If it loses, the chat
  shows a truncated answer as a complete one (`ProviderStream.HandlerSeesEnd`, `ProviderStream.LostErrorLooksComplete`,
  `ProviderStream.TheErrorCanBeLost`).
- Tool calls are listed for the indices 0 to n-1, n being their number: with any other index set calls are dropped
  (`ToolCalls.NoCallLost`).
- Shell redirections look like prompts to the command audit (`CommandExtraction.RedirectionIsMistakenForAPrompt`); what
  is recorded after an Enter is the command on the line exactly under the condition of
  `TerminalTracker.EnterRecordsTheCommand`.
- The audit's escape stripping never finds anything to strip (`TerminalTracker.SessionKeepsPrintable`), because the
  tracker has dropped the ESC before. A piece of output changes nothing exactly when it has no visible part
  (`TerminalTracker.HarmlessMeansInvisible`), and every escape sequence has one: all of it but the ESC stays in the line
  (`TerminalTracker.EscapeSequenceIsKeptAsText`). Behind a coloured prompt the record of `ls` is `[0mls`
  (`CommandExtraction.ColourResetIsTakenForTheCommand`, `TerminalTracker.ColourResetIsRecorded`).
- An empty allow-list entry lists the pods of all namespaces, while the permission check matches it with none
  (`PodListing.EmptyEntryListsEverything`, `PodListing.ScansEqualFilter`).
- The slice of the page panics exactly when its bounds, wrapped to 64 bits, are negative or out of order
  (`PodListing.PagePanics`); that includes a page that is not a number, for every page size of at least 1
  (`PodListing.UnparsablePagePanics`). For positive parameters the page is the intended one exactly when its end fits
  into 64 bits or the wrapped bounds lie behind the list (`PodListing.PageIsExact`); a page far out can be the first one
  again (`PodListing.HugePageIsTheFirst`).
- The cleanup worker deletes the pod of an open terminal in two cases, and no others: the terminal was activated between
  the worker's read and its delete call, or the client spelled the cluster ID in another than canonical form
  (`KubectlSessions.EveryLossIsARaceOrASpelling`; a run for each: `KubectlSessions.ConnectingDuringCleanupLosesThePod`,
  `KubectlSessions.OtherSpellingsHideAConnection`).
- The `sync.Once` around closing a stop channel never suppresses a close: no interleaving tries twice
  (`InformerProtocol.CloseFindsChannelOpen`).

## Model

| member | source | states |
|---|---|---|
| `InformerProtocol.InvPreserved` | internal/k8s/manager.go:62-163 | every step of every goroutine keeps: what the map holds is started, open and its cluster's own; an open runtime is in the map or held by the stop that removed it; a synced flag means all informers synced |
| `InformerProtocol.RuntimesAreSafe` | internal/k8s/manager.go:62-128 | in every interleaving of Ensure, StopForCluster and Stop: runtimes in the map are open and unshared, no stop channel is closed twice, and none leaks |
| `InformerProtocol.CloseFindsChannelOpen` | internal/k8s/manager.go:426-433 | the delayed close of StopForCluster always finds its channel open |
| `InformerProtocol.StopClosesEverything` | internal/k8s/manager.go:437-446 | after Stop, with no close outstanding, every runtime ever created is closed exactly once |
| `InformerProtocol.CreatedEqualsRemovedPlusPresent` | internal/k8s/manager.go:62-128 | for every stretch of a run and every cluster: runtimes created = removed + change in the map |
| `InformerProtocol.RuntimesAreConserved` | internal/k8s/manager.go:418-446 | from the start: created = removed + (1 if present) |
| `InformerProtocol.ListerIsNilAfterRemoval` | internal/k8s/manager.go:265-275 | after an Ensure, a lister asked for later is nil exactly when the cluster was removed once more than created again since |
| `InformerProtocol.RuntimesAreTheEnsured` | internal/k8s/manager.go:62-128 | in every run the runtimes are, one by one, what the creating Ensure calls asked for, with the rollout informer exactly where the probe found rollouts |
| `InformerProtocol.EnsureIsStable` | internal/k8s/manager.go:66-68 | Ensure calls with no stop of the cluster in between return the same runtime |
| `InformerProtocol.RunsOnlyGrow` | internal/k8s/manager.go:131-165 | no run takes back a sync, reopens a channel, drops a runtime or changes what a waiter returned |
| `InformerProtocol.SuccessfulWaitMeansSynced` | internal/k8s/manager.go:252-263 | a successful wait means all ten informers, and the rollout informer where enabled, have synced and stay synced; no waiter's channel is closed twice |
| `InformerProtocol.WaitOnSyncedSucceedsAtOnce` | internal/k8s/manager.go:131-134 | a wait on a runtime that has synced succeeds at once and for good |
| `InformerProtocol.EnsureAndWaitOnSynced` | internal/k8s/manager.go:252-263 | so EnsureAndWait for a known cluster that has synced returns its runtime without waiting |
| `InformerProtocol.WaitVerdict` | internal/k8s/manager.go:159-164 | in every run a wait has failed exactly when its select took the context, or took the channel while the runtime had not synced; it has succeeded exactly when it was called on a synced runtime or took the channel of one |
| `InformerProtocol.WaitCanTimeOut` | internal/k8s/manager.go:159-161 | the caller's context can always end a wait, with failure |
| `InformerProtocol.WaitCanSucceed` | internal/k8s/manager.go:136-158 | while its runtime is open a wait can still succeed: ten informers syncing, eleven with rollouts, are enough |
| `InformerProtocol.WaiterCanReturn` | internal/k8s/manager.go:153-164 | a waiter whose caches synced or whose runtime stopped is two steps from returning, with success exactly in the first case |
| `InformerManager.ClusterRuntime.constructor` | internal/k8s/manager.go:80-85 | a new runtime is not started, not synced and open |
| `InformerManager.ClusterRuntime.StopOnce` | internal/k8s/manager.go:429-431 | closes the channel the first time only |
| `InformerManager.ClusterInformerManager.EnsureForCluster` | internal/k8s/manager.go:62-128 | takes exactly the Ensure step; a known cluster gets its runtime back, a failing client changes nothing |
| `InformerManager.ClusterInformerManager.TakeForStop` | internal/k8s/manager.go:419-424 | takes exactly the Remove step and hands over the removed runtime |
| `InformerManager.ClusterInformerManager.CloseTaken` | internal/k8s/manager.go:426-433 | takes exactly the Close step; whatever ran in between, this call closes the channel |
| `InformerManager.ClusterInformerManager.StopForCluster` | internal/k8s/manager.go:418-434 | alone, is Remove followed by Close |
| `InformerManager.ClusterInformerManager.CloseEntry` | internal/k8s/manager.go:440-445 | one iteration of Stop closes one entry and deletes it |
| `InformerManager.ClusterInformerManager.CloseAll` | internal/k8s/manager.go:440-445 | in any iteration order, deleting while iterating closes every entry |
| `InformerManager.ClusterInformerManager.Stop` | internal/k8s/manager.go:437-446 | takes exactly the StopAll step |
| `InformerManager.ClusterInformerManager.MarkSynced` | internal/k8s/manager.go:153-156 | sets the flag, which is the CachesSynced step |
| `InformerManager.ClusterInformerManager.BeginWait` | internal/k8s/manager.go:131-134 | takes exactly the Wait step, and is ready exactly if the runtime has synced |
| `InformerManager.ClusterInformerManager.FinishWait` | internal/k8s/manager.go:159-164 | takes exactly the Timeout or the Deliver step, and returns the outcome |
| `ArthasPolicy.NormalizeKeepsTokens` | internal/services/arthas_policy.go:94-96 | normalizing keeps the token list and is empty only for a blank command |
| `ArthasPolicy.DecisionFollowsTokens` | internal/services/arthas_policy.go:41-92 | the risk is the one read off the token list; exactly the non-low risks need confirmation; unattended execution means low risk and the switch on |
| `ArthasPolicy.DecisionByFirstWord` | internal/services/arthas_policy.go:41-131 | the whole policy by the first word, in any case: low risk for exactly nine words, always dangerous for exactly six, bounded or not for watch and trace, medium for all others, high for nothing at all, and the reason for each |
| `ArthasPolicy.SpacingIsIrrelevant` | internal/services/arthas_policy.go:94-104 | commands with equal tokens get equal decisions |
| `ArthasPolicy.CaseIsIrrelevant` | internal/services/arthas_policy.go:98-104 | commands that differ only in the case of the command word get equal decisions |
| `ArthasPolicy.NormalizingIsIrrelevant` | internal/services/arthas_policy.go:41-45 | so do the normalized text and the text with blanks around it |
| `ArthasPolicy.WatchVerdict` | internal/services/arthas_policy.go:52-63 | every watch or trace is medium risk exactly when bounded, else high; against a class, a method and a numeric limit read off the words with options set aside, it passes wrongly exactly when the limit is no number or an option hides a bad target, and is refused wrongly exactly for a star in an option |
| `ArthasPolicy.VerdictOfTokens` | internal/services/arthas_policy.go:133-149 | the same for every token list |
| `ArthasPolicy.FlagPassesForALimit` | internal/services/arthas_policy.go:133-149 | any flag that starts like a limit, behind any plain target, passes without limiting |
| `ArthasPolicy.WildcardHidesBehindALimit` | internal/services/arthas_policy.go:133-149 | a wildcard target behind a limit passes |
| `ArthasPolicy.StarredFlagIsRefused` | internal/services/arthas_policy.go:133-149 | a complete command with a star in its first option is refused |
| `ArthasPolicy.LeadingLimitHidesTheTarget` | internal/services/arthas_policy.go:133-149 | a limit written first makes any watch or trace medium risk, rightly so exactly when some limit is a number and the words behind name a plain target |
| `ArthasPolicy.WatchNeedsNoClass` | internal/services/arthas_policy.go:133-149 | `watch -n 5` is one |
| `ArthasPlan.ApplyPolicy` | internal/services/arthas_agent.go:323-332 | rewrites the commands in place to the specified ones, position by position |
| `ArthasPlan.ApplyPolicySettles` | internal/services/arthas_agent.go:323-332 | every command agrees with the policy; a blank identifier becomes `cmd-` and the position counted from 1, given ones, texts and order are kept; doing it again changes nothing |
| `ArthasPlan.ApplyPolicyKeepsIdsDistinct` | internal/services/arthas_agent.go:325-327 | identifiers end up distinct exactly when the given ones are distinct and none equals a generated one |
| `ArthasPlan.ExtractionUndoesWrapping` | internal/services/arthas_agent.go:206-218 | an object wrapped in fences and prose comes back exactly when no `{` precedes and no `}` follows it |
| `ArthasPlan.ExtractionUndoesFencing` | internal/services/arthas_agent.go:206-218 | a text without an object comes back from any of the three opening fences, with a closing fence or none, and blanks around |
| `ArthasExecutor.Exec` | internal/services/arthas_session.go:90-106 | there is a result unless the connection failed; the error is that of the connection or the stream |
| `ArthasExecutor.ExecuteConfirmed` | internal/services/arthas_session.go:185-200 | passes both on; output within the limit is untouched; longer output becomes stdout without its last newlines, a heading and stderr, of which the first bytes up to the limit and a notice are kept |
| `ArthasExecutor.ShownIsBounded` | internal/services/arthas_session.go:337-342 | so a client never gets more than the limit and the notice |
| `ArthasExecutor.Execute` | internal/services/arthas_session.go:177-183 | attempts a command exactly when the policy lets it run by itself, and then shows and fails as above |
| `ArthasSession.DiagnosisState.Start` | internal/handlers/arthas.go:344-349 | a new round replaces prompt, plan and evidence and forgets what was pending |
| `ArthasSession.DiagnosisState.AddPending` | internal/handlers/arthas.go:351-359 | stores under the identifier, or under the text, or not at all |
| `ArthasSession.DiagnosisState.AddEvidence` | internal/handlers/arthas.go:377-381 | appends non-empty evidence |
| `ArthasSession.DiagnosisState.ResolvePending` | internal/handlers/arthas.go:361-375 | removes the command with the identifier, else the first visited one with the text, and says whether it did |
| `ArthasSession.ArthasHandler.StorePendingCommands` | internal/handlers/arthas.go:242 | remembers the plan's commands by identifier, later ones winning |
| `ArthasSession.ArthasHandler.ExecuteWSCommand` | internal/handlers/arthas.go:395-416 | the events and the evidence of one execution, in all five outcomes |
| `ArthasSession.ArthasHandler.RunPlanned` | internal/handlers/arthas.go:247-261 | one plan command is executed or set aside; what the client is told of it is `ArthasTrace.PromptTellsEverything` |
| `ArthasSession.ArthasHandler.RunPlan` | internal/handlers/arthas.go:246-262 | the loop over the plan, state and events |
| `ArthasSession.ArthasHandler.HandlePrompt` | internal/handlers/arthas.go:236-269 | the prompt message |
| `ArthasSession.ArthasHandler.HandleCommand` | internal/handlers/arthas.go:270-281 | the ad-hoc command message, which leaves the state alone |
| `ArthasSession.ArthasHandler.HandleConfirm` | internal/handlers/arthas.go:287-313 | the confirm message |
| `ArthasSession.ArthasHandler.HandleSkip` | internal/handlers/arthas.go:314-321 | the skip message |
| `ArthasSession.ArthasHandler.HandleWSMessage` | internal/handlers/arthas.go:229-325 | the handler is the step function of the session on state and trace |
| `ArthasRuns.PlanTurnEffect` | internal/handlers/arthas.go:246-262 | the prompt step executes exactly the automatic commands in plan order, appends exactly the results that succeeded, and sends no report or done on the way |
| `ArthasRuns.PlanTurnPending` | internal/handlers/arthas.go:248-252 | it adds exactly the held-back commands to pending, under their identifiers or, without one, under their texts |
| `ArthasRuns.PromptLeavesHeldBackPending` | internal/handlers/arthas.go:246-262 | pending is then exactly the held-back commands, each under its identifier or its text, if and only if these keys are distinct and not empty |
| `ArthasRuns.AppliedPlanLosesNothing` | internal/handlers/arthas.go:246-262 | which holds for every plan that went through applyPolicy with identifiers that do not clash |
| `ArthasRuns.PendingShrinksByOne` | internal/handlers/arthas.go:302-321 | a confirm or skip that matches takes exactly one command out; any other message but a new round leaves the session as it was |
| `ArthasRuns.RoundConserves` | internal/handlers/arthas.go:270-321 | over any messages of a round: pending + resolved is constant, and evidence grows by the confirmed results in order and by nothing else |
| `ArthasRuns.EvidenceOfEveryRun` | internal/handlers/arthas.go:229-325 | over every run: evidence = initial evidence of the last prompt, then automatic results in plan order, then confirmed results in confirmation order; with distinct keys, what is unresolved is still pending |
| `ArthasReports.UnattendedMeansLowRisk` | internal/handlers/arthas.go:246-262 | whatever is executed in any state without a confirm is low-risk by its own tokens, starts with one of the nine words of the whitelist and needs the switch; a confirm executes just the command it names |
| `ArthasReports.EmptyingStepSendsOneDone` | internal/handlers/arthas.go:301-321 | the step that empties pending ends in exactly one done, with the report over all evidence right before it exactly when there is evidence, which there is after every confirm; any other resolving step sends neither |
| `ArthasReports.ResolvingStepClosesRound` | internal/handlers/arthas.go:301-321 | for any executor, also one that breaks its contract: the step that empties pending ends in report and done if there is evidence, else in a bare done for a skip and in nothing for a confirm; no other resolving step sends either |
| `ArthasReports.ConfirmLeavesClientWaiting` | internal/handlers/arthas.go:302-309 | an emptying confirm is silent exactly for an empty text, no evidence and neither result nor error, so only if the executor broke its contract |
| `ArthasReports.SessionReportsOnlyWhenIdle` | internal/handlers/arthas.go:391-393 | every report is an ad-hoc one, made from the executed text and its one result, or covers the whole non-empty evidence with nothing pending |
| `ArthasReports.ConfirmTakesItsOwnText` | internal/handlers/arthas.go:283-303 | the command that a confirm takes out is the text it executed exactly unless its identifier is pending with another text |
| `ArthasReports.ConfirmCanTakeAnotherCommand` | internal/handlers/arthas.go:283-303 | then the other text runs, the identified command is gone and the other result is evidence |
| `ArthasReports.PromptVerdict` | internal/handlers/arthas.go:263-269 | exactly when a prompt step sends a done, and exactly when it sends a report |
| `ArthasReports.FailedRoundIsNotClosed` | internal/handlers/arthas.go:327-329 | a round whose only command fails never gets a done |
| `ArthasTrace.PromptTellsEverything` | internal/handlers/arthas.go:236-262 | for every prompt with a plan: the plan is sent first and once; confirmation is asked for exactly the held-back commands, in plan order; each automatic command runs in plan order and its own result or error is the very next event, or without a PID it fails; the round is about that prompt and plan |
| `ArthasTrace.AskedIsNotLowRisk` | internal/handlers/arthas.go:247-251 | the commands asked about are exactly those that are not low-risk by their tokens, or all while the switch is off |
| `ArthasTrace.CommandIsAnswered` | internal/handlers/arthas.go:270-281 | an ad-hoc command without a PID fails, held back is asked about, else runs and gets its error, or its result, a report and a done |
| `ArthasTrace.ConfirmIsAnswered` | internal/handlers/arthas.go:282-301 | a confirm runs its own text, or else that of its identifier, and its result or error is the very next event; nothing else runs, and a failure leaves the session as it was |
| `ArthasTrace.OthersAreAnswered` | internal/handlers/arthas.go:237-241 | a failed plan and an unknown message get one error and change nothing; a skip runs and asks nothing; an ad-hoc command leaves the session alone |
| `ArthasTrace.RequestTakesWhatItNames` | internal/handlers/arthas.go:361-375 | a skip or a confirm that did not fail takes out the command with its identifier, else one with its text, else none |
| `ArthasTrace.ConfirmByIdRunsItsCommand` | internal/handlers/arthas.go:283-286 | a confirm with the bare identifier of a plan command runs that command, however late in the round |
| `ArthasTrace.EvidenceShowsTheOutput` | internal/handlers/arthas.go:418-427 | evidence is the command, then the whole stdout, then stderr where there is any, and nothing else but headings |
| `ArthasTrace.EvidenceTellsResultsApart` | internal/handlers/arthas.go:418-427 | so equal evidence of a command without stderr means equal output |
| `ArthasRounds.StepTally` | internal/handlers/arthas.go:270-321 | the reports and dones of one message after the prompt: one of each per ad-hoc execution, a done per skip with nothing to skip, and those of closing the round |
| `ArthasRounds.RoundTally` | internal/handlers/arthas.go:270-321 | the same over all messages after the prompt, where the round is closed at most once |
| `ArthasRounds.WholeRoundTally` | internal/handlers/arthas.go:235-325 | a whole round: besides ad-hoc ones one report exactly when everything held back is resolved and there is evidence, and at most one done, the prompt's or that of the last resolution, besides those of ad-hoc executions and idle skips |
| `ArthasOrder.ResolveIsConfluent` | internal/handlers/arthas.go:368-373 | whichever key is visited first, the request succeeds or fails alike and the same texts remain pending |
| `ArthasOrder.RoundIsConfluent` | internal/handlers/arthas.go:282-321 | two runs of a round that differ only in visiting orders, every confirm and skip naming its command well, send the same events in the same order and end with the same evidence and the same pending texts |
| `ArthasOrder.AgreementIsExact` | internal/handlers/arthas.go:361-375 | resolving never depends on the visiting order exactly for requests whose identifier and text agree or whose identified command is the only one with its text |
| `ArthasOrder.BareIdentifierIsOrderDependent` | internal/handlers/arthas.go:361-375 | without the text, whether an identifier matches can depend on the visiting order |
| `ArthasOrder.ConfirmByIdAgrees` | internal/handlers/arthas.go:283-286 | a confirm by identifier is completed with that command's text |
| `ToolCalls.AssemblyIsPerIndex` | internal/handlers/ai_chat.go:140-159 | a call exists for exactly the indices that occur; its name and arguments are the concatenations, and its identifier the last non-empty one, of its own fragments |
| `ToolCalls.InterleavingIsIrrelevant` | internal/handlers/ai_chat.go:140-159 | streams with the same fragments per call assemble alike |
| `ToolCalls.SplittingIsIrrelevant` | internal/handlers/ai_chat.go:140-159 | so do streams in which a fragment arrives in two pieces |
| `ToolCalls.Emit` | internal/handlers/ai_chat.go:171-176 | the listing loop computes the specified list |
| `ToolCalls.NoCallLost` | internal/handlers/ai_chat.go:171-176 | no call is lost exactly when the indices are 0 to n-1; then they come in index order |
| `ToolCalls.EmittedCalls` | internal/handlers/ai_chat.go:171-176 | for any indices the list holds exactly the calls whose index is below their number, each once, in index order |
| `ToolCalls.OneBasedCallIsLost` | internal/handlers/ai_chat.go:172-173 | a single call with index 1 is dropped |
| `AiChat.MergeDeltas` | internal/handlers/ai_chat.go:140-159 | the inner loop merges an event's fragments |
| `AiChat.ReadStream` | internal/handlers/ai_chat.go:124-168 | the loop over the channel, up to its error, its done event or its end |
| `AiChat.ExecuteCalls` | internal/handlers/ai_chat.go:186-204 | the loop over the calls, events and tool messages |
| `AiChat.RunRound` | internal/handlers/ai_chat.go:112-211 | one pass through the round loop; what it is decided by and adds are `AiChat.RoundVerdict`, `AiChat.RoundAddsMessages` and `AiChat.CallIsAnswered` |
| `AiChat.RunRounds` | internal/handlers/ai_chat.go:111-216 | the bounded loop |
| `AiChat.Chat` | internal/handlers/ai_chat.go:58-86 | an empty request is refused; else the history starts with the system message and the request |
| `AiChat.TraceIsWellFormed` | internal/handlers/ai_chat.go:105-216 | for every provider and tool behaviour: one done, last; at most one error, right before it; each tool call directly followed by its own result; at most ten provider calls |
| `AiChat.ConversationIsWellFormed` | internal/handlers/ai_chat.go:178-206 | the conversation grows by complete rounds only, one assistant message and one answer per call in order; its calls are exactly those in the trace; ten rounds used up end in the limit error, and with a provider whose errors have other texts nothing else does |
| `AiChat.RoundVerdict` | internal/handlers/ai_chat.go:124-214 | for every stream: the chat goes on if and only if no error is met before the done or the end, the last finish reason given up to there is `tool_calls`, and some event up to there carries a call; the content is sent as it comes, and then, if the chat does not go on, the error if there is one and the done |
| `AiChat.RoundAddsMessages` | internal/handlers/ai_chat.go:178-206 | a tool round adds one assistant message with the concatenated content and the assembled calls, then one message per call |
| `AiChat.CallIsAnswered` | internal/handlers/ai_chat.go:186-204 | for each call, the model and the client are told what the tool answered for it, an error as a JSON object |
| `AiChat.RefusalEndsTheChat` | internal/handlers/ai_chat.go:117-122 | a provider that refuses ends the chat with its own error and a done |
| `AiChat.RefusalCanImitateTheLimit` | internal/handlers/ai_chat.go:118-122 | a provider error with the text of the limit ends in it after one call |
| `ProviderStream.ReadLine` | internal/services/ai_provider.go:215-248 | what one line sends |
| `ProviderStream.ChatStream` | internal/services/ai_provider.go:206-263 | the goroutine delivers everything, or what precedes the first event whose select takes the cancellation; the done event is never lost that way |
| `ProviderStream.CancellationCuts` | internal/services/ai_provider.go:250-262 | a cancellation cuts the stream at an event that lost its select, never at the done; without one everything arrives |
| `ProviderStream.TerminalComesLast` | internal/services/ai_provider.go:226-262 | a done or error event is the last one; a done line wins over a read error |
| `ProviderStream.NoiseIsIrrelevant` | internal/services/ai_provider.go:217-239 | lines that send nothing may stand anywhere |
| `ProviderStream.DoneEndsTheStream` | internal/services/ai_provider.go:226-229 | nothing after the done line is sent |
| `ProviderStream.ChannelCarriesChoices` | internal/services/ai_provider.go:213-262 | without cancellation the channel carries exactly the first choices of the parsed chunks before the done line, with content, calls and finish reason, in order, and then its end |
| `ProviderStream.LinesDecideTheRound` | internal/handlers/ai_chat.go:124-170 | from the lines to the round: the chat goes on if and only if there is a done line or reading did not fail, the last finish reason of a first choice is `tool_calls`, and some first choice carries a call |
| `ProviderStream.SentReadsAs` | internal/handlers/ai_chat.go:128-168 | without cancellation, the chat handler sees an error exactly when reading fails before a done line, and cannot tell a missing done line from a present one |
| `ProviderStream.HandlerSeesEnd` | internal/services/ai_provider.go:250-262 | for every delivery, it sees an error exactly when reading fails before a done line and no event was lost to the cancellation |
| `ProviderStream.LostErrorLooksComplete` | internal/services/ai_provider.go:257-262 | after a failed read the round ends in error and done exactly if nothing was lost; otherwise, unless tools were asked for, in a plain done |
| `Utf8.DecodeRune` | internal/handlers/pod_terminal.go:454 | an ASCII byte decodes to itself and alone; any other byte starts a rune outside ASCII that swallows no ASCII byte |
| `Utf8.DecodeEncode` | internal/handlers/pod_terminal.go:454 | decoding undoes the encoding of section 3 of RFC 3629, whatever follows |
| `Utf8.EncodeDecode` | internal/handlers/pod_terminal.go:454 | a sequence is accepted only if it is the encoding of the scalar value it decodes to |
| `Utf8.DecodeIsExact` | internal/handlers/pod_terminal.go:454 | on any bytes: where they start with the encoding of a scalar value that one is decoded, and otherwise the first byte alone is skipped for U+FFFD |
| `Utf8.RangeOfEncoded` | internal/handlers/pod_terminal.go:539 | a range loop over an encoded text visits that text |
| `Utf8.RangeKeepsAscii` | internal/handlers/pod_terminal.go:454 | on any bytes, decoding neither hides nor invents an ASCII byte |
| `Utf8.AsciiOfSplit` | internal/handlers/pod_terminal.go:427-443 | the ASCII part of a stream does not depend on where it is cut |
| `CommandExtraction.StripAnsiLoop` | internal/handlers/pod_terminal.go:535-554 | the loop computes the stripped text |
| `CommandExtraction.StripAnsiKeeps` | internal/handlers/pod_terminal.go:535-554 | a text without ESC is unchanged |
| `CommandExtraction.StripAnsiRemoves` | internal/handlers/pod_terminal.go:535-554 | an escape sequence is removed from ESC up to the next letter, wherever it stands, and the rest is kept |
| `CommandExtraction.ScanPrompts` | internal/handlers/pod_terminal.go:511-518 | the loop over the prompt endings |
| `CommandExtraction.ScanCommands` | internal/handlers/pod_terminal.go:524-529 | finds a common command if there is one |
| `CommandExtraction.ExtractCommandFromLine` | internal/handlers/pod_terminal.go:493-532 | the whole extraction |
| `CommandExtraction.ExtractedIsTrimmedPart` | internal/handlers/pod_terminal.go:493-532 | from any line, what is extracted is a part of its visible text without blanks around |
| `CommandExtraction.ExtractUndoesPrompt` | internal/handlers/pod_terminal.go:504-518 | from prompt followed by command the command comes back exactly when no earlier-tried marker occurs in the line and the prompt's marker does not recur in the command |
| `CommandExtraction.RedirectionIsMistakenForAPrompt` | internal/handlers/pod_terminal.go:508 | a redirection breaks that condition |
| `CommandExtraction.DollarPrompt` | internal/handlers/pod_terminal.go:504-518 | so behind a `$ ` prompt on a line without `#` and another `$` |
| `CommandExtraction.BareLineIsRecorded` | internal/handlers/pod_terminal.go:520-531 | a line in which no prompt is recognised is recorded as a whole exactly when its first word, in any case, is a common command |
| `CommandExtraction.ColourResetIsTakenForTheCommand` | internal/handlers/pod_terminal.go:512-516 | what is left of a colour reset is extracted as a part of the command |
| `TerminalTracker.TerminalSession.HandleInput` | internal/handlers/pod_terminal.go:379-400 | Enter sets the pending flag, Ctrl-C clears the line, and only while auditing and after a successful write; what keys do for the record is in the next rows |
| `TerminalTracker.TypedCommandIsRecorded` | internal/handlers/pod_terminal.go:391-469 | from the key to the record: after input with a CR or LF, output that completes the line to a prompt and a command records one command, which is that one if and only if extraction undoes the prompt |
| `TerminalTracker.CtrlCForgetsTheLine` | internal/handlers/pod_terminal.go:396-398 | after a Ctrl-C the next complete line, and the command recorded from it, hold only what is printed after it |
| `TerminalTracker.OtherKeysChangeNothing` | internal/handlers/pod_terminal.go:391-399 | every other input changes nothing |
| `TerminalTracker.NothingWithoutEnter` | internal/handlers/pod_terminal.go:461-469 | in no session is anything recorded without a CR or LF |
| `TerminalTracker.TerminalSession.TrackRune` | internal/handlers/ssh_terminal.go:213-248 | one decoded character |
| `TerminalTracker.TerminalSession.TrackOutputForCommand` | internal/handlers/pod_terminal.go:450-490 | the range loop over a chunk |
| `TerminalTracker.TerminalSession.ReadOutput` | internal/handlers/pod_terminal.go:426-447 | whatever the chunks, the session ends up as if it had seen the whole stream at once |
| `TerminalTracker.TrackingIgnoresChunks` | internal/handlers/pod_terminal.go:450-490 | output may be cut anywhere, also inside a multi-byte sequence |
| `TerminalTracker.TrackingIsLineSplitting` | internal/handlers/pod_terminal.go:454-489 | tracking is splitting the visible text into lines and extracting from the first non-empty complete line after an Enter |
| `TerminalTracker.SessionIgnoresChunks` | internal/handlers/pod_terminal.go:379-490 | the same in a whole session with keys in between |
| `TerminalTracker.SessionKeepsPrintable` | internal/handlers/pod_terminal.go:485-487 | the buffers hold printable ASCII only, so stripping is the identity on them |
| `TerminalTracker.RecordedCommandsComeFromLines` | internal/handlers/pod_terminal.go:461-468 | each recorded command comes from its own complete line, in order, and commands never outnumber Enters |
| `TerminalTracker.HarmlessMeansInvisible` | internal/handlers/pod_terminal.go:475-487 | for every tracker state, a piece without a newline may be inserted before any continuation without effect if and only if it has no visible part |
| `TerminalTracker.EscapeSequenceIsKeptAsText` | internal/handlers/pod_terminal.go:475-477 | an escape sequence adds all of itself but the ESC to the line, so none is without effect |
| `TerminalTracker.EnterRecordsTheCommand` | internal/handlers/pod_terminal.go:456-469 | after an Enter, output that completes the line to a prompt and a command records one command, which is that one if and only if extraction undoes the prompt |
| `TerminalTracker.ColourResetIsRecorded` | internal/handlers/pod_terminal.go:475-487 | with a colour reset in between, the record starts with its text |
| `PodListing.MatchNamespaceLoop` | internal/middleware/permission.go:393-407 | some entry matches |
| `PodListing.GetAllowedNamespaces` | internal/middleware/permission.go:259-272 | the list, and whether it holds the all-namespaces entry |
| `PodListing.PermittedIsMatch` | internal/middleware/permission.go:393-407 | matching is being covered by some entry of an existing permission: the star, the namespace itself, or a non-empty prefix of it and a star |
| `PodListing.FilterResourcesByNamespace` | internal/middleware/permission.go:373-390 | keeps exactly the resources whose namespace an entry covers, as the star, by name or by prefix, in order, also on the shortcut; none without a permission |
| `PodListing.KeyIsInjective` | internal/handlers/pod.go:260 | keys of namespace and name collide for no two pods, a namespace having no slash |
| `PodListing.FilterNode` | internal/handlers/pod.go:196-200 | keeps exactly the pods of the node, in order |
| `PodListing.ExactScan` | internal/handlers/pod.go:221-235 | collects exactly what the exact entries contribute |
| `PodListing.WildcardScan` | internal/handlers/pod.go:238-254 | collects exactly what the wildcard entries contribute |
| `PodListing.Deduplicate` | internal/handlers/pod.go:257-265 | one pod per key, no key lost |
| `PodListing.ListPartial` | internal/handlers/pod.go:218-268 | the three passes together |
| `PodListing.ScansMatchPermission` | internal/handlers/pod.go:221-254 | for every order, repetition and overlap of entries, the scans contribute exactly the selected pods whose namespace matches, and all others too if there is an empty entry |
| `PodListing.ScansStayAllowed` | internal/handlers/pod.go:227-229 | also when lister calls fail, nothing outside the allow-list is listed |
| `PodListing.ScansEqualFilter` | internal/middleware/permission.go:373-407 | the scans equal the one-pass filter exactly when the empty entry adds nothing |
| `PodListing.EmptyEntryListsEverything` | internal/handlers/pod.go:226 | for every faithful lister, a user with only the empty entry is permitted no namespace and listed every selected pod |
| `PodListing.SearchPods` | internal/handlers/pod.go:271-282 | keeps exactly the pods found, in order |
| `PodListing.FetchPods` | internal/handlers/pod.go:184-268 | the pods wanted, each once; fails exactly when the only lister call of its branch does |
| `PodListing.PagePanics` | internal/handlers/pod.go:289-300 | exactly which page parameters make the slice panic, in 64-bit arithmetic, and which these are while no product overflows |
| `PodListing.UnparsablePagePanics` | internal/handlers/pod.go:133 | a page that is not a number counts as 0 and panics for every page size of at least 1 |
| `PodListing.PageIsExact` | internal/handlers/pod.go:289-300 | for positive parameters, the page is the intended one exactly when its end fits into 64 bits or the wrapped bounds lie behind the list |
| `PodListing.HugePageIsTheFirst` | internal/handlers/pod.go:291 | a page whose offset wraps around is the first page |
| `PodListing.PagesPartition` | internal/handlers/pod.go:289-300 | while the bounds fit into 64 bits, consecutive pages put together are the list, nothing lost, repeated or reordered |
| `PodListing.GetPods` | internal/handlers/pod.go:174-303 | forbidden exactly for a requested namespace that is not covered; else the page of a list holding exactly the pods asked for, each once, newest first, and its length: selected, on the node named directly or in the field selector, in the requested or a covered namespace, with the search text in name, namespace or node |
| `Search.ScanItems` | internal/handlers/search.go:376-391 | the inner loop with its early exit finds the first matches up to the limit |
| `Search.ScanWorkloads` | internal/handlers/search.go:427-545 | the four workload scans, each skipped when full |
| `Search.SearchCluster` | internal/handlers/search.go:358-545 | one cluster extends the four lists by its first matches |
| `Search.QuickTypeResults` | internal/handlers/search.go:336-546 | per type, exactly the first matches of the exhaustive search over the clusters in order, for every limit |
| `Search.QuickSearch` | internal/handlers/search.go:311-557 | the whole answer, with its empty query, its failing cluster list and its default limit |
| `Search.ConcatIgnoresOrder` | internal/handlers/search.go:548-552 | the map's iteration order changes the order of the answer only |
| `Search.ScanFully` | internal/handlers/search.go:101-178 | all matches of one listing by name and by address |
| `Search.ScanAddresses` | internal/handlers/search.go:122-135 | the first address that contains the query |
| `Search.CountAll` | internal/handlers/search.go:283-301 | the statistics count every result once, under its type |
| `Search.GlobalSearch` | internal/handlers/search.go:56-308 | the whole answer; the statistics add up to its length |
| `Search.GlobalIsQuickPlusExtras` | internal/handlers/search.go:72-280 | on one snapshot the global answer is the four unlimited quick answers plus the address matches plus the names of clusters that cannot be ensured, counted with multiplicity |
| `Search.QuickIsWithinGlobal` | internal/handlers/search.go:336-552 | every quick answer, for every limit, is contained in the global one |
| `SearchMatches.QuickListsEveryMatch` | internal/handlers/search.go:348-545 | per type, the exhaustive search is exactly the objects of ensured clusters whose lowered name has the lowered query as a part, each once, cluster by cluster and kind by kind in listing order, and each result shows its object and cluster |
| `SearchMatches.QuickListsEveryCluster` | internal/handlers/search.go:357-369 | and exactly the ensured clusters that match by name |
| `SearchMatches.GlobalListsEveryMatch` | internal/handlers/search.go:72-280 | the global answer is, in order, the clusters that match by name, ensured or not; then for every object its match by name and its match by address, a node's first one with the query in it or a pod's IP; and nothing else |
| `SearchMatches.MatchingNameIsFound` | internal/handlers/search.go:76-545 | both searches find every object of an ensured cluster whose lowered name has the lowered query as a part |
| `KubectlSessions.SessionKeyIsInjective` | internal/handlers/kubectl_pod_terminal.go:126-127 | no two of cluster ID string, user and permission type share a key |
| `KubectlSessions.CleanupKeyMatches` | internal/handlers/kubectl_pod_terminal.go:401 | the worker's key is the connection's exactly for the same pod, the same cluster and a canonical ID string |
| `KubectlSessions.InvPreserved` | internal/handlers/kubectl_pod_terminal.go:136-146 | every step keeps each count equal to the number of counted open connections, and stored counts positive |
| `KubectlSessions.CountsAreRight` | internal/handlers/kubectl_pod_terminal.go:136-170 | so in every interleaving, and a key is present exactly while its number is positive |
| `KubectlSessions.CountIsOpenTerminals` | internal/handlers/kubectl_pod_terminal.go:126-170 | read off the actions alone: the count of a key is the number of terminals connected under it, activated and not disconnected |
| `KubectlSessions.ClosedSessionsLeaveNothing` | internal/handlers/kubectl_pod_terminal.go:140-142 | with all connections closed the map is empty |
| `KubectlSessions.CleanupDecision` | internal/handlers/kubectl_pod_terminal.go:399-425 | at the worker's read a pod is chosen exactly when idle for over an hour and used by no counted connection with a canonical cluster ID |
| `KubectlSessions.UsedAtDelete` | internal/handlers/kubectl_pod_terminal.go:402-422 | in every interleaving, at the delete call a terminal with a canonical ID is on the pod if and only if some activation on the worker's key since the read is still open |
| `KubectlSessions.UsedPodIsKept` | internal/handlers/kubectl_pod_terminal.go:402-422 | so no terminal with a canonical ID that was counted before the read, or not activated since, loses its pod to the delete |
| `KubectlSessions.EveryLossIsARaceOrASpelling` | internal/handlers/kubectl_pod_terminal.go:399-425 | over every run, a terminal loses its pod exactly by an activation between read and delete or by a non-canonical ID |
| `KubectlSessions.ConnectingDuringCleanupLosesThePod` | internal/handlers/kubectl_pod_terminal.go:404-422 | there is such a run for every cluster ID, user and permission |
| `KubectlSessions.OtherSpellingsHideAConnection` | internal/handlers/kubectl_pod_terminal.go:77-78 | for every non-canonical spelling a terminal that was there before the read loses its pod |
| `KubectlSessions.KubectlPodTerminalHandler.Connect` | internal/handlers/kubectl_pod_terminal.go:77-133 | a bad cluster ID is refused; else the connection and its key |
| `KubectlSessions.KubectlPodTerminalHandler.Activate` | internal/handlers/kubectl_pod_terminal.go:167-170 | takes exactly the Activate step |
| `KubectlSessions.KubectlPodTerminalHandler.Disconnect` | internal/handlers/kubectl_pod_terminal.go:136-146 | takes exactly the Disconnect step, counted or not |
| `KubectlSessions.KubectlPodTerminalHandler.ReadCount` | internal/handlers/kubectl_pod_terminal.go:401-420 | takes exactly the ReadCount step and says whether it chose the pod |
| `KubectlSessions.CleanupClusterIdlePods` | internal/handlers/kubectl_pod_terminal.go:399-425 | one pass, with whatever activeSessions holds at each read, deletes in order exactly the pods for which the decision holds |
| `KubectlSessions.PassFollowsTheRun` | internal/handlers/kubectl_pod_terminal.go:399-425 | when the reads of a pass are steps of a run, each decides as the pass does, and up to the next read the worker deletes the pod it chose, once, and no other |
| `GoStrings.ParseFormatRoundTrip` | internal/handlers/kubectl_pod_terminal.go:78 | parsing undoes formatting on 32 bits; formatting undoes parsing exactly on canonical numerals |
| `GoStrings.FieldsOfJoin` | internal/services/arthas_policy.go:95 | splitting undoes joining tokens with blanks |
| `GoStrings.SeparatorsAreWhiteSpace` | internal/services/arthas_policy.go:95 | two tokens are told apart by a character of Unicode's White_Space and by no other |
| `GoStrings.FieldsOfTrimSpace` | internal/services/arthas_policy.go:95 | trimming keeps the token list |

## Left out

- HTTP, WebSocket, gin, gorm, client-go, exec and SSH calls: libraries; their results are parameters of the steps.
- JSON: parsed values are inputs; escaping and validation of tool arguments and results (`escapeJSON`, `ensureJSON`)
  are library behaviour, so the trace holds the values before formatting.
- Request checks of the chat handler other than the empty message list, and of the pod list before the permission
  check: one-line guards.
- The services the handlers call but that are not part of this model (permission records, cluster records,
  `AuditService`, RBAC): they appear as the results their callers rely on. Of `ArthasSessionService` only the passing on of
  results is modelled, not the script it builds.
- The Decision attached to Arthas events, the audit records of Arthas commands, the constant `Type` of a tool call:
  copied fields.
- The handler-wide map of Arthas commands is shared by all sessions in the source; one session is modelled, starting
  from any content of that map.
- `planFromCommands`, `BuildFallbackPlan`, `BuildFallbackReport` and the prompt builders: constant data.
- `FilterNamespaces`, `GetEffectiveNamespace` and `CheckNamespacePermission`: the same match again with one branch
  more.
- Unicode: `strings.ToLower` is modelled on the characters that can become ASCII letters, which is all that the
  comparisons with ASCII words need; in the pod list and the searches it is a parameter.
- The SSH terminal updates its session without a mutex: each tracking step is taken to be atomic there as well.
- Closing of the `done` channel in the pod terminal: check and close are not atomic in the source, so closing at most
  once does not hold as written.
- PodListing.GetPods: pods of equal creation time may come in any order, as `sort.Slice` leaves it; a lister answers each
  call completely or fails. The source does not check the lister for nil and panics when the cluster is stopped between
  ensuring it and listing; when that is, is `InformerProtocol.ListerIsNilAfterRemoval`.
- ArthasPolicy.WatchVerdict: what the refusal text asks for is read with every option but `-n` standing alone, without a
  word of its own.
- KubectlSessions.EveryLossIsARaceOrASpelling: is about counted terminals; what a deletion does to a connection that is
  still preparing its pod is not modelled, and neither is another user of the pod outside the handler.
- InformerProtocol.EnsureIsStable: a deleted cluster may reappear, since a concurrent Ensure can create it again; only
  runs without a stop of that cluster are claimed.
- InformerManager.ClusterInformerManager.EnsureForCluster: building the client and probing for the rollout CRD is one
  nondeterministic answer; the informers themselves are steps that may happen at any time.
- Search.QuickSearch: all clusters are read from one snapshot; replica counts appear as the text they are shown as.
- CRUD and YAML handlers, metrics, ages and timestamps, the user interface: field copying or floating point.

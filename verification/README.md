# SuiteHarness, modelled and proved

This project models the parts of SuiteHarness where state, protocols and budgets meet, and proves
what they promise over every input, every interleaving and every run.

| part | files | what is proved |
|---|---|---|
| Capability grants | `Grants`, `GrantLaws`, `GrantAuthority` | six dictionaries stay inverse to each other; delegation only narrows, and stores exactly what was asked; revoking removes exactly a subtree, for good |
| The run system | `RunBudget`, `Approvals`, `ToolCalls`, `RunSystem`, `RunSystemLaws`, `RunSystemChecks`, `RunSystemRuns`, `RunSystemExact` | any interleaving of runs on one pool, one approval store and one authority keeps every budget, starts each call once, starts it lawfully, and is cut off by revocation |
| Checkpoints | `RunLoop`, `RunLoopLaws`, `RunCheckpoints`, `Runner` | what each iteration records and when a checkpoint is published; a published checkpoint can be resumed, and the resumed run is the interrupted run continued |
| Customer360 | `Sharing`, `SharingLaws`, `SharingRuns`, `SharingReplay`, `SharingExact`, `Customer360` | each command changes exactly what it should; selected means accepted; equal revisions mean an equal view; nothing is visible that was not allowed |
| Context preparation | `Context`, `ContextManager`, `ContextPairing`, `ContextRounds` | tool-call pairing survives dropping rounds; the fewest oldest rounds go; failures are characterised; preparing twice is preparing once |
| Conversation memory | `SessionMemory`, `SessionMemoryRuns` | over a growing and trimmed transcript each completed pair is summarised once, in order |
| Server-sent events | `Sse`, `SseAgreement`, `SseRoundTrip`, `SseText` | events written in any allowed way are read back; the byte decoder does not depend on chunking and agrees with the batch parser |
| Plugin planner | `PluginGraph`, `PluginPlanner`, `PluginSources` | it succeeds exactly on acyclic graphs, with the lexicographically least order |
| Durable protocols | `EventDedup`, `StateStore`, `DurableTransport`, `Tasks` | leases, compare-and-set with replay, a client on top of it, and the task table with its fence |
| Model failover | `Gateway` | a stream never splices two provider attempts |

Each part has the same shape. A value-level specification says what one step does. The class or the
method with the program's own dictionaries and loops is proved to do exactly that step. The laws are
then proved about the specification, by induction over whole runs. Automatic induction is switched off
on every lemma, so each proof is the one written down.

Identifiers that the program draws at random (grant ids, approval tokens, claim and task ids, lease
tokens) are parameters of the steps. Laws that need them to be new say so with a `Fresh` or `Fair`
premise and no other law does. Clocks, JSON, digests, token estimates, the workflow, handlers and the
network are parameters too.

`dafny verify dfyconfig.toml` checks the whole project.

## Model

| member | source | states |
|---|---|---|
| Grants.StepKeepsInv | src/suiteharness/execution/in_memory.py:296-486 | Registering, delegating, revoking, binding and releasing each keep all six dictionaries mutually inverse, the parent links acyclic, every edge attenuating, and every owner absent or current |
| Grants.RunKeepsInv | src/suiteharness/execution/in_memory.py:284-486 | The same over any sequence of operations |
| Grants.AncestorsContain | src/suiteharness/execution/in_memory.py:334-403 | A delegated grant is contained in every ancestor at any distance: tools, capabilities, scope, principal once bound, expiry, owner |
| Grants.LiveIsLocal | src/suiteharness/execution/in_memory.py:388-403 | The walk over all ancestors answers the same as looking at the leaf's own expiry and owner |
| Grants.ResolveExactly | src/suiteharness/execution/in_memory.py:405-420 | A grant resolves if and only if it is stored, is owned or its product is unowned, and, when delegated, is unexpired; what it resolves to is the stored grant |
| Grants.ResolvedChainIsLive | src/suiteharness/execution/in_memory.py:388-420 | If a delegated grant resolves, so does every ancestor, and each contains it |
| Grants.StepNeverRewrites | src/suiteharness/execution/in_memory.py:296-486 | A surviving grant keeps its contents, owner and parent through every operation |
| Grants.GoneStaysGone | src/suiteharness/execution/in_memory.py:306-386 | With new ids for new grants, a removed grant never returns |
| Grants.RevocationIsFinal | src/suiteharness/execution/in_memory.py:422-448 | After a revocation no grant of the subtree resolves in any later state of any run |
| Grants.ReleaseIsExactAndFinal | src/suiteharness/execution/in_memory.py:471-486 | Releasing an activation removes exactly its grants and scopes for good, and changes the resolution of no other owned grant |
| GrantLaws.IssuesExactly | src/suiteharness/execution/in_memory.py:334-386 | A delegation succeeds if and only if the scope is an agent's, the lifetime is positive, the id is new, the parent is stored, unexpired and owned by the running activation or by nobody in an unowned product, and tenant, product, principal, tools and capabilities stay within it |
| GrantLaws.IssueStoresExactly | src/suiteharness/execution/in_memory.py:363-386 | A success adds exactly one grant, below its parent and with its owner, with the requested tools, capabilities and principal, the parent's tenant and product, issued now, expiring at the earlier of the parent's expiry and now plus the lifetime; a refusal changes nothing |
| GrantLaws.IssueErrorIsTrue | src/suiteharness/execution/in_memory.py:347-376 | Every refusal names something that is wrong with the request |
| GrantLaws.RegisterStoresExactly | src/suiteharness/execution/in_memory.py:296-304 | Registering stores the grant as given, owned by the activation that runs its product, or changes nothing for a used id |
| GrantLaws.BindsExactly | src/suiteharness/execution/in_memory.py:450-469 | An activation takes all the products it names, or none if it is malformed or one of them is taken |
| GrantLaws.RevokesExactly | src/suiteharness/execution/in_memory.py:422-448 | A revocation removes exactly the grants on whose way up the revoked one stands, and changes no other |
| GrantLaws.RevokingOwners | src/suiteharness/execution/in_memory.py:441-448 | An owner keeps its entry through a revocation unless it loses its last grant by it, and the entry names exactly what it still owns |
| GrantAuthority.Authority.RegisterGrant | src/suiteharness/execution/in_memory.py:296-304 | The dictionaries after registering are those of the forest with that root added, or unchanged for a duplicate id |
| GrantAuthority.Authority.GrantLive | src/suiteharness/execution/in_memory.py:388-403 | The ancestor loop terminates and decides liveness of the whole chain |
| GrantAuthority.Authority.IssueChildGrant | src/suiteharness/execution/in_memory.py:334-386 | Succeeds or fails with the specified error; a success stores and returns the tools, capabilities and principal that were asked for, in the parent's tenant and product, until the earlier of the parent's expiry and the asked lifetime |
| GrantAuthority.Authority.ResolveGrant | src/suiteharness/execution/in_memory.py:405-420 | Returns what the forest resolves |
| GrantAuthority.Authority.RevokeSubtree | src/suiteharness/execution/in_memory.py:429-448 | The worklist loop terminates and erases exactly the transitive descendants from all dictionaries |
| GrantAuthority.Authority.RevokeGrant | src/suiteharness/execution/in_memory.py:422-427 | Reports whether the grant existed and revokes its subtree |
| GrantAuthority.Authority.BindActivation | src/suiteharness/execution/in_memory.py:450-469 | Binds all products or none, exactly when none is bound and the request is well formed |
| GrantAuthority.Authority.ReleaseActivation | src/suiteharness/execution/in_memory.py:471-486 | Revoking the owner's grants one by one, in any order, leaves exactly the released forest |
| RunBudget.UsageIsWhatWasHandedOut | src/suiteharness/multiagent/budget.py:40-99 | Over any sequence of charges, usage equals the units handed out and stays within the limits; active children equal starts minus ends |
| RunBudget.ReservedAtMostOnce | src/suiteharness/multiagent/budget.py:58-75 | Over any sequence of charges a child call id receives one reservation if it becomes reserved and none otherwise |
| RunBudget.HandsOutAllItCan | src/suiteharness/multiagent/budget.py:40-56 | In any order of charges, iterations and tool slots handed out are what was asked for in time, or all that was left if that is less |
| RunBudget.ChildrenExactly | src/suiteharness/multiagent/budget.py:58-99 | A child call is reserved exactly when time is left, its id is new and both ceilings have room; a child starts exactly under both ceilings; an end frees its place |
| RunBudget.AggregateRunBudget.ChargeIteration | src/suiteharness/multiagent/budget.py:40-45 | Grants one iteration exactly while time and iterations are left |
| RunBudget.AggregateRunBudget.ChargeTools | src/suiteharness/multiagent/budget.py:47-56 | Hands out the smaller of the request and what is left, nothing after the deadline, and refuses negative requests |
| RunBudget.AggregateRunBudget.ReserveChild | src/suiteharness/multiagent/budget.py:58-75 | Reserves a child once per call id within the lower of the two ceilings, and rejects malformed requests unchanged |
| RunBudget.AggregateRunBudget.TakeChildSlot | src/suiteharness/multiagent/budget.py:77-92 | Takes a concurrency slot exactly when one is free under both ceilings |
| RunBudget.AggregateRunBudget.ReleaseChildSlot | src/suiteharness/multiagent/budget.py:94-99 | Returns a slot, or fails when none is active |
| Approvals.ApprovalStore.IssueToken | src/suiteharness/execution/in_memory.py:496-509 | Stores a binding exactly when it is neither from the future nor expired |
| Approvals.ApprovalStore.ConsumeIfMatches | src/suiteharness/execution/in_memory.py:511-538 | Redeems a token for its exact unexpired target and removes it; removes an expired one; keeps one shown for another call |
| Approvals.ApprovalStore.Revoke | src/suiteharness/execution/in_memory.py:540-543 | Removes the token and reports whether it was pending |
| Approvals.RedeemedAtMostOnce | src/suiteharness/execution/in_memory.py:489-543 | In any run of the store with tokens that never repeat, each token is redeemed at most once |
| Approvals.RedeemedWasIssued | src/suiteharness/execution/in_memory.py:496-538 | From an empty store a token is redeemed only for the target it was issued for, by a binding that was valid when stored and is unexpired now |
| Approvals.IssuedIsRedeemed | src/suiteharness/execution/in_memory.py:496-538 | A token issued in time, through any operations that spare it, is redeemed for its own target exactly while unexpired and for no other, and is gone once shown for it or too late |
| Approvals.OthersUntouched | src/suiteharness/execution/in_memory.py:496-543 | No operation touches another token, and nothing is stored for a binding from the future or already expired |
| ToolCalls.ExecuteIntent | src/suiteharness/execution/runner.py:871-1096 | The runner's sequence of checks ends in the specified denial or start, changes the store only as specified, never starts a flagged duplicate, and every start is permitted and carries an approval for this exact call if and only if the tool is destructive, the policy asks for one, or it leaves it to the effects and one of them needs it |
| ToolCalls.StartsExactly | src/suiteharness/execution/runner.py:900-1061 | A handler starts if and only if the call is new, fits, its exact tool and capabilities are in a matching unexpired grant, run mode, schema and policy allow it, and, for a destructive tool, an answer that requires approval, or a default answer with an effect that needs it, an approval for this exact call is in hand |
| ToolCalls.LaunchIsLawful | src/suiteharness/execution/runner.py:1009-1061 | A start carries an approval if and only if the tool is destructive, the channel policy requires one, or it leaves it to the effects and one of them is listed; the approval names this exact call and is valid at that moment; and a token that paid is gone |
| ToolCalls.MisusedTokenSurvives | src/suiteharness/execution/runner.py:1027-1060 | Without a token or an interactive service an approval-bound call is refused; a token of another call neither starts it nor is used up |
| ToolCalls.SpendsExactly | src/suiteharness/execution/runner.py:1018-1060 | A launch takes a token from the store if and only if it needs an approval and shows that token for its own call or too late |
| ToolCalls.VettingSettles | src/suiteharness/execution/runner.py:900-1017 | A call that passes its checks is permitted by the resolved grant for the registered tool, is not denied, and needs an approval exactly when destructive, required, or by default with a listed effect |
| ToolCalls.DenialIsTrue | src/suiteharness/execution/runner.py:900-1061 | Every denial names something that is wrong with the call; a refused approval is missing exactly when there is neither token nor interactive service, and invalid otherwise |
| RunSystemLaws.MoveKeeps | src/suiteharness/execution/runner.py:427-683 | Every step of one run, whatever the others did before it, keeps that run's accounts, call ids and vetted calls, charges the pool what it charges the run, and starts at most one fresh lawful call |
| RunSystemChecks.StartWasChecked | src/suiteharness/execution/runner.py:922-1007 | Every start of an execution goes back to one check event of its own run for that very call, with this tool, this policy answer, and the run's own grant as the authority resolved it then |
| RunSystemLaws.BatchesAgree | src/suiteharness/execution/runner.py:637-656 | The interleaved run and the single loop agree on slots, flags, call ids and overflow of a batch |
| RunSystemRuns.StepKeeps | src/suiteharness/execution/runner.py:389-697 | Every event of the whole system keeps the system invariant |
| RunSystemRuns.BudgetsHold | src/suiteharness/multiagent/budget.py:40-56 | Under any interleaving pool usage is the sum of what runs were charged, all workflow steps and all handler starts stay within the pool, and no run exceeds its own budget counting inherited work |
| RunSystemRuns.StartsAreLawfulAndUnique | src/suiteharness/execution/runner.py:645-656 | In every execution each call id starts at most one handler per run, no inherited call id is started again, and every start is lawful for its own run's caller under the run's own grant as resolved at a check of that very call, and has an approval if and only if the tool is destructive, the policy required one, or its default met a listed effect |
| RunSystemRuns.TokensPayOnce | src/suiteharness/execution/in_memory.py:511-538 | Across all runs of an execution each stored token pays for at most one start and is then gone |
| RunSystemRuns.RevocationReachesRuns | src/suiteharness/execution/runner.py:922-943 | After a grant is revoked, in every continuation a run holding it or a descendant starts a handler only for a call that had passed its checks before the revocation |
| RunSystemExact.AdmitsExactly | src/suiteharness/execution/runner.py:427-439 | A run is ready at once without a checkpoint, takes over counters and call ids of a valid one, and stops at an invalid one |
| RunSystemExact.ChargesExactly | src/suiteharness/execution/runner.py:440-453 | Inherited iterations and tool calls are paid to the pool, and the run is ready exactly when the pool gave everything |
| RunSystemExact.IteratesExactly | src/suiteharness/execution/runner.py:455-477 | A ready run goes on if and only if time is left and both its own budget and the pool have an iteration |
| RunSystemExact.DecidesExactly | src/suiteharness/execution/runner.py:637-648 | A decision turns as many calls as batch, run and pool allow into jobs, flags exactly the repeated ids, and charges and records exactly those |
| RunSystemExact.ChecksExactly | src/suiteharness/execution/runner.py:900-1017 | A call passes its checks if and only if it is no duplicate, valid, not denied, and the run's own grant as resolved now permits the registered tool; otherwise its job goes |
| RunSystemExact.LaunchesExactly | src/suiteharness/execution/runner.py:1019-1061 | A checked call starts its handler if and only if it needs no approval or a matching one is in hand; of the store only the shown token may go |
| RunSystemExact.SettlesExactly | src/suiteharness/execution/runner.py:649-683 | A finished batch makes the run ready again, or stops it if it asked for too much |
| RunCheckpoints.IterateKeeps | src/suiteharness/execution/runner.py:637-665 | One iteration keeps the counters within the run's budget, and keeps the checkpoint-safe flag truthful: counts, ids and observations all fit together |
| RunCheckpoints.RunKeeps | src/suiteharness/execution/runner.py:455-665 | The same over any number of iterations |
| RunCheckpoints.ValidIsResumable | src/suiteharness/execution/runner.py:745-760 | The counting checks on a resumed checkpoint imply that its observations have distinct call ids and re-establish the loop's invariant |
| RunCheckpoints.CheckpointResumes | src/suiteharness/execution/runner.py:745-830 | A published checkpoint is accepted by a fresh read-only run with no less budget if and only if it has no observations or a non-null state and every observation is still allowed; the new run starts with the same iteration, observations, call ids, tool count and workflow state, and the frame it was published at has its route and prompt |
| RunCheckpoints.BatchesAgreeExactly | src/suiteharness/execution/runner.py:965-970 | A batch goes alike in a run and in its resumption if and only if every new call that succeeds is to a tool resumed runs may use |
| RunCheckpoints.ResumedRunContinues | src/suiteharness/execution/runner.py:427-665 | With the same budget and environment the resumed run and the interrupted run end in the same state if and only if the interrupted run was itself a resumption or no new call, in any batch it goes through, succeeds with a tool that resumed runs refuse |
| RunLoopLaws.IteratesExactly | src/suiteharness/execution/runner.py:455-683 | For every turn: without a grant from the pool the run stops; without an acceptable frame it stops one iteration on; an end does too; otherwise the batch is recorded |
| RunLoopLaws.BatchRecorded | src/suiteharness/execution/runner.py:637-670 | A batch lets through the most that calls, pool and own budget allow, reports each call once and in order, a repeat or an untrusted tool of a resumed run never as a success, and leaves the run fit for a checkpoint if and only if every call was a clean success of a trusted tool without token or credentials |
| RunLoopLaws.ResumedFirstFrame | src/suiteharness/execution/runner.py:526-533 | A resumed run whose first frame has another route or prompt ends one iteration on with nothing called, recorded or published; with both equal its batch runs or its end is taken |
| RunLoopLaws.PublishesExactly | src/suiteharness/execution/runner.py:534-541 | A run still going publishes its state, as it is, if and only if the frame is its very first or follows batches that were all safe, the workflow can be resumed there, and the checkpoint fits and holds no credentials |
| RunLoopLaws.WholeRunRecords | src/suiteharness/execution/runner.py:455-670 | Over any run each call let through is counted and reported once, in order, after what was inherited, and the run is fit for a checkpoint exactly while all of them were harmless |
| RunLoopLaws.ResumesExactly | src/suiteharness/execution/runner.py:745-807 | A checkpoint is resumed if and only if the run is a new read-only one with budget left, the checkpoint is small and holds no credentials, its observations have distinct call ids and it lists exactly those, it left a state if it observed anything, and every observation is reusable |
| Runner.RunState.FlagDuplicates | src/suiteharness/execution/runner.py:645-648 | A call is flagged if and only if its id was used in this run or earlier in the batch, and all ids are recorded |
| Runner.RunState.Checkpoint | src/suiteharness/execution/runner.py:808-830 | Saves exactly the current state, with the call ids sorted, unless it is too large or holds credentials |
| Runner.RunState.ExecuteBatch | src/suiteharness/execution/runner.py:637-670 | Slots, observations, call ids and the safety verdict after a batch are the specified ones |
| Runner.RunState.RunTurns | src/suiteharness/execution/runner.py:427-697 | The loop over a mutable run state computes the specified run, whose frames, batches, ends and checkpoints are those stated by `RunLoopLaws`, and notes a checkpoint or none at every iteration it goes through and at no other |
| Runner.PublishedResumes | src/suiteharness/execution/runner.py:526-542 | At each of those iterations the runner publishes the checkpoint that is due and no other; a new run accepts a published one if and only if it has no observations or a non-null state and every observation is still allowed |
| SharingRuns.StepKeeps | src/suiteharness/memory/in_memory.py:446-1111 | Every operation keeps the links between candidates, claims, indexes and policies |
| SharingRuns.SelectedMeansAccepted | src/suiteharness/memory/in_memory.py:802-919 | In every reachable state a claim is selected if and only if its candidate is accepted, and an accepted candidate has exactly one claim |
| SharingRuns.OneCandidatePerVersion | src/suiteharness/memory/in_memory.py:721-771 | In every reachable state there is at most one candidate per claim version and policy revision |
| SharingRuns.ProposingAgainFinds | src/suiteharness/memory/in_memory.py:721-771 | Proposing that version again, under any key, returns that candidate and adds none |
| SharingRuns.StepRaises | src/suiteharness/memory/in_memory.py:802-1111 | Any step that changes an entity's selected claims strictly raises its revision, and none lowers it |
| SharingRuns.EqualRevisionsEqualView | src/suiteharness/memory/in_memory.py:921-954 | Between any two points of a run, an equal entity revision implies the same selected claims |
| SharingRuns.AcceptNeverDenied | src/suiteharness/memory/in_memory.py:846-854 | The policy re-check on acceptance never fires in a reachable state |
| SharingRuns.WithdrawalRetractsAll | src/suiteharness/memory/in_memory.py:591-626 | In every reachable state a withdrawing policy update that is carried out retracts every claim of that producer and touches no other claim |
| SharingRuns.WithdrawalClosesCandidates | src/suiteharness/memory/in_memory.py:1067-1100 | After it every candidate of that producer is rejected or withdrawn |
| SharingRuns.WithdrawalIsEffectiveExactly | src/suiteharness/memory/in_memory.py:513-626 | A withdrawing update that answers with success leaves nothing of the producer shared if and only if it was carried out now or nothing was shared anyway: a replay answers without withdrawing |
| SharingReplay.ReplayedWithdrawalWithdrawsNothing | src/suiteharness/memory/in_memory.py:208-224 | A concrete run in which the replayed update answers with success and a claim stays shared |
| SharingRuns.EveryClaimWasAccepted | src/suiteharness/memory/in_memory.py:846-904 | Every claim of a later state was created by one accepting call of the run, at which the producer's policy allowed its whole audience |
| SharingRuns.VisibleWasAllowed | src/suiteharness/memory/in_memory.py:921-948 | A claim a reader sees was allowed for that reader by the producer at the call that created it, and is allowed by the reader's own policy now |
| SharingRuns.ReplayIsStable | src/suiteharness/memory/in_memory.py:208-233 | A repeated call gets the first reply at any later time without changing anything, and a conflict if it differs |
| SharingExact.SourceWithdrawalIsExact | src/suiteharness/memory/in_memory.py:968-1036 | In every reachable state withdrawing a source that is carried out retracts exactly the shared claims of the caller's tenant and product whose candidate stems from it, withdraws exactly its candidates that are neither rejected nor withdrawn, and changes no other claim or candidate |
| SharingExact.WithdrawalErrors | src/suiteharness/memory/in_memory.py:968-993 | A withdrawal is carried out exactly when the source is in the caller's own profile, and otherwise changes nothing |
| SharingExact.WithdrawalIsCounted | src/suiteharness/memory/in_memory.py:968-1036 | The receipt's two counts are the sizes of those two sets |
| SharingExact.WithdrawalRevisions | src/suiteharness/memory/in_memory.py:1102-1111 | Exactly the entities that lost a claim are raised by one, and the receipt lists them with their new revision |
| SharingExact.PoliciesExactly | src/suiteharness/memory/models.py:157-186 | A peer may receive a property by a rule that names both, or by both lists if there are no rules; reading is decided alike |
| SharingExact.ConfiguresExactly | src/suiteharness/memory/in_memory.py:513-626 | A policy replaces the one it was written against, with the next revision, and only that one; before any, nothing is published or read |
| SharingExact.ConfiguringCandidates | src/suiteharness/memory/in_memory.py:1052-1100 | It makes stale exactly the product's pending candidates it does not permit for their whole audience; a withdrawing one closes all that are open |
| SharingExact.BindsExactly | src/suiteharness/memory/in_memory.py:446-494 | An alias is bound at the expected revision, and nothing else changes |
| SharingExact.ProposesExactly | src/suiteharness/memory/in_memory.py:694-771 | In every reachable state a proposal answers with the one candidate for that version under the current policy, and adds one, with the claim's contents and exactly the permitted audience, only if there was none |
| SharingExact.ProposalErrors | src/suiteharness/memory/in_memory.py:694-740 | A proposal succeeds if and only if the claim is found and asserted, its subject is bound and some peer may receive the property; each refusal has its own cause |
| SharingExact.CurationErrors | src/suiteharness/memory/in_memory.py:802-865 | In every reachable state a decision is carried out if and only if the candidate is pending, of the tenant, and decided at its entity's current revision; each refusal has its own cause |
| SharingExact.CuratesExactly | src/suiteharness/memory/in_memory.py:866-919 | A decision sets the candidate's status and raises its entity by one; an acceptance, and nothing else, adds one selected claim with the candidate's contents |
| SharingExact.CurationIsLogged | src/suiteharness/memory/in_memory.py:866-919 | The decision is logged last with its reason and both revisions, and the reply is what was stored |
| SharingExact.VisibleExactly | src/suiteharness/memory/in_memory.py:921-948 | In every reachable state a reader sees exactly the entity's selected claims that name the reader and that the reader's own policy takes |
| Customer360.Provider.Replay | src/suiteharness/memory/in_memory.py:208-224 | Finds the remembered reply or the conflict |
| Customer360.Provider.BindEntityAlias | src/suiteharness/memory/in_memory.py:446-494 | Binds an alias at the expected revision |
| Customer360.Provider.ConfigurePolicy | src/suiteharness/memory/in_memory.py:513-626 | Installs the policy at the expected revision, invalidates pending candidates and withdraws if asked |
| Customer360.Provider.InvalidatePending | src/suiteharness/memory/in_memory.py:1052-1065 | The loop makes stale exactly the pending candidates the policy no longer allows |
| Customer360.Provider.WithdrawHits | src/suiteharness/memory/in_memory.py:1067-1099 | The loop, in any order, withdraws exactly the hit candidates, retracts their selected claims and counts both |
| Customer360.Provider.BumpEntities | src/suiteharness/memory/in_memory.py:1102-1111 | Raises exactly the touched entities by one |
| Customer360.Provider.ProposeShare | src/suiteharness/memory/in_memory.py:694-771 | Creates or finds the candidate of the claim version under the current policy, with every refusal |
| Customer360.Provider.CurateCandidate | src/suiteharness/memory/in_memory.py:802-919 | Accepts or rejects a pending candidate at the expected revision, with every refusal |
| Customer360.Provider.WithdrawClaim | src/suiteharness/memory/in_memory.py:968-1036 | Does the specified withdrawal and returns its receipt; what that retracts, withdraws and counts is stated by the three withdrawal laws of `SharingExact` |
| Customer360.Provider.ReadShared | src/suiteharness/memory/in_memory.py:921-948 | Returns each visible claim once and nothing else, or refuses when consumption is off |
| Context.ComputeEstimate | src/suiteharness/models/context.py:54-71 | The accumulating loop computes the specified cost |
| Context.ValidatePairs | src/suiteharness/models/context.py:73-93 | The one-pass check decides the specified pairing |
| ContextPairing.WellPairedMeansMatched | src/suiteharness/models/context.py:73-93 | The check accepts exactly the transcripts with unique call ids and exactly one result per call, directly after its turn |
| ContextManager.GroupRounds | src/suiteharness/models/context.py:134-145 | Groups exactly the non-system messages into their rounds |
| ContextManager.TrimTools | src/suiteharness/models/context.py:107-131 | Trims exactly the overlong tool results and counts them |
| ContextManager.DropRounds | src/suiteharness/models/context.py:146-153 | Removes the fewest oldest rounds that fit, never the last one |
| ContextManager.PrepareContext | src/suiteharness/models/context.py:95-160 | The whole preparation is the specified one; its second pairing check never changes the outcome |
| ContextManager.PairingSurvives | src/suiteharness/models/context.py:132-157 | Trimming and dropping any number of rounds keeps a well paired transcript well paired |
| ContextManager.DroppingPays | src/suiteharness/models/context.py:146-153 | Each dropped round makes the request strictly cheaper |
| ContextManager.PreparedIsSound | src/suiteharness/models/context.py:95-160 | A prepared request is within budget and paired, and holds in their original order exactly the system messages and the messages of all but the removed rounds, up to tool text; fewer removed rounds would not have fitted |
| ContextManager.FailureIsExact | src/suiteharness/models/context.py:95-157 | It fails for pairing exactly on ill paired input, and for capacity exactly when the budget is empty or even the last round alone does not fit |
| ContextManager.PrepareIsIdempotent | src/suiteharness/models/context.py:95-160 | Preparing a prepared request changes nothing |
| ContextRounds.ScanCounts | src/suiteharness/models/context.py:134-145 | Rounds begin exactly at the first message that is not a system message and at each user message after a plain assistant answer with no user message since |
| ContextRounds.RemovesWholeRounds | src/suiteharness/models/context.py:134-160 | A prepared request holds, in order and up to tool text, exactly the system messages and the messages after the removed rounds so counted; the last round is never removed |
| ContextRounds.ShortensExactly | src/suiteharness/models/context.py:95-131 | A request that fits is handed on as it is; otherwise exactly the tool results above their share, half the budget divided evenly and kept between 64 and 2048, are replaced by their compacted text and counted |
| ContextRounds.FewestRoundsGo | src/suiteharness/models/context.py:146-157 | What is handed on fits the budget, and with fewer rounds removed it would not have |
| ContextRounds.CapacityExactly | src/suiteharness/models/context.py:95-158 | Preparation runs out of room if and only if the transcript is paired and neither the request as it is nor its last round with shortened results fits |
| ContextRounds.EstimateByKind | src/suiteharness/models/context.py:54-71 | The estimate is 32 per request and 16 per message, plus every name, result id, call list, text, attachment and document of the transcript, each once |
| SessionMemory.ExtractCompletedPairs | src/suiteharness/memory/session_memory.py:81-126 | The loop over events returns the specified pairs or refuses |
| SessionMemoryRuns.ExtractReflects | src/suiteharness/memory/session_memory.py:81-126 | Extraction finds exactly the completed pairs: a user message and the output that answers it with no other message between |
| SessionMemory.FindWindow | src/suiteharness/memory/session_memory.py:151-159 | The backward loop finds the longest suffix within both window limits |
| SessionMemory.SummarizeOlder | src/suiteharness/memory/session_memory.py:161-198 | Summarises the uncovered older pairs in the specified batches and moves the cursor |
| SessionMemory.Prepare | src/suiteharness/memory/session_memory.py:145-205 | The whole preparation is the specified one |
| SessionMemoryRuns.BatchesAreExact | src/suiteharness/memory/session_memory.py:161-198 | The batches concatenate to the input, each is within the byte bound or a single oversized pair, and none was closed early |
| SessionMemoryRuns.SummaryBounded | src/suiteharness/memory/session_memory.py:132-198 | Whatever state it is given, a preparation leaves a summary within its character bound, and degradation is never forgotten |
| SessionMemoryRuns.SummaryIsHandedOn | src/suiteharness/memory/session_memory.py:132-205 | The summary comes from the previous one, cut to the limit, by handing it on from batch to batch: the summariser gets the summary so far and the batch's messages, and without an answer, or for an oversized pair, a marked excerpt of both takes its place |
| SessionMemoryRuns.RefusedExactly | src/suiteharness/memory/session_memory.py:81-126 | A transcript is refused if and only if an event is of another session or its sequence or revision does not exceed those before it |
| SessionMemoryRuns.WindowExactly | src/suiteharness/memory/session_memory.py:151-159 | The window is the end of the transcript within both limits, and one pair more would break a limit |
| SessionMemoryRuns.WindowMoves | src/suiteharness/memory/session_memory.py:151-159 | A longer transcript never moves the window back |
| SessionMemoryRuns.PreparationKeepsAccount | src/suiteharness/memory/session_memory.py:145-205 | One preparation on a longer transcript, possibly trimmed below the cursor, extends what was told to exactly what precedes the new window |
| SessionMemoryRuns.EveryPairExactlyOnce | src/suiteharness/memory/session_memory.py:145-205 | Over any sequence of preparations with the state fed back, told pairs and window are together exactly the completed pairs, in order and without repetition, and the cursor never moves back |
| SessionMemoryRuns.SessionToldExactlyOnce | src/suiteharness/memory/session_memory.py:145-205 | The same from the empty session on, with the cursor always at the last pair told |
| Sse.ParseSse | src/suiteharness/mcp/transports.py:147-203 | The batch loop computes the specified fold over lines, which reads back what is written (`SseRoundTrip.WrittenIsRead`) |
| Sse.FeedByte | src/suiteharness/mcp/streaming.py:17-50 | One byte changes the decoder's variables as specified |
| Sse.IterSse | src/suiteharness/mcp/streaming.py:17-50 | For every chunking, the events and the failure are those of the concatenated stream |
| SseAgreement.DecoderTracks | src/suiteharness/mcp/streaming.py:17-50 | At every byte the decoder's buffers are the lines after the last blank one, and its output is the batch fold of the lines before |
| SseAgreement.DecoderAgreesWithBatch | src/suiteharness/mcp/transports.py:147-203 | For streams within the size limit, incremental decoding and batch parsing of the stream cut after its last blank line give the same events or both fail, for any mix of LF, CR and CRLF |
| SseAgreement.LongStreamsAgree | src/suiteharness/mcp/streaming.py:17-50 | For streams of any length, if the decoder does not fail the batch parser gives the same events exactly when the cut stream is within the size limit |
| SseAgreement.DecoderRaisesExactly | src/suiteharness/mcp/streaming.py:17-50 | For streams of any length the decoder raises if and only if an event it closed is bad, or at some point an event with its closing blank line, or an open event with its unfinished line, exceeds the size limit |
| SseRoundTrip.WrittenIsRead | src/suiteharness/mcp/transports.py:118-203 | Any list of events, written with a data line per part, the labels that are present and a blank line, with or without the space after each colon where the value allows it, with any line ends and with comments or unknown fields between, is parsed back as that list if and only if it is within the limits on bytes and events, no label has a null character or more than 4096 bytes, and no delay exceeds a day; otherwise the parser raises |
| SseRoundTrip.WrittenIsDecoded | src/suiteharness/mcp/streaming.py:17-50 | The incremental decoder yields that list, or raises, under the same conditions |
| SseText.ValidExactly | src/suiteharness/mcp/transports.py:157-163 | The text check accepts exactly the UTF-8 encodings of Unicode scalar values |
| Orders.PopLeast | src/suiteharness/plugins/graph.py:144-148 | Removes the least ready plugin |
| PluginPlanner.BuildGraph | src/suiteharness/plugins/graph.py:107-142 | Builds inverse edges and exact incoming counts, or reports the first unmet requirement in plugin order |
| PluginPlanner.PlaceAll | src/suiteharness/plugins/graph.py:144-153 | Places plugins greedily until none is ready, with counts that tell who is left |
| PluginPlanner.MakePlan | src/suiteharness/plugins/graph.py:107-167 | Succeeds if and only if all requirements are met and the graph is acyclic; the order is topological and lexicographically least; otherwise it reports the first unmet requirement, or, when all are met, exactly the plugins that lead into a cycle |
| PluginGraph.StuckExactly | src/suiteharness/plugins/graph.py:144-160 | When no plugin is ready, those not placed are exactly those from which a cycle is reachable |
| PluginGraph.GreedyIsLeast | src/suiteharness/plugins/graph.py:144-153 | Always taking the least ready plugin gives the least topological order |
| PluginPlanner.PlanIsDetermined | src/suiteharness/plugins/graph.py:107-167 | For given plugins there is one outcome: one plan or one error |
| PluginSources.IndexPlugins | src/suiteharness/plugins/graph.py:66-75 | Indexes the sources by id, exactly when no id is listed twice |
| PluginSources.IndexProviders | src/suiteharness/plugins/graph.py:77-91 | Indexes the offers by service, exactly when no service is offered twice |
| PluginSources.PlanSources | src/suiteharness/plugins/graph.py:49-167 | Plans a listing exactly when it passes those checks, with the outcome specified for its plugins |
| PluginSources.AdmissibleInAnyOrder | src/suiteharness/plugins/graph.py:66-91 | A listing passes the duplicate checks if and only if any other listing of the same sources does |
| PluginSources.ListingOrderIsIrrelevant | src/suiteharness/plugins/graph.py:49-167 | Two listings of the same sources have the same outcome: both refused for a duplicate, or the same plan, the same unmet requirement or the same cycle |
| EventDedup.Deduplicator.ClaimEvent | src/suiteharness/persistence/events.py:169-246 | Claims, refuses a duplicate or reports a full table as specified, rolling back on error |
| EventDedup.Deduplicator.CompleteEvent | src/suiteharness/persistence/events.py:248-282 | Moves an owned claim to the completed table, or reports lost ownership |
| EventDedup.Deduplicator.ReleaseEvent | src/suiteharness/persistence/events.py:284-302 | Deletes only the row still owned by this claim |
| EventDedup.Deduplicator.PurgeExpired | src/suiteharness/persistence/events.py:304-325 | Deletes exactly the expired rows; kept rows and the reported count add up to the rows before |
| EventDedup.RunKeeps | src/suiteharness/persistence/events.py:169-325 | In every run an event id has at most one row across both tables and the rows never exceed the cap |
| EventDedup.RetainedIsNeverClaimed | src/suiteharness/persistence/events.py:169-246 | While its retention lasts, no claim of a completed event succeeds |
| EventDedup.CompletedIsRetained | src/suiteharness/persistence/events.py:248-282 | A completion starts that retention |
| EventDedup.LeaseIsExclusive | src/suiteharness/persistence/events.py:169-246 | Until a lease runs out, and unless its owner gives it up, nobody else claims the event |
| EventDedup.StaleOwnerIsPowerless | src/suiteharness/persistence/events.py:248-302 | In any continuation an owner that lost its claim can neither complete nor release a newer one |
| EventDedup.NewClaimMakesStale | src/suiteharness/persistence/events.py:169-246 | A successful claim makes every earlier token of that event stale |
| EventDedup.ClaimsExactly | src/suiteharness/persistence/events.py:169-246 | A claim is a duplicate if and only if a row of the event is unexpired, and succeeds if and only if it is none and there is room; a full table changes nothing, otherwise exactly the expired rows go and a success leaves its own lease |
| EventDedup.CompletesExactly | src/suiteharness/persistence/events.py:248-282 | Completing succeeds if and only if the task holds the stored lease and it is unexpired; it turns the lease into a marker for the retention time and otherwise changes nothing |
| EventDedup.ReleasesExactly | src/suiteharness/persistence/events.py:284-302 | Releasing deletes the row if and only if the task still holds it, and forgets the claim |
| StateStore.Store.Set | src/suiteharness/persistence/state.py:137-316 | One transaction does the specified compare-and-set with replay, and moves a revision exactly for a new write |
| StateStore.RevisionCountsWrites | src/suiteharness/persistence/state.py:137-316 | Over any run a key's revision grows by exactly the number of its non-replayed successful writes |
| StateStore.OnlyWritesChange | src/suiteharness/persistence/state.py:137-316 | Only a successful write changes a record, to the written value at the next revision |
| StateStore.AppliedAtMostOnce | src/suiteharness/persistence/state.py:137-316 | A command that was once applied is never applied again: not later, not after its retention, not under another key, whatever was written in between |
| StateStore.RetryAnswers | src/suiteharness/persistence/state.py:137-316 | A retry, however late, is answered with the original record or a conflict |
| StateStore.RetryIsExact | src/suiteharness/persistence/state.py:137-316 | If nothing was written after the retention of the first write, a retry in time returns the original record and a later one a revision conflict |
| StateStore.SetsExactly | src/suiteharness/persistence/state.py:137-316 | A write is applied if and only if no reply is retained under its key, its expected revision is the current one and there is room; every other reply has its own cause and changes no record |
| StateStore.RemembersExactly | src/suiteharness/persistence/state.py:137-316 | After an answer the store remembers exactly the unexpired replies, and the write's own for the retention time |
| DurableTransport.Transport.BeginOperation | src/suiteharness/mcp/manager.py:133-141 | Issues the remote call exactly when the transport is neither closed nor failed |
| DurableTransport.Transport.PersistAfterOperation | src/suiteharness/mcp/manager.py:143-192 | Saves the state by compare-and-set at its own revision under a new key, advances on the expected checkpoint and otherwise disables the connection |
| DurableTransport.Transport.Shut | src/suiteharness/mcp/manager.py:202-207 | Closes the transport, between operations, and changes nothing else |
| DurableTransport.RunKeeps | src/suiteharness/mcp/manager.py:133-207 | Over any interleaving of clients and foreign writers, the store has moved at least as far as any client's commits, at most one client has committed, and no client's idempotency key was ever used before |
| DurableTransport.AtMostOneCommits | src/suiteharness/mcp/manager.py:133-200 | Of the transports started from one revision, with remote calls and saves interleaved in any way, at most one ever commits, and every other issues at most one remote operation |
| DurableTransport.FailedStaysSilent | src/suiteharness/mcp/manager.py:194-200 | After a failed save a transport issues nothing more |
| DurableTransport.ClosedStaysSilent | src/suiteharness/mcp/manager.py:202-207 | After closing a transport issues nothing more |
| DurableTransport.IssuesExactly | src/suiteharness/mcp/manager.py:133-141 | A transport issues if and only if it is idle and neither closed nor failed, and closes only when idle |
| DurableTransport.SavesExactly | src/suiteharness/mcp/manager.py:143-200 | In every reachable state a save commits if and only if nobody moved the key since the transport last looked and there is room; otherwise the transport fails and no record changes |
| Tasks.Store.CreateTask | src/suiteharness/multiagent/sqlite.py:113-172 | Creates, finds, conflicts or refuses as specified |
| Tasks.Store.MoveTask | src/suiteharness/multiagent/sqlite.py:213-272 | Moves a task along an allowed transition from the expected status, and only its owner's |
| Tasks.Store.Cancel | src/suiteharness/multiagent/sqlite.py:274-288 | Fences the parent, cancels exactly its open children and counts them |
| Tasks.Store.RecoverInterrupted | src/suiteharness/multiagent/sqlite.py:290-305 | Fails exactly the open tasks and counts them |
| Tasks.RunKeeps | src/suiteharness/multiagent/sqlite.py:24-305 | In every run there is at most one task per parent call, child runs are unique, results exist only on succeeded tasks, and children of a fenced parent are terminal |
| Tasks.StepAdvances | src/suiteharness/multiagent/sqlite.py:24-34 | Every step moves a task forward or leaves it, and never lifts a fence |
| Tasks.TerminalIsFinal | src/suiteharness/multiagent/sqlite.py:213-305 | A terminal record never changes again |
| Tasks.FenceIsFinal | src/suiteharness/multiagent/sqlite.py:143-149 | Once a parent is fenced its set of children and their records are frozen, all terminal |
| Tasks.CancelIsFinal | src/suiteharness/multiagent/sqlite.py:274-288 | After a cancellation, in every later state the parent is fenced, its children are those it had, the open ones are cancelled without a result and the others unchanged |
| Tasks.SucceededWasRunning | src/suiteharness/multiagent/sqlite.py:24-34 | A succeeded task was running at some earlier point of the run |
| Tasks.CreateIsIdempotent | src/suiteharness/multiagent/sqlite.py:131-142 | Repeating a creation returns the one existing task, or a conflict if role or digest differ |
| Tasks.CreatesExactly | src/suiteharness/multiagent/sqlite.py:113-172 | A creation returns the task this call made, conflicts if role or digest differ, is refused for a fenced parent, and otherwise adds one queued task |
| Tasks.TransitionsExactly | src/suiteharness/multiagent/sqlite.py:213-272 | A transition is made if and only if it is permitted, its texts fit, and the owner's task is in the expected status; it sets the status, one time and the texts |
| Tasks.CancelsExactly | src/suiteharness/multiagent/sqlite.py:274-288 | Cancelling ends exactly the parent's open tasks, now, and counts them |
| Tasks.RecoversExactly | src/suiteharness/multiagent/sqlite.py:290-305 | Recovery fails exactly the open tasks of all parents, now, and counts them |
| Gateway.Forward | src/suiteharness/models/gateway.py:299-321 | Delivers exactly the events of one attempt up to its first fault, with the compaction event first |
| Gateway.TryProfile | src/suiteharness/models/gateway.py:294-334 | Retries a profile only after silent attempts and at most its allowance |
| Gateway.VisitProfile | src/suiteharness/models/gateway.py:282-336 | One profile settles the request, by refusing it, by its context or by its first attempt that is not silent, or is passed over |
| Gateway.Stream | src/suiteharness/models/gateway.py:279-339 | The first profile that is not passed over decides output, ending and attempts; if there is none, the ending is the last profile's error |
| Gateway.OneAttemptAnswers | src/suiteharness/models/gateway.py:279-339 | Attempts follow the plan and never exceed the sum of retries plus one per profile, every attempt before the last delivered nothing, and all output is the last attempt's |
| Gateway.NeverSpliced | src/suiteharness/models/gateway.py:299-321 | Everything a caller receives is, in order, one leading compaction event at most and then events of the last attempt; on a normal end the whole attempt |
| Gateway.DeliversExactly | src/suiteharness/models/gateway.py:299-321 | An attempt delivers its events up to the first that is context state or, without parallel calls, names a second call; that one ends it |
| Gateway.OneCallUnlessParallel | src/suiteharness/models/gateway.py:305-312 | A profile without parallel calls never delivers events of two calls |
| Gateway.StreamAnswers | src/suiteharness/models/gateway.py:279-339 | The first profile that is not passed over answers: it refuses, its context is rejected, or the first of its attempts that did not fail silently is delivered; without one the last profile's failure is raised |
| Gateway.AnswerIsDetermined | src/suiteharness/models/gateway.py:279-339 | Profiles and attempts determine what the caller gets |

## Left out

- RunBudget.AggregateRunBudget.TakeChildSlot: models one look at the counter; waiting on the condition and waking up are scheduling.
- Approvals.ApprovalStore.IssueToken: takes the first drawn token that is not pending as a parameter, because the draw loop is random.
- Customer360.Provider.ProposeShare: the two locked sections around the profile read are one step, so a change between them is not modelled.
- Customer360.Provider.WithdrawClaim: the same holds for its two locked sections.
- Customer360.Provider.ReadShared: states the set of claims returned, not their sort by creation time.
- Customer360.Provider.ConfigurePolicy: role checks and rule canonicalisation are left out, as are the `disable_*` wrappers.
- Runner.RunState.RunTurns: runs one loop without others acting in between; interleaving is in `RunSystem`, where each await point is a step of its own, a run may stop at any step, and a final decision is such a stop. Prompts, reflection, streaming and audit events are parameters or absent.
- ToolCalls.ExecuteIntent: ends at the handler's start; result handling only adds failure codes.
- Sse.ParseSse: whether a retry field is a number is a parameter, because it follows the interpreter's notion of digits.
- Context.ComputeEstimate: token and JSON costs are parameters; that trimming a tool result makes it cheaper is not claimed, because it need not.
- StateStore.Store.Set: sizes, credential checks and the namespace listing are left out.
- EventDedup.Deduplicator.ClaimEvent: SQLite is modelled as two tables with atomic transactions and rollback.
- PluginPlanner.MakePlan: version acceptance is a parameter.
- PluginSources.PlanSources: does not say which duplicate is reported, and leaves out attestation, harness version and contribution conflicts, which are single conditions.
- Tasks.Store.MoveTask: identifier syntax and text size checks are left out.
- Whether a built-in tool registration is resumable is a flag of the tool, and whether an old observation is still allowed (freshness of web results, grant, schema, policy) is a parameter of the host.
- The tool registry, audit journal, private profiles, knowledge search, usage ledger, channel routing, prompt rendering, HTTP and stdio transports, sandboxing, OAuth and configuration loading: foreign calls or single checks.
- `multiagent/service.py` and the non-streaming `_complete` of the gateway: they only compose what is modelled here.
- JSON, SHA-256, regular expressions and, outside the event parsers, UTF-8 text are abstract: digests and tokens stand for their inputs, sizes are natural numbers, and a stored checkpoint is at least as large as its resume part.

Where names or comments suggest otherwise, the model follows the code. Resolving a root grant does not
consult its expiry; the runner does. A grant issued before an activation resolves again once the product
is unowned. The batch event parser refuses by total size only, the incremental one by the size of one
event. The event id is reset after each event by both parsers.

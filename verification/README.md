# Verification of the back office's stateful cores

A Dafny 4.11 model of the parts of the system that hold complete state machines or exact
arithmetic, with proofs of what whole runs of them guarantee. `dafny verify dfyconfig.toml` checks
everything.

| file | what it models |
|---|---|
| `FaultingDatabase.dfy` | the fault-injecting wrapper around pooled database clients: a stack of closures, each with its own `inTransaction` flag, over one connection that holds a committed store and perhaps an open transaction; the hook may change before every query |
| `SyntheticScenarios.dfy` | the scenarios of the synthetic business seed: the service calls of each flow, the rows they leave, and the completion test |
| `SyntheticWork.dfy` | what each flow leaves behind and the order in which it works, stated status by status without the plans |
| `SyntheticSeed.dfy` | the seed runner: look up, skip, clean up, run a flow, undo a failure |
| `SyntheticSeedRuns.dfy` | whole runs of the runner: idempotence, containment of failures, convergence of a rerun |
| `ContractStore.dfy` | the in-memory contract store with optimistic locking by `rowVersion` |
| `SubmitProtocol.dfy` | the submit handlers of the action forms and of the record creation form, against a server that applies each idempotency key once |
| `StartLatch.dfy` | the start latch, as a concurrent protocol over all interleavings |
| `Reconciliation.dfy`, `Decimals.dfy` | the truncating fixed-point reconciliation of quantities and money |
| `Cnpj.dfy` | CNPJ check digits modulo 11 and the stateful generator |
| `UatSession.dfy` | the manual UAT session: checklist, begin, close, summary |
| `PortfolioSeed.dfy` | the idempotent seed of the service portfolio |
| `Timeline.dfy` | the business timeline: five histories concatenated and stably sorted |
| `QuotedIdentifier.dfy` | quoting of SQL identifiers and the two statements built from them |
| `Common.dfy` | small shared definitions |

Where the source updates state step by step the model is a class or a method with loops, proved
against a specification function; what the source promises is then proved about that function.

Results that are not what a first reading of the source suggests:

- Without `DbConnectionLost`, any stack of wrappers behaves like one wrapper. With it, an inner
  wrapper swallows the rollback of the wrapper around it, and a COMMIT or ROLLBACK clears the flag
  before the fault test, so that a failed transaction can leave its writes pending; the next
  transaction on that connection then commits them (`LeakedRowIsCommitted`). `TransactionCloses`
  says exactly which schedules of hooks leave the connection open, for every depth of wrapping.
- Every transaction is preceded by a checkout, which wraps the client once more, so the same schedule
  can leak on a client that was checked out before and not on a fresh one (`SecondCheckoutLeaks`).
  `CommittedEqualsReported` gives, for sequences of checkouts and transactions on one client, exactly
  the schedules under which the store gains what was reported. A connection left open by a refused
  write leaks nothing (`RefusedWriteIsNoLeak`).
- A repository that reads its new row back inside the `try`, after COMMIT, reports a failure for a
  committed transaction exactly when the read-back throws (`ReadBackFailure`,
  `CommittedButReportedFailed`).
- The completion test of issued, rejected and expired proposals holds as soon as the proposal
  exists. A rerun of the seed after a crash therefore converges to the clean result exactly when
  `RerunRepairs` holds; `RerunConvergesIff` proves both directions, `CrashIsNotRepaired` is a crash
  that no rerun repairs.
- `expire` on an EXPIRED contract is refused (`contracts-fetch-mock.ts` lines 362-365); the comment
  at line 78 of that file calls it idempotent. The model follows the code (`SecondExpireRefused`).
- PATCH does not repeat the uniqueness check of contract numbers; `NumbersDistinctThroughoutIff` gives
  the exact runs in which numbers stay distinct, `SeededTheft` one request on the seeded store that
  takes a number in use.
- A CNPJ does not show every wrong digit. `AlteredIsValidIff` gives the exact changes that go
  unnoticed, in terms of the two remainders of the number before the change; the generator's own
  numbers at positions 17 and 6017 are such a pair (`UndetectedError`).
- Quantities are stored with six fraction digits but compared after four. The reconciliation can pass
  on unequal quantities (`UnequalQuantitiesPass`), by at most 0.99 units of 10^-4 a line, a bound that
  lists of every length attain, and it can refuse equal ones (`EqualQuantitiesRefused`). It is right
  exactly when the dropped digits of both sides add up to the same (`QuantitiesJudgedIff`).
- Escape releases the submit lock while the request is pending. At most one submit is outstanding
  all the same, because the dialog is then shut and the opening button is disabled.

## Model

| member | source | states |
|---|---|---|
| FaultingDatabase.ConfigurableFaultInjectionPort.SetActiveHook | apps/api/src/failure-injection/configurable-fault-injection.port.ts:16-18 | the hook that is active afterwards |
| FaultingDatabase.ConfigurableFaultInjectionPort.Clear | apps/api/src/failure-injection/configurable-fault-injection.port.ts:24-26 | no hook is active afterwards |
| FaultingDatabase.PoolClient.Connect | apps/api/src/failure-injection/faulting-database.service.ts:90-99 | a refused checkout changes nothing; any other adds one clear wrapper around the client, whatever wrappers it has |
| FaultingDatabase.PoolClient.QueryAt | apps/api/src/failure-injection/faulting-database.service.ts:15-44 | the query of the wrapper at a given depth: flags of all wrappers, database and reply, with rollbacks sent through the wrappers below |
| FaultingDatabase.PoolClient.RollBackAndThrow | apps/api/src/failure-injection/faulting-database.service.ts:23-41 | clears the wrapper's own flag, sends ROLLBACK one level in, ignores its outcome and throws the injected fault |
| FaultingDatabase.PoolClient.Query | apps/api/src/failure-injection/faulting-database.service.ts:15-44 | a query on the outermost wrapper |
| FaultingDatabase.PoolClient.RunTransaction | apps/api/src/auth/repositories/identity-auth.repository.ts:229-261 | the callers' pattern: BEGIN, writes up to the first error, COMMIT, and ROLLBACK after any error, under a schedule of hooks |
| FaultingDatabase.PoolClient.RunTransactionAndReadBack | apps/api/src/catalog/repositories/service-catalog.repository.ts:229-298 | the same pattern with reads through the pool after COMMIT inside the same block, whose throw is followed by ROLLBACK |
| FaultingDatabase.PoolClient.CheckOutAndRun | apps/api/src/catalog/repositories/service-catalog.repository.ts:227-302 | a whole visit: the checkout, which wraps the client once more or, when refused, skips everything, and then that block |
| FaultingDatabase.StackStep | apps/api/src/failure-injection/faulting-database.service.ts:11-47 | without a lost connection one query on a stack of any depth sets or clears all flags together and has the effect of one wrapper |
| FaultingDatabase.StackRefinesOneWrapper | apps/api/src/failure-injection/faulting-database.service.ts:11-99 | over every run of queries and further checkouts without a lost connection, a stack gives the replies, throws and database states of a single wrapper |
| FaultingDatabase.FlagsStayEqual | apps/api/src/failure-injection/faulting-database.service.ts:11-47 | between checkouts, all flags are equal after every query of such a run |
| FaultingDatabase.LostConnectionDivergence | apps/api/src/failure-injection/faulting-database.service.ts:32-41 | under a lost connection, from any flags and any state, two or more wrappers leave the database alone and so part from one wrapper on exactly the statements one wrapper would roll back |
| FaultingDatabase.LostWriteStaysPending | apps/api/src/failure-injection/faulting-database.service.ts:32-41 | a write that one wrapper rolls back and two wrappers leave pending |
| FaultingDatabase.FlagStep | apps/api/src/failure-injection/faulting-database.service.ts:13-42 | one query keeps "flag set implies transaction open", and flag and connection agree afterwards iff the query is no leak and either repairs or found them agreeing |
| FaultingDatabase.AgreementOverARun | apps/api/src/failure-injection/faulting-database.service.ts:13-42 | in every run of one wrapper the flag never claims a transaction that is not open, and flag and connection agree iff every COMMIT or ROLLBACK issued on a lost connection with a transaction open has been followed by a repairing query |
| FaultingDatabase.AskEffect | apps/api/src/failure-injection/faulting-database.service.ts:15-44 | at any depth and hook, a query has the effect of its statement, or throws the fault after at most one rollback |
| FaultingDatabase.TransactionAtomic | apps/api/src/failure-injection/faulting-database.service.ts:15-44 | for every write list, depth and schedule of hooks: success commits all writes and closes, failure leaves the committed store unchanged |
| FaultingDatabase.TransactionCloses | apps/api/src/failure-injection/faulting-database.service.ts:20-41 | at any depth a transaction started on a closed, clear stack ends closed and clear unless the caller's own ROLLBACK meets the lost connection after a failure that no rollback undid; then it ends open |
| FaultingDatabase.AttemptFollowsSchedule | apps/api/src/failure-injection/faulting-database.service.ts:15-44 | from any flags and leftover, at any depth: a transaction's success and what it leaves on the connection follow from its schedule of hooks and the leftover it starts on |
| FaultingDatabase.CommittedEqualsReported | apps/api/src/failure-injection/faulting-database.service.ts:11-99 | over any sequence of checkouts and transactions on one client, with any wrappers and in any state, the store gains exactly the rows of the reported successes iff the schedule lets no visit commit while writes of an earlier one are pending, and none commit writes and then fail to read back; otherwise it gains more |
| FaultingDatabase.SequenceAtomic | apps/api/src/failure-injection/faulting-database.service.ts:11-99 | over such a sequence the store ends with exactly the reported rows and a closed connection iff, besides, the schedule's last leftover is clean |
| FaultingDatabase.ClosingPlansAreAtomic | apps/api/src/failure-injection/faulting-database.service.ts:11-99 | on a closed connection, visits none of which leaves it open at its depth or fails to read back end with exactly the reported rows and a closed connection |
| FaultingDatabase.VisitReportsIff | apps/api/src/failure-injection/faulting-database.service.ts:90-116 | in terms of the six hooks alone: a visit to a client in any state reports success iff the connection is not broken, the checkout meets neither refusing hook, BEGIN and COMMIT no lost connection, each write is accepted and meets neither abort nor lost connection, and each read meets neither lost connection nor unavailable pool and finds its row; the store then gains its rows and the pending ones and the connection is closed |
| FaultingDatabase.RefusedVisitsDoNothing | apps/api/src/failure-injection/faulting-database.service.ts:92-96 | visits that all meet a refused connection or an unavailable pool leave every flag and the database as they were and report nothing |
| FaultingDatabase.FaultFreeVisitsSucceed | apps/api/src/failure-injection/faulting-database.service.ts:90-116 | visits that meet no such fault store and report all their rows in order, end closed, and wrap the client once each |
| FaultingDatabase.WriteOutsideTransaction | apps/api/src/failure-injection/faulting-database.service.ts:23-42 | outside a transaction no hook but a lost connection disturbs a write, at any depth: it is stored at once or refused by the database |
| FaultingDatabase.ReadBackFailure | apps/api/src/catalog/repositories/service-catalog.repository.ts:289-298 | a reported failure follows a commit iff the plan succeeds and the read-back throws; the rows are in the store all the same |
| FaultingDatabase.LeakedRowIsCommitted | apps/api/src/failure-injection/faulting-database.service.ts:20-41 | on a fresh client, a concrete failed transaction whose row the next, successful one commits |
| FaultingDatabase.SecondCheckoutLeaks | apps/api/src/failure-injection/faulting-database.service.ts:11-99 | a schedule that leaks after an earlier checkout and not on a fresh client |
| FaultingDatabase.CommittedButReportedFailed | apps/api/src/catalog/repositories/service-catalog.repository.ts:289-298 | a committed transaction reported as failed |
| FaultingDatabase.RefusedWriteIsNoLeak | apps/api/src/failure-injection/faulting-database.service.ts:20-41 | a plan that leaves the connection open, at any depth, without leaving anything to pick up |
| SyntheticScenarios.TestFlipsOnce | apps/api/src/synthetic-seed/synthetic-scenario-completion.ts:9-113 | along a plan the completion test turns true at one step and stays true |
| SyntheticScenarios.TestExact | apps/api/src/synthetic-seed/synthetic-scenario-completion.ts:20-113 | for every flow and every interruption point, the test says complete iff the milestone of the flow has been reached |
| SyntheticScenarios.ProposalTestExact | apps/api/src/synthetic-seed/synthetic-scenario-completion.ts:28-46 | the four proposal flows count as complete iff the proposal has been created, whatever status they aim at |
| SyntheticScenarios.LastStepTestExact | apps/api/src/synthetic-seed/synthetic-scenario-completion.ts:21-69 | the inactive-client, cancelled-order and pending-measurement flows count as complete iff their last call was made |
| SyntheticScenarios.VerticalTestExact | apps/api/src/synthetic-seed/synthetic-scenario-completion.ts:70-108 | after n calls of a full vertical run the test of each stop holds iff the calls of that stop have been made |
| SyntheticScenarios.StopSatisfiesTest | apps/api/src/uat/uat-vertical-runner.ts:309-498 | a vertical scenario left at one stop satisfies the test of another iff it stopped at or past it |
| SyntheticScenarios.StopIsPrefix | apps/api/src/uat/uat-vertical-runner.ts:309-498 | each stop makes exactly the first calls of the full run |
| SyntheticWork.FinalRows | apps/api/src/uat/uat-vertical-runner.ts:98-498 | every flow, for every list of resources, ends with exactly the rows listed for it: status of client, service, proposal, purchase order, request, order and measurement, counts of documents, planned resources, assets, allocations and execution entries, route and billing flags |
| SyntheticWork.WorkIsOrderly | apps/api/src/synthetic-seed/synthetic-business-seed-runner.ts:169-392 | after any number of calls of any flow the rows are in order and the next call finds what it needs: a proposal only over a published service, a request only with a registered purchase order, conversion only after approval, execution only with every planned resource allocated, a measurement only of a completed order, billing only of an approved measurement |
| SyntheticSeed.SeedServices.Call | apps/api/src/synthetic-seed/synthetic-business-seed-runner.ts:169-392 | one service call: it throws and changes nothing when the fault is due, else it adds its effect to the scenario's rows |
| SyntheticSeed.SeedServices.RunPartialFlow | apps/api/src/synthetic-seed/synthetic-business-seed-runner.ts:152-396 | a partial flow makes exactly the calls of its plan up to the fault; it returns `created`, or `skipped` for a vertical flow, and raises when interrupted |
| SyntheticSeed.SeedServices.RunUatVerticalScenario | apps/api/src/uat/uat-vertical-runner.ts:98-507 | the vertical pipeline makes the calls of its stop, one allocation round a resource, and turns every throw into a failed result |
| SyntheticSeed.SeedServices.AllocateResources | apps/api/src/uat/uat-vertical-runner.ts:337-374 | the loop over the scenario's resources makes one planning, asset and allocation call for each |
| SyntheticSeed.SeedServices.RunScenario | apps/api/src/synthetic-seed/synthetic-business-seed-runner.ts:398-439 | look up, skip a complete scenario, remove a partial one, run the flow: world and outcome, including failing reads and a failing removal |
| SyntheticSeed.SeedServices.RunSyntheticBusinessSeed | apps/api/src/synthetic-seed/synthetic-business-seed-runner.ts:451-502 | the loop over the scenarios with its undo on failure computes `Seed`: final world, outcomes, and the scenario at which it threw |
| SyntheticSeedRuns.ReturnedScenario | apps/api/src/synthetic-seed/synthetic-business-seed-runner.ts:398-439 | a scenario that returns without failing is complete afterwards, reports `created` or `already_present`, and never `skipped` |
| SyntheticSeedRuns.RunSettles | apps/api/src/synthetic-seed/synthetic-business-seed-runner.ts:451-491 | every run, under every fault schedule, settles the list up to its end or up to the scenario at which it throws |
| SyntheticSeedRuns.CleanRun | apps/api/src/synthetic-seed/synthetic-business-seed-runner.ts:451-502 | a fault-free run finishes and settles the whole list |
| SyntheticSeedRuns.CleanRunLeaves | apps/api/src/synthetic-seed/synthetic-business-seed-runner.ts:451-502 | on an empty world a fault-free run leaves for every listed scenario exactly the rows its flow is meant to end with, and nothing under any other key |
| SyntheticSeedRuns.RunKeepsOrder | apps/api/src/synthetic-seed/synthetic-business-seed-runner.ts:451-491 | whatever fails, wherever a run stops and whether its undo works or not, all rows it leaves are rows of orderly work |
| SyntheticSeedRuns.ReportExact | apps/api/src/synthetic-seed/synthetic-business-seed-runner.ts:407-411 | a report says `already_present` iff the scenario was complete before the run or its key came earlier in the list |
| SyntheticSeedRuns.SecondRunChangesNothing | apps/api/src/synthetic-seed/synthetic-business-seed-runner.ts:406-413 | a second run leaves the world as it is and reports only `already_present` |
| SyntheticSeedRuns.FailureIsContained | apps/api/src/synthetic-seed/synthetic-business-seed-runner.ts:441-489 | after a failed run whose undo worked, earlier scenarios are complete, the failed one has no rows, later keys are untouched |
| SyntheticSeedRuns.RerunConvergesIff | apps/api/src/synthetic-seed/synthetic-business-seed-runner.ts:398-502 | the rerun of an abandoned run ends in the world of one fault-free run iff `RerunRepairs`, a condition on the fault, the flow and whether the undo worked |
| SyntheticSeedRuns.CrashIsNotRepaired | apps/api/src/synthetic-seed/synthetic-scenario-completion.ts:35-46 | an issued-proposal scenario that dies right after its proposal is taken for complete by the rerun, which ends in another world than a clean run |
| ContractStore.ContractsMock.constructor | apps/web/src/contracts/contracts-fetch-mock.ts:80-121 | the three seeded contracts and the conflict flag |
| ContractStore.ContractsMock.Find | apps/web/src/contracts/contracts-fetch-mock.ts:234-234 | the first contract with the id, if any |
| ContractStore.ContractsMock.Handle | apps/web/src/contracts/contracts-fetch-mock.ts:234-393 | every request's response and new store, in the source's order of checks, including the injected conflict |
| ContractStore.ContractsMock.HandleCreate | apps/web/src/contracts/contracts-fetch-mock.ts:175-222 | creation: denied, incomplete, duplicate number, or a new draft with the store's defaults |
| ContractStore.ContractsMock.Replace | apps/web/src/contracts/contracts-fetch-mock.ts:263-267 | the updated contract takes the old one's place and nothing else moves |
| ContractStore.InvariantAlways | apps/web/src/contracts/contracts-fetch-mock.ts:175-371 | in every state of every run ids are distinct, `activatedAt` is set iff not DRAFT and `closedAt` iff CLOSED |
| ContractStore.DatesFollowStatus | apps/web/src/contracts/contracts-fetch-mock.ts:329-370 | the same, read off one contract of a run |
| ContractStore.ContractStep | apps/web/src/contracts/contracts-fetch-mock.ts:263-371 | a request changes a contract only if it addresses it and is accepted, and then as the command says |
| ContractStore.Lifecycle | apps/web/src/contracts/contracts-fetch-mock.ts:269-371 | between any two points of a run a contract ages by its accepted mutations: `rowVersion` grows by their number, status only moves forward and no faster than they allow, commercial fields are frozen out of DRAFT, terminal contracts never change |
| ContractStore.AcceptedIsReadable | apps/web/src/contracts/contracts-fetch-mock.ts:204-267 | after every accepted request a read of the contract shows just what the response showed |
| ContractStore.CreatedAsAsked | apps/web/src/contracts/contracts-fetch-mock.ts:192-221 | creation is accepted iff allowed, complete and under an unused number, and then appends one draft of version 1 with the body's values |
| ContractStore.AtMostOneWinnerPerVersion | apps/web/src/contracts/contracts-fetch-mock.ts:250-371 | of all PATCH, activate and close commands carrying one version of one contract a run accepts at most one, however they interleave with expire and the injected conflict |
| ContractStore.AcceptedIff | apps/web/src/contracts/contracts-fetch-mock.ts:243-370 | a PATCH, activate, close or expire is accepted iff its contract is addressable, no conflict is pending, the status fits and, except for expire, the version is current |
| ContractStore.SecondExpireRefused | apps/web/src/contracts/contracts-fetch-mock.ts:362-371 | right after an accepted expire the next one is refused |
| ContractStore.AcceptedEffects | apps/web/src/contracts/contracts-fetch-mock.ts:263-371 | every accepted command raises the version by one and stamps the contract; activate makes it ACTIVE with its date, close CLOSED with its date and reason, expire EXPIRED without a closing date; PATCH changes the terms only |
| ContractStore.StatusIsLastNamed | apps/web/src/contracts/contracts-fetch-mock.ts:327-371 | between any two points of a run the status is the one named by the last accepted activate, close or expire of that contract, or else the one at the start |
| ContractStore.AtMostOnce | apps/web/src/contracts/contracts-fetch-mock.ts:327-371 | of one contract a run accepts at most one activate and at most one of close and expire, the latter only after the former |
| ContractStore.EndsAfterActivation | apps/web/src/contracts/contracts-fetch-mock.ts:327-371 | a contract that was DRAFT at the start is closed or expired only after an accepted activate |
| ContractStore.ActivationIsKept | apps/web/src/contracts/contracts-fetch-mock.ts:337-341 | the date of an accepted activate stays for the rest of the run |
| ContractStore.CloseIsKept | apps/web/src/contracts/contracts-fetch-mock.ts:354-359 | status, date and reason of an accepted close stay for the rest of the run |
| ContractStore.RefusedIff | apps/web/src/contracts/contracts-fetch-mock.ts:234-392 | each error of an addressed request exactly for its reason: not found, then the injected conflict, then a status that does not fit, then a stale version; a document link without its texts |
| ContractStore.CreateRefusedIff | apps/web/src/contracts/contracts-fetch-mock.ts:175-203 | creation is refused for the first of three reasons: not allowed, a required text missing or empty, a number in use |
| ContractStore.NumbersStayDistinctIff | apps/web/src/contracts/contracts-fetch-mock.ts:201-285 | distinct contract numbers stay distinct under a request iff it is not a PATCH that passes its guards and takes a number in use |
| ContractStore.NumbersDistinctThroughoutIff | apps/web/src/contracts/contracts-fetch-mock.ts:201-285 | over a run, numbers are distinct in every state iff no request is such a PATCH |
| ContractStore.SeededTheft | apps/web/src/contracts/contracts-fetch-mock.ts:269-285 | on the seeded store the draft can take an active contract's number |
| SubmitProtocol.ActionForm.HandleOpen | apps/web/src/financial-ui/MoneyActionForm.tsx:50-55 | opening clears error and conflict and shows the dialog |
| SubmitProtocol.ActionForm.HandleCancel | apps/web/src/financial-ui/MoneyActionForm.tsx:157-160 | cancelling shuts the dialog and releases the lock |
| SubmitProtocol.ActionForm.BeginConfirm | apps/web/src/financial-ui/MoneyActionForm.tsx:61-74 | a locked form sends nothing; otherwise it locks and sends the current key |
| SubmitProtocol.ActionForm.EndConfirm | apps/web/src/financial-ui/VersionedActionForm.tsx:72-90 | success shuts, draws a fresh key and unlocks; a version conflict keeps the lock; other errors unlock |
| SubmitProtocol.CreateRecordForm.BeginSubmit | apps/web/src/financial-ui/VersionedActionForm.tsx:204-215 | a locked or disabled form sends nothing; otherwise it locks and sends the current key |
| SubmitProtocol.CreateRecordForm.EndSubmit | apps/web/src/financial-ui/VersionedActionForm.tsx:216-236 | the lock is always released, success draws a fresh key and reports completion |
| SubmitProtocol.LockedStep | apps/web/src/financial-ui/MoneyActionForm.tsx:61-161 | every event keeps: at most one pending submit, and while one is pending the lock is held iff the dialog is shown |
| SubmitProtocol.KeyedStep | apps/web/src/financial-ui/MoneyActionForm.tsx:61-80 | every event keeps the link between keys in use, keys sent, effects and successes |
| SubmitProtocol.AtMostOneOutstanding | apps/web/src/financial-ui/MoneyActionForm.tsx:47-161 | in every reachable state of either form at most one submit is outstanding, it carries the current key, and the lock is then held iff the dialog is still shown, even if disabled buttons are clicked and Escape cancels mid-flight |
| SubmitProtocol.EffectsMatchSuccesses | apps/web/src/financial-ui/MoneyActionForm.tsx:47-96 | in every reachable state the server has applied every reported success and at most one effect more, no key twice |
| SubmitProtocol.KeyChangesOnSuccessOnly | apps/web/src/financial-ui/MoneyActionForm.tsx:75-92 | the key changes iff a success is reported, and then to one never sent |
| SubmitProtocol.SpentUntilCancel | apps/web/src/financial-ui/MoneyActionForm.tsx:82-85 | after a conflict no events short of a cancel send another request |
| SubmitProtocol.CanAlwaysRetry | apps/web/src/financial-ui/MoneyActionForm.tsx:50-161 | with nothing outstanding, cancel, open and confirm always send the current key again |
| SubmitProtocol.FailureReleasesTheLock | apps/web/src/financial-ui/MoneyActionForm.tsx:81-95 | with the dialog still shown, confirming after a failure sends the same key again, without a cancel between, iff the failure was no version conflict |
| SubmitProtocol.DirectFormSendsAgain | apps/web/src/financial-ui/VersionedActionForm.tsx:204-236 | the creation form sends again after any outcome, with the same key unless it succeeded |
| SubmitProtocol.LockHeldIffSpent | apps/web/src/financial-ui/MoneyActionForm.tsx:57-96 | in every run of a dialog form, with nothing outstanding, the lock is held iff a conflict was resolved while the dialog was shown and no cancel has followed |
| SubmitProtocol.MessagesTellTheLastAnswer | apps/web/src/financial-ui/MoneyActionForm.tsx:50-95 | in every run of either form, with nothing outstanding, the error (the conflict notice) is shown iff the last answer was a failure (a conflict) and the dialog has not been opened since |
| SubmitProtocol.DialogShownIff | apps/web/src/financial-ui/MoneyActionForm.tsx:50-76 | in every run the dialog is shown iff it was opened and neither cancelled nor confirmed with success since |
| StartLatch.ConcurrencyLatch.ArriveAndWait | apps/api/src/concurrency/concurrency-latch.ts:12-23 | an arrival is counted; the last party releases every waiter, an earlier one waits |
| StartLatch.SetUpStart | apps/api/src/concurrency/concurrency-latch.ts:26-34 | fewer than two parties or a wrong worker count is refused, else a fresh latch |
| StartLatch.RunKeepsConsistent | apps/api/src/concurrency/concurrency-latch.ts:12-43 | the protocol's invariant holds in every reachable state of every interleaving |
| StartLatch.LatchSafety | apps/api/src/concurrency/concurrency-latch.ts:12-43 | no worker has started before all parties have arrived; until then the waiters are the arrivals, and afterwards none is left waiting |
| StartLatch.MaximalRun | apps/api/src/concurrency/concurrency-latch.ts:26-43 | a run with no step left has started each worker exactly once, and its length is fixed |
| StartLatch.NotStuckBefore | apps/api/src/concurrency/concurrency-latch.ts:26-43 | a run that has not started every worker has a next step |
| Reconciliation.ParseTruncates | apps/api/src/master-business/master-business-reconciliation.ts:10-15 | every written unsigned decimal is read as its value in units of 10^-4, cut off |
| Reconciliation.ExactSplits | apps/api/src/master-business/master-business-reconciliation.ts:10-15 | a numeral's exact value is what the parser reads plus the digits it drops, for any number of digits |
| Reconciliation.TruncationBound | apps/api/src/master-business/master-business-reconciliation.ts:10-15 | cutting off loses less than one unit, at most 0.99 units on six fraction digits, and nothing on at most four |
| Reconciliation.ParseUndoesFormat | apps/api/src/master-business/master-business-reconciliation.ts:10-15 | parsing undoes four-digit formatting of every amount |
| Reconciliation.CommasAreIgnored | apps/api/src/master-business/master-business-reconciliation.ts:11-11 | a comma may stand anywhere in a text |
| Reconciliation.BlanksAreIgnored | apps/api/src/master-business/master-business-reconciliation.ts:11-11 | a blank may stand in front of a text or behind it |
| Reconciliation.ThirdPartIsIgnored | apps/api/src/master-business/master-business-reconciliation.ts:12-14 | whatever follows a second dot is dropped |
| Reconciliation.NonDigitIsRefused | apps/api/src/master-business/master-business-reconciliation.ts:14-14 | a whole part with anything but digits in it throws |
| Reconciliation.AddAll | apps/api/src/master-business/master-business-reconciliation.ts:46-63 | the accumulation loops add up the parsed texts, or throw |
| Reconciliation.AddMeasurement | apps/api/src/master-business/master-business-reconciliation.ts:51-58 | quantities and amounts side by side, skipping lines without an amount |
| Reconciliation.AssertFinancialReconciliation | apps/api/src/master-business/master-business-reconciliation.ts:17-76 | the assertion passes iff every expectation of the source holds |
| Reconciliation.PassesIff | apps/api/src/master-business/master-business-reconciliation.ts:43-75 | books whose texts are numerals pass iff the truncated quantities are positive and equal, the truncated amounts are positive and equal on all four sides, and the order is completed |
| Reconciliation.UnreadableBooksFail | apps/api/src/master-business/master-business-reconciliation.ts:46-75 | books with a text that the parser refuses never pass |
| Reconciliation.QuantityTextsAreFiltered | apps/api/src/master-business/master-business-reconciliation.ts:43-49 | the quantities added up are those of the quantity entries in order, zero where an entry has none |
| Reconciliation.AmountTextsAreFiltered | apps/api/src/master-business/master-business-reconciliation.ts:53-58 | the amounts added up are those of the items that have one that is not empty |
| Reconciliation.SumUndershoots | apps/api/src/master-business/master-business-reconciliation.ts:46-63 | a sum of truncated lines undershoots the exact sum by less than one unit a line, by at most 0.99 on six digits, and is exact on four |
| Reconciliation.ComparisonIsTruthfulIff | apps/api/src/master-business/master-business-reconciliation.ts:65-68 | equal truncated sums have equal exact sums iff the dropped digits add up to the same, and equal exact sums compare equal iff they do |
| Reconciliation.EqualSumsAreClose | apps/api/src/master-business/master-business-reconciliation.ts:65-68 | equal truncated sums of n and m lines have exact sums less than max(n, m) units apart, at most 0.99 max(n, m) at the stored scale, and equal ones iff the dropped digits add up to the same; on four digits equality is exact |
| Reconciliation.TruncationHidesDifferences | packages/database/src/schema/measurements.ts:52-55 | lists of six-digit quantities of every length attain that bound and compare equal |
| Reconciliation.ReconciledQuantities | apps/api/src/master-business/master-business-reconciliation.ts:41-66 | a passed reconciliation bounds the gap of the exact quantities; it is zero iff the dropped digits add up to the same |
| Reconciliation.QuantitiesJudgedIff | apps/api/src/master-business/master-business-reconciliation.ts:41-75 | a pass means equal quantities, and equal quantities pass when all else is in order, iff the dropped digits of both sides add up to the same |
| Reconciliation.UnequalQuantitiesPass | apps/api/src/master-business/master-business-reconciliation.ts:41-75 | books with unequal quantities that pass |
| Reconciliation.EqualQuantitiesRefused | apps/api/src/master-business/master-business-reconciliation.ts:41-75 | books with equal quantities that are refused, all else being in order |
| Reconciliation.ReconciledMoney | apps/api/src/master-business/master-business-reconciliation.ts:51-75 | a passed reconciliation makes measured amounts, billed lines, record total and document total exactly equal |
| Cnpj.SingleErrorDetected | apps/api/src/master-business/synthetic-test-data.ts:5-18 | bases differing in one digit get different check digits, except possibly at places 0, 4 and 8 with both check digits zero on both sides |
| Cnpj.AlteredIsValidIff | apps/api/src/master-business/synthetic-test-data.ts:5-18 | a valid number altered in one of its 14 digits is valid again iff place, change and the two remainders before the change are one of the listed combinations |
| Cnpj.SamePairIff | apps/api/src/master-business/synthetic-test-data.ts:5-18 | two bases differing in one digit get the same check digit pair iff that holds |
| Cnpj.UndetectedError | apps/api/src/master-business/synthetic-test-data.ts:12-19 | two numbers of the generator that are both valid and differ in one digit |
| Cnpj.CnpjGenerator.NextSyntheticCnpj | apps/api/src/master-business/synthetic-test-data.ts:12-19 | advances the sequence by one and returns the number at the new position |
| Cnpj.CnpjGenerator.DeterministicCnpjFromIndex | apps/api/src/master-business/synthetic-test-data.ts:46-49 | sets the sequence and returns the number after it, so later calls continue from there |
| Cnpj.CnpjGenerator.ResetSyntheticCnpjSequence | apps/api/src/master-business/synthetic-test-data.ts:51-53 | the sequence is back at zero |
| Cnpj.BaseNeedsNoPadding | apps/api/src/master-business/synthetic-test-data.ts:14-14 | the prefix always has eight digits, so the padding never acts |
| Cnpj.GeneratedIsValid | apps/api/src/master-business/synthetic-test-data.ts:12-19 | every generated number has 14 digits and the right check digits |
| Cnpj.ValidIff | apps/api/src/master-business/synthetic-test-data.ts:5-9 | the modulo-11 law: a number is valid iff each check digit d completes its written-out weighted sum s, (s + d) % 11 == 0 or else s % 11 == 1 and d == 0 |
| Cnpj.CheckDigitLaw | apps/api/src/master-business/synthetic-test-data.ts:5-9 | for every list of digits and weights the check digit is the one digit that completes the sum in this sense |
| Cnpj.GeneratedIff | apps/api/src/master-business/synthetic-test-data.ts:12-19 | the text returned at a position is the only one of 14 digits that continues the numbering, ends its base in 0001 and has two digits that complete their sums |
| Cnpj.FirstNumber | apps/api/src/master-business/synthetic-test-data.ts:12-19 | the first number of a fresh generator is 10000001000190 |
| Cnpj.SameNumberIff | apps/api/src/master-business/synthetic-test-data.ts:12-19 | two positions give the same number iff they are congruent modulo 89,999,999 |
| Cnpj.DistinctWithinPeriod | apps/api/src/master-business/synthetic-test-data.ts:12-19 | numbers closer than one period are distinct |
| UatSession.BuildUatSessionChecklist | apps/api/src/uat/uat-session.ts:56-91 | one item for each scenario, dimension and viewport, in that nesting, on a fresh template |
| UatSession.ItemIdsDistinct | apps/api/src/uat/uat-session.ts:62-66 | item ids are distinct for any distinct scenario ids, even ones containing the separator |
| UatSession.ItemNamesItsParts | apps/api/src/uat/uat-session.ts:62-75 | the item of one scenario, dimension and viewport stands at its place, carries their names, and has no verdict |
| UatSession.SummarizeUatSession | apps/api/src/uat/uat-session.ts:236-264 | the counters count each verdict |
| UatSession.SummaryAddsUp | apps/api/src/uat/uat-session.ts:244-263 | every item is counted exactly once |
| UatSession.BeginsIff | apps/api/src/uat/uat-session.ts:100-155 | beginning succeeds iff nothing was started and operator and environment are named; record and checklist then agree, and the record lists every scenario of the checklist exactly once |
| UatSession.ClosedKeepsItems | apps/api/src/uat/uat-session.ts:176-207 | closing keeps every item in its place and changes only verdicts and notes, and only by an update that names the item |
| UatSession.ClosesIff | apps/api/src/uat/uat-session.ts:172-196 | closing succeeds iff the session is in progress and every item has a verdict after last-wins updates |
| UatSession.ClosedTakesLastUpdate | apps/api/src/uat/uat-session.ts:176-187 | an item ends with the verdict and notes of the last update that names it |
| UatSession.RejectedIff | apps/api/src/uat/uat-session.ts:106-196 | each rejection exactly for its reason; the last one counts the items still open |
| UatSession.IssuesDescribeItems | apps/api/src/uat/uat-session.ts:198-217 | the blocking issues are exactly the texts of the failed and blocked items, the other issues those of the observations: the id with the notes, or else the dimension |
| UatSession.ClosedAgreesWithSummary | apps/api/src/uat/uat-session.ts:198-264 | the closed record's status, issue lists and approval agree with the summary of its checklist |
| UatSession.SessionRun | apps/api/src/uat/uat-session.ts:100-234 | every run of begin and close commands accepts nothing, one begin, or one begin and one close, and the status says which |
| UatSession.FinalAbsorbs | apps/api/src/uat/uat-session.ts:106-174 | a session in a final status is never changed again |
| PortfolioSeed.ServiceCatalog.EnsureServicePortfolioBaseline | packages/database/src/catalog/cisne-service-portfolio-baseline.ts:137-165 | the loop's counters, outcome and catalogue, and the throw on a malformed classification |
| PortfolioSeed.MalformedStops | packages/database/src/catalog/cnae-code.ts:5-11 | a malformed classification stops the seed with the entries before it in place |
| PortfolioSeed.SeedAdds | packages/database/src/catalog/cisne-service-portfolio-baseline.ts:147-156 | on well-formed entries the seed adds the candidates that are not there yet, in order |
| PortfolioSeed.SeedCompletes | packages/database/src/catalog/cisne-service-portfolio-baseline.ts:137-165 | for any list and any catalogue with unique codes: created is the number of distinct absent codes, created plus skipped is the length, codes stay unique and all are present, old definitions stay |
| PortfolioSeed.SecondRunCreatesNothing | packages/database/src/catalog/cisne-service-portfolio-baseline.ts:149-159 | a second run creates nothing and reports `already_present` |
| PortfolioSeed.InterruptedRunConverges | packages/database/src/catalog/cisne-service-portfolio-baseline.ts:147-156 | a run cut after any prefix and started again ends with the catalogue of one run |
| PortfolioSeed.NewDefinitionsAreMadeFromEntries | packages/database/src/catalog/cisne-service-portfolio-baseline.ts:24-156 | every new definition is made from the first entry of its code, one the catalogue did not have: that entry's name, archetype and seven digits, CNAE- in front of them, by period for rental and facility service, by quantity for goods trade, by event for all others |
| PortfolioSeed.PunctuationIsIgnored | packages/database/src/catalog/cnae-code.ts:5-15 | a character that is no digit may stand anywhere in a code without changing it |
| PortfolioSeed.SevenDigitsMakeACode | packages/database/src/catalog/cnae-code.ts:5-15 | of digits alone, exactly seven make a code |
| Timeline.Push | apps/api/src/master-business/master-business-timeline.ts:31-39 | the loop over one query's rows appends them with their source |
| Timeline.ReconstructBusinessTimeline | apps/api/src/master-business/master-business-timeline.ts:13-132 | the five loops and the sort compute the timeline |
| Timeline.SortIsStable | apps/api/src/master-business/master-business-timeline.ts:130-130 | the sort used here is sorted, a permutation, and keeps the order of equal moments |
| Timeline.StableSortUnique | apps/api/src/master-business/master-business-timeline.ts:130-130 | a stable sort has only one possible result, so any algorithm gives this one |
| Timeline.TimelineIsMerge | apps/api/src/master-business/master-business-timeline.ts:17-131 | sorting the concatenation is the five-way merge of the histories in their order of precedence |
| Timeline.TimelineKeepsHistories | apps/api/src/master-business/master-business-timeline.ts:17-131 | the timeline is a sorted permutation of the histories and each history appears in its own order |
| Timeline.FiveHistories | apps/api/src/master-business/master-business-timeline.ts:17-131 | each of the five histories appears under its own source, row by row and in its order, and nothing else appears |
| Timeline.TiesFollowHistories | apps/api/src/master-business/master-business-timeline.ts:17-131 | events of the same moment stand in the order of their histories |
| QuotedIdentifier.ReadsExactlyQuoted | packages/database/src/migration-torture/harness.ts:13-15 | a reader of delimited identifiers (section 5.2 of ISO/IEC 9075:1992) accepts exactly the quoted non-empty names, consumes all of the quotation and no more, and gives the name back |
| QuotedIdentifier.QuotingIsInjective | packages/database/src/migration-torture/harness.ts:13-15 | different names have different quotations |
| QuotedIdentifier.StatementNamesDatabase | packages/database/src/migration-torture/harness.ts:36-39 | the two statements are read as one command on exactly the given name |
| QuotedIdentifier.DatabaseServer.RecreateDatabase | packages/database/src/migration-torture/harness.ts:23-40 | whatever characters a non-empty name holds, that database ends up fresh and no other is touched |
| SubmitProtocol.EscapeReleasesTheLock | apps/web/src/ui/Modal.tsx:49-53 | supporting fact: Escape mid-flight frees the lock, so the shut dialog is what prevents a second request |
| SubmitProtocol.ConflictSpends | apps/web/src/financial-ui/MoneyActionForm.tsx:82-85 | supporting fact: a conflict leaves the confirmation spent iff the user did not cancel while it was pending |
| ContractStore.InitialInvariant | apps/web/src/contracts/contracts-fetch-mock.ts:91-121 | supporting fact: the seeded store has distinct ids and dates that fit the statuses |
| ContractStore.OnlyAcceptedMutates | apps/web/src/contracts/contracts-fetch-mock.ts:236-389 | supporting fact: a refused request, a read or a document link leaves the store unchanged |
| StartLatch.LateArrivalNeverBlocks | apps/api/src/concurrency/concurrency-latch.ts:14-19 | supporting fact: an arrival beyond the parties is released at once |
| ContractStore.EditsAreLocal | apps/web/src/contracts/contracts-fetch-mock.ts:281-321 | supporting fact: repeating an edit changes nothing more, fields the body does not set are kept, and `null` clears optional fields only |
| FaultingDatabase.CheckoutByHook | apps/api/src/failure-injection/faulting-database.service.ts:90-99 | supporting fact: the checkout under each of the six hooks |
| ContractStore.EditsAreTaken | apps/web/src/contracts/contracts-fetch-mock.ts:281-321 | supporting fact: every non-empty text of a PATCH body is taken, and `null` clears each optional field |
| ContractStore.ConflictWaits | apps/web/src/contracts/contracts-fetch-mock.ts:236-253 | supporting fact: an injected conflict waits for the next request, other than a read or a creation, that names a contract of the store, refuses it and is gone |
| ContractStore.ShownIff | apps/web/src/contracts/contracts-fetch-mock.ts:236-389 | supporting fact: a read, or a document link with both its texts, shows the contract |

## Left out

- PostgreSQL, the connection pool, HTTP, NestJS and React rendering are replaced by abstract state; React state updates are taken as atomic with the handler that makes them.
- Savepoints, `START TRANSACTION`, statements with leading blanks and `maybeThrow` of the business hooks; the pool-level `query` proxy beyond its fault test; concurrent queries on one client. Inside a failed transaction the connection behaves as PostgreSQL's does.
- The access services are abstract steps that set statuses and may fail; a failing read is a throw before the next step. Catalogue rows left behind without a client, ids, the read-backs between calls and the seed's lock, counts and clean-up command are not modelled.
- SyntheticSeed.SeedServices.CallEach: the loop stands for straight-line calls of one stage in the source.
- Removal of a scenario is one atomic step that deletes every row of its key (`packages/database/src/seed/synthetic-seed-compensation.ts` lines 327-360).
- SyntheticSeedRuns.SecondRunChangesNothing: assumes that scenarios with the same key have the same flow, as they do in the declared list, whose keys are distinct; so do the other theorems about lists.
- ContractStore.ContractsMock.Handle: authorisation, listing, the client list, malformed JSON, the contents of document links, client snapshots and creation times are not modelled.
- SubmitProtocol.ActionForm.BeginConfirm: text fields, the `disabled` property and the reload callbacks are not modelled; clicks on disabled confirm buttons are allowed, which only adds runs.
- SubmitProtocol.CreateRecordForm.EndSubmit: version conflicts and closed periods share one outcome, since the handler treats them alike.
- That the server applies each idempotency key once is assumed, not proved.
- Reconciliation.ParseTruncates: signs, hexadecimal prefixes and white space other than blank, tab and line ends are not modelled; decimals are unsigned numerals.
- Cnpj.SameNumberIff: sequence numbers are unbounded naturals; the loss of precision beyond 2^53 and negative indices are not modelled.
- UAT timestamps, the release candidate, instruction texts and the history entry's free-text notes.
- PortfolioSeed.ServiceCatalog.EnsureServicePortfolioBaseline: the bootstrap of units, actor and category is left out, and the three inserts of one definition are one atomic step.
- Timeline.TimelineKeepsHistories: that the five queries return their rows in time order is assumed; rows with equal times may come in any order. The built-in sort is represented by an insertion sort, shown equal to every stable sort.
- QuotedIdentifier.DatabaseServer.RecreateDatabase: termination of other sessions, privileges, name length limits and the migrations applied afterwards are not modelled.
- Drizzle schemas, modules, controllers, navigation and labels, benchmark and stress phases, `assertTimelineIntegrity`, `countFulfilled` and similar small helpers would only add easy members.

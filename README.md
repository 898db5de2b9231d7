# Workflow controller reconcile core, in Dafny

This project models the reconcile core of a workflow controller. The
controller watches Workflow objects: a workflow is a map of named steps, and
each step holds a job template. For every step that has no entry in the
workflow's status map, the controller creates a job.

The model is one sequential object, `Controller.WorkflowController`, holding:

- the workflow store;
- the job store's "has synced" flag;
- the expectations cache, which counts self-caused creations and deletions not yet observed;
- the de-duplicating work queue;
- the job-control boundary, modelled as a log of calls and the set of requests the platform rejects.

It covers these operations:

- the event handlers;
- the per-key sync pass `syncWorkflow`;
- the manage step `manageWorkflow` / `manageWorkflowJob` / `manageWorkflowReference`;
- owner resolution `getJobWorkflow`;
- the finished predicate `isWorkflowFinished`;
- the body of the worker loop.

Modules:

- `Types`: the workflow, job and handler-payload values, and the object key function.
- `Finished`: `isWorkflowFinished`, `pastActiveDeadline`, and the finished predicate the unit tests expect.
- `Expectations`: the expectations table as values.
  - Its operations.
  - Satisfaction, with the time-to-live expiry as an input set.
  - Monotonicity and stability lemmas.
- `Ownership`: `getJobWorkflow` as written, and a deterministic owner choice (smallest key) with its proofs.
- `Reconcile`: which steps are missing, the request each produces, and what a complete creation pass has issued (one request per missing step, no step twice).
- `Controller`: the stateful controller class. Each method is proved against the functions above.
- `Scenarios`: concrete runs on the unit tests' one-step workflow that exhibit the findings below.

Where the code and its evident intent differ, the model follows the code. The
intended behaviour appears beside it as a separately named member (see
"## Findings").

Design points where the code differs from the stated intent:

- `isWorkflowFinished` ignores a Failed condition.
- An accepted creation does not raise the add expectation.
- The status map is initialised as an empty map, with only a capacity hint of one slot per step.
- Owner resolution takes the first match, not a deterministic choice.

The queue, the expectations cache and `controller.KeyFunc` live in packages
that are not part of this model. Their behaviour is modelled from their
documented contracts:

- The queue is a set of waiting keys plus a set of keys in processing. A key
  is never handed to two workers at once. A key added while it is being
  processed becomes available again after `Done`.
- Expectation counters never drop below zero.
- The key function gives "namespace/name" for a typed object, the carried key
  for a deletion tombstone, and an error only for an object without metadata.

## Model

| member | source | states |
|---|---|---|
| Types.KeyFunc | pkg/controller/workflow/controller.go:251-256 | Fails exactly for an object without metadata. A typed object gets its namespace/name key; a tombstone gets the key it carries. |
| Types.MetaKeyInjective | pkg/controller/workflow/controller.go:178-186 | Slash-free namespace and name pairs with equal keys are equal, so the queue key identifies one workflow. |
| Finished.IsWorkflowFinished | pkg/controller/workflow/controller.go:242-249 | The result is true iff some condition is of type Complete with status True. |
| Finished.PastActiveDeadline | pkg/controller/workflow/controller.go:232-235 | No workflow is ever reported past its deadline. |
| Finished.FinishedIntended | pkg/controller/workflow/controller_test.go:83-152 | True iff some Complete or Failed condition has status True, as the unit test's cases expect. |
| Finished.AsWrittenVersusIntended | pkg/controller/workflow/controller.go:242-249 | What the code calls finished, the tests do too. The tests additionally count a workflow whose True condition is Failed. |
| Finished.FailedTrueIsNotFinished | pkg/controller/workflow/controller_test.go:104-116 | On the test case "Failed and True" the code answers not finished and the tests expect finished. |
| Finished.FinishedTestCases | pkg/controller/workflow/controller_test.go:90-145 | The other test cases, and the empty condition list, get the expected answers. |
| Expectations.ObserveCreationsLowers | pkg/controller/workflow/controller.go:269 | n observed creations lower the add counter by n, floored at zero, and touch no other key. |
| Expectations.OperationsKeepNonNegative | pkg/controller/workflow/controller.go:187 | Observing, purging and raising leave every counter non-negative. |
| Expectations.EnoughObservationsSatisfy | pkg/controller/workflow/controller.go:212 | Once as many creations as expected have been observed, and no deletion is pending, the key is satisfied. |
| Expectations.ObservationsNeverRaise | pkg/controller/workflow/controller.go:306 | Observations and purges raise no counter and add no record. A raise by n > 0 does raise one. |
| Expectations.SatisfiedStaysSatisfied | pkg/controller/workflow/controller.go:212 | A satisfied key stays satisfied under any change that raises nothing. |
| Expectations.RaisedIsUnsatisfied | pkg/controller/workflow/controller.go:212 | A raise by n > 0 closes the gate until the record expires. |
| Expectations.LowerAddsStep | pkg/controller/workflow/controller.go:336 | One more observed creation after n is n + 1 observed creations. |
| Expectations.AttemptStep | pkg/controller/workflow/controller.go:333-337 | Raise-then-accept adds one success. Raise-then-observe on rejection leaves the counters as they were, creating an empty record on the first attempt, so the table counts exactly the accepted creations. |
| Expectations.AcceptedCreationCloses | pkg/controller/workflow/controller.go:212 | After a pass with at least one accepted creation, the key is unsatisfied until it expires. |
| Ownership.GetJobWorkflow | pkg/controller/workflow/controller.go:147-158 | No owner on a lookup error, a panic on an empty match list, and otherwise the first match. |
| Ownership.FirstMatchDependsOnOrder | pkg/controller/workflow/controller.go:153-157 | The same two distinct candidates, listed in the two orders, resolve to different owners. |
| Ownership.EmptyMatchListPanics | pkg/controller/workflow/controller.go:157 | An empty match list panics. |
| Ownership.MinByKey | pkg/controller/workflow/controller.go:153-156 | Returns a candidate whose key no other candidate's key precedes. |
| Ownership.SelectOwner | pkg/controller/workflow/controller.go:147-158 | No owner on a lookup error or an empty match list. Otherwise a candidate with the smallest key. |
| Ownership.SelectOwnerDeterministic | pkg/controller/workflow/controller.go:153-156 | Any two listings of the same key-distinct candidates resolve to the same owner. |
| Ownership.ResolutionsOnOneMatch | pkg/controller/workflow/controller.go:147-158 | With exactly one match, both resolutions pick it. |
| Ownership.StrLessTotal | pkg/controller/workflow/controller.go:153-156 | The key order used for the tie-break is total on distinct keys. |
| Reconcile.EnsureStatuses | pkg/controller/workflow/controller.go:213-216 | Needs a step specification or an existing status map, because sizing the new map reads the steps. A nil status map becomes an empty one, and the result otherwise equals the input. The set of missing steps is unchanged. |
| Reconcile.CreationPassCount | pkg/controller/workflow/controller.go:326-340 | A complete pass issues exactly one call per step without a status entry. |
| Reconcile.NothingMissingNoCalls | pkg/controller/workflow/controller.go:328-330 | When every step has a status entry, a pass issues no call. |
| Reconcile.SingleMissingStep | pkg/controller/workflow/controller.go:326-340 | With one missing step, a pass issues exactly that step's request. |
| Reconcile.CallStep | pkg/controller/workflow/controller.go:331-333 | Visiting a missing step appends its request, built from the workflow's namespace, template and key. |
| Reconcile.SkipStep | pkg/controller/workflow/controller.go:328-330 | Visiting a step that has a status entry issues nothing. |
| Controller.WorkflowController.constructor | pkg/controller/workflow/controller.go:76-84 | An empty store, table and queue, no calls, and the job store not yet synced. |
| Controller.WorkflowController.Add | pkg/controller/workflow/controller.go:257 | The key joins the waiting set, without duplicates. |
| Controller.WorkflowController.Get | pkg/controller/workflow/controller.go:165-168 | Quit after shutdown. Otherwise a waiting key that no worker holds, now marked processing. |
| Controller.WorkflowController.Done | pkg/controller/workflow/controller.go:169 | The key is released. If it was re-added meanwhile, it is available again. |
| Controller.WorkflowController.ShutDown | pkg/controller/workflow/controller.go:143 | Sets the shutdown flag. |
| Controller.WorkflowController.SatisfiedExpectations | pkg/controller/workflow/controller.go:212 | True iff the key has no record, a fulfilled record, or an expired record. |
| Controller.WorkflowController.CreationObserved | pkg/controller/workflow/controller.go:269 | The table becomes `Expectations.CreationObserved` of the old one, and stays non-negative. |
| Controller.WorkflowController.DeletionObserved | pkg/controller/workflow/controller.go:306 | The table becomes `Expectations.DeletionObserved` of the old one, and stays non-negative. |
| Controller.WorkflowController.DeleteExpectations | pkg/controller/workflow/controller.go:187 | The key's record is dropped. |
| Controller.WorkflowController.RaiseExpectations | pkg/controller/workflow/controller.go:333-337 | One more creation is expected for the key; used only by the corrected pass. |
| Controller.WorkflowController.CreateJob | pkg/controller/workflow/controller.go:333 | The call is logged. It succeeds iff the platform does not reject the request. |
| Controller.WorkflowController.EnqueueController | pkg/controller/workflow/controller.go:251-258 | The object's key is added. Nothing happens for an object without a key. |
| Controller.WorkflowController.OnWorkflowUpdate | pkg/controller/workflow/controller.go:100-104 | The new version is enqueued iff it has no Complete/True condition. |
| Controller.WorkflowController.AddJob | pkg/controller/workflow/controller.go:260-272 | On a resolved owner: one creation is observed under the owner's key and the owner is enqueued. No owner: nothing happens. Empty match list: a panic. |
| Controller.WorkflowController.UpdateJob | pkg/controller/workflow/controller.go:274-291 | Equal versions: nothing. Otherwise the current owner is enqueued, and the old owner too when the labels differ; each lookup can panic. |
| Controller.WorkflowController.DeleteJob | pkg/controller/workflow/controller.go:293-309 | A non-job payload panics. Otherwise the deletion is observed under the job's key and the owner is enqueued. |
| Controller.WorkflowController.DeleteJobIntended | pkg/controller/workflow/controller.go:293-309 | Never panics and ignores a non-job payload. Otherwise it observes the deletion under the deterministic owner's key and enqueues that owner. |
| Controller.WorkflowController.VisitStep | pkg/controller/workflow/controller.go:326-339 | One iteration keeps the pass invariant. The log grows by this step's request iff the step is missing, and the add counter drops once iff that request is rejected. |
| Controller.WorkflowController.ManageWorkflowJob | pkg/controller/workflow/controller.go:320-342 | Returns true. The new calls form a complete creation pass. The add counter is lowered, floored, by the number of rejected requests. |
| Controller.WorkflowController.ManageWorkflowReference | pkg/controller/workflow/controller.go:344-348 | Returns false. |
| Controller.WorkflowController.ManageWorkflow | pkg/controller/workflow/controller.go:311-318 | True iff the workflow has a step specification. A workflow without one issues no call and leaves the table alone. |
| Controller.WorkflowController.VisitStepIntended | pkg/controller/workflow/controller.go:326-339 | One corrected iteration keeps the corrected invariant: the add counter grows by the accepted requests only. |
| Controller.WorkflowController.IntendedPass | pkg/controller/workflow/controller.go:326-340 | A full corrected pass: every missing step's request is issued once, and the add counter rises by the number accepted. |
| Controller.WorkflowController.ManageWorkflowJobIntended | pkg/controller/workflow/controller.go:320-342 | The same calls as the code. The counter rises by the accepted creations, so the key is unsatisfied after any accepted creation until the watch reports it or the record expires. |
| Controller.WorkflowController.SyncWorkflow | pkg/controller/workflow/controller.go:178-230 | Checked in the source's order. A missing key purges its expectations. A failing lookup re-queues and reports the error. An unsynced job store re-queues the workflow. A workflow with neither a step specification nor a status map panics on the nil specification and changes nothing. Unsatisfied expectations issue no call. Otherwise the status-initialised copy is managed. The store is never written. |
| Controller.WorkflowController.ProcessNextWorkItem | pkg/controller/workflow/controller.go:164-173 | One round, stated as `RoundEffect` on the queue, table and call log. Quit after shutdown and idle when nothing is available, both changing nothing. Otherwise one available key is removed from the waiting set, synced exactly as `SyncWorkflow` states, and released. |
| Controller.WorkflowController.WorkerAsWritten | pkg/controller/workflow/controller.go:162-176 | Runs exactly the given number of rounds, with a ghost trace of states in which each consecutive pair is one `ProcessNextWorkItem` round (`Run`). After shutdown every round receives quit and the state is unchanged, so quitting never ends the loop. |
| Controller.WorkflowController.Worker | pkg/controller/workflow/controller.go:162-176 | At most the given number of rounds, each one `ProcessNextWorkItem` round of the ghost trace (`Run`). Only the last round can be a quit, and stopping early means it was. After shutdown exactly one round runs and the state is unchanged. |
| Scenarios.DuplicateCreationOnResync | pkg/controller/workflow/controller.go:213-223 | For any workflow with exactly one step lacking a status entry, two syncs with no job event in between issue that step's creation request twice and record no expectation. |
| Scenarios.FixtureDuplicateCreation | pkg/controller/workflow/controller.go:213-223 | On the unit tests' workflow, "myJob" is requested twice. |
| Scenarios.IntendedPassGatesResync | pkg/controller/workflow/controller.go:218-223 | With the corrected pass, one request is issued and recorded, and the next sync is held back with no further call. |
| Scenarios.ReportedCreationReopensGate | pkg/controller/workflow/controller.go:260-272 | Once the watch reports the created job, the key is satisfied again and the next sync issues the same request a second time, because the status map is never written back. |
| Scenarios.FixtureGateReopens | pkg/controller/workflow/controller.go:213-223 | On the unit tests' workflow, the corrected pass still requests "myJob" twice once its job is reported. |
| Scenarios.DeletionObservedUnderJobKey | pkg/controller/workflow/controller.go:300-306 | For any owner whose key differs from the job's, the owner's outstanding deletion stays outstanding after the job is deleted. |
| Scenarios.FixtureDeletionUnderJobKey | pkg/controller/workflow/controller.go:300-306 | On the unit tests' workflow and job, deleting "default/mydag-myJob" leaves the pending deletion of "default/mydag" in place, so its syncs stay held back. |
| Scenarios.FixtureKeysDiffer | pkg/controller/workflow/controller.go:251-256 | The unit tests' job and workflow have different keys. |
| Scenarios.DeletionObservedUnderOwnerKey | pkg/controller/workflow/controller.go:300-306 | The corrected handler clears the owner's outstanding deletion. |
| Scenarios.NilSpecAndStatusesPanics | pkg/controller/workflow/controller.go:213-214 | A stored workflow without a step specification or a status map panics in the sync, ahead of the expectations gate. |
| Scenarios.TombstoneCrashesDeleteJob | pkg/controller/workflow/controller.go:294-299 | A tombstone payload panics in deleteJob and is ignored by the corrected handler. |
| Scenarios.UnownedJobCrashesAddJob | pkg/controller/workflow/controller.go:153-157 | An added job that matches no workflow panics. |
| Scenarios.WorkerAfterShutdown | pkg/controller/workflow/controller.go:163-168 | After shutdown, three rounds of the worker as written all receive quit, while the corrected worker stops after one. |
| Scenarios.SyncFailingLookup | pkg/controller/workflow/controller.go:190-194 | A failing lookup re-queues the key and reports its error. |
| Scenarios.SyncBeforeJobStoreSynced | pkg/controller/workflow/controller.go:197-203 | An unsynced job store re-queues the workflow, issues no call and reports no error. |
| Scenarios.SyncDeletedKey | pkg/controller/workflow/controller.go:184-189 | A deleted key drops its expectations and reports no error. |

## Left out

- The constructor's informer wiring, event broadcasting and the `Run` method (controller.go:71-144): they start goroutines and watches. Their effect is the initial state and the handler table, which the model states directly.
- Concurrency: there is one sequential controller, and workers are not interleaved. The queue's rule that a key is never processed twice at once is kept as the `processing` set.
- Queue order: the queue is FIFO, but the model treats it as a set and hands out any available key.
- `Get` blocking: an empty open queue returns `Empty` instead of blocking.
- Time: the 100 ms sleep before re-queuing is left out, and the expectations' time-to-live is an input set of expired keys.
- Logging: glog calls are dropped.
- The deferred `util.HandleError` reports are dropped. They only log.
- `updateWorkflowStatus` (controller.go:237-240): it is never called, and the status copy built in `syncWorkflow` is discarded. The model makes this explicit by never writing the store.
- `CreateJob` internals: the job-control package is not part of this model. Its answer is the `rejectedCreates` oracle, and only the call and its outcome are modelled.
- The expectations package is not part of this model. Counters are floored at zero, and the time-to-live check is the `ttlExpired` input.
- The label-selector lookup (`GetJobWorkflows`) is not part of this model. It is the `ownersOf` input, which returns an error or a sequence of matches.
- Type assertions on the handlers' payloads (`obj.(*extensions.Job)`, `cur.(*extensions.Workflow)`): except in `deleteJob`, payloads are typed parameters, because those feeds only deliver typed objects.
- `deleteJob`'s payload is an untyped `Object`, so that a tombstone can arrive.
- The `KeyFunc` error branches inside `syncWorkflow`, `addJob`, `deleteJob` and `manageWorkflowJob` are unreachable, because the key of a typed object always exists. The model computes the key directly there.
- `Finished.PastActiveDeadline`: the source is a stub that always answers false and is never called. The contract states exactly that.
- `Controller.WorkflowController.ManageWorkflowJob`: the result is always true. A rejected creation sets `updateNeeded = true` again, a no-op that is not separately modelled.
- `Controller.WorkflowController.Worker` and `WorkerAsWritten`: the real loop is unbounded. The model runs a given number of rounds, and a ghost trace ties each round to `ProcessNextWorkItem`'s effect.
- Panics: in Go a panic in a handler or in the sync ends the process. The model returns it as an outcome (`Panicked`, `NilSpecPanic`) with the state unchanged from the point of the panic, and the worker goes on with its next round.
- Whether a workflow can lack a step specification: `manageWorkflow` tests `workflow.Spec != nil` (controller.go:313), treating it as a pointer, while the unit test builds `Spec` as a plain value (controller_test.go:38). The type declaration is not part of this model. The model follows controller.go, so `spec` is optional; under the test's reading neither `NilSpecPanic` nor the `manageWorkflowReference` path could occur.
- `manageWorkflowReference` (controller.go:344-348) is reached only by a workflow with no step specification but with a status map; without either, the sync panics first (controller.go:213-214).
- delete.go and deleteall.go (the command-line delete commands) are outside the reconcile core.
- Workflow updates: the old version of an updated workflow is not consulted (controller.go:100-104), and the model takes it as an ignored parameter.
- The unit test case named "Failed and False" (controller_test.go:132-144) in fact builds a Complete/False condition. `Finished.FinishedTestCases` covers it as the Complete/False case.

## Findings

| source | as written | input that shows it | evidently intended | confidence | as-written member | corrected member |
|---|---|---|---|---|---|---|
| pkg/controller/workflow/controller.go:242-249 | Only a Complete condition with status True counts as finished. | A workflow whose one condition is Failed/True (test case "Failed and True") is reported not finished, so its updates keep being enqueued. | A Failed/True condition also means finished, as the unit test expects. | not executed; the unit test as written would fail | Finished.FailedTrueIsNotFinished | Finished.FinishedIntended |
| pkg/controller/workflow/controller.go:332-338 | An accepted creation records nothing, and a rejected one calls `CreationObserved`. | The test workflow synced twice with no job event in between issues the same `CreateJob` request twice. | Raise the add expectation before each creation and lower it when the creation is rejected, so the next pass waits for the watch. This only postpones the repeat until the job is reported (`Scenarios.ReportedCreationReopensGate`), because the status map is never written back (controller.go:237-240). | not executed | Scenarios.FixtureDuplicateCreation | Controller.WorkflowController.ManageWorkflowJobIntended |
| pkg/controller/workflow/controller.go:300-306 | `DeletionObserved` is keyed by the deleted job's own key. | An owner with one expected deletion, whose job "default/mydag-myJob" is deleted: the owner "default/mydag" keeps its pending deletion. Nothing in this controller ever expects a deletion, so from the initial empty table the wrong key has no effect until some code expects deletions. | Key the observation by the owning workflow, as `addJob` does. | not executed | Scenarios.DeletionObservedUnderJobKey | Controller.WorkflowController.DeleteJobIntended |
| pkg/controller/workflow/controller.go:153-157 | `workflows[0]` is taken with no emptiness check, and with several matches the first listed wins. | A match list `[]` panics. The lists `[a, b]` and `[b, a]` resolve to different owners. | No owner for an empty list, and a deterministic choice among several. The commented-out line sorts by creation timestamp, which is not modelled; the corrected choice takes the smallest key instead. | not executed; the empty case depends on the lister, which is not part of this model, returning an empty list without an error | Ownership.FirstMatchDependsOnOrder | Ownership.SelectOwnerDeterministic |
| pkg/controller/workflow/controller.go:294-299 | `job.Name` is read before the `ok` of the type assertion is checked. | A deletion tombstone delivered to `deleteJob` dereferences a nil job. | Check `ok` first; a non-job payload is skipped. | not executed | Scenarios.TombstoneCrashesDeleteJob | Controller.WorkflowController.DeleteJobIntended |
| pkg/controller/workflow/controller.go:163-175 | On quit, `return` leaves only the inner closure, and the enclosing `for {}` goes on. | After `ShutDown`, every round's `Get` returns quit and the worker spins forever. | Leave the worker on quit. | not executed | Controller.WorkflowController.WorkerAsWritten | Controller.WorkflowController.Worker |

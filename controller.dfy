/** The workflow controller as one sequential object: the workflow store,
    the job store's readiness flag, the expectations cache, the work queue,
    the job-control boundary (a log of calls and the platform's answers),
    and the event handlers and reconcile pass that act on them. */
module Controller {
  import opened Types
  import opened Reconcile
  import opened Ownership
  import E = Expectations
  import Finished

  /** One key of the workflow store: the stored workflow, or a lookup that
      reports the key as existing but fails with an error. A key absent from
      the map does not exist. */
  datatype StoreEntry = Present(workflow: Workflow) | Failing(reason: string)

  /** What the queue's Get returns: a key, the quit signal after shutdown,
      or `Empty` where the real call would block until a key is added. */
  datatype GetResult = Item(key: string) | Quit | Empty

  /** The run-time panics the handlers can hit. */
  datatype PanicCause = IndexOutOfRange | NilPointer

  datatype HandlerOutcome = Completed | Panicked(cause: PanicCause)

  /** One round of a worker: the quit signal, nothing to do, or one key
      taken, synced and marked done. */
  datatype WorkStep = Stopped | Idle | Processed(key: string, outcome: SyncOutcome)

  /** The parts of the controller a worker round changes. */
  datatype Snapshot = Snapshot(dirty: set<string>, expectations: E.Table, createLog: seq<CreateRequest>)

  /** The key a resolved owner gets enqueued under, if any. */
  function EnqueuedBy(r: Resolution): set<string>
  {
    if r.OwnedBy? then {WorkflowKey(r.owner)} else {}
  }

  function EnqueuedBySelected(r: Option<Workflow>): set<string>
  {
    if r.Some? then {WorkflowKey(r.value)} else {}
  }

  class WorkflowController {
    /** The workflow store, keyed like the queue. */
    var store: map<string, StoreEntry>
    /** Whether the job store has completed its initial listing. */
    var jobStoreSynced: bool
    /** The expectations cache. */
    var expectations: E.Table
    /** Keys whose expectations record the clock declares older than its
        time-to-live. */
    var ttlExpired: set<string>
    /** The work queue: keys added and not yet handed out (`dirty`), and keys
        a worker holds (`processing`). A dirty key that is also processing
        becomes available again once the worker is done with it. */
    var dirty: set<string>
    var processing: set<string>
    var shuttingDown: bool
    /** Every call made to the job-control boundary, in order. */
    var createLog: seq<CreateRequest>
    /** The platform's answer: the requests it rejects. */
    var rejectedCreates: set<CreateRequest>
    /** The workflow store's label-selector lookup of a job's owners. */
    const ownersOf: Job -> OwnerLookup

    ghost predicate Valid()
      reads this
    {
      E.NonNegative(expectations)
    }

    function Now(): Snapshot
      reads this`dirty, this`expectations, this`createLog
    {
      Snapshot(dirty, expectations, createLog)
    }

    constructor (ownersOf: Job -> OwnerLookup)
      ensures Valid() && this.ownersOf == ownersOf
      ensures store == map[] && !jobStoreSynced && expectations == map[] && ttlExpired == {}
      ensures dirty == {} && processing == {} && !shuttingDown
      ensures createLog == [] && rejectedCreates == {}
    {
      this.ownersOf := ownersOf;
      store := map[];
      jobStoreSynced := false;
      expectations := map[];
      ttlExpired := {};
      dirty := {};
      processing := {};
      shuttingDown := false;
      createLog := [];
      rejectedCreates := {};
    }

    // ----- Work queue -----

    /** Add: a key already waiting is not added twice. */
    method Add(key: string)
      modifies this`dirty
      ensures dirty == old(dirty) + {key}
    {
      dirty := dirty + {key};
    }

    /** Get: never hands out a key some worker already holds. */
    method Get() returns (r: GetResult)
      modifies this`dirty, this`processing
      ensures shuttingDown ==> r == Quit
      ensures !shuttingDown && old(dirty - processing) == {} ==> r == Empty
      ensures !shuttingDown && old(dirty - processing) != {} ==> r.Item?
      ensures r.Item? ==> r.key in old(dirty) && r.key !in old(processing)
      ensures r.Item? ==> dirty == old(dirty) - {r.key} && processing == old(processing) + {r.key}
      ensures !r.Item? ==> dirty == old(dirty) && processing == old(processing)
    {
      if shuttingDown {
        return Quit;
      }
      if dirty - processing == {} {
        return Empty;
      }
      var key :| key in dirty - processing;
      dirty := dirty - {key};
      processing := processing + {key};
      return Item(key);
    }

    /** Done: the worker releases the key; if it was added again meanwhile it
        is available again. */
    method Done(key: string)
      requires key in processing
      modifies this`processing
      ensures processing == old(processing) - {key}
      ensures key in dirty ==> key in dirty - processing
    {
      processing := processing - {key};
    }

    method ShutDown()
      modifies this`shuttingDown
      ensures shuttingDown
    {
      shuttingDown := true;
    }

    // ----- Expectations cache -----

    method SatisfiedExpectations(key: string) returns (satisfied: bool)
      ensures satisfied <==> key !in expectations || E.Fulfilled(expectations[key]) || key in ttlExpired
    {
      satisfied := E.Satisfied(expectations, ttlExpired, key);
    }

    method CreationObserved(key: string)
      requires Valid()
      modifies this`expectations
      ensures Valid()
      ensures expectations == E.CreationObserved(old(expectations), key)
    {
      expectations := E.CreationObserved(expectations, key);
    }

    method DeletionObserved(key: string)
      requires Valid()
      modifies this`expectations
      ensures Valid()
      ensures expectations == E.DeletionObserved(old(expectations), key)
    {
      expectations := E.DeletionObserved(expectations, key);
    }

    method DeleteExpectations(key: string)
      requires Valid()
      modifies this`expectations
      ensures Valid()
      ensures expectations == E.DeleteExpectations(old(expectations), key)
    {
      expectations := E.DeleteExpectations(expectations, key);
    }

    /** Records one more expected creation (used only by the corrected pass). */
    method RaiseExpectations(key: string)
      requires Valid()
      modifies this`expectations
      ensures Valid()
      ensures expectations == E.RaiseAdds(old(expectations), key, 1)
    {
      expectations := E.RaiseAdds(expectations, key, 1);
    }

    // ----- Job-control boundary -----

    /** CreateJob: the call is logged; the platform accepts it unless it is
        one of the rejected requests. */
    method CreateJob(req: CreateRequest) returns (ok: bool)
      modifies this`createLog
      ensures createLog == old(createLog) + [req]
      ensures ok <==> req !in rejectedCreates
    {
      createLog := createLog + [req];
      ok := req !in rejectedCreates;
    }

    // ----- Event handlers -----

    /** enqueueController: adds the object's key, or nothing when the object
        has no key. It is also the workflow feed's add and delete handler
        (a deleted workflow may arrive as a tombstone). */
    method EnqueueController(obj: Object)
      modifies this`dirty
      ensures KeyFunc(obj).Ok? ==> dirty == old(dirty) + {KeyFunc(obj).value}
      ensures KeyFunc(obj).Err? ==> dirty == old(dirty)
    {
      var key := KeyFunc(obj);
      if key.Err? {
        return;
      }
      Add(key.value);
    }

    /** Workflow updated: the new version is enqueued unless it is finished.
        The old version is not looked at. */
    method OnWorkflowUpdate(oldWorkflow: Workflow, cur: Workflow)
      modifies this`dirty
      ensures Finished.HasTrueCondition(cur.status.conditions, WorkflowComplete) ==> dirty == old(dirty)
      ensures !Finished.HasTrueCondition(cur.status.conditions, WorkflowComplete) ==>
        dirty == old(dirty) + {WorkflowKey(cur)}
    {
      var finished := Finished.IsWorkflowFinished(cur);
      if !finished {
        EnqueueController(WorkflowObject(cur));
      }
    }

    /** addJob: the owner's creation is observed and the owner enqueued. The
        owner's key cannot fail to compute for a typed workflow. */
    method AddJob(job: Job) returns (outcome: HandlerOutcome)
      requires Valid()
      modifies this`expectations, this`dirty
      ensures Valid()
      ensures var r := GetJobWorkflow(ownersOf(job));
        && outcome == (if r.OutOfRange? then Panicked(IndexOutOfRange) else Completed)
        && dirty == old(dirty) + EnqueuedBy(r)
        && expectations == (if r.OwnedBy? then E.CreationObserved(old(expectations), WorkflowKey(r.owner))
                            else old(expectations))
    {
      var r := GetJobWorkflow(ownersOf(job));
      match r
      case NoOwner =>
        return Completed;
      case OutOfRange =>
        return Panicked(IndexOutOfRange);
      case OwnedBy(w) =>
        CreationObserved(WorkflowKey(w));
        EnqueueController(WorkflowObject(w));
        return Completed;
    }

    /** updateJob: nothing for deep-equal versions; otherwise the current
        owner is enqueued, and, when the labels changed, the old owner too. */
    method UpdateJob(oldJob: Job, curJob: Job) returns (outcome: HandlerOutcome)
      modifies this`dirty
      ensures var rc, ro := GetJobWorkflow(ownersOf(curJob)), GetJobWorkflow(ownersOf(oldJob));
        if oldJob == curJob then
          outcome == Completed && dirty == old(dirty)
        else if rc.OutOfRange? then
          outcome == Panicked(IndexOutOfRange) && dirty == old(dirty)
        else if oldJob.labels == curJob.labels then
          outcome == Completed && dirty == old(dirty) + EnqueuedBy(rc)
        else
          && outcome == (if ro.OutOfRange? then Panicked(IndexOutOfRange) else Completed)
          && dirty == old(dirty) + EnqueuedBy(rc) + EnqueuedBy(ro)
    {
      if oldJob == curJob {
        return Completed;
      }
      var rc := GetJobWorkflow(ownersOf(curJob));
      if rc.OutOfRange? {
        return Panicked(IndexOutOfRange);
      }
      if rc.OwnedBy? {
        EnqueueController(WorkflowObject(rc.owner));
      }
      if oldJob.labels != curJob.labels {
        var ro := GetJobWorkflow(ownersOf(oldJob));
        if ro.OutOfRange? {
          return Panicked(IndexOutOfRange);
        }
        if ro.OwnedBy? {
          EnqueueController(WorkflowObject(ro.owner));
        }
      }
      return Completed;
    }

    /** deleteJob as written: a payload that is not a job panics (its name is
        read before the type check); otherwise the deletion is observed under
        the JOB's key, not the owner's, and the owner is enqueued. */
    method DeleteJob(obj: Object) returns (outcome: HandlerOutcome)
      requires Valid()
      modifies this`expectations, this`dirty
      ensures Valid()
      ensures !obj.JobObject? ==>
        outcome == Panicked(NilPointer) && dirty == old(dirty) && expectations == old(expectations)
      ensures obj.JobObject? ==> var r := GetJobWorkflow(ownersOf(obj.job));
        && outcome == (if r.OutOfRange? then Panicked(IndexOutOfRange) else Completed)
        && dirty == old(dirty) + EnqueuedBy(r)
        && expectations == (if r.OwnedBy? then E.DeletionObserved(old(expectations), JobKey(obj.job))
                            else old(expectations))
    {
      if !obj.JobObject? {
        return Panicked(NilPointer);
      }
      var r := GetJobWorkflow(ownersOf(obj.job));
      match r
      case NoOwner =>
        return Completed;
      case OutOfRange =>
        return Panicked(IndexOutOfRange);
      case OwnedBy(w) =>
        var key := KeyFunc(obj);
        DeletionObserved(key.value);
        EnqueueController(WorkflowObject(w));
        return Completed;
    }

    /** deleteJob as evidently intended: a payload that is not a job is
        ignored, the owner is chosen by the deterministic tie-break, and the
        deletion is observed under the owner's key. */
    method DeleteJobIntended(obj: Object) returns (outcome: HandlerOutcome)
      requires Valid()
      modifies this`expectations, this`dirty
      ensures Valid()
      ensures outcome == Completed
      ensures !obj.JobObject? ==> dirty == old(dirty) && expectations == old(expectations)
      ensures obj.JobObject? ==> var r := SelectOwner(ownersOf(obj.job));
        && dirty == old(dirty) + EnqueuedBySelected(r)
        && expectations == (if r.Some? then E.DeletionObserved(old(expectations), WorkflowKey(r.value))
                            else old(expectations))
    {
      outcome := Completed;
      if !obj.JobObject? {
        return;
      }
      var r := SelectOwner(ownersOf(obj.job));
      if r.Some? {
        DeletionObserved(WorkflowKey(r.value));
        EnqueueController(WorkflowObject(r.value));
      }
    }

    // ----- Reconcile pass -----

    /** What manageWorkflow leaves behind, from the log `log0` and the table
        `exp0` it started with: the new calls form a creation pass over all
        steps, and each rejected call has lowered the workflow's add counter
        by one. A workflow without a step specification is left alone. */
    ghost predicate ManageEffect(w: Workflow, log0: seq<CreateRequest>, exp0: E.Table,
                                 log1: seq<CreateRequest>, exp1: E.Table)
      reads this`rejectedCreates
    {
      && Extends(w, log0, log1, Steps(w))
      && exp1 == (if w.spec.Some? then E.LowerAdds(exp0, WorkflowKey(w), |FailedSteps(w, rejectedCreates)|)
                  else exp0)
    }

    method ManageWorkflowReference(w: Workflow) returns (updateNeeded: bool)
      ensures !updateNeeded
    {
      updateNeeded := false;
    }

    /** The state of manageWorkflowJob's loop as written, once the steps in
        `done` have been visited: their calls are logged, and each rejected
        one has lowered the add counter. */
    ghost predicate WrittenSoFar(w: Workflow, log0: seq<CreateRequest>, exp0: E.Table, done: set<string>)
      reads this`createLog, this`expectations, this`rejectedCreates
    {
      && Extends(w, log0, createLog, done)
      && expectations == E.LowerAdds(exp0, WorkflowKey(w), |FailedAmong(w, rejectedCreates, done)|)
    }

    /** One iteration of manageWorkflowJob's loop as written: a step with a
        status entry is skipped; otherwise its job is requested, and a
        rejected request counts as an observed creation. */
    method VisitStep(w: Workflow, stepName: string, ghost log0: seq<CreateRequest>, ghost exp0: E.Table,
                     ghost done: set<string>)
      requires Valid() && E.NonNegative(exp0)
      requires stepName in Steps(w) && stepName !in done
      requires WrittenSoFar(w, log0, exp0, done)
      modifies this`createLog, this`expectations
      ensures Valid()
      ensures WrittenSoFar(w, log0, exp0, done + {stepName})
    {
      FailedStep(w, rejectedCreates, done, stepName);
      if !HasStatus(w, stepName) {
        CallStep(w, log0, createLog, done, stepName);
        var ok := CreateJob(RequestFor(w, stepName));
        if !ok {
          E.LowerAddsStep(exp0, WorkflowKey(w), |FailedAmong(w, rejectedCreates, done)|);
          CreationObserved(WorkflowKey(w));
        }
      } else {
        SkipStep(w, log0, createLog, done, stepName);
      }
    }

    /** manageWorkflowJob as written: one creation call per step without a
        status entry, in map order; a rejected call does not stop the loop,
        and it lowers the add expectation (CreationObserved) instead of an
        accepted one raising it. The result is always true. */
    method ManageWorkflowJob(w: Workflow) returns (updateNeeded: bool)
      requires Valid() && w.spec.Some?
      modifies this`createLog, this`expectations
      ensures Valid()
      ensures updateNeeded
      ensures ManageEffect(w, old(createLog), old(expectations), createLog, expectations)
    {
      updateNeeded := true;
      var steps := w.spec.value.steps;
      var remaining := steps.Keys;
      ExtendsEmpty(w, createLog);
      ghost var done: set<string> := {};
      while remaining != {}
        invariant done <= steps.Keys && remaining == steps.Keys - done
        invariant Valid()
        invariant WrittenSoFar(w, old(createLog), old(expectations), done)
        decreases remaining
      {
        var stepName :| stepName in remaining;
        VisitStep(w, stepName, old(createLog), old(expectations), done);
        done := done + {stepName};
        remaining := remaining - {stepName};
      }
      assert done == Steps(w);
    }

    /** manageWorkflow: a workflow with steps is handled step by step; one
        without is handed to the unimplemented reference path. */
    method ManageWorkflow(w: Workflow) returns (updateNeeded: bool)
      requires Valid()
      modifies this`createLog, this`expectations
      ensures Valid()
      ensures updateNeeded <==> w.spec.Some?
      ensures ManageEffect(w, old(createLog), old(expectations), createLog, expectations)
    {
      if w.spec.Some? {
        updateNeeded := ManageWorkflowJob(w);
      } else {
        updateNeeded := ManageWorkflowReference(w);
        ExtendsEmpty(w, createLog);
      }
    }

    /** The state of the corrected loop once the steps in `done` have been
        visited: their calls are logged, and the add counter has been raised
        by the accepted ones. */
    ghost predicate IntendedSoFar(w: Workflow, log0: seq<CreateRequest>, exp0: E.Table, done: set<string>)
      reads this`createLog, this`expectations, this`rejectedCreates
    {
      && Extends(w, log0, createLog, done)
      && expectations == E.AfterAttempts(exp0, WorkflowKey(w), Attempted(w, done),
                                         |SucceededAmong(w, rejectedCreates, done)|)
    }

    /** One iteration of the corrected loop: an expected creation is recorded
        before the request, and taken back if the request is rejected. */
    method VisitStepIntended(w: Workflow, stepName: string, ghost log0: seq<CreateRequest>, ghost exp0: E.Table,
                             ghost done: set<string>)
      requires Valid() && E.NonNegative(exp0)
      requires stepName in Steps(w) && stepName !in done
      requires IntendedSoFar(w, log0, exp0, done)
      modifies this`createLog, this`expectations
      ensures Valid()
      ensures IntendedSoFar(w, log0, exp0, done + {stepName})
    {
      ghost var key := WorkflowKey(w);
      ghost var attempted := Attempted(w, done);
      ghost var n := |SucceededAmong(w, rejectedCreates, done)|;
      SucceededStep(w, rejectedCreates, done, stepName);
      AttemptedStep(w, rejectedCreates, done, stepName);
      if !HasStatus(w, stepName) {
        E.AttemptStep(exp0, key, attempted, n);
        RaiseExpectations(WorkflowKey(w));
        assert expectations == E.AfterAttempts(exp0, key, true, n + 1);
        CallStep(w, log0, createLog, done, stepName);
        var ok := CreateJob(RequestFor(w, stepName));
        if !ok {
          CreationObserved(WorkflowKey(w));
          assert expectations == E.AfterAttempts(exp0, key, true, n);
        }
      } else {
        SkipStep(w, log0, createLog, done, stepName);
      }
    }

    /** The corrected loop over all steps. */
    method IntendedPass(w: Workflow)
      requires Valid() && w.spec.Some?
      modifies this`createLog, this`expectations
      ensures Valid()
      ensures IntendedSoFar(w, old(createLog), old(expectations), Steps(w))
    {
      var steps := w.spec.value.steps;
      var remaining := steps.Keys;
      ExtendsEmpty(w, createLog);
      ghost var done: set<string> := {};
      while remaining != {}
        invariant done <= steps.Keys && remaining == steps.Keys - done
        invariant Valid()
        invariant IntendedSoFar(w, old(createLog), old(expectations), done)
        decreases remaining
      {
        var stepName :| stepName in remaining;
        VisitStepIntended(w, stepName, old(createLog), old(expectations), done);
        done := done + {stepName};
        remaining := remaining - {stepName};
      }
      assert done == Steps(w);
    }

    /** manageWorkflowJob as evidently intended: the add counter ends up
        raised by the number of accepted creations, so the next pass waits
        until the watch has reported each of them. */
    method ManageWorkflowJobIntended(w: Workflow) returns (updateNeeded: bool)
      requires Valid() && w.spec.Some?
      modifies this`createLog, this`expectations
      ensures Valid()
      ensures updateNeeded
      ensures Extends(w, old(createLog), createLog, Steps(w))
      ensures expectations == E.AfterAttempts(old(expectations), WorkflowKey(w), MissingSteps(w) != {},
                                              |SucceededSteps(w, rejectedCreates)|)
      ensures SucceededSteps(w, rejectedCreates) != {} && WorkflowKey(w) !in ttlExpired ==>
        !E.Satisfied(expectations, ttlExpired, WorkflowKey(w))
    {
      updateNeeded := true;
      IntendedPass(w);
      SucceededAreMissing(w, rejectedCreates);
      if SucceededSteps(w, rejectedCreates) != {} && WorkflowKey(w) !in ttlExpired {
        E.AcceptedCreationCloses(old(expectations), ttlExpired, WorkflowKey(w), |SucceededSteps(w, rejectedCreates)|);
      }
    }

    /** What one syncWorkflow pass for `key` does, from state `s0` to state
        `s1`. The branches come in the source's order: a key that does not
        exist (even if the lookup also failed), a failing lookup, a job store
        that has not synced yet, a workflow with neither a step specification
        nor a status map (sizing the new status map dereferences the nil
        specification), and then the expectations gate. */
    ghost predicate SyncEffect(key: string, r: SyncOutcome, s0: Snapshot, s1: Snapshot)
      reads this`store, this`jobStoreSynced, this`ttlExpired, this`rejectedCreates
    {
      if key !in store then
        r == WorkflowDeleted && s1 == s0.(expectations := E.DeleteExpectations(s0.expectations, key))
      else match store[key]
        case Failing(reason) =>
          r == StoreError(reason) && s1 == s0.(dirty := s0.dirty + {key})
        case Present(w) =>
          if !jobStoreSynced then
            r == NotReady && s1 == s0.(dirty := s0.dirty + {WorkflowKey(w)})
          else if w.spec.None? && w.status.statuses.None? then
            r == NilSpecPanic && s1 == s0
          else if E.Satisfied(s0.expectations, ttlExpired, WorkflowKey(w)) then
            r == Reconciled(EnsureStatuses(w)) && s1.dirty == s0.dirty
            && ManageEffect(EnsureStatuses(w), s0.createLog, s0.expectations, s1.createLog, s1.expectations)
          else
            r == ExpectationsPending(EnsureStatuses(w)) && s1 == s0
    }

    /** syncWorkflow. The store itself is never written: the status map is
        initialised on a local copy that is discarded. */
    method SyncWorkflow(key: string) returns (r: SyncOutcome)
      requires Valid()
      modifies this`expectations, this`dirty, this`createLog
      ensures Valid()
      ensures SyncEffect(key, r, old(Now()), Now())
    {
      if key !in store {
        DeleteExpectations(key);
        return WorkflowDeleted;
      }
      match store[key]
      case Failing(reason) =>
        Add(key);
        return StoreError(reason);
      case Present(stored) =>
        if !jobStoreSynced {
          EnqueueController(WorkflowObject(stored));
          return NotReady;
        }
        // The key of a typed workflow cannot fail to compute.
        var workflowKey := WorkflowKey(stored);
        var workflowNeedsSync := SatisfiedExpectations(workflowKey);
        if stored.spec.None? && stored.status.statuses.None? {
          return NilSpecPanic;
        }
        var workflow := EnsureStatuses(stored);
        if workflowNeedsSync {
          var _ := ManageWorkflow(workflow);
          return Reconciled(workflow);
        }
        return ExpectationsPending(workflow);
    }

    // ----- Worker -----

    /** One worker round from state `s0` to `s1`, with `held` the keys other
        workers hold: the quit signal after shutdown, nothing when no key is
        available, or one available key taken and synced. */
    ghost predicate RoundEffect(s0: Snapshot, step: WorkStep, s1: Snapshot, held: set<string>)
      reads this`store, this`jobStoreSynced, this`ttlExpired, this`rejectedCreates, this`shuttingDown
    {
      match step
      case Stopped => shuttingDown && s1 == s0
      case Idle => !shuttingDown && s0.dirty - held == {} && s1 == s0
      case Processed(key, outcome) =>
        && !shuttingDown && key in s0.dirty && key !in held
        && SyncEffect(key, outcome, s0.(dirty := s0.dirty - {key}), s1)
    }

    /** The body of the worker loop: take a key, sync it, mark it done. */
    method ProcessNextWorkItem() returns (step: WorkStep)
      requires Valid()
      modifies this`dirty, this`processing, this`expectations, this`createLog
      ensures Valid()
      ensures processing == old(processing)
      ensures RoundEffect(old(Now()), step, Now(), processing)
    {
      var item := Get();
      match item
      case Quit =>
        return Stopped;
      case Empty =>
        return Idle;
      case Item(key) =>
        var outcome := SyncWorkflow(key);
        Done(key);
        return Processed(key, outcome);
    }

    /** `steps` is a run of consecutive rounds through the states `trace`. */
    ghost predicate Run(trace: seq<Snapshot>, steps: seq<WorkStep>)
      reads this`store, this`jobStoreSynced, this`ttlExpired, this`rejectedCreates, this`shuttingDown,
            this`processing
    {
      && |trace| == |steps| + 1
      && forall i :: 0 <= i < |steps| ==> RoundEffect(trace[i], steps[i], trace[i + 1], processing)
    }

    /** The worker loop as written, run for `rounds` rounds (the real loop is
        unbounded): every round is one ProcessNextWorkItem. Quitting only
        leaves the round, so after shutdown every round returns the quit
        signal, nothing changes, and the loop never ends. */
    method WorkerAsWritten(rounds: nat) returns (steps: seq<WorkStep>, quits: nat, ghost trace: seq<Snapshot>)
      requires Valid()
      modifies this`dirty, this`processing, this`expectations, this`createLog
      ensures Valid()
      ensures processing == old(processing)
      ensures |steps| == rounds && Run(trace, steps)
      ensures trace[0] == old(Now()) && trace[rounds] == Now()
      ensures shuttingDown ==> quits == rounds && Now() == old(Now())
    {
      quits := 0;
      steps := [];
      trace := [Now()];
      while |steps| < rounds
        invariant |steps| <= rounds
        invariant Valid() && processing == old(processing)
        invariant Run(trace, steps)
        invariant trace[0] == old(Now()) && trace[|steps|] == Now()
        invariant shuttingDown ==> quits == |steps| && Now() == old(Now())
      {
        var step := ProcessNextWorkItem();
        if step.Stopped? {
          quits := quits + 1;
        }
        steps := steps + [step];
        trace := trace + [Now()];
      }
    }

    /** The worker loop as intended: it exits on the quit signal. It runs at
        most `rounds` rounds, each one ProcessNextWorkItem; only the last can
        be the quit signal, and stopping early means it was. After shutdown
        exactly one round runs and nothing changes. */
    method Worker(rounds: nat) returns (steps: seq<WorkStep>, ghost trace: seq<Snapshot>)
      requires Valid()
      modifies this`dirty, this`processing, this`expectations, this`createLog
      ensures Valid()
      ensures processing == old(processing)
      ensures |steps| <= rounds && Run(trace, steps)
      ensures trace[0] == old(Now()) && trace[|steps|] == Now()
      ensures forall i :: 0 <= i < |steps| - 1 ==> !steps[i].Stopped?
      ensures |steps| < rounds ==> |steps| > 0 && steps[|steps| - 1].Stopped?
      ensures shuttingDown && rounds > 0 ==> |steps| == 1 && Now() == old(Now())
    {
      steps := [];
      trace := [Now()];
      while |steps| < rounds
        invariant |steps| <= rounds
        invariant Valid() && processing == old(processing)
        invariant Run(trace, steps)
        invariant trace[0] == old(Now()) && trace[|steps|] == Now()
        invariant forall i :: 0 <= i < |steps| ==> !steps[i].Stopped?
        invariant shuttingDown ==> steps == []
      {
        var step := ProcessNextWorkItem();
        steps := steps + [step];
        trace := trace + [Now()];
        if step.Stopped? {
          return;
        }
      }
    }
  }
}

/** Concrete runs of the controller on the one-step workflow of the unit
    tests, showing the behaviours the findings are about. */
module Scenarios {
  import opened Types
  import opened Reconcile
  import opened Ownership
  import E = Expectations
  import opened Controller

  /** The test fixture: workflow "mydag" in the default namespace with one
      step "myJob" and no status map yet. */
  function Fixture(): Workflow
  {
    Workflow("default", "mydag",
      Some(WorkflowSpec(map["myJob" := WorkflowStep(JobTemplate(map["foo" := "bar"], "foo/bar"))])),
      WorkflowStatus(None, []))
  }

  /** A job the fixture's selector matches. */
  function FixtureJob(): Job
  {
    Job("default", "mydag-myJob", map["foo" := "bar"], "1")
  }

  lemma FixtureFacts()
    ensures Steps(Fixture()) == {"myJob"} && MissingSteps(Fixture()) == {"myJob"}
    ensures MissingSteps(EnsureStatuses(Fixture())) == {"myJob"}
    ensures RequestFor(EnsureStatuses(Fixture()), "myJob") == RequestFor(Fixture(), "myJob")
    ensures WorkflowKey(Fixture()) == "default/mydag"
    ensures JobKey(FixtureJob()) == "default/mydag-myJob"
  {
    assert "myJob" in MissingSteps(Fixture());
  }

  /** A controller whose workflow store holds `w`, whose job store has
      synced, and whose lookup makes `w` the sole owner of every job. */
  method ReadyController(w: Workflow, rejected: set<CreateRequest>) returns (c: WorkflowController)
    ensures fresh(c) && c.Valid()
    ensures c.store == map[WorkflowKey(w) := Present(w)] && c.jobStoreSynced
    ensures c.expectations == map[] && c.ttlExpired == {}
    ensures c.dirty == {} && c.processing == {} && !c.shuttingDown
    ensures c.createLog == [] && c.rejectedCreates == rejected
    ensures forall j :: c.ownersOf(j) == Found([w])
  {
    c := new WorkflowController((j: Job) => Found([w]));
    c.store := map[WorkflowKey(w) := Present(w)];
    c.jobStoreSynced := true;
    c.rejectedCreates := rejected;
  }

  /** Two passes with no watch event in between create the same job twice:
      the status map is never written back and an accepted creation records
      no expectation, so nothing tells the second pass about the first. This
      holds for any workflow with exactly one step lacking a status entry. */
  method DuplicateCreationOnResync(w: Workflow, step: string) returns (c: WorkflowController)
    requires MissingSteps(w) == {step}
    ensures c.createLog == [RequestFor(w, step), RequestFor(w, step)]
    ensures c.expectations == map[]
  {
    assert step in Steps(w);
    var req := RequestFor(w, step);
    c := ReadyController(w, {});
    var r1 := c.SyncWorkflow(WorkflowKey(w));
    assert c.store[WorkflowKey(w)] == Present(w);
    assert c.ManageEffect(EnsureStatuses(w), [], map[], c.createLog, c.expectations);
    SingleMissingStep(EnsureStatuses(w), step, c.createLog[0..]);
    assert c.createLog == c.createLog[0..] == [req];
    var r2 := c.SyncWorkflow(WorkflowKey(w));
    assert c.ManageEffect(EnsureStatuses(w), [req], map[], c.createLog, c.expectations);
    SingleMissingStep(EnsureStatuses(w), step, c.createLog[1..]);
    assert c.createLog == c.createLog[..1] + c.createLog[1..];
  }

  /** The instance on the test fixture: "myJob" is requested twice. */
  method FixtureDuplicateCreation() returns (c: WorkflowController)
    ensures c.createLog == [RequestFor(Fixture(), "myJob"), RequestFor(Fixture(), "myJob")]
  {
    FixtureFacts();
    c := DuplicateCreationOnResync(Fixture(), "myJob");
  }

  /** With the corrected pass the accepted creation is expected, so the
      next sync issues nothing until the watch reports the job. */
  method IntendedPassGatesResync(w: Workflow, step: string) returns (c: WorkflowController, r: SyncOutcome)
    requires MissingSteps(w) == {step}
    ensures fresh(c) && c.Valid()
    ensures c.store == map[WorkflowKey(w) := Present(w)] && c.jobStoreSynced
    ensures c.ttlExpired == {} && c.rejectedCreates == {} && forall j :: c.ownersOf(j) == Found([w])
    ensures c.createLog == [RequestFor(w, step)]
    ensures r.ExpectationsPending?
    ensures c.expectations == map[WorkflowKey(w) := E.Counters(1, 0)]
  {
    assert step in Steps(w);
    var working := EnsureStatuses(w);
    c := ReadyController(w, {});
    var _ := c.ManageWorkflowJobIntended(working);
    SingleMissingStep(working, step, c.createLog[0..]);
    assert c.createLog == c.createLog[0..];
    assert SucceededSteps(working, {}) == {step};
    assert c.expectations == map[WorkflowKey(w) := E.Counters(1, 0)];
    r := c.SyncWorkflow(WorkflowKey(w));
  }

  /** The gate only postpones the duplicate: the status map is still never
      written back, so once the watch reports the job the next sync opens
      the gate and requests the same job again. */
  method ReportedCreationReopensGate(w: Workflow, step: string, job: Job) returns (c: WorkflowController, r: SyncOutcome)
    requires MissingSteps(w) == {step}
    ensures E.Satisfied(c.expectations, c.ttlExpired, WorkflowKey(w))
    ensures r.Reconciled?
    ensures c.createLog == [RequestFor(w, step), RequestFor(w, step)]
  {
    var pending;
    c, pending := IntendedPassGatesResync(w, step);
    var _ := c.AddJob(job);
    assert c.expectations == map[WorkflowKey(w) := E.Counters(0, 0)];
    ghost var log1 := c.createLog;
    r := c.SyncWorkflow(WorkflowKey(w));
    assert c.store[WorkflowKey(w)] == Present(w);
    assert c.ManageEffect(EnsureStatuses(w), log1, map[WorkflowKey(w) := E.Counters(0, 0)], c.createLog, c.expectations);
    SingleMissingStep(EnsureStatuses(w), step, c.createLog[1..]);
    assert c.createLog == c.createLog[..1] + c.createLog[1..];
  }

  /** The instance on the test fixture, with its job reported by the watch. */
  method FixtureGateReopens() returns (c: WorkflowController)
    ensures c.createLog == [RequestFor(Fixture(), "myJob"), RequestFor(Fixture(), "myJob")]
  {
    FixtureFacts();
    var r;
    c, r := ReportedCreationReopensGate(Fixture(), "myJob", FixtureJob());
  }

  /** deleteJob as written records the deletion under the job's own key:
      whenever that differs from the owner's key, the owner's outstanding
      deletion stays outstanding and its sync stays blocked. */
  method DeletionObservedUnderJobKey(w: Workflow, j: Job) returns (c: WorkflowController)
    requires JobKey(j) != WorkflowKey(w)
    ensures c.expectations == map[WorkflowKey(w) := E.Counters(0, 1)]
    ensures !E.Satisfied(c.expectations, c.ttlExpired, WorkflowKey(w))
    ensures c.dirty == {WorkflowKey(w)}
  {
    c := ReadyController(w, {});
    c.expectations := map[WorkflowKey(w) := E.Counters(0, 1)];
    var _ := c.DeleteJob(JobObject(j));
  }

  /** The corrected handler records it under the owner's key and clears it. */
  method DeletionObservedUnderOwnerKey(w: Workflow, j: Job) returns (c: WorkflowController)
    ensures c.expectations == map[WorkflowKey(w) := E.Counters(0, 0)]
    ensures E.Satisfied(c.expectations, c.ttlExpired, WorkflowKey(w))
    ensures c.dirty == {WorkflowKey(w)}
  {
    c := ReadyController(w, {});
    c.expectations := map[WorkflowKey(w) := E.Counters(0, 1)];
    ResolutionsOnOneMatch(Found([w]));
    var _ := c.DeleteJobIntended(JobObject(j));
  }

  /** The fixture's job and workflow have different keys. */
  lemma FixtureKeysDiffer()
    ensures JobKey(FixtureJob()) != WorkflowKey(Fixture())
  {
    FixtureFacts();
    assert |JobKey(FixtureJob())| != |WorkflowKey(Fixture())|;
  }

  /** The instance on the test fixture: deleting "default/mydag-myJob"
      leaves the pending deletion of "default/mydag". */
  method FixtureDeletionUnderJobKey() returns (c: WorkflowController)
    ensures c.expectations == map["default/mydag" := E.Counters(0, 1)]
    ensures !E.Satisfied(c.expectations, c.ttlExpired, "default/mydag")
  {
    FixtureFacts();
    FixtureKeysDiffer();
    c := DeletionObservedUnderJobKey(Fixture(), FixtureJob());
  }

  /** A stored workflow with neither a step specification nor a status map
      panics in syncWorkflow before the expectations gate, so the reference
      path is never reached for it. */
  method NilSpecAndStatusesPanics() returns (r: SyncOutcome)
    ensures r == NilSpecPanic
  {
    var w := Workflow("default", "nospec", None, WorkflowStatus(None, []));
    var c := ReadyController(w, {});
    r := c.SyncWorkflow(WorkflowKey(w));
  }

  /** A deleted job delivered as a tombstone crashes deleteJob as written;
      the corrected handler ignores it. */
  method TombstoneCrashesDeleteJob() returns (asWritten: HandlerOutcome, intended: HandlerOutcome)
    ensures asWritten == Panicked(NilPointer)
    ensures intended == Completed
  {
    var c := ReadyController(Fixture(), {});
    asWritten := c.DeleteJob(Tombstone("default/mydag-myJob"));
    intended := c.DeleteJobIntended(Tombstone("default/mydag-myJob"));
  }

  /** A job no workflow selects (an empty match list) crashes addJob. */
  method UnownedJobCrashesAddJob() returns (outcome: HandlerOutcome)
    ensures outcome == Panicked(IndexOutOfRange)
  {
    var c := new WorkflowController((j: Job) => Found([]));
    outcome := c.AddJob(FixtureJob());
  }

  /** After shutdown the worker as written keeps going round, receiving the
      quit signal every time; the corrected worker stops after one round. */
  method WorkerAfterShutdown() returns (quits: nat, iterations: nat)
    ensures quits == 3
    ensures iterations == 1
  {
    var c := ReadyController(Fixture(), {});
    c.ShutDown();
    var asWritten, q, _ := c.WorkerAsWritten(3);
    var intended, _ := c.Worker(3);
    quits, iterations := q, |intended|;
  }

  /** A failing lookup puts the key back and reports the error. */
  method SyncFailingLookup() returns (r: SyncOutcome, c: WorkflowController)
    ensures r.Error() == Some("lookup failed")
    ensures c.dirty == {"default/mydag"}
  {
    FixtureFacts();
    c := ReadyController(Fixture(), {});
    c.store := map[WorkflowKey(Fixture()) := Failing("lookup failed")];
    r := c.SyncWorkflow(WorkflowKey(Fixture()));
  }

  /** A job store that has not synced puts the workflow back without
      creating anything and without reporting an error. */
  method SyncBeforeJobStoreSynced() returns (r: SyncOutcome, c: WorkflowController)
    ensures r == NotReady && r.Error() == None
    ensures c.dirty == {"default/mydag"} && c.createLog == []
  {
    FixtureFacts();
    c := ReadyController(Fixture(), {});
    c.jobStoreSynced := false;
    r := c.SyncWorkflow(WorkflowKey(Fixture()));
  }

  /** A key that no longer exists drops its expectations. */
  method SyncDeletedKey() returns (r: SyncOutcome, c: WorkflowController)
    ensures r == WorkflowDeleted && r.Error() == None
    ensures c.expectations == map[]
  {
    FixtureFacts();
    c := ReadyController(Fixture(), {});
    c.store := map[];
    c.expectations := map[WorkflowKey(Fixture()) := E.Counters(2, 0)];
    r := c.SyncWorkflow(WorkflowKey(Fixture()));
  }
}

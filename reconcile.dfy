/** The specification side of a reconcile pass: which steps still need a
    job, what creation request each one produces, and what a complete
    pass over the step map has issued. */
module Reconcile {
  import opened Types

  /** One call to the job-control boundary: the namespace, the step's job
      template, the owning workflow's key and the step name. */
  datatype CreateRequest = CreateRequest(namespace: string, template: JobTemplate, owner: string, step: string)

  /** How one sync pass ended. Only `StoreError` reports an error to the
      worker; `NilSpecPanic` is a run-time panic, not a returned error; the
      others return nil. `working` is the local copy of the workflow the pass
      looked at (it is never written back). */
  datatype SyncOutcome =
    | WorkflowDeleted
    | StoreError(err: string)
    | NotReady
    | NilSpecPanic
    | ExpectationsPending(working: Workflow)
    | Reconciled(working: Workflow)
  {
    function Error(): Option<string>
    {
      if StoreError? then Some(err) else None
    }
  }

  function Steps(w: Workflow): set<string>
  {
    if w.spec.Some? then w.spec.value.steps.Keys else {}
  }

  /** The step already has a status entry (a nil status map has none). */
  predicate HasStatus(w: Workflow, step: string)
  {
    w.status.statuses.Some? && step in w.status.statuses.value
  }

  /** Declared steps without a status entry: the ones a pass creates jobs for. */
  function MissingSteps(w: Workflow): set<string>
  {
    set s | s in Steps(w) && !HasStatus(w, s)
  }

  function RequestFor(w: Workflow, step: string): CreateRequest
    requires step in Steps(w)
  {
    CreateRequest(w.namespace, w.spec.value.steps[step].jobTemplate, WorkflowKey(w), step)
  }

  /** The copy syncWorkflow works on: a nil status map replaced by an empty
      one, everything else as stored. Sizing the new map reads the step
      specification, so a workflow with neither a specification nor a status
      map cannot get here: it panics first. */
  function EnsureStatuses(w: Workflow): (w': Workflow)
    requires w.spec.Some? || w.status.statuses.Some?
    ensures w'.status.statuses.Some?
    ensures w.status.statuses.Some? ==> w' == w
    ensures w.status.statuses.None? ==> w'.status.statuses.value == map[]
    ensures w'.namespace == w.namespace && w'.name == w.name && w'.spec == w.spec
    ensures w'.status.conditions == w.status.conditions
    ensures MissingSteps(w') == MissingSteps(w)
  {
    if w.status.statuses.None? then
      w.(status := w.status.(statuses := Some(map[])))
    else
      w
  }

  function StepsOf(calls: seq<CreateRequest>): set<string>
  {
    set i | 0 <= i < |calls| :: calls[i].step
  }

  predicate DistinctSteps(calls: seq<CreateRequest>)
  {
    forall i, j :: 0 <= i < j < |calls| ==> calls[i].step != calls[j].step
  }

  /** `calls` is what a pass over the steps in `done` issues: one request
      per missing step of `done`, no step twice, each request built from the
      workflow's own namespace, template and key. */
  ghost predicate CreationPass(w: Workflow, calls: seq<CreateRequest>, done: set<string>)
  {
    && DistinctSteps(calls)
    && StepsOf(calls) == MissingSteps(w) * done
    && (forall i :: 0 <= i < |calls| ==> calls[i].step in Steps(w) && calls[i] == RequestFor(w, calls[i].step))
  }

  /** Missing steps of `done` whose request the platform rejects. */
  ghost function FailedAmong(w: Workflow, rejected: set<CreateRequest>, done: set<string>): set<string>
  {
    set s | s in done && s in MissingSteps(w) && RequestFor(w, s) in rejected
  }

  /** Missing steps whose creation request the platform rejects. */
  ghost function FailedSteps(w: Workflow, rejected: set<CreateRequest>): set<string>
  {
    FailedAmong(w, rejected, Steps(w))
  }

  lemma {:induction false} DistinctStepsCount(calls: seq<CreateRequest>)
    requires DistinctSteps(calls)
    ensures |StepsOf(calls)| == |calls|
  {
    if |calls| > 0 {
      var init := calls[..|calls| - 1];
      DistinctStepsCount(init);
      assert StepsOf(calls) == StepsOf(init) + {calls[|calls| - 1].step};
      assert calls[|calls| - 1].step !in StepsOf(init);
    }
  }

  /** A complete pass issues exactly one call per missing step. */
  lemma CreationPassCount(w: Workflow, calls: seq<CreateRequest>)
    requires CreationPass(w, calls, Steps(w))
    ensures |calls| == |MissingSteps(w)|
  {
    DistinctStepsCount(calls);
    assert MissingSteps(w) * Steps(w) == MissingSteps(w);
  }

  /** Idempotence: when every declared step has a status entry, a pass
      issues no creation call at all. */
  lemma NothingMissingNoCalls(w: Workflow, calls: seq<CreateRequest>)
    requires CreationPass(w, calls, Steps(w))
    requires forall s :: s in Steps(w) ==> HasStatus(w, s)
    ensures calls == []
  {
    assert MissingSteps(w) == {};
    CreationPassCount(w, calls);
  }

  /** A pass over a workflow with a single step and no status entry for it
      issues exactly the request for that step. */
  lemma SingleMissingStep(w: Workflow, step: string, calls: seq<CreateRequest>)
    requires CreationPass(w, calls, Steps(w))
    requires MissingSteps(w) == {step}
    ensures calls == [RequestFor(w, step)]
  {
    CreationPassCount(w, calls);
    assert calls[0].step in StepsOf(calls);
  }

  /** Missing steps of `done` whose request the platform accepts. */
  ghost function SucceededAmong(w: Workflow, rejected: set<CreateRequest>, done: set<string>): set<string>
  {
    set s | s in done && s in MissingSteps(w) && RequestFor(w, s) !in rejected
  }

  ghost function SucceededSteps(w: Workflow, rejected: set<CreateRequest>): set<string>
  {
    SucceededAmong(w, rejected, Steps(w))
  }

  /** `log` extends `log0` by exactly what a pass over the steps in `done`
      issues. */
  ghost predicate Extends(w: Workflow, log0: seq<CreateRequest>, log: seq<CreateRequest>, done: set<string>)
  {
    |log0| <= |log| && log[..|log0|] == log0 && CreationPass(w, log[|log0|..], done)
  }

  lemma ExtendsEmpty(w: Workflow, log0: seq<CreateRequest>)
    ensures Extends(w, log0, log0, {})
  {
    assert log0[..|log0|] == log0;
    assert log0[|log0|..] == [];
  }

  /** Visiting a step that already has a status entry issues nothing. */
  lemma SkipStep(w: Workflow, log0: seq<CreateRequest>, log: seq<CreateRequest>, done: set<string>, s: string)
    requires Extends(w, log0, log, done)
    requires s in Steps(w) && HasStatus(w, s)
    ensures Extends(w, log0, log, done + {s})
  {
    assert MissingSteps(w) * (done + {s}) == MissingSteps(w) * done;
  }

  /** Visiting a missing step issues its request, once. */
  lemma CallStep(w: Workflow, log0: seq<CreateRequest>, log: seq<CreateRequest>, done: set<string>, s: string)
    requires Extends(w, log0, log, done)
    requires s in Steps(w) && !HasStatus(w, s) && s !in done
    ensures Extends(w, log0, log + [RequestFor(w, s)], done + {s})
  {
    var calls := log[|log0|..];
    var log' := log + [RequestFor(w, s)];
    var calls' := log'[|log0|..];
    assert log'[..|log0|] == log[..|log0|];
    assert calls' == calls + [RequestFor(w, s)];
    forall x | x in StepsOf(calls') ensures x in StepsOf(calls) + {s} {
      var i :| 0 <= i < |calls'| && calls'[i].step == x;
      if i < |calls| { assert calls'[i] == calls[i]; }
    }
    forall x | x in StepsOf(calls) + {s} ensures x in StepsOf(calls') {
      if x == s {
        assert calls'[|calls|].step == s;
      } else {
        var i :| 0 <= i < |calls| && calls[i].step == x;
        assert calls'[i] == calls[i];
      }
    }
    assert s !in StepsOf(calls);
    assert MissingSteps(w) * (done + {s}) == MissingSteps(w) * done + {s};
    forall i, j | 0 <= i < j < |calls'| ensures calls'[i].step != calls'[j].step {
      if j == |calls| {
        assert calls'[i] == calls[i];
        assert calls[i].step in StepsOf(calls);
      } else {
        assert calls'[i] == calls[i] && calls'[j] == calls[j];
      }
    }
    forall i | 0 <= i < |calls'| ensures calls'[i].step in Steps(w) && calls'[i] == RequestFor(w, calls'[i].step) {
      if i < |calls| { assert calls'[i] == calls[i]; }
    }
  }

  /** A visited step counts as failed exactly when it is missing and its
      request is rejected. */
  lemma FailedStep(w: Workflow, rejected: set<CreateRequest>, done: set<string>, s: string)
    requires s in Steps(w) && s !in done
    ensures |FailedAmong(w, rejected, done + {s})| ==
      |FailedAmong(w, rejected, done)| + (if !HasStatus(w, s) && RequestFor(w, s) in rejected then 1 else 0)
  {
    if !HasStatus(w, s) && RequestFor(w, s) in rejected {
      assert FailedAmong(w, rejected, done + {s}) == FailedAmong(w, rejected, done) + {s};
    } else {
      assert FailedAmong(w, rejected, done + {s}) == FailedAmong(w, rejected, done);
    }
  }

  /** A visited step counts as succeeded exactly when it is missing and its
      request is accepted. */
  lemma SucceededStep(w: Workflow, rejected: set<CreateRequest>, done: set<string>, s: string)
    requires s in Steps(w) && s !in done
    ensures |SucceededAmong(w, rejected, done + {s})| ==
      |SucceededAmong(w, rejected, done)| + (if !HasStatus(w, s) && RequestFor(w, s) !in rejected then 1 else 0)
  {
    if !HasStatus(w, s) && RequestFor(w, s) !in rejected {
      assert SucceededAmong(w, rejected, done + {s}) == SucceededAmong(w, rejected, done) + {s};
    } else {
      assert SucceededAmong(w, rejected, done + {s}) == SucceededAmong(w, rejected, done);
    }
  }

  /** Some missing step has been visited. */
  ghost predicate Attempted(w: Workflow, done: set<string>)
  {
    MissingSteps(w) * done != {}
  }

  /** Visiting a missing step makes the pass attempted; visiting any other
      leaves it as it was. Nothing succeeded before the first attempt. */
  lemma AttemptedStep(w: Workflow, rejected: set<CreateRequest>, done: set<string>, s: string)
    requires s in Steps(w)
    ensures !HasStatus(w, s) ==> Attempted(w, done + {s})
    ensures HasStatus(w, s) ==> (Attempted(w, done + {s}) <==> Attempted(w, done))
    ensures !Attempted(w, done) ==> SucceededAmong(w, rejected, done) == {}
  {
    if !HasStatus(w, s) {
      assert s in MissingSteps(w) * (done + {s});
    } else {
      assert MissingSteps(w) * (done + {s}) == MissingSteps(w) * done;
    }
    assert SucceededAmong(w, rejected, done) <= MissingSteps(w) * done;
  }

  /** Accepted creations are among the missing steps. */
  lemma SucceededAreMissing(w: Workflow, rejected: set<CreateRequest>)
    ensures SucceededSteps(w, rejected) <= MissingSteps(w)
    ensures Attempted(w, Steps(w)) <==> MissingSteps(w) != {}
  {
    assert MissingSteps(w) * Steps(w) == MissingSteps(w);
  }
}

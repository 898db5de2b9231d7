/** When is a workflow finished: the predicate the workflow update handler
    consults before enqueuing. */
module Finished {
  import opened Types

  /** Some condition in `conds` has type `t` and status True. */
  predicate HasTrueCondition(conds: seq<WorkflowCondition>, t: ConditionType)
  {
    exists i :: 0 <= i < |conds| && conds[i].conditionType == t && conds[i].status == ConditionTrue
  }

  /** isWorkflowFinished as written: scans the conditions and stops at the
      first Complete/True one. A Failed/True condition does not count. */
  method IsWorkflowFinished(w: Workflow) returns (finished: bool)
    ensures finished <==> HasTrueCondition(w.status.conditions, WorkflowComplete)
  {
    var conds := w.status.conditions;
    var i := 0;
    while i < |conds|
      invariant 0 <= i <= |conds|
      invariant forall j :: 0 <= j < i ==>
        !(conds[j].conditionType == WorkflowComplete && conds[j].status == ConditionTrue)
    {
      if conds[i].conditionType == WorkflowComplete && conds[i].status == ConditionTrue {
        return true;
      }
      i := i + 1;
    }
    return false;
  }

  /** pastActiveDeadline: a stub that reports no workflow as past its
      deadline, whatever the workflow. */
  function PastActiveDeadline(w: Workflow): (past: bool)
    ensures !past
  {
    false
  }

  /** The finished predicate the tests expect: a Complete or a Failed
      condition with status True. */
  function FinishedIntended(conds: seq<WorkflowCondition>): (finished: bool)
    ensures finished <==>
      HasTrueCondition(conds, WorkflowComplete) || HasTrueCondition(conds, WorkflowFailed)
  {
    if |conds| == 0 then false
    else
      var rest := FinishedIntended(conds[1..]);
      assert forall t :: HasTrueCondition(conds, t) <==>
        (conds[0].conditionType == t && conds[0].status == ConditionTrue) || HasTrueCondition(conds[1..], t)
      by {
        forall t ensures HasTrueCondition(conds, t) ==>
          (conds[0].conditionType == t && conds[0].status == ConditionTrue) || HasTrueCondition(conds[1..], t)
        {
          if HasTrueCondition(conds, t) {
            var i :| 0 <= i < |conds| && conds[i].conditionType == t && conds[i].status == ConditionTrue;
            if i > 0 { assert conds[1..][i - 1] == conds[i]; }
          }
        }
        forall t ensures HasTrueCondition(conds[1..], t) ==> HasTrueCondition(conds, t)
        {
          if HasTrueCondition(conds[1..], t) {
            var i :| 0 <= i < |conds[1..]| && conds[1..][i].conditionType == t && conds[1..][i].status == ConditionTrue;
            assert conds[i + 1] == conds[1..][i];
          }
        }
      }
      ((conds[0].conditionType == WorkflowComplete || conds[0].conditionType == WorkflowFailed)
        && conds[0].status == ConditionTrue)
      || rest
  }

  /** The code's predicate is the stronger of the two: whatever it calls
      finished, the tests call finished too, and they differ exactly on
      workflows whose only True terminal condition is Failed. */
  lemma AsWrittenVersusIntended(conds: seq<WorkflowCondition>)
    ensures HasTrueCondition(conds, WorkflowComplete) ==> FinishedIntended(conds)
    ensures FinishedIntended(conds) && !HasTrueCondition(conds, WorkflowComplete) ==>
      HasTrueCondition(conds, WorkflowFailed)
  {
  }

  /** The test case "Failed and True": the tests expect finished, the code
      says not finished. */
  lemma FailedTrueIsNotFinished()
    ensures !HasTrueCondition([WorkflowCondition(WorkflowFailed, ConditionTrue)], WorkflowComplete)
    ensures FinishedIntended([WorkflowCondition(WorkflowFailed, ConditionTrue)])
  {
  }

  /** The test cases "Complete and True" and "Complete and False", and the
      empty condition list, on which code and tests agree. */
  lemma FinishedTestCases()
    ensures HasTrueCondition([WorkflowCondition(WorkflowComplete, ConditionTrue)], WorkflowComplete)
    ensures !HasTrueCondition([WorkflowCondition(WorkflowComplete, ConditionFalse)], WorkflowComplete)
    ensures !FinishedIntended([WorkflowCondition(WorkflowComplete, ConditionFalse)])
    ensures !HasTrueCondition([], WorkflowComplete) && !FinishedIntended([])
  {
    var c := [WorkflowCondition(WorkflowComplete, ConditionTrue)];
    assert c[0].conditionType == WorkflowComplete && c[0].status == ConditionTrue;
  }
}

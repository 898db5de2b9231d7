/** Resolving the workflow that owns a job. The workflow store's
    label-selector lookup is abstract: it reports an error or a sequence of
    matching workflows, in whatever order the store lists them. */
module Ownership {
  import opened Types

  datatype OwnerLookup = LookupFailed(msg: string) | Found(workflows: seq<Workflow>)

  /** What getJobWorkflow hands back. `OutOfRange` is the run-time panic of
      indexing the first element of an empty match list. */
  datatype Resolution = NoOwner | OwnedBy(owner: Workflow) | OutOfRange

  /** getJobWorkflow as written: no owner on a lookup error, otherwise the
      first match, without checking that there is one. */
  function GetJobWorkflow(found: OwnerLookup): (r: Resolution)
    ensures r.NoOwner? <==> found.LookupFailed?
    ensures r.OutOfRange? <==> found.Found? && |found.workflows| == 0
    ensures r.OwnedBy? ==> found.Found? && r.owner == found.workflows[0]
  {
    match found
    case LookupFailed(_) => NoOwner
    case Found(ws) => if |ws| == 0 then OutOfRange else OwnedBy(ws[0])
  }

  /** The first match depends on the order of the lookup's result: the same
      two candidates listed in the two orders resolve to different owners. */
  lemma FirstMatchDependsOnOrder(a: Workflow, b: Workflow)
    requires a != b
    ensures GetJobWorkflow(Found([a, b])) != GetJobWorkflow(Found([b, a]))
  {
  }

  /** An empty match list makes getJobWorkflow panic. */
  lemma EmptyMatchListPanics()
    ensures GetJobWorkflow(Found([])) == OutOfRange
  {
  }

  /** Lexicographic order on strings. */
  predicate StrLess(a: string, b: string)
    decreases |a|
  {
    if |a| == 0 then |b| > 0
    else |b| > 0 && (a[0] < b[0] || (a[0] == b[0] && StrLess(a[1..], b[1..])))
  }

  lemma {:induction false} StrLessIrreflexive(a: string)
    ensures !StrLess(a, a)
  {
    if |a| > 0 {
      StrLessIrreflexive(a[1..]);
    }
  }

  lemma {:induction false} StrLessTransitive(a: string, b: string, c: string)
    requires StrLess(a, b) && StrLess(b, c)
    ensures StrLess(a, c)
    decreases |a|
  {
    if |a| > 0 && a[0] == b[0] && b[0] == c[0] {
      StrLessTransitive(a[1..], b[1..], c[1..]);
    }
  }

  lemma {:induction false} StrLessTotal(a: string, b: string)
    requires a != b
    ensures StrLess(a, b) || StrLess(b, a)
    decreases |a|
  {
    if |a| > 0 && |b| > 0 && a[0] == b[0] {
      assert a == [a[0]] + a[1..] && b == [b[0]] + b[1..];
      StrLessTotal(a[1..], b[1..]);
    }
  }

  /** No candidate's key is strictly smaller than m's. */
  predicate IsMinimal(ws: seq<Workflow>, m: Workflow)
  {
    forall w :: w in ws ==> !StrLess(WorkflowKey(w), WorkflowKey(m))
  }

  /** The candidate with the lexicographically smallest key. */
  function MinByKey(ws: seq<Workflow>): (m: Workflow)
    requires |ws| > 0
    ensures m in ws && IsMinimal(ws, m)
  {
    if |ws| == 1 then
      StrLessIrreflexive(WorkflowKey(ws[0]));
      ws[0]
    else
      var rest := MinByKey(ws[1..]);
      assert forall w :: w in ws ==> w == ws[0] || w in ws[1..];
      if StrLess(WorkflowKey(ws[0]), WorkflowKey(rest)) then
        StrLessIrreflexive(WorkflowKey(ws[0]));
        forall w | w in ws[1..] ensures !StrLess(WorkflowKey(w), WorkflowKey(ws[0])) {
          if StrLess(WorkflowKey(w), WorkflowKey(ws[0])) {
            StrLessTransitive(WorkflowKey(w), WorkflowKey(ws[0]), WorkflowKey(rest));
          }
        }
        ws[0]
      else
        rest
  }

  /** Owner resolution with a deterministic tie-break: no owner on a lookup
      error or an empty match list, otherwise the match with the smallest key. */
  function SelectOwner(found: OwnerLookup): (r: Option<Workflow>)
    ensures r.None? <==> found.LookupFailed? || |found.workflows| == 0
    ensures r.Some? ==> r.value in found.workflows && IsMinimal(found.workflows, r.value)
  {
    match found
    case LookupFailed(_) => None
    case Found(ws) => if |ws| == 0 then None else Some(MinByKey(ws))
  }

  /** Keys tell the candidates apart (the store holds one object per key). */
  predicate KeysDistinct(ws: seq<Workflow>)
  {
    forall v, w :: v in ws && w in ws && WorkflowKey(v) == WorkflowKey(w) ==> v == w
  }

  /** The tie-break is reproducible: any two listings of the same candidates
      resolve to the same owner. */
  lemma SelectOwnerDeterministic(ws1: seq<Workflow>, ws2: seq<Workflow>)
    requires forall w :: w in ws1 <==> w in ws2
    requires KeysDistinct(ws1)
    ensures SelectOwner(Found(ws1)) == SelectOwner(Found(ws2))
  {
    if |ws1| > 0 {
      assert ws1[0] in ws2;
      var m1, m2 := MinByKey(ws1), MinByKey(ws2);
      if WorkflowKey(m1) != WorkflowKey(m2) {
        StrLessTotal(WorkflowKey(m1), WorkflowKey(m2));
      }
    }
  }

  /** With exactly one match both resolutions agree; with several, the
      code's choice is a candidate but need not be the minimal one. */
  lemma ResolutionsOnOneMatch(found: OwnerLookup)
    requires found.Found? && |found.workflows| == 1
    ensures GetJobWorkflow(found) == OwnedBy(found.workflows[0])
    ensures SelectOwner(found) == Some(found.workflows[0])
  {
  }
}

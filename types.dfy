/** The objects the workflow controller reads: workflows, jobs, and the
    untyped payloads the watch feeds hand to the event handlers. */
module Types {

  datatype Option<T> = None | Some(value: T)

  datatype Result<T> = Ok(value: T) | Err(msg: string)

  type Labels = map<string, string>

  /** The two condition types a workflow status can carry. */
  datatype ConditionType = WorkflowComplete | WorkflowFailed

  /** The platform's tri-state condition status. */
  datatype ConditionStatus = ConditionTrue | ConditionFalse | ConditionUnknown

  datatype WorkflowCondition = WorkflowCondition(conditionType: ConditionType, status: ConditionStatus)

  /** The part of a job template the controller looks at; the pod template
      itself is passed through to job creation untouched. */
  datatype JobTemplate = JobTemplate(labels: Labels, podTemplate: string)

  datatype WorkflowStep = WorkflowStep(jobTemplate: JobTemplate)

  /** Steps are an unordered map from step name to step. */
  datatype WorkflowSpec = WorkflowSpec(steps: map<string, WorkflowStep>)

  datatype ObjectReference = ObjectReference(namespace: string, name: string)

  /** `statuses` is None for a nil map, which is not the same as an empty one. */
  datatype WorkflowStatus = WorkflowStatus(
    statuses: Option<map<string, ObjectReference>>,
    conditions: seq<WorkflowCondition>)

  /** `spec` is None when the workflow carries no step specification;
      manageWorkflow compares it with nil, so it is optional here. */
  datatype Workflow = Workflow(
    namespace: string,
    name: string,
    spec: Option<WorkflowSpec>,
    status: WorkflowStatus)

  /** `resourceVersion` stands for everything about a job other than its
      identity and labels (two versions that differ only there are not deep-equal). */
  datatype Job = Job(namespace: string, name: string, labels: Labels, resourceVersion: string)

  /** A payload delivered to an event handler. The watch machinery hands a
      typed object, or, for a delete whose final state was missed, a
      tombstone carrying only the key; anything without object metadata is
      `Unidentifiable`. */
  datatype Object =
    | WorkflowObject(workflow: Workflow)
    | JobObject(job: Job)
    | Tombstone(key: string)
    | Unidentifiable

  /** The "namespace/name" key, or the bare name for an empty namespace. */
  function MetaKey(namespace: string, name: string): string
  {
    if |namespace| > 0 then namespace + "/" + name else name
  }

  function WorkflowKey(w: Workflow): string
  {
    MetaKey(w.namespace, w.name)
  }

  function JobKey(j: Job): string
  {
    MetaKey(j.namespace, j.name)
  }

  /** The controller's key function: typed objects are keyed by namespace and
      name, a tombstone by the key it carries, and only an object without
      metadata has no key. */
  function KeyFunc(obj: Object): (r: Result<string>)
    ensures r.Err? <==> obj.Unidentifiable?
    ensures obj.WorkflowObject? ==> r == Ok(WorkflowKey(obj.workflow))
    ensures obj.JobObject? ==> r == Ok(JobKey(obj.job))
    ensures obj.Tombstone? ==> r == Ok(obj.key)
  {
    match obj
    case WorkflowObject(w) => Ok(WorkflowKey(w))
    case JobObject(j) => Ok(JobKey(j))
    case Tombstone(k) => Ok(k)
    case Unidentifiable => Err("object has no meta")
  }

  /** Object names and namespaces never contain a slash. */
  predicate NoSlash(s: string)
  {
    forall i :: 0 <= i < |s| ==> s[i] != '/'
  }

  /** Where the separator of a key sits: right after a non-empty namespace,
      and nowhere in the key of an object without a namespace. */
  lemma SlashPosition(ns: string, n: string)
    requires NoSlash(ns) && NoSlash(n)
    ensures |ns| > 0 ==> |MetaKey(ns, n)| > |ns| && MetaKey(ns, n)[|ns|] == '/'
    ensures forall i :: 0 <= i < |ns| && i < |MetaKey(ns, n)| ==> MetaKey(ns, n)[i] != '/'
    ensures |ns| == 0 ==> NoSlash(MetaKey(ns, n))
  {
  }

  /** Keys identify objects: two (namespace, name) pairs without slashes
      that produce the same key are the same pair. */
  lemma MetaKeyInjective(ns1: string, n1: string, ns2: string, n2: string)
    requires NoSlash(ns1) && NoSlash(n1) && NoSlash(ns2) && NoSlash(n2)
    requires MetaKey(ns1, n1) == MetaKey(ns2, n2)
    ensures ns1 == ns2 && n1 == n2
  {
    SlashPosition(ns1, n1);
    SlashPosition(ns2, n2);
    var k := MetaKey(ns1, n1);
    assert |ns1| == |ns2|;
    if |ns1| > 0 {
      assert ns1 == k[..|ns1|] == ns2;
      assert n1 == k[|ns1| + 1..] == n2;
    }
  }
}

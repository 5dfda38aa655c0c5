/**
 One undisturbed deploy pass (pkg/controller/helper.go:24-102) as a function of the
 stored Jobs, and one undisturbed reconcile as a relation.
 */
module Deploy {
  import opened Kube
  import opened JobFlows
  import opened Render
  import opened Machine
  import opened FlowStatus

  /** What the dependencies of a flow say about it. */
  datatype Verdict = Satisfied | Blocked | Broken(job: Key)

  /** The dependency loop: a missing Job stops the scan, a failed one ends the pass, an unfinished one is remembered. */
  function Scan(jf: JobFlowValue, dependencies: seq<string>, met: bool, jobs: Jobs): Verdict {
    if dependencies == [] then (if met then Satisfied else Blocked)
    else
      var k := JobKey(jf, dependencies[0]);
      if k !in jobs then Blocked
      else if HasFailed(jobs, k) then Broken(k)
      else Scan(jf, dependencies[1..], met && HasSucceeded(jobs, k), jobs)
  }

  function BaseOf(jf: JobFlowValue, flow: FlowValue, templates: map<Key, SpecValue>): Option<SpecValue> {
    if flow.jobTemplateRef == "" then Some(flow.jobTemplate)
    else
      var k := Key(jf.namespace, flow.jobTemplateRef);
      if k in templates then Some(templates[k]) else None
  }

  datatype Pass = Pass(created: Jobs, reached: nat, outcome: Outcome)

  /** The pass from flow i on; reached is the flow it stopped at, or the number of flows. */
  function DeployFrom(jf: JobFlowValue, templates: map<Key, SpecValue>, i: nat, jobs: Jobs): (r: Pass)
    requires i <= |jf.flows|
    decreases |jf.flows| - i
  {
    if i == |jf.flows| then Pass(map[], i, Deployed)
    else
      var flow := jf.flows[i];
      var k := JobKey(jf, flow.name);
      var base := BaseOf(jf, flow, templates);
      if base.None? then Pass(map[], i, BadRequest(TemplateMissing(Key(jf.namespace, flow.jobTemplateRef))))
      else if k in jobs then DeployFrom(jf, templates, i + 1, jobs)
      else
        match Scan(jf, flow.dependencies, true, jobs)
        case Broken(d) => Pass(map[], i, BadRequest(DependencyFailed(d)))
        case Blocked => DeployFrom(jf, templates, i + 1, jobs)
        case Satisfied =>
          var job := RenderJob(jf, flow, base.value);
          var rest := DeployFrom(jf, templates, i + 1, jobs[k := job]);
          rest.(created := map[k := job] + rest.created)
  }

  function DeployPass(jf: JobFlowValue, templates: map<Key, SpecValue>, jobs: Jobs): Pass {
    DeployFrom(jf, templates, 0, jobs)
  }

  /** Where the pass ends before its last flow. */
  predicate StopsAt(jf: JobFlowValue, templates: map<Key, SpecValue>, i: nat, now: Jobs, outcome: Outcome)
    requires i < |jf.flows|
  {
    var flow := jf.flows[i];
    if BaseOf(jf, flow, templates).None? then
      outcome == BadRequest(TemplateMissing(Key(jf.namespace, flow.jobTemplateRef)))
    else
      && JobKey(jf, flow.name) !in now
      && var verdict := Scan(jf, flow.dependencies, true, now);
         verdict.Broken? && outcome == BadRequest(DependencyFailed(verdict.job))
  }

  /** The persisted JobFlow and the Jobs before and after one reconcile (jobflow_controller.go:38-85). */
  ghost predicate Reconciled(jf: JobFlowValue, templates: map<Key, SpecValue>, jobs: Jobs, jf': JobFlowValue, jobs': Jobs) {
    if jf.status.state == FAILED then jf' == jf && jobs' == jobs
    else
      && jobs' == jobs + DeployPass(jf, templates, jobs).created
      && exists items :: IsListing(items, jobs') && jf' == jf.(status := StatusOf(jf, items))
  }
}

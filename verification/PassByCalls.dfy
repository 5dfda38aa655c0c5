/**
 A deploy pass taken call by call, every answer up to date: what is known when the pass
 is at a given call, and that a pass which runs to its end leaves no flow startable.
 */
module PassByCalls {
  import opened Kube
  import opened JobFlows
  import opened Render
  import opened Machine
  import opened Deploy
  import opened Passes

  /** An up-to-date answer and the Jobs after it.  A template that is found is the stored one; a Create that
      reports a fault may have taken effect. */
  ghost predicate Fresh(templates: map<Key, SpecValue>, jobs: Jobs, req: Request, resp: Response, jobs': Jobs) {
    match req
    case GetTemplate(k) => jobs' == jobs && (resp.TemplateFound? ==> k in templates && resp.spec == templates[k])
    case GetJob(k) =>
      && jobs' == jobs
      && (resp.JobFound? ==> k in jobs && resp.job == jobs[k])
      && (resp.NotFound? ==> k !in jobs)
    case CreateJob(job) =>
      && (resp.Done? ==> job.key !in jobs && jobs' == jobs[job.key := job])
      && (resp.AlreadyExists? ==> job.key in jobs && jobs' == jobs)
      && (resp.Fault? ==> jobs' == jobs || (job.key !in jobs && jobs' == jobs[job.key := job]))
    case _ => jobs' == jobs
  }

  /** The flows the pass has left behind have a Job or something to wait for. */
  ghost predicate NoneReady(jf: JobFlowValue, jobs: Jobs, i: nat)
    requires i <= |jf.flows|
  {
    forall m :: 0 <= m < i ==> !Ready(jf, m, jobs)
  }

  /** The dependencies scanned so far. */
  ghost predicate Scanned(jf: JobFlowValue, jobs: Jobs, dependencies: seq<string>, j: nat, met: bool)
    requires j <= |dependencies|
  {
    && (forall m :: 0 <= m < j ==> JobKey(jf, dependencies[m]) in jobs && !HasFailed(jobs, JobKey(jf, dependencies[m])))
    && (met <==> forall m :: 0 <= m < j ==> HasSucceeded(jobs, JobKey(jf, dependencies[m])))
  }

  /** What a pass knows at each of its calls, and what its end says about the flows. */
  ghost predicate AtPc(jf: JobFlowValue, templates: map<Key, SpecValue>, jobs: Jobs, pc: Pc)
    requires ValidPc(jf, pc)
  {
    match pc
    case FetchTemplate(i) => NoneReady(jf, jobs, i)
    case Lookup(i, base) => NoneReady(jf, jobs, i) && BaseOf(jf, jf.flows[i], templates) == Some(base)
    case CheckDependency(i, base, j, met) =>
      && NoneReady(jf, jobs, i) && BaseOf(jf, jf.flows[i], templates) == Some(base)
      && JobKey(jf, jf.flows[i].name) !in jobs && Scanned(jf, jobs, jf.flows[i].dependencies, j, met)
    case Create(i, base) =>
      NoneReady(jf, jobs, i) && BaseOf(jf, jf.flows[i], templates) == Some(base) && Ready(jf, i, jobs)
    case Returned(outcome) =>
      match outcome
      case Deployed => !SomeStartable(jf, templates, jobs)
      case BadRequest(DependencyFailed(_)) => !SomeStartable(jf, templates, jobs)
      case BadRequest(TemplateMissing(k)) => k !in templates ==> !SomeStartable(jf, templates, jobs)
      case _ => true
  }

  lemma AtLoopHead(jf: JobFlowValue, templates: map<Key, SpecValue>, jobs: Jobs, i: nat)
    requires i <= |jf.flows| && NoneReady(jf, jobs, i)
    ensures AtPc(jf, templates, jobs, Enter(jf, i))
  {
    hide Ready, Halts;
  }

  lemma NextFlow(jf: JobFlowValue, templates: map<Key, SpecValue>, jobs: Jobs, i: nat)
    requires i < |jf.flows| && NoneReady(jf, jobs, i) && !Ready(jf, i, jobs)
    ensures AtPc(jf, templates, jobs, Enter(jf, i + 1))
  {
    hide Ready;
    AtLoopHead(jf, templates, jobs, i + 1);
  }

  lemma HaltedHere(jf: JobFlowValue, templates: map<Key, SpecValue>, jobs: Jobs, i: nat)
    requires i < |jf.flows| && NoneReady(jf, jobs, i) && Halts(jf, templates, jobs, i)
    ensures !SomeStartable(jf, templates, jobs)
  {
    hide Breaks;
    if n :| Startable(jf, templates, jobs, n) {
      assert n == i;
      if j :| Breaks(jf, jf.flows[i].dependencies, jobs, j) {
        BreaksUnmet(jf, jf.flows[i].dependencies, jobs, j);
      }
    }
  }

  lemma BreaksUnmet(jf: JobFlowValue, dependencies: seq<string>, jobs: Jobs, j: int)
    requires Breaks(jf, dependencies, jobs, j)
    ensures !Met(jf, dependencies, jobs)
  {
    assert dependencies[j] in dependencies;
  }

  /** Creating flow i's Job readies nobody. */
  lemma CreatedReadiesNone(jf: JobFlowValue, jobs: Jobs, i: nat, base: SpecValue)
    requires DistinctNames(jf) && i < |jf.flows| && NoneReady(jf, jobs, i) && JobKey(jf, jf.flows[i].name) !in jobs
    ensures NoneReady(jf, jobs[JobKey(jf, jf.flows[i].name) := RenderJob(jf, jf.flows[i], base)], i + 1)
  {
    var k, job := JobKey(jf, jf.flows[i].name), RenderJob(jf, jf.flows[i], base);
    var after := jobs[k := job];
    assert job.status == NO_STATUS;
    hide RenderJob, Met;
    forall m | 0 <= m <= i
      ensures !Ready(jf, m, after)
    {
      if JobKey(jf, jf.flows[m].name) != k {
        CreatedIsNeutral(jf, m, jobs, k, job);
      }
    }
  }

  /** One more dependency that exists and has not failed. */
  lemma ScanOn(jf: JobFlowValue, jobs: Jobs, dependencies: seq<string>, j: nat, met: bool)
    requires j < |dependencies| && Scanned(jf, jobs, dependencies, j, met)
    requires JobKey(jf, dependencies[j]) in jobs && !HasFailed(jobs, JobKey(jf, dependencies[j]))
    ensures Scanned(jf, jobs, dependencies, j + 1, met && HasSucceeded(jobs, JobKey(jf, dependencies[j])))
  {
  }

  lemma ScannedAll(jf: JobFlowValue, jobs: Jobs, dependencies: seq<string>, met: bool)
    requires Scanned(jf, jobs, dependencies, |dependencies|, met)
    ensures met <==> Met(jf, dependencies, jobs)
  {
    hide HasSucceeded, HasFailed;
    if !met {
      var m :| 0 <= m < |dependencies| && !HasSucceeded(jobs, JobKey(jf, dependencies[m]));
      assert dependencies[m] in dependencies;
    }
  }

  lemma LookupNext(jf: JobFlowValue, templates: map<Key, SpecValue>, jobs: Jobs, pc: Pc, resp: Response)
    requires ValidPc(jf, pc) && pc.Lookup? && AtPc(jf, templates, jobs, pc) && Fits(RequestOf(jf, pc), resp)
    requires Fresh(templates, jobs, RequestOf(jf, pc), resp, jobs)
    ensures AtPc(jf, templates, jobs, Next(jf, pc, resp))
  {
    if resp.JobFound? {
      NextFlow(jf, templates, jobs, pc.flow);
    }
  }

  lemma CheckNext(jf: JobFlowValue, templates: map<Key, SpecValue>, jobs: Jobs, pc: Pc, resp: Response)
    requires ValidPc(jf, pc) && pc.CheckDependency? && AtPc(jf, templates, jobs, pc) && Fits(RequestOf(jf, pc), resp)
    requires Fresh(templates, jobs, RequestOf(jf, pc), resp, jobs)
    ensures AtPc(jf, templates, jobs, Next(jf, pc, resp))
  {
    var i, j, dependencies := pc.flow, pc.dependency, jf.flows[pc.flow].dependencies;
    var d := JobKey(jf, dependencies[j]);
    assert dependencies[j] in dependencies;
    if resp.NotFound? {
      assert !Ready(jf, i, jobs);
      NextFlow(jf, templates, jobs, i);
    } else if resp.JobFound? && HasFailed(jobs, d) {
      assert Breaks(jf, dependencies, jobs, j);
      assert Halts(jf, templates, jobs, i);
      HaltedHere(jf, templates, jobs, i);
    } else if resp.JobFound? {
      ScanOn(jf, jobs, dependencies, j, pc.met);
      if j + 1 == |dependencies| {
        ScannedAll(jf, jobs, dependencies, pc.met && HasSucceeded(jobs, d));
        if !(pc.met && HasSucceeded(jobs, d)) {
          NextFlow(jf, templates, jobs, i);
        }
      }
    }
  }

  lemma CreateNext(jf: JobFlowValue, templates: map<Key, SpecValue>, jobs: Jobs, pc: Pc, resp: Response, jobs': Jobs)
    requires DistinctNames(jf) && ValidPc(jf, pc) && pc.Create? && AtPc(jf, templates, jobs, pc)
    requires Fits(RequestOf(jf, pc), resp) && Fresh(templates, jobs, RequestOf(jf, pc), resp, jobs')
    ensures AtPc(jf, templates, jobs', Next(jf, pc, resp))
  {
    if resp.Done? {
      CreatedReadiesNone(jf, jobs, pc.flow, pc.base);
      AtLoopHead(jf, templates, jobs', pc.flow + 1);
    }
  }

  /** Every up-to-date answer takes the pass to where the next state says it is. */
  lemma AtPcNext(jf: JobFlowValue, templates: map<Key, SpecValue>, jobs: Jobs, pc: Pc, resp: Response, jobs': Jobs)
    requires DistinctNames(jf) && ValidPc(jf, pc) && !pc.Returned? && AtPc(jf, templates, jobs, pc)
    requires Fits(RequestOf(jf, pc), resp) && Fresh(templates, jobs, RequestOf(jf, pc), resp, jobs')
    ensures AtPc(jf, templates, jobs', Next(jf, pc, resp))
  {
    hide RenderJob, Ready;
    match pc
    case FetchTemplate(i) =>
      if resp.NotFound? && RequestOf(jf, pc).template !in templates {
        HaltedHere(jf, templates, jobs, i);
      }
    case Lookup(_, _) => LookupNext(jf, templates, jobs, pc, resp);
    case CheckDependency(_, _, _, _) => CheckNext(jf, templates, jobs, pc, resp);
    case Create(_, _) => CreateNext(jf, templates, jobs, pc, resp, jobs');
  }

  /** The flow the pass is at; 0 when it has returned. */
  function FlowAt(jf: JobFlowValue, pc: Pc): nat {
    match pc
    case FetchTemplate(i) => i
    case Lookup(i, _) => i
    case CheckDependency(i, _, _, _) => i
    case Create(i, _) => i
    case Returned(_) => 0
  }
}

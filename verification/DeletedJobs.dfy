/**
 Dependency safety when Jobs may be deleted: a dependency's Job can be gone by the time a
 flow starts, but it has succeeded before.
 */
module DeletedJobs {
  import opened Kube
  import opened JobFlows
  import opened Chains
  import opened Render
  import opened Machine
  import opened Reconciling
  import opened Runs
  import opened RunSafety

  /** Some entry before b shows that the Job has succeeded. */
  ghost predicate SucceededBefore(history: seq<Jobs>, b: int, k: Key)
    requires b <= |history|
  {
    exists g :: 0 <= g < b && HasSucceeded(history[g], k)
  }

  /** Whenever flow n has a Job, each of its dependencies had succeeded before. */
  ghost predicate OnceMet(spec: JobFlowValue, history: seq<Jobs>, b: int, n: int)
    requires b <= |history| && 0 <= n < |spec.flows|
  {
    forall d :: d in spec.flows[n].dependencies ==> SucceededBefore(history, b, JobKey(spec, d))
  }

  ghost predicate AllOnceMet(spec: JobFlowValue, history: seq<Jobs>) {
    forall b, n :: 0 <= b < |history| && 0 <= n < |spec.flows| && JobKey(spec, spec.flows[n].name) in history[b] ==>
      OnceMet(spec, history, b, n)
  }

  /** Dependencies counted as met have succeeded at some time. */
  ghost predicate CountedOnce(spec: JobFlowValue, history: seq<Jobs>, pc: Pc)
    requires ValidPc(spec, pc)
  {
    match pc
    case CheckDependency(n, _, j, met) =>
      met ==> forall m :: 0 <= m < j ==> SucceededBefore(history, |history|, JobKey(spec, spec.flows[n].dependencies[m]))
    case Create(n, _) => OnceMet(spec, history, |history|, n)
    case _ => true
  }

  ghost predicate OnceInv(spec: JobFlowValue, w: World) {
    && ReadInv(spec, w) && AllOnceMet(spec, w.jobs)
    && (w.controller.Busy? && w.controller.pc.Deploying? ==> CountedOnce(spec, w.jobs, w.controller.pc.pc))
  }

  lemma OnceMetLater(spec: JobFlowValue, history: seq<Jobs>, b: int, n: int, history': seq<Jobs>, b': int)
    requires 0 <= n < |spec.flows| && 0 <= b <= |history| && OnceMet(spec, history, b, n)
    requires history <= history' && b <= b' <= |history'|
    ensures OnceMet(spec, history', b', n)
  {
    hide HasSucceeded;
    forall d | d in spec.flows[n].dependencies
      ensures SucceededBefore(history', b', JobKey(spec, d))
    {
      var g :| 0 <= g < b && HasSucceeded(history[g], JobKey(spec, d));
      assert history'[g] == history[g];
    }
  }

  lemma CountedOnceLater(spec: JobFlowValue, history: seq<Jobs>, history': seq<Jobs>, pc: Pc)
    requires ValidPc(spec, pc) && CountedOnce(spec, history, pc) && history <= history'
    ensures CountedOnce(spec, history', pc)
  {
    hide HasSucceeded;
    if pc.Create? {
      OnceMetLater(spec, history, |history|, pc.flow, history', |history'|);
    } else if pc.CheckDependency? && pc.met {
      forall m | 0 <= m < pc.dependency
        ensures SucceededBefore(history', |history'|, JobKey(spec, spec.flows[pc.flow].dependencies[m]))
      {
        var g :| 0 <= g < |history| && HasSucceeded(history[g], JobKey(spec, spec.flows[pc.flow].dependencies[m]));
        assert history'[g] == history[g];
      }
    }
  }

  lemma CountedOnceNext(spec: JobFlowValue, jf: JobFlowValue, history: seq<Jobs>, pc: Pc, resp: Response)
    requires SameSpec(spec, jf) && ValidPc(jf, pc) && !pc.Returned? && Fits(RequestOf(jf, pc), resp)
    requires CountedOnce(spec, history, pc)
    requires pc.CheckDependency? && resp.JobFound? && resp.job.status.succeeded == 1 ==>
               SucceededBefore(history, |history|, JobKey(spec, spec.flows[pc.flow].dependencies[pc.dependency]))
    ensures CountedOnce(spec, history, Next(jf, pc, resp))
  {
    hide RenderJob, SucceededBefore;
  }

  lemma OnceCall(spec: JobFlowValue, w: World, resp: Response, w': World)
    requires OnceInv(spec, w) && Called(spec, w, resp, w') && ReadInv(spec, w') && w.jobs <= w'.jobs
    ensures w'.controller.Busy? && w'.controller.pc.Deploying? ==> CountedOnce(spec, w'.jobs, w'.controller.pc.pc)
  {
    hide RenderJob, AllOnceMet, SucceededBefore;
    var rpc := w.controller.pc;
    if rpc.Deploying? {
      var jf, pc := rpc.jf, rpc.pc;
      if pc.CheckDependency? && resp.JobFound? && resp.job.status.succeeded == 1 {
        SeenSucceeded(spec, w, JobKey(spec, spec.flows[pc.flow].dependencies[pc.dependency]));
      }
      CountedOnceNext(spec, jf, w.jobs, pc, resp);
      CountedOnceLater(spec, w.jobs, w'.jobs, Next(jf, pc, resp));
    }
  }

  lemma SeenSucceeded(spec: JobFlowValue, w: World, k: Key)
    requires Bounds(w)
    ensures HasSucceeded(Cache(w), k) ==> SucceededBefore(w.jobs, |w.jobs|, k)
  {
  }

  /** The history grows by what others do, or by a Create that was asked for. */
  lemma OnceJobs(spec: JobFlowValue, deletions: bool, w: World, w': World)
    requires DistinctNames(spec) && OnceInv(spec, w) && Bounds(w')
    requires w'.jobs == w.jobs || Created(spec, w, w') || Environment(spec, deletions, w, w')
    ensures AllOnceMet(spec, w'.jobs)
  {
    hide RenderJob, OnceMet, CountedOnce;
    forall b, n | 0 <= b < |w'.jobs| && 0 <= n < |spec.flows| && JobKey(spec, spec.flows[n].name) in w'.jobs[b]
      ensures OnceMet(spec, w'.jobs, b, n)
    {
      if b < |w.jobs| {
        assert OnceMet(spec, w.jobs, b, n);
        OnceMetLater(spec, w.jobs, b, n, w'.jobs, b);
      } else {
        OnceMetNow(spec, deletions, w, w', n);
        OnceMetLater(spec, w.jobs, |w.jobs|, n, w'.jobs, b);
      }
    }
  }

  lemma OnceMetNow(spec: JobFlowValue, deletions: bool, w: World, w': World, n: int)
    requires DistinctNames(spec) && OnceInv(spec, w) && Bounds(w') && |w.jobs| < |w'.jobs| && 0 <= n < |spec.flows|
    requires Created(spec, w, w') || Environment(spec, deletions, w, w')
    requires JobKey(spec, spec.flows[n].name) in Now(w')
    ensures OnceMet(spec, w.jobs, |w.jobs|, n)
  {
    var k := JobKey(spec, spec.flows[n].name);
    FlowMentioned(spec, n);
    hide RenderJob, OnceMet, MentionedKey;
    if k in Now(w) {
      assert OnceMet(spec, w.jobs, |w.jobs| - 1, n);
      OnceMetLater(spec, w.jobs, |w.jobs| - 1, n, w.jobs, |w.jobs|);
    } else {
      var m := w.controller.pc.pc.flow;
      JobKeyInjective(spec, spec.flows[n].name, spec.flows[m].name);
      assert m == n;
    }
  }

  lemma OnceInvStep(spec: JobFlowValue, deletions: bool, w: World, w': World)
    requires DistinctNames(spec) && OnceInv(spec, w) && Step(spec, deletions, w, w')
    ensures OnceInv(spec, w')
  {
    StepGrows(spec, deletions, w, w');
    ReadInvStep(spec, deletions, w, w');
    JobsGrow(spec, deletions, w, w');
    OnceJobs(spec, deletions, w, w');
    hide AllOnceMet, CountedOnce, Created, Served;
    if resp :| Called(spec, w, resp, w') {
      OnceCall(spec, w, resp, w');
    } else if w'.controller.Busy? && w'.controller.pc.Deploying? {
      CountedOnceLater(spec, w.jobs, w'.jobs, w'.controller.pc.pc);
    }
  }

  lemma OnceAtStart(spec: JobFlowValue, w: World)
    requires Init(spec, w)
    ensures OnceInv(spec, w)
  {
    forall n | 0 <= n < |spec.flows|
      ensures JobKey(spec, spec.flows[n].name) !in w.jobs[0]
    {
      FlowMentioned(spec, n);
    }
  }

  lemma {:induction false} OnceAlways(spec: JobFlowValue, deletions: bool, ws: seq<World>, i: nat)
    requires DistinctNames(spec) && Run(spec, deletions, ws) && i < |ws|
    ensures OnceInv(spec, ws[i])
  {
    hide OnceInv, Step, Init;
    if i > 0 {
      OnceAlways(spec, deletions, ws, i - 1);
      assert Step(spec, deletions, ws[i - 1], ws[i - 1 + 1]);
      OnceInvStep(spec, deletions, ws[i - 1], ws[i]);
    } else {
      OnceAtStart(spec, ws[0]);
    }
  }

  lemma DependencyOnce(spec: JobFlowValue, history: seq<Jobs>, b: nat, x: string, y: string)
    requires AllOnceMet(spec, history) && b < |history| && DependsOn(spec, x, y) && JobKey(spec, x) in history[b]
    ensures SucceededBefore(history, b, JobKey(spec, y))
  {
    hide SucceededBefore;
    var n :| 0 <= n < |spec.flows| && spec.flows[n].name == x && y in spec.flows[n].dependencies;
    assert OnceMet(spec, history, b, n);
  }

  lemma {:induction false} ChainOnce(spec: JobFlowValue, history: seq<Jobs>, b: nat, p: seq<string>)
    requires AllOnceMet(spec, history) && b < |history| && Chain(spec, p) && |p| > 1 && JobKey(spec, p[0]) in history[b]
    ensures SucceededBefore(history, b, JobKey(spec, p[|p| - 1]))
    decreases |p|
  {
    ChainTail(spec, p);
    DependencyOnce(spec, history, b, p[0], p[1]);
    if |p| > 2 {
      var g :| 0 <= g < b && HasSucceeded(history[g], JobKey(spec, p[1]));
      ChainOnce(spec, history, g, p[1..]);
    }
  }

  /** In every run, with stale reads and with Jobs being deleted: whenever a flow has a Job, each of its transitive
      dependencies had a Job that succeeded at an earlier entry of the history. */
  lemma DependenciesSucceededOnce(spec: JobFlowValue, deletions: bool, ws: seq<World>, i: nat, b: nat, p: seq<string>)
    requires DistinctNames(spec) && Run(spec, deletions, ws) && i < |ws| && b < |ws[i].jobs|
    requires Chain(spec, p) && |p| > 1 && JobKey(spec, p[0]) in ws[i].jobs[b]
    ensures exists g :: 0 <= g < b && HasSucceeded(ws[i].jobs[g], JobKey(spec, p[|p| - 1]))
  {
    OnceAlways(spec, deletions, ws, i);
    hide Run, HasSucceeded;
    ChainOnce(spec, ws[i].jobs, b, p);
  }
}

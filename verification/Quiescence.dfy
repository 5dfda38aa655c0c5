/**
 When nothing is left to be done: an acyclic JobFlow that nobody is going to look at, and
 whose existing Jobs have all succeeded, has all its Jobs and says so.
 */
module Quiescence {
  import opened Kube
  import opened JobFlows
  import opened FlowStatus
  import opened Deploy
  import opened Passes
  import opened StatusMeaning
  import opened Reconciling
  import opened Progress
  import opened ClusterRuns
  import opened Wakeups

  /** Every Job of the JobFlow that exists has succeeded. */
  ghost predicate ExistingSucceeded(jf: JobFlowValue, jobs: Jobs) {
    forall n :: 0 <= n < |jf.flows| && JobKey(jf, jf.flows[n].name) in jobs ==>
      var status := jobs[JobKey(jf, jf.flows[n].name)].status;
      PhaseOf(status) == Succeeded && Exclusive(status)
  }

  /** A dependency is a flow; its Job is missing, or has succeeded. */
  lemma DependencyFine(jf: JobFlowValue, jobs: Jobs, n: nat, d: string)
    requires Closed(jf) && ExistingSucceeded(jf, jobs) && n < |jf.flows| && d in jf.flows[n].dependencies
    ensures !HasFailed(jobs, JobKey(jf, d)) && (JobKey(jf, d) in jobs ==> HasSucceeded(jobs, JobKey(jf, d)))
  {
    var i := DeclaredFlow(jf, d);
  }

  lemma NothingHalts(jf: JobFlowValue, templates: map<Key, SpecValue>, jobs: Jobs, n: nat)
    requires Closed(jf) && TemplatesPresent(jf, templates) && ExistingSucceeded(jf, jobs) && n < |jf.flows|
    ensures !Halts(jf, templates, jobs, n)
  {
    hide Closed, ExistingSucceeded;
    if j :| Breaks(jf, jf.flows[n].dependencies, jobs, j) {
      DependencyFine(jf, jobs, n, jf.flows[n].dependencies[j]);
    }
  }

  /** Below a flow without a Job there is one whose dependencies all have theirs. */
  lemma LowestMissing(jf: JobFlowValue, jobs: Jobs, q: seq<string>) returns (n: nat)
    requires DistinctNames(jf) && Closed(jf) && Acyclic(jf)
    requires Chain(jf, q) && Declared(jf, q[0]) && Declared(jf, q[|q| - 1]) && JobKey(jf, q[|q| - 1]) !in jobs
    ensures n < |jf.flows| && JobKey(jf, jf.flows[n].name) !in jobs
    ensures forall d :: d in jf.flows[n].dependencies ==> JobKey(jf, d) in jobs
    decreases |jf.flows| + 1 - |q|
  {
    ChainBound(jf, q);
    n := DeclaredFlow(jf, q[|q| - 1]);
    if d :| d in jf.flows[n].dependencies && JobKey(jf, d) !in jobs {
      var q' := q + [d];
      forall i | 0 <= i < |q'| - 1
        ensures DependsOn(jf, q'[i], q'[i + 1])
      {
        if i < |q| - 1 {
          assert DependsOn(jf, q[i], q[i + 1]);
        } else {
          assert DependsOn(jf, jf.flows[n].name, d);
        }
      }
      n := LowestMissing(jf, jobs, q');
    }
  }

  /** As long as a Job is missing and none has failed, some flow is startable. */
  lemma MissingMeansStartable(jf: JobFlowValue, templates: map<Key, SpecValue>, jobs: Jobs, m: nat)
    requires DistinctNames(jf) && Closed(jf) && Acyclic(jf) && TemplatesPresent(jf, templates)
    requires ExistingSucceeded(jf, jobs) && m < |jf.flows| && JobKey(jf, jf.flows[m].name) !in jobs
    ensures SomeStartable(jf, templates, jobs)
  {
    assert Chain(jf, [jf.flows[m].name]) && Declared(jf, jf.flows[m].name);
    var n := LowestMissing(jf, jobs, [jf.flows[m].name]);
    hide Closed, Acyclic, ExistingSucceeded, DistinctNames, Halts, BaseOf;
    forall d | d in jf.flows[n].dependencies
      ensures HasSucceeded(jobs, JobKey(jf, d)) && !HasFailed(jobs, JobKey(jf, d))
    {
      DependencyFine(jf, jobs, n, d);
    }
    forall i | 0 <= i < n
      ensures !Halts(jf, templates, jobs, i)
    {
      NothingHalts(jf, templates, jobs, i);
    }
    assert Startable(jf, templates, jobs, n);
  }

  /** In every reachable cluster: an acyclic JobFlow with its dependencies declared and its templates present that is
      neither queued, worked on, failed, being deleted nor stranded, and whose existing Jobs have succeeded, has a
      Job for every flow and reports Succeed. */
  lemma QuietMeansDone(templates: map<Key, SpecValue>, cs: seq<Cluster>, i: nat, k: Key)
    requires Run(templates, cs) && i < |cs| && k in cs[i].flows && k !in cs[i].queue && !WorksOn(cs[i], k)
    requires k !in cs[i].stranded
    requires var jf := cs[i].flows[k];
             && Closed(jf) && Acyclic(jf) && TemplatesPresent(jf, templates)
             && jf.status.state != FAILED && !jf.deleting && ExistingSucceeded(jf, cs[i].jobs)
    ensures cs[i].flows[k].status.state == SUCCEED && Missing(cs[i].flows[k], cs[i].jobs) == {}
  {
    var jf, jobs := cs[i].flows[k], cs[i].jobs;
    InvAlways(templates, cs, i);
    assert Unqueued(templates, cs[i], k) && InOrder(jf, jobs);
    hide Run, Inv, FlowsInOrder, WorkerInOrder, SomeStartable, Closed, Acyclic, TemplatesPresent, DistinctNames, StatusOf, WellOwned;
    forall m | 0 <= m < |jf.flows|
      ensures JobKey(jf, jf.flows[m].name) in jobs && InPhase(jf, jobs, Succeeded, m)
    {
      if JobKey(jf, jf.flows[m].name) !in jobs {
        MissingMeansStartable(jf, templates, jobs, m);
      }
    }
    FiledJobs(jf, jobs);
    var items := SomeListing(jobs);
    StateMeans(jf, jobs, items);
  }

  lemma FiledJobs(jf: JobFlowValue, jobs: Jobs)
    requires WellOwned(jf, jobs)
    ensures Filed(jobs)
  {
  }
}

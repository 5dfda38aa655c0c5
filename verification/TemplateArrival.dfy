/**
 JobTemplate events queue no JobFlow (main.go:93-99).  Whether a JobFlow that was settled is
 still settled once there are other templates is exactly whether some flow can start now.
 */
module TemplateArrival {
  import opened Kube
  import opened JobFlows
  import opened Machine
  import opened Deploy
  import opened Passes
  import opened ClusterRuns
  import opened Wakeups
  import opened LostWakeup

  /** A change of templates leaves a settled JobFlow settled exactly when it has failed or no flow is startable. */
  lemma ArrivalExactly(jf: JobFlowValue, templates: map<Key, SpecValue>, more: map<Key, SpecValue>, jobs: Jobs)
    requires Settled(jf, templates, jobs)
    ensures Settled(jf, more, jobs) <==> jf.status.state == FAILED || !SomeStartable(jf, more, jobs)
  {
    CreatesExactly(jf, more, jobs);
  }

  /** The old templates are still there, unchanged. */
  ghost predicate Extends(templates: map<Key, SpecValue>, more: map<Key, SpecValue>) {
    forall k :: k in templates ==> k in more && more[k] == templates[k]
  }

  /** In particular, templates that arrive later make no difference to a JobFlow whose own templates are present. */
  lemma ArrivalIsHarmless(jf: JobFlowValue, templates: map<Key, SpecValue>, more: map<Key, SpecValue>, jobs: Jobs)
    requires TemplatesPresent(jf, templates) && Extends(templates, more)
    ensures Settled(jf, more, jobs) <==> Settled(jf, templates, jobs)
  {
    forall n | 0 <= n < |jf.flows|
      ensures BaseOf(jf, jf.flows[n], more) == BaseOf(jf, jf.flows[n], templates)
      ensures Halts(jf, more, jobs, n) <==> Halts(jf, templates, jobs, n)
    {
      assert BaseOf(jf, jf.flows[n], templates).Some?;
    }
    hide BaseOf, Ready, Halts, StatusCurrent, DeployPass;
    CreatesExactly(jf, templates, jobs);
    CreatesExactly(jf, more, jobs);
    assert forall n :: Startable(jf, more, jobs, n) <==> Startable(jf, templates, jobs, n);
  }

  /** A reconcile that does not find the template. */
  lemma Misses(cs: seq<Cluster>, jf: JobFlowValue, g: JobFlowValue) returns (cs': seq<Cluster>)
    requires Stage(jf, g) && jf.flows[0].jobTemplateRef != "" && Run(map[], cs)
    requires var c := cs[|cs| - 1];
             Alone(c, g) && c.queue == {FlowKey(g)} && c.worker == Idle && c.stranded <= {FlowKey(g)}
    ensures Run(map[], cs')
    ensures var c, k := cs'[|cs'| - 1], FlowKey(g);
            && Alone(c, g.(status := NOTHING_YET)) && c.worker == Idle
            && c.queue == (if g.status == NOTHING_YET then {} else {k}) && c.stranded <= {k}
  {
    var k := FlowKey(g);
    var missing := BadRequest(TemplateMissing(Key(g.namespace, g.flows[0].jobTemplateRef)));
    cs' := Begins(map[], cs, jf, g);
    var c := cs'[|cs'| - 1];
    var c1 := c.(worker := Busy(k, Listing(g, missing), false));
    assert Called(map[], c, NotFound, c1);
    cs' := Extend(map[], cs', c1);
    hide Called, Stage, OneFlow;
    cs' := Reports(map[], cs', jf, g, missing, false);
  }

  /** A reachable cluster in which the JobFlow is not queued, and would create its Job now that the template is there. */
  lemma ArrivalIsMissed(jf: JobFlowValue, spec: SpecValue) returns (cs: seq<Cluster>, last: Cluster)
    requires OneFlow(jf) && jf.flows[0].jobTemplateRef != ""
    ensures Run(map[], cs) && last == cs[|cs| - 1]
    ensures FlowKey(jf) in last.flows && FlowKey(jf) !in last.queue && last.worker == Idle
    ensures Settled(last.flows[FlowKey(jf)], map[], last.jobs)
    ensures !Settled(last.flows[FlowKey(jf)], map[Key(jf.namespace, jf.flows[0].jobTemplateRef) := spec], last.jobs)
  {
    var g := jf.(status := NOTHING_YET);
    var later := map[Key(jf.namespace, jf.flows[0].jobTemplateRef) := spec];
    cs := Appears(map[], jf);
    cs := Misses(cs, jf, jf);
    cs := Misses(cs, jf, g);
    last := cs[|cs| - 1];
    OnlyFlowStartable(jf, g, map[]);
    OnlyFlowStartable(jf, g, later);
    hide SomeStartable, StatusCurrent, Run, DeployPass;
    SettledExactly(map[], cs, |cs| - 1, FlowKey(jf));
    ArrivalExactly(g, map[], later, map[]);
  }
}

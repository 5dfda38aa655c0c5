/**
 A run in which a wake-up is lost: the API answers a Create with a BadRequest, the reconcile
 goes on to write a status that is there already, and nothing queues the JobFlow again.
 */
module LostWakeup {
  import opened Kube
  import opened JobFlows
  import opened Render
  import opened Machine
  import opened FlowStatus
  import opened Passes
  import opened Reconciling
  import opened ClusterRuns
  import opened Wakeups

  /** A new JobFlow of one flow that depends on nothing. */
  ghost predicate OneFlow(jf: JobFlowValue) {
    && WellFormed(jf) && |jf.flows| == 1 && jf.flows[0].dependencies == []
    && jf.status == JobFlowStatus(map[], "") && !jf.deleting
  }

  const NOTHING_YET := JobFlowStatus(map[], PENDING)

  /** The JobFlow before and after its first status update. */
  ghost predicate Stage(jf: JobFlowValue, g: JobFlowValue) {
    OneFlow(jf) && (g == jf || g == jf.(status := NOTHING_YET))
  }

  /** No Job exists and the JobFlow is the only one. */
  ghost predicate Alone(c: Cluster, g: JobFlowValue) {
    c.jobs == map[] && c.flows == map[FlowKey(g) := g]
  }

  lemma Extend(templates: map<Key, SpecValue>, cs: seq<Cluster>, c: Cluster) returns (cs': seq<Cluster>)
    requires Run(templates, cs) && Step(templates, cs[|cs| - 1], c)
    ensures Run(templates, cs') && cs' == cs + [c] && cs'[|cs'| - 1] == c
  {
    cs' := cs + [c];
    hide Step, Init;
    forall i | 0 <= i < |cs'| - 1
      ensures Step(templates, cs'[i], cs'[i + 1])
    {
      if i < |cs| - 1 {
        assert Step(templates, cs[i], cs[i + 1]);
      }
    }
  }

  /** The JobFlow appears in an empty cluster. */
  lemma Appears(templates: map<Key, SpecValue>, jf: JobFlowValue) returns (cs: seq<Cluster>)
    requires OneFlow(jf)
    ensures Run(templates, cs)
    ensures cs[|cs| - 1] == Cluster(map[], map[FlowKey(jf) := jf], {FlowKey(jf)}, Idle, {})
  {
    var c0 := Cluster(map[], map[], {}, Idle, {});
    var c1 := Cluster(map[], map[FlowKey(jf) := jf], {FlowKey(jf)}, Idle, {});
    cs := [c0];
    assert InOrder(jf, map[]) by {
      assert DistinctNames(jf);
    }
    hide InOrder;
    assert c1 == c0.(flows := c0.flows[FlowKey(jf) := jf], queue := c0.queue + {FlowKey(jf)});
    assert FlowCreated(c0, c1);
    cs := Extend(templates, cs, c1);
  }

  /** A reconcile of it starts and reads it. */
  lemma Begins(templates: map<Key, SpecValue>, cs: seq<Cluster>, jf: JobFlowValue, g: JobFlowValue) returns (cs': seq<Cluster>)
    requires Stage(jf, g) && Run(templates, cs)
    requires var c := cs[|cs| - 1]; Alone(c, g) && c.queue == {FlowKey(g)} && c.worker == Idle
    ensures Run(templates, cs') && !Enter(g, 0).Returned?
    ensures cs'[|cs'| - 1] == cs[|cs| - 1].(queue := {}, worker := Busy(FlowKey(g), Deploying(g, Enter(g, 0)), false))
  {
    var c, k := cs[|cs| - 1], FlowKey(g);
    var c1 := c.(queue := {}, worker := Busy(k, ReadJobFlow, false));
    assert c.queue - {k} == {};
    assert Started(c, c1);
    cs' := Extend(templates, cs, c1);
    var c2 := c1.(worker := Busy(k, Deploying(g, Enter(g, 0)), false));
    assert Called(templates, c1, JobFlowFound(g), c2);
    cs' := Extend(templates, cs', c2);
  }

  lemma EmptyStatus(jf: JobFlowValue, g: JobFlowValue)
    requires Stage(jf, g)
    ensures IsListing([], map[]) && StatusOf(g, []) == NOTHING_YET
  {
  }

  /** The pass over, it lists no Job. */
  lemma Lists(templates: map<Key, SpecValue>, cs: seq<Cluster>, jf: JobFlowValue, g: JobFlowValue, outcome: Outcome, cut: bool)
    returns (cs': seq<Cluster>)
    requires Stage(jf, g) && Run(templates, cs)
    requires var c := cs[|cs| - 1]; Alone(c, g) && c.worker == Busy(FlowKey(g), Listing(g, outcome), cut)
    ensures Run(templates, cs')
    ensures cs'[|cs'| - 1] == cs[|cs| - 1].(worker := Busy(FlowKey(g), Updating(g, NOTHING_YET), cut))
  {
    var c := cs[|cs| - 1];
    EmptyStatus(jf, g);
    hide StatusOf, SomeStartable, IsListing, Run, Stage;
    var c1 := c.(worker := Busy(FlowKey(g), Updating(g, NOTHING_YET), cut));
    assert Called(templates, c, Listed([]), c1);
    cs' := Extend(templates, cs, c1);
  }

  /** It lists no Job and writes the status Pending; only a new status queues the JobFlow. */
  lemma Reports(templates: map<Key, SpecValue>, cs: seq<Cluster>, jf: JobFlowValue, g: JobFlowValue, outcome: Outcome, cut: bool)
    returns (cs': seq<Cluster>)
    requires Stage(jf, g) && Run(templates, cs)
    requires var c := cs[|cs| - 1];
             Alone(c, g) && c.queue == {} && c.worker == Busy(FlowKey(g), Listing(g, outcome), cut) && c.stranded <= {FlowKey(g)}
    ensures Run(templates, cs')
    ensures var c, k := cs'[|cs'| - 1], FlowKey(g);
            && Alone(c, g.(status := NOTHING_YET)) && c.worker == Idle
            && c.queue == (if g.status == NOTHING_YET then {} else {k}) && c.stranded <= {k}
  {
    var k, after := FlowKey(g), g.(status := NOTHING_YET);
    hide StatusOf, SomeStartable, IsListing, Stage;
    cs' := Lists(templates, cs, jf, g, outcome, cut);
    var c := cs'[|cs'| - 1];
    var flows := c.flows[k := after];
    assert flows == map[k := after];
    assert g.status == NOTHING_YET <==> flows == c.flows by {
      assert flows[k] == after && c.flows[k] == g;
    }
    var left := cut && SomeStartable(after, templates, map[]);
    var c' := Cluster(map[], flows, if flows != c.flows then {k} else {}, Idle,
                      if left then c.stranded + {k} else c.stranded - {k});
    assert Called(templates, c, Done, c');
    cs' := Extend(templates, cs', c');
  }

  /** A reconcile whose Create is refused as a bad request. */
  lemma Refused(templates: map<Key, SpecValue>, cs: seq<Cluster>, jf: JobFlowValue, g: JobFlowValue) returns (cs': seq<Cluster>)
    requires Stage(jf, g) && jf.flows[0].jobTemplateRef == "" && Run(templates, cs)
    requires var c := cs[|cs| - 1];
             Alone(c, g) && c.queue == {FlowKey(g)} && c.worker == Idle && c.stranded <= {FlowKey(g)}
    ensures Run(templates, cs')
    ensures var c, k := cs'[|cs'| - 1], FlowKey(g);
            && Alone(c, g.(status := NOTHING_YET)) && c.worker == Idle
            && c.queue == (if g.status == NOTHING_YET then {} else {k}) && c.stranded <= {k}
  {
    var k, base := FlowKey(g), g.flows[0].jobTemplate;
    cs' := Begins(templates, cs, jf, g);
    hide RenderJob;
    var c := cs'[|cs'| - 1];
    var c1 := c.(worker := Busy(k, Deploying(g, Create(0, base)), false));
    assert Called(templates, c, NotFound, c1);
    cs' := Extend(templates, cs', c1);
    var c2 := c1.(worker := Busy(k, Listing(g, BadRequest(FromServer)), true));
    assert Called(templates, c1, Fault(true), c2);
    cs' := Extend(templates, cs', c2);
    hide Called, Stage, OneFlow;
    cs' := Reports(templates, cs', jf, g, BadRequest(FromServer), true);
  }

  lemma OnlyFlowStartable(jf: JobFlowValue, g: JobFlowValue, templates: map<Key, SpecValue>)
    requires Stage(jf, g)
    ensures SomeStartable(g, templates, map[]) <==>
            jf.flows[0].jobTemplateRef == "" || Key(jf.namespace, jf.flows[0].jobTemplateRef) in templates
  {
    if jf.flows[0].jobTemplateRef == "" || Key(jf.namespace, jf.flows[0].jobTemplateRef) in templates {
      assert Startable(g, templates, map[], 0);
    }
  }

  /** A reachable cluster in which the JobFlow is neither queued nor being worked on, and has its one flow left to start. */
  lemma BadRequestStrands(templates: map<Key, SpecValue>, jf: JobFlowValue) returns (cs: seq<Cluster>, last: Cluster)
    requires OneFlow(jf) && jf.flows[0].jobTemplateRef == ""
    ensures Run(templates, cs) && last == cs[|cs| - 1]
    ensures FlowKey(jf) in last.flows && FlowKey(jf) !in last.queue && last.worker == Idle
    ensures !Settled(last.flows[FlowKey(jf)], templates, last.jobs) && FlowKey(jf) in last.stranded
  {
    var g := jf.(status := NOTHING_YET);
    cs := Appears(templates, jf);
    cs := Refused(templates, cs, jf, jf);
    cs := Refused(templates, cs, jf, g);
    last := cs[|cs| - 1];
    OnlyFlowStartable(jf, g, templates);
    CreatesExactly(g, templates, map[]);
    hide SomeStartable, StatusCurrent, Run;
    SettledExactly(templates, cs, |cs| - 1, FlowKey(jf));
  }
}

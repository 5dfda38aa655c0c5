/**
 A run in which a Job is created after Failed has been persisted.  The Job set is frozen
 only from the moment the read of the JobFlow shows Failed: a reconcile that still reads
 the older version deploys once more.
 */
module StaleRead {
  import opened Kube
  import opened JobFlows
  import opened Render
  import opened Machine
  import opened FlowStatus
  import opened StatusMeaning
  import opened Reconciling
  import opened Runs
  import opened RunSafety
  import opened RunStatus

  /** Two independent flows, the second made from a JobTemplate. */
  ghost predicate TwoSteps(spec: JobFlowValue) {
    && DistinctNames(spec) && WellFormed(spec) && At(spec, NEW) == spec
    && |spec.flows| == 2
    && spec.flows[0].dependencies == [] && spec.flows[0].jobTemplateRef == ""
    && spec.flows[1].dependencies == [] && spec.flows[1].jobTemplateRef != ""
  }

  function First(spec: JobFlowValue): JobValue
    requires |spec.flows| == 2
  {
    RenderJob(spec, spec.flows[0], spec.flows[0].jobTemplate)
  }

  function Failing(job: JobValue): JobValue {
    job.(status := JobStatus(0, 0, 1))
  }

  function Second(spec: JobFlowValue, template: SpecValue): JobValue
    requires |spec.flows| == 2
  {
    RenderJob(spec, spec.flows[1], template)
  }

  /** The template the second flow refers to. */
  function TemplateOf(spec: JobFlowValue, template: SpecValue): map<Key, SpecValue>
    requires |spec.flows| == 2
  {
    map[Key(spec.namespace, spec.flows[1].jobTemplateRef) := template]
  }

  lemma Extend(spec: JobFlowValue, ws: seq<World>, w: World) returns (ws': seq<World>)
    requires Run(spec, false, ws) && Step(spec, false, ws[|ws| - 1], w)
    ensures Run(spec, false, ws') && ws' == ws + [w]
  {
    ws' := ws + [w];
    hide Step, Init;
    forall i | 0 <= i < |ws'| - 1
      ensures Step(spec, false, ws'[i], ws'[i + 1])
    {
      if i < |ws| - 1 {
        assert Step(spec, false, ws[i], ws[i + 1]);
      }
    }
  }

  lemma Keys(spec: JobFlowValue)
    requires TwoSteps(spec)
    ensures var k0, k1 := JobKey(spec, spec.flows[0].name), JobKey(spec, spec.flows[1].name);
            k0 != k1 && MentionedKey(spec, k0) && First(spec).key == k0
  {
    JobKeyInjective(spec, spec.flows[0].name, spec.flows[1].name);
    FlowMentioned(spec, 0);
  }

  /** The first pass up to its first create. */
  lemma PassBegins(spec: JobFlowValue, templates: map<Key, SpecValue>) returns (ws: seq<World>)
    requires TwoSteps(spec)
    ensures Run(spec, false, ws) && |ws| == 4
    ensures ws[3] == World(templates, [map[]], 0, [NEW], 0, Busy(0, Deploying(spec, Create(0, spec.flows[0].jobTemplate))))
  {
    var base := spec.flows[0].jobTemplate;
    hide RenderJob;
    var w0 := World(templates, [map[]], 0, [NEW], 0, Idle);
    ws := [w0];
    var w1 := w0.(controller := Busy(0, ReadJobFlow));
    ws := Extend(spec, ws, w1);
    var w2 := w1.(controller := Busy(0, Deploying(spec, Lookup(0, base))));
    assert Called(spec, w1, JobFlowFound(spec), w2);
    ws := Extend(spec, ws, w2);
    var w3 := w2.(controller := Busy(0, Deploying(spec, Create(0, base))));
    assert Called(spec, w2, NotFound, w3);
    ws := Extend(spec, ws, w3);
  }

  /** The first pass: the first Job is created, then the template of the second flow is not there. */
  lemma FirstPass(spec: JobFlowValue, templates: map<Key, SpecValue>) returns (ws: seq<World>)
    requires TwoSteps(spec)
    ensures Run(spec, false, ws) && |ws| == 6
    ensures ws[5] == World(templates, [map[], map[First(spec).key := First(spec)]], 0, [NEW], 0,
                           Busy(0, Listing(spec, BadRequest(TemplateMissing(Key(spec.namespace, spec.flows[1].jobTemplateRef))))))
  {
    Keys(spec);
    ws := PassBegins(spec, templates);
    hide RenderJob;
    var jobs := map[First(spec).key := First(spec)];
    var w4 := ws[3].(jobs := [map[], jobs], controller := Busy(0, Deploying(spec, FetchTemplate(1))));
    assert Called(spec, ws[3], Done, w4);
    ws := Extend(spec, ws, w4);
    var w5 := w4.(controller := Busy(0, Listing(spec, BadRequest(TemplateMissing(Key(spec.namespace, spec.flows[1].jobTemplateRef))))));
    assert Called(spec, w4, NotFound, w5);
    ws := Extend(spec, ws, w5);
  }

  /** The first Job fails, and the cache shows it. */
  lemma FirstFails(spec: JobFlowValue, templates: map<Key, SpecValue>) returns (ws: seq<World>)
    requires TwoSteps(spec)
    ensures Run(spec, false, ws) && |ws| == 8
    ensures var jobs := map[First(spec).key := First(spec)];
            var failed := map[First(spec).key := Failing(First(spec))];
            ws[7] == World(templates, [map[], jobs, failed], 2, [NEW], 0,
                           Busy(0, Listing(spec, BadRequest(TemplateMissing(Key(spec.namespace, spec.flows[1].jobTemplateRef))))))
  {
    ws := FirstPass(spec, templates);
    Keys(spec);
    var k := First(spec).key;
    var jobs, failed := map[k := First(spec)], map[k := Failing(First(spec))];
    hide RenderJob, Called;
    var w6 := ws[5].(jobs := [map[], jobs, failed]);
    assert Moved(spec, false, jobs, failed);
    assert w6.jobs == ws[5].jobs + [failed];
    assert Environment(spec, false, ws[5], w6);
    ws := Extend(spec, ws, w6);
    var w7 := w6.(seen := 2);
    assert Observe(w6, w7);
    ws := Extend(spec, ws, w7);
  }

  /** The List shows the failure. */
  lemma FailureListed(spec: JobFlowValue, templates: map<Key, SpecValue>) returns (ws: seq<World>, status: JobFlowStatus)
    requires TwoSteps(spec)
    ensures Run(spec, false, ws) && |ws| == 9 && status.state == FAILED
    ensures var jobs := map[First(spec).key := First(spec)];
            var failed := map[First(spec).key := Failing(First(spec))];
            ws[8] == World(templates, [map[], jobs, failed], 2, [NEW], 0, Busy(0, Updating(spec, status)))
  {
    ws := FirstFails(spec, templates);
    var w7 := ws[7];
    var items := [Failing(First(spec))];
    status := StatusOf(spec, items);
    FailureShows(spec, ws, items);
    hide RenderJob, Environment, Moved, IsListing, StatusOf, Run, TwoSteps, First, Failing;
    var w8 := w7.(controller := Busy(0, Updating(spec, status)));
    assert Called(spec, w7, Listed(items), w8);
    ws := Extend(spec, ws, w8);
  }

  /** The first Job fails before the List, so Failed is persisted. */
  lemma FailurePersisted(spec: JobFlowValue, templates: map<Key, SpecValue>) returns (ws: seq<World>, status: JobFlowStatus)
    requires TwoSteps(spec)
    ensures Run(spec, false, ws) && |ws| == 10 && status.state == FAILED
    ensures var jobs := map[First(spec).key := First(spec)];
            var failed := map[First(spec).key := Failing(First(spec))];
            ws[9] == World(templates, [map[], jobs, failed], 2, [NEW, Stored(status, false)], 0, Idle)
  {
    ws, status := FailureListed(spec, templates);
    var w8 := ws[8];
    hide RenderJob, Environment, Moved, IsListing, StatusOf, Run, TwoSteps, First, Failing;
    var w9 := w8.(flow := [NEW, Stored(status, false)], controller := Idle);
    assert [NEW] + [NEW.(status := status)] == w9.flow;
    assert Called(spec, w8, Done, w9);
    ws := Extend(spec, ws, w9);
  }

  lemma FailureShows(spec: JobFlowValue, ws: seq<World>, items: seq<JobValue>)
    requires TwoSteps(spec) && Run(spec, false, ws)
    requires var w := ws[|ws| - 1];
             Bounds(w) && items == [Failing(First(spec))] && Cache(w) == map[First(spec).key := items[0]]
    ensures IsListing(items, Cache(ws[|ws| - 1])) && StatusOf(spec, items).state == FAILED
  {
    var w := ws[|ws| - 1];
    SafeAlways(spec, ws, |ws| - 1);
    Keys(spec);
    assert items[0].key == First(spec).key;
    assert IsListing(items, Cache(w));
    assert SameSpec(spec, spec);
    hide RenderJob, IsListing, Run, StatusOf, SafeInv;
    ListedMeaning(spec, w, spec, items);
    assert InPhase(spec, Cache(w), Failed, 0) && !InPhase(spec, Cache(w), Succeeded, 0);
  }

  /** A reconcile reads the JobFlow from before the failure and gets past the first flow, whose Job exists. */
  lemma StaleReconcile(spec: JobFlowValue, ws: seq<World>, w: World) returns (ws': seq<World>)
    requires TwoSteps(spec) && Run(spec, false, ws) && w == ws[|ws| - 1]
    requires Bounds(w) && w.controller == Idle && w.flow[w.flowSeen] == NEW && w.flowSeen == 0
    requires First(spec).key in Cache(w)
    ensures Run(spec, false, ws') && ws < ws' && ws'[|ws'| - 1] == w.(controller := Busy(0, Deploying(spec, FetchTemplate(1))))
  {
    hide RenderJob;
    var job := Cache(w)[First(spec).key];
    Keys(spec);
    var w1 := w.(controller := Busy(0, ReadJobFlow));
    ws' := Extend(spec, ws, w1);
    var w2 := w1.(controller := Busy(0, Deploying(spec, Lookup(0, spec.flows[0].jobTemplate))));
    assert Called(spec, w1, JobFlowFound(spec), w2);
    ws' := Extend(spec, ws', w2);
    var w3 := w2.(controller := Busy(0, Deploying(spec, FetchTemplate(1))));
    assert Called(spec, w2, JobFound(job), w3);
    ws' := Extend(spec, ws', w3);
  }

  /** It finds the template and no Job of the second flow. */
  lemma StaleLookup(spec: JobFlowValue, template: SpecValue, ws: seq<World>, w: World) returns (ws': seq<World>)
    requires TwoSteps(spec) && Run(spec, false, ws) && w == ws[|ws| - 1]
    requires Bounds(w) && w.controller == Busy(0, Deploying(spec, FetchTemplate(1)))
    requires w.templates == TemplateOf(spec, template) && JobKey(spec, spec.flows[1].name) !in Cache(w)
    ensures Run(spec, false, ws') && ws < ws' && ws'[|ws'| - 1] == w.(controller := Busy(0, Deploying(spec, Create(1, template))))
  {
    hide RenderJob, Run, DistinctNames;
    var w1 := w.(controller := Busy(0, Deploying(spec, Lookup(1, template))));
    assert Called(spec, w, TemplateFound(template), w1);
    ws' := Extend(spec, ws, w1);
    var w2 := w1.(controller := Busy(0, Deploying(spec, Create(1, template))));
    assert Called(spec, w1, NotFound, w2);
    ws' := Extend(spec, ws', w2);
  }

  /** It goes on to create the second flow's Job. */
  lemma StaleCreate(spec: JobFlowValue, template: SpecValue, ws: seq<World>, w: World) returns (ws': seq<World>)
    requires TwoSteps(spec) && Run(spec, false, ws) && w == ws[|ws| - 1]
    requires Bounds(w) && w.controller == Busy(0, Deploying(spec, FetchTemplate(1)))
    requires w.templates == TemplateOf(spec, template)
    requires JobKey(spec, spec.flows[1].name) !in Cache(w) && JobKey(spec, spec.flows[1].name) !in Now(w)
    ensures Run(spec, false, ws') && ws < ws' && Bounds(ws'[|ws'| - 1])
    ensures JobKey(spec, spec.flows[1].name) in Now(ws'[|ws'| - 1])
  {
    var k := JobKey(spec, spec.flows[1].name);
    assert Second(spec, template).key == k;
    ws' := StaleLookup(spec, template, ws, w);
    hide RenderJob, Run, DistinctNames;
    var w2 := ws'[|ws'| - 1];
    var w3 := w2.(jobs := w2.jobs + [Now(w2)[k := Second(spec, template)]], controller := Busy(0, Listing(spec, Deployed)));
    assert Called(spec, w2, Done, w3);
    ws' := Extend(spec, ws', w3);
  }

  /** There is a run in which Failed is persisted, no reconcile is under way, and a later one, reading the
      JobFlow from before, still creates the second flow's Job. */
  lemma JobsAfterFailed(spec: JobFlowValue, template: SpecValue) returns (ws: seq<World>, i: nat)
    requires TwoSteps(spec)
    ensures Run(spec, false, ws) && i < |ws| && Bounds(ws[i]) && Bounds(ws[|ws| - 1])
    ensures NowFlow(ws[i]).Stored? && NowFlow(ws[i]).status.state == FAILED && ws[i].controller == Idle && !Frozen(ws[i])
    ensures JobKey(spec, spec.flows[1].name) !in Now(ws[i]) && JobKey(spec, spec.flows[1].name) in Now(ws[|ws| - 1])
  {
    var status;
    ws, status := FailurePersisted(spec, TemplateOf(spec, template));
    Keys(spec);
    i := 9;
    var w := ws[9];
    assert !Frozen(w) by {
      assert w.flow[0] == NEW;
    }
    hide RenderJob, Frozen, Run;
    ws := StaleReconcile(spec, ws, w);
    ws := StaleCreate(spec, template, ws, ws[|ws| - 1]);
  }
}

/**
 A run in which the cache's lag strands a JobFlow: a flow's Job has been created but is not in the
 cache yet, the pass runs into AlreadyExists and leaves its loop, and the Job's appearance in the
 cache, when it comes, queues nobody.
 */
module LaggedLoss {
  import opened Kube
  import opened JobFlows
  import opened Render
  import opened Machine
  import opened FlowStatus
  import opened Passes
  import opened Reconciling
  import opened LaggedWakeups

  /** The second flow waits for the first; the third waits for nothing. */
  ghost predicate ThreeFlows(spec: JobFlowValue) {
    && WellFormed(spec) && DistinctNames(spec) && |spec.flows| == 3 && (forall n :: 0 <= n < 3 ==> spec.flows[n].jobTemplateRef == "")
    && spec.flows[0].dependencies == [] && spec.flows[1].dependencies == [spec.flows[0].name] && spec.flows[2].dependencies == []
    && spec.status == JobFlowStatus(map[], "") && !spec.deleting
  }

  ghost function New(spec: JobFlowValue, n: nat): JobValue
    requires n < |spec.flows|
  {
    RenderJob(spec, spec.flows[n], spec.flows[n].jobTemplate)
  }

  ghost function First(spec: JobFlowValue): JobValue
    requires ThreeFlows(spec)
  {
    New(spec, 0).(status := JobStatus(0, 1, 0))
  }

  /** Nothing; the first Job; it has succeeded; the second Job besides. */
  ghost function Entry(spec: JobFlowValue, b: nat): Jobs
    requires ThreeFlows(spec)
  {
    if b == 0 then map[]
    else if b == 1 then map[New(spec, 0).key := New(spec, 0)]
    else if b == 2 then map[New(spec, 0).key := First(spec)]
    else map[New(spec, 0).key := First(spec)][New(spec, 1).key := New(spec, 1)]
  }

  lemma Keys(spec: JobFlowValue)
    requires ThreeFlows(spec)
    ensures forall n :: 0 <= n < 3 ==> New(spec, n).key == JobKey(spec, spec.flows[n].name) && New(spec, n).status == NO_STATUS
    ensures forall m, n :: 0 <= m < n < 3 ==> New(spec, m).key != New(spec, n).key
    ensures forall n :: 0 <= n < 3 ==> MentionedKey(spec, New(spec, n).key)
  {
    forall m, n | 0 <= m < n < 3
      ensures JobKey(spec, spec.flows[m].name) != JobKey(spec, spec.flows[n].name)
    {
      JobKeyInjective(spec, spec.flows[m].name, spec.flows[n].name);
    }
    FlowMentioned(spec, 0);
    FlowMentioned(spec, 1);
    FlowMentioned(spec, 2);
  }

  lemma Extend(templates: map<Key, SpecValue>, spec: JobFlowValue, ws: seq<World>, w: World) returns (ws': seq<World>)
    requires Run(templates, spec, ws) && Step(templates, spec, ws[|ws| - 1], w)
    ensures Run(templates, spec, ws') && ws' == ws + [w] && ws'[|ws'| - 1] == w
  {
    ws' := ws + [w];
    hide Step, Init;
    forall i | 0 <= i < |ws'| - 1
      ensures Step(templates, spec, ws'[i], ws'[i + 1])
    {
      if i < |ws| - 1 {
        assert Step(templates, spec, ws[i], ws[i + 1]);
      }
    }
  }

  /** A reconcile begins and reads the JobFlow. */
  lemma Reads(templates: map<Key, SpecValue>, spec: JobFlowValue, ws: seq<World>, g: JobFlowValue) returns (ws': seq<World>)
    requires ThreeFlows(spec) && SameSpec(spec, g) && g.status.state != FAILED && Run(templates, spec, ws)
    requires var w := ws[|ws| - 1]; Bounds(w) && w.flow == Some(g) && w.queued && w.worker == Idle
    ensures Run(templates, spec, ws')
    ensures ws'[|ws'| - 1] == ws[|ws| - 1].(queued := false, worker := Busy(Deploying(g, Lookup(0, spec.flows[0].jobTemplate)), false))
  {
    var w := ws[|ws| - 1];
    hide DistinctNames, Run;
    var w1 := w.(queued := false, worker := Busy(ReadJobFlow, false));
    assert Started(w, w1);
    ws' := Extend(templates, spec, ws, w1);
    var w2 := w1.(worker := Busy(Deploying(g, Lookup(0, spec.flows[0].jobTemplate)), false));
    assert Called(templates, spec, w1, JobFlowFound(g), w2);
    ws' := Extend(templates, spec, ws', w2);
  }

  /** It looks a Job up in the cache. */
  lemma LooksUp(templates: map<Key, SpecValue>, spec: JobFlowValue, ws: seq<World>, g: JobFlowValue, p: Pc, resp: Response, p': Pc)
    returns (ws': seq<World>)
    requires Run(templates, spec, ws) && Bounds(ws[|ws| - 1]) && ws[|ws| - 1].worker == Busy(Deploying(g, p), false)
    requires ValidPc(g, p) && (p.Lookup? || p.CheckDependency?)
    requires (resp == NotFound && RequestOf(g, p).job !in Cache(ws[|ws| - 1])) ||
             (RequestOf(g, p).job in Cache(ws[|ws| - 1]) && resp == JobFound(Cache(ws[|ws| - 1])[RequestOf(g, p).job]))
    requires Next(g, p, resp) == p' && !p'.Returned?
    ensures Run(templates, spec, ws') && ws'[|ws'| - 1] == ws[|ws| - 1].(worker := Busy(Deploying(g, p'), false))
  {
    var w := ws[|ws| - 1];
    hide Run, RenderJob;
    var w1 := w.(worker := Busy(Deploying(g, p'), false));
    assert Fits(RequestOf(g, p), resp);
    assert PassServed(templates, w, RequestOf(g, p), resp, w.jobs);
    hide Next, RequestOf, Fits, PassServed;
    assert Called(templates, spec, w, resp, w1);
    ws' := Extend(templates, spec, ws, w1);
  }

  /** The JobFlow appears and a reconcile finds no first Job. */
  lemma FirstMissing(templates: map<Key, SpecValue>, spec: JobFlowValue) returns (ws: seq<World>)
    requires ThreeFlows(spec)
    ensures Run(templates, spec, ws)
    ensures ws[|ws| - 1] == World([Entry(spec, 0)], 0, Some(spec), false, false,
                                  Busy(Deploying(spec, Create(0, spec.flows[0].jobTemplate)), false), false)
  {
    hide RenderJob, MentionedKey, DistinctNames, Called;
    var w0 := World([Entry(spec, 0)], 0, None, false, false, Idle, false);
    ws := [w0];
    var w1 := w0.(flow := Some(spec), queued := true);
    assert FlowChanged(spec, w0, w1);
    ws := Extend(templates, spec, ws, w1);
    ws := Reads(templates, spec, ws, spec);
    ws := LooksUp(templates, spec, ws, spec, Lookup(0, spec.flows[0].jobTemplate), NotFound, Create(0, spec.flows[0].jobTemplate));
  }

  /** It creates the first Job, and the controller restarts. */
  lemma FirstCreated(templates: map<Key, SpecValue>, spec: JobFlowValue) returns (ws: seq<World>)
    requires ThreeFlows(spec)
    ensures Run(templates, spec, ws)
    ensures ws[|ws| - 1] == World([Entry(spec, 0), Entry(spec, 1)], 0, Some(spec), false, true, Idle, false)
  {
    ws := FirstMissing(templates, spec);
    Keys(spec);
    hide RenderJob, MentionedKey, DistinctNames, Run;
    var w := ws[|ws| - 1];
    var w1 := w.(jobs := [Entry(spec, 0), Entry(spec, 1)], worker := Busy(Deploying(spec, Lookup(1, spec.flows[1].jobTemplate)), false));
    assert Called(templates, spec, w, Done, w1);
    ws := Extend(templates, spec, ws, w1);
    hide Called;
    var w2 := w1.(queued := true, worker := Idle);
    assert Restarted(w1, w2);
    ws := Extend(templates, spec, ws, w2);
  }

  /** It succeeds, and the cache shows it. */
  lemma FirstSucceeds(templates: map<Key, SpecValue>, spec: JobFlowValue) returns (ws: seq<World>)
    requires ThreeFlows(spec)
    ensures Run(templates, spec, ws)
    ensures ws[|ws| - 1] == World([Entry(spec, 0), Entry(spec, 1), Entry(spec, 2)], 2, Some(spec), false, true, Idle, false)
  {
    ws := FirstCreated(templates, spec);
    Keys(spec);
    hide RenderJob, MentionedKey, DistinctNames, Called, Run;
    var w := ws[|ws| - 1];
    var w1 := w.(jobs := [Entry(spec, 0), Entry(spec, 1), Entry(spec, 2)]);
    assert w1.jobs == w.jobs + [Entry(spec, 2)];
    assert Environment(spec, w, w1);
    ws := Extend(templates, spec, ws, w1);
    var w2 := w1.(seen := 1, undelivered := w1.undelivered || Announced(spec, Entry(spec, 0), Entry(spec, 1)));
    assert Observed(spec, w1, w2);
    ws := Extend(templates, spec, ws, w2);
    var w3 := w2.(seen := 2, undelivered := w2.undelivered || Announced(spec, Entry(spec, 1), Entry(spec, 2)));
    assert Observed(spec, w2, w3);
    ws := Extend(templates, spec, ws, w3);
    var w4 := w3.(undelivered := false);
    assert Delivered(w3, w4);
    ws := Extend(templates, spec, ws, w4);
  }

  /** The JobFlow is queued; the cache shows the first Job's success and no second Job. */
  ghost predicate Waiting(spec: JobFlowValue, w: World, g: JobFlowValue) {
    && ThreeFlows(spec) && SameSpec(spec, g) && g.status.state != FAILED && !g.deleting
    && Bounds(w) && w.seen == 2 && w.jobs[2] == Entry(spec, 2)
    && w.flow == Some(g) && w.queued && w.worker == Idle && !w.undelivered
  }

  /** The second Job is at the server, and the cache does not show it yet. */
  ghost predicate Lagged(spec: JobFlowValue, w: World) {
    ThreeFlows(spec) && w.jobs == [Entry(spec, 0), Entry(spec, 1), Entry(spec, 2), Entry(spec, 3)] && w.seen == 2
  }

  /** A reconcile finds the first Job and no second one, whose dependency has succeeded: it is about to create it. */
  lemma ToCreate(templates: map<Key, SpecValue>, spec: JobFlowValue, ws: seq<World>, g: JobFlowValue) returns (ws': seq<World>)
    requires Run(templates, spec, ws) && Waiting(spec, ws[|ws| - 1], g)
    ensures Run(templates, spec, ws')
    ensures ws'[|ws'| - 1] == ws[|ws| - 1].(queued := false, worker := Busy(Deploying(g, Create(1, spec.flows[1].jobTemplate)), false))
  {
    var base := spec.flows[1].jobTemplate;
    Keys(spec);
    hide RenderJob, MentionedKey, DistinctNames, Run;
    ws' := Reads(templates, spec, ws, g);
    ws' := LooksUp(templates, spec, ws', g, Lookup(0, spec.flows[0].jobTemplate), JobFound(First(spec)), Lookup(1, base));
    ws' := LooksUp(templates, spec, ws', g, Lookup(1, base), NotFound, CheckDependency(1, base, 0, true));
    ws' := LooksUp(templates, spec, ws', g, CheckDependency(1, base, 0, true), JobFound(First(spec)), Create(1, base));
  }

  /** The reply to the second Create is lost. */
  lemma ReplyLost(templates: map<Key, SpecValue>, spec: JobFlowValue, ws: seq<World>, p: Pc) returns (ws': seq<World>)
    requires Run(templates, spec, ws) && Bounds(ws[|ws| - 1]) && ValidPc(spec, p) && p.Create?
    requires ws[|ws| - 1].worker == Busy(Deploying(spec, p), false) && !ws[|ws| - 1].stranded
    requires RequestOf(spec, p).created.key !in Now(ws[|ws| - 1])
    ensures var w, job := ws[|ws| - 1], RequestOf(spec, p).created;
            Run(templates, spec, ws') && ws'[|ws'| - 1] == w.(jobs := w.jobs + [Now(w)[job.key := job]], queued := true, worker := Idle)
  {
    var w, job := ws[|ws| - 1], RequestOf(spec, p).created;
    hide RenderJob, Run;
    var w1 := w.(jobs := w.jobs + [Now(w)[job.key := job]], queued := true, worker := Idle);
    assert Called(templates, spec, w, Fault(false), w1);
    ws' := Extend(templates, spec, ws, w1);
  }

  /** The second Job is created without the controller's learning of it. */
  lemma SecondCreated(templates: map<Key, SpecValue>, spec: JobFlowValue) returns (ws: seq<World>)
    requires ThreeFlows(spec)
    ensures Run(templates, spec, ws) && Waiting(spec, ws[|ws| - 1], spec) && Lagged(spec, ws[|ws| - 1]) && !ws[|ws| - 1].stranded
  {
    ws := FirstSucceeds(templates, spec);
    ws := ToCreate(templates, spec, ws, spec);
    Keys(spec);
    hide RenderJob, MentionedKey, DistinctNames, Run, Called;
    ws := ReplyLost(templates, spec, ws, Create(1, spec.flows[1].jobTemplate));
    assert ws[|ws| - 1].jobs == [Entry(spec, 0), Entry(spec, 1), Entry(spec, 2)] + [Entry(spec, 3)];
  }

  // ---- the reconcile that runs into AlreadyExists ----

  ghost function Reported(spec: JobFlowValue): JobFlowStatus
    requires ThreeFlows(spec)
  {
    StatusOf(spec, [First(spec)])
  }

  lemma ReportedRunning(spec: JobFlowValue)
    requires ThreeFlows(spec)
    ensures Reported(spec).state == RUNNING
  {
    var job := First(spec);
    assert job.owners == [OwnerReference(API_VERSION, KIND, spec.name, spec.uid)];
    assert PhaseOf(job.status) == Succeeded;
    hide RenderJob, First;
    SoleOwner(job.owners[0], KIND, spec.name);
    OneOwned(job, KIND, spec.name);
    OneNamed(job);
  }

  lemma OneNamed(job: JobValue)
    requires PhaseOf(job.status) == Succeeded
    ensures |NamesIn(Succeeded, [job])| == 1 && |NamesIn(Failed, [job])| == 0
  {
    assert [job][..0] == [];
    assert NamesIn(Succeeded, [job]) == NamesIn(Succeeded, []) + [job.key.name];
    assert NamesIn(Failed, [job]) == NamesIn(Failed, []) + [];
  }

  lemma OneOwned(job: JobValue, kind: string, name: string)
    requires Matches(job.owners, kind, name) == 1
    ensures OwnedItems([job], kind, name) == [job]
  {
    assert [job][..0] == [];
    assert Copies(job, 1) == Copies(job, 0) + [job];
  }

  /** The third flow could be started all along. */
  lemma ThirdStartable(templates: map<Key, SpecValue>, spec: JobFlowValue, jobs: Jobs)
    requires ThreeFlows(spec) && New(spec, 2).key !in jobs
    requires forall n :: 0 <= n < 2 ==> New(spec, n).key in jobs
    ensures SomeStartable(spec, templates, jobs)
  {
    Keys(spec);
    hide RenderJob;
    assert Startable(spec, templates, jobs, 2);
  }

  lemma SomeKnown(templates: map<Key, SpecValue>, spec: JobFlowValue, w: World)
    requires ThreeFlows(spec) && Bounds(w) && Now(w) == Entry(spec, 3) && Cache(w).Keys <= Entry(spec, 3).Keys
    ensures SomeStartable(spec, templates, Known(spec, w))
  {
    Keys(spec);
    hide RenderJob, MentionedKey, SomeStartable;
    ThirdStartable(templates, spec, Known(spec, w));
  }

  /** AlreadyExists for the second flow ends the deploy part. */
  lemma Collides(templates: map<Key, SpecValue>, spec: JobFlowValue, ws: seq<World>, g: JobFlowValue) returns (ws': seq<World>)
    requires Run(templates, spec, ws) && Waiting(spec, ws[|ws| - 1], g) && Lagged(spec, ws[|ws| - 1])
    ensures Run(templates, spec, ws')
    ensures ws'[|ws'| - 1] == ws[|ws| - 1].(queued := false, worker := Busy(Listing(g, Deployed), true))
  {
    ws' := ToCreate(templates, spec, ws, g);
    Keys(spec);
    var w := ws'[|ws'| - 1];
    hide RenderJob, MentionedKey, DistinctNames, Run;
    var w1 := w.(worker := Busy(Listing(g, Deployed), true));
    assert RequestOf(g, w.worker.pc.pc).created.key in Now(w);
    assert Called(templates, spec, w, AlreadyExists, w1);
    ws' := Extend(templates, spec, ws', w1);
  }

  lemma Lists(templates: map<Key, SpecValue>, spec: JobFlowValue, ws: seq<World>, g: JobFlowValue) returns (ws': seq<World>)
    requires Run(templates, spec, ws) && Waiting(spec, ws[|ws| - 1], g) && Lagged(spec, ws[|ws| - 1])
    ensures Run(templates, spec, ws')
    ensures ws'[|ws'| - 1] == ws[|ws| - 1].(queued := false, worker := Busy(Updating(g, Reported(spec)), true))
  {
    ws' := Collides(templates, spec, ws, g);
    StatusIgnoresStatus(spec, g, [First(spec)]);
    var w := ws'[|ws'| - 1];
    assert IsListing([First(spec)], Cache(w));
    hide RenderJob, MentionedKey, DistinctNames, Run, IsListing, StatusOf;
    var w1 := w.(worker := Busy(Updating(g, Reported(spec)), true));
    assert Called(templates, spec, w, Listed([First(spec)]), w1);
    ws' := Extend(templates, spec, ws', w1);
  }

  /** The status is written; only a new one queues the JobFlow. */
  lemma Reports(templates: map<Key, SpecValue>, spec: JobFlowValue, ws: seq<World>, g: JobFlowValue) returns (ws': seq<World>)
    requires Run(templates, spec, ws) && Waiting(spec, ws[|ws| - 1], g) && Lagged(spec, ws[|ws| - 1])
    ensures Run(templates, spec, ws')
    ensures ws'[|ws'| - 1] == ws[|ws| - 1].(flow := Some(g.(status := Reported(spec))), queued := g.status != Reported(spec),
                                            worker := Idle, stranded := true)
  {
    ws' := Lists(templates, spec, ws, g);
    var w := ws'[|ws'| - 1];
    var w1 := w.(flow := Some(g.(status := Reported(spec))), queued := g.status != Reported(spec), worker := Idle, stranded := true);
    SomeKnown(templates, spec, w1);
    hide RenderJob, MentionedKey, DistinctNames, Run, Reported, SomeStartable, Known, Entry;
    assert Called(templates, spec, w, Done, w1);
    ws' := Extend(templates, spec, ws', w1);
  }

  /** A reachable world at rest, the cache caught up, in which the third flow could be started. */
  lemma AlreadyExistsStrands(templates: map<Key, SpecValue>, spec: JobFlowValue) returns (ws: seq<World>, last: World)
    requires ThreeFlows(spec)
    ensures Run(templates, spec, ws) && last == ws[|ws| - 1]
    ensures AtRest(last) && last.stranded && Bounds(last) && last.seen == |last.jobs| - 1
    ensures SomeStartable(spec, templates, Now(last))
  {
    ws := SecondCreated(templates, spec);
    ReportedRunning(spec);
    hide RenderJob, MentionedKey, DistinctNames, Run, Reported, SomeStartable, Known, Entry;
    ws := Reports(templates, spec, ws, spec);
    ws := Reports(templates, spec, ws, spec.(status := Reported(spec)));
    ws := CaughtUp(templates, spec, ws);
    last := ws[|ws| - 1];
    RestingExactly(templates, spec, ws, |ws| - 1);
  }

  /** The second Job appears in the cache, and nobody is told. */
  lemma CaughtUp(templates: map<Key, SpecValue>, spec: JobFlowValue, ws: seq<World>) returns (ws': seq<World>)
    requires Run(templates, spec, ws) && Lagged(spec, ws[|ws| - 1])
    ensures Run(templates, spec, ws') && ws'[|ws'| - 1] == ws[|ws| - 1].(seen := 3)
  {
    Keys(spec);
    hide RenderJob, MentionedKey, DistinctNames, Run;
    var w := ws[|ws| - 1];
    assert !Announced(spec, Entry(spec, 2), Entry(spec, 3));
    assert Observed(spec, w, w.(seen := 3));
    ws' := Extend(templates, spec, ws, w.(seen := 3));
  }
}

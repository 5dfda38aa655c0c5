/**
 Safety over whole runs: which Jobs are ever created, and when.
 */
module RunSafety {
  import opened Kube
  import opened JobFlows
  import opened Chains
  import opened Render
  import opened Machine
  import opened FlowStatus
  import opened Deploy
  import opened StatusMeaning
  import opened Reconciling
  import opened Runs
  import opened WorkQueue

  /** History only grows and the caches only move forward. */
  lemma StepGrows(spec: JobFlowValue, deletions: bool, w: World, w': World)
    requires Step(spec, deletions, w, w')
    ensures Bounds(w') && w.jobs <= w'.jobs && w.flow <= w'.flow && w.seen <= w'.seen && w.flowSeen <= w'.flowSeen
    ensures |w'.jobs| <= |w.jobs| + 1 && |w'.flow| <= |w.flow| + 1 && w'.templates == w.templates
  {
  }

  lemma {:induction false} RunGrows(spec: JobFlowValue, deletions: bool, ws: seq<World>, i: nat, j: nat)
    requires Run(spec, deletions, ws) && i <= j < |ws|
    ensures Bounds(ws[j]) && ws[i].jobs <= ws[j].jobs && ws[i].flow <= ws[j].flow
    ensures ws[i].seen <= ws[j].seen && ws[i].flowSeen <= ws[j].flowSeen
    decreases j
  {
    if i < j {
      RunGrows(spec, deletions, ws, i, j - 1);
      assert Step(spec, deletions, ws[j - 1], ws[j - 1 + 1]);
      StepGrows(spec, deletions, ws[j - 1], ws[j]);
    } else if j > 0 {
      RunGrows(spec, deletions, ws, 0, j - 1);
      assert Step(spec, deletions, ws[j - 1], ws[j - 1 + 1]);
      StepGrows(spec, deletions, ws[j - 1], ws[j]);
    }
  }

  /** How the history of the Jobs can grow: the environment moves, or the controller creates what it asked for. */
  ghost predicate Created(spec: JobFlowValue, w: World, w': World)
    requires Bounds(w)
  {
    && w.controller.Busy? && w.controller.pc.Deploying? && w.controller.pc.pc.Create? && ValidReconcilePc(w.controller.pc)
    && var jf, n, base := w.controller.pc.jf, w.controller.pc.pc.flow, w.controller.pc.pc.base;
       && JobKey(jf, jf.flows[n].name) !in Now(w)
       && w'.jobs == w.jobs + [Now(w)[JobKey(jf, jf.flows[n].name) := RenderJob(jf, jf.flows[n], base)]]
  }

  lemma JobsGrow(spec: JobFlowValue, deletions: bool, w: World, w': World)
    requires Step(spec, deletions, w, w')
    ensures w'.jobs == w.jobs || Created(spec, w, w') || Environment(spec, deletions, w, w')
  {
    if resp :| Called(spec, w, resp, w') {
      var req := ReconcileRequest(FlowKey(spec), w.controller.pc);
      if req.CreateJob? {
        var job := req.created;
        assert job.key == JobKey(w.controller.pc.jf, w.controller.pc.jf.flows[w.controller.pc.pc.flow].name);
      }
    }
  }

  /** The controller works on the version it read, and that version had not failed. */
  ghost predicate ReadInv(spec: JobFlowValue, w: World) {
    && Bounds(w)
    && (w.controller.Busy? ==>
          && ValidReconcilePc(w.controller.pc) && !w.controller.pc.Finished?
          && (w.controller.pc.ReadJobFlow? ||
                var v := w.controller.version;
                && v <= w.flowSeen && w.flow[v].Stored? && w.flow[v].status.state != FAILED
                && InHand(w.controller.pc) == Some(At(spec, w.flow[v]))))
  }

  lemma InHandStays(key: Key, pc: ReconcilePc, resp: Response)
    requires ValidReconcilePc(pc) && !pc.Finished? && !pc.ReadJobFlow? && Fits(ReconcileRequest(key, pc), resp)
    ensures !ReconcileNext(key, pc, resp).Finished? ==> InHand(ReconcileNext(key, pc, resp)) == InHand(pc)
    ensures !ReconcileNext(key, pc, resp).ReadJobFlow?
  {
  }

  lemma InHandRead(key: Key, resp: Response)
    requires Fits(ReconcileRequest(key, ReadJobFlow), resp)
    ensures var pc := ReconcileNext(key, ReadJobFlow, resp);
            !pc.Finished? ==> resp.JobFlowFound? && resp.jf.status.state != FAILED && InHand(pc) == Some(resp.jf)
    ensures !ReconcileNext(key, ReadJobFlow, resp).ReadJobFlow?
  {
  }

  lemma ReadInvStep(spec: JobFlowValue, deletions: bool, w: World, w': World)
    requires ReadInv(spec, w) && Step(spec, deletions, w, w')
    ensures ReadInv(spec, w')
  {
    StepGrows(spec, deletions, w, w');
    if resp :| Called(spec, w, resp, w') {
      hide ReconcileNext;
      if w.controller.pc.ReadJobFlow? {
        InHandRead(FlowKey(spec), resp);
      } else {
        InHandStays(FlowKey(spec), w.controller.pc, resp);
      }
    }
  }

  lemma {:induction false} ReadInvAlways(spec: JobFlowValue, deletions: bool, ws: seq<World>, i: nat)
    requires Run(spec, deletions, ws) && i < |ws|
    ensures ReadInv(spec, ws[i])
  {
    if i > 0 {
      ReadInvAlways(spec, deletions, ws, i - 1);
      assert Step(spec, deletions, ws[i - 1], ws[i - 1 + 1]);
      ReadInvStep(spec, deletions, ws[i - 1], ws[i]);
    }
  }

  // ---- flows that can never start ----

  /** The flow depends, directly or not, on a name nobody declares or on a dependency cycle, or is on one itself. */
  ghost predicate Impossible(spec: JobFlowValue, name: string) {
    exists p :: Chain(spec, p) && p[0] == name &&
      (!Declared(spec, p[|p| - 1]) || exists i, j :: 0 <= i < j < |p| && p[i] == p[j])
  }

  lemma ImpossibleDependency(spec: JobFlowValue, name: string) returns (d: string)
    requires Declared(spec, name) && Impossible(spec, name)
    ensures DependsOn(spec, name, d) && Impossible(spec, d)
  {
    var p :| Chain(spec, p) && p[0] == name &&
      (!Declared(spec, p[|p| - 1]) || exists i, j :: 0 <= i < j < |p| && p[i] == p[j]);
    assert |p| > 1;
    d := p[1];
    ChainTail(spec, p);
    if Declared(spec, p[|p| - 1]) {
      var i, j :| 0 <= i < j < |p| && p[i] == p[j];
      var lap := Lap(spec, p, i, j);
    } else {
      assert p[1..][|p[1..]| - 1] == p[|p| - 1];
    }
  }

  ghost predicate NeverStarted(spec: JobFlowValue, jobs: Jobs) {
    forall name :: Mentioned(spec, name) && Impossible(spec, name) ==> JobKey(spec, name) !in jobs
  }

  /** Dependencies counted as met so far are possible flows. */
  ghost predicate CountedPossible(spec: JobFlowValue, pc: Pc)
    requires ValidPc(spec, pc)
  {
    match pc
    case CheckDependency(n, _, j, met) => met ==> forall m :: 0 <= m < j ==> !Impossible(spec, spec.flows[n].dependencies[m])
    case Create(n, _) => forall m :: 0 <= m < |spec.flows[n].dependencies| ==> !Impossible(spec, spec.flows[n].dependencies[m])
    case _ => true
  }

  ghost predicate PossibleInv(spec: JobFlowValue, w: World) {
    && ReadInv(spec, w)
    && (forall i :: 0 <= i < |w.jobs| ==> NeverStarted(spec, w.jobs[i]))
    && (w.controller.Busy? && w.controller.pc.Deploying? ==> CountedPossible(spec, w.controller.pc.pc))
  }

  lemma CountedPossibleNext(spec: JobFlowValue, jf: JobFlowValue, pc: Pc, resp: Response)
    requires SameSpec(spec, jf) && ValidPc(jf, pc) && !pc.Returned? && Fits(RequestOf(jf, pc), resp)
    requires CountedPossible(spec, pc)
    requires pc.CheckDependency? && resp.JobFound? ==> !Impossible(spec, spec.flows[pc.flow].dependencies[pc.dependency])
    ensures CountedPossible(spec, Next(jf, pc, resp))
  {
    hide Impossible, RenderJob;
  }

  /** Whatever has been seen in the cache is possible, and only flows whose dependencies were seen are created. */
  lemma PossibleInvStep(spec: JobFlowValue, deletions: bool, w: World, w': World)
    requires DistinctNames(spec) && PossibleInv(spec, w) && Step(spec, deletions, w, w')
    ensures PossibleInv(spec, w')
  {
    StepGrows(spec, deletions, w, w');
    ReadInvStep(spec, deletions, w, w');
    JobsGrow(spec, deletions, w, w');
    PossibleJobs(spec, deletions, w, w');
    hide ReadInv, NeverStarted, CountedPossible, Served, ReconcileNext, Fits;
    if resp :| Called(spec, w, resp, w') {
      PossibleCall(spec, w, resp, w');
    }
  }

  /** An impossible flow has an impossible dependency. */
  lemma ImpossibleBlocks(spec: JobFlowValue, n: nat)
    requires DistinctNames(spec) && n < |spec.flows| && Impossible(spec, spec.flows[n].name)
    ensures exists m :: 0 <= m < |spec.flows[n].dependencies| && Impossible(spec, spec.flows[n].dependencies[m])
  {
    var d := ImpossibleDependency(spec, spec.flows[n].name);
    hide Impossible;
    var i :| 0 <= i < |spec.flows| && spec.flows[i].name == spec.flows[n].name && d in spec.flows[i].dependencies;
    assert i == n;
  }

  lemma PossibleJobs(spec: JobFlowValue, deletions: bool, w: World, w': World)
    requires DistinctNames(spec) && PossibleInv(spec, w) && Bounds(w')
    requires w'.jobs == w.jobs || Created(spec, w, w') || Environment(spec, deletions, w, w')
    ensures forall i :: 0 <= i < |w'.jobs| ==> NeverStarted(spec, w'.jobs[i])
  {
    hide Impossible, RenderJob;
    if w'.jobs != w.jobs {
      forall name | Mentioned(spec, name) && Impossible(spec, name)
        ensures JobKey(spec, name) !in Now(w')
      {
        assert NeverStarted(spec, Now(w));
        assert MentionedKey(spec, JobKey(spec, name));
        if Created(spec, w, w') {
          var n := w.controller.pc.pc.flow;
          JobKeyInjective(spec, name, spec.flows[n].name);
          if Impossible(spec, spec.flows[n].name) {
            ImpossibleBlocks(spec, n);
          }
        }
      }
    }
  }

  lemma PossibleCall(spec: JobFlowValue, w: World, resp: Response, w': World)
    requires PossibleInv(spec, w) && Called(spec, w, resp, w') && ReadInv(spec, w')
    ensures w'.controller.Busy? && w'.controller.pc.Deploying? ==> CountedPossible(spec, w'.controller.pc.pc)
  {
    hide Impossible, RenderJob;
    var rpc := w.controller.pc;
    if rpc.Deploying? {
      var jf, pc := rpc.jf, rpc.pc;
      if pc.CheckDependency? && resp.JobFound? {
        var d := spec.flows[pc.flow].dependencies[pc.dependency];
        FlowMentioned(spec, pc.flow);
        assert DependsOn(spec, spec.flows[pc.flow].name, d);
        assert NeverStarted(spec, w.jobs[w.seen]);
      }
      CountedPossibleNext(spec, jf, pc, resp);
    }
  }

  lemma {:induction false} PossibleAlways(spec: JobFlowValue, deletions: bool, ws: seq<World>, i: nat)
    requires DistinctNames(spec) && Run(spec, deletions, ws) && i < |ws|
    ensures PossibleInv(spec, ws[i])
  {
    hide PossibleInv, Step, Init;
    if i > 0 {
      PossibleAlways(spec, deletions, ws, i - 1);
      assert Step(spec, deletions, ws[i - 1], ws[i - 1 + 1]);
      PossibleInvStep(spec, deletions, ws[i - 1], ws[i]);
    } else {
      PossibleAtStart(spec, ws[0]);
    }
  }

  lemma PossibleAtStart(spec: JobFlowValue, w: World)
    requires Init(spec, w)
    ensures PossibleInv(spec, w)
  {
    hide Impossible;
    assert forall name :: Mentioned(spec, name) ==> MentionedKey(spec, JobKey(spec, name));
  }

  /** In every run, with stale reads and even with Jobs being deleted, an impossible flow never has a Job. */
  lemma ImpossibleNeverStarts(spec: JobFlowValue, deletions: bool, ws: seq<World>, i: nat, h: nat, name: string)
    requires DistinctNames(spec) && Run(spec, deletions, ws) && i < |ws| && h < |ws[i].jobs|
    requires Mentioned(spec, name) && Impossible(spec, name)
    ensures JobKey(spec, name) !in ws[i].jobs[h]
  {
    PossibleAlways(spec, deletions, ws, i);
    assert NeverStarted(spec, ws[i].jobs[h]);
  }

  // ---- dependency safety, without deletions ----

  /** From one moment to a later one: Jobs under the names stay and their statuses advance. */
  ghost predicate Later(spec: JobFlowValue, before: Jobs, after: Jobs) {
    forall k :: MentionedKey(spec, k) && k in before ==> k in after && Advances(before[k].status, after[k].status)
  }

  ghost predicate Orderly(spec: JobFlowValue, history: seq<Jobs>) {
    forall i, j :: 0 <= i <= j < |history| ==> Later(spec, history[i], history[j])
  }

  /** Every dependency of every flow that has a Job has succeeded. */
  ghost predicate Ordered(spec: JobFlowValue, jobs: Jobs) {
    forall n :: 0 <= n < |spec.flows| && JobKey(spec, spec.flows[n].name) in jobs ==>
      DependenciesDone(spec, jobs, n)
  }

  ghost predicate DependenciesDone(spec: JobFlowValue, jobs: Jobs, n: nat)
    requires n < |spec.flows|
  {
    forall d :: d in spec.flows[n].dependencies ==> HasSucceeded(jobs, JobKey(spec, d))
  }

  /** The Job of flow n as the controller renders it: once, from the flow's own template or the one it refers to. */
  ghost predicate IsRendered(spec: JobFlowValue, templates: map<Key, SpecValue>, n: nat, job: JobValue)
    requires n < |spec.flows|
  {
    var base := BaseOf(spec, spec.flows[n], templates);
    base.Some? && job.(status := NO_STATUS) == RenderJob(spec, spec.flows[n], base.value)
  }

  predicate BaseFor(spec: JobFlowValue, templates: map<Key, SpecValue>, n: nat, base: SpecValue)
    requires n < |spec.flows|
  {
    BaseOf(spec, spec.flows[n], templates) == Some(base)
  }

  /** All Jobs under the names are this JobFlow's own, one for each flow at most. */
  ghost predicate Proper(spec: JobFlowValue, templates: map<Key, SpecValue>, jobs: Jobs) {
    && WellOwned(spec, jobs)
    && (forall k :: k in jobs && MentionedKey(spec, k) ==> IsFlowKey(spec, k))
    && (forall n :: 0 <= n < |spec.flows| && JobKey(spec, spec.flows[n].name) in jobs ==>
          IsRendered(spec, templates, n, jobs[JobKey(spec, spec.flows[n].name)]))
  }

  /** Dependencies counted as met so far have succeeded by now. */
  ghost predicate CountedDone(spec: JobFlowValue, templates: map<Key, SpecValue>, now: Jobs, pc: Pc)
    requires ValidPc(spec, pc)
  {
    match pc
    case FetchTemplate(_) => true
    case Lookup(n, base) => BaseFor(spec, templates, n, base)
    case CheckDependency(n, base, j, met) =>
      BaseFor(spec, templates, n, base) &&
      (met ==> forall m :: 0 <= m < j ==> HasSucceeded(now, JobKey(spec, spec.flows[n].dependencies[m])))
    case Create(n, base) => BaseFor(spec, templates, n, base) && DependenciesDone(spec, now, n)
    case Returned(_) => true
  }

  ghost predicate SafeInv(spec: JobFlowValue, w: World) {
    && ReadInv(spec, w)
    && Orderly(spec, w.jobs)
    && (forall i :: 0 <= i < |w.jobs| ==> Ordered(spec, w.jobs[i]))
    && (forall i :: 0 <= i < |w.jobs| ==> Proper(spec, w.templates, w.jobs[i]))
    && (w.controller.Busy? && w.controller.pc.Deploying? ==> CountedDone(spec, w.templates, Now(w), w.controller.pc.pc))
  }

  lemma LaterKeepsSuccess(spec: JobFlowValue, before: Jobs, after: Jobs, n: nat)
    requires Later(spec, before, after) && n < |spec.flows|
    ensures forall d :: d in spec.flows[n].dependencies && HasSucceeded(before, JobKey(spec, d)) ==> HasSucceeded(after, JobKey(spec, d))
  {
    FlowMentioned(spec, n);
  }

  lemma LaterTransitive(spec: JobFlowValue, a: Jobs, b: Jobs, c: Jobs)
    requires Later(spec, a, b) && Later(spec, b, c)
    ensures Later(spec, a, c)
  {
    hide MentionedKey;
  }

  lemma OrderlyAppend(spec: JobFlowValue, history: seq<Jobs>, next: Jobs)
    requires |history| > 0 && Orderly(spec, history) && Later(spec, history[|history| - 1], next) && Later(spec, next, next)
    ensures Orderly(spec, history + [next])
  {
    hide Later;
    var all := history + [next];
    forall i, j | 0 <= i <= j < |all|
      ensures Later(spec, all[i], all[j])
    {
      if i < |history| == j {
        LaterTransitive(spec, history[i], history[|history| - 1], next);
      }
    }
  }

  lemma MovedIsSafe(spec: JobFlowValue, templates: map<Key, SpecValue>, before: Jobs, after: Jobs)
    requires Moved(spec, false, before, after) && Ordered(spec, before) && Proper(spec, templates, before)
    ensures Later(spec, before, after) && Later(spec, after, after) && Ordered(spec, after)
    ensures Proper(spec, templates, after)
  {
    hide MentionedKey, IsFlowKey, Matches, IsRendered;
    forall n | 0 <= n < |spec.flows| && JobKey(spec, spec.flows[n].name) in after
      ensures DependenciesDone(spec, after, n)
      ensures IsRendered(spec, templates, n, after[JobKey(spec, spec.flows[n].name)])
    {
      var k := JobKey(spec, spec.flows[n].name);
      FlowMentioned(spec, n);
      LaterKeepsSuccess(spec, before, after, n);
      assert DependenciesDone(spec, before, n) && IsRendered(spec, templates, n, before[k]);
      RenderedStays(spec, templates, n, before[k], after[k]);
    }
    forall k | k in after
      ensures Matches(after[k].owners, KIND, spec.name) == if IsFlowKey(spec, k) then 1 else 0
    {
      if IsFlowKey(spec, k) {
        FlowKeyMentioned(spec, k);
      }
    }
  }

  lemma RenderedStays(spec: JobFlowValue, templates: map<Key, SpecValue>, n: nat, job: JobValue, job': JobValue)
    requires n < |spec.flows| && IsRendered(spec, templates, n, job) && job' == job.(status := job'.status)
    ensures IsRendered(spec, templates, n, job')
  {
    hide RenderJob;
    assert job'.(status := NO_STATUS) == job.(status := NO_STATUS);
  }

  lemma RenderedNew(spec: JobFlowValue, templates: map<Key, SpecValue>, jf: JobFlowValue, n: nat, base: SpecValue)
    requires SameSpec(spec, jf) && WellFormed(spec) && n < |spec.flows| && BaseFor(spec, templates, n, base)
    ensures var job := RenderJob(jf, jf.flows[n], base);
            && job.key == JobKey(spec, spec.flows[n].name) && job.status == NO_STATUS
            && job == RenderJob(spec, spec.flows[n], base) && IsRendered(spec, templates, n, job)
            && Matches(job.owners, KIND, spec.name) == 1
  {
    RenderDependsOn(jf, jf.flows[n], spec, spec.flows[n], base);
    SoleOwner(OwnerReference(jf.apiVersion, jf.kind, jf.name, jf.uid), KIND, spec.name);
  }

  lemma CreatedIsSafe(spec: JobFlowValue, templates: map<Key, SpecValue>, jf: JobFlowValue, n: nat, base: SpecValue, now: Jobs)
    requires DistinctNames(spec) && SameSpec(spec, jf) && WellFormed(spec) && n < |spec.flows|
    requires CountedDone(spec, templates, now, Create(n, base)) && ValidPc(spec, Create(n, base))
    requires JobKey(jf, jf.flows[n].name) !in now
    requires Ordered(spec, now) && Proper(spec, templates, now) && Later(spec, now, now)
    ensures var after := now[JobKey(jf, jf.flows[n].name) := RenderJob(jf, jf.flows[n], base)];
            Later(spec, now, after) && Later(spec, after, after) && Ordered(spec, after) && Proper(spec, templates, after)
  {
    RenderedNew(spec, templates, jf, n, base);
    var k, job := JobKey(jf, jf.flows[n].name), RenderJob(jf, jf.flows[n], base);
    var after := now[k := job];
    assert k == JobKey(spec, spec.flows[n].name);
    hide MentionedKey, Matches, IsRendered, RenderJob;
    assert IsFlowKey(spec, k);
    forall m | 0 <= m < |spec.flows| && JobKey(spec, spec.flows[m].name) in after
      ensures DependenciesDone(spec, after, m)
      ensures IsRendered(spec, templates, m, after[JobKey(spec, spec.flows[m].name)])
    {
      JobKeyInjective(spec, spec.flows[m].name, spec.flows[n].name);
      LaterKeepsSuccess(spec, now, after, m);
    }
  }

  lemma SafeJobs(spec: JobFlowValue, w: World, w': World)
    requires DistinctNames(spec) && WellFormed(spec) && SafeInv(spec, w) && Bounds(w')
    requires w'.jobs == w.jobs || Created(spec, w, w') || Environment(spec, false, w, w')
    ensures Orderly(spec, w'.jobs) && Later(spec, Now(w), Now(w'))
    ensures forall i :: 0 <= i < |w'.jobs| ==> Ordered(spec, w'.jobs[i])
    ensures forall i :: 0 <= i < |w'.jobs| ==> Proper(spec, w.templates, w'.jobs[i])
  {
    hide Later, Ordered, Proper, RenderJob, CountedDone;
    assert Later(spec, Now(w), Now(w));
    assert Ordered(spec, Now(w)) && Proper(spec, w.templates, Now(w));
    if w'.jobs != w.jobs {
      var next := Now(w');
      assert w'.jobs == w.jobs + [next];
      if Created(spec, w, w') {
        var jf, n, base := w.controller.pc.jf, w.controller.pc.pc.flow, w.controller.pc.pc.base;
        assert w.controller.pc.pc == Create(n, base);
        CreatedIsSafe(spec, w.templates, jf, n, base, Now(w));
      } else {
        MovedIsSafe(spec, w.templates, Now(w), next);
      }
      OrderlyAppend(spec, w.jobs, next);
    }
  }

  lemma CountedDoneStays(spec: JobFlowValue, templates: map<Key, SpecValue>, before: Jobs, after: Jobs, pc: Pc)
    requires ValidPc(spec, pc) && CountedDone(spec, templates, before, pc) && Later(spec, before, after)
    ensures CountedDone(spec, templates, after, pc)
  {
    if pc.CheckDependency? || pc.Create? {
      LaterKeepsSuccess(spec, before, after, pc.flow);
    }
  }

  lemma CountedDoneNext(spec: JobFlowValue, templates: map<Key, SpecValue>, jf: JobFlowValue, now: Jobs, pc: Pc, resp: Response)
    requires SameSpec(spec, jf) && ValidPc(jf, pc) && !pc.Returned? && Fits(RequestOf(jf, pc), resp)
    requires CountedDone(spec, templates, now, pc)
    requires pc.CheckDependency? && resp.JobFound? && resp.job.status.succeeded == 1 ==>
               HasSucceeded(now, JobKey(spec, spec.flows[pc.flow].dependencies[pc.dependency]))
    requires pc.FetchTemplate? && resp.TemplateFound? ==> BaseFor(spec, templates, pc.flow, resp.spec)
    ensures CountedDone(spec, templates, now, Next(jf, pc, resp))
  {
    hide RenderJob;
  }

  lemma SafeCall(spec: JobFlowValue, w: World, resp: Response, w': World)
    requires SafeInv(spec, w) && Called(spec, w, resp, w') && ReadInv(spec, w') && Later(spec, Now(w), Now(w'))
    ensures w'.controller.Busy? && w'.controller.pc.Deploying? ==> CountedDone(spec, w.templates, Now(w'), w'.controller.pc.pc)
  {
    hide RenderJob, Ordered, Proper;
    var rpc := w.controller.pc;
    if rpc.Deploying? {
      var jf, pc := rpc.jf, rpc.pc;
      if pc.CheckDependency? && resp.JobFound? && resp.job.status.succeeded == 1 {
        var d := spec.flows[pc.flow].dependencies[pc.dependency];
        FlowMentioned(spec, pc.flow);
        assert Later(spec, w.jobs[w.seen], Now(w));
      }
      CountedDoneNext(spec, w.templates, jf, Now(w), pc, resp);
      CountedDoneStays(spec, w.templates, Now(w), Now(w'), Next(jf, pc, resp));
    }
  }

  lemma SafeInvStep(spec: JobFlowValue, w: World, w': World)
    requires DistinctNames(spec) && WellFormed(spec) && SafeInv(spec, w) && Step(spec, false, w, w')
    ensures SafeInv(spec, w')
  {
    StepGrows(spec, false, w, w');
    ReadInvStep(spec, false, w, w');
    JobsGrow(spec, false, w, w');
    SafeJobs(spec, w, w');
    hide Later, Ordered, Proper, Orderly, CountedDone;
    if resp :| Called(spec, w, resp, w') {
      SafeCall(spec, w, resp, w');
    } else if w'.controller.Busy? && w'.controller.pc.Deploying? {
      CountedDoneStays(spec, w.templates, Now(w), Now(w'), w'.controller.pc.pc);
    }
  }

  lemma SafeAtStart(spec: JobFlowValue, w: World)
    requires Init(spec, w)
    ensures SafeInv(spec, w)
  {
    var jobs := w.jobs[0];
    forall n | 0 <= n < |spec.flows|
      ensures JobKey(spec, spec.flows[n].name) !in jobs
    {
      FlowMentioned(spec, n);
    }
  }

  lemma {:induction false} SafeAlways(spec: JobFlowValue, ws: seq<World>, i: nat)
    requires DistinctNames(spec) && WellFormed(spec) && Run(spec, false, ws) && i < |ws|
    ensures SafeInv(spec, ws[i])
  {
    hide SafeInv, Step, Init;
    if i > 0 {
      SafeAlways(spec, ws, i - 1);
      assert Step(spec, false, ws[i - 1], ws[i - 1 + 1]);
      SafeInvStep(spec, ws[i - 1], ws[i]);
    } else {
      SafeAtStart(spec, ws[0]);
    }
  }

  /** Along a dependency chain from a flow that has a Job, everything has succeeded. */
  lemma {:induction false} TransitiveDone(spec: JobFlowValue, jobs: Jobs, p: seq<string>)
    requires Ordered(spec, jobs) && Chain(spec, p) && |p| > 1 && JobKey(spec, p[0]) in jobs
    ensures HasSucceeded(jobs, JobKey(spec, p[|p| - 1]))
  {
    ChainTail(spec, p);
    var n :| 0 <= n < |spec.flows| && spec.flows[n].name == p[0] && p[1] in spec.flows[n].dependencies;
    assert DependenciesDone(spec, jobs, n);
    if |p| > 2 {
      TransitiveDone(spec, jobs, p[1..]);
    }
  }

  /** At the moment a flow's Job is created, every transitive dependency already has a Job that succeeded. */
  lemma DependencySafety(spec: JobFlowValue, ws: seq<World>, i: nat, p: seq<string>)
    requires DistinctNames(spec) && WellFormed(spec) && Run(spec, false, ws) && i + 1 < |ws|
    requires Bounds(ws[i]) && Bounds(ws[i + 1])
    requires Chain(spec, p) && |p| > 1
    requires JobKey(spec, p[0]) !in Now(ws[i]) && JobKey(spec, p[0]) in Now(ws[i + 1])
    ensures var k := Key(spec.namespace, spec.name + "-" + p[|p| - 1]);
            k in Now(ws[i]) && Now(ws[i])[k].status.succeeded == 1
  {
    var w, w' := ws[i], ws[i + 1];
    assert Step(spec, false, w, w');
    SafeAlways(spec, ws, i + 1);
    assert Ordered(spec, w'.jobs[|w'.jobs| - 1]);
    TransitiveDone(spec, Now(w'), p);
    ChainEndsMentioned(spec, p);
    hide Run, SafeInv, Chain, Called, StartOrCrash, Observe, DeleteFlow;
    JobsGrow(spec, false, w, w');
    assert Created(spec, w, w');
  }

  /** Later entries of the history are later in the run's own sense. */
  lemma NowIsLater(spec: JobFlowValue, ws: seq<World>, i: nat, j: nat)
    requires DistinctNames(spec) && WellFormed(spec) && Run(spec, false, ws) && i <= j < |ws|
    ensures Bounds(ws[i]) && Bounds(ws[j]) && Later(spec, Now(ws[i]), Now(ws[j]))
  {
    RunGrows(spec, false, ws, i, i);
    RunGrows(spec, false, ws, i, j);
    SafeAlways(spec, ws, j);
    assert Now(ws[i]) == ws[j].jobs[|ws[i].jobs| - 1];
  }

  /** Once a flow's Job has failed, no flow that depends on it, directly or not, has a Job before or after. */
  lemma FailureIsContained(spec: JobFlowValue, ws: seq<World>, i: nat, j: nat, p: seq<string>)
    requires DistinctNames(spec) && WellFormed(spec) && Run(spec, false, ws) && i < |ws| && j < |ws|
    requires Bounds(ws[i]) && Bounds(ws[j]) && Chain(spec, p) && |p| > 1
    requires HasFailed(Now(ws[i]), JobKey(spec, p[|p| - 1]))
    ensures JobKey(spec, p[0]) !in Now(ws[j])
  {
    if JobKey(spec, p[0]) in Now(ws[j]) {
      var m := if i <= j then j else i;
      NowIsLater(spec, ws, i, i);
      NowIsLater(spec, ws, i, m);
      NowIsLater(spec, ws, j, m);
      ChainEndsMentioned(spec, p);
      SafeAlways(spec, ws, m);
      var last := ws[m].jobs[|ws[m].jobs| - 1];
      assert Ordered(spec, last);
      TransitiveDone(spec, last, p);
    }
  }

  lemma ChainEndsMentioned(spec: JobFlowValue, p: seq<string>)
    requires Chain(spec, p) && |p| > 1
    ensures MentionedKey(spec, JobKey(spec, p[0])) && MentionedKey(spec, JobKey(spec, p[|p| - 1]))
  {
    assert DependsOn(spec, p[0], p[0 + 1]);
    assert DependsOn(spec, p[|p| - 2], p[|p| - 2 + 1]);
    assert Declared(spec, p[0]) && Mentioned(spec, p[0]);
    assert Mentioned(spec, p[|p| - 1]);
  }

  /** However many reconciles ran, every Job of a flow carries each container of its template, own mounts
      first and then, once, the shared ones. */
  lemma MountsSharedOnce(spec: JobFlowValue, ws: seq<World>, i: nat, n: nat, c: nat)
    requires DistinctNames(spec) && WellFormed(spec) && Run(spec, false, ws) && i < |ws| && n < |spec.flows|
    requires Bounds(ws[i]) && JobKey(spec, spec.flows[n].name) in Now(ws[i])
    requires c < |Now(ws[i])[JobKey(spec, spec.flows[n].name)].spec.containers|
    ensures var job, base := Now(ws[i])[JobKey(spec, spec.flows[n].name)], BaseOf(spec, spec.flows[n], ws[i].templates);
            && base.Some? && |job.spec.containers| == |base.value.containers|
            && Elements(job.spec.containers[c].volumeMounts) ==
               Elements(base.value.containers[c].volumeMounts) +
               if Shares(spec, spec.flows[n]) then spec.flows[n].shareVolumeMounts else []
  {
    SafeAlways(spec, ws, i);
    var job := Now(ws[i])[JobKey(spec, spec.flows[n].name)];
    assert Proper(spec, ws[i].templates, ws[i].jobs[|ws[i].jobs| - 1]);
    assert IsRendered(spec, ws[i].templates, n, job);
    var base := BaseOf(spec, spec.flows[n], ws[i].templates).value;
    assert job.spec == RenderSpec(spec, spec.flows[n], base);
    assert job.spec.containers[c] == RenderContainer(spec, spec.flows[n], base.containers[c]);
    var own := Elements(base.containers[c].volumeMounts);
    assert own + [] == own;
  }

  /** Every Job of a flow, at every moment of a run, has each of its fields as the JobFlow, the flow and its template ask. */
  lemma JobsAsAsked(spec: JobFlowValue, ws: seq<World>, i: nat, n: nat)
    requires DistinctNames(spec) && WellFormed(spec) && Run(spec, false, ws) && i < |ws| && n < |spec.flows|
    requires Bounds(ws[i]) && Key(spec.namespace, spec.name + "-" + spec.flows[n].name) in Now(ws[i])
    ensures var flow, k := spec.flows[n], Key(spec.namespace, spec.flows[n].jobTemplateRef);
            && (flow.jobTemplateRef != "" ==> k in ws[i].templates)
            && AsAsked(spec, flow, if flow.jobTemplateRef == "" then flow.jobTemplate else ws[i].templates[k],
                       Now(ws[i])[Key(spec.namespace, spec.name + "-" + flow.name)])
  {
    SafeAlways(spec, ws, i);
    var flow := spec.flows[n];
    var job := Now(ws[i])[JobKey(spec, flow.name)];
    assert Proper(spec, ws[i].templates, ws[i].jobs[|ws[i].jobs| - 1]);
    assert IsRendered(spec, ws[i].templates, n, job);
    var base := BaseOf(spec, flow, ws[i].templates).value;
    hide AsAsked;
    RenderedAsAsked(spec, flow, base, job);
  }

  /** An event of such a Job queues the JobFlow, and nothing else. */
  lemma EventsQueueTheJobFlow(spec: JobFlowValue, ws: seq<World>, i: nat, n: nat)
    requires DistinctNames(spec) && WellFormed(spec) && Run(spec, false, ws) && i < |ws| && n < |spec.flows|
    requires Bounds(ws[i]) && Key(spec.namespace, spec.name + "-" + spec.flows[n].name) in Now(ws[i])
    ensures OwnerKeys(Now(ws[i])[Key(spec.namespace, spec.name + "-" + spec.flows[n].name)]) == {Key(spec.namespace, spec.name)}
  {
    JobsAsAsked(spec, ws, i, n);
    var job := Now(ws[i])[Key(spec.namespace, spec.name + "-" + spec.flows[n].name)];
    assert job.owners[0] == OwnerReference("api.practice.com/v1alpha1", "JobFlow", spec.name, spec.uid) && |job.owners| == 1;
    hide AsAsked, Run;
    assert Key(job.key.namespace, job.owners[0].name) in OwnerKeys(job);
  }
}

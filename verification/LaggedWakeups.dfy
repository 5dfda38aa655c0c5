/**
 Work queue and events of one JobFlow whose Jobs are read from a cache that lags behind and
 takes up one entry of the history at a time.  An update or deletion of a Job is announced when
 the cache shows it, or later; the appearance of a Job is not announced (main.go:93-99).
 */
module LaggedWakeups {
  import opened Kube
  import opened JobFlows
  import opened Render
  import opened Machine
  import opened Deploy
  import opened Passes
  import opened PassByCalls
  import opened Reconciling
  import opened WorkQueue
  import Wakeups

  datatype Worker = Idle | Busy(pc: ReconcilePc, cut: bool)

  /** undelivered: an event is on its way.  stranded: the last reconcile ended early, with a flow left to start. */
  datatype World = World(
    jobs: seq<Jobs>,
    seen: nat,
    flow: Option<JobFlowValue>,
    undelivered: bool,
    queued: bool,
    worker: Worker,
    stranded: bool)

  predicate Bounds(w: World) {
    w.seen < |w.jobs|
  }

  function Now(w: World): Jobs
    requires Bounds(w)
  {
    w.jobs[|w.jobs| - 1]
  }

  function Cache(w: World): Jobs
    requires Bounds(w)
  {
    w.jobs[w.seen]
  }

  ghost predicate Init(spec: JobFlowValue, w: World) {
    && |w.jobs| == 1 && w.seen == 0 && w.flow == None && !w.undelivered && w.worker == Idle && !w.stranded
    && forall k :: MentionedKey(spec, k) ==> k !in w.jobs[0]
  }

  /** Job statuses advance; nobody else creates or deletes Jobs under the names. */
  ghost predicate Environment(spec: JobFlowValue, w: World, w': World)
    requires Bounds(w)
  {
    && |w'.jobs| == |w.jobs| + 1 && w' == w.(jobs := w.jobs + [w'.jobs[|w.jobs|]])
    && forall k :: MentionedKey(spec, k) ==>
         var before, after := Now(w), w'.jobs[|w.jobs|];
         && (k in after <==> k in before)
         && (k in after ==> after[k] == before[k].(status := after[k].status) && Advances(before[k].status, after[k].status))
  }

  /** Between these two entries some Job of the JobFlow was updated or deleted. */
  ghost predicate Announced(spec: JobFlowValue, before: Jobs, after: Jobs) {
    exists k :: k in before && FlowKey(spec) in OwnerKeys(before[k]) && (k !in after || after[k].status != before[k].status)
  }

  /** The cache takes up the next entry. */
  ghost predicate Observed(spec: JobFlowValue, w: World, w': World)
    requires Bounds(w)
  {
    && w.seen + 1 < |w.jobs|
    && w' == w.(seen := w.seen + 1, undelivered := w.undelivered || Announced(spec, Cache(w), w.jobs[w.seen + 1]))
  }

  ghost predicate Delivered(w: World, w': World) {
    w' == w.(undelivered := false, queued := w.queued || w.undelivered)
  }

  /** The JobFlow appears, is marked or goes away, which are events of its own; or a resync queues it. */
  ghost predicate FlowChanged(spec: JobFlowValue, w: World, w': World) {
    && w' == w.(flow := w'.flow, queued := true)
    && (w'.flow.Some? ==> SameSpec(spec, w'.flow.value))
  }

  ghost predicate Started(w: World, w': World) {
    w.queued && w.worker == Idle && w' == w.(queued := false, worker := Busy(ReadJobFlow, false))
  }

  /** The new controller process queues every JobFlow. */
  ghost predicate Restarted(w: World, w': World) {
    w' == w.(queued := true, worker := Idle)
  }

  ghost predicate Served(templates: map<Key, SpecValue>, w: World, resp: Response, w': World)
    requires Bounds(w) && w.worker.Busy? && ValidReconcilePc(w.worker.pc) && !w.worker.pc.Finished?
  {
    match w.worker.pc
    case ReadJobFlow =>
      && w'.jobs == w.jobs && w'.flow == w.flow
      && (resp.JobFlowFound? ==> w.flow == Some(resp.jf)) && (resp.NotFound? ==> w.flow == None)
    case Deploying(jf, p) => w'.flow == w.flow && PassServed(templates, w, RequestOf(jf, p), resp, w'.jobs)
    case Listing(_, _) => w'.jobs == w.jobs && w'.flow == w.flow && (resp.Listed? ==> IsListing(resp.items, Cache(w)))
    case Updating(jf, status) =>
      && w'.jobs == w.jobs
      && var written := Some(jf.(status := status));
         && (resp.Done? ==> w.flow == Some(jf) && w'.flow == written)
         && (resp.NotFound? ==> w.flow == None && w'.flow == w.flow)
         && (resp.Fault? ==> w'.flow == w.flow || (w.flow == Some(jf) && w'.flow == written))
  }

  /** Jobs are read from the cache and created at the server. */
  ghost predicate PassServed(templates: map<Key, SpecValue>, w: World, req: Request, resp: Response, jobs: seq<Jobs>)
    requires Bounds(w)
  {
    match req
    case GetTemplate(k) =>
      && jobs == w.jobs && (resp.TemplateFound? ==> k in templates && resp.spec == templates[k])
      && (resp.NotFound? ==> k !in templates)
    case GetJob(k) =>
      && jobs == w.jobs && (resp.JobFound? ==> k in Cache(w) && resp.job == Cache(w)[k])
      && (resp.NotFound? ==> k !in Cache(w))
    case CreateJob(job) =>
      var created := w.jobs + [Now(w)[job.key := job]];
      && (resp.Done? ==> job.key !in Now(w) && jobs == created)
      && (resp.AlreadyExists? ==> job.key in Now(w) && jobs == w.jobs)
      && (resp.Fault? ==> jobs == w.jobs || (job.key !in Now(w) && jobs == created))
    case _ => jobs == w.jobs
  }

  /** This answer ends the deploy part early: a BadRequest from the API, or AlreadyExists for a flow with dependencies. */
  predicate Cuts(pc: ReconcilePc, resp: Response)
    requires ValidReconcilePc(pc)
  {
    && pc.Deploying?
    && (resp == Fault(true) ||
        (pc.pc.Create? && resp.AlreadyExists? && pc.jf.flows[pc.pc.flow].dependencies != []))
  }

  ghost predicate Called(templates: map<Key, SpecValue>, spec: JobFlowValue, w: World, resp: Response, w': World)
    requires Bounds(w)
  {
    && w.worker.Busy? && ValidReconcilePc(w.worker.pc) && !w.worker.pc.Finished?
    && Fits(ReconcileRequest(FlowKey(spec), w.worker.pc), resp) && Served(templates, w, resp, w')
    && var next := ReconcileNext(FlowKey(spec), w.worker.pc, resp);
       var cut := w.worker.cut || Cuts(w.worker.pc, resp);
       && w'.seen == w.seen && w'.undelivered == w.undelivered
       && w'.worker == (if next.Finished? then Idle else Busy(next, cut))
       && w'.queued == (w.queued || (next.Finished? && next.requeue) || w'.flow != w.flow)
       && w'.stranded == (if next.Finished? then cut && SomeStartable(spec, templates, Known(spec, w')) else w.stranded)
  }

  ghost predicate Step(templates: map<Key, SpecValue>, spec: JobFlowValue, w: World, w': World) {
    && Bounds(w)
    && (|| Environment(spec, w, w') || Observed(spec, w, w') || Delivered(w, w') || FlowChanged(spec, w, w')
        || Started(w, w') || Restarted(w, w') || exists resp :: Called(templates, spec, w, resp, w'))
  }

  ghost predicate Run(templates: map<Key, SpecValue>, spec: JobFlowValue, ws: seq<World>) {
    && |ws| > 0 && Init(spec, ws[0])
    && forall i :: 0 <= i < |ws| - 1 ==> Step(templates, spec, ws[i], ws[i + 1])
  }

  // ---- what the cache shows, and what has been created since ----

  /** The Jobs of the JobFlow in the cache, and as new ones those that the server has besides. */
  ghost function Known(spec: JobFlowValue, w: World): Jobs
    requires Bounds(w)
  {
    KnownJobs(spec, Cache(w), Now(w))
  }

  ghost function KnownJobs(spec: JobFlowValue, cache: Jobs, now: Jobs): Jobs {
    map k | k in cache.Keys + now.Keys && MentionedKey(spec, k) ::
      if k in cache then cache[k] else now[k].(status := NO_STATUS)
  }

  /** A Job appears as it was created, and from then on it stays and its status advances. */
  ghost predicate NextEntry(spec: JobFlowValue, before: Jobs, after: Jobs) {
    forall k :: MentionedKey(spec, k) ==>
      && (k in before ==> k in after && after[k] == before[k].(status := after[k].status)
                          && Advances(before[k].status, after[k].status))
      && (k !in before && k in after ==> after[k].status == NO_STATUS)
  }

  ghost predicate Ours(spec: JobFlowValue, jobs: Jobs) {
    forall k :: k in jobs && MentionedKey(spec, k) ==>
      && jobs[k].key == k && jobs[k].owners == [OwnerReference(API_VERSION, KIND, spec.name, spec.uid)]
      && Exclusive(jobs[k].status)
  }

  ghost predicate HistoryInOrder(spec: JobFlowValue, w: World) {
    && Bounds(w)
    && (forall b :: 0 <= b < |w.jobs| - 1 ==> NextEntry(spec, w.jobs[b], w.jobs[b + 1]))
    && (forall b :: 0 <= b < |w.jobs| ==> Ours(spec, w.jobs[b]))
  }

  /** An entry of the history and a later one: Jobs stay, with statuses that have advanced. */
  lemma {:induction false} EntriesAdvance(spec: JobFlowValue, w: World, a: nat, b: nat, k: Key)
    requires HistoryInOrder(spec, w) && a <= b < |w.jobs| && MentionedKey(spec, k) && k in w.jobs[a]
    ensures k in w.jobs[b] && Advances(w.jobs[a][k].status, w.jobs[b][k].status)
    ensures HasSucceeded(w.jobs[a], k) ==> HasSucceeded(w.jobs[b], k)
    decreases b
  {
    hide MentionedKey;
    assert Ours(spec, w.jobs[a]);
    if a < b {
      EntriesAdvance(spec, w, a, b - 1, k);
      assert NextEntry(spec, w.jobs[b - 1], w.jobs[b - 1 + 1]);
    }
  }

  // ---- the invariant ----

  /** Dependencies counted as met have succeeded in the cache. */
  ghost predicate Counted(spec: JobFlowValue, cache: Jobs, pc: Pc)
    requires ValidPc(spec, pc)
  {
    match pc
    case CheckDependency(i, _, j, met) =>
      met ==> forall m :: 0 <= m < j ==> HasSucceeded(cache, JobKey(spec, spec.flows[i].dependencies[m]))
    case Create(i, _) => AllSucceeded(spec, cache, i)
    case _ => true
  }

  ghost predicate AllSucceeded(spec: JobFlowValue, cache: Jobs, n: int)
    requires 0 <= n < |spec.flows|
  {
    forall d :: d in spec.flows[n].dependencies ==> HasSucceeded(cache, JobKey(spec, d))
  }

  /** A flow with a Job at the server has dependencies that have succeeded in the cache. */
  ghost predicate Backed(spec: JobFlowValue, cache: Jobs, now: Jobs) {
    forall n :: 0 <= n < |spec.flows| && JobKey(spec, spec.flows[n].name) in now ==> AllSucceeded(spec, cache, n)
  }

  ghost predicate WorkerInOrder(spec: JobFlowValue, cache: Jobs, worker: Worker) {
    worker.Busy? ==>
      && ValidReconcilePc(worker.pc) && !worker.pc.Finished?
      && (InHand(worker.pc).Some? ==> SameSpec(spec, InHand(worker.pc).value) && InHand(worker.pc).value.status.state != FAILED)
      && (worker.cut ==> worker.pc.Listing? || worker.pc.Updating?)
      && (worker.pc.Deploying? ==> ValidPc(spec, worker.pc.pc) && Counted(spec, cache, worker.pc.pc))
  }

  /** What a pass knows at each of its calls, in terms of the Jobs it will not see change unannounced. */
  ghost predicate AtCall(spec: JobFlowValue, templates: map<Key, SpecValue>, known: Jobs, pc: Pc)
    requires ValidPc(spec, pc)
  {
    match pc
    case CheckDependency(i, base, j, met) =>
      && NoneReady(spec, known, i) && BaseOf(spec, spec.flows[i], templates) == Some(base)
      && Scanned(spec, known, spec.flows[i].dependencies, j, met)
    case Create(i, base) =>
      && NoneReady(spec, known, i) && BaseOf(spec, spec.flows[i], templates) == Some(base)
      && Met(spec, spec.flows[i].dependencies, known)
    case _ => AtPc(spec, templates, known, pc)
  }

  /** How far the reconcile has got of a JobFlow to which nothing has happened since it was read. */
  ghost predicate Working(spec: JobFlowValue, templates: map<Key, SpecValue>, known: Jobs, flow: Option<JobFlowValue>, pc: ReconcilePc, cut: bool)
    requires pc.Deploying? ==> ValidPc(spec, pc.pc)
  {
    && (InHand(pc).Some? ==> flow == InHand(pc))
    && (pc.Deploying? ==> AtCall(spec, templates, known, pc.pc))
    && ((pc.Listing? || pc.Updating?) && !cut ==> !SomeStartable(spec, templates, known))
  }

  ghost predicate Resting(spec: JobFlowValue, templates: map<Key, SpecValue>, known: Jobs, jf: JobFlowValue, stranded: bool) {
    if jf.status.state == FAILED then !stranded else SomeStartable(spec, templates, known) <==> stranded
  }

  ghost predicate Unqueued(templates: map<Key, SpecValue>, spec: JobFlowValue, w: World)
    requires Bounds(w) && WorkerInOrder(spec, Cache(w), w.worker)
  {
    if w.worker.Busy? then Working(spec, templates, Known(spec, w), w.flow, w.worker.pc, w.worker.cut)
    else w.flow.Some? ==> Resting(spec, templates, Known(spec, w), w.flow.value, w.stranded)
  }

  ghost predicate Inv(templates: map<Key, SpecValue>, spec: JobFlowValue, w: World) {
    && HistoryInOrder(spec, w)
    && Backed(spec, Cache(w), Now(w))
    && (w.flow.Some? ==> SameSpec(spec, w.flow.value))
    && WorkerInOrder(spec, Cache(w), w.worker)
    && (!w.queued && !w.undelivered ==> Unqueued(templates, spec, w))
  }

  // ---- steps the pass does not notice ----

  lemma AtCallStays(spec: JobFlowValue, templates: map<Key, SpecValue>, known: Jobs, known': Jobs, pc: Pc)
    requires ValidPc(spec, pc) && SameToPass(spec, known, known') && AtCall(spec, templates, known, pc)
    ensures AtCall(spec, templates, known', pc)
  {
    forall n | 0 <= n < |spec.flows|
      ensures Ready(spec, n, known') <==> Ready(spec, n, known)
    {
      Wakeups.ReadyAgrees(spec, known, known', n);
    }
    hide Ready, SameToPass, AtPc, Scanned;
    match pc
    case CheckDependency(i, _, j, met) =>
      Wakeups.ReadyAgrees(spec, known, known', i);
      Wakeups.ScannedAgrees(spec, known, known', spec.flows[i].dependencies, j, met);
    case Create(i, _) => Wakeups.ReadyAgrees(spec, known, known', i);
    case _ => Wakeups.AtPcStays(spec, templates, known, known', pc);
  }

  lemma UnqueuedStays(templates: map<Key, SpecValue>, spec: JobFlowValue, w: World, w': World)
    requires Bounds(w) && Bounds(w') && WorkerInOrder(spec, Cache(w), w.worker) && WorkerInOrder(spec, Cache(w'), w'.worker)
    requires w'.worker == w.worker && w'.flow == w.flow && w'.stranded == w.stranded
    requires SameToPass(spec, Known(spec, w), Known(spec, w')) && Unqueued(templates, spec, w)
    ensures Unqueued(templates, spec, w')
  {
    assert SameSpec(spec, spec);
    hide SameToPass, SomeStartable, AtCall, Known;
    StartableAgrees(spec, spec, templates, Known(spec, w), Known(spec, w'));
    if w.worker.Busy? && w.worker.pc.Deploying? {
      AtCallStays(spec, templates, Known(spec, w), Known(spec, w'), w.worker.pc.pc);
    }
  }

  /** An entry is added to the history. */
  lemma HistoryGrows(spec: JobFlowValue, w: World, w': World, next: Jobs)
    requires HistoryInOrder(spec, w) && w'.jobs == w.jobs + [next] && w'.seen == w.seen
    requires NextEntry(spec, Now(w), next) && Ours(spec, next)
    ensures HistoryInOrder(spec, w') && Now(w') == next && Cache(w') == Cache(w)
  {
    hide NextEntry, Ours;
    forall b | 0 <= b < |w'.jobs| - 1
      ensures NextEntry(spec, w'.jobs[b], w'.jobs[b + 1])
    {
      if b < |w.jobs| - 1 {
        assert NextEntry(spec, w.jobs[b], w.jobs[b + 1]);
      }
    }
  }

  lemma EnvironmentKnown(spec: JobFlowValue, w: World, w': World)
    requires HistoryInOrder(spec, w) && Environment(spec, w, w')
    ensures HistoryInOrder(spec, w') && Now(w') == w'.jobs[|w.jobs|] && Cache(w') == Cache(w)
    ensures SameToPass(spec, Known(spec, w), Known(spec, w'))
    ensures forall n :: 0 <= n < |spec.flows| ==>
              (JobKey(spec, spec.flows[n].name) in Now(w') <==> JobKey(spec, spec.flows[n].name) in Now(w))
  {
    hide MentionedKey;
    assert Ours(spec, Now(w));
    HistoryGrows(spec, w, w', w'.jobs[|w.jobs|]);
    forall n | 0 <= n < |spec.flows|
      ensures MentionedKey(spec, JobKey(spec, spec.flows[n].name))
    {
      FlowMentioned(spec, n);
    }
  }

  lemma EnvironmentStep(templates: map<Key, SpecValue>, spec: JobFlowValue, w: World, w': World)
    requires Inv(templates, spec, w) && Environment(spec, w, w')
    ensures Inv(templates, spec, w')
  {
    assert Bounds(w) && Bounds(w');
    hide HistoryInOrder, Unqueued, WorkerInOrder, SameToPass, AllSucceeded, SameSpec, Known;
    EnvironmentKnown(spec, w, w');
    if !w'.queued && !w'.undelivered {
      UnqueuedStays(templates, spec, w, w');
    }
  }

  lemma OwnerKnown(spec: JobFlowValue, jobs: Jobs, k: Key)
    requires Ours(spec, jobs) && k in jobs && MentionedKey(spec, k)
    ensures FlowKey(spec) in OwnerKeys(jobs[k])
  {
    assert jobs[k].owners[0].kind == KIND && jobs[k].key.namespace == spec.namespace;
  }

  /** An entry that is not announced is a Job's appearance, which was known already. */
  lemma ObservedKnown(spec: JobFlowValue, w: World, w': World)
    requires HistoryInOrder(spec, w) && Observed(spec, w, w')
    ensures HistoryInOrder(spec, w') && Now(w') == Now(w)
    ensures !Announced(spec, Cache(w), Cache(w')) ==> SameToPass(spec, Known(spec, w), Known(spec, w'))
  {
    hide MentionedKey, OwnerKeys;
    var before, after := Cache(w), w.jobs[w.seen + 1];
    assert NextEntry(spec, w.jobs[w.seen], w.jobs[w.seen + 1]) && Ours(spec, before);
    if !Announced(spec, before, after) {
      forall k | MentionedKey(spec, k)
        ensures k in Known(spec, w) <==> k in Known(spec, w')
        ensures k in Known(spec, w) ==> Known(spec, w)[k].status == Known(spec, w')[k].status
      {
        if k in before {
          OwnerKnown(spec, before, k);
        } else if k in after {
          EntriesAdvance(spec, w, w.seen + 1, |w.jobs| - 1, k);
        }
      }
    }
  }

  /** Successes in the cache stay. */
  lemma CacheAdvances(spec: JobFlowValue, w: World, w': World)
    requires HistoryInOrder(spec, w) && Observed(spec, w, w')
    ensures Backed(spec, Cache(w), Now(w)) ==> Backed(spec, Cache(w'), Now(w))
    ensures WorkerInOrder(spec, Cache(w), w.worker) ==> WorkerInOrder(spec, Cache(w'), w.worker)
  {
    forall n, d | 0 <= n < |spec.flows| && d in spec.flows[n].dependencies && HasSucceeded(Cache(w), JobKey(spec, d))
      ensures HasSucceeded(Cache(w'), JobKey(spec, d))
    {
      FlowMentioned(spec, n);
      EntriesAdvance(spec, w, w.seen, w.seen + 1, JobKey(spec, d));
    }
    hide HistoryInOrder, HasSucceeded, Observed, SameSpec;
    assert forall n :: 0 <= n < |spec.flows| && AllSucceeded(spec, Cache(w), n) ==> AllSucceeded(spec, Cache(w'), n);
    if w.worker.Busy? && w.worker.pc.Deploying? && w.worker.pc.pc.CheckDependency? && WorkerInOrder(spec, Cache(w), w.worker) {
      var i, j := w.worker.pc.pc.flow, w.worker.pc.pc.dependency;
      assert forall m :: 0 <= m < j ==> spec.flows[i].dependencies[m] in spec.flows[i].dependencies;
    }
    hide AllSucceeded;
  }

  lemma ObservedStep(templates: map<Key, SpecValue>, spec: JobFlowValue, w: World, w': World)
    requires Inv(templates, spec, w) && Observed(spec, w, w')
    ensures Inv(templates, spec, w')
  {
    hide HistoryInOrder, Unqueued, WorkerInOrder, SameToPass, Backed, SameSpec, Known;
    ObservedKnown(spec, w, w');
    CacheAdvances(spec, w, w');
    if !w'.queued && !w'.undelivered {
      UnqueuedStays(templates, spec, w, w');
    }
  }

  lemma QueueStep(templates: map<Key, SpecValue>, spec: JobFlowValue, w: World, w': World)
    requires Inv(templates, spec, w)
    requires Delivered(w, w') || FlowChanged(spec, w, w') || Started(w, w') || Restarted(w, w')
    ensures Inv(templates, spec, w')
  {
    hide SomeStartable, AtCall, Counted, Backed, Ours, NextEntry;
    assert Known(spec, w') == Known(spec, w);
    hide Known;
  }

  // ---- the worker's calls ----

  /** The cache against what is known: what it lacks is new and has not done anything yet. */
  ghost predicate Shown(spec: JobFlowValue, cache: Jobs, known: Jobs) {
    forall k :: MentionedKey(spec, k) ==>
      if k in cache then k in known && known[k].status == cache[k].status && Exclusive(cache[k].status)
      else k in known ==> known[k].status == NO_STATUS
  }

  lemma KnownShows(spec: JobFlowValue, w: World)
    requires HistoryInOrder(spec, w) && Backed(spec, Cache(w), Now(w))
    ensures Shown(spec, Cache(w), Known(spec, w)) && Backed(spec, Cache(w), Known(spec, w))
    ensures forall k :: MentionedKey(spec, k) ==> (k in Known(spec, w) <==> k in Now(w))
  {
    hide MentionedKey, AllSucceeded;
    assert Ours(spec, w.jobs[w.seen]);
    forall k | MentionedKey(spec, k)
      ensures k in Known(spec, w) <==> k in Now(w)
    {
      if k in Cache(w) {
        EntriesAdvance(spec, w, w.seen, |w.jobs| - 1, k);
      }
    }
    forall n | 0 <= n < |spec.flows|
      ensures MentionedKey(spec, JobKey(spec, spec.flows[n].name))
    {
      FlowMentioned(spec, n);
    }
  }

  /** Answers from the cache and from the server, and what is known after them. */
  ghost predicate Answers(templates: map<Key, SpecValue>, cache: Jobs, known: Jobs, req: Request, resp: Response, known': Jobs) {
    match req
    case GetTemplate(k) =>
      && known' == known && (resp.TemplateFound? ==> k in templates && resp.spec == templates[k])
      && (resp.NotFound? ==> k !in templates)
    case GetJob(k) =>
      && known' == known && (resp.JobFound? ==> k in cache && resp.job == cache[k]) && (resp.NotFound? ==> k !in cache)
    case CreateJob(job) =>
      && (resp.Done? ==> job.key !in known && known' == known[job.key := job])
      && (resp.AlreadyExists? ==> job.key in known && known' == known)
    case _ => known' == known
  }

  lemma LookupNext(spec: JobFlowValue, templates: map<Key, SpecValue>, cache: Jobs, known: Jobs, pc: Pc, resp: Response)
    requires ValidPc(spec, pc) && pc.Lookup? && AtCall(spec, templates, known, pc) && Shown(spec, cache, known)
    requires Fits(RequestOf(spec, pc), resp) && Answers(templates, cache, known, RequestOf(spec, pc), resp, known)
    ensures AtCall(spec, templates, known, Next(spec, pc, resp))
  {
    FlowMentioned(spec, pc.flow);
    hide MentionedKey;
    if resp.JobFound? {
      NextFlow(spec, templates, known, pc.flow);
    }
  }

  /** A failed dependency ends the pass at a flow that has no Job, so no later flow is startable. */
  lemma BrokenHere(spec: JobFlowValue, templates: map<Key, SpecValue>, cache: Jobs, known: Jobs, i: nat, j: nat, met: bool)
    requires Shown(spec, cache, known) && Backed(spec, cache, known) && i < |spec.flows| && j < |spec.flows[i].dependencies|
    requires NoneReady(spec, known, i) && Scanned(spec, known, spec.flows[i].dependencies, j, met)
    requires HasFailed(cache, JobKey(spec, spec.flows[i].dependencies[j]))
    ensures !SomeStartable(spec, templates, known)
  {
    var dependencies := spec.flows[i].dependencies;
    FlowMentioned(spec, i);
    assert dependencies[j] in dependencies;
    hide MentionedKey, NoneReady, SomeStartable;
    assert JobKey(spec, spec.flows[i].name) !in known;
    assert Breaks(spec, dependencies, known, j);
    assert Halts(spec, templates, known, i);
    HaltedHere(spec, templates, known, i);
  }

  lemma CheckNext(spec: JobFlowValue, templates: map<Key, SpecValue>, cache: Jobs, known: Jobs, pc: Pc, resp: Response)
    requires ValidPc(spec, pc) && pc.CheckDependency? && AtCall(spec, templates, known, pc)
    requires Shown(spec, cache, known) && Backed(spec, cache, known)
    requires Fits(RequestOf(spec, pc), resp) && Answers(templates, cache, known, RequestOf(spec, pc), resp, known)
    ensures AtCall(spec, templates, known, Next(spec, pc, resp))
  {
    var i, j, dependencies := pc.flow, pc.dependency, spec.flows[pc.flow].dependencies;
    var d := JobKey(spec, dependencies[j]);
    FlowMentioned(spec, i);
    assert dependencies[j] in dependencies;
    hide MentionedKey, NoneReady, SomeStartable, BaseOf;
    if resp.NotFound? {
      assert !HasSucceeded(known, d);
      NextFlow(spec, templates, known, i);
    } else if resp.JobFound? && HasFailed(cache, d) {
      BrokenHere(spec, templates, cache, known, i, j, pc.met);
    } else if resp.JobFound? {
      ScanOn(spec, known, dependencies, j, pc.met);
      if j + 1 == |dependencies| {
        ScannedAll(spec, known, dependencies, pc.met && HasSucceeded(known, d));
        if !(pc.met && HasSucceeded(known, d)) {
          NextFlow(spec, templates, known, i);
        }
      }
    }
  }

  lemma CreateNext(spec: JobFlowValue, templates: map<Key, SpecValue>, cache: Jobs, known: Jobs, pc: Pc, resp: Response, known': Jobs)
    requires DistinctNames(spec) && ValidPc(spec, pc) && pc.Create? && AtCall(spec, templates, known, pc)
    requires Fits(RequestOf(spec, pc), resp) && Answers(templates, cache, known, RequestOf(spec, pc), resp, known')
    requires resp.AlreadyExists? ==> spec.flows[pc.flow].dependencies == []
    ensures AtCall(spec, templates, known', Next(spec, pc, resp))
  {
    if resp.Done? {
      CreatedReadiesNone(spec, known, pc.flow, pc.base);
      AtLoopHead(spec, templates, known', pc.flow + 1);
    } else if resp.AlreadyExists? {
      NextFlow(spec, templates, known, pc.flow);
    }
  }

  /** Every answer that does not cut the pass short takes it to where the next state says it is. */
  lemma AtCallNext(spec: JobFlowValue, templates: map<Key, SpecValue>, cache: Jobs, known: Jobs, pc: Pc, resp: Response, known': Jobs)
    requires DistinctNames(spec) && ValidPc(spec, pc) && !pc.Returned? && AtCall(spec, templates, known, pc)
    requires Shown(spec, cache, known) && Backed(spec, cache, known)
    requires Fits(RequestOf(spec, pc), resp) && Answers(templates, cache, known, RequestOf(spec, pc), resp, known')
    requires pc.Create? && resp.AlreadyExists? ==> spec.flows[pc.flow].dependencies == []
    requires !resp.Fault?
    ensures AtCall(spec, templates, known', Next(spec, pc, resp))
    ensures var p := Next(spec, pc, resp); p.Returned? ==> !p.outcome.Error? && !SomeStartable(spec, templates, known')
  {
    hide RenderJob, Ready, Shown, Backed, MentionedKey;
    match pc
    case FetchTemplate(i) =>
      if resp.NotFound? {
        HaltedHere(spec, templates, known, i);
      }
    case Lookup(_, _) => LookupNext(spec, templates, cache, known, pc, resp);
    case CheckDependency(_, _, _, _) => CheckNext(spec, templates, cache, known, pc, resp);
    case Create(_, _) => CreateNext(spec, templates, cache, known, pc, resp, known');
  }

  lemma CountedNext(spec: JobFlowValue, templates: map<Key, SpecValue>, cache: Jobs, pc: Pc, resp: Response)
    requires ValidPc(spec, pc) && !pc.Returned? && Counted(spec, cache, pc) && Fits(RequestOf(spec, pc), resp)
    requires RequestOf(spec, pc).GetJob? && resp.JobFound? ==>
               RequestOf(spec, pc).job in cache && resp.job == cache[RequestOf(spec, pc).job]
    ensures Counted(spec, cache, Next(spec, pc, resp))
  {
    hide RenderJob;
    if pc.CheckDependency? && resp.JobFound? {
      var dependencies, done := spec.flows[pc.flow].dependencies, resp.job.status.succeeded == 1;
      forall d | d in dependencies && pc.dependency + 1 == |dependencies| && pc.met && done
        ensures HasSucceeded(cache, JobKey(spec, d))
      {
        var m :| 0 <= m < |dependencies| && dependencies[m] == d;
      }
    }
  }

  /** The JobFlow in hand asks and goes on as any of the same spec. */
  lemma SameCalls(spec: JobFlowValue, jf: JobFlowValue, pc: Pc)
    requires SameSpec(spec, jf) && ValidPc(jf, pc) && !pc.Returned?
    ensures ValidPc(spec, pc) && RequestOf(spec, pc) == RequestOf(jf, pc)
    ensures forall resp :: Fits(RequestOf(jf, pc), resp) ==> Next(spec, pc, resp) == Next(jf, pc, resp)
  {
    if pc.Create? {
      RenderDependsOn(jf, jf.flows[pc.flow], spec, spec.flows[pc.flow], pc.base);
    }
    hide RenderJob;
  }

  /** What the deploy part's calls change: nothing, or one flow's Job is new at the server. */
  lemma DeployCall(templates: map<Key, SpecValue>, spec: JobFlowValue, w: World, resp: Response, w': World)
    requires Bounds(w) && Called(templates, spec, w, resp, w') && w.worker.pc.Deploying?
    ensures var jf, p := w.worker.pc.jf, w.worker.pc.pc;
            && Fits(RequestOf(jf, p), resp) && PassServed(templates, w, RequestOf(jf, p), resp, w'.jobs)
            && (w'.jobs == w.jobs || (p.Create? && NewJob(w, w', RenderJob(jf, jf.flows[p.flow], p.base))))
            && (resp.Done? ==> w'.jobs != w.jobs)
    ensures Bounds(w') && w'.flow == w.flow && w'.undelivered == w.undelivered && w'.seen == w.seen
    ensures var next := AfterDeploy(w.worker.pc.jf, Next(w.worker.pc.jf, w.worker.pc.pc, resp));
            && w'.worker == (if next.Finished? then Idle else Busy(next, w.worker.cut || Cuts(w.worker.pc, resp)))
            && w'.queued == (w.queued || next.Finished?)
  {
    hide RenderJob, Enter;
  }

  /** The server has this Job besides. */
  ghost predicate NewJob(w: World, w': World, job: JobValue)
    requires Bounds(w)
  {
    job.key !in Now(w) && w'.jobs == w.jobs + [Now(w)[job.key := job]]
  }

  lemma CreatedBacked(spec: JobFlowValue, cache: Jobs, now: Jobs, i: nat, job: JobValue)
    requires DistinctNames(spec) && i < |spec.flows| && Backed(spec, cache, now) && AllSucceeded(spec, cache, i)
    requires job.key == JobKey(spec, spec.flows[i].name)
    ensures Backed(spec, cache, now[job.key := job])
  {
    hide AllSucceeded, JobKey;
    forall n | 0 <= n < |spec.flows| && JobKey(spec, spec.flows[n].name) in now[job.key := job]
      ensures AllSucceeded(spec, cache, n)
    {
      JobKeyInjective(spec, spec.flows[n].name, spec.flows[i].name);
    }
  }

  lemma CreatedKnown(spec: JobFlowValue, cache: Jobs, now: Jobs, job: JobValue)
    requires MentionedKey(spec, job.key) && job.status == NO_STATUS && job.key !in cache
    ensures KnownJobs(spec, cache, now[job.key := job]) == KnownJobs(spec, cache, now)[job.key := job]
  {
    hide MentionedKey;
  }

  lemma CreatedEntry(spec: JobFlowValue, now: Jobs, job: JobValue)
    requires Ours(spec, now) && job.key !in now && job.status == NO_STATUS
    requires job.owners == [OwnerReference(API_VERSION, KIND, spec.name, spec.uid)]
    ensures NextEntry(spec, now, now[job.key := job]) && Ours(spec, now[job.key := job])
  {
    hide MentionedKey;
  }

  lemma Created(spec: JobFlowValue, w: World, w': World, i: nat, job: JobValue)
    requires DistinctNames(spec) && HistoryInOrder(spec, w) && Backed(spec, Cache(w), Now(w)) && w'.seen == w.seen
    requires i < |spec.flows| && AllSucceeded(spec, Cache(w), i) && NewJob(w, w', job)
    requires job.key == JobKey(spec, spec.flows[i].name) && job.status == NO_STATUS
    requires job.owners == [OwnerReference(API_VERSION, KIND, spec.name, spec.uid)]
    ensures HistoryInOrder(spec, w') && Backed(spec, Cache(w'), Now(w'))
    ensures job.key !in Known(spec, w) && Known(spec, w') == Known(spec, w)[job.key := job]
  {
    FlowMentioned(spec, i);
    assert Ours(spec, w.jobs[|w.jobs| - 1]);
    hide MentionedKey, AllSucceeded, JobKey, Ours, NextEntry;
    CreatedEntry(spec, Now(w), job);
    HistoryGrows(spec, w, w', Now(w)[job.key := job]);
    CreatedBacked(spec, Cache(w), Now(w), i, job);
    if job.key in Cache(w) {
      EntriesAdvance(spec, w, w.seen, |w.jobs| - 1, job.key);
    }
    CreatedKnown(spec, Cache(w), Now(w), job);
  }

  lemma DeployCreated(templates: map<Key, SpecValue>, spec: JobFlowValue, w: World, w': World)
    requires DistinctNames(spec) && WellFormed(spec) && Inv(templates, spec, w) && w'.seen == w.seen
    requires w.worker.Busy? && w.worker.pc.Deploying? && w.worker.pc.pc.Create?
    requires NewJob(w, w', RenderJob(w.worker.pc.jf, w.worker.pc.jf.flows[w.worker.pc.pc.flow], w.worker.pc.pc.base))
    ensures var job := RenderJob(w.worker.pc.jf, w.worker.pc.jf.flows[w.worker.pc.pc.flow], w.worker.pc.pc.base);
            && HistoryInOrder(spec, w') && Backed(spec, Cache(w'), Now(w')) && Cache(w') == Cache(w)
            && job.key !in Known(spec, w) && Known(spec, w') == Known(spec, w)[job.key := job]
  {
    var jf, p := w.worker.pc.jf, w.worker.pc.pc;
    var job := RenderJob(jf, jf.flows[p.flow], p.base);
    assert job.key == JobKey(spec, spec.flows[p.flow].name);
    hide RenderJob, HistoryInOrder, Backed, Known, Unqueued, AllSucceeded;
    Created(spec, w, w', p.flow, job);
  }

  lemma DeployKept(templates: map<Key, SpecValue>, spec: JobFlowValue, w: World, resp: Response, w': World)
    requires Inv(templates, spec, w) && w'.jobs == w.jobs && w'.seen == w.seen && !resp.Fault? && !resp.Done?
    requires w.worker.Busy? && w.worker.pc.Deploying?
    requires PassServed(templates, w, RequestOf(w.worker.pc.jf, w.worker.pc.pc), resp, w'.jobs)
    ensures Answers(templates, Cache(w), Known(spec, w), RequestOf(w.worker.pc.jf, w.worker.pc.pc), resp, Known(spec, w'))
  {
    KnownShows(spec, w);
    assert Known(spec, w') == Known(spec, w);
    var p := w.worker.pc.pc;
    if p.Create? {
      FlowMentioned(spec, p.flow);
      assert RequestOf(w.worker.pc.jf, p).created.key == JobKey(spec, spec.flows[p.flow].name);
    }
    hide RenderJob, HistoryInOrder, Backed, Known, MentionedKey, Unqueued;
  }

  /** The server's side of a call of the deploy part. */
  lemma DeployServed(templates: map<Key, SpecValue>, spec: JobFlowValue, w: World, resp: Response, w': World)
    requires DistinctNames(spec) && WellFormed(spec) && Inv(templates, spec, w)
    requires Called(templates, spec, w, resp, w') && w.worker.pc.Deploying?
    ensures HistoryInOrder(spec, w') && Backed(spec, Cache(w'), Now(w')) && Cache(w') == Cache(w)
    ensures !resp.Fault? ==>
              Answers(templates, Cache(w), Known(spec, w), RequestOf(w.worker.pc.jf, w.worker.pc.pc), resp, Known(spec, w'))
  {
    DeployCall(templates, spec, w, resp, w');
    hide Called, Next, Enter, Unqueued, RenderJob, Known, AllSucceeded, WorkerInOrder, KnownJobs, NextEntry, Ours;
    if w'.jobs != w.jobs {
      DeployCreated(templates, spec, w, w');
    } else if !resp.Fault? {
      DeployKept(templates, spec, w, resp, w');
    }
  }

  /** The worker after a call of the deploy part. */
  lemma DeployWorker(templates: map<Key, SpecValue>, spec: JobFlowValue, w: World, resp: Response, w': World)
    requires Inv(templates, spec, w) && Called(templates, spec, w, resp, w') && w.worker.pc.Deploying?
    ensures Bounds(w') && WorkerInOrder(spec, Cache(w), w'.worker)
  {
    var jf, p := w.worker.pc.jf, w.worker.pc.pc;
    assert SameSpec(spec, jf) && ValidPc(spec, p) && Counted(spec, Cache(w), p) && !w.worker.cut;
    DeployCall(templates, spec, w, resp, w');
    SameCalls(spec, jf, p);
    hide Called, RenderJob, HistoryInOrder, Backed, Unqueued, SameSpec, Counted;
    CountedNext(spec, templates, Cache(w), p, resp);
    hide Next, RequestOf, Fits;
  }

  /** How far the pass is after a call that did not cut it short. */
  lemma DeployWorking(templates: map<Key, SpecValue>, spec: JobFlowValue, w: World, resp: Response, known': Jobs)
    requires DistinctNames(spec) && Inv(templates, spec, w) && !w.queued && !w.undelivered
    requires w.worker.Busy? && w.worker.pc.Deploying? && !Cuts(w.worker.pc, resp) && !resp.Fault?
    requires Fits(RequestOf(w.worker.pc.jf, w.worker.pc.pc), resp)
    requires Answers(templates, Cache(w), Known(spec, w), RequestOf(w.worker.pc.jf, w.worker.pc.pc), resp, known')
    ensures w.flow == Some(w.worker.pc.jf)
    ensures var p := Next(w.worker.pc.jf, w.worker.pc.pc, resp);
            ValidPc(spec, p) && AtCall(spec, templates, known', p) &&
            (p.Returned? ==> !p.outcome.Error? && !SomeStartable(spec, templates, known'))
  {
    var jf, p := w.worker.pc.jf, w.worker.pc.pc;
    KnownShows(spec, w);
    SameCalls(spec, jf, p);
    hide RenderJob, HistoryInOrder, Backed, SomeStartable, AtCall, Shown, SameSpec, Answers, Next, RequestOf, Known, Counted;
    AtCallNext(spec, templates, Cache(w), Known(spec, w), p, resp, known');
  }

  lemma DeployStep(templates: map<Key, SpecValue>, spec: JobFlowValue, w: World, resp: Response, w': World)
    requires DistinctNames(spec) && WellFormed(spec) && Inv(templates, spec, w)
    requires Called(templates, spec, w, resp, w') && w.worker.pc.Deploying?
    ensures Inv(templates, spec, w')
  {
    DeployCall(templates, spec, w, resp, w');
    DeployServed(templates, spec, w, resp, w');
    DeployWorker(templates, spec, w, resp, w');
    hide Called, RenderJob, Known, PassServed, Served, HistoryInOrder, Backed, SomeStartable, AtCall, SameSpec, Counted, Answers, Next, RequestOf, Fits;
    if !w'.queued && !w'.undelivered && !Cuts(w.worker.pc, resp) {
      DeployWorking(templates, spec, w, resp, Known(spec, w'));
    }
  }

  lemma ReadStep(templates: map<Key, SpecValue>, spec: JobFlowValue, w: World, resp: Response, w': World)
    requires Inv(templates, spec, w) && Called(templates, spec, w, resp, w') && w.worker.pc.ReadJobFlow?
    ensures Inv(templates, spec, w')
  {
    hide NextEntry, Ours, AllSucceeded, SomeStartable, KnownJobs;
    assert Known(spec, w') == Known(spec, w);
    assert NoneReady(spec, Known(spec, w), 0);
    AtLoopHead(spec, templates, Known(spec, w), 0);
    hide Known;
  }

  lemma StatusStep(templates: map<Key, SpecValue>, spec: JobFlowValue, w: World, resp: Response, w': World)
    requires Inv(templates, spec, w) && Called(templates, spec, w, resp, w') && (w.worker.pc.Listing? || w.worker.pc.Updating?)
    ensures Inv(templates, spec, w')
  {
    hide NextEntry, Ours, AllSucceeded, SomeStartable, KnownJobs, AtCall, Counted;
    assert Known(spec, w') == Known(spec, w);
    hide Known;
  }

  lemma CalledStep(templates: map<Key, SpecValue>, spec: JobFlowValue, w: World, resp: Response, w': World)
    requires DistinctNames(spec) && WellFormed(spec) && Inv(templates, spec, w) && Called(templates, spec, w, resp, w')
    ensures Inv(templates, spec, w')
  {
    assert Bounds(w) && w.worker.Busy? && !w.worker.pc.Finished?;
    hide Inv, Called;
    match w.worker.pc
    case ReadJobFlow => ReadStep(templates, spec, w, resp, w');
    case Deploying(_, _) => DeployStep(templates, spec, w, resp, w');
    case _ => StatusStep(templates, spec, w, resp, w');
  }

  lemma InvStep(templates: map<Key, SpecValue>, spec: JobFlowValue, w: World, w': World)
    requires DistinctNames(spec) && WellFormed(spec) && Inv(templates, spec, w) && Step(templates, spec, w, w')
    ensures Inv(templates, spec, w')
  {
    hide Inv, Called, Environment, Observed, Delivered, FlowChanged, Started, Restarted;
    if Environment(spec, w, w') {
      EnvironmentStep(templates, spec, w, w');
    } else if Observed(spec, w, w') {
      ObservedStep(templates, spec, w, w');
    } else if Delivered(w, w') || FlowChanged(spec, w, w') || Started(w, w') || Restarted(w, w') {
      QueueStep(templates, spec, w, w');
    } else {
      var resp :| Called(templates, spec, w, resp, w');
      CalledStep(templates, spec, w, resp, w');
    }
  }

  lemma AtStart(templates: map<Key, SpecValue>, spec: JobFlowValue, w: World)
    requires Init(spec, w)
    ensures Inv(templates, spec, w)
  {
    forall n | 0 <= n < |spec.flows|
      ensures JobKey(spec, spec.flows[n].name) !in w.jobs[0]
    {
      FlowMentioned(spec, n);
    }
    hide MentionedKey;
  }

  lemma {:induction false} InvAlways(templates: map<Key, SpecValue>, spec: JobFlowValue, ws: seq<World>, i: nat)
    requires DistinctNames(spec) && WellFormed(spec) && Run(templates, spec, ws) && i < |ws|
    ensures Inv(templates, spec, ws[i])
  {
    hide Inv, Step, Init;
    if i > 0 {
      InvAlways(templates, spec, ws, i - 1);
      assert Step(templates, spec, ws[i - 1], ws[i - 1 + 1]);
      InvStep(templates, spec, ws[i - 1], ws[i]);
    } else {
      AtStart(templates, spec, ws[0]);
    }
  }

  /** Nobody is on the way to the JobFlow: it is not queued or worked on, and no event is under way. */
  predicate AtRest(w: World) {
    !w.queued && !w.undelivered && w.worker == Idle && w.flow.Some? && w.flow.value.status.state != FAILED
  }

  /** A JobFlow at rest has a flow that could be started, among the Jobs whose changes it has been told of, exactly
      when its last reconcile ended early with such a flow left; once the cache has caught up, among all Jobs. */
  lemma RestingExactly(templates: map<Key, SpecValue>, spec: JobFlowValue, ws: seq<World>, i: nat)
    requires DistinctNames(spec) && WellFormed(spec) && Run(templates, spec, ws) && i < |ws| && AtRest(ws[i])
    ensures Bounds(ws[i]) && (SomeStartable(spec, templates, Known(spec, ws[i])) <==> ws[i].stranded)
    ensures ws[i].seen == |ws[i].jobs| - 1 ==> (SomeStartable(spec, templates, Now(ws[i])) <==> ws[i].stranded)
  {
    InvAlways(templates, spec, ws, i);
    assert SameSpec(spec, spec);
    hide SomeStartable, Run;
    if ws[i].seen == |ws[i].jobs| - 1 {
      StartableAgrees(spec, spec, templates, Known(spec, ws[i]), Now(ws[i]));
    }
  }
}

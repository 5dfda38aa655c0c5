/**
 No lost wake-up.  A JobFlow that is neither queued nor being worked on is settled, except when
 its last reconcile was cut short by a BadRequest from the API with a flow left to start: the
 controller takes that error for a failed dependency, and does not come back unless the status
 it then writes is a new one.
 */
module Wakeups {
  import opened Kube
  import opened JobFlows
  import opened Render
  import opened Machine
  import opened FlowStatus
  import opened Deploy
  import opened Passes
  import opened PassByCalls
  import opened StatusMeaning
  import opened Reconciling
  import opened WorkQueue
  import opened ClusterRuns

  /** Reconciling now would create no Job and write the status that is there. */
  ghost predicate Settled(jf: JobFlowValue, templates: map<Key, SpecValue>, jobs: Jobs) {
    jf.status.state == FAILED || (DeployPass(jf, templates, jobs).created == map[] && StatusCurrent(jf, jf.status, jobs))
  }

  /** Any listing of these Jobs gives this status. */
  ghost predicate StatusCurrent(jf: JobFlowValue, status: JobFlowStatus, jobs: Jobs) {
    forall items :: IsListing(items, jobs) ==> StatusOf(jf, items) == status
  }

  // ---- the invariant ----

  ghost predicate FlowsInOrder(c: Cluster) {
    && (forall k :: k in c.flows ==> FlowKey(c.flows[k]) == k && InOrder(c.flows[k], c.jobs))
    && (forall k, k' :: k in c.flows && k' in c.flows && k != k' ==> Disjoint(c.flows[k], c.flows[k']))
  }

  /** The JobFlow in hand is the stored one up to status and deletion, and collides with no other. */
  ghost predicate HandInOrder(c: Cluster, k: Key, jf: JobFlowValue) {
    && FlowKey(jf) == k && WellFormed(jf) && DistinctNames(jf) && jf.status.state != FAILED
    && (k in c.flows ==> SameSpec(jf, c.flows[k]))
    && (forall f :: f in c.flows && f != k ==> Disjoint(jf, c.flows[f]))
  }

  ghost predicate WorkerInOrder(c: Cluster) {
    c.worker.Busy? ==>
      && ValidReconcilePc(c.worker.pc) && !c.worker.pc.Finished?
      && (InHand(c.worker.pc).Some? ==> HandInOrder(c, c.worker.key, InHand(c.worker.pc).value))
      && (c.worker.cut ==> c.worker.pc.Listing? || c.worker.pc.Updating?)
      && (c.worker.pc.Listing? && c.worker.pc.outcome == BadRequest(FromServer) ==> c.worker.cut)
  }

  /** Nobody is going to look at this JobFlow: its status is current, and a flow is startable only if it is stranded. */
  ghost predicate Resting(jf: JobFlowValue, templates: map<Key, SpecValue>, jobs: Jobs, stranded: bool) {
    if jf.status.state == FAILED then !stranded
    else StatusCurrent(jf, jf.status, jobs) && (SomeStartable(jf, templates, jobs) <==> stranded)
  }

  /** How far the reconcile of a JobFlow has got that nothing has happened to since it was read. */
  ghost predicate Working(jf: JobFlowValue, templates: map<Key, SpecValue>, jobs: Jobs, pc: ReconcilePc, cut: bool)
    requires ValidReconcilePc(pc)
  {
    match pc
    case ReadJobFlow => true
    case Deploying(hand, p) => hand == jf && AtPc(jf, templates, jobs, p)
    case Listing(hand, _) => hand == jf && (!cut ==> !SomeStartable(jf, templates, jobs))
    case Updating(hand, status) =>
      hand == jf && (!cut ==> !SomeStartable(jf, templates, jobs)) && StatusCurrent(jf, status, jobs)
    case Finished(_) => false
  }

  predicate WorksOn(c: Cluster, k: Key) {
    c.worker.Busy? && c.worker.key == k
  }

  ghost predicate Unqueued(templates: map<Key, SpecValue>, c: Cluster, k: Key)
    requires k in c.flows && WorkerInOrder(c)
  {
    if WorksOn(c, k) then Working(c.flows[k], templates, c.jobs, c.worker.pc, c.worker.cut)
    else Resting(c.flows[k], templates, c.jobs, k in c.stranded)
  }

  ghost predicate Inv(templates: map<Key, SpecValue>, c: Cluster) {
    && FlowsInOrder(c) && WorkerInOrder(c)
    && forall k :: k in c.flows && k !in c.queue ==> Unqueued(templates, c, k)
  }

  // ---- what does not concern a JobFlow leaves it as it is ----

  lemma ReadyAgrees(jf: JobFlowValue, jobs: Jobs, jobs': Jobs, n: nat)
    requires n < |jf.flows| && SameToPass(jf, jobs, jobs')
    ensures Ready(jf, n, jobs') <==> Ready(jf, n, jobs)
    ensures JobKey(jf, jf.flows[n].name) in jobs' <==> JobKey(jf, jf.flows[n].name) in jobs
    ensures forall d :: d in jf.flows[n].dependencies ==>
              var k := JobKey(jf, d);
              && (k in jobs' <==> k in jobs)
              && (HasSucceeded(jobs', k) <==> HasSucceeded(jobs, k)) && (HasFailed(jobs', k) <==> HasFailed(jobs, k))
  {
    FlowMentioned(jf, n);
    hide MentionedKey;
  }

  lemma ScannedAgrees(jf: JobFlowValue, jobs: Jobs, jobs': Jobs, dependencies: seq<string>, j: nat, met: bool)
    requires j <= |dependencies| && Scanned(jf, jobs, dependencies, j, met)
    requires forall d :: d in dependencies ==>
               var k := JobKey(jf, d);
               && (k in jobs' <==> k in jobs)
               && (HasSucceeded(jobs', k) <==> HasSucceeded(jobs, k)) && (HasFailed(jobs', k) <==> HasFailed(jobs, k))
    ensures Scanned(jf, jobs', dependencies, j, met)
  {
    hide HasSucceeded, HasFailed, JobKey;
    assert forall m :: 0 <= m < j ==> dependencies[m] in dependencies;
  }

  lemma AtPcStays(jf: JobFlowValue, templates: map<Key, SpecValue>, jobs: Jobs, jobs': Jobs, pc: Pc)
    requires ValidPc(jf, pc) && SameToPass(jf, jobs, jobs') && AtPc(jf, templates, jobs, pc)
    ensures AtPc(jf, templates, jobs', pc)
  {
    assert SameSpec(jf, jf);
    StartableAgrees(jf, jf, templates, jobs, jobs');
    forall n | 0 <= n < |jf.flows|
      ensures Ready(jf, n, jobs') <==> Ready(jf, n, jobs)
    {
      ReadyAgrees(jf, jobs, jobs', n);
    }
    hide Ready, SameToPass, SomeStartable, Scanned;
    if pc.CheckDependency? {
      ReadyAgrees(jf, jobs, jobs', pc.flow);
      ScannedAgrees(jf, jobs, jobs', jf.flows[pc.flow].dependencies, pc.dependency, pc.met);
    }
  }

  lemma StatusStays(jf: JobFlowValue, status: JobFlowStatus, jobs: Jobs, jobs': Jobs)
    requires DistinctNames(jf) && WellOwned(jf, jobs) && WellOwned(jf, jobs') && SameToStatus(jf, jobs, jobs')
    requires StatusCurrent(jf, status, jobs)
    ensures StatusCurrent(jf, status, jobs')
  {
    assert Filed(jobs);
    var listing := SomeListing(jobs);
    hide StatusOf, WellOwned, SameToStatus, DistinctNames;
    forall items | IsListing(items, jobs')
      ensures StatusOf(jf, items) == status
    {
      ListingIsIrrelevant(jf, jobs, jobs', listing, items);
    }
  }

  /** A JobFlow to which nothing happened. */
  ghost predicate Untouched(jf: JobFlowValue, jobs: Jobs, jobs': Jobs) {
    InOrder(jf, jobs) && InOrder(jf, jobs') && SameToPass(jf, jobs, jobs') && SameToStatus(jf, jobs, jobs')
  }

  lemma RestingStays(jf: JobFlowValue, templates: map<Key, SpecValue>, jobs: Jobs, jobs': Jobs, stranded: bool)
    requires Untouched(jf, jobs, jobs') && Resting(jf, templates, jobs, stranded)
    ensures Resting(jf, templates, jobs', stranded)
  {
    assert SameSpec(jf, jf);
    hide StatusCurrent, SomeStartable, SameToPass, SameToStatus, DistinctNames, WellOwned, Referenced, WellFormed;
    StartableAgrees(jf, jf, templates, jobs, jobs');
    if jf.status.state != FAILED {
      StatusStays(jf, jf.status, jobs, jobs');
    }
  }

  lemma WorkingStays(jf: JobFlowValue, templates: map<Key, SpecValue>, jobs: Jobs, jobs': Jobs, pc: ReconcilePc, cut: bool)
    requires ValidReconcilePc(pc) && Untouched(jf, jobs, jobs') && Working(jf, templates, jobs, pc, cut)
    ensures Working(jf, templates, jobs', pc, cut)
  {
    assert SameSpec(jf, jf);
    hide StatusCurrent, SomeStartable, SameToPass, SameToStatus, DistinctNames, WellOwned, Referenced, WellFormed, AtPc;
    StartableAgrees(jf, jf, templates, jobs, jobs');
    if pc.Deploying? {
      AtPcStays(jf, templates, jobs, jobs', pc.pc);
    }
    if pc.Updating? {
      StatusStays(jf, pc.status, jobs, jobs');
    }
  }

  lemma UnqueuedStays(templates: map<Key, SpecValue>, c: Cluster, c': Cluster, k: Key)
    requires k in c.flows && WorkerInOrder(c) && WorkerInOrder(c') && Unqueued(templates, c, k)
    requires k in c'.flows && c'.flows[k] == c.flows[k] && Untouched(c.flows[k], c.jobs, c'.jobs)
    requires if WorksOn(c, k) then c'.worker == c.worker else !WorksOn(c', k)
    requires k in c'.stranded <==> k in c.stranded
    ensures Unqueued(templates, c', k)
  {
    hide Working, Resting, Untouched;
    if WorksOn(c, k) {
      WorkingStays(c.flows[k], templates, c.jobs, c'.jobs, c.worker.pc, c.worker.cut);
    } else {
      RestingStays(c.flows[k], templates, c.jobs, c'.jobs, k in c.stranded);
    }
  }

  /** Jobs change, and everybody who could notice is queued. */
  lemma InvAfterJobs(templates: map<Key, SpecValue>, c: Cluster, c': Cluster)
    requires Inv(templates, c) && c' == c.(jobs := c'.jobs, queue := c'.queue) && c.queue <= c'.queue
    requires forall f :: f in c.flows ==> InOrder(c.flows[f], c'.jobs)
    requires forall f :: f in c.flows && f !in c'.queue ==> Untouched(c.flows[f], c.jobs, c'.jobs)
    ensures Inv(templates, c')
  {
    hide InOrder, Untouched, Disjoint, Unqueued, HandInOrder;
    assert forall k, jf :: HandInOrder(c, k, jf) ==> HandInOrder(c', k, jf) by {
      HandStays(c, c');
    }
    forall f | f in c.flows && f !in c'.queue
      ensures Unqueued(templates, c', f)
    {
      assert Unqueued(templates, c, f);
      UnqueuedStays(templates, c, c', f);
    }
  }

  lemma HandStays(c: Cluster, c': Cluster)
    requires c'.flows == c.flows
    ensures forall k, jf :: HandInOrder(c, k, jf) ==> HandInOrder(c', k, jf)
  {
    hide Disjoint;
  }

  lemma OwnerQueued(jf: JobFlowValue, jobs: Jobs, k: Key)
    requires InOrder(jf, jobs) && k in jobs && MentionedKey(jf, k)
    ensures FlowKey(jf) in OwnerKeys(jobs[k])
    ensures forall status :: OwnerKeys(jobs[k].(status := status)) == OwnerKeys(jobs[k])
  {
    assert jobs[k].owners[0].kind == KIND && jobs[k].key.namespace == jf.namespace;
  }

  lemma UpdateKeepsOrder(jf: JobFlowValue, jobs: Jobs, k: Key, status: JobStatus)
    requires InOrder(jf, jobs) && k in jobs
    ensures InOrder(jf, jobs[k := jobs[k].(status := status)])
  {
    hide MentionedKey, IsFlowKey, DistinctNames;
  }

  lemma DeleteKeepsOrder(jf: JobFlowValue, jobs: Jobs, k: Key)
    requires InOrder(jf, jobs)
    ensures InOrder(jf, jobs - {k})
  {
    hide MentionedKey, IsFlowKey, DistinctNames;
  }

  lemma Unnoticed(jf: JobFlowValue, jobs: Jobs, jobs': Jobs)
    requires forall k :: MentionedKey(jf, k) ==>
               (k in jobs <==> k in jobs') && (k in jobs ==> jobs[k].status == jobs'[k].status)
    ensures SameToPass(jf, jobs, jobs') && SameToStatus(jf, jobs, jobs')
  {
    hide MentionedKey;
    forall k | IsFlowKey(jf, k)
      ensures (k in jobs <==> k in jobs') && (k in jobs ==> jobs[k].status == jobs'[k].status)
    {
      FlowKeyMentioned(jf, k);
    }
  }

  lemma UnrelatedKeepsOrder(jf: JobFlowValue, jobs: Jobs, k: Key, job: JobValue)
    requires InOrder(jf, jobs) && k !in jobs && job.key == k && !MentionedKey(jf, k)
    requires Matches(job.owners, KIND, jf.name) == 0
    ensures InOrder(jf, jobs[k := job])
  {
    hide MentionedKey, DistinctNames;
    if IsFlowKey(jf, k) {
      FlowKeyMentioned(jf, k);
    }
    hide IsFlowKey;
  }

  lemma SameSpecSameOrder(a: JobFlowValue, b: JobFlowValue, jobs: Jobs)
    requires SameSpec(a, b) && InOrder(a, jobs)
    ensures InOrder(b, jobs) && FlowKey(b) == FlowKey(a)
    ensures forall other :: Disjoint(a, other) ==> Disjoint(b, other) && Disjoint(other, b)
  {
    SameOwnership(a, b, jobs);
    forall name
      ensures Mentioned(b, name) <==> Mentioned(a, name)
      ensures JobKey(b, name) == JobKey(a, name)
    {
      assert forall x :: DependsOn(b, x, name) <==> DependsOn(a, x, name);
    }
    hide Mentioned, IsFlowKey, WellOwned, DistinctNames;
  }

  lemma UpdatedStep(templates: map<Key, SpecValue>, c: Cluster, c': Cluster)
    requires Inv(templates, c) && (JobUpdated(c, c') || JobDeleted(c, c'))
    ensures Inv(templates, c')
  {
    hide InOrder, Disjoint, SameToPass, SameToStatus, OwnerKeys, MentionedKey, WorkerInOrder, Unqueued;
    var k :| k in c.jobs &&
      ((exists status :: c' == c.(jobs := c.jobs[k := c.jobs[k].(status := status)], queue := c.queue + OwnerKeys(c.jobs[k].(status := status)))) ||
       c' == c.(jobs := c.jobs - {k}, queue := c.queue + OwnerKeys(c.jobs[k])));
    forall f | f in c.flows
      ensures InOrder(c.flows[f], c'.jobs)
      ensures f !in c'.queue ==> Untouched(c.flows[f], c.jobs, c'.jobs)
    {
      var jf := c.flows[f];
      assert InOrder(jf, c.jobs);
      if c'.jobs == c.jobs - {k} {
        DeleteKeepsOrder(jf, c.jobs, k);
      } else {
        UpdateKeepsOrder(jf, c.jobs, k, c'.jobs[k].status);
      }
      if MentionedKey(jf, k) {
        OwnerQueued(jf, c.jobs, k);
      } else {
        Unnoticed(jf, c.jobs, c'.jobs);
      }
    }
    InvAfterJobs(templates, c, c');
  }

  lemma OtherCreatedStep(templates: map<Key, SpecValue>, c: Cluster, c': Cluster)
    requires Inv(templates, c) && OtherJobCreated(c, c')
    ensures Inv(templates, c')
  {
    hide InOrder, Disjoint, SameToPass, SameToStatus, MentionedKey, WorkerInOrder, Unqueued;
    var k, job :| k !in c.jobs && Unrelated(c, k, job) && c' == c.(jobs := c.jobs[k := job]);
    forall f | f in c.flows
      ensures InOrder(c.flows[f], c'.jobs) && Untouched(c.flows[f], c.jobs, c'.jobs)
    {
      assert InOrder(c.flows[f], c.jobs);
      UnrelatedKeepsOrder(c.flows[f], c.jobs, k, job);
      Unnoticed(c.flows[f], c.jobs, c'.jobs);
    }
    InvAfterJobs(templates, c, c');
  }

  // ---- JobFlows come and go ----

  lemma Same(jf: JobFlowValue, jobs: Jobs)
    requires InOrder(jf, jobs)
    ensures Untouched(jf, jobs, jobs)
  {
  }

  /** The JobFlows change in a key that is queued; the Jobs and the worker stay as they are. */
  lemma InvAfterFlow(templates: map<Key, SpecValue>, c: Cluster, c': Cluster, k: Key)
    requires Inv(templates, c) && c' == c.(flows := c'.flows, queue := c.queue + {k})
    requires FlowsInOrder(c') && WorkerInOrder(c')
    requires forall f :: f in c'.flows && f != k ==> f in c.flows && c'.flows[f] == c.flows[f]
    ensures Inv(templates, c')
  {
    hide InOrder, Disjoint, Unqueued, WorkerInOrder, Untouched;
    forall f | f in c'.flows && f !in c'.queue
      ensures Unqueued(templates, c', f)
    {
      assert Unqueued(templates, c, f) && InOrder(c.flows[f], c.jobs);
      Same(c.flows[f], c.jobs);
      UnqueuedStays(templates, c, c', f);
    }
  }

  lemma NewcomerInOrder(c: Cluster, c': Cluster, jf: JobFlowValue)
    requires FlowsInOrder(c) && FlowKey(jf) !in c.flows && InOrder(jf, c.jobs)
    requires forall k :: k in c.flows ==> Disjoint(jf, c.flows[k])
    requires c'.jobs == c.jobs && c'.flows == c.flows[FlowKey(jf) := jf]
    ensures FlowsInOrder(c')
  {
    forall k | k in c.flows
      ensures Disjoint(c.flows[k], jf)
    {
      DisjointSymmetric(jf, c.flows[k]);
    }
    hide InOrder, Disjoint;
  }

  lemma HandBesideNewcomer(c: Cluster, c': Cluster, jf: JobFlowValue)
    requires WorkerInOrder(c) && c'.worker == c.worker && c'.flows == c.flows[FlowKey(jf) := jf]
    requires c.worker.Busy? && InHand(c.worker.pc).Some? ==> Disjoint(jf, InHand(c.worker.pc).value)
    ensures WorkerInOrder(c')
  {
    if c.worker.Busy? && InHand(c.worker.pc).Some? {
      DisjointSymmetric(jf, InHand(c.worker.pc).value);
      assert jf.name != InHand(c.worker.pc).value.name;
    }
    hide Disjoint, SameSpec, DistinctNames;
  }

  lemma FlowCreatedStep(templates: map<Key, SpecValue>, c: Cluster, c': Cluster)
    requires Inv(templates, c) && FlowCreated(c, c')
    ensures Inv(templates, c')
  {
    hide InOrder, Unqueued, Disjoint, WorkerInOrder, FlowsInOrder;
    var jf :| FlowKey(jf) !in c.flows && InOrder(jf, c.jobs)
      && (forall k :: k in c.flows ==> Disjoint(jf, c.flows[k]))
      && (c.worker.Busy? && InHand(c.worker.pc).Some? ==> Disjoint(jf, InHand(c.worker.pc).value))
      && c' == c.(flows := c.flows[FlowKey(jf) := jf], queue := c.queue + {FlowKey(jf)});
    NewcomerInOrder(c, c', jf);
    HandBesideNewcomer(c, c', jf);
    InvAfterFlow(templates, c, c', FlowKey(jf));
  }

  lemma FlowRemovedStep(templates: map<Key, SpecValue>, c: Cluster, c': Cluster, k: Key)
    requires Inv(templates, c) && FlowRemoved(c, c', k)
    ensures Inv(templates, c')
  {
    hide InOrder, Unqueued, Disjoint, SameSpec, DistinctNames;
    InvAfterFlow(templates, c, c', k);
  }

  /** Marking a JobFlow for deletion is nothing to its order or to others. */
  lemma MarkedInOrder(c: Cluster, c': Cluster, k: Key)
    requires FlowsInOrder(c) && FlowMarked(c, c', k)
    ensures FlowsInOrder(c')
    ensures forall jf :: Disjoint(jf, c.flows[k]) ==> Disjoint(jf, c'.flows[k])
    ensures forall jf :: SameSpec(jf, c.flows[k]) ==> SameSpec(jf, c'.flows[k])
  {
    var a, b := c.flows[k], c.flows[k].(deleting := true);
    assert SameSpec(a, b) && InOrder(a, c.jobs);
    SameSpecSameOrder(a, b, c.jobs);
    forall jf | Disjoint(jf, a)
      ensures Disjoint(jf, b)
    {
      DisjointSymmetric(jf, a);
    }
    hide InOrder, Disjoint;
  }

  lemma FlowMarkedStep(templates: map<Key, SpecValue>, c: Cluster, c': Cluster, k: Key)
    requires Inv(templates, c) && FlowMarked(c, c', k)
    ensures Inv(templates, c')
  {
    hide InOrder, Unqueued, Disjoint, SameSpec, DistinctNames, FlowsInOrder;
    MarkedInOrder(c, c', k);
    InvAfterFlow(templates, c, c', k);
  }

  lemma FlowDeletedStep(templates: map<Key, SpecValue>, c: Cluster, c': Cluster)
    requires Inv(templates, c) && FlowDeleted(c, c')
    ensures Inv(templates, c')
  {
    hide Inv;
    var k :| FlowMarked(c, c', k) || FlowRemoved(c, c', k);
    if FlowMarked(c, c', k) {
      FlowMarkedStep(templates, c, c', k);
    } else {
      FlowRemovedStep(templates, c, c', k);
    }
  }

  // ---- the worker's calls ----

  /** The worker has moved on; the others have not noticed. */
  lemma InvAfterCall(templates: map<Key, SpecValue>, c: Cluster, c': Cluster)
    requires Inv(templates, c) && c.worker.Busy? && c.queue <= c'.queue
    requires FlowsInOrder(c') && WorkerInOrder(c') && (c'.worker.Busy? ==> c'.worker.key == c.worker.key)
    requires c'.flows.Keys == c.flows.Keys && c'.stranded - {c.worker.key} == c.stranded - {c.worker.key}
    requires forall f :: f in c.flows && f != c.worker.key ==>
               c'.flows[f] == c.flows[f] && Untouched(c.flows[f], c.jobs, c'.jobs)
    requires c.worker.key in c'.flows && c.worker.key !in c'.queue ==> Unqueued(templates, c', c.worker.key)
    ensures Inv(templates, c')
  {
    hide InOrder, Disjoint, Unqueued, WorkerInOrder, Untouched;
    forall f | f in c'.flows && f !in c'.queue
      ensures Unqueued(templates, c', f)
    {
      if f != c.worker.key {
        assert Unqueued(templates, c, f) && f in c'.stranded - {c.worker.key} <==> f in c.stranded - {c.worker.key};
        UnqueuedStays(templates, c, c', f);
      }
    }
  }

  /** The same when no Job and no JobFlow has changed. */
  lemma InvAfterRead(templates: map<Key, SpecValue>, c: Cluster, c': Cluster)
    requires Inv(templates, c) && c.worker.Busy? && c'.jobs == c.jobs && c'.flows == c.flows && c.queue <= c'.queue
    requires WorkerInOrder(c') && (c'.worker.Busy? ==> c'.worker.key == c.worker.key)
    requires c'.stranded - {c.worker.key} == c.stranded - {c.worker.key}
    requires c.worker.key in c'.flows && c.worker.key !in c'.queue ==> Unqueued(templates, c', c.worker.key)
    ensures Inv(templates, c')
  {
    hide InOrder, Disjoint, Unqueued, WorkerInOrder, Untouched;
    forall f | f in c.flows
      ensures Untouched(c.flows[f], c.jobs, c'.jobs)
    {
      assert InOrder(c.flows[f], c.jobs);
      Same(c.flows[f], c.jobs);
    }
    InvAfterCall(templates, c, c');
  }

  lemma ReadStep(templates: map<Key, SpecValue>, c: Cluster, resp: Response, c': Cluster)
    requires Inv(templates, c) && Called(templates, c, resp, c') && c.worker.pc.ReadJobFlow?
    ensures Inv(templates, c')
  {
    var k := c.worker.key;
    if c'.worker.Busy? {
      var jf := c.flows[k];
      assert InOrder(jf, c.jobs) && SameSpec(jf, jf);
      assert NoneReady(jf, c.jobs, 0);
      AtLoopHead(jf, templates, c.jobs, 0);
      hide AtPc, SomeStartable, InOrder, Enter, Disjoint;
      assert c'.worker.pc == AfterDeploy(jf, Enter(jf, 0));
      ReadDeploys(jf, templates, c.jobs, Enter(jf, 0));
    }
    hide InOrder, Disjoint, SomeStartable;
    InvAfterRead(templates, c, c');
  }

  /** Where a pass that has not been cut short goes on to. */
  lemma ReadDeploys(jf: JobFlowValue, templates: map<Key, SpecValue>, jobs: Jobs, p: Pc)
    requires ValidPc(jf, p) && AtPc(jf, templates, jobs, p) && !(p.Returned? && p.outcome.Error?)
    requires p.Returned? && p.outcome.BadRequest? && p.outcome.cause.TemplateMissing? ==> p.outcome.cause.template !in templates
    ensures var pc := AfterDeploy(jf, p);
            Working(jf, templates, jobs, pc, pc.Listing? && pc.outcome == BadRequest(FromServer))
  {
    hide SomeStartable;
  }

  lemma MissingMeansAbsent(jf: JobFlowValue, templates: map<Key, SpecValue>, pc: Pc, resp: Response)
    requires ValidPc(jf, pc) && !pc.Returned? && Fits(RequestOf(jf, pc), resp)
    requires RequestOf(jf, pc).GetTemplate? && resp.NotFound? ==> RequestOf(jf, pc).template !in templates
    ensures var p := Next(jf, pc, resp);
            p.Returned? && p.outcome.BadRequest? && p.outcome.cause.TemplateMissing? ==> p.outcome.cause.template !in templates
  {
  }

  /** What the deploy part's calls change: nothing, or one flow's Job is new. */
  lemma DeployCall(templates: map<Key, SpecValue>, c: Cluster, resp: Response, c': Cluster)
    requires Called(templates, c, resp, c') && c.worker.pc.Deploying?
    ensures var jf, p := c.worker.pc.jf, c.worker.pc.pc;
            && Fits(RequestOf(jf, p), resp) && Fresh(templates, c.jobs, RequestOf(jf, p), resp, c'.jobs)
            && (RequestOf(jf, p).GetTemplate? && resp.NotFound? ==> RequestOf(jf, p).template !in templates)
            && (c'.jobs == c.jobs ||
                (p.Create? && JobKey(jf, jf.flows[p.flow].name) !in c.jobs &&
                 c'.jobs == c.jobs[JobKey(jf, jf.flows[p.flow].name) := RenderJob(jf, jf.flows[p.flow], p.base)]))
    ensures c'.flows == c.flows && c'.queue == c.queue + (if c'.worker == Idle then {c.worker.key} else {})
    ensures c'.stranded - {c.worker.key} == c.stranded - {c.worker.key}
    ensures var p := Next(c.worker.pc.jf, c.worker.pc.pc, resp);
            var next := AfterDeploy(c.worker.pc.jf, p);
            && c'.worker == (if next.Finished? then Idle
                             else Busy(c.worker.key, next, c.worker.cut || (next.Listing? && next.outcome == BadRequest(FromServer))))
            && (next.Finished? <==> p.Returned? && p.outcome.Error?)
  {
  }

  lemma CreatedOwn(jf: JobFlowValue, n: nat, base: SpecValue, own: JobFlowValue, jobs: Jobs)
    requires n < |jf.flows| && WellFormed(jf) && SameSpec(jf, own) && InOrder(own, jobs)
    ensures InOrder(own, jobs[JobKey(jf, jf.flows[n].name) := RenderJob(jf, jf.flows[n], base)])
  {
    var k, job := JobKey(jf, jf.flows[n].name), RenderJob(jf, jf.flows[n], base);
    assert own.flows == jf.flows && k == JobKey(own, own.flows[n].name);
    SoleOwner(OwnerReference(API_VERSION, KIND, jf.name, jf.uid), KIND, own.name);
    assert IsFlowKey(own, k) && job.key == k;
    hide IsFlowKey, MentionedKey, RenderSpec, DistinctNames;
  }

  lemma CreatedElsewhere(jf: JobFlowValue, n: nat, base: SpecValue, other: JobFlowValue, jobs: Jobs)
    requires n < |jf.flows| && WellFormed(jf) && Disjoint(jf, other) && InOrder(other, jobs)
    requires JobKey(jf, jf.flows[n].name) !in jobs
    ensures Untouched(other, jobs, jobs[JobKey(jf, jf.flows[n].name) := RenderJob(jf, jf.flows[n], base)])
  {
    var k, job := JobKey(jf, jf.flows[n].name), RenderJob(jf, jf.flows[n], base);
    SoleOwner(OwnerReference(API_VERSION, KIND, jf.name, jf.uid), KIND, other.name);
    FlowMentioned(jf, n);
    assert !MentionedKey(other, k) && job.key == k;
    hide MentionedKey, RenderSpec, InOrder, SameToPass, SameToStatus;
    UnrelatedKeepsOrder(other, jobs, k, job);
    Unnoticed(other, jobs, jobs[k := job]);
  }

  lemma CreatedInOrder(c: Cluster, c': Cluster, jf: JobFlowValue, n: nat, base: SpecValue)
    requires FlowsInOrder(c) && c.worker.Busy? && HandInOrder(c, c.worker.key, jf) && c'.flows == c.flows && n < |jf.flows|
    requires JobKey(jf, jf.flows[n].name) !in c.jobs
    requires c'.jobs == c.jobs[JobKey(jf, jf.flows[n].name) := RenderJob(jf, jf.flows[n], base)]
    ensures FlowsInOrder(c')
    ensures forall f :: f in c.flows && f != c.worker.key ==> Untouched(c.flows[f], c.jobs, c'.jobs)
  {
    hide InOrder, Disjoint, RenderJob;
    forall f | f in c.flows
      ensures InOrder(c.flows[f], c'.jobs)
      ensures f != c.worker.key ==> Untouched(c.flows[f], c.jobs, c'.jobs)
    {
      assert InOrder(c.flows[f], c.jobs);
      if f == c.worker.key {
        CreatedOwn(jf, n, base, c.flows[f], c.jobs);
      } else {
        CreatedElsewhere(jf, n, base, c.flows[f], c.jobs);
      }
    }
  }

  lemma OthersSame(c: Cluster, c': Cluster)
    requires FlowsInOrder(c) && c'.flows == c.flows && c'.jobs == c.jobs
    ensures FlowsInOrder(c')
    ensures forall f :: f in c.flows ==> Untouched(c.flows[f], c.jobs, c'.jobs)
  {
    hide InOrder, Disjoint, Untouched;
    forall f | f in c.flows
      ensures Untouched(c.flows[f], c.jobs, c'.jobs)
    {
      assert InOrder(c.flows[f], c.jobs);
      Same(c.flows[f], c.jobs);
    }
  }

  lemma DeployStep(templates: map<Key, SpecValue>, c: Cluster, resp: Response, c': Cluster)
    requires Inv(templates, c) && Called(templates, c, resp, c') && c.worker.pc.Deploying?
    ensures Inv(templates, c')
  {
    var k, jf, p := c.worker.key, c.worker.pc.jf, c.worker.pc.pc;
    DeployCall(templates, c, resp, c');
    hide Called, Served, Fresh, RenderJob, InOrder, Disjoint, Next, RequestOf, Fits, Untouched, Unqueued, AtPc, SomeStartable, SameSpec;
    if c'.jobs == c.jobs {
      OthersSame(c, c');
    } else {
      CreatedInOrder(c, c', jf, p.flow, p.base);
    }
    HandStays(c, c');
    if k in c'.flows && k !in c'.queue {
      WorkingOn(templates, c, k);
      AtPcNext(jf, templates, c.jobs, p, resp, c'.jobs);
      MissingMeansAbsent(jf, templates, p, resp);
      ReadDeploys(jf, templates, c'.jobs, Next(jf, p, resp));
      UnqueuedWorking(templates, c', k);
    }
    InvAfterCall(templates, c, c');
  }

  lemma WorkingOn(templates: map<Key, SpecValue>, c: Cluster, k: Key)
    requires Inv(templates, c) && k in c.flows && k !in c.queue && WorksOn(c, k) && c.worker.pc.Deploying?
    ensures c.worker.pc.jf == c.flows[k] && AtPc(c.flows[k], templates, c.jobs, c.worker.pc.pc) && !c.worker.cut
  {
    assert Unqueued(templates, c, k);
  }

  lemma UnqueuedWorking(templates: map<Key, SpecValue>, c: Cluster, k: Key)
    requires k in c.flows && WorkerInOrder(c) && WorksOn(c, k)
    requires Working(c.flows[k], templates, c.jobs, c.worker.pc, c.worker.cut)
    ensures Unqueued(templates, c, k)
  {
  }

  lemma ListStep(templates: map<Key, SpecValue>, c: Cluster, resp: Response, c': Cluster)
    requires Inv(templates, c) && Called(templates, c, resp, c') && c.worker.pc.Listing?
    ensures Inv(templates, c')
  {
    var k, jf := c.worker.key, c.worker.pc.jf;
    if k in c.flows && k !in c'.queue {
      assert Unqueued(templates, c, k) && InOrder(jf, c.jobs);
      Same(jf, c.jobs);
      hide SomeStartable, Untouched, StatusOf, WellOwned, DistinctNames, Referenced;
      ListedCurrent(jf, c.jobs, resp.items);
    }
    hide InOrder, Disjoint, SomeStartable, StatusCurrent, StatusOf;
    InvAfterRead(templates, c, c');
  }

  lemma ListedCurrent(jf: JobFlowValue, jobs: Jobs, items: seq<JobValue>)
    requires InOrder(jf, jobs) && IsListing(items, jobs)
    ensures StatusCurrent(jf, StatusOf(jf, items), jobs)
  {
    Same(jf, jobs);
    hide StatusOf, WellOwned, SameToStatus, DistinctNames;
    forall other | IsListing(other, jobs)
      ensures StatusOf(jf, other) == StatusOf(jf, items)
    {
      ListingIsIrrelevant(jf, jobs, jobs, other, items);
    }
  }

  /** The status update: the object stays, or gets the new status and is queued if that is a change. */
  lemma UpdateStep(templates: map<Key, SpecValue>, c: Cluster, resp: Response, c': Cluster)
    requires Inv(templates, c) && Called(templates, c, resp, c') && c.worker.pc.Updating?
    ensures Inv(templates, c')
  {
    var k, jf, status := c.worker.key, c.worker.pc.jf, c.worker.pc.status;
    hide InOrder, Disjoint, SomeStartable, StatusCurrent;
    if c'.flows == c.flows {
      if k in c.flows && k !in c'.queue {
        assert Unqueued(templates, c, k);
        assert c.flows[k] == jf;
        assert jf.status == status;
      }
      InvAfterRead(templates, c, c');
    } else {
      assert k in c'.queue;
      assert InOrder(c.flows[k], c.jobs) && SameSpec(jf, jf.(status := status));
      SameSpecSameOrder(jf, jf.(status := status), c.jobs);
      OthersSame(c, c.(worker := c'.worker));
      hide Untouched;
      assert FlowsInOrder(c');
      InvAfterCall(templates, c, c');
    }
  }

  lemma CalledStep(templates: map<Key, SpecValue>, c: Cluster, resp: Response, c': Cluster)
    requires Inv(templates, c) && Called(templates, c, resp, c')
    ensures Inv(templates, c')
  {
    IsCalled(templates, c, resp, c');
    hide Inv, Called;
    match c.worker.pc
    case ReadJobFlow => ReadStep(templates, c, resp, c');
    case Deploying(_, _) => DeployStep(templates, c, resp, c');
    case Listing(_, _) => ListStep(templates, c, resp, c');
    case Updating(_, _) => UpdateStep(templates, c, resp, c');
  }

  lemma IsCalled(templates: map<Key, SpecValue>, c: Cluster, resp: Response, c': Cluster)
    requires Called(templates, c, resp, c')
    ensures c.worker.Busy? && !c.worker.pc.Finished?
  {
  }

  lemma OtherStep(templates: map<Key, SpecValue>, c: Cluster, c': Cluster)
    requires Inv(templates, c) && (Requeued(c, c') || Started(c, c') || Restarted(c, c'))
    ensures Inv(templates, c')
  {
    hide InOrder, Disjoint, Resting;
    if Requeued(c, c') {
      forall k | k in c'.flows && k !in c'.queue
        ensures Unqueued(templates, c', k)
      {
        assert Unqueued(templates, c, k);
      }
    } else if Started(c, c') {
      forall k | k in c'.flows && k !in c'.queue && !WorksOn(c', k)
        ensures Unqueued(templates, c', k)
      {
        assert Unqueued(templates, c, k);
      }
    }
  }

  lemma InvStep(templates: map<Key, SpecValue>, c: Cluster, c': Cluster)
    requires Inv(templates, c) && Step(templates, c, c')
    ensures Inv(templates, c')
  {
    hide Inv, Called, JobUpdated, JobDeleted, OtherJobCreated, FlowCreated, FlowDeleted, Requeued, Started, Restarted;
    if JobUpdated(c, c') || JobDeleted(c, c') {
      UpdatedStep(templates, c, c');
    } else if OtherJobCreated(c, c') {
      OtherCreatedStep(templates, c, c');
    } else if FlowCreated(c, c') {
      FlowCreatedStep(templates, c, c');
    } else if FlowDeleted(c, c') {
      FlowDeletedStep(templates, c, c');
    } else if Requeued(c, c') || Started(c, c') || Restarted(c, c') {
      OtherStep(templates, c, c');
    } else {
      var resp :| Called(templates, c, resp, c');
      CalledStep(templates, c, resp, c');
    }
  }

  lemma {:induction false} InvAlways(templates: map<Key, SpecValue>, cs: seq<Cluster>, i: nat)
    requires Run(templates, cs) && i < |cs|
    ensures Inv(templates, cs[i])
  {
    if i > 0 {
      InvAlways(templates, cs, i - 1);
      assert Step(templates, cs[i - 1], cs[i - 1 + 1]);
      hide Inv, Step;
      InvStep(templates, cs[i - 1], cs[i]);
    }
  }

  /** A JobFlow that is neither queued nor being worked on is settled exactly when its last reconcile was not cut
      short with a flow left to start; otherwise some flow is startable. */
  lemma SettledExactly(templates: map<Key, SpecValue>, cs: seq<Cluster>, i: nat, k: Key)
    requires Run(templates, cs) && i < |cs| && k in cs[i].flows && k !in cs[i].queue && !WorksOn(cs[i], k)
    ensures Settled(cs[i].flows[k], templates, cs[i].jobs) <==> k !in cs[i].stranded
    ensures k in cs[i].stranded ==>
              cs[i].flows[k].status.state != FAILED && SomeStartable(cs[i].flows[k], templates, cs[i].jobs)
  {
    InvAlways(templates, cs, i);
    assert Unqueued(templates, cs[i], k);
    hide SomeStartable, DeployPass, StatusCurrent, FlowsInOrder, WorkerInOrder, Run;
    CreatesExactly(cs[i].flows[k], templates, cs[i].jobs);
  }

  /** No lost wake-up: an undisturbed reconcile of such a JobFlow would create no Job and leave its status as it is,
      exactly when the JobFlow is not stranded. */
  lemma NoLostWakeup(templates: map<Key, SpecValue>, cs: seq<Cluster>, i: nat, k: Key, jf: JobFlowValue, jobs: Jobs)
    requires Run(templates, cs) && i < |cs| && k in cs[i].flows && k !in cs[i].queue && !WorksOn(cs[i], k)
    requires Reconciled(cs[i].flows[k], templates, cs[i].jobs, jf, jobs)
    ensures jobs == cs[i].jobs && jf == cs[i].flows[k] <==> k !in cs[i].stranded
  {
    SettledExactly(templates, cs, i, k);
    InvAlways(templates, cs, i);
    assert InOrder(cs[i].flows[k], cs[i].jobs);
    hide Inv, Run, SomeStartable, FlowsInOrder, WorkerInOrder;
    UndisturbedChanges(cs[i].flows[k], templates, cs[i].jobs, jf, jobs);
  }

  lemma UndisturbedChanges(before: JobFlowValue, templates: map<Key, SpecValue>, jobs: Jobs, after: JobFlowValue, jobs': Jobs)
    requires InOrder(before, jobs) && Reconciled(before, templates, jobs, after, jobs')
    ensures Settled(before, templates, jobs) ==> jobs' == jobs && after == before
    ensures before.status.state != FAILED && SomeStartable(before, templates, jobs) ==> jobs' != jobs
  {
    hide SomeStartable, WellOwned, Referenced, DistinctNames, DeployPass, StatusOf, IsListing;
    assert jobs + map[] == jobs;
    if before.status.state != FAILED {
      var created := DeployPass(before, templates, jobs).created;
      CreatesExactly(before, templates, jobs);
      CreatedJobs(before, templates, jobs);
      if created != map[] {
        AddsNew(jobs, created);
      }
    }
  }

  lemma AddsNew(jobs: Jobs, created: Jobs)
    requires created.Keys !! jobs.Keys && created != map[]
    ensures jobs + created != jobs
  {
    var q :| q in created;
    assert q !in jobs && q in jobs + created;
  }
}

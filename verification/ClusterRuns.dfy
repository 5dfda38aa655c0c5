/**
 Work queue and events of all JobFlows of a cluster.  One worker takes keys off the queue and
 reconciles call by call, with up-to-date reads, while everything else goes on; an event that
 arrives during a reconcile queues its key again.
 */
module ClusterRuns {
  import opened Kube
  import opened JobFlows
  import opened Machine
  import opened FlowStatus
  import opened Passes
  import opened PassByCalls
  import opened StatusMeaning
  import opened Reconciling
  import opened WorkQueue

  /** The worker is idle or in the middle of a reconcile; cut says that its deploy part was ended by a BadRequest
      from the API. */
  datatype Worker = Idle | Busy(key: Key, pc: ReconcilePc, cut: bool)

  /** stranded keeps track of the JobFlows whose last reconcile was cut short with a flow left to start. */
  datatype Cluster = Cluster(jobs: Jobs, flows: map<Key, JobFlowValue>, queue: set<Key>, worker: Worker, stranded: set<Key>)

  /** The Jobs of a JobFlow carry the one owner reference prepareJob writes. */
  ghost predicate Referenced(jf: JobFlowValue, jobs: Jobs) {
    forall k :: k in jobs && MentionedKey(jf, k) ==>
      IsFlowKey(jf, k) && jobs[k].owners == [OwnerReference(API_VERSION, KIND, jf.name, jf.uid)]
  }

  ghost predicate InOrder(jf: JobFlowValue, jobs: Jobs) {
    DistinctNames(jf) && WellFormed(jf) && WellOwned(jf, jobs) && Referenced(jf, jobs)
  }

  // ---- the environment ----

  /** A Job that no JobFlow looks up or owns. */
  ghost predicate Unrelated(c: Cluster, k: Key, job: JobValue) {
    && job.key == k
    && forall f :: f in c.flows ==> !MentionedKey(c.flows[f], k) && Matches(job.owners, KIND, c.flows[f].name) == 0
  }

  ghost predicate JobUpdated(c: Cluster, c': Cluster) {
    exists k, status :: k in c.jobs &&
      var job := c.jobs[k].(status := status);
      c' == c.(jobs := c.jobs[k := job], queue := c.queue + OwnerKeys(job))
  }

  ghost predicate JobDeleted(c: Cluster, c': Cluster) {
    exists k :: k in c.jobs && c' == c.(jobs := c.jobs - {k}, queue := c.queue + OwnerKeys(c.jobs[k]))
  }

  /** Somebody else's Job appears; the controller watches no Job creations (main.go:93-99). */
  ghost predicate OtherJobCreated(c: Cluster, c': Cluster) {
    exists k, job :: k !in c.jobs && Unrelated(c, k, job) && c' == c.(jobs := c.jobs[k := job])
  }

  /** A new JobFlow whose Job names are free and collide with nobody's, the JobFlow the worker still has in hand included. */
  ghost predicate FlowCreated(c: Cluster, c': Cluster) {
    exists jf :: FlowKey(jf) !in c.flows && InOrder(jf, c.jobs)
      && (forall k :: k in c.flows ==> Disjoint(jf, c.flows[k]))
      && (c.worker.Busy? && InHand(c.worker.pc).Some? ==> Disjoint(jf, InHand(c.worker.pc).value))
      && c' == c.(flows := c.flows[FlowKey(jf) := jf], queue := c.queue + {FlowKey(jf)})
  }

  ghost predicate FlowMarked(c: Cluster, c': Cluster, k: Key) {
    k in c.flows && c' == c.(flows := c.flows[k := c.flows[k].(deleting := true)], queue := c.queue + {k})
  }

  ghost predicate FlowRemoved(c: Cluster, c': Cluster, k: Key) {
    k in c.flows && c' == c.(flows := c.flows - {k}, queue := c.queue + {k})
  }

  ghost predicate FlowDeleted(c: Cluster, c': Cluster) {
    exists k :: FlowMarked(c, c', k) || FlowRemoved(c, c', k)
  }

  /** Resyncs may queue anything. */
  ghost predicate Requeued(c: Cluster, c': Cluster) {
    c' == c.(queue := c.queue + c'.queue)
  }

  // ---- the worker ----

  ghost predicate Started(c: Cluster, c': Cluster) {
    exists k :: k in c.queue && c.worker == Idle && c' == c.(queue := c.queue - {k}, worker := Busy(k, ReadJobFlow, false))
  }

  /** The controller process dies; the new one begins by queueing every JobFlow. */
  ghost predicate Restarted(c: Cluster, c': Cluster) {
    c' == c.(queue := c.queue + c.flows.Keys, worker := Idle)
  }

  /** The up-to-date answer to the worker's call and what it changes.  A status update is refused unless the stored
      JobFlow is still the one that was read; a call that reports a fault may have taken effect. */
  ghost predicate Served(templates: map<Key, SpecValue>, c: Cluster, resp: Response, c': Cluster)
    requires c.worker.Busy? && ValidReconcilePc(c.worker.pc) && !c.worker.pc.Finished?
  {
    var k, pc := c.worker.key, c.worker.pc;
    var req := ReconcileRequest(k, pc);
    match pc
    case ReadJobFlow =>
      && c'.jobs == c.jobs && c'.flows == c.flows
      && (resp.JobFlowFound? ==> k in c.flows && resp.jf == c.flows[k])
      && (resp.NotFound? ==> k !in c.flows)
    case Deploying(_, _) =>
      && c'.flows == c.flows && Fresh(templates, c.jobs, req, resp, c'.jobs)
      && (req.GetTemplate? && resp.NotFound? ==> req.template !in templates)
    case Listing(_, _) =>
      c'.jobs == c.jobs && c'.flows == c.flows && (resp.Listed? ==> IsListing(resp.items, c.jobs))
    case Updating(jf, status) =>
      && c'.jobs == c.jobs
      && var accepted := k in c.flows && c.flows[k] == jf;
         && (resp.Done? ==> accepted && c'.flows == c.flows[k := jf.(status := status)])
         && (resp.NotFound? ==> k !in c.flows && c'.flows == c.flows)
         && (resp.Fault? ==> c'.flows == c.flows || (accepted && c'.flows == c.flows[k := jf.(status := status)]))
  }

  /** An error requeues the key, and so does a status that changed, being an event of the JobFlow. */
  ghost predicate Called(templates: map<Key, SpecValue>, c: Cluster, resp: Response, c': Cluster) {
    && c.worker.Busy? && ValidReconcilePc(c.worker.pc) && !c.worker.pc.Finished?
    && var k := c.worker.key;
       && Fits(ReconcileRequest(k, c.worker.pc), resp) && Served(templates, c, resp, c')
       && var next := ReconcileNext(k, c.worker.pc, resp);
          && c'.worker == (if next.Finished? then Idle
                           else Busy(k, next, c.worker.cut || (next.Listing? && next.outcome == BadRequest(FromServer))))
          && c'.queue == c.queue + (if (next.Finished? && next.requeue) || c'.flows != c.flows then {k} else {})
          && c'.stranded == (if !next.Finished? then c.stranded
                             else if c.worker.cut && k in c'.flows && SomeStartable(c'.flows[k], templates, c'.jobs)
                             then c.stranded + {k} else c.stranded - {k})
  }

  ghost predicate Step(templates: map<Key, SpecValue>, c: Cluster, c': Cluster) {
    || JobUpdated(c, c') || JobDeleted(c, c') || OtherJobCreated(c, c') || FlowCreated(c, c') || FlowDeleted(c, c')
    || Requeued(c, c') || Started(c, c') || Restarted(c, c') || exists resp :: Called(templates, c, resp, c')
  }

  ghost predicate Init(c: Cluster) {
    c.flows == map[] && c.worker == Idle && c.stranded == {}
  }

  ghost predicate Run(templates: map<Key, SpecValue>, cs: seq<Cluster>) {
    && |cs| > 0 && Init(cs[0])
    && forall i :: 0 <= i < |cs| - 1 ==> Step(templates, cs[i], cs[i + 1])
  }
}

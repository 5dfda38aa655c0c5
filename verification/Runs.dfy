/**
 Runs of one JobFlow.  Every client call of the controller is a step of its own and the
 environment acts in between.  The API server keeps the history of the Jobs and of the
 JobFlow; what the controller reads is some earlier entry, which only moves forward.
 A JobTemplate may be there or not from one moment to the next, but has one content.
 */
module Runs {
  import opened Kube
  import opened JobFlows
  import opened Machine
  import opened FlowStatus

  /** The JobFlow object as stored: its spec never changes. */
  datatype Version = Stored(status: JobFlowStatus, deleting: bool) | Gone

  /** Reconciles of one key never overlap, so the controller is idle or inside one of them. */
  datatype ControllerState = Idle | Busy(version: nat, pc: ReconcilePc)

  datatype World = World(
    templates: map<Key, SpecValue>,
    jobs: seq<Jobs>,
    seen: nat,
    flow: seq<Version>,
    flowSeen: nat,
    controller: ControllerState)

  predicate Bounds(w: World) {
    w.seen < |w.jobs| && w.flowSeen < |w.flow|
  }

  function Now(w: World): Jobs
    requires Bounds(w)
  {
    w.jobs[|w.jobs| - 1]
  }

  function NowFlow(w: World): Version
    requires Bounds(w)
  {
    w.flow[|w.flow| - 1]
  }

  function Cache(w: World): Jobs
    requires Bounds(w)
  {
    w.jobs[w.seen]
  }

  function At(spec: JobFlowValue, v: Version): JobFlowValue
    requires v.Stored?
  {
    spec.(status := v.status, deleting := v.deleting)
  }

  const NEW := Stored(JobFlowStatus(map[], ""), false)

  /** A new JobFlow: nobody has created a Job under its names, and no Job claims to be its. */
  ghost predicate Init(spec: JobFlowValue, w: World) {
    && |w.jobs| == 1 && w.seen == 0 && w.flow == [NEW] && w.flowSeen == 0 && w.controller == Idle
    && Filed(w.jobs[0])
    && (forall k :: k in w.jobs[0] ==> Foreign(spec, k, w.jobs[0][k]))
  }

  /** A Job that is not this JobFlow's business. */
  ghost predicate Foreign(spec: JobFlowValue, k: Key, job: JobValue) {
    !MentionedKey(spec, k) && job.key == k && Matches(job.owners, KIND, spec.name) == 0
  }

  /** What others may do to the Jobs: nobody else creates Jobs under this JobFlow's names or in its
      name, a Job's status advances, and Jobs go away only if deletions are allowed. */
  ghost predicate Moved(spec: JobFlowValue, deletions: bool, before: Jobs, after: Jobs) {
    && (forall k :: k in after ==>
          if MentionedKey(spec, k) then
            k in before && after[k] == before[k].(status := after[k].status) && Advances(before[k].status, after[k].status)
          else Foreign(spec, k, after[k]))
    && (forall k :: k in before && MentionedKey(spec, k) && !deletions ==> k in after)
  }

  ghost predicate Environment(spec: JobFlowValue, deletions: bool, w: World, w': World)
    requires Bounds(w)
  {
    && |w'.jobs| == |w.jobs| + 1 && w' == w.(jobs := w.jobs + [w'.jobs[|w.jobs|]])
    && Moved(spec, deletions, Now(w), w'.jobs[|w.jobs|])
  }

  /** A user deletes the JobFlow: it is marked, or it is gone. */
  ghost predicate DeleteFlow(w: World, w': World)
    requires Bounds(w)
  {
    && NowFlow(w).Stored?
    && (w' == w.(flow := w.flow + [NowFlow(w).(deleting := true)]) || w' == w.(flow := w.flow + [Gone]))
  }

  /** The read caches catch up, partly or fully. */
  ghost predicate Observe(w: World, w': World) {
    && w.seen <= w'.seen < |w.jobs| && w.flowSeen <= w'.flowSeen < |w.flow|
    && w' == w.(seen := w'.seen, flowSeen := w'.flowSeen)
  }

  /** A reconcile starts, or the controller process dies in the middle of one. */
  ghost predicate StartOrCrash(w: World, w': World) {
    || (w.controller == Idle && w' == w.(controller := Busy(0, ReadJobFlow)))
    || (w.controller.Busy? && w' == w.(controller := Idle))
  }

  function Recorded(history: seq<Version>, status: JobFlowStatus): seq<Version>
    requires |history| > 0 && history[|history| - 1].Stored?
  {
    var now := history[|history| - 1];
    if now.status == status then history else history + [now.(status := status)]
  }

  /** How the API answers a request.  A status update carries the version that was read and is refused
      if that is not the newest; a call that reports a fault may have taken effect all the same. */
  ghost predicate Served(spec: JobFlowValue, w: World, version: nat, req: Request, resp: Response, w': World)
    requires Bounds(w)
  {
    match req
    case GetJobFlow(_) =>
      && w'.jobs == w.jobs && w'.flow == w.flow
      && (resp.JobFlowFound? ==> w.flow[w.flowSeen].Stored? && resp.jf == At(spec, w.flow[w.flowSeen]))
      && (resp.NotFound? ==> w.flow[w.flowSeen].Gone?)
    case GetTemplate(k) =>
      && w'.jobs == w.jobs && w'.flow == w.flow
      && (resp.TemplateFound? ==> k in w.templates && resp.spec == w.templates[k])
    case ListNodes => w'.jobs == w.jobs && w'.flow == w.flow
    case GetJob(k) =>
      && w'.jobs == w.jobs && w'.flow == w.flow
      && (resp.JobFound? ==> k in Cache(w) && resp.job == Cache(w)[k])
      && (resp.NotFound? ==> k !in Cache(w))
    case CreateJob(job) =>
      && w'.flow == w.flow
      && var created := w.jobs + [Now(w)[job.key := job]];
         && (resp.Done? ==> job.key !in Now(w) && w'.jobs == created)
         && (resp.AlreadyExists? ==> job.key in Now(w) && w'.jobs == w.jobs)
         && (resp.Fault? ==> w'.jobs == w.jobs || (job.key !in Now(w) && w'.jobs == created))
    case ListJobs =>
      && w'.jobs == w.jobs && w'.flow == w.flow
      && (resp.Listed? ==> IsListing(resp.items, Cache(w)))
    case UpdateStatus(status) =>
      && w'.jobs == w.jobs
      && var accepted := NowFlow(w).Stored? && version == |w.flow| - 1;
         && (resp.Done? ==> accepted && w'.flow == Recorded(w.flow, status))
         && (resp.NotFound? ==> NowFlow(w).Gone? && w'.flow == w.flow)
         && (resp.Fault? ==> w'.flow == w.flow || (accepted && w'.flow == Recorded(w.flow, status)))
  }

  /** The controller's pending call is answered. */
  ghost predicate Called(spec: JobFlowValue, w: World, resp: Response, w': World)
    requires Bounds(w)
  {
    && w.controller.Busy? && ValidReconcilePc(w.controller.pc) && !w.controller.pc.Finished?
    && var req := ReconcileRequest(FlowKey(spec), w.controller.pc);
       && Fits(req, resp)
       && Served(spec, w, w.controller.version, req, resp, w')
       && w'.templates == w.templates && w'.seen == w.seen && w'.flowSeen == w.flowSeen
       && var pc := ReconcileNext(FlowKey(spec), w.controller.pc, resp);
          w'.controller == if pc.Finished? then Idle
                           else Busy(if req.GetJobFlow? then w.flowSeen else w.controller.version, pc)
  }

  /** Everything that can happen except that others change the Jobs. */
  ghost predicate OwnStep(spec: JobFlowValue, w: World, w': World)
    requires Bounds(w)
  {
    || StartOrCrash(w, w')
    || (exists resp :: Called(spec, w, resp, w'))
    || Observe(w, w')
    || DeleteFlow(w, w')
  }

  ghost predicate Step(spec: JobFlowValue, deletions: bool, w: World, w': World) {
    Bounds(w) && (OwnStep(spec, w, w') || Environment(spec, deletions, w, w'))
  }

  ghost predicate Run(spec: JobFlowValue, deletions: bool, ws: seq<World>) {
    && |ws| > 0 && Init(spec, ws[0])
    && forall i :: 0 <= i < |ws| - 1 ==> Step(spec, deletions, ws[i], ws[i + 1])
  }
}

/**
 One reconcile of a JobFlow as a machine over client calls: every state but the last
 has exactly one pending request, and the answer to it decides the next state.  The
 imperative controller is proved to be this machine, and runs interleave its steps
 with the environment's.
 */
module Machine {
  import opened Kube
  import opened JobFlows
  import opened Render
  import opened FlowStatus

  datatype Cause = DependencyFailed(job: Key) | TemplateMissing(template: Key) | FromServer

  /** The error deployJobFlow returns; a BadRequest is told apart from every other error. */
  datatype Outcome = Deployed | BadRequest(cause: Cause) | Error

  datatype Request =
    | GetJobFlow(jobFlow: Key)
    | GetTemplate(template: Key)
    | GetJob(job: Key)
    | CreateJob(created: JobValue)
    | ListJobs
    | ListNodes
    | UpdateStatus(status: JobFlowStatus)

  datatype Response =
    | JobFlowFound(jf: JobFlowValue)
    | TemplateFound(spec: SpecValue)
    | JobFound(job: JobValue)
    | Listed(items: seq<JobValue>)
    | NodesListed(nodes: seq<string>)
    | Done
    | NotFound
    | AlreadyExists
    | Fault(badRequest: bool)

  /** Which answers the API can give to which requests. */
  predicate Fits(req: Request, resp: Response) {
    resp.Fault? ||
    match req
    case GetJobFlow(_) => resp.JobFlowFound? || resp.NotFound?
    case GetTemplate(_) => resp.TemplateFound? || resp.NotFound?
    case GetJob(_) => resp.JobFound? || resp.NotFound?
    case CreateJob(_) => resp.Done? || resp.AlreadyExists?
    case ListJobs => resp.Listed?
    case ListNodes => resp.NodesListed?
    case UpdateStatus(_) => resp.Done? || resp.NotFound?
  }

  datatype Call = Call(request: Request, response: Response)

  datatype Pc =
    | FetchTemplate(flow: nat)
    | Lookup(flow: nat, base: SpecValue)
    | CheckDependency(flow: nat, base: SpecValue, dependency: nat, met: bool)
    | Create(flow: nat, base: SpecValue)
    | Returned(outcome: Outcome)

  predicate ValidPc(jf: JobFlowValue, pc: Pc) {
    match pc
    case FetchTemplate(i) => i < |jf.flows| && jf.flows[i].jobTemplateRef != ""
    case Lookup(i, _) => i < |jf.flows|
    case CheckDependency(i, _, j, _) => i < |jf.flows| && j < |jf.flows[i].dependencies|
    case Create(i, _) => i < |jf.flows|
    case Returned(_) => true
  }

  /** The loop head: flow i is next, or there is none left. */
  function Enter(jf: JobFlowValue, i: nat): (pc: Pc)
    requires i <= |jf.flows|
    ensures ValidPc(jf, pc)
  {
    if i == |jf.flows| then Returned(Deployed)
    else if jf.flows[i].jobTemplateRef != "" then FetchTemplate(i)
    else Lookup(i, jf.flows[i].jobTemplate)
  }

  function FromFault(resp: Response): Outcome
    requires resp.Fault?
  {
    if resp.badRequest then BadRequest(FromServer) else Error
  }

  function RequestOf(jf: JobFlowValue, pc: Pc): Request
    requires ValidPc(jf, pc) && !pc.Returned?
  {
    match pc
    case FetchTemplate(i) => GetTemplate(Key(jf.namespace, jf.flows[i].jobTemplateRef))
    case Lookup(i, _) => GetJob(JobKey(jf, jf.flows[i].name))
    case CheckDependency(i, _, j, _) => GetJob(JobKey(jf, jf.flows[i].dependencies[j]))
    case Create(i, base) => CreateJob(RenderJob(jf, jf.flows[i], base))
  }

  function Next(jf: JobFlowValue, pc: Pc, resp: Response): (pc': Pc)
    requires ValidPc(jf, pc) && !pc.Returned? && Fits(RequestOf(jf, pc), resp)
    ensures ValidPc(jf, pc')
  {
    if resp.Fault? then Returned(FromFault(resp))
    else
      match pc
      case FetchTemplate(i) =>
        if resp.NotFound? then Returned(BadRequest(TemplateMissing(Key(jf.namespace, jf.flows[i].jobTemplateRef))))
        else Lookup(i, resp.spec)
      case Lookup(i, base) =>
        if resp.JobFound? then Enter(jf, i + 1)
        else if |jf.flows[i].dependencies| == 0 then Create(i, base)
        else CheckDependency(i, base, 0, true)
      case CheckDependency(i, base, j, met) =>
        if resp.NotFound? then Enter(jf, i + 1)
        else if resp.job.status.failed == 1 then
          Returned(BadRequest(DependencyFailed(JobKey(jf, jf.flows[i].dependencies[j]))))
        else
          var met' := met && resp.job.status.succeeded == 1;
          if j + 1 < |jf.flows[i].dependencies| then CheckDependency(i, base, j + 1, met')
          else if met' then Create(i, base)
          else Enter(jf, i + 1)
      case Create(i, _) =>
        // AlreadyExists skips a flow without dependencies, but ends the loop for one with them.
        if resp.AlreadyExists? && |jf.flows[i].dependencies| != 0 then Returned(Deployed)
        else Enter(jf, i + 1)
  }

  /** The state the machine is in after these calls; None if it would not have made them. */
  function Drive(jf: JobFlowValue, pc: Pc, calls: seq<Call>): (r: Option<Pc>)
    requires ValidPc(jf, pc)
    ensures r.Some? ==> ValidPc(jf, r.value)
  {
    if calls == [] then Some(pc)
    else
      var last := calls[|calls| - 1];
      match Drive(jf, pc, calls[..|calls| - 1])
      case None => None
      case Some(p) =>
        if p.Returned? || last.request != RequestOf(jf, p) || !Fits(last.request, last.response) then None
        else Some(Next(jf, p, last.response))
  }

  /** The whole reconcile: read the JobFlow, deploy, list the Jobs, write the status. */
  datatype ReconcilePc =
    | ReadJobFlow
    | Deploying(jf: JobFlowValue, pc: Pc)
    | Listing(jf: JobFlowValue, outcome: Outcome)
    | Updating(jf: JobFlowValue, status: JobFlowStatus)
    | Finished(requeue: bool)

  predicate ValidReconcilePc(pc: ReconcilePc) {
    pc.Deploying? ==> ValidPc(pc.jf, pc.pc) && !pc.pc.Returned?
  }

  /** A BadRequest goes on to the status update; any other error gives up and comes back later. */
  function AfterDeploy(jf: JobFlowValue, pc: Pc): (rpc: ReconcilePc)
    requires ValidPc(jf, pc)
    ensures ValidReconcilePc(rpc)
  {
    if !pc.Returned? then Deploying(jf, pc)
    else if pc.outcome.Error? then Finished(true)
    else Listing(jf, pc.outcome)
  }

  function ReconcileRequest(key: Key, pc: ReconcilePc): Request
    requires ValidReconcilePc(pc) && !pc.Finished?
  {
    match pc
    case ReadJobFlow => GetJobFlow(key)
    case Deploying(jf, p) => RequestOf(jf, p)
    case Listing(_, _) => ListJobs
    case Updating(_, status) => UpdateStatus(status)
  }

  function ReconcileNext(key: Key, pc: ReconcilePc, resp: Response): (pc': ReconcilePc)
    requires ValidReconcilePc(pc) && !pc.Finished? && Fits(ReconcileRequest(key, pc), resp)
    ensures ValidReconcilePc(pc')
  {
    match pc
    case ReadJobFlow =>
      if resp.Fault? then Finished(true)
      else if resp.NotFound? || resp.jf.status.state == FAILED then Finished(false)
      else AfterDeploy(resp.jf, Enter(resp.jf, 0))
    case Deploying(jf, p) => AfterDeploy(jf, Next(jf, p, resp))
    case Listing(jf, _) =>
      if resp.Fault? then Finished(true) else Updating(jf, StatusOf(jf, resp.items))
    case Updating(_, _) => Finished(resp.Fault?)
  }

  /** The JobFlow the controller works on, once it has read it. */
  function InHand(pc: ReconcilePc): Option<JobFlowValue> {
    match pc
    case Deploying(jf, _) => Some(jf)
    case Listing(jf, _) => Some(jf)
    case Updating(jf, _) => Some(jf)
    case ReadJobFlow => None
    case Finished(_) => None
  }

  function DriveReconcile(key: Key, calls: seq<Call>): (r: Option<ReconcilePc>)
    ensures r.Some? ==> ValidReconcilePc(r.value)
  {
    if calls == [] then Some(ReadJobFlow)
    else
      var last := calls[|calls| - 1];
      match DriveReconcile(key, calls[..|calls| - 1])
      case None => None
      case Some(p) =>
        if p.Finished? || last.request != ReconcileRequest(key, p) || !Fits(last.request, last.response) then None
        else Some(ReconcileNext(key, p, last.response))
  }
}

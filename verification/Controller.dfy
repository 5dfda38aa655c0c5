/**
 The JobFlow controller on the heap: the client, deep copies, prepareJob's in-place
 rendering, the deploy loop and Reconcile.
 */
module Controller {
  import opened Kube
  import opened JobFlows
  import opened Render
  import opened FlowStatus
  import opened Machine
  import opened Deploy
  import opened Calls
  import opened Tallies

  ghost function FlowView(f: FlowObject): FlowValue
    reads f.jobTemplate.containers
  {
    Flow(f.name, SpecView(f.jobTemplate), f.jobTemplateRef, f.dependencies, f.shareVolumeMounts)
  }

  /** The container slices reachable from these flows. */
  ghost function Slices(flows: seq<FlowObject>): set<object> {
    set i | 0 <= i < |flows| :: flows[i].jobTemplate.containers
  }

  ghost function JobFlowView(jf: JobFlowObject): (v: JobFlowValue)
    reads Slices(jf.flows)
    ensures |v.flows| == |jf.flows|
    ensures forall i :: 0 <= i < |jf.flows| ==> v.flows[i] == FlowView(jf.flows[i])
  {
    JobFlow(jf.apiVersion, jf.kind, jf.namespace, jf.name, jf.uid, jf.deleting, jf.globalParams,
            seq(|jf.flows|, i requires 0 <= i < |jf.flows| reads Slices(jf.flows) => FlowView(jf.flows[i])),
            jf.shareVolumes, jf.status)
  }

  /** No two flows share a container slice. */
  ghost predicate Separate(flows: seq<FlowObject>) {
    forall i, j :: 0 <= i < j < |flows| ==> flows[i].jobTemplate.containers != flows[j].jobTemplate.containers
  }

  /** The library's deep copy of a Job template. */
  method DeepCopySpec(from: SpecObject) returns (to: SpecObject)
    ensures fresh(to.containers) && SpecView(to) == SpecView(from)
  {
    var containers := new Container[from.containers.Length](i requires 0 <= i < from.containers.Length reads from.containers => from.containers[i]);
    assert containers[..] == from.containers[..];
    to := from.(containers := containers);
  }

  method DeepCopyFlow(from: FlowObject) returns (to: FlowObject)
    ensures fresh(to.jobTemplate.containers) && FlowView(to) == FlowView(from)
  {
    to := from;
    var template := DeepCopySpec(from.jobTemplate);
    to := to.(jobTemplate := template);
  }

  method DeepCopy(from: JobFlowObject) returns (to: JobFlowObject)
    ensures Separate(to.flows) && fresh(Slices(to.flows))
    ensures JobFlowView(to) == JobFlowView(from)
  {
    to := from;
    var flows: seq<FlowObject> := [];
    for i := 0 to |from.flows|
      invariant |flows| == i && Separate(flows) && fresh(Slices(flows))
      invariant forall k :: 0 <= k < i ==> FlowView(flows[k]) == FlowView(from.flows[k])
    {
      var flow := DeepCopyFlow(from.flows[i]);
      assert forall k :: 0 <= k < i ==> flows[k].jobTemplate.containers in Slices(flows);
      flows := flows + [flow];
    }
    to := to.(flows := flows);
    assert forall k :: 0 <= k < |flows| ==> JobFlowView(to).flows[k] == JobFlowView(from).flows[k];
  }

  /** The API as the controller reaches it.  When isolated, no call fails, reads are up to date
      and nobody else writes between calls.  Otherwise any call may get any fitting answer, except
      that a JobFlow that is found is the one the cache holds. */
  class Client {
    const isolated: bool
    var jobs: Jobs
    var templates: map<Key, SpecValue>
    var cached: map<Key, JobFlowObject>
    var nodes: seq<string>
    ghost var log: seq<Call>

    constructor (isolated: bool, jobs: Jobs, templates: map<Key, SpecValue>, cached: map<Key, JobFlowObject>, nodes: seq<string>)
      ensures this.isolated == isolated && this.jobs == jobs && this.templates == templates
      ensures this.cached == cached && this.nodes == nodes && log == []
    {
      this.isolated, this.jobs, this.templates, this.cached, this.nodes := isolated, jobs, templates, cached, nodes;
      log := [];
    }

    /** Any answer that fits the request. */
    method Answer(req: Request) returns (resp: Response)
      ensures Fits(req, resp)
    {
      resp := *;
      if !Fits(req, resp) {
        resp := Fault(false);
      }
    }

    method GetTemplate(k: Key) returns (resp: Response, found: Option<SpecObject>)
      modifies `log
      ensures Fits(Request.GetTemplate(k), resp) && log == old(log) + [Call(Request.GetTemplate(k), resp)]
      ensures found.Some? <==> resp.TemplateFound?
      ensures found.Some? ==> fresh(found.value.containers) && SpecView(found.value) == resp.spec
      ensures isolated ==> resp == if k in templates then TemplateFound(templates[k]) else NotFound
    {
      if isolated {
        resp := if k in templates then TemplateFound(templates[k]) else NotFound;
      } else {
        resp := Answer(Request.GetTemplate(k));
      }
      found := None;
      if resp.TemplateFound? {
        var items := resp.spec.containers;
        var containers := new Container[|items|](i requires 0 <= i < |items| => items[i]);
        assert containers[..] == items;
        var s := resp.spec;
        found := Some(JobSpec(s.volumes, containers, s.restartPolicy, s.backoffLimit, s.nodeName, s.labels, s.annotations));
      }
      log := log + [Call(Request.GetTemplate(k), resp)];
    }

    method GetJob(k: Key) returns (resp: Response)
      modifies `log
      ensures Fits(Request.GetJob(k), resp) && log == old(log) + [Call(Request.GetJob(k), resp)]
      ensures isolated ==> resp == if k in jobs then JobFound(jobs[k]) else NotFound
    {
      if isolated {
        resp := if k in jobs then JobFound(jobs[k]) else NotFound;
      } else {
        resp := Answer(Request.GetJob(k));
      }
      log := log + [Call(Request.GetJob(k), resp)];
    }

    /** The object is sent as it is at the call. */
    method Create(job: JobObject) returns (resp: Response)
      modifies `log, `jobs
      ensures Fits(CreateJob(JobView(job)), resp) && log == old(log) + [Call(CreateJob(JobView(job)), resp)]
      ensures isolated ==> resp == if job.key in old(jobs) then AlreadyExists else Done
      ensures isolated ==> jobs == if job.key in old(jobs) then old(jobs) else old(jobs)[job.key := JobView(job)]
    {
      var s := job.spec;
      var sent := Job(job.key, job.owners, job.annotations, job.labels,
                      JobSpec(s.volumes, s.containers[..], s.restartPolicy, s.backoffLimit, s.nodeName, s.labels, s.annotations),
                      job.status);
      if !isolated {
        resp := Answer(CreateJob(sent));
      } else if job.key in jobs {
        resp := AlreadyExists;
      } else {
        jobs := jobs[job.key := sent];
        resp := Done;
      }
      log := log + [Call(CreateJob(sent), resp)];
    }

    method List() returns (resp: Response)
      modifies `log
      ensures Fits(ListJobs, resp) && log == old(log) + [Call(ListJobs, resp)]
      ensures isolated ==> resp.Listed? && (Filed(jobs) ==> IsListing(resp.items, jobs))
    {
      if isolated {
        var items := Items(jobs);
        resp := Listed(items);
      } else {
        resp := Answer(ListJobs);
      }
      log := log + [Call(ListJobs, resp)];
    }

    method ListNodes() returns (resp: Response)
      modifies `log
      ensures Fits(Request.ListNodes, resp) && log == old(log) + [Call(Request.ListNodes, resp)]
      ensures isolated ==> resp == NodesListed(nodes)
    {
      if isolated {
        resp := NodesListed(nodes);
      } else {
        resp := Answer(Request.ListNodes);
      }
      log := log + [Call(Request.ListNodes, resp)];
    }

    /** The cached object is shared by everybody, so the caller gets a deep copy of it. */
    method GetJobFlow(k: Key) returns (error: Response, found: Option<JobFlowObject>, ghost resp: Response)
      modifies `log
      ensures Fits(Request.GetJobFlow(k), resp) && log == old(log) + [Call(Request.GetJobFlow(k), resp)]
      ensures found.Some? <==> resp.JobFlowFound?
      ensures found.None? ==> error == resp
      ensures found.Some? ==> Separate(found.value.flows) && fresh(Slices(found.value.flows))
      ensures found.Some? ==> k in cached && resp.jf == JobFlowView(found.value) == old(JobFlowView(cached[k]))
      ensures isolated ==> (found.Some? <==> k in cached) && !resp.Fault?
    {
      error := Answer(Request.GetJobFlow(k));
      found, resp := None, NotFound;
      if k in cached && (isolated || error.JobFlowFound?) {
        var copy := DeepCopy(cached[k]);
        found, resp := Some(copy), JobFlowFound(JobFlowView(copy));
      } else {
        error := if isolated || error.JobFlowFound? then NotFound else error;
        resp := error;
      }
      log := log + [Call(Request.GetJobFlow(k), resp)];
    }

    /** Only the status of the stored object changes. */
    method UpdateStatus(k: Key, status: JobFlowStatus) returns (resp: Response)
      modifies `log, `cached
      ensures Fits(Request.UpdateStatus(status), resp) && log == old(log) + [Call(Request.UpdateStatus(status), resp)]
      ensures isolated ==> resp == if k in old(cached) then Done else NotFound
      ensures isolated ==> cached == if k in old(cached) then old(cached)[k := old(cached)[k].(status := status)] else old(cached)
      ensures !isolated ==> cached == old(cached)
    {
      if !isolated {
        resp := Answer(Request.UpdateStatus(status));
      } else if k in cached {
        cached := cached[k := cached[k].(status := status)];
        resp := Done;
      } else {
        resp := NotFound;
      }
      log := log + [Call(Request.UpdateStatus(status), resp)];
    }
  }

  /** The Jobs of a store, in the arbitrary order a map is walked in. */
  method Items(jobs: Jobs) returns (items: seq<JobValue>)
    ensures Filed(jobs) ==> IsListing(items, jobs)
  {
    items := [];
    var left := jobs.Keys;
    while left != {}
      invariant left <= jobs.Keys
      invariant Filed(jobs) ==> forall i :: 0 <= i < |items| ==>
                  items[i].key in jobs && items[i].key !in left && items[i] == jobs[items[i].key]
      invariant Filed(jobs) ==> forall i, j :: 0 <= i < j < |items| ==> items[i].key != items[j].key
      invariant Filed(jobs) ==> forall k :: k in jobs && k !in left ==> exists i :: 0 <= i < |items| && items[i].key == k
      decreases left
    {
      var k :| k in left;
      ghost var before := items;
      items := items + [jobs[k]];
      left := left - {k};
      assert Filed(jobs) ==> items[|before|].key == k;
      assert forall i :: 0 <= i < |before| ==> items[i] == before[i];
    }
  }

  /** Copies every entry of extra into target. */
  method Merge(target: map<string, string>, extra: map<string, string>) returns (merged: map<string, string>)
    ensures merged == target + extra
    ensures target == map[] ==> merged == extra
  {
    merged := target;
    var left := extra.Keys;
    while left != {}
      invariant left <= extra.Keys
      invariant merged == target + (map k | k in extra && k !in left :: extra[k])
      decreases left
    {
      var k :| k in left;
      merged := merged[k := extra[k]];
      left := left - {k};
    }
    assert (map k | k in extra && k !in left :: extra[k]) == extra;
  }

  /** Every container of the shared slice gets the mounts after its own. */
  method AppendMounts(containers: array<Container>, mounts: seq<VolumeMount>)
    modifies containers
    ensures forall n :: 0 <= n < containers.Length ==>
              var own := old(containers[n]).volumeMounts;
              containers[n] == old(containers[n]).(volumeMounts := Some((if own.Some? then own.value else []) + mounts))
  {
    assert [] + mounts == mounts;
    for i := 0 to containers.Length
      invariant forall n :: 0 <= n < containers.Length ==>
                  containers[n] == if n < i then Mounted(old(containers[n]), mounts) else old(containers[n])
    {
      var own := containers[i].volumeMounts;
      containers[i] := containers[i].(volumeMounts := Some(if own.Some? then own.value + mounts else mounts));
    }
  }

  method ReplaceEnv(containers: array<Container>, env: seq<EnvVar>)
    modifies containers
    ensures forall n :: 0 <= n < containers.Length ==> containers[n] == old(containers[n]).(env := Some(env))
  {
    for i := 0 to containers.Length
      invariant forall n :: 0 <= n < containers.Length ==>
                  containers[n] == if n < i then old(containers[n]).(env := Some(env)) else old(containers[n])
    {
      containers[i] := containers[i].(env := Some(env));
    }
  }

  /** helper.go:188-211: the JobFlow's volumes, and the flow's mounts in every container. */
  method ShareVolumes(jf: JobFlowObject, flow: FlowObject, spec: SpecObject) returns (shared: SpecObject)
    modifies spec.containers
    ensures var both := |jf.shareVolumes| != 0 && |flow.shareVolumeMounts| != 0;
            && shared == (if both then spec.(volumes := Some((if spec.volumes.Some? then spec.volumes.value else []) + jf.shareVolumes))
                          else spec)
            && forall n :: 0 <= n < spec.containers.Length ==>
                 spec.containers[n] ==
                 (if both then Mounted(old(spec.containers[n]), flow.shareVolumeMounts) else old(spec.containers[n]))
  {
    shared := spec;
    if |jf.shareVolumes| != 0 && |flow.shareVolumeMounts| != 0 {
      assert [] + jf.shareVolumes == jf.shareVolumes;
      shared := spec.(volumes := Some(if spec.volumes.Some? then spec.volumes.value + jf.shareVolumes else jf.shareVolumes));
      AppendMounts(spec.containers, flow.shareVolumeMounts);
    }
  }

  /** helper.go:218-237: the JobFlow's global annotations, labels and node. */
  method ApplyGlobals(params: GlobalParams, mark: map<string, string>, spec: SpecObject)
    returns (annotations: map<string, string>, labels: map<string, string>, applied: SpecObject)
    ensures annotations == mark + (if params.annotations.Some? then params.annotations.value else map[])
    ensures labels == if params.labels.Some? then params.labels.value else map[]
    ensures applied == spec.(
              nodeName := if params.nodeName != "" then params.nodeName else spec.nodeName,
              labels := if params.labels.Some? then params.labels.value else spec.labels,
              annotations := if params.annotations.Some? then params.annotations.value else spec.annotations)
  {
    annotations, labels, applied := mark, map[], spec;
    assert mark + map[] == mark;
    if params.annotations.Some? {
      annotations := Merge(annotations, params.annotations.value);
      var pod := Merge(map[], params.annotations.value);
      applied := applied.(annotations := pod);
    }
    if params.labels.Some? {
      labels := Merge(labels, params.labels.value);
      var pod := Merge(map[], params.labels.value);
      applied := applied.(labels := pod);
    }
    if params.nodeName != "" {
      applied := applied.(nodeName := params.nodeName);
    }
  }

  /** The part of prepareJob after the template is found (helper.go:188-245); writes into the template's own slice. */
  method RenderInPlace(jf: JobFlowObject, flow: FlowObject, jobName: string, template: SpecObject) returns (job: JobObject)
    requires jobName == JobName(jf.name, flow.name)
    modifies template.containers
    ensures AsAsked(jf, flow, old(SpecView(template)), JobView(job)) && job.status == NO_STATUS
    ensures JobView(job) == RenderJob(jf, flow, old(SpecView(template)))
    ensures job.spec.containers == template.containers
  {
    hide AsAsked;
    var spec := ShareVolumes(jf, flow, template);
    spec := spec.(restartPolicy := "Never", backoffLimit := Some(0));
    var annotations, labels, applied := ApplyGlobals(jf.globalParams, TemplateMark(jf, flow), spec);
    if jf.globalParams.env.Some? {
      ReplaceEnv(template.containers, jf.globalParams.env.value);
    }
    job := Job(Key(jf.namespace, jobName), [OwnerReference(jf.apiVersion, jf.kind, jf.name, jf.uid)],
               annotations, labels, applied, NO_STATUS);
    assert template.containers[..] == RenderSpec(jf, flow, old(SpecView(template))).containers;
    RenderedAsAsked(jf, flow, old(SpecView(template)), JobView(job));
  }

  /** pkg/controller/helper.go:153-246.  The spec is copied as a struct, so the container slice stays shared. */
  method PrepareJob(client: Client, jf: JobFlowObject, flow: FlowObject, jobName: string)
    returns (job: Option<JobObject>, outcome: Outcome, ghost base: SpecValue)
    requires jobName == JobName(jf.name, flow.name)
    modifies client`log, flow.jobTemplate.containers
    ensures flow.jobTemplateRef == "" ==>
              job.Some? && client.log == old(client.log) && base == old(SpecView(flow.jobTemplate))
    ensures flow.jobTemplateRef != "" ==>
              && |client.log| == |old(client.log)| + 1 && client.log[..|old(client.log)|] == old(client.log)
              && var call := client.log[|old(client.log)|];
                 && call.request == GetTemplate(Key(jf.namespace, flow.jobTemplateRef))
                 && Fits(call.request, call.response)
                 && (job.Some? <==> call.response.TemplateFound?)
                 && (job.Some? ==> base == call.response.spec)
                 && (call.response.NotFound? ==> outcome == BadRequest(TemplateMissing(call.request.template)))
                 && (call.response.Fault? ==> outcome == FromFault(call.response))
                 && (client.isolated ==>
                       call.response == if call.request.template in client.templates
                                        then TemplateFound(client.templates[call.request.template]) else NotFound)
    ensures flow.jobTemplateRef != "" ==> flow.jobTemplate.containers[..] == old(flow.jobTemplate.containers[..])
    ensures job.Some? ==> AsAsked(jf, flow, base, JobView(job.value)) && job.value.status == NO_STATUS
    ensures job.Some? ==> JobView(job.value) == RenderJob(jf, flow, base) && job.value.key == Key(jf.namespace, jobName)
    ensures job.Some? && flow.jobTemplateRef != "" ==> fresh(job.value.spec.containers)
    ensures job.Some? && flow.jobTemplateRef == "" ==> job.value.spec.containers == flow.jobTemplate.containers
  {
    job, outcome := None, Deployed;
    var spec := flow.jobTemplate;
    base := SpecView(spec);
    if flow.jobTemplateRef != "" {
      var k := Key(jf.namespace, flow.jobTemplateRef);
      var resp, found := client.GetTemplate(k);
      if found.None? {
        outcome := if resp.Fault? then FromFault(resp) else BadRequest(TemplateMissing(k));
        return;
      }
      spec := found.value;
    }
    base := SpecView(spec);
    var rendered := RenderInPlace(jf, flow, jobName, spec);
    job := Some(rendered);
  }

  /** The machine takes one more step on one more call. */
  lemma DriveStep(jf: JobFlowValue, start: Pc, calls: seq<Call>, pc: Pc, call: Call)
    requires ValidPc(jf, start) && Drive(jf, start, calls) == Some(pc) && !pc.Returned?
    requires call.request == RequestOf(jf, pc) && Fits(call.request, call.response)
    ensures Drive(jf, start, calls + [call]) == Some(Next(jf, pc, call.response))
  {
    assert (calls + [call])[..|calls|] == calls;
  }

  /** Jobs made so far and the pass still to come add up to the whole pass. */
  ghost predicate Midway(jf: JobFlowValue, templates: map<Key, SpecValue>, before: Jobs, made: Jobs, i: nat, now: Jobs)
    requires i <= |jf.flows|
  {
    && now == before + made
    && var rest := DeployFrom(jf, templates, i, now);
       DeployPass(jf, templates, before) == rest.(created := made + rest.created)
  }

  lemma DeployCreates(jf: JobFlowValue, templates: map<Key, SpecValue>, i: nat, now: Jobs, base: SpecValue)
    requires i < |jf.flows| && BaseOf(jf, jf.flows[i], templates) == Some(base) && JobKey(jf, jf.flows[i].name) !in now
    requires Scan(jf, jf.flows[i].dependencies, true, now) == Satisfied
    ensures var k, job := JobKey(jf, jf.flows[i].name), RenderJob(jf, jf.flows[i], base);
            var rest := DeployFrom(jf, templates, i + 1, now[k := job]);
            DeployFrom(jf, templates, i, now) == rest.(created := map[k := job] + rest.created)
  {
    hide RenderJob, Scan, BaseOf, JobKey;
  }

  lemma MidwayCreate(jf: JobFlowValue, templates: map<Key, SpecValue>, before: Jobs, made: Jobs, i: nat, now: Jobs,
                     base: SpecValue)
    requires i < |jf.flows| && Midway(jf, templates, before, made, i, now)
    requires BaseOf(jf, jf.flows[i], templates) == Some(base) && JobKey(jf, jf.flows[i].name) !in now
    requires Scan(jf, jf.flows[i].dependencies, true, now) == Satisfied
    ensures var k, job := JobKey(jf, jf.flows[i].name), RenderJob(jf, jf.flows[i], base);
            Midway(jf, templates, before, made + map[k := job], i + 1, now[k := job])
  {
    hide DeployFrom, DeployPass, RenderJob, Scan, BaseOf, JobKey;
    var k, job := JobKey(jf, jf.flows[i].name), RenderJob(jf, jf.flows[i], base);
    var rest := DeployFrom(jf, templates, i + 1, now[k := job]);
    DeployCreates(jf, templates, i, now, base);
    assert made + (map[k := job] + rest.created) == (made + map[k := job]) + rest.created;
  }

  lemma MidwaySkip(jf: JobFlowValue, templates: map<Key, SpecValue>, before: Jobs, made: Jobs, i: nat, now: Jobs)
    requires i < |jf.flows| && Midway(jf, templates, before, made, i, now)
    requires BaseOf(jf, jf.flows[i], templates).Some?
    requires JobKey(jf, jf.flows[i].name) in now || Scan(jf, jf.flows[i].dependencies, true, now) == Blocked
    ensures Midway(jf, templates, before, made, i + 1, now)
  {
  }

  lemma MidwayStop(jf: JobFlowValue, templates: map<Key, SpecValue>, before: Jobs, made: Jobs, i: nat, now: Jobs,
                   outcome: Outcome)
    requires i < |jf.flows| && Midway(jf, templates, before, made, i, now)
    requires StopsAt(jf, templates, i, now, outcome)
    ensures DeployPass(jf, templates, before).outcome == outcome
    ensures now == before + DeployPass(jf, templates, before).created
  {
    assert made + map[] == made;
  }

  /** Everything but the flows and the status agrees. */
  ghost predicate SameHeader(jf: JobFlowObject, v: JobFlowValue) {
    && jf.apiVersion == v.apiVersion && jf.kind == v.kind && jf.namespace == v.namespace && jf.name == v.name
    && jf.uid == v.uid && jf.globalParams == v.globalParams && jf.shareVolumes == v.shareVolumes
  }

  /** The dependency loop of flow i (helper.go:55-84): break on a missing Job, return on a failed one. */
  method CheckDependencies(client: Client, jf: JobFlowObject, dependencies: seq<string>,
                           ghost v: JobFlowValue, ghost i: nat, ghost base: SpecValue,
                           ghost start: Pc, ghost before: seq<Call>)
    returns (flag: bool, stop: Option<Outcome>, ghost calls: seq<Call>)
    requires SameHeader(jf, v) && i < |v.flows| && v.flows[i].dependencies == dependencies && |dependencies| > 0
    requires ValidPc(v, start) && Drive(v, start, before) == Some(CheckDependency(i, base, 0, true))
    modifies client`log
    ensures client.log == old(client.log) + calls
    ensures Drive(v, start, before + calls) ==
            Some(if stop.Some? then Returned(stop.value) else if flag then Machine.Create(i, base) else Enter(v, i + 1))
    ensures client.isolated ==>
              match Scan(v, dependencies, true, client.jobs)
              case Satisfied => flag && stop.None?
              case Blocked => !flag && stop.None?
              case Broken(k) => stop == Some(BadRequest(DependencyFailed(k)))
  {
    hide Drive;
    assert before + [] == before;
    flag, stop, calls := true, None, [];
    for j := 0 to |dependencies|
      invariant client.log == old(client.log) + calls
      invariant Drive(v, start, before + calls) ==
                Some(if j < |dependencies| then CheckDependency(i, base, j, flag)
                     else if flag then Machine.Create(i, base) else Enter(v, i + 1))
      invariant client.isolated ==>
                  Scan(v, dependencies, true, client.jobs) == Scan(v, dependencies[j..], flag, client.jobs)
    {
      var k := JobKey(jf, dependencies[j]);
      var resp := client.GetJob(k);
      ghost var call := Call(GetJob(k), resp);
      DriveStep(v, start, before + calls, CheckDependency(i, base, j, flag), call);
      assert before + calls + [call] == before + (calls + [call]);
      calls := calls + [call];
      assert dependencies[j..][1..] == dependencies[j + 1..];
      if resp.NotFound? {
        flag := false;
        break;
      }
      if resp.Fault? {
        stop := Some(FromFault(resp));
        return;
      }
      var failed := resp.job.status.failed == 1;
      if resp.job.status.succeeded != 1 {
        flag := false;
      }
      if failed {
        stop := Some(BadRequest(DependencyFailed(k)));
        return;
      }
    }
  }

  /** How the loop body leaves flow i. */
  datatype Exit = Continue | Break | Return(outcome: Outcome)

  /** The machine state that goes with leaving flow i this way. */
  function Left(v: JobFlowValue, i: nat, exit: Exit): (pc: Pc)
    requires i < |v.flows|
    ensures ValidPc(v, pc)
  {
    match exit
    case Continue => Enter(v, i + 1)
    case Break => Returned(Deployed)
    case Return(outcome) => Returned(outcome)
  }

  /** What leaving flow i means for an undisturbed pass. */
  ghost predicate LeftInStep(client: Client, v: JobFlowValue, i: nat, initially: Jobs, made: Jobs, exit: Exit)
    requires i < |v.flows|
    reads client
  {
    match exit
    case Continue => Midway(v, client.templates, initially, made, i + 1, client.jobs)
    case Break => false
    case Return(outcome) =>
      var pass := DeployPass(v, client.templates, initially);
      pass.outcome == outcome && client.jobs == initially + pass.created
  }

  /** helper.go:45-50 and 87-92: a Job that exists already is skipped, or ends the loop if the flow has dependencies. */
  method CreateOnce(client: Client, dependencies: seq<string>, job: JobObject,
                    ghost v: JobFlowValue, ghost i: nat, ghost base: SpecValue,
                    ghost start: Pc, ghost before: seq<Call>, ghost initially: Jobs, ghost made: Jobs)
    returns (exit: Exit, ghost call: Call, ghost made': Jobs)
    requires i < |v.flows| && v.flows[i].dependencies == dependencies
    requires job.key == JobKey(v, v.flows[i].name) && JobView(job) == RenderJob(v, v.flows[i], base)
    requires ValidPc(v, start) && Drive(v, start, before) == Some(Machine.Create(i, base))
    requires client.isolated ==>
               && BaseOf(v, v.flows[i], client.templates) == Some(base)
               && Midway(v, client.templates, initially, made, i, client.jobs)
               && job.key !in client.jobs && Scan(v, dependencies, true, client.jobs) == Satisfied
    modifies client`log, client`jobs
    ensures client.log == old(client.log) + [call]
    ensures call.response.AlreadyExists? ==> exit == if dependencies == [] then Continue else Break
    ensures Drive(v, start, before + [call]) == Some(Left(v, i, exit))
    ensures client.isolated ==> LeftInStep(client, v, i, initially, made', exit)
  {
    hide Drive, Midway, DeployFrom, DeployPass, RenderJob, RenderSpec, Scan;
    made' := made;
    if client.isolated {
      MidwayCreate(v, client.templates, initially, made, i, client.jobs, base);
      made' := made + map[job.key := JobView(job)];
    }
    ghost var sent := JobView(job);
    var resp := client.Create(job);
    call := Call(CreateJob(sent), resp);
    DriveStep(v, start, before, Machine.Create(i, base), call);
    exit := if resp.Done? then Continue
            else if resp.Fault? then Return(FromFault(resp))
            else if |dependencies| == 0 then Continue
            else Break;
  }

  /** helper.go:39-99: look the Job up, check the dependencies, create. */
  method DeployPrepared(client: Client, jf: JobFlowObject, dependencies: seq<string>, job: JobObject,
                        ghost v: JobFlowValue, ghost i: nat, ghost base: SpecValue,
                        ghost start: Pc, ghost before: seq<Call>, ghost initially: Jobs, ghost made: Jobs)
    returns (exit: Exit, ghost calls: seq<Call>, ghost made': Jobs)
    requires SameHeader(jf, v) && i < |v.flows| && v.flows[i].dependencies == dependencies
    requires job.key == JobKey(v, v.flows[i].name) && JobView(job) == RenderJob(v, v.flows[i], base)
    requires ValidPc(v, start) && Drive(v, start, before) == Some(Lookup(i, base))
    requires client.isolated ==> BaseOf(v, v.flows[i], client.templates) == Some(base)
    requires client.isolated ==> Midway(v, client.templates, initially, made, i, client.jobs)
    modifies client`log, client`jobs
    ensures client.log == old(client.log) + calls
    ensures Drive(v, start, before + calls) == Some(Left(v, i, exit))
    ensures client.isolated ==> LeftInStep(client, v, i, initially, made', exit)
  {
    hide Drive, Midway, DeployFrom, DeployPass, RenderJob, RenderSpec;
    assert before + [] == before;
    made', calls := made, [];
    var resp := client.GetJob(job.key);
    calls := Stepped(v, start, before, calls, Lookup(i, base), Call(GetJob(job.key), resp));
    if resp.JobFound? {
      if client.isolated {
        MidwaySkip(v, client.templates, initially, made, i, client.jobs);
      }
      return Continue, calls, made;
    }
    if resp.Fault? {
      return Return(FromFault(resp)), calls, made;
    }
    if |dependencies| != 0 {
      var flag, stop; ghost var more;
      flag, stop, more := CheckDependencies(client, jf, dependencies, v, i, base, start, before + calls);
      assert before + calls + more == before + (calls + more);
      calls := calls + more;
      if stop.Some? {
        if client.isolated {
          MidwayStop(v, client.templates, initially, made, i, client.jobs, stop.value);
        }
        return Return(stop.value), calls, made;
      }
      if !flag {
        if client.isolated {
          MidwaySkip(v, client.templates, initially, made, i, client.jobs);
        }
        return Continue, calls, made;
      }
    }
    ghost var call;
    exit, call, made' := CreateOnce(client, dependencies, job, v, i, base, start, before + calls, initially, made);
    assert before + calls + [call] == before + (calls + [call]);
    calls := calls + [call];
  }

  /** One turn of the loop over the flows (helper.go:27-99). */
  method DeployFlow(client: Client, jf: JobFlowObject, flow: FlowObject, ghost v: JobFlowValue, ghost i: nat,
                    ghost start: Pc, ghost before: seq<Call>, ghost initially: Jobs, ghost made: Jobs)
    returns (exit: Exit, ghost calls: seq<Call>, ghost made': Jobs)
    requires SameHeader(jf, v) && i < |v.flows| && FlowView(flow) == v.flows[i]
    requires ValidPc(v, start) && Drive(v, start, before) == Some(Enter(v, i))
    requires client.isolated ==> Midway(v, client.templates, initially, made, i, client.jobs)
    modifies client`log, client`jobs, flow.jobTemplate.containers
    ensures client.log == old(client.log) + calls
    ensures Drive(v, start, before + calls) == Some(Left(v, i, exit))
    ensures client.isolated ==> LeftInStep(client, v, i, initially, made', exit)
  {
    hide Drive, Midway, DeployFrom, DeployPass, Scan, RenderSpec;
    assert before + [] == before;
    made', calls := made, [];
    var jobName := JobName(jf.name, flow.name);
    var job, outcome, base := PrepareJob(client, jf, flow, jobName);
    if flow.jobTemplateRef != "" {
      ghost var call := client.log[|client.log| - 1];
      calls := Stepped(v, start, before, calls, Enter(v, i), call);
    }
    if job.None? {
      if client.isolated {
        MidwayStop(v, client.templates, initially, made, i, client.jobs, outcome);
      }
      return Return(outcome), calls, made;
    }
    RenderDependsOn(jf, flow, v, v.flows[i], base);
    ghost var more;
    exit, more, made' := DeployPrepared(client, jf, flow.dependencies, job.value, v, i, base,
                                        start, before + calls, initially, made);
    assert before + calls + more == before + (calls + more);
    calls := calls + more;
  }

  /** The calls with one more, and where it takes the machine. */
  ghost method Stepped(jf: JobFlowValue, start: Pc, before: seq<Call>, calls: seq<Call>, pc: Pc, call: Call)
    returns (calls': seq<Call>)
    requires ValidPc(jf, start) && Drive(jf, start, before + calls) == Some(pc) && !pc.Returned?
    requires call.request == RequestOf(jf, pc) && Fits(call.request, call.response)
    ensures calls' == calls + [call] && Drive(jf, start, before + calls') == Some(Next(jf, pc, call.response))
  {
    calls' := calls + [call];
    DriveStep(jf, start, before + calls, pc, call);
    assert before + calls + [call] == before + calls';
  }

  /** pkg/controller/helper.go:24-102 */
  method DeployJobFlow(client: Client, jf: JobFlowObject) returns (outcome: Outcome, ghost calls: seq<Call>)
    requires Separate(jf.flows)
    modifies client`log, client`jobs, Slices(jf.flows)
    ensures client.log == old(client.log) + calls
    ensures var v := old(JobFlowView(jf)); Drive(v, Enter(v, 0), calls) == Some(Returned(outcome))
    ensures Justified(old(JobFlowView(jf)), calls)
    ensures client.isolated ==>
              var p := DeployPass(old(JobFlowView(jf)), client.templates, old(client.jobs));
              outcome == p.outcome && client.jobs == old(client.jobs) + p.created
  {
    hide Drive, DeployFrom, SpecView, Justified;
    ghost var v := JobFlowView(jf);
    ghost var made: Jobs := map[];
    ghost var start := Enter(v, 0);
    calls := [];
    DriveNone(v, start);
    assert client.jobs + made == client.jobs;
    StartMidway(v, client.templates, client.jobs);
    for i := 0 to |jf.flows|
      invariant client.log == old(client.log) + calls
      invariant Drive(v, start, calls) == Some(Enter(v, i))
      invariant forall k :: i <= k < |jf.flows| ==> FlowView(jf.flows[k]) == v.flows[k]
      invariant client.isolated ==> Midway(v, client.templates, old(client.jobs), made, i, client.jobs)
    {
      var flow := jf.flows[i];
      assert flow.jobTemplate.containers in Slices(jf.flows);
      var exit; ghost var more;
      exit, more, made := DeployFlow(client, jf, flow, v, i, start, calls, old(client.jobs), made);
      calls := calls + more;
      match exit
      case Continue =>
      case Break =>
        CreatesAreJustified(v, calls, Returned(Deployed));
        return Deployed, calls;
      case Return(o) =>
        CreatesAreJustified(v, calls, Returned(o));
        return o, calls;
    }
    CreatesAreJustified(v, calls, Returned(Deployed));
    if client.isolated {
      EndMidway(v, client.templates, old(client.jobs), made, client.jobs);
    }
    outcome := Deployed;
  }

  lemma DriveNone(jf: JobFlowValue, start: Pc)
    requires ValidPc(jf, start)
    ensures Drive(jf, start, []) == Some(start)
  {
  }

  lemma StartMidway(jf: JobFlowValue, templates: map<Key, SpecValue>, before: Jobs)
    ensures Midway(jf, templates, before, map[], 0, before)
  {
    var rest := DeployFrom(jf, templates, 0, before);
    assert before + map[] == before && map[] + rest.created == rest.created;
  }

  lemma EndMidway(jf: JobFlowValue, templates: map<Key, SpecValue>, before: Jobs, made: Jobs, now: Jobs)
    requires Midway(jf, templates, before, made, |jf.flows|, now)
    ensures DeployPass(jf, templates, before).outcome == Deployed
    ensures now == before + DeployPass(jf, templates, before).created
  {
    assert made + map[] == made;
  }

  /** pkg/controller/helper.go:249-306 */
  method GetAllJobStatus(jf: JobFlowObject, items: seq<JobValue>) returns (status: JobFlowStatus)
    ensures Tells("JobFlow", jf.name, jf.deleting, |jf.flows|, items, status)
    ensures status == StatusOf(jf, items)
  {
    StatusTells(KIND, jf.name, jf.deleting, |jf.flows|, items);
    hide Tells, ListTells, NamesTell, OwnedTells;
    var owned := FilterByOwner(items, KIND, jf.name);
    var jobList: seq<string> := [];
    for i := 0 to |jf.flows|
      invariant |jobList| == i
    {
      jobList := jobList + [JobName(jf.name, jf.flows[i].name)];
    }
    var list, running, failed, completed := SortByPhase(owned);
    var state;
    if jf.deleting {
      state := TERMINATING;
    } else if |jobList| != |completed| {
      if |failed| > 0 {
        state := FAILED;
      } else if |running| > 0 || |completed| > 0 {
        state := RUNNING;
      } else {
        state := PENDING;
      }
    } else {
      state := SUCCEED;
    }
    status := JobFlowStatus(list, state);
  }

  /** helper.go:251-258, shared with the DaemonJob controller (daemonjob_controller.go:217-224). */
  method FilterByOwner(items: seq<JobValue>, kind: string, name: string) returns (owned: seq<JobValue>)
    ensures OwnedTells(kind, name, items, owned)
    ensures owned == OwnedItems(items, kind, name)
  {
    OwnedAreTold(kind, name, items);
    hide OwnedTells;
    owned := [];
    for i := 0 to |items|
      invariant owned == OwnedItems(items[..i], kind, name)
    {
      var owners := items[i].owners;
      ghost var kept := owned;
      assert owned + [] == owned;
      for r := 0 to |owners|
        invariant owned == kept + Copies(items[i], Matches(owners[..r], kind, name))
      {
        assert owners[..r + 1][..r] == owners[..r];
        if owners[r].kind == kind && owners[r].name == name {
          owned := owned + [items[i]];
        }
      }
      assert owners[..|owners|] == owners;
      assert items[..i + 1][..i] == items[..i];
    }
    assert items[..|items|] == items;
  }

  /** helper.go:260-285, shared with the DaemonJob controller (daemonjob_controller.go:226-261). */
  method SortByPhase(jobs: seq<JobValue>)
    returns (list: map<string, JobStatus>, running: seq<string>, failed: seq<string>, completed: seq<string>)
    ensures ListTells(jobs, list)
    ensures NamesTell(Running, jobs, running) && NamesTell(Failed, jobs, failed) && NamesTell(Succeeded, jobs, completed)
    ensures list == StatusList(jobs)
    ensures running == NamesIn(Running, jobs) && failed == NamesIn(Failed, jobs) && completed == NamesIn(Succeeded, jobs)
  {
    ListIsTold(jobs);
    NamesAreTold(Running, jobs);
    NamesAreTold(Failed, jobs);
    NamesAreTold(Succeeded, jobs);
    hide ListTells, NamesTell;
    list, running, failed, completed := map[], [], [], [];
    for i := 0 to |jobs|
      invariant list == StatusList(jobs[..i])
      invariant running == NamesIn(Running, jobs[..i])
      invariant failed == NamesIn(Failed, jobs[..i])
      invariant completed == NamesIn(Succeeded, jobs[..i])
    {
      var job := jobs[i];
      assert jobs[..i + 1][..i] == jobs[..i];
      list := list[StatusKey(job.key) := job.status];
      if job.status.succeeded == 1 {
        completed := completed + [job.key.name];
      } else if job.status.failed == 1 {
        failed := failed + [job.key.name];
      } else if job.status.active == 1 {
        running := running + [job.key.name];
      }
    }
    assert jobs[..|jobs|] == jobs;
  }

  lemma ReconcileStep(key: Key, calls: seq<Call>, pc: ReconcilePc, call: Call)
    requires DriveReconcile(key, calls) == Some(pc) && !pc.Finished?
    requires call.request == ReconcileRequest(key, pc) && Fits(call.request, call.response)
    ensures DriveReconcile(key, calls + [call]) == Some(ReconcileNext(key, pc, call.response))
  {
    assert (calls + [call])[..|calls|] == calls;
  }

  lemma EmbeddedStep(key: Key, calls: seq<Call>, jf: JobFlowValue, p: Pc, call: Call)
    requires ValidPc(jf, p) && !p.Returned? && DriveReconcile(key, calls) == Some(AfterDeploy(jf, p))
    requires call.request == RequestOf(jf, p) && Fits(call.request, call.response)
    ensures DriveReconcile(key, calls + [call]) == Some(AfterDeploy(jf, Next(jf, p, call.response)))
  {
    hide DriveReconcile, Next, RequestOf, Fits;
    ReconcileStep(key, calls, Deploying(jf, p), call);
  }

  lemma EmbeddingStarts(key: Key, first: Call, jf: JobFlowValue, pc: Pc)
    requires first == Call(Request.GetJobFlow(key), JobFlowFound(jf)) && jf.status.state != FAILED
    requires Drive(jf, Enter(jf, 0), []) == Some(pc)
    ensures DriveReconcile(key, [first]) == Some(AfterDeploy(jf, pc))
  {
    assert [] + [first] == [first];
    ReconcileStep(key, [], ReadJobFlow, first);
  }

  /** The deploy part of a reconcile is the deploy machine. */
  lemma {:induction false} DriveEmbeds(key: Key, first: Call, jf: JobFlowValue, calls: seq<Call>, pc: Pc)
    requires first == Call(Request.GetJobFlow(key), JobFlowFound(jf)) && jf.status.state != FAILED
    requires Drive(jf, Enter(jf, 0), calls) == Some(pc)
    ensures DriveReconcile(key, [first] + calls) == Some(AfterDeploy(jf, pc))
  {
    hide *;
    if calls == [] {
      assert [first] + calls == [first];
      EmbeddingStarts(key, first, jf, pc);
    } else {
      var n := |calls| - 1;
      var p := LastCall(jf, Enter(jf, 0), calls, pc);
      DriveEmbeds(key, first, jf, calls[..n], p);
      EmbeddedStep(key, [first] + calls[..n], jf, p, calls[n]);
      assert [first] + calls[..n] + [calls[n]] == [first] + calls;
    }
  }

  /** pkg/controller/helper.go:109-133 */
  method UpdateJobFlowStatus(client: Client, jf: JobFlowObject, ghost v: JobFlowValue, ghost outcome: Outcome,
                             ghost before: seq<Call>)
    returns (failed: bool, ghost calls: seq<Call>)
    requires jf.name == v.name && jf.deleting == v.deleting && |jf.flows| == |v.flows|
    requires DriveReconcile(FlowKey(jf), before) == Some(Listing(v, outcome))
    modifies client`log, client`cached
    ensures client.log == old(client.log) + calls
    ensures DriveReconcile(FlowKey(jf), before + calls) == Some(Finished(failed))
    ensures |calls| > 0 && calls[0].request == ListJobs && (failed <==> calls[|calls| - 1].response.Fault?)
    ensures calls[0].response.Fault? || calls[0].response.Listed?
    ensures calls[0].response.Listed? ==>
              && |calls| == 2 && calls[1].request == Request.UpdateStatus(StatusOf(v, calls[0].response.items))
              && (failed <==> !calls[1].response.Done? && !calls[1].response.NotFound?)
    ensures client.isolated ==> !failed
    ensures client.isolated && Filed(client.jobs) ==>
              exists items :: IsListing(items, client.jobs) &&
                client.cached == WithStatus(old(client.cached), FlowKey(jf), StatusOf(v, items))
  {
    hide DriveReconcile, IsListing, OwnedItems, Tells;
    var resp := client.List();
    calls := [Call(ListJobs, resp)];
    ReconcileStep(FlowKey(jf), before, Listing(v, outcome), calls[0]);
    if resp.Fault? {
      return true, calls;
    }
    var items := resp.items;
    var status := GetAllJobStatus(jf, items);
    assert status == StatusOf(v, items);
    resp := client.UpdateStatus(FlowKey(jf), status);
    ghost var call := Call(Request.UpdateStatus(status), resp);
    ReconcileStep(FlowKey(jf), before + calls, Updating(v, status), call);
    assert before + calls + [call] == before + (calls + [call]);
    calls := calls + [call];
    failed := resp.Fault?;
  }

  function WithStatus(cached: map<Key, JobFlowObject>, key: Key, status: JobFlowStatus): map<Key, JobFlowObject> {
    if key in cached then cached[key := cached[key].(status := status)] else cached
  }

  /** pkg/controller/jobflow_controller.go:38-85 */
  method Reconcile(client: Client, key: Key) returns (requeue: bool, ghost calls: seq<Call>)
    requires forall k :: k in client.cached ==> k == Key(client.cached[k].namespace, client.cached[k].name)
    modifies client`log, client`jobs, client`cached
    ensures client.log == old(client.log) + calls
    ensures |calls| > 0 && (requeue <==> calls[|calls| - 1].response.Fault?)
    ensures client.isolated ==> !requeue
    ensures Ended(key, calls, requeue)
    ensures DriveReconcile(key, calls) == Some(Finished(requeue))
    ensures client.isolated && key !in old(client.cached) ==> client.jobs == old(client.jobs) && client.cached == old(client.cached)
    ensures client.isolated && key in old(client.cached) && Filed(client.jobs) ==>
              var v := old(JobFlowView(client.cached[key]));
              exists status :: Reconciled(v, client.templates, old(client.jobs), v.(status := status), client.jobs) &&
                               client.cached == WithStatus(old(client.cached), key, status)
  {
    hide Drive, DriveReconcile, DeployFrom, OwnedItems, IsListing, SpecView, Enter, Ended, Justified, StatusOf, StatusFor;
    var error, found; ghost var resp;
    error, found, resp := client.GetJobFlow(key);
    ghost var first := Call(Request.GetJobFlow(key), resp);
    calls := [first];
    StartReconcile(key);
    ReconcileStep(key, [], ReadJobFlow, first);
    assert [] + [first] == calls;
    if found.None? {
      ReconcileEnds(key, calls, error.Fault?);
      return error.Fault?, calls;
    }
    var jf := found.value;
    ghost var v := resp.jf;
    assert v == old(JobFlowView(client.cached[key]));
    if jf.status.state == FAILED {
      ReconcileEnds(key, calls, false);
      return false, calls;
    }
    var outcome; ghost var deploy;
    outcome, deploy := DeployJobFlow(client, jf);
    DriveEmbeds(key, first, v, deploy, Returned(outcome));
    calls := calls + deploy;
    assert client.isolated ==> client.jobs == old(client.jobs) + DeployPass(v, client.templates, old(client.jobs)).created;
    if client.isolated {
      PassNeverErrs(v, client.templates, 0, old(client.jobs));
    }
    if outcome.Error? {
      ReconcileEnds(key, calls, true);
      return true, calls;
    }
    ghost var update;
    requeue, update := UpdateJobFlowStatus(client, jf, v, outcome, calls);
    calls := calls + update;
    ReconcileEnds(key, calls, requeue);
  }

  lemma StartReconcile(key: Key)
    ensures DriveReconcile(key, []) == Some(ReadJobFlow)
  {
  }

  /** Without faults the only errors are the two BadRequests, which do not stop the reconcile. */
  lemma PassNeverErrs(jf: JobFlowValue, templates: map<Key, SpecValue>, i: nat, jobs: Jobs)
    requires i <= |jf.flows|
    ensures !DeployFrom(jf, templates, i, jobs).outcome.Error?
    decreases |jf.flows| - i
  {
  }
}

/**
 The DaemonJob controller on the heap (pkg/controller/daemonjob_controller.go): rendering
 into the shared container slice, the node loop, the status and Reconcile.
 */
module DaemonController {
  import opened Kube
  import opened JobFlows
  import opened FlowStatus
  import opened Exclusion
  import opened Machine
  import opened Controller
  import opened DaemonJobs
  import opened DaemonCalls
  import opened Tallies

  ghost function DaemonView(d: DaemonJobObject): DaemonJobValue
    reads d.jobSpec.containers
  {
    DaemonJob(d.apiVersion, d.kind, d.namespace, d.name, d.uid, d.deleting, d.globalParams, d.excludeNodeList,
              SpecView(d.jobSpec), d.status)
  }

  /** daemonjob_controller.go:168-176: the DaemonJob's global annotations and labels. */
  method ApplyDaemonGlobals(params: GlobalParams, spec: SpecObject)
    returns (annotations: map<string, string>, labels: map<string, string>, applied: SpecObject)
    ensures annotations == if params.annotations.Some? then params.annotations.value else map[]
    ensures labels == if params.labels.Some? then params.labels.value else map[]
    ensures applied == spec.(
              labels := if params.labels.Some? then params.labels.value else spec.labels,
              annotations := if params.annotations.Some? then params.annotations.value else spec.annotations)
  {
    annotations, labels, applied := map[], map[], spec;
    if params.annotations.Some? {
      annotations := params.annotations.value;
      applied := applied.(annotations := params.annotations.value);
    }
    if params.labels.Some? {
      labels := params.labels.value;
      applied := applied.(labels := params.labels.value);
    }
  }

  /** daemonjob_controller.go:145-185.  The spec is copied as a struct, so every node's Job shares one container slice. */
  method PrepareJobFromDaemonJob(d: DaemonJobObject, jobName: string, nodeName: string) returns (job: JobObject)
    requires jobName == d.name
    modifies d.jobSpec.containers
    ensures NodeAsAsked(old(DaemonView(d)), nodeName, JobView(job)) && job.status == NO_STATUS
    ensures JobView(job) == NodeJob(old(DaemonView(d)), nodeName)
    ensures DaemonView(d) == Rendered(old(DaemonView(d)))
    ensures job.key == NodeKey(d, nodeName)
  {
    hide NodeAsAsked;
    var spec := d.jobSpec.(nodeName := nodeName, restartPolicy := "Never", backoffLimit := Some(0));
    var annotations, labels, applied := ApplyDaemonGlobals(d.globalParams, spec);
    if d.globalParams.env.Some? {
      ReplaceEnv(applied.containers, d.globalParams.env.value);
    }
    job := Job(Key(d.namespace, JobName(jobName, nodeName)), [OwnerReference(d.apiVersion, d.kind, d.name, d.uid)],
               annotations, labels, applied, NO_STATUS);
    assert d.jobSpec.containers[..] == NodeSpec(old(DaemonView(d)), nodeName).containers;
    NodeJobAsAsked(old(DaemonView(d)), nodeName, JobView(job));
    assert d.jobSpec.containers[..] == Rendered(old(DaemonView(d))).jobSpec.containers;
  }

  lemma PlaceStep(d: DaemonJobValue, calls: seq<Call>, pc: PlacePc, call: Call)
    requires DrivePlace(d, calls) == Some(pc) && !pc.Placed?
    requires call.request == PlaceRequest(d, pc) && Fits(call.request, call.response)
    ensures DrivePlace(d, calls + [call]) == Some(PlaceNext(d, pc, call.response))
  {
    assert (calls + [call])[..|calls|] == calls;
  }

  /** The DaemonJob as read, or as rendering has left it. */
  ghost predicate SameDaemon(d: DaemonJobObject, v: DaemonJobValue)
    reads d.jobSpec.containers
  {
    DaemonView(d) == v || DaemonView(d) == Rendered(v)
  }

  /** daemonjob_controller.go:102-120: what a node that is not excluded gets.  None means on to the next node. */
  method PlaceNode(client: Client, d: DaemonJobObject, ghost v: DaemonJobValue, ghost nodes: seq<string>, ghost i: nat,
                   node: string, ghost before: seq<Call>)
    returns (stop: Option<bool>, ghost calls: seq<Call>)
    requires SameDaemon(d, v) && i < |nodes| && nodes[i] == node
    requires DrivePlace(v, before) == Some(LookUp(nodes, i))
    modifies client`log, client`jobs, d.jobSpec.containers
    ensures SameDaemon(d, v) && client.log == old(client.log) + calls
    ensures |calls| > 0 && calls[0].request == GetJob(Key(d.namespace, d.name))
    ensures if calls[0].response.NotFound? then |calls| == 2 && stop == Some(!calls[1].response.Fault?)
            else |calls| == 1 && stop == if calls[0].response.Fault? then Some(false) else None
    ensures DrivePlace(v, before + calls) == Some(if stop.Some? then Placed(stop.value) else EnterNode(v, nodes, i + 1))
    ensures client.isolated ==>
              if OwnKey(d) in old(client.jobs) then stop == None && client.jobs == old(client.jobs)
              else stop == Some(true) && client.jobs ==
                   if NodeKey(d, node) in old(client.jobs) then old(client.jobs)
                   else old(client.jobs)[NodeKey(d, node) := NodeJob(v, node)]
  {
    hide DrivePlace, NodeSpec, Rendered;
    RenderedAgain(v, node);
    var job := PrepareJobFromDaemonJob(d, d.name, node);
    var resp := client.GetJob(OwnKey(d));
    calls := [Call(GetJob(OwnKey(d)), resp)];
    PlaceStep(v, before, LookUp(nodes, i), calls[0]);
    if resp.JobFound? {
      return None, calls;
    }
    if resp.Fault? {
      return Some(false), calls;
    }
    ghost var sent := JobView(job);
    resp := client.Create(job);
    ghost var call := Call(CreateJob(sent), resp);
    PlaceStep(v, before + calls, Place(nodes, i), call);
    assert before + calls + [call] == before + (calls + [call]);
    calls := calls + [call];
    // AlreadyExists breaks the loop, success returns: both end the pass without an error.
    stop := Some(!resp.Fault?);
  }

  /** Up to node i an undisturbed pass has created nothing, and the rest of the list decides what it creates. */
  ghost predicate Undecided(d: DaemonJobValue, nodes: seq<string>, i: nat, jobs: Jobs)
    requires i <= |nodes|
  {
    OwnKey(d) in jobs || Head(d, nodes) == Head(d, nodes[i..])
  }

  lemma UndecidedStep(d: DaemonJobValue, nodes: seq<string>, i: nat, jobs: Jobs)
    requires i < |nodes| && Undecided(d, nodes, i, jobs)
    ensures OwnKey(d) in jobs || Excluded(nodes[i], d.excludeNodeList) ==> Undecided(d, nodes, i + 1, jobs)
    ensures OwnKey(d) !in jobs && !Excluded(nodes[i], d.excludeNodeList) ==> Head(d, nodes) == Some(nodes[i])
  {
    hide Excluded;
    assert nodes[i..][1..] == nodes[i + 1..];
  }

  lemma Decided(d: DaemonJobValue, nodes: seq<string>, head: string, jobs: Jobs)
    requires OwnKey(d) !in jobs && Head(d, nodes) == Some(head)
    ensures jobs + PlacePass(d, nodes, jobs) ==
            if NodeKey(d, head) in jobs then jobs else jobs[NodeKey(d, head) := NodeJob(d, head)]
  {
    hide Head, NodeJob;
    assert jobs + map[] == jobs;
  }

  lemma NoneDecided(d: DaemonJobValue, nodes: seq<string>, jobs: Jobs)
    requires Undecided(d, nodes, |nodes|, jobs)
    ensures jobs + PlacePass(d, nodes, jobs) == jobs
  {
    assert jobs + map[] == jobs;
  }

  /** The two calls at the top of the loop body (daemonjob_controller.go:98). */
  method Skips(d: DaemonJobObject, node: string) returns (jump: bool)
    ensures jump <==> Excluded(node, d.excludeNodeList)
  {
    var excluded := SplitString(d.excludeNodeList, ',');
    jump := IsJumpOverNode(node, excluded);
  }

  /** pkg/controller/daemonjob_controller.go:88-123 */
  method DeployDaemonJob(client: Client, d: DaemonJobObject) returns (ok: bool, ghost calls: seq<Call>)
    modifies client`log, client`jobs, d.jobSpec.containers
    ensures client.log == old(client.log) + calls
    ensures DrivePlace(old(DaemonView(d)), calls) == Some(Placed(ok))
    ensures PlaceShape(old(DaemonView(d)), calls, Placed(ok))
    ensures client.isolated ==>
              ok && client.jobs == old(client.jobs) + PlacePass(old(DaemonView(d)), client.nodes, old(client.jobs))
  {
    hide DrivePlace, NodeJob, Rendered, Excluded, Head, PlacePass, EnterNode, Undecided, SpecView, PlaceShape;
    ghost var v := DaemonView(d);
    var resp := client.ListNodes();
    calls := [Call(ListNodes, resp)];
    StartPlacing(v, calls[0]);
    if resp.Fault? {
      PlacingShaped(v, calls, Placed(false));
      return false, calls;
    }
    var nodes := resp.nodes;
    StartUndecided(v, nodes, client.jobs);
    for i := 0 to |nodes|
      invariant SameDaemon(d, v) && client.log == old(client.log) + calls
      invariant DrivePlace(v, calls) == Some(EnterNode(v, nodes, i))
      invariant client.isolated ==> client.jobs == old(client.jobs) && Undecided(v, nodes, i, client.jobs)
    {
      if client.isolated {
        UndecidedStep(v, nodes, i, client.jobs);
      }
      EnterStep(v, nodes, i);
      var jump := Skips(d, nodes[i]);
      if jump {
        continue;
      }
      var stop; ghost var more;
      stop, more := PlaceNode(client, d, v, nodes, i, nodes[i], calls);
      calls := calls + more;
      if stop.Some? {
        if client.isolated {
          Decided(v, nodes, nodes[i], old(client.jobs));
        }
        PlacingShaped(v, calls, Placed(stop.value));
        return stop.value, calls;
      }
    }
    if client.isolated {
      NoneDecided(v, nodes, client.jobs);
    }
    EnterEnd(v, nodes);
    ok := true;
    PlacingShaped(v, calls, Placed(ok));
  }

  lemma EnterStep(d: DaemonJobValue, nodes: seq<string>, i: nat)
    requires i < |nodes|
    ensures EnterNode(d, nodes, i) == if Excluded(nodes[i], d.excludeNodeList) then EnterNode(d, nodes, i + 1) else LookUp(nodes, i)
  {
    hide Excluded;
  }

  lemma EnterEnd(d: DaemonJobValue, nodes: seq<string>)
    ensures EnterNode(d, nodes, |nodes|) == Placed(true)
  {
  }

  lemma StartUndecided(d: DaemonJobValue, nodes: seq<string>, jobs: Jobs)
    ensures Undecided(d, nodes, 0, jobs)
  {
    assert nodes[0..] == nodes;
  }

  lemma StartPlacing(d: DaemonJobValue, call: Call)
    requires call.request == ListNodes && Fits(ListNodes, call.response)
    ensures DrivePlace(d, [call]) ==
            Some(if call.response.Fault? then Placed(false) else EnterNode(d, call.response.nodes, 0))
  {
    hide EnterNode;
    assert [call][..0] == [];
  }

  /** daemonjob_controller.go:215-281 */
  method GetAllJobStatusFromDaemonJob(client: Client, d: DaemonJobObject, items: seq<JobValue>)
    returns (status: Option<JobFlowStatus>, ghost call: Call)
    modifies client`log
    ensures client.log == old(client.log) + [call] && call.request == ListNodes && Fits(ListNodes, call.response)
    ensures status.None? <==> call.response.Fault?
    ensures status.Some? ==>
              Tells("DaemonJob", d.name, d.deleting, |Wanted(call.response.nodes, d.excludeNodeList)|, items, status.value)
    ensures status == if call.response.Fault? then None
                      else Some(StatusFor(DAEMON_KIND, d.name, d.deleting, |Eligible(d, call.response.nodes)|, items))
    ensures client.isolated ==> call.response == NodesListed(client.nodes)
  {
    hide Tells, Wanted, ListTells, NamesTell, OwnedTells;
    var owned := FilterByOwner(items, DAEMON_KIND, d.name);
    var resp := client.ListNodes();
    call := Call(ListNodes, resp);
    if resp.Fault? {
      return None, call;
    }
    var nodes := resp.nodes;
    EligibleCount(d, nodes);
    StatusTells(DAEMON_KIND, d.name, d.deleting, |Eligible(d, nodes)|, items);
    var jobList: seq<string> := [];
    for i := 0 to |nodes|
      invariant jobList == Eligible(d, nodes[..i]) && client.log == old(client.log) + [call]
    {
      assert nodes[..i + 1][..i] == nodes[..i];
      var jump := Skips(d, nodes[i]);
      if jump {
        continue;
      }
      jobList := jobList + [nodes[i]];
    }
    assert nodes[..|nodes|] == nodes;
    var list, running, failed, completed := SortByPhase(owned);
    var state;
    if d.deleting {
      state := TERMINATING;
    } else if |jobList| != |completed| {
      if |failed| > 0 {
        state := FAILED;
      } else if |running| > 0 || |completed| > 0 {
        state := RUNNING;
      } else {
        state := PENDING;
      }
    } else {
      state := SUCCEED;
    }
    status := Some(JobFlowStatus(list, state));
  }

  /** The stored DaemonJobs, as the controller reads and writes them. */
  class DaemonStore {
    const isolated: bool
    var stored: map<Key, DaemonJobObject>

    constructor (isolated: bool, stored: map<Key, DaemonJobObject>)
      ensures this.isolated == isolated && this.stored == stored
    {
      this.isolated, this.stored := isolated, stored;
    }

    /** The caller gets a deep copy. */
    method Get(k: Key) returns (fault: bool, found: Option<DaemonJobObject>)
      ensures fault ==> !isolated && found.None?
      ensures !fault ==> (found.Some? <==> k in stored)
      ensures found.Some? ==> fresh(found.value.jobSpec.containers) && DaemonView(found.value) == DaemonView(stored[k])
    {
      fault, found := *, None;
      fault := fault && !isolated;
      if !fault && k in stored {
        var spec := DeepCopySpec(stored[k].jobSpec);
        found := Some(stored[k].(jobSpec := spec));
      }
    }

    /** A DaemonJob that is gone is not an error; a call that reports a fault may have taken effect. */
    method UpdateStatus(k: Key, status: JobFlowStatus) returns (fault: bool)
      modifies this
      ensures fault ==> !isolated
      ensures stored == Restated(old(stored), k, status) || (fault && stored == old(stored))
    {
      var lost: bool;
      fault, lost := *, *;
      fault := fault && !isolated;
      if k in stored && (!fault || lost) {
        stored := stored[k := stored[k].(status := status)];
      }
    }
  }

  function Restated(stored: map<Key, DaemonJobObject>, k: Key, status: JobFlowStatus): map<Key, DaemonJobObject> {
    if k in stored then stored[k := stored[k].(status := status)] else stored
  }

  /** pkg/controller/daemonjob_controller.go:45-85 and 188-212.  Nothing is called unless the DaemonJob is there and
      has not failed; its calls are the reconcile machine's, and the status they lead to is what is written. */
  method Reconcile(client: Client, store: DaemonStore, k: Key) returns (failed: bool, ghost calls: seq<Call>)
    requires forall q :: q in store.stored ==> q == Key(store.stored[q].namespace, store.stored[q].name)
    modifies client`log, client`jobs, store
    ensures client.log == old(client.log) + calls
    ensures calls == [] ==>
              && client.jobs == old(client.jobs) && store.stored == old(store.stored)
              && (!failed ==> k !in old(store.stored) || old(store.stored[k]).status.state == "Failed")
    ensures calls != [] ==>
              && k in old(store.stored) && old(store.stored[k]).status.state != "Failed"
              && match DriveDaemon(old(DaemonView(store.stored[k])), calls)
                 case Some(GivenUp) => failed && store.stored == old(store.stored)
                 case Some(Reporting(status)) =>
                   store.stored == Restated(old(store.stored), k, status) || (failed && store.stored == old(store.stored))
                 case _ => false
    ensures calls != [] ==>
              var v := old(DaemonView(store.stored[k]));
              if calls[|calls| - 1].response.Fault? then
                failed && store.stored == old(store.stored) && NoFault(calls, |calls| - 1)
              else
                exists status :: Reports(v, calls, status) &&
                  (store.stored == old(store.stored)[k := old(store.stored[k]).(status := status)] ||
                   (failed && store.stored == old(store.stored)))
    ensures client.isolated && store.isolated ==> !failed
    ensures client.isolated && store.isolated && k !in old(store.stored) ==>
              client.jobs == old(client.jobs) && store.stored == old(store.stored)
    ensures client.isolated && store.isolated && k in old(store.stored) ==>
              var v := old(DaemonView(store.stored[k]));
              if v.status.state == FAILED then client.jobs == old(client.jobs) && store.stored == old(store.stored)
              else
                && client.jobs == old(client.jobs) + PlacePass(v, client.nodes, old(client.jobs))
                && (Filed(client.jobs) ==>
                      exists items :: IsListing(items, client.jobs) &&
                        store.stored == Restated(old(store.stored), k,
                          StatusFor(DAEMON_KIND, v.name, v.deleting, |Eligible(v, client.nodes)|, items)))
  {
    hide DrivePlace, DriveDaemon, PlacePass, OwnedItems, IsListing, StatusFor, PlaceShape, Tells, Wanted;
    calls := [];
    var fault, found := store.Get(k);
    if fault || found.None? {
      return fault, calls;
    }
    var d := found.value;
    ghost var v := DaemonView(d);
    assert v == old(DaemonView(store.stored[k]));
    if d.status.state == FAILED {
      return false, calls;
    }
    var ok;
    ok, calls := DeployDaemonJob(client, d);
    PlacingEmbeds(v, calls, Placed(ok));
    SomePlaceCall(v, calls, ok);
    if !ok {
      DaemonShaped(v, calls, GivenUp);
      return true, calls;
    }
    ghost var report;
    failed, report := UpdateDaemonStatus(client, store, k, d, v, calls);
    calls := calls + report;
    DaemonShaped(v, calls, DriveDaemon(v, calls).value);
  }

  lemma SomePlaceCall(v: DaemonJobValue, calls: seq<Call>, ok: bool)
    requires DrivePlace(v, calls) == Some(Placed(ok))
    ensures calls != []
  {
  }

  /** daemonjob_controller.go:188-212 */
  method UpdateDaemonStatus(client: Client, store: DaemonStore, k: Key, d: DaemonJobObject, ghost v: DaemonJobValue,
                            ghost before: seq<Call>)
    returns (failed: bool, ghost calls: seq<Call>)
    requires d.name == v.name && d.deleting == v.deleting && d.excludeNodeList == v.excludeNodeList
    requires DriveDaemon(v, before) == Some(ListingJobs)
    modifies client`log, store
    ensures client.log == old(client.log) + calls
    ensures match DriveDaemon(v, before + calls)
            case Some(GivenUp) => failed && store.stored == old(store.stored)
            case Some(Reporting(status)) =>
              store.stored == Restated(old(store.stored), k, status) || (failed && store.stored == old(store.stored))
            case _ => false
    ensures client.isolated && store.isolated ==>
              && !failed
              && (Filed(client.jobs) ==>
                    exists items :: IsListing(items, client.jobs) &&
                      store.stored == Restated(old(store.stored), k,
                        StatusFor(DAEMON_KIND, v.name, v.deleting, |Eligible(v, client.nodes)|, items)))
  {
    hide DriveDaemon, OwnedItems, IsListing, StatusFor;
    var resp := client.List();
    calls := [Call(ListJobs, resp)];
    DaemonStep(v, before, ListingJobs, calls[0]);
    if resp.Fault? {
      return true, calls;
    }
    var items := resp.items;
    var status; ghost var call;
    status, call := GetAllJobStatusFromDaemonJob(client, d, items);
    DaemonStep(v, before + calls, CountingNodes(items), call);
    assert before + calls + [call] == before + (calls + [call]);
    calls := calls + [call];
    if status.None? {
      return true, calls;
    }
    SameEligible(d, v, call.response.nodes);
    failed := store.UpdateStatus(k, status.value);
  }

  lemma {:induction false} SameEligible<C, D>(d: DaemonJob<C>, v: DaemonJob<D>, nodes: seq<string>)
    requires d.excludeNodeList == v.excludeNodeList
    ensures Eligible(d, nodes) == Eligible(v, nodes)
  {
    if nodes != [] {
      SameEligible(d, v, nodes[..|nodes| - 1]);
    }
  }
}

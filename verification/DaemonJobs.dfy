/**
 The DaemonJob resource (pkg/apis/daemonjob/v1alpha1/types.go), the Jobs it stands for and
 one deploy pass of its controller (pkg/controller/daemonjob_controller.go:88-123).
 */
module DaemonJobs {
  import opened Kube
  import opened JobFlows
  import opened Render
  import opened Exclusion
  import opened Machine
  import opened FlowStatus

  const DAEMON_KIND := "DaemonJob"

  datatype DaemonJob<C> = DaemonJob(
    apiVersion: string,
    kind: string,
    namespace: string,
    name: string,
    uid: string,
    deleting: bool,
    globalParams: GlobalParams,
    excludeNodeList: string,
    jobSpec: JobSpec<C>,
    status: JobFlowStatus)

  type DaemonJobValue = DaemonJob<seq<Container>>
  type DaemonJobObject = DaemonJob<array<Container>>

  /** The key the controller looks up before it creates: the DaemonJob's own. */
  function OwnKey<C>(d: DaemonJob<C>): Key {
    Key(d.namespace, d.name)
  }

  /** The key of the Job for one node. */
  function NodeKey<C>(d: DaemonJob<C>, node: string): Key {
    Key(d.namespace, JobName(d.name, node))
  }

  lemma NodeKeyInjective<C>(d: DaemonJob<C>, x: string, y: string)
    ensures NodeKey(d, x) == NodeKey(d, y) ==> x == y
    ensures NodeKey(d, x) != OwnKey(d)
  {
    if NodeKey(d, x) == NodeKey(d, y) {
      Overlap(d.name, x, d.name, y);
    }
    assert |JobName(d.name, x)| > |d.name|;
  }

  function WithEnv(params: GlobalParams, c: Container): Container {
    if params.env.Some? then c.(env := params.env) else c
  }

  function NodeSpec(d: DaemonJobValue, node: string): SpecValue {
    var base, params := d.jobSpec, d.globalParams;
    JobSpec(
      base.volumes,
      seq(|base.containers|, i requires 0 <= i < |base.containers| => WithEnv(params, base.containers[i])),
      "Never",
      Some(0),
      node,
      if params.labels.Some? then params.labels.value else base.labels,
      if params.annotations.Some? then params.annotations.value else base.annotations)
  }

  /** prepareJobFromDaemonJob (daemonjob_controller.go:145-185) as a function. */
  function NodeJob(d: DaemonJobValue, node: string): JobValue {
    Job(
      NodeKey(d, node),
      [OwnerReference(d.apiVersion, d.kind, d.name, d.uid)],
      Entries(d.globalParams.annotations),
      Entries(d.globalParams.labels),
      NodeSpec(d, node),
      NO_STATUS)
  }

  /** Every field of a node's Job but its status, spelled out from the DaemonJob. */
  ghost predicate NodeAsAsked(d: DaemonJobValue, node: string, job: JobValue) {
    var base, params := d.jobSpec, d.globalParams;
    && job.key == Key(d.namespace, d.name + "-" + node)
    && job.owners == [OwnerReference(d.apiVersion, d.kind, d.name, d.uid)]
    && job.annotations == (if params.annotations.Some? then params.annotations.value else map[])
    && job.labels == (if params.labels.Some? then params.labels.value else map[])
    && job.spec.volumes == base.volumes && |job.spec.containers| == |base.containers|
    && (forall c :: 0 <= c < |base.containers| ==>
          job.spec.containers[c] == base.containers[c].(env := if params.env.Some? then params.env else base.containers[c].env))
    && job.spec.restartPolicy == "Never" && job.spec.backoffLimit == Some(0) && job.spec.nodeName == node
    && job.spec.labels == (if params.labels.Some? then params.labels.value else base.labels)
    && job.spec.annotations == (if params.annotations.Some? then params.annotations.value else base.annotations)
  }

  /** A node's Job is as asked, and its status aside there is only one such Job. */
  lemma NodeJobAsAsked(d: DaemonJobValue, node: string, job: JobValue)
    ensures NodeAsAsked(d, node, job) <==> job == NodeJob(d, node).(status := job.status)
  {
    var made := NodeJob(d, node);
    assert NodeAsAsked(d, node, made);
    if NodeAsAsked(d, node, job) {
      assert job.spec.containers == made.spec.containers;
    }
  }

  /** The DaemonJob after rendering wrote into its containers. */
  function Rendered(d: DaemonJobValue): DaemonJobValue {
    d.(jobSpec := d.jobSpec.(containers :=
      seq(|d.jobSpec.containers|, i requires 0 <= i < |d.jobSpec.containers| => WithEnv(d.globalParams, d.jobSpec.containers[i]))))
  }

  /** The nodes of one pass share the container slice, and rendering for one node does not show in the next node's Job. */
  lemma RenderedAgain(d: DaemonJobValue, node: string)
    ensures NodeJob(Rendered(d), node) == NodeJob(d, node)
    ensures Rendered(Rendered(d)) == Rendered(d)
  {
    assert NodeSpec(Rendered(d), node).containers == NodeSpec(d, node).containers;
    assert Rendered(Rendered(d)).jobSpec.containers == Rendered(d).jobSpec.containers;
  }

  /** The nodes that should run a Job, in list order. */
  function Eligible<C>(d: DaemonJob<C>, nodes: seq<string>): seq<string> {
    if nodes == [] then []
    else
      var last := nodes[|nodes| - 1];
      Eligible(d, nodes[..|nodes| - 1]) + if Excluded(last, d.excludeNodeList) then [] else [last]
  }

  lemma {:induction false} EligibleMembers<C>(d: DaemonJob<C>, nodes: seq<string>, node: string)
    ensures node in Eligible(d, nodes) <==> node in nodes && !Excluded(node, d.excludeNodeList)
  {
    if nodes != [] {
      EligibleMembers(d, nodes[..|nodes| - 1], node);
      assert nodes == nodes[..|nodes| - 1] + [nodes[|nodes| - 1]];
    }
  }

  /** The node that heads a pass: the first one of the list that is not excluded. */
  function Head<C>(d: DaemonJob<C>, nodes: seq<string>): Option<string> {
    if nodes == [] then None
    else if Excluded(nodes[0], d.excludeNodeList) then Head(d, nodes[1..])
    else Some(nodes[0])
  }

  /** Node i is eligible and no node before it is. */
  ghost predicate FirstEligible<C(!new)>(d: DaemonJob<C>, nodes: seq<string>, i: int) {
    && 0 <= i < |nodes| && !Excluded(nodes[i], d.excludeNodeList)
    && forall j :: 0 <= j < i ==> Excluded(nodes[j], d.excludeNodeList)
  }

  lemma {:induction false} HeadMeans<C(!new)>(d: DaemonJob<C>, nodes: seq<string>)
    ensures Head(d, nodes) == None <==> forall v :: v in nodes ==> Excluded(v, d.excludeNodeList)
    ensures Head(d, nodes).Some? ==> exists i :: FirstEligible(d, nodes, i) && nodes[i] == Head(d, nodes).value
    ensures Head(d, nodes).Some? ==> Head(d, nodes).value in nodes && !Excluded(Head(d, nodes).value, d.excludeNodeList)
  {
    hide Excluded;
    if nodes != [] {
      var rest := nodes[1..];
      assert nodes == [nodes[0]] + rest;
      if Excluded(nodes[0], d.excludeNodeList) {
        HeadMeans(d, rest);
        if i :| FirstEligible(d, rest, i) && rest[i] == Head(d, rest).value {
          assert forall j :: 0 < j < i + 1 ==> nodes[j] == rest[j - 1];
          assert FirstEligible(d, nodes, i + 1);
        }
      } else {
        assert FirstEligible(d, nodes, 0);
      }
    }
  }

  /** deployDaemonJob as a machine over its client calls. */
  datatype PlacePc =
    | FetchNodes
    | LookUp(nodes: seq<string>, next: nat)
    | Place(nodes: seq<string>, next: nat)
    | Placed(ok: bool)

  predicate ValidPlacePc(pc: PlacePc) {
    match pc
    case FetchNodes => true
    case LookUp(nodes, i) => i < |nodes|
    case Place(nodes, i) => i < |nodes|
    case Placed(_) => true
  }

  /** The loop head: excluded nodes are skipped. */
  function EnterNode<C>(d: DaemonJob<C>, nodes: seq<string>, i: nat): (pc: PlacePc)
    requires i <= |nodes|
    ensures ValidPlacePc(pc)
    decreases |nodes| - i
  {
    if i == |nodes| then Placed(true)
    else if Excluded(nodes[i], d.excludeNodeList) then EnterNode(d, nodes, i + 1)
    else LookUp(nodes, i)
  }

  function PlaceRequest(d: DaemonJobValue, pc: PlacePc): Request
    requires ValidPlacePc(pc) && !pc.Placed?
  {
    match pc
    case FetchNodes => ListNodes
    case LookUp(_, _) => GetJob(OwnKey(d))
    case Place(nodes, i) => CreateJob(NodeJob(d, nodes[i]))
  }

  /** Only a Job found under the DaemonJob's own name lets the loop go on; every other answer ends the pass. */
  function PlaceNext(d: DaemonJobValue, pc: PlacePc, resp: Response): (pc': PlacePc)
    requires ValidPlacePc(pc) && !pc.Placed? && Fits(PlaceRequest(d, pc), resp)
    ensures ValidPlacePc(pc')
  {
    if resp.Fault? then Placed(false)
    else
      match pc
      case FetchNodes => EnterNode(d, resp.nodes, 0)
      case LookUp(nodes, i) => if resp.JobFound? then EnterNode(d, nodes, i + 1) else Place(nodes, i)
      case Place(_, _) => Placed(true)
  }

  function DrivePlace(d: DaemonJobValue, calls: seq<Call>): (r: Option<PlacePc>)
    ensures r.Some? ==> ValidPlacePc(r.value)
  {
    if calls == [] then Some(FetchNodes)
    else
      var last := calls[|calls| - 1];
      match DrivePlace(d, calls[..|calls| - 1])
      case None => None
      case Some(p) =>
        if p.Placed? || last.request != PlaceRequest(d, p) || !Fits(last.request, last.response) then None
        else Some(PlaceNext(d, p, last.response))
  }

  /** The whole reconcile after the DaemonJob has been read: place, list the Jobs, list the nodes, report. */
  datatype DaemonPc =
    | Placing(pc: PlacePc)
    | ListingJobs
    | CountingNodes(items: seq<JobValue>)
    | Reporting(status: JobFlowStatus)
    | GivenUp

  predicate ValidDaemonPc(pc: DaemonPc) {
    pc.Placing? ==> ValidPlacePc(pc.pc) && !pc.pc.Placed?
  }

  /** Every error of the pass ends the reconcile, a BadRequest too. */
  function AfterPlacing(pc: PlacePc): (dpc: DaemonPc)
    requires ValidPlacePc(pc)
    ensures ValidDaemonPc(dpc)
  {
    if !pc.Placed? then Placing(pc) else if pc.ok then ListingJobs else GivenUp
  }

  function DaemonRequest(d: DaemonJobValue, pc: DaemonPc): Request
    requires ValidDaemonPc(pc) && !pc.Reporting? && !pc.GivenUp?
  {
    match pc
    case Placing(p) => PlaceRequest(d, p)
    case ListingJobs => ListJobs
    case CountingNodes(_) => ListNodes
  }

  function DaemonNext(d: DaemonJobValue, pc: DaemonPc, resp: Response): (pc': DaemonPc)
    requires ValidDaemonPc(pc) && !pc.Reporting? && !pc.GivenUp? && Fits(DaemonRequest(d, pc), resp)
    ensures ValidDaemonPc(pc')
  {
    match pc
    case Placing(p) => AfterPlacing(PlaceNext(d, p, resp))
    case ListingJobs => if resp.Fault? then GivenUp else CountingNodes(resp.items)
    case CountingNodes(items) =>
      if resp.Fault? then GivenUp
      else Reporting(StatusFor(DAEMON_KIND, d.name, d.deleting, |Eligible(d, resp.nodes)|, items))
  }

  function DriveDaemon(d: DaemonJobValue, calls: seq<Call>): (r: Option<DaemonPc>)
    ensures r.Some? ==> ValidDaemonPc(r.value)
  {
    if calls == [] then Some(Placing(FetchNodes))
    else
      var last := calls[|calls| - 1];
      match DriveDaemon(d, calls[..|calls| - 1])
      case None => None
      case Some(p) =>
        if p.Reporting? || p.GivenUp? || last.request != DaemonRequest(d, p) || !Fits(last.request, last.response) then None
        else Some(DaemonNext(d, p, last.response))
  }

  lemma DaemonStep(d: DaemonJobValue, calls: seq<Call>, pc: DaemonPc, call: Call)
    requires DriveDaemon(d, calls) == Some(pc) && !pc.Reporting? && !pc.GivenUp?
    requires call.request == DaemonRequest(d, pc) && Fits(call.request, call.response)
    ensures DriveDaemon(d, calls + [call]) == Some(DaemonNext(d, pc, call.response))
  {
    assert (calls + [call])[..|calls|] == calls;
  }

  lemma PlaceLast(d: DaemonJobValue, calls: seq<Call>, pc: PlacePc) returns (p: PlacePc)
    requires |calls| > 0 && DrivePlace(d, calls) == Some(pc)
    ensures var last := calls[|calls| - 1];
            && DrivePlace(d, calls[..|calls| - 1]) == Some(p) && !p.Placed?
            && last.request == PlaceRequest(d, p) && Fits(last.request, last.response)
            && pc == PlaceNext(d, p, last.response)
  {
    p := DrivePlace(d, calls[..|calls| - 1]).value;
  }

  /** The placement part of a reconcile is the placement machine. */
  lemma {:induction false} PlacingEmbeds(d: DaemonJobValue, calls: seq<Call>, pc: PlacePc)
    requires DrivePlace(d, calls) == Some(pc)
    ensures DriveDaemon(d, calls) == Some(AfterPlacing(pc))
  {
    if calls != [] {
      hide DrivePlace, DriveDaemon, PlaceNext, PlaceRequest, Fits;
      var n := |calls| - 1;
      var p := PlaceLast(d, calls, pc);
      PlacingEmbeds(d, calls[..n], p);
      DaemonStep(d, calls[..n], Placing(p), calls[n]);
      assert calls[..n] + [calls[n]] == calls;
    }
  }

  /** What an undisturbed pass creates: the head's Job, unless a Job bears the DaemonJob's own name. */
  function PlacePass(d: DaemonJobValue, nodes: seq<string>, jobs: Jobs): Jobs {
    var head := Head(d, nodes);
    if OwnKey(d) in jobs || head.None? || NodeKey(d, head.value) in jobs then map[]
    else map[NodeKey(d, head.value) := NodeJob(d, head.value)]
  }

  /** Undisturbed passes in a row over the same node list. */
  function Passes(d: DaemonJobValue, nodes: seq<string>, jobs: Jobs, n: nat): Jobs {
    if n == 0 then jobs
    else
      var before := Passes(d, nodes, jobs, n - 1);
      before + PlacePass(d, nodes, before)
  }

  /** All passes after the first create nothing. */
  lemma {:induction false} PassesPlaceTheHead(d: DaemonJobValue, nodes: seq<string>, jobs: Jobs, n: nat)
    ensures n > 0 ==> Passes(d, nodes, jobs, n) == jobs + PlacePass(d, nodes, jobs)
  {
    if n == 1 {
      assert Passes(d, nodes, jobs, 0) == jobs;
    } else if n > 1 {
      PassesPlaceTheHead(d, nodes, jobs, n - 1);
      if Head(d, nodes).Some? {
        NodeKeyInjective(d, Head(d, nodes).value, Head(d, nodes).value);
      }
    }
  }

  ghost predicate Covered(d: DaemonJobValue, nodes: seq<string>, jobs: Jobs) {
    forall v :: v in nodes && !Excluded(v, d.excludeNodeList) ==> NodeKey(d, v) in jobs
  }

  /** The aim is one Job for every node that is not excluded.  Undisturbed passes over an unchanging list reach it
      exactly when at most one node is eligible, or none if some Job bears the DaemonJob's own name. */
  lemma PassesCoverExactly(d: DaemonJobValue, nodes: seq<string>, jobs: Jobs, n: nat)
    requires n > 0 && forall v :: NodeKey(d, v) !in jobs
    ensures Covered(d, nodes, Passes(d, nodes, jobs, n)) <==>
            if OwnKey(d) in jobs then forall v :: v !in Eligible(d, nodes)
            else forall v, v' :: v in Eligible(d, nodes) && v' in Eligible(d, nodes) ==> v == v'
  {
    PassesPlaceTheHead(d, nodes, jobs, n);
    HeadMeans(d, nodes);
    forall v
      ensures v in Eligible(d, nodes) <==> v in nodes && !Excluded(v, d.excludeNodeList)
      ensures Head(d, nodes).Some? ==> (NodeKey(d, v) == NodeKey(d, Head(d, nodes).value) <==> v == Head(d, nodes).value)
    {
      EligibleMembers(d, nodes, v);
      if Head(d, nodes).Some? {
        NodeKeyInjective(d, v, Head(d, nodes).value);
      }
    }
  }

  /** Two nodes, none excluded: the second one never gets its Job. */
  lemma SecondNodeStarves(d: DaemonJobValue, n: nat)
    requires d.excludeNodeList == ""
    ensures Head(d, ["node1", "node2"]) == Some("node1") && "node2" in Eligible(d, ["node1", "node2"])
    ensures NodeKey(d, "node2") !in Passes(d, ["node1", "node2"], map[], n)
  {
    var nodes := ["node1", "node2"];
    assert Fields("") == [""];
    PassesPlaceTheHead(d, nodes, map[], n);
    EligibleMembers(d, nodes, "node2");
    NodeKeyInjective(d, "node1", "node2");
  }
}

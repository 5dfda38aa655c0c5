/**
 Runs of one DaemonJob: every client call of a deploy pass is a step, node lists may differ
 from pass to pass, and the environment acts in between.  As long as no Job bears the
 DaemonJob's own name, no names collide and no Job is deleted, the Jobs that exist are
 exactly those of the nodes that headed a completed pass.
 */
module Placement {
  import opened Kube
  import opened JobFlows
  import opened FlowStatus
  import opened Counting
  import opened Machine
  import opened DaemonJobs
  import opened Exclusion
  import opened WorkQueue

  /** None: no pass is under way. */
  datatype World = World(jobs: Jobs, controller: Option<PlacePc>)

  /** A Job that is none of the DaemonJob's. */
  ghost predicate Foreign(d: DaemonJobValue, k: Key, job: JobValue) {
    && job.key == k && k != OwnKey(d) && (forall v :: k != NodeKey(d, v))
    && Matches(job.owners, DAEMON_KIND, d.name) == 0
  }

  ghost predicate Init(d: DaemonJobValue, w: World) {
    w.controller == None && forall k :: k in w.jobs ==> Foreign(d, k, w.jobs[k])
  }

  /** Job statuses change and foreign Jobs appear. */
  ghost predicate Environment(d: DaemonJobValue, w: World, w': World) {
    && w'.controller == w.controller
    && (forall k :: k in w.jobs ==> k in w'.jobs && w'.jobs[k] == w.jobs[k].(status := w'.jobs[k].status))
    && (forall k :: k in w'.jobs && k !in w.jobs ==> Foreign(d, k, w'.jobs[k]))
  }

  /** A pass starts, its end is noted, or the controller process dies. */
  ghost predicate StartOrStop(w: World, w': World) {
    || (w.controller == None && w' == w.(controller := Some(FetchNodes)))
    || (w.controller.Some? && w' == w.(controller := None))
  }

  /** A read may be stale, but it finds only Jobs that exist; a Create whose reply is lost may have taken effect. */
  ghost predicate Served(w: World, req: Request, resp: Response, jobs: Jobs) {
    match req
    case GetJob(k) => jobs == w.jobs && (resp.JobFound? ==> k in w.jobs)
    case CreateJob(job) =>
      && (resp.Done? ==> job.key !in w.jobs && jobs == w.jobs[job.key := job])
      && (resp.AlreadyExists? ==> job.key in w.jobs && jobs == w.jobs)
      && (resp.Fault? ==> jobs == w.jobs || (job.key !in w.jobs && jobs == w.jobs[job.key := job]))
    case _ => jobs == w.jobs
  }

  ghost predicate Called(d: DaemonJobValue, w: World, resp: Response, w': World) {
    && w.controller.Some? && ValidPlacePc(w.controller.value) && !w.controller.value.Placed?
    && var req := PlaceRequest(d, w.controller.value);
       && Fits(req, resp) && Served(w, req, resp, w'.jobs)
       && w'.controller == Some(PlaceNext(d, w.controller.value, resp))
  }

  ghost predicate Step(d: DaemonJobValue, w: World, w': World) {
    StartOrStop(w, w') || Environment(d, w, w') || exists resp :: Called(d, w, resp, w')
  }

  ghost predicate Run(d: DaemonJobValue, ws: seq<World>) {
    && |ws| > 0 && Init(d, ws[0])
    && forall i :: 0 <= i < |ws| - 1 ==> Step(d, ws[i], ws[i + 1])
  }

  /** The pass under way is about to create, and this node heads its list. */
  predicate Heads(d: DaemonJobValue, w: World, v: string) {
    w.controller.Some? && w.controller.value.Place? && Head(d, w.controller.value.nodes) == Some(v)
  }

  /** This step completes a pass headed by v, without an error. */
  ghost predicate Completes(d: DaemonJobValue, w: World, w': World, v: string) {
    Heads(d, w, v) && w'.controller == Some(Placed(true))
  }

  /** This step creates v's Job, but the controller is told of a fault. */
  ghost predicate LosesReply(d: DaemonJobValue, w: World, w': World, v: string) {
    Heads(d, w, v) && w'.controller == Some(Placed(false)) && NodeKey(d, v) !in w.jobs && NodeKey(d, v) in w'.jobs
  }

  /** The Job of node v as the controller creates it, with whatever status it has by now. */
  ghost predicate IsNodeJob(d: DaemonJobValue, v: string, job: JobValue) {
    job == NodeJob(d, v).(status := job.status)
  }

  ghost predicate Inv(d: DaemonJobValue, w: World) {
    && OwnKey(d) !in w.jobs
    && (forall v :: NodeKey(d, v) in w.jobs ==> IsNodeJob(d, v, w.jobs[NodeKey(d, v)]) && !Excluded(v, d.excludeNodeList))
    && (forall k :: k in w.jobs && (forall v :: k != NodeKey(d, v)) ==> Foreign(d, k, w.jobs[k]))
    && (w.controller.Some? ==> PcInv(d, w.controller.value))
  }

  /** The pass looks at the head of its list: it got past no node that is not excluded. */
  ghost predicate PcInv(d: DaemonJobValue, pc: PlacePc) {
    && ValidPlacePc(pc)
    && (pc.LookUp? ==> Head(d, pc.nodes) == Some(pc.nodes[pc.next]))
    && (pc.Place? ==> Head(d, pc.nodes) == Some(pc.nodes[pc.next]))
  }

  lemma {:induction false} EnterIsHead(d: DaemonJobValue, nodes: seq<string>, i: nat)
    requires i <= |nodes|
    ensures var pc := EnterNode(d, nodes, i);
            if pc.LookUp? then pc.nodes == nodes && Head(d, nodes[i..]) == Some(nodes[pc.next]) else pc == Placed(true)
    decreases |nodes| - i
  {
    if i < |nodes| {
      assert nodes[i..][1..] == nodes[i + 1..];
      EnterIsHead(d, nodes, i + 1);
    }
  }

  lemma CallKeepsPc(d: DaemonJobValue, w: World, resp: Response, w': World)
    requires Inv(d, w) && Called(d, w, resp, w')
    ensures PcInv(d, w'.controller.value)
  {
    if w.controller.value.FetchNodes? && !resp.Fault? {
      EnterIsHead(d, resp.nodes, 0);
      assert resp.nodes[0..] == resp.nodes;
    }
  }

  lemma HeadIsEligible(d: DaemonJobValue, nodes: seq<string>, v: string)
    requires Head(d, nodes) == Some(v)
    ensures !Excluded(v, d.excludeNodeList)
  {
    HeadMeans(d, nodes);
  }

  /** What a call does to the Jobs: nothing, or it creates the Job of the node that heads the pass. */
  lemma CallCreates(d: DaemonJobValue, w: World, resp: Response, w': World)
    requires Inv(d, w) && Called(d, w, resp, w')
    ensures w'.jobs == w.jobs ||
            exists v :: Heads(d, w, v) && NodeKey(d, v) !in w.jobs && w'.jobs == w.jobs[NodeKey(d, v) := NodeJob(d, v)]
  {
    var pc := w.controller.value;
    if pc.Place? {
      var v := pc.nodes[pc.next];
      assert Heads(d, w, v) && NodeJob(d, v).key == NodeKey(d, v);
    }
  }

  lemma CreateKeepsInv(d: DaemonJobValue, w: World, v: string, jobs: Jobs)
    requires Inv(d, w) && Heads(d, w, v) && jobs == w.jobs[NodeKey(d, v) := NodeJob(d, v)]
    ensures Inv(d, World(jobs, None))
  {
    HeadIsEligible(d, w.controller.value.nodes, v);
    forall u
      ensures NodeKey(d, u) == NodeKey(d, v) ==> u == v
      ensures NodeKey(d, u) != OwnKey(d)
    {
      NodeKeyInjective(d, u, v);
    }
    hide NodeJob, Excluded, NodeKey, OwnKey;
    assert IsNodeJob(d, v, NodeJob(d, v));
  }

  lemma InvStep(d: DaemonJobValue, w: World, w': World)
    requires Inv(d, w) && Step(d, w, w')
    ensures Inv(d, w')
  {
    hide NodeJob, Excluded, PcInv;
    if StartOrStop(w, w') {
      NoPcInv(d);
    } else if Environment(d, w, w') {
      EnvironmentKeepsInv(d, w, w');
    } else {
      var resp :| Called(d, w, resp, w');
      CallKeepsPc(d, w, resp, w');
      CallCreates(d, w, resp, w');
      if w'.jobs != w.jobs {
        var v :| Heads(d, w, v) && NodeKey(d, v) !in w.jobs && w'.jobs == w.jobs[NodeKey(d, v) := NodeJob(d, v)];
        CreateKeepsInv(d, w, v, w'.jobs);
      }
    }
  }

  lemma NoPcInv(d: DaemonJobValue)
    ensures PcInv(d, FetchNodes)
  {
  }

  lemma EnvironmentKeepsInv(d: DaemonJobValue, w: World, w': World)
    requires Inv(d, w) && Environment(d, w, w')
    ensures Inv(d, w')
  {
    hide NodeJob, Excluded, PcInv, NodeKey, OwnKey;
  }

  lemma {:induction false} InvAlways(d: DaemonJobValue, ws: seq<World>, i: nat)
    requires Run(d, ws) && i < |ws|
    ensures Inv(d, ws[i]) && OwnKey(d) !in ws[i].jobs
  {
    if i > 0 {
      InvAlways(d, ws, i - 1);
      assert Step(d, ws[i - 1], ws[i - 1 + 1]);
      InvStep(d, ws[i - 1], ws[i]);
    }
  }

  /** One step adds node v's Job exactly when it completes a pass headed by v or loses the reply to one. */
  lemma StepPlaces(d: DaemonJobValue, w: World, w': World, v: string)
    requires Inv(d, w) && Inv(d, w') && Step(d, w, w')
    ensures NodeKey(d, v) in w'.jobs <==>
            NodeKey(d, v) in w.jobs || Completes(d, w, w', v) || LosesReply(d, w, w', v)
  {
    hide NodeJob, Excluded, Head;
    if Environment(d, w, w') {
      EnvironmentPlaces(d, w, w', v);
    } else if !StartOrStop(w, w') {
      var resp :| Called(d, w, resp, w');
      CallPlaces(d, w, resp, w', v);
    }
  }

  lemma EnvironmentPlaces(d: DaemonJobValue, w: World, w': World, v: string)
    requires Inv(d, w) && Environment(d, w, w')
    ensures NodeKey(d, v) in w'.jobs <==> NodeKey(d, v) in w.jobs
    ensures !Completes(d, w, w', v)
  {
    hide NodeJob, Excluded, Head;
  }

  lemma CallPlaces(d: DaemonJobValue, w: World, resp: Response, w': World, v: string)
    requires Inv(d, w) && Called(d, w, resp, w')
    ensures NodeKey(d, v) in w'.jobs <==>
            NodeKey(d, v) in w.jobs || Completes(d, w, w', v) || LosesReply(d, w, w', v)
  {
    var pc := w.controller.value;
    if pc.Place? {
      var head := pc.nodes[pc.next];
      NodeKeyInjective(d, v, head);
      assert NodeJob(d, head).key == NodeKey(d, head);
    } else {
      assert w'.jobs == w.jobs;
    }
  }

  /** Step j of the run completes a pass headed by v. */
  ghost predicate CompletedAt(d: DaemonJobValue, ws: seq<World>, j: nat, v: string)
    requires j + 1 < |ws|
  {
    Completes(d, ws[j], ws[j + 1], v)
  }

  ghost predicate LostAt(d: DaemonJobValue, ws: seq<World>, j: nat, v: string)
    requires j + 1 < |ws|
  {
    LosesReply(d, ws[j], ws[j + 1], v)
  }

  /** The Jobs that exist are exactly those of the nodes that headed some completed pass, or one whose reply was lost. */
  lemma {:induction false} PlacedExactly(d: DaemonJobValue, ws: seq<World>, i: nat, v: string)
    requires Run(d, ws) && i < |ws|
    ensures NodeKey(d, v) in ws[i].jobs <==> exists j: nat :: j < i && (CompletedAt(d, ws, j, v) || LostAt(d, ws, j, v))
  {
    hide Inv, NodeKey, CompletedAt, LostAt, Step, Init;
    if i == 0 {
      NothingPlaced(d, ws[0], v);
    } else {
      var n := i - 1;
      PlacedExactly(d, ws, n, v);
      InvAlways(d, ws, n);
      InvAlways(d, ws, i);
      PlacedStep(d, ws, n, v);
    }
  }

  lemma NothingPlaced(d: DaemonJobValue, w: World, v: string)
    requires Init(d, w)
    ensures NodeKey(d, v) !in w.jobs
  {
  }

  lemma PlacedStep(d: DaemonJobValue, ws: seq<World>, n: nat, v: string)
    requires Run(d, ws) && n + 1 < |ws| && Inv(d, ws[n]) && Inv(d, ws[n + 1])
    ensures NodeKey(d, v) in ws[n + 1].jobs <==> NodeKey(d, v) in ws[n].jobs || CompletedAt(d, ws, n, v) || LostAt(d, ws, n, v)
  {
    hide Inv;
    assert Step(d, ws[n], ws[n + 1]);
    StepPlaces(d, ws[n], ws[n + 1], v);
  }

  /** Node v headed some completed pass. */
  ghost predicate HeadedOne(d: DaemonJobValue, ws: seq<World>, i: nat, v: string)
    requires i < |ws|
  {
    exists j: nat :: j < i && CompletedAt(d, ws, j, v)
  }

  lemma PlacedWithoutLoss(d: DaemonJobValue, ws: seq<World>, i: nat, v: string)
    requires Run(d, ws) && i < |ws|
    requires forall j: nat :: j < i ==> !LostAt(d, ws, j, v)
    ensures NodeKey(d, v) in ws[i].jobs <==> HeadedOne(d, ws, i, v)
  {
    hide NodeKey, CompletedAt, LostAt;
    PlacedExactly(d, ws, i, v);
  }

  /** When no reply is lost: every eligible node has its Job exactly when every one of them headed a completed pass. */
  lemma CoverageExactly(d: DaemonJobValue, ws: seq<World>, i: nat, nodes: seq<string>)
    requires Run(d, ws) && i < |ws|
    requires forall j: nat, v :: j < i ==> !LostAt(d, ws, j, v)
    ensures Covered(d, nodes, ws[i].jobs) <==>
            forall v :: v in Eligible(d, nodes) ==> HeadedOne(d, ws, i, v)
  {
    hide Excluded, NodeKey, HeadedOne, LostAt, Run;
    forall v
      ensures v in Eligible(d, nodes) <==> v in nodes && !Excluded(v, d.excludeNodeList)
      ensures NodeKey(d, v) in ws[i].jobs <==> HeadedOne(d, ws, i, v)
    {
      EligibleMembers(d, nodes, v);
      PlacedWithoutLoss(d, ws, i, v);
    }
  }

  /** If every pass lists the same node first among the eligible, no other node ever gets a Job. */
  lemma OthersStarve(d: DaemonJobValue, ws: seq<World>, i: nat, head: string, v: string)
    requires Run(d, ws) && i < |ws| && v != head
    requires forall j, u :: 0 <= j < i && Heads(d, ws[j], u) ==> u == head
    ensures NodeKey(d, v) !in ws[i].jobs
  {
    PlacedExactly(d, ws, i, v);
  }

  /** Never two Jobs of the DaemonJob on one node, and none on an excluded node. */
  lemma OnePerNode(d: DaemonJobValue, ws: seq<World>, i: nat, k: Key, k': Key)
    requires Run(d, ws) && i < |ws| && k in ws[i].jobs && k' in ws[i].jobs
    requires Matches(ws[i].jobs[k].owners, DAEMON_KIND, d.name) > 0
    requires Matches(ws[i].jobs[k'].owners, DAEMON_KIND, d.name) > 0
    ensures !Excluded(ws[i].jobs[k].spec.nodeName, d.excludeNodeList)
    ensures ws[i].jobs[k].spec.nodeName == ws[i].jobs[k'].spec.nodeName ==> k == k'
  {
    InvAlways(d, ws, i);
    OwnedIsPlaced(d, ws[i], k);
    OwnedIsPlaced(d, ws[i], k');
  }

  lemma OwnedIsPlaced(d: DaemonJobValue, w: World, k: Key)
    requires Inv(d, w) && k in w.jobs && Matches(w.jobs[k].owners, DAEMON_KIND, d.name) > 0
    ensures k == NodeKey(d, w.jobs[k].spec.nodeName) && !Excluded(w.jobs[k].spec.nodeName, d.excludeNodeList)
  {
    hide Excluded, NodeKey, OwnKey;
    if v :| k == NodeKey(d, v) {
      assert IsNodeJob(d, v, w.jobs[k]);
    }
  }

  /** Every Job of a node, at every moment of a run, has each of its fields as the DaemonJob asks, and its events queue no JobFlow. */
  lemma PlacedAsAsked(d: DaemonJobValue, ws: seq<World>, i: nat, node: string)
    requires Run(d, ws) && i < |ws| && Key(d.namespace, d.name + "-" + node) in ws[i].jobs
    ensures NodeAsAsked(d, node, ws[i].jobs[Key(d.namespace, d.name + "-" + node)])
    ensures d.kind == "DaemonJob" ==> OwnerKeys(ws[i].jobs[Key(d.namespace, d.name + "-" + node)]) == {}
  {
    InvAlways(d, ws, i);
    var job := ws[i].jobs[NodeKey(d, node)];
    assert IsNodeJob(d, node, job);
    assert job.owners == [OwnerReference(d.apiVersion, d.kind, d.name, d.uid)];
    hide NodeAsAsked, Run, Inv;
    NodeJobAsAsked(d, node, job);
  }

  ghost function NodeKeys(d: DaemonJobValue, names: seq<string>): set<Key> {
    set i | 0 <= i < |names| :: NodeKey(d, names[i])
  }

  ghost predicate Distinct(names: seq<string>) {
    forall i, j :: 0 <= i < j < |names| ==> names[i] != names[j]
  }

  lemma {:induction false} NodeKeysCount(d: DaemonJobValue, names: seq<string>)
    requires Distinct(names)
    ensures |NodeKeys(d, names)| == |names|
  {
    if names != [] {
      var n := |names| - 1;
      NodeKeysCount(d, names[..n]);
      forall i | 0 <= i < n
        ensures NodeKey(d, names[i]) != NodeKey(d, names[n])
      {
        NodeKeyInjective(d, names[i], names[n]);
      }
      assert NodeKeys(d, names) == NodeKeys(d, names[..n]) + {NodeKey(d, names[n])};
    }
  }

  lemma {:induction false} EligibleDistinct(d: DaemonJobValue, nodes: seq<string>)
    requires Distinct(nodes)
    ensures Distinct(Eligible(d, nodes))
  {
    if nodes != [] {
      var n := |nodes| - 1;
      EligibleDistinct(d, nodes[..n]);
      EligibleMembers(d, nodes[..n], nodes[n]);
    }
  }

  /** All the Jobs of the DaemonJob belong to nodes of this list. */
  ghost predicate OnlyOn(d: DaemonJobValue, nodes: seq<string>, jobs: Jobs) {
    forall v :: NodeKey(d, v) in jobs ==> v in nodes
  }

  lemma OwnsNodeKeys(d: DaemonJobValue, nodes: seq<string>, w: World)
    requires d.kind == DAEMON_KIND && Inv(d, w) && OnlyOn(d, nodes, w.jobs)
    ensures Owns(DAEMON_KIND, d.name, NodeKeys(d, Eligible(d, nodes)), w.jobs)
  {
    hide Excluded;
    var declared := NodeKeys(d, Eligible(d, nodes));
    forall k | k in w.jobs
      ensures w.jobs[k].key == k
      ensures Matches(w.jobs[k].owners, DAEMON_KIND, d.name) == if k in declared then 1 else 0
    {
      if v :| k == NodeKey(d, v) {
        assert IsNodeJob(d, v, w.jobs[k]);
        EligibleMembers(d, nodes, v);
        SoleOwner(w.jobs[k].owners[0], DAEMON_KIND, d.name);
      } else {
        assert Foreign(d, k, w.jobs[k]);
      }
    }
  }

  ghost predicate AllSucceeded(d: DaemonJobValue, nodes: seq<string>, jobs: Jobs) {
    forall v :: v in Eligible(d, nodes) ==> HasSucceeded(jobs, NodeKey(d, v))
  }

  /** With a fixed node set, the status is Succeed exactly when every eligible node's Job has succeeded,
      and otherwise it says where the Jobs are. */
  lemma DaemonStatusMeans(d: DaemonJobValue, ws: seq<World>, i: nat, nodes: seq<string>, items: seq<JobValue>)
    requires d.kind == DAEMON_KIND && Run(d, ws) && i < |ws| && Distinct(nodes)
    requires OnlyOn(d, nodes, ws[i].jobs) && IsListing(items, ws[i].jobs)
    ensures var state := StatusFor(DAEMON_KIND, d.name, d.deleting, |Eligible(d, nodes)|, items).state;
            && state == MeaningOf(d.deleting, NodeKeys(d, Eligible(d, nodes)), ws[i].jobs)
            && (state == SUCCEED <==> !d.deleting && AllSucceeded(d, nodes, ws[i].jobs))
  {
    InvAlways(d, ws, i);
    OwnsNodeKeys(d, nodes, ws[i]);
    var eligible := Eligible(d, nodes);
    EligibleDistinct(d, nodes);
    NodeKeysCount(d, eligible);
    StateByCounting(DAEMON_KIND, d.name, d.deleting, NodeKeys(d, eligible), ws[i].jobs, items);
    AllKeysSucceeded(d, eligible, ws[i].jobs);
  }

  lemma AllKeysSucceeded(d: DaemonJobValue, names: seq<string>, jobs: Jobs)
    ensures (forall k :: k in NodeKeys(d, names) ==> KeyInPhase(jobs, k, Succeeded)) <==>
            forall v :: v in names ==> HasSucceeded(jobs, NodeKey(d, v))
  {
    if forall k :: k in NodeKeys(d, names) ==> KeyInPhase(jobs, k, Succeeded) {
      forall v | v in names
        ensures HasSucceeded(jobs, NodeKey(d, v))
      {
        var i :| 0 <= i < |names| && names[i] == v;
        assert NodeKey(d, names[i]) in NodeKeys(d, names);
      }
    }
  }

  /** Every listing of the run so far named only these nodes. */
  ghost predicate ListsOnly(ws: seq<World>, i: nat, nodes: seq<string>)
    requires i < |ws|
  {
    forall j, v :: 0 <= j < i && ws[j].controller.Some? && ws[j].controller.value.Place? && v in ws[j].controller.value.nodes ==>
      v in nodes
  }

  /** With a fixed node set no Job is anywhere else. */
  lemma FixedNodes(d: DaemonJobValue, ws: seq<World>, i: nat, nodes: seq<string>)
    requires Run(d, ws) && i < |ws| && ListsOnly(ws, i, nodes)
    ensures OnlyOn(d, nodes, ws[i].jobs)
  {
    hide Run, Excluded, NodeKey;
    forall v | NodeKey(d, v) in ws[i].jobs
      ensures v in nodes
    {
      PlacedExactly(d, ws, i, v);
      var j: nat :| j < i && (CompletedAt(d, ws, j, v) || LostAt(d, ws, j, v));
      HeadMeans(d, ws[j].controller.value.nodes);
    }
  }

  /** So with a fixed node order and two eligible nodes, the DaemonJob never succeeds. */
  lemma NeverSucceeds(d: DaemonJobValue, ws: seq<World>, i: nat, nodes: seq<string>, items: seq<JobValue>, head: string, v: string)
    requires d.kind == DAEMON_KIND && Run(d, ws) && i < |ws| && Distinct(nodes) && ListsOnly(ws, i, nodes)
    requires forall j, u :: 0 <= j < i && Heads(d, ws[j], u) ==> u == head
    requires v in Eligible(d, nodes) && v != head && IsListing(items, ws[i].jobs)
    ensures StatusFor(DAEMON_KIND, d.name, d.deleting, |Eligible(d, nodes)|, items).state != SUCCEED
  {
    hide *;
    FixedNodes(d, ws, i, nodes);
    DaemonStatusMeans(d, ws, i, nodes, items);
    OthersStarve(d, ws, i, head, v);
    NotAllSucceeded(d, nodes, ws[i].jobs, v);
  }

  lemma NotAllSucceeded(d: DaemonJobValue, nodes: seq<string>, jobs: Jobs, v: string)
    requires v in Eligible(d, nodes) && NodeKey(d, v) !in jobs
    ensures !AllSucceeded(d, nodes, jobs)
  {
  }
}

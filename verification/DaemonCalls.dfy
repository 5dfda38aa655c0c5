/**
 What a reconcile of a DaemonJob does, read off the calls it made and the answers it got.
 */
module DaemonCalls {
  import opened Kube
  import opened JobFlows
  import opened FlowStatus
  import opened Exclusion
  import opened Machine
  import opened DaemonJobs
  import opened Tallies

  ghost predicate NoFault(calls: seq<Call>, n: int)
    requires n <= |calls|
  {
    forall i :: 0 <= i < n ==> !calls[i].response.Fault?
  }

  /** How many entries of the node list are not excluded. */
  ghost function Wanted(nodes: seq<string>, exclude: string): set<int> {
    set i | 0 <= i < |nodes| && !Excluded(nodes[i], exclude)
  }

  lemma WantedMore(nodes: seq<string>, node: string, exclude: string)
    ensures |Wanted(nodes + [node], exclude)| == |Wanted(nodes, exclude)| + if Excluded(node, exclude) then 0 else 1
  {
    hide Excluded;
    var all, n := nodes + [node], |nodes|;
    assert all[n] == node && forall i :: 0 <= i < n ==> all[i] == nodes[i];
    assert Wanted(all, exclude) == Wanted(nodes, exclude) + if Excluded(node, exclude) then {} else {n};
  }

  lemma {:induction false} EligibleCount<C>(d: DaemonJob<C>, nodes: seq<string>)
    ensures |Eligible(d, nodes)| == |Wanted(nodes, d.excludeNodeList)|
  {
    if nodes != [] {
      var n := |nodes| - 1;
      hide Excluded;
      EligibleCount(d, nodes[..n]);
      assert nodes == nodes[..n] + [nodes[n]];
      WantedMore(nodes[..n], nodes[n], d.excludeNodeList);
    }
  }

  // ---- the placement part ----

  /** Call c creates the Job of a listed node that is not excluded, right after the look-up of the DaemonJob's own
      name found nothing. */
  ghost predicate Places(d: DaemonJobValue, calls: seq<Call>, c: int)
    requires 0 <= c < |calls| && calls[c].request.CreateJob?
  {
    && c >= 2 && calls[0].response.NodesListed? && UnknownAt(d, calls, c)
    && exists node :: node in calls[0].response.nodes && !Excluded(node, d.excludeNodeList) && NodeAsAsked(d, node, calls[c].request.created)
  }

  ghost predicate UnknownAt(d: DaemonJobValue, calls: seq<Call>, c: int) {
    && 0 < c <= |calls| && calls[c - 1].request == GetJob(Key(d.namespace, d.name)) && calls[c - 1].response == NotFound
  }

  ghost predicate PlaceShape(d: DaemonJobValue, calls: seq<Call>, pc: PlacePc)
    requires ValidPlacePc(pc)
  {
    && (calls != [] ==> calls[0].request == ListNodes)
    && (forall c :: 0 <= c < |calls| && calls[c].request.CreateJob? ==> Places(d, calls, c))
    && match pc
       case FetchNodes => calls == []
       case LookUp(nodes, i) => ListedFirst(d, calls, nodes, i) && NoFault(calls, |calls|)
       case Place(nodes, i) => ListedFirst(d, calls, nodes, i) && NoFault(calls, |calls|) && |calls| >= 2 && UnknownAt(d, calls, |calls|)
       case Placed(ok) => PlaceEnded(calls, ok)
  }

  ghost predicate ListedFirst(d: DaemonJobValue, calls: seq<Call>, nodes: seq<string>, i: nat) {
    |calls| > 0 && calls[0].response == NodesListed(nodes) && i < |nodes| && !Excluded(nodes[i], d.excludeNodeList)
  }

  /** Only a fault makes the pass fail, and it ends it. */
  ghost predicate PlaceEnded(calls: seq<Call>, ok: bool) {
    |calls| > 0 && NoFault(calls, |calls| - 1) && (ok <==> !calls[|calls| - 1].response.Fault?)
  }

  lemma {:induction false} EnterEligible(d: DaemonJobValue, nodes: seq<string>, i: nat)
    requires i <= |nodes|
    ensures var pc := EnterNode(d, nodes, i);
            if pc.LookUp? then pc.nodes == nodes && !Excluded(nodes[pc.next], d.excludeNodeList) else pc == Placed(true)
    decreases |nodes| - i
  {
    if i < |nodes| {
      EnterEligible(d, nodes, i + 1);
    }
  }

  lemma PlaceShapeNext(d: DaemonJobValue, calls: seq<Call>, p: PlacePc, call: Call)
    requires ValidPlacePc(p) && !p.Placed? && PlaceShape(d, calls, p)
    requires call.request == PlaceRequest(d, p) && Fits(call.request, call.response)
    ensures PlaceShape(d, calls + [call], PlaceNext(d, p, call.response))
  {
    var all := calls + [call];
    assert all[|calls|] == call && forall i :: 0 <= i < |calls| ==> all[i] == calls[i];
    if p.FetchNodes? && call.response.NodesListed? {
      EnterEligible(d, call.response.nodes, 0);
    } else if p.LookUp? {
      EnterEligible(d, p.nodes, p.next + 1);
    } else if p.Place? {
      NodeJobAsAsked(d, p.nodes[p.next], call.request.created);
    }
    hide NodeAsAsked, Excluded, EnterNode, NodeJob;
    forall c | 0 <= c < |all| && all[c].request.CreateJob?
      ensures Places(d, all, c)
    {
      if c < |calls| {
        assert Places(d, calls, c);
      }
    }
  }

  lemma {:induction false} PlacingShaped(d: DaemonJobValue, calls: seq<Call>, pc: PlacePc)
    requires DrivePlace(d, calls) == Some(pc)
    ensures PlaceShape(d, calls, pc)
  {
    if calls != [] {
      hide PlaceShape, PlaceNext, PlaceRequest;
      var p := PlaceLast(d, calls, pc);
      PlacingShaped(d, calls[..|calls| - 1], p);
      PlaceShapeNext(d, calls[..|calls| - 1], p, calls[|calls| - 1]);
      assert calls == calls[..|calls| - 1] + [calls[|calls| - 1]];
    }
  }

  // ---- the whole reconcile ----

  ghost predicate DaemonShape(d: DaemonJobValue, calls: seq<Call>, pc: DaemonPc) {
    var n := |calls|;
    match pc
    case Placing(_) => NoFault(calls, n)
    case ListingJobs => NoFault(calls, n)
    case CountingNodes(items) => NoFault(calls, n) && n >= 1 && calls[n - 1] == Call(ListJobs, Listed(items))
    case Reporting(status) => Reports(d, calls, status)
    case GivenUp => n >= 1 && NoFault(calls, n - 1) && calls[n - 1].response.Fault?
  }

  /** No call failed; the last two listed the Jobs and the nodes; and the status is the one these lists give. */
  ghost predicate Reports(d: DaemonJobValue, calls: seq<Call>, status: JobFlowStatus) {
    var n := |calls|;
    && n >= 2 && NoFault(calls, n)
    && calls[n - 2].request == ListJobs && calls[n - 2].response.Listed?
    && calls[n - 1].request == ListNodes && calls[n - 1].response.NodesListed?
    && Tells("DaemonJob", d.name, d.deleting, |Wanted(calls[n - 1].response.nodes, d.excludeNodeList)|, calls[n - 2].response.items, status)
  }

  lemma DaemonLast(d: DaemonJobValue, calls: seq<Call>, pc: DaemonPc) returns (p: DaemonPc)
    requires calls != [] && DriveDaemon(d, calls) == Some(pc)
    ensures var last := calls[|calls| - 1];
            && DriveDaemon(d, calls[..|calls| - 1]) == Some(p) && ValidDaemonPc(p) && !p.Reporting? && !p.GivenUp?
            && last.request == DaemonRequest(d, p) && Fits(last.request, last.response)
            && pc == DaemonNext(d, p, last.response)
  {
    p := DriveDaemon(d, calls[..|calls| - 1]).value;
  }

  lemma DaemonShapeNext(d: DaemonJobValue, calls: seq<Call>, p: DaemonPc, call: Call)
    requires ValidDaemonPc(p) && !p.Reporting? && !p.GivenUp? && DaemonShape(d, calls, p)
    requires call.request == DaemonRequest(d, p) && Fits(call.request, call.response)
    ensures DaemonShape(d, calls + [call], DaemonNext(d, p, call.response))
  {
    var all := calls + [call];
    assert all[|calls|] == call && forall i :: 0 <= i < |calls| ==> all[i] == calls[i];
    if p.CountingNodes? && call.response.NodesListed? {
      var nodes := call.response.nodes;
      EligibleCount(d, nodes);
      StatusTells(DAEMON_KIND, d.name, d.deleting, |Eligible(d, nodes)|, p.items);
    }
    hide Tells, StatusFor, NodeJob, Excluded, Wanted, Eligible;
    if p.Placing? && p.pc.FetchNodes? && call.response.NodesListed? {
      EnterEligible(d, call.response.nodes, 0);
    } else if p.Placing? && p.pc.LookUp? {
      EnterEligible(d, p.pc.nodes, p.pc.next + 1);
    }
    hide EnterNode;
  }

  lemma {:induction false} DaemonShaped(d: DaemonJobValue, calls: seq<Call>, pc: DaemonPc)
    requires DriveDaemon(d, calls) == Some(pc)
    ensures DaemonShape(d, calls, pc)
  {
    if calls != [] {
      hide DaemonShape, DaemonNext, DaemonRequest;
      var p := DaemonLast(d, calls, pc);
      DaemonShaped(d, calls[..|calls| - 1], p);
      DaemonShapeNext(d, calls[..|calls| - 1], p, calls[|calls| - 1]);
      assert calls == calls[..|calls| - 1] + [calls[|calls| - 1]];
    }
  }
}

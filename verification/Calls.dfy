/**
 What a reconcile does, read off the calls it made and the answers it got: how it goes on after
 each of them, when it asks to be run again, and what a Create rests on.
 */
module Calls {
  import opened Kube
  import opened JobFlows
  import opened Render
  import opened Machine
  import opened FlowStatus
  import opened Tallies

  /** Read the JobFlow; it is there and its persisted state is another than Failed. */
  ghost predicate ReadFirst(key: Key, calls: seq<Call>, jf: JobFlowValue) {
    |calls| > 0 && calls[0] == Call(GetJobFlow(key), JobFlowFound(jf)) && jf.status.state != "Failed"
  }

  predicate Deploys(call: Call) {
    call.request.GetTemplate? || call.request.GetJob? || call.request.CreateJob?
  }

  /** Calls of the deploy part; at most the last of them was answered by a fault, and by a BadRequest then. */
  ghost predicate DeployPart(calls: seq<Call>, n: int)
    requires n <= |calls|
  {
    && (forall i :: 0 < i < n ==> Deploys(calls[i]))
    && (forall i :: 0 < i < n && calls[i].response.Fault? ==> i == n - 1 && calls[i].response.badRequest)
  }

  ghost predicate Shape(key: Key, calls: seq<Call>, pc: ReconcilePc) {
    var n := |calls|;
    match pc
    case ReadJobFlow => calls == []
    case Deploying(jf, _) => ReadFirst(key, calls, jf) && DeployPart(calls, n) && !calls[n - 1].response.Fault?
    case Listing(jf, _) => ReadFirst(key, calls, jf) && DeployPart(calls, n)
    case Updating(jf, status) =>
      && n >= 2 && ReadFirst(key, calls, jf) && DeployPart(calls, n - 1)
      && calls[n - 1].request == ListJobs && calls[n - 1].response.Listed? && status == StatusOf(jf, calls[n - 1].response.items)
    case Finished(requeue) => Ended(key, calls, requeue)
  }

  /** All the calls of a reconcile: it ends after the read unless the JobFlow is there and has not failed; a fault ends it
      and has it run again, but for a BadRequest of the deploy part, which is followed by the List; and unless a fault
      ended it, it last wrote the status that the List's answer gives. */
  ghost predicate Ended(key: Key, calls: seq<Call>, requeue: bool) {
    var n := |calls|;
    && n > 0 && calls[0].request == GetJobFlow(key)
    && (requeue <==> calls[n - 1].response.Fault?)
    && (n == 1 <==> !(calls[0].response.JobFlowFound? && calls[0].response.jf.status.state != "Failed"))
    && (forall i :: 0 <= i < n - 1 && calls[i].response.Fault? ==>
          Deploys(calls[i]) && calls[i].response.badRequest && calls[i + 1].request == ListJobs)
    && (calls[n - 1].response.Fault? && Deploys(calls[n - 1]) ==> !calls[n - 1].response.badRequest)
    && (forall i :: 0 <= i < n - 1 && calls[i].request == ListJobs ==> i == n - 2)
    && (n > 1 && !requeue ==>
          && n > 2 && calls[n - 2].request == ListJobs && calls[n - 2].response.Listed?
          && calls[n - 1].request.UpdateStatus?
          && var jf, items := calls[0].response.jf, calls[n - 2].response.items;
             Tells("JobFlow", jf.name, jf.deleting, |jf.flows|, items, calls[n - 1].request.status))
  }

  lemma Prefix(key: Key, calls: seq<Call>, pc: ReconcilePc) returns (p: ReconcilePc)
    requires calls != [] && DriveReconcile(key, calls) == Some(pc)
    ensures var last := calls[|calls| - 1];
            && DriveReconcile(key, calls[..|calls| - 1]) == Some(p) && !p.Finished?
            && last.request == ReconcileRequest(key, p) && Fits(last.request, last.response)
            && pc == ReconcileNext(key, p, last.response)
  {
    p := DriveReconcile(key, calls[..|calls| - 1]).value;
  }

  lemma ShapeRead(key: Key, call: Call)
    requires call.request == GetJobFlow(key) && Fits(call.request, call.response)
    ensures Shape(key, [call], ReconcileNext(key, ReadJobFlow, call.response))
  {
    hide RenderJob, Tells;
  }

  lemma ShapeDeploying(key: Key, calls: seq<Call>, p: ReconcilePc, call: Call)
    requires p.Deploying? && ValidReconcilePc(p) && Shape(key, calls, p)
    requires call.request == ReconcileRequest(key, p) && Fits(call.request, call.response)
    ensures Shape(key, calls + [call], ReconcileNext(key, p, call.response))
  {
    var all := calls + [call];
    assert all[|calls|] == call && forall i :: 0 <= i < |calls| ==> all[i] == calls[i];
    hide RenderJob, JobKey, Tells;
  }

  lemma ShapeListing(key: Key, calls: seq<Call>, p: ReconcilePc, call: Call)
    requires p.Listing? && Shape(key, calls, p) && call.request == ListJobs && Fits(call.request, call.response)
    ensures Shape(key, calls + [call], ReconcileNext(key, p, call.response))
  {
    var all := calls + [call];
    assert all[|calls|] == call && forall i :: 0 <= i < |calls| ==> all[i] == calls[i];
    hide Tells, StatusFor, Next, Enter, RequestOf, AfterDeploy;
  }

  lemma ShapeUpdating(key: Key, calls: seq<Call>, p: ReconcilePc, call: Call)
    requires p.Updating? && Shape(key, calls, p) && call.request == UpdateStatus(p.status) && Fits(call.request, call.response)
    ensures Shape(key, calls + [call], ReconcileNext(key, p, call.response))
  {
    hide StatusFor, Next, Enter, RequestOf, AfterDeploy;
    var all, n := calls + [call], |calls|;
    var jf, items := p.jf, calls[n - 1].response.items;
    assert all[n] == call && all[n - 1] == calls[n - 1] && all[0] == calls[0];
    StatusTells(KIND, jf.name, jf.deleting, |jf.flows|, items);
    hide Tells;
    forall i | 0 <= i < n
      ensures all[i].response.Fault? ==> Deploys(all[i]) && all[i].response.badRequest && all[i + 1].request == ListJobs
      ensures all[i].request == ListJobs ==> i == n - 1
    {
      assert all[i] == calls[i];
    }
  }

  lemma ShapeNext(key: Key, calls: seq<Call>, p: ReconcilePc, call: Call)
    requires ValidReconcilePc(p) && !p.Finished? && Shape(key, calls, p)
    requires call.request == ReconcileRequest(key, p) && Fits(call.request, call.response)
    ensures Shape(key, calls + [call], ReconcileNext(key, p, call.response))
  {
    hide ReconcileNext, Ended, ReadFirst, DeployPart;
    match p
    case ReadJobFlow =>
      assert calls + [call] == [call];
      ShapeRead(key, call);
    case Deploying(_, _) => ShapeDeploying(key, calls, p, call);
    case Listing(_, _) => ShapeListing(key, calls, p, call);
    case Updating(_, _) => ShapeUpdating(key, calls, p, call);
  }

  lemma {:induction false} Shaped(key: Key, calls: seq<Call>, pc: ReconcilePc)
    requires DriveReconcile(key, calls) == Some(pc)
    ensures Shape(key, calls, pc)
  {
    if calls != [] {
      hide Shape, ReconcileNext, ReconcileRequest, Fits, ValidReconcilePc;
      var p := Prefix(key, calls, pc);
      Shaped(key, calls[..|calls| - 1], p);
      ShapeNext(key, calls[..|calls| - 1], p, calls[|calls| - 1]);
      assert calls == calls[..|calls| - 1] + [calls[|calls| - 1]];
    }
  }

  lemma ReconcileEnds(key: Key, calls: seq<Call>, requeue: bool)
    requires DriveReconcile(key, calls) == Some(Finished(requeue))
    ensures Ended(key, calls, requeue)
    ensures |calls| > 0 && (requeue <==> calls[|calls| - 1].response.Fault?)
  {
    Shaped(key, calls, Finished(requeue));
  }

  // ---- what a Create rests on ----

  /** The calls up to c end with a look-up that found no Job of flow n, and then, one by one, its first j
      dependencies: each found and not failed, and all of them succeeded if met. */
  ghost predicate Checked(jf: JobFlowValue, calls: seq<Call>, c: int, n: int, j: int, met: bool)
    requires 0 <= n < |jf.flows| && 0 <= j <= |jf.flows[n].dependencies| && c <= |calls|
  {
    var flow := jf.flows[n];
    && j < c && calls[c - j - 1].request == GetJob(Key(jf.namespace, jf.name + "-" + flow.name)) && calls[c - j - 1].response == NotFound
    && forall i :: c - j <= i < c ==>
         && calls[i].request == GetJob(Key(jf.namespace, jf.name + "-" + flow.dependencies[i - (c - j)]))
         && calls[i].response.JobFound? && calls[i].response.job.status.failed != 1
         && (met ==> calls[i].response.job.status.succeeded == 1)
  }

  /** Call c creates flow n's Job, right after all its dependencies were seen to have succeeded. */
  ghost predicate CreatesFor(jf: JobFlowValue, calls: seq<Call>, c: int, n: int)
    requires 0 <= c < |calls|
  {
    && 0 <= n < |jf.flows| && calls[c].request.CreateJob?
    && calls[c].request.created.key == Key(jf.namespace, jf.name + "-" + jf.flows[n].name)
    && Checked(jf, calls, c, n, |jf.flows[n].dependencies|, true)
  }

  ghost predicate Justified(jf: JobFlowValue, calls: seq<Call>) {
    forall c :: 0 <= c < |calls| && calls[c].request.CreateJob? ==> exists n :: CreatesFor(jf, calls, c, n)
  }

  ghost predicate Tracked(jf: JobFlowValue, calls: seq<Call>, pc: Pc)
    requires ValidPc(jf, pc)
  {
    && Justified(jf, calls)
    && match pc
       case CheckDependency(n, _, j, met) => Checked(jf, calls, |calls|, n, j, met)
       case Create(n, _) => Checked(jf, calls, |calls|, n, |jf.flows[n].dependencies|, true)
       case _ => true
  }

  lemma JustifiedMore(jf: JobFlowValue, calls: seq<Call>, call: Call, n: int)
    requires Justified(jf, calls)
    requires call.request.CreateJob? ==>
               && 0 <= n < |jf.flows| && call.request.created.key == Key(jf.namespace, jf.name + "-" + jf.flows[n].name)
               && Checked(jf, calls, |calls|, n, |jf.flows[n].dependencies|, true)
    ensures Justified(jf, calls + [call])
  {
    var all := calls + [call];
    forall c | 0 <= c < |all| && all[c].request.CreateJob?
      ensures exists m :: CreatesFor(jf, all, c, m)
    {
      if c < |calls| {
        var m :| CreatesFor(jf, calls, c, m);
        CheckedMore(jf, calls, call, c, m, |jf.flows[m].dependencies|, true);
        assert CreatesFor(jf, all, c, m);
      } else {
        CheckedMore(jf, calls, call, c, n, |jf.flows[n].dependencies|, true);
        assert CreatesFor(jf, all, c, n);
      }
    }
  }

  lemma CheckedMore(jf: JobFlowValue, calls: seq<Call>, call: Call, c: int, n: int, j: int, met: bool)
    requires 0 <= n < |jf.flows| && 0 <= j <= |jf.flows[n].dependencies| && c <= |calls|
    requires Checked(jf, calls, c, n, j, met)
    ensures Checked(jf, calls + [call], c, n, j, met)
  {
    assert forall i :: 0 <= i < |calls| ==> (calls + [call])[i] == calls[i];
  }

  /** One more dependency seen. */
  lemma CheckedNext(jf: JobFlowValue, calls: seq<Call>, call: Call, n: int, j: int, met: bool, met': bool)
    requires 0 <= n < |jf.flows| && 0 <= j < |jf.flows[n].dependencies| && Checked(jf, calls, |calls|, n, j, met)
    requires call.request == GetJob(Key(jf.namespace, jf.name + "-" + jf.flows[n].dependencies[j]))
    requires call.response.JobFound? && call.response.job.status.failed != 1
    requires met' ==> met && call.response.job.status.succeeded == 1
    ensures Checked(jf, calls + [call], |calls| + 1, n, j + 1, met')
  {
    var all := calls + [call];
    assert all[|calls|] == call && forall i :: 0 <= i < |calls| ==> all[i] == calls[i];
  }

  lemma TrackedNext(jf: JobFlowValue, calls: seq<Call>, pc: Pc, call: Call)
    requires ValidPc(jf, pc) && !pc.Returned? && Tracked(jf, calls, pc)
    requires call.request == RequestOf(jf, pc) && Fits(call.request, call.response)
    ensures Tracked(jf, calls + [call], Next(jf, pc, call.response))
  {
    var all := calls + [call];
    JustifiedMore(jf, calls, call, if pc.Create? then pc.flow else 0);
    if pc.CheckDependency? && call.response.JobFound? && call.response.job.status.failed != 1 {
      var met' := pc.met && call.response.job.status.succeeded == 1;
      CheckedNext(jf, calls, call, pc.flow, pc.dependency, pc.met, met');
    }
    hide Justified, RenderJob;
  }

  /** The last call was the one the machine asked for. */
  lemma LastCall(jf: JobFlowValue, start: Pc, calls: seq<Call>, pc: Pc) returns (p: Pc)
    requires ValidPc(jf, start) && calls != [] && Drive(jf, start, calls) == Some(pc)
    ensures var last := calls[|calls| - 1];
            && Drive(jf, start, calls[..|calls| - 1]) == Some(p) && ValidPc(jf, p) && !p.Returned?
            && last.request == RequestOf(jf, p) && Fits(last.request, last.response)
            && pc == Next(jf, p, last.response)
  {
    p := Drive(jf, start, calls[..|calls| - 1]).value;
  }

  /** Under any answers: a Job is created only right after its own look-up found none and every dependency was found,
      one after the other, to have succeeded and not failed. */
  lemma {:induction false} CreatesAreJustified(jf: JobFlowValue, calls: seq<Call>, pc: Pc)
    requires Drive(jf, Enter(jf, 0), calls) == Some(pc)
    ensures Tracked(jf, calls, pc)
  {
    if calls != [] {
      hide Tracked, Next, RequestOf, Enter, Fits;
      var p := LastCall(jf, Enter(jf, 0), calls, pc);
      CreatesAreJustified(jf, calls[..|calls| - 1], p);
      TrackedNext(jf, calls[..|calls| - 1], p, calls[|calls| - 1]);
      assert calls == calls[..|calls| - 1] + [calls[|calls| - 1]];
    }
  }
}

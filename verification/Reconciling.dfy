/**
 One undisturbed reconcile of a JobFlow and what two of them do to each other:
 repeating it changes nothing, and JobFlows whose Job names do not collide commute.
 */
module Reconciling {
  import opened Kube
  import opened JobFlows
  import opened Render
  import opened FlowStatus
  import opened Deploy
  import opened Passes
  import opened StatusMeaning

  /** Equal up to what the controller and the API change in a fixed spec. */
  ghost predicate SameSpec(a: JobFlowValue, b: JobFlowValue) {
    b == a.(status := b.status, deleting := b.deleting)
  }

  /** No difference a pass of jf could see: same presence and same status under every name it looks up. */
  ghost predicate SameToPass(jf: JobFlowValue, jobs: Jobs, jobs': Jobs) {
    forall k :: MentionedKey(jf, k) ==> (k in jobs <==> k in jobs') && (k in jobs ==> jobs[k].status == jobs'[k].status)
  }

  lemma FlowMentioned(jf: JobFlowValue, i: nat)
    requires i < |jf.flows|
    ensures MentionedKey(jf, JobKey(jf, jf.flows[i].name))
    ensures forall d :: d in jf.flows[i].dependencies ==> MentionedKey(jf, JobKey(jf, d))
  {
    assert Declared(jf, jf.flows[i].name);
    forall d | d in jf.flows[i].dependencies
      ensures MentionedKey(jf, JobKey(jf, d))
    {
      assert DependsOn(jf, jf.flows[i].name, d);
      assert Mentioned(jf, d);
    }
  }

  lemma {:induction false} ScanAgrees(a: JobFlowValue, b: JobFlowValue, dependencies: seq<string>, met: bool, jobs: Jobs, jobs': Jobs)
    requires a.namespace == b.namespace && a.name == b.name
    requires forall d :: d in dependencies ==>
               var k := JobKey(a, d); (k in jobs <==> k in jobs') && (k in jobs ==> jobs[k].status == jobs'[k].status)
    ensures Scan(a, dependencies, met, jobs) == Scan(b, dependencies, met, jobs')
  {
    if dependencies != [] {
      assert dependencies[0] in dependencies;
      var k := JobKey(a, dependencies[0]);
      assert k == JobKey(b, dependencies[0]);
      ScanAgrees(a, b, dependencies[1..], met && HasSucceeded(jobs, k), jobs, jobs');
    }
  }

  /** A pass depends on the spec and on the Jobs under the names it looks up. */
  lemma {:induction false} DeployAgrees(a: JobFlowValue, b: JobFlowValue, templates: map<Key, SpecValue>, i: nat, jobs: Jobs, jobs': Jobs)
    requires SameSpec(a, b) && i <= |a.flows| && SameToPass(a, jobs, jobs')
    ensures DeployFrom(b, templates, i, jobs') == DeployFrom(a, templates, i, jobs)
    decreases |a.flows| - i
  {
    if i < |a.flows| {
      FlowMentioned(a, i);
      var flow := a.flows[i];
      var k := JobKey(a, flow.name);
      assert k == JobKey(b, flow.name);
      hide MentionedKey, Scan, RenderJob, JobKey;
      ScanAgrees(a, b, flow.dependencies, true, jobs, jobs');
      var base := BaseOf(a, flow, templates);
      if base.Some? {
        RenderDependsOn(a, flow, b, flow, base.value);
        var job := RenderJob(a, flow, base.value);
        DeployAgrees(a, b, templates, i + 1, jobs, jobs');
        DeployAgrees(a, b, templates, i + 1, jobs[k := job], jobs'[k := job]);
      }
    }
  }

  /** What a JobFlow read through the cache carries; the Jobs it creates then refer back to it. */
  predicate WellFormed(jf: JobFlowValue) {
    jf.kind == KIND && jf.apiVersion == API_VERSION
  }

  /** Every Job a pass creates is one flow's Job, new, and owned by the JobFlow alone. */
  lemma CreatedJobs(jf: JobFlowValue, templates: map<Key, SpecValue>, jobs: Jobs)
    requires DistinctNames(jf) && WellFormed(jf)
    ensures var created := DeployPass(jf, templates, jobs).created;
            && created.Keys !! jobs.Keys
            && forall k :: k in created ==>
                 && IsFlowKey(jf, k) && created[k].key == k && created[k].status == NO_STATUS
                 && created[k].owners == [OwnerReference(API_VERSION, KIND, jf.name, jf.uid)]
  {
    var pass := DeployPass(jf, templates, jobs);
    PassCreatesReady(jf, templates, 0, jobs);
    forall k | k in pass.created
      ensures IsFlowKey(jf, k)
      ensures pass.created[k].owners == [OwnerReference(API_VERSION, KIND, jf.name, jf.uid)]
    {
      var n :| 0 <= n < pass.reached && Ready(jf, n, jobs) && k == JobKey(jf, jf.flows[n].name);
      assert CreatedFor(jf, templates, n, pass.created);
    }
  }

  /** A pass keeps every JobFlow's Jobs in order: its own, and that of any JobFlow of another name. */
  lemma PassKeepsOwnership(jf: JobFlowValue, templates: map<Key, SpecValue>, jobs: Jobs, other: JobFlowValue)
    requires DistinctNames(jf) && WellFormed(jf) && WellOwned(other, jobs)
    requires SameSpec(jf, other) || (jf.name != other.name && forall k :: IsFlowKey(jf, k) ==> !IsFlowKey(other, k))
    ensures WellOwned(other, jobs + DeployPass(jf, templates, jobs).created)
  {
    var created := DeployPass(jf, templates, jobs).created;
    CreatedJobs(jf, templates, jobs);
    hide DeployPass;
    forall k | k in created
      ensures Matches(created[k].owners, KIND, other.name) == if IsFlowKey(other, k) then 1 else 0
    {
      SoleOwner(OwnerReference(API_VERSION, KIND, jf.name, jf.uid), KIND, other.name);
    }
  }

  lemma SomeListing(jobs: Jobs) returns (items: seq<JobValue>)
    requires Filed(jobs)
    ensures IsListing(items, jobs)
    decreases jobs.Keys
  {
    if jobs.Keys == {} {
      items := [];
    } else {
      var k :| k in jobs;
      var rest := jobs - {k};
      var most := SomeListing(rest);
      items := most + [jobs[k]];
      forall q | q in jobs
        ensures exists i :: 0 <= i < |items| && items[i].key == q
      {
        if q == k {
          assert items[|most|].key == q;
        } else {
          assert q in rest;
          var i :| 0 <= i < |most| && most[i].key == q;
          assert items[i] == most[i];
        }
      }
    }
  }

  lemma StatusIgnoresStatus(a: JobFlowValue, b: JobFlowValue, items: seq<JobValue>)
    requires b == a.(status := b.status)
    ensures StatusOf(b, items) == StatusOf(a, items)
    ensures FlowKey(a) == FlowKey(b)
  {
  }

  lemma SameOwnership(a: JobFlowValue, b: JobFlowValue, jobs: Jobs)
    requires SameSpec(a, b)
    ensures WellOwned(a, jobs) <==> WellOwned(b, jobs)
    ensures DistinctNames(a) <==> DistinctNames(b)
    ensures forall k :: IsFlowKey(a, k) <==> IsFlowKey(b, k)
  {
    assert a.flows == b.flows;
    forall k
      ensures IsFlowKey(a, k) <==> IsFlowKey(b, k)
    {
      assert forall n :: 0 <= n < |a.flows| ==> JobKey(a, a.flows[n].name) == JobKey(b, b.flows[n].name);
    }
  }

  /** Reconciling again right away creates no Job and leaves the persisted status as it is. */
  lemma ReconcileIsIdempotent(jf0: JobFlowValue, templates: map<Key, SpecValue>, jobs0: Jobs,
                              jf1: JobFlowValue, jobs1: Jobs, jf2: JobFlowValue, jobs2: Jobs)
    requires DistinctNames(jf0) && WellFormed(jf0) && WellOwned(jf0, jobs0)
    requires Reconciled(jf0, templates, jobs0, jf1, jobs1) && Reconciled(jf1, templates, jobs1, jf2, jobs2)
    ensures jobs2 == jobs1 && jf2 == jf1
  {
    if jf0.status.state != FAILED && jf1.status.state != FAILED {
      IdempotentWhileActive(jf0, templates, jobs0, jf1, jobs1, jf2, jobs2);
    }
  }

  lemma IdempotentWhileActive(jf0: JobFlowValue, templates: map<Key, SpecValue>, jobs0: Jobs,
                              jf1: JobFlowValue, jobs1: Jobs, jf2: JobFlowValue, jobs2: Jobs)
    requires DistinctNames(jf0) && WellFormed(jf0) && WellOwned(jf0, jobs0)
    requires Reconciled(jf0, templates, jobs0, jf1, jobs1) && Reconciled(jf1, templates, jobs1, jf2, jobs2)
    requires jf0.status.state != FAILED && jf1.status.state != FAILED
    ensures jobs2 == jobs1 && jf2 == jf1
  {
    hide *;
    var items := ReconcileParts(jf0, templates, jobs0, jf1, jobs1);
    var items' := ReconcileParts(jf1, templates, jobs1, jf2, jobs2);
    SecondPassIsIdle(jf0, templates, jobs0);
    DeployAgreesPass(jf0, jf1, templates, jobs1, jobs1);
    assert jobs2 == jobs1 + map[] == jobs1;
    PassKeepsOwnership(jf0, templates, jobs0, jf0);
    StatusIgnoresStatus(jf0, jf1, items');
    ListingIsIrrelevant(jf0, jobs1, jobs1, items, items');
    assert jf1.status == StatusOf(jf0, items) == StatusOf(jf1, items');
    assert jf2 == jf1.(status := jf1.status);
  }

  lemma ReconcileParts(jf: JobFlowValue, templates: map<Key, SpecValue>, jobs: Jobs, jf': JobFlowValue, jobs': Jobs)
    returns (items: seq<JobValue>)
    requires Reconciled(jf, templates, jobs, jf', jobs') && jf.status.state != FAILED
    ensures jobs' == jobs + DeployPass(jf, templates, jobs).created
    ensures IsListing(items, jobs') && jf' == jf.(status := StatusOf(jf, items))
    ensures SameSpec(jf, jf) && SameSpec(jf, jf') && SameToPass(jf, jobs', jobs') && SameToStatus(jf, jobs', jobs')
  {
    items :| IsListing(items, jobs') && jf' == jf.(status := StatusOf(jf, items));
  }

  lemma DeployAgreesPass(a: JobFlowValue, b: JobFlowValue, templates: map<Key, SpecValue>, jobs: Jobs, jobs': Jobs)
    requires SameSpec(a, b) && SameToPass(a, jobs, jobs')
    ensures DeployPass(b, templates, jobs') == DeployPass(a, templates, jobs)
  {
    DeployAgrees(a, b, templates, 0, jobs, jobs');
  }

  /** No Job name of one JobFlow, dependency names included, is a Job name of the other. */
  ghost predicate Disjoint(a: JobFlowValue, b: JobFlowValue) {
    && a.name != b.name
    && forall x, y :: Mentioned(a, x) && Mentioned(b, y) ==> JobKey(a, x) != JobKey(b, y)
  }

  lemma FlowKeyMentioned(jf: JobFlowValue, k: Key)
    requires IsFlowKey(jf, k)
    ensures MentionedKey(jf, k)
  {
    var n :| 0 <= n < |jf.flows| && k == JobKey(jf, jf.flows[n].name);
    FlowMentioned(jf, n);
  }

  /** What one JobFlow's pass creates is invisible to the other's. */
  lemma Unseen(a: JobFlowValue, b: JobFlowValue, templates: map<Key, SpecValue>, jobs: Jobs)
    requires DistinctNames(a) && WellFormed(a) && Disjoint(a, b)
    ensures SameToPass(b, jobs, jobs + DeployPass(a, templates, jobs).created)
    ensures forall k :: IsFlowKey(a, k) ==> !IsFlowKey(b, k)
  {
    CreatedJobs(a, templates, jobs);
    hide DeployPass;
    forall k | IsFlowKey(a, k)
      ensures !MentionedKey(b, k) && !IsFlowKey(b, k)
    {
      FlowKeyMentioned(a, k);
      if IsFlowKey(b, k) {
        FlowKeyMentioned(b, k);
      }
    }
  }

  /** The Jobs a reconcile adds; none once the JobFlow has failed. */
  function Added(jf: JobFlowValue, templates: map<Key, SpecValue>, jobs: Jobs): Jobs {
    if jf.status.state == FAILED then map[] else DeployPass(jf, templates, jobs).created
  }

  /** A reconcile creates no Job exactly when the state it reads is Failed or no flow is startable. */
  lemma AddsNothingExactly(jf: JobFlowValue, templates: map<Key, SpecValue>, jobs: Jobs)
    ensures Added(jf, templates, jobs) == map[] <==> jf.status.state == FAILED || !SomeStartable(jf, templates, jobs)
  {
    CreatesExactly(jf, templates, jobs);
  }

  /** Which flows are startable is a matter of the spec and of the Jobs under the names it mentions. */
  lemma StartableAgrees(a: JobFlowValue, b: JobFlowValue, templates: map<Key, SpecValue>, jobs: Jobs, jobs': Jobs)
    requires SameSpec(a, b) && SameToPass(a, jobs, jobs')
    ensures SomeStartable(b, templates, jobs') <==> SomeStartable(a, templates, jobs)
  {
    hide DeployPass, Startable;
    DeployAgreesPass(a, b, templates, jobs, jobs');
    CreatesExactly(a, templates, jobs);
    CreatesExactly(b, templates, jobs');
  }

  /** b sees the same Jobs, and adds the same, whether or not a reconciled before it. */
  lemma AddedIndependently(a: JobFlowValue, b: JobFlowValue, templates: map<Key, SpecValue>, jobs: Jobs)
    requires DistinctNames(a) && WellFormed(a) && DistinctNames(b) && WellFormed(b) && Disjoint(a, b)
    requires WellOwned(b, jobs)
    ensures Added(b, templates, jobs + Added(a, templates, jobs)) == Added(b, templates, jobs)
    ensures WellOwned(b, jobs + Added(a, templates, jobs))
    ensures forall k :: k in Added(a, templates, jobs) ==> IsFlowKey(a, k) && !IsFlowKey(b, k) && k !in jobs
    ensures forall k :: k in Added(b, templates, jobs) ==> IsFlowKey(b, k) && !IsFlowKey(a, k) && k !in jobs
  {
    hide WellOwned, IsFlowKey, DeployPass, DistinctNames;
    Unseen(a, b, templates, jobs);
    assert jobs + map[] == jobs;
    DeployAgreesPass(b, b, templates, jobs, jobs + DeployPass(a, templates, jobs).created);
    PassKeepsOwnership(a, templates, jobs, b);
    CreatedJobs(a, templates, jobs);
    CreatedJobs(b, templates, jobs);
  }

  lemma StatusSeesSame(jf: JobFlowValue, jobs: Jobs, more: Jobs, added: Jobs)
    requires forall k :: k in more ==> !IsFlowKey(jf, k)
    ensures SameToStatus(jf, jobs + added, jobs + more + added)
  {
    hide IsFlowKey;
  }

  lemma StatusUnmoved(jf: JobFlowValue, templates: map<Key, SpecValue>, jobs: Jobs, jf': JobFlowValue, jobs': Jobs,
                      more: Jobs, jf'': JobFlowValue, jobs'': Jobs)
    requires DistinctNames(jf) && WellFormed(jf) && WellOwned(jf, jobs) && WellOwned(jf, jobs + more)
    requires Reconciled(jf, templates, jobs, jf', jobs') && Reconciled(jf, templates, jobs + more, jf'', jobs'')
    requires jf.status.state != FAILED
    requires DeployPass(jf, templates, jobs + more).created == DeployPass(jf, templates, jobs).created
    requires forall k :: k in more ==> !IsFlowKey(jf, k)
    ensures jf'' == jf'
  {
    hide *;
    var items := ReconcileParts(jf, templates, jobs, jf', jobs');
    var items' := ReconcileParts(jf, templates, jobs + more, jf'', jobs'');
    PassKeepsOwnership(jf, templates, jobs, jf);
    PassKeepsOwnership(jf, templates, jobs + more, jf);
    StatusSeesSame(jf, jobs, more, DeployPass(jf, templates, jobs).created);
    ListingIsIrrelevant(jf, jobs', jobs'', items, items');
  }

  lemma AddsJobs(jf: JobFlowValue, templates: map<Key, SpecValue>, jobs: Jobs, jf': JobFlowValue, jobs': Jobs)
    requires Reconciled(jf, templates, jobs, jf', jobs')
    ensures jobs' == jobs + Added(jf, templates, jobs)
    ensures jf.status.state == FAILED ==> jf' == jf
    ensures jf.status.state != FAILED ==> Added(jf, templates, jobs) == DeployPass(jf, templates, jobs).created
    ensures SameSpec(jf, jf)
  {
    hide DeployPass;
    assert jobs + map[] == jobs;
  }

  /** One Job name continues the other's JobFlow name. */
  ghost predicate Collide(a: string, x: string, b: string, y: string) {
    || (exists s :: b == a + "-" + s && x == s + "-" + y)
    || (exists s :: a == b + "-" + s && y == s + "-" + x)
  }

  /** Exactly which JobFlows of different names stay out of each other's way. */
  lemma DisjointExactly(a: JobFlowValue, b: JobFlowValue)
    requires a.name != b.name
    ensures Disjoint(a, b) <==>
            a.namespace != b.namespace ||
            forall x, y :: Mentioned(a, x) && Mentioned(b, y) ==> !Collide(a.name, x, b.name, y)
  {
    hide Mentioned;
    forall x, y
      ensures JobName(a.name, x) == JobName(b.name, y) <==> Collide(a.name, x, b.name, y)
    {
      NamesCollide(a.name, x, b.name, y);
    }
  }

  lemma DisjointSymmetric(a: JobFlowValue, b: JobFlowValue)
    requires Disjoint(a, b)
    ensures Disjoint(b, a)
  {
  }

  lemma UnionsCommute(jobs: Jobs, p: Jobs, q: Jobs)
    requires forall k :: k in p ==> k !in q
    ensures jobs + p + q == jobs + q + p
  {
  }

  /** Two JobFlows whose names do not collide can be reconciled in either order. */
  lemma ReconcilesCommute(a: JobFlowValue, b: JobFlowValue, templates: map<Key, SpecValue>, jobs: Jobs,
                          a1: JobFlowValue, jobsA: Jobs, b1: JobFlowValue, jobsAB: Jobs,
                          b2: JobFlowValue, jobsB: Jobs, a2: JobFlowValue, jobsBA: Jobs)
    requires DistinctNames(a) && WellFormed(a) && WellOwned(a, jobs)
    requires DistinctNames(b) && WellFormed(b) && WellOwned(b, jobs)
    requires Disjoint(a, b)
    requires Reconciled(a, templates, jobs, a1, jobsA) && Reconciled(b, templates, jobsA, b1, jobsAB)
    requires Reconciled(b, templates, jobs, b2, jobsB) && Reconciled(a, templates, jobsB, a2, jobsBA)
    ensures jobsAB == jobsBA && a1 == a2 && b1 == b2
  {
    hide *;
    DisjointSymmetric(a, b);
    AddsJobs(a, templates, jobs, a1, jobsA);
    AddsJobs(b, templates, jobsA, b1, jobsAB);
    AddsJobs(b, templates, jobs, b2, jobsB);
    AddsJobs(a, templates, jobsB, a2, jobsBA);
    AddedIndependently(a, b, templates, jobs);
    AddedIndependently(b, a, templates, jobs);
    var addedA, addedB := Added(a, templates, jobs), Added(b, templates, jobs);
    UnionsCommute(jobs, addedA, addedB);
    if a.status.state != FAILED {
      StatusUnmoved(a, templates, jobs, a1, jobsA, addedB, a2, jobsBA);
    }
    if b.status.state != FAILED {
      StatusUnmoved(b, templates, jobs, b2, jobsB, addedA, b1, jobsAB);
    }
  }
}

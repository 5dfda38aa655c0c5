/**
 Liveness: when every created Job succeeds between two reconciles, the flows start level
 by level, and a JobFlow of n flows succeeds within n + 1 reconciles.
 */
module Progress {
  import opened Kube
  import opened JobFlows
  import opened Chains
  import opened Machine
  import opened FlowStatus
  import opened Deploy
  import opened Passes
  import opened Counting
  import opened StatusMeaning
  import opened Reconciling

  /** Every dependency is itself a flow. */
  ghost predicate Closed(jf: JobFlowValue) {
    forall n, d :: 0 <= n < |jf.flows| && d in jf.flows[n].dependencies ==> Declared(jf, d)
  }

  /** No dependency chain comes back to where it started. */
  ghost predicate Acyclic(jf: JobFlowValue) {
    forall p :: Chain(jf, p) && |p| > 1 ==> p[0] != p[|p| - 1]
  }

  /** The longest dependency chain from this flow has at most k flows. */
  ghost predicate Level(jf: JobFlowValue, name: string, k: nat) {
    Declared(jf, name) && forall p :: Chain(jf, p) && p[0] == name ==> |p| <= k
  }

  ghost predicate Present(jf: JobFlowValue, jobs: Jobs, name: string) {
    Declared(jf, name) && JobKey(jf, name) in jobs
  }

  /** The Jobs of exactly the flows up to level k exist, and all have succeeded. */
  ghost predicate AtLevel(jf: JobFlowValue, jobs: Jobs, k: nat) {
    && (forall name :: Present(jf, jobs, name) <==> Level(jf, name, k))
    && (forall name :: Present(jf, jobs, name) ==> PhaseOf(jobs[JobKey(jf, name)].status) == Succeeded)
    && (forall name :: Present(jf, jobs, name) ==> Exclusive(jobs[JobKey(jf, name)].status))
  }

  /** A flow is one level above its dependencies. */
  lemma LevelStep(jf: JobFlowValue, name: string, k: nat)
    requires Closed(jf) && Declared(jf, name)
    ensures Level(jf, name, k + 1) <==> forall d :: DependsOn(jf, name, d) ==> Level(jf, d, k)
  {
    if Level(jf, name, k + 1) {
      forall d | DependsOn(jf, name, d)
        ensures Level(jf, d, k)
      {
        forall p | Chain(jf, p) && p[0] == d
          ensures |p| <= k
        {
          ChainCons(jf, name, p);
          assert ([name] + p)[0] == name;
        }
      }
    }
    if forall d :: DependsOn(jf, name, d) ==> Level(jf, d, k) {
      forall p | Chain(jf, p) && p[0] == name
        ensures |p| <= k + 1
      {
        if |p| > 1 {
          ChainTail(jf, p);
          assert Level(jf, p[1], k);
        }
      }
    }
  }

  lemma LevelsRise(jf: JobFlowValue, name: string, k: nat)
    ensures Level(jf, name, k) ==> Level(jf, name, k + 1)
  {
  }

  lemma LevelZero(jf: JobFlowValue, name: string)
    ensures !Level(jf, name, 0)
  {
    assert Chain(jf, [name]);
  }

  lemma DeclaredFlow(jf: JobFlowValue, name: string) returns (n: nat)
    requires Declared(jf, name)
    ensures n < |jf.flows| && jf.flows[n].name == name
  {
    n :| 0 <= n < |jf.flows| && jf.flows[n].name == name;
  }

  lemma PresentMeansFlow(jf: JobFlowValue, jobs: Jobs, n: nat)
    requires n < |jf.flows|
    ensures Present(jf, jobs, jf.flows[n].name) <==> JobKey(jf, jf.flows[n].name) in jobs
  {
  }

  /** At level k nothing has failed, and a flow is ready exactly when it is of level k + 1 and not there yet. */
  lemma ReadyAtLevel(jf: JobFlowValue, jobs: Jobs, k: nat, n: nat)
    requires DistinctNames(jf) && Closed(jf) && AtLevel(jf, jobs, k) && n < |jf.flows|
    ensures Ready(jf, n, jobs) <==> Level(jf, jf.flows[n].name, k + 1) && !Present(jf, jobs, jf.flows[n].name)
    ensures forall d :: d in jf.flows[n].dependencies ==> !HasFailed(jobs, JobKey(jf, d))
  {
    var flow := jf.flows[n];
    PresentMeansFlow(jf, jobs, n);
    LevelStep(jf, flow.name, k);
    forall d
      ensures DependsOn(jf, flow.name, d) <==> d in flow.dependencies
    {
      if DependsOn(jf, flow.name, d) {
        var i :| 0 <= i < |jf.flows| && jf.flows[i].name == flow.name && d in jf.flows[i].dependencies;
        assert i == n;
      }
    }
    forall d | d in flow.dependencies
      ensures HasSucceeded(jobs, JobKey(jf, d)) <==> Level(jf, d, k)
      ensures !HasFailed(jobs, JobKey(jf, d))
    {
      assert Present(jf, jobs, d) <==> Level(jf, d, k);
    }
  }

  /** A pass from level k leaves the Jobs of exactly the flows up to level k + 1. */
  lemma PassRaisesLevel(jf: JobFlowValue, templates: map<Key, SpecValue>, jobs: Jobs, k: nat)
    requires DistinctNames(jf) && Closed(jf) && TemplatesPresent(jf, templates) && AtLevel(jf, jobs, k)
    ensures forall name :: Present(jf, jobs + DeployPass(jf, templates, jobs).created, name) <==> Level(jf, name, k + 1)
    ensures DeployPass(jf, templates, jobs).outcome == Deployed
  {
    var created := DeployPass(jf, templates, jobs).created;
    forall n | 0 <= n < |jf.flows|
      ensures Ready(jf, n, jobs) <==> Level(jf, jf.flows[n].name, k + 1) && !Present(jf, jobs, jf.flows[n].name)
      ensures forall d :: d in jf.flows[n].dependencies ==> !HasFailed(jobs, JobKey(jf, d))
    {
      ReadyAtLevel(jf, jobs, k, n);
    }
    PassIsReadySet(jf, templates, jobs);
    hide DeployPass, Ready, CreatedFor;
    forall name
      ensures Present(jf, jobs + created, name) <==> Level(jf, name, k + 1)
    {
      if Declared(jf, name) {
        var n := DeclaredFlow(jf, name);
        CreatedWhenReady(jf, jobs, n);
        assert Present(jf, jobs, name) ==> Level(jf, name, k) && Level(jf, name, k + 1);
      }
    }
  }

  lemma CreatedWhenReady(jf: JobFlowValue, jobs: Jobs, n: nat)
    requires DistinctNames(jf) && n < |jf.flows|
    ensures JobKey(jf, jf.flows[n].name) in ReadyKeys(jf, jobs) <==> Ready(jf, n, jobs)
  {
    var k := JobKey(jf, jf.flows[n].name);
    if k in ReadyKeys(jf, jobs) {
      var m := PickReady(jf, jobs, k);
      JobKeyInjective(jf, jf.flows[m].name, jf.flows[n].name);
      assert m == n;
    }
  }

  /** What is stored when a round begins: the persisted status and the Jobs. */
  datatype Moment = Moment(status: JobFlowStatus, jobs: Jobs)

  /** Between two reconciles every Job of the JobFlow succeeds, none is deleted and none appears. */
  ghost predicate AllFinish(jf: JobFlowValue, jobs: Jobs, jobs': Jobs) {
    && WellOwned(jf, jobs')
    && forall k :: IsFlowKey(jf, k) ==>
         && (k in jobs <==> k in jobs')
         && (k in jobs' ==> PhaseOf(jobs'[k].status) == Succeeded && Exclusive(jobs'[k].status))
  }

  ghost predicate Round(jf: JobFlowValue, templates: map<Key, SpecValue>, m: Moment, m': Moment) {
    exists jobs :: Reconciled(jf.(status := m.status), templates, m.jobs, jf.(status := m'.status), jobs)
                   && AllFinish(jf, jobs, m'.jobs)
  }

  /** Rounds of a new JobFlow: no Job of it exists yet and its status is empty. */
  ghost predicate Rounds(jf: JobFlowValue, templates: map<Key, SpecValue>, s: seq<Moment>) {
    && |s| > 0
    && s[0].status.state != FAILED && WellOwned(jf, s[0].jobs) && (forall k :: IsFlowKey(jf, k) ==> k !in s[0].jobs)
    && forall i :: 0 <= i < |s| - 1 ==> Round(jf, templates, s[i], s[i + 1])
  }

  /** A JobFlow the theorem is about: acyclic comes later, and only for the bound. */
  ghost predicate Runnable(jf: JobFlowValue, templates: map<Key, SpecValue>) {
    DistinctNames(jf) && WellFormed(jf) && Closed(jf) && TemplatesPresent(jf, templates) && !jf.deleting
  }

  ghost predicate AllOfLevel(jf: JobFlowValue, k: nat) {
    forall name :: Declared(jf, name) ==> Level(jf, name, k)
  }

  lemma RoundParts(jf: JobFlowValue, templates: map<Key, SpecValue>, m: Moment, m': Moment) returns (items: seq<JobValue>, jobs: Jobs)
    requires Round(jf, templates, m, m') && m.status.state != FAILED
    ensures jobs == m.jobs + DeployPass(jf, templates, m.jobs).created
    ensures IsListing(items, jobs) && m'.status == StatusOf(jf, items) && AllFinish(jf, jobs, m'.jobs)
  {
    jobs :| Reconciled(jf.(status := m.status), templates, m.jobs, jf.(status := m'.status), jobs) && AllFinish(jf, jobs, m'.jobs);
    items := ReconcileParts(jf.(status := m.status), templates, m.jobs, jf.(status := m'.status), jobs);
    DeployAgreesPass(jf, jf.(status := m.status), templates, m.jobs, m.jobs);
    StatusIgnoresStatus(jf, jf.(status := m.status), items);
  }

  lemma FinishReachesLevel(jf: JobFlowValue, jobs: Jobs, jobs': Jobs, k: nat)
    requires AllFinish(jf, jobs, jobs')
    requires forall name :: Present(jf, jobs, name) <==> Level(jf, name, k)
    ensures AtLevel(jf, jobs', k)
  {
    hide Level;
    forall name | Declared(jf, name)
      ensures IsFlowKey(jf, JobKey(jf, name))
    {
      var n := DeclaredFlow(jf, name);
    }
  }

  /** In the middle of round k, the levels up to k have succeeded and the next one has only been created. */
  lemma MeaningAtLevel(jf: JobFlowValue, jobs: Jobs, created: Jobs, k: nat)
    requires !jf.deleting && AtLevel(jf, jobs, k) && created.Keys !! jobs.Keys
    requires forall q :: q in created ==> created[q].status == NO_STATUS
    ensures Meaning(jf, jobs + created) == SUCCEED <==> AllOfLevel(jf, k)
    ensures Meaning(jf, jobs + created) != FAILED
  {
    var now := jobs + created;
    forall n | 0 <= n < |jf.flows|
      ensures InPhase(jf, now, Succeeded, n) <==> Level(jf, jf.flows[n].name, k)
      ensures !InPhase(jf, now, Failed, n)
    {
      PresentMeansFlow(jf, jobs, n);
    }
    hide Level, InPhase;
    if AllSucceeded(jf, now) {
      forall name | Declared(jf, name)
        ensures Level(jf, name, k)
      {
        var n := DeclaredFlow(jf, name);
      }
    }
  }

  /** After k rounds the Jobs of exactly the flows up to level k exist, and round k reported success
      exactly when all flows were of a lower level than k; it never reported failure. */
  lemma {:induction false} LevelByLevel(jf: JobFlowValue, templates: map<Key, SpecValue>, s: seq<Moment>, k: nat)
    requires Runnable(jf, templates) && Rounds(jf, templates, s) && k < |s|
    ensures AtLevel(jf, s[k].jobs, k) && WellOwned(jf, s[k].jobs)
    ensures s[k].status.state != FAILED
    ensures k > 0 ==> (s[k].status.state == SUCCEED <==> AllOfLevel(jf, k - 1))
    decreases k, 1
  {
    if k == 0 {
      FirstLevel(jf, s[0].jobs);
    } else {
      hide *;
      LevelByLevelStep(jf, templates, s, k);
    }
  }

  lemma FirstLevel(jf: JobFlowValue, jobs: Jobs)
    requires forall k :: IsFlowKey(jf, k) ==> k !in jobs
    ensures AtLevel(jf, jobs, 0)
  {
    forall name
      ensures !Level(jf, name, 0) && !Present(jf, jobs, name)
    {
      LevelZero(jf, name);
      if Declared(jf, name) {
        var n := DeclaredFlow(jf, name);
        assert IsFlowKey(jf, JobKey(jf, name));
      }
    }
  }

  lemma LevelByLevelStep(jf: JobFlowValue, templates: map<Key, SpecValue>, s: seq<Moment>, k: nat)
    requires Runnable(jf, templates) && Rounds(jf, templates, s) && 0 < k < |s|
    ensures AtLevel(jf, s[k].jobs, k) && WellOwned(jf, s[k].jobs)
    ensures s[k].status.state != FAILED && (s[k].status.state == SUCCEED <==> AllOfLevel(jf, k - 1))
    decreases k, 0
  {
    LevelByLevel(jf, templates, s, k - 1);
    assert Round(jf, templates, s[k - 1], s[k - 1 + 1]);
    OneRound(jf, templates, s[k - 1], s[k], k - 1);
  }

  lemma OneRound(jf: JobFlowValue, templates: map<Key, SpecValue>, m: Moment, m': Moment, k: nat)
    requires Runnable(jf, templates) && Round(jf, templates, m, m')
    requires AtLevel(jf, m.jobs, k) && WellOwned(jf, m.jobs) && m.status.state != FAILED
    ensures AtLevel(jf, m'.jobs, k + 1) && WellOwned(jf, m'.jobs)
    ensures m'.status.state != FAILED && (m'.status.state == SUCCEED <==> AllOfLevel(jf, k))
  {
    assert SameSpec(jf, jf);
    hide Level, AtLevel, AllOfLevel, DeployPass, IsListing, WellOwned, StatusOf, Round, DistinctNames, Closed, TemplatesPresent, Meaning;
    var items, jobs := RoundParts(jf, templates, m, m');
    PassRaisesLevel(jf, templates, m.jobs, k);
    FinishReachesLevel(jf, jobs, m'.jobs, k + 1);
    CreatedJobs(jf, templates, m.jobs);
    PassKeepsOwnership(jf, templates, m.jobs, jf);
    StateMeans(jf, jobs, items);
    MeaningAtLevel(jf, m.jobs, DeployPass(jf, templates, m.jobs).created, k);
  }

  ghost function KeysOf(jf: JobFlowValue, p: seq<string>): set<Key> {
    set i | 0 <= i < |p| :: JobKey(jf, p[i])
  }

  lemma {:induction false} DistinctKeysCount(jf: JobFlowValue, p: seq<string>)
    requires forall i, j :: 0 <= i < j < |p| ==> p[i] != p[j]
    ensures |KeysOf(jf, p)| == |p|
  {
    if |p| > 0 {
      var n := |p| - 1;
      DistinctKeysCount(jf, p[..n]);
      forall i | 0 <= i < n
        ensures JobKey(jf, p[i]) != JobKey(jf, p[n])
      {
        JobKeyInjective(jf, p[i], p[n]);
      }
      assert KeysOf(jf, p) == KeysOf(jf, p[..n]) + {JobKey(jf, p[n])};
    }
  }

  /** In an acyclic JobFlow no chain visits more flows than there are. */
  lemma ChainBound(jf: JobFlowValue, p: seq<string>)
    requires DistinctNames(jf) && Closed(jf) && Acyclic(jf) && Chain(jf, p) && Declared(jf, p[0])
    ensures |p| <= |jf.flows|
  {
    forall i, j | 0 <= i < j < |p|
      ensures p[i] != p[j]
    {
      ChainPiece(jf, p, i, j + 1);
      assert p[i..j + 1][0] == p[i] && p[i..j + 1][j - i] == p[j];
    }
    DistinctKeysCount(jf, p);
    FlowKeysCount(jf, |jf.flows|);
    forall i | 0 <= i < |p|
      ensures JobKey(jf, p[i]) in FlowKeys(jf, |jf.flows|)
    {
      if i > 0 {
        assert DependsOn(jf, p[i - 1], p[i - 1 + 1]);
      }
      var n := DeclaredFlow(jf, p[i]);
      assert JobKey(jf, p[i]) == JobKey(jf, jf.flows[n].name);
    }
    SubsetSize(KeysOf(jf, p), FlowKeys(jf, |jf.flows|));
  }

  /** While some flow is above level k, some flow is of level k + 1 exactly. */
  lemma Frontier(jf: JobFlowValue, k: nat, q: seq<string>) returns (name: string)
    requires DistinctNames(jf) && Closed(jf) && Acyclic(jf)
    requires Chain(jf, q) && Declared(jf, q[0]) && Declared(jf, q[|q| - 1]) && !Level(jf, q[|q| - 1], k)
    ensures Declared(jf, name) && !Level(jf, name, k) && Level(jf, name, k + 1)
    decreases |jf.flows| + 1 - |q|
  {
    name := q[|q| - 1];
    ChainBound(jf, q);
    LevelStep(jf, name, k);
    if d :| DependsOn(jf, name, d) && !Level(jf, d, k) {
      var q' := q + [d];
      forall i | 0 <= i < |q'| - 1
        ensures DependsOn(jf, q'[i], q'[i + 1])
      {
        if i < |q| - 1 {
          assert DependsOn(jf, q[i], q[i + 1]);
        }
      }
      name := Frontier(jf, k, q');
    }
  }

  /** The flows still without a Job. */
  ghost function Missing(jf: JobFlowValue, jobs: Jobs): set<Key> {
    FlowKeys(jf, |jf.flows|) - jobs.Keys
  }

  /** Until all Jobs exist, every round creates at least one. */
  lemma RoundsMakeProgress(jf: JobFlowValue, templates: map<Key, SpecValue>, s: seq<Moment>, k: nat)
    requires Runnable(jf, templates) && Acyclic(jf) && Rounds(jf, templates, s) && k + 1 < |s|
    requires Missing(jf, s[k].jobs) != {}
    ensures Missing(jf, s[k + 1].jobs) < Missing(jf, s[k].jobs)
  {
    LevelByLevel(jf, templates, s, k);
    LevelByLevel(jf, templates, s, k + 1);
    var key :| key in Missing(jf, s[k].jobs);
    var n :| 0 <= n < |jf.flows| && key == JobKey(jf, jf.flows[n].name);
    PresentMeansFlow(jf, s[k].jobs, n);
    var name := Frontier(jf, k, [jf.flows[n].name]);
    var i := DeclaredFlow(jf, name);
    PresentMeansFlow(jf, s[k].jobs, i);
    PresentMeansFlow(jf, s[k + 1].jobs, i);
    assert JobKey(jf, name) in Missing(jf, s[k].jobs) && JobKey(jf, name) !in Missing(jf, s[k + 1].jobs);
    forall q | q in Missing(jf, s[k + 1].jobs)
      ensures q in Missing(jf, s[k].jobs)
    {
      var j :| 0 <= j < |jf.flows| && q == JobKey(jf, jf.flows[j].name);
      PresentMeansFlow(jf, s[k].jobs, j);
      PresentMeansFlow(jf, s[k + 1].jobs, j);
      LevelsRise(jf, jf.flows[j].name, k);
    }
  }

  /** An acyclic JobFlow of n flows reports success after n + 1 reconciles, and from then on. */
  lemma SucceedsInTime(jf: JobFlowValue, templates: map<Key, SpecValue>, s: seq<Moment>, k: nat)
    requires Runnable(jf, templates) && Acyclic(jf) && Rounds(jf, templates, s)
    requires |jf.flows| < k < |s|
    ensures s[k].status.state == SUCCEED && Missing(jf, s[k].jobs) == {}
  {
    LevelByLevel(jf, templates, s, k);
    forall name | Declared(jf, name)
      ensures Level(jf, name, k - 1) && Level(jf, name, k)
    {
      forall p | Chain(jf, p) && p[0] == name
        ensures |p| <= k - 1
      {
        ChainBound(jf, p);
      }
    }
    forall n | 0 <= n < |jf.flows|
      ensures JobKey(jf, jf.flows[n].name) in s[k].jobs
    {
      PresentMeansFlow(jf, s[k].jobs, n);
    }
  }
}

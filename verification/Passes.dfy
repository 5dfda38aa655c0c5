/**
 What one undisturbed deploy pass amounts to: it creates exactly the ready flows before
 the flow it stops at, whatever order flows and dependencies are written in, and a
 second pass creates nothing.
 */
module Passes {
  import opened Kube
  import opened JobFlows
  import opened Render
  import opened Machine
  import opened Deploy

  /** Every dependency has a Job that succeeded (and does not also count as failed). */
  ghost predicate Met(jf: JobFlowValue, dependencies: seq<string>, jobs: Jobs) {
    forall d :: d in dependencies ==> HasSucceeded(jobs, JobKey(jf, d)) && !HasFailed(jobs, JobKey(jf, d))
  }

  /** Flow i has no Job yet and nothing left to wait for. */
  ghost predicate Ready(jf: JobFlowValue, i: nat, jobs: Jobs)
    requires i < |jf.flows|
  {
    JobKey(jf, jf.flows[i].name) !in jobs && Met(jf, jf.flows[i].dependencies, jobs)
  }

  lemma {:induction false} ScanSatisfied(jf: JobFlowValue, dependencies: seq<string>, met: bool, jobs: Jobs)
    ensures Scan(jf, dependencies, met, jobs) == Satisfied <==> met && Met(jf, dependencies, jobs)
  {
    if dependencies != [] {
      var k := JobKey(jf, dependencies[0]);
      assert dependencies == [dependencies[0]] + dependencies[1..];
      ScanSatisfied(jf, dependencies[1..], met && HasSucceeded(jobs, k), jobs);
    }
  }

  /** Dependency j has failed, and every one before it has a Job. */
  ghost predicate Breaks(jf: JobFlowValue, dependencies: seq<string>, jobs: Jobs, j: int) {
    && 0 <= j < |dependencies| && HasFailed(jobs, JobKey(jf, dependencies[j]))
    && forall n :: 0 <= n < j ==> JobKey(jf, dependencies[n]) in jobs
  }

  lemma {:induction false} ScanBroken(jf: JobFlowValue, dependencies: seq<string>, met: bool, jobs: Jobs)
    ensures Scan(jf, dependencies, met, jobs).Broken? <==> exists j :: Breaks(jf, dependencies, jobs, j)
  {
    if dependencies != [] {
      var k, rest := JobKey(jf, dependencies[0]), dependencies[1..];
      ScanBroken(jf, rest, met && HasSucceeded(jobs, k), jobs);
      if k in jobs && !HasFailed(jobs, k) {
        if j :| Breaks(jf, rest, jobs, j) {
          assert forall n :: 0 < n < j + 1 ==> dependencies[n] == rest[n - 1];
          assert rest[j] == dependencies[j + 1];
          assert Breaks(jf, dependencies, jobs, j + 1);
        }
        if j :| Breaks(jf, dependencies, jobs, j) {
          assert Breaks(jf, rest, jobs, j - 1) by {
            assert forall n :: 0 <= n < j - 1 ==> rest[n] == dependencies[n + 1];
          }
        }
      } else if HasFailed(jobs, k) {
        assert Breaks(jf, dependencies, jobs, 0);
      }
    }
  }

  /** k is the Job of dependency j, which has failed; those before it have Jobs that have not. */
  ghost predicate FirstFailed(jf: JobFlowValue, dependencies: seq<string>, jobs: Jobs, j: int, k: Key) {
    && 0 <= j < |dependencies| && k == Key(jf.namespace, jf.name + "-" + dependencies[j]) && k in jobs && jobs[k].status.failed == 1
    && forall m :: 0 <= m < j ==>
         (var before := Key(jf.namespace, jf.name + "-" + dependencies[m]); before in jobs && jobs[before].status.failed != 1)
  }

  lemma {:induction false} ScanFirstFailed(jf: JobFlowValue, dependencies: seq<string>, met: bool, jobs: Jobs, k: Key)
    ensures Scan(jf, dependencies, met, jobs) == Broken(k) <==> exists j :: FirstFailed(jf, dependencies, jobs, j, k)
  {
    if dependencies != [] {
      var first, rest := JobKey(jf, dependencies[0]), dependencies[1..];
      ScanFirstFailed(jf, rest, met && HasSucceeded(jobs, first), jobs, k);
      if HasFailed(jobs, first) {
        assert FirstFailed(jf, dependencies, jobs, 0, first);
      } else if first in jobs {
        if j :| FirstFailed(jf, rest, jobs, j, k) {
          assert forall m :: 0 < m < j + 1 ==> dependencies[m] == rest[m - 1];
          assert rest[j] == dependencies[j + 1];
          assert FirstFailed(jf, dependencies, jobs, j + 1, k);
        }
        if j :| FirstFailed(jf, dependencies, jobs, j, k) {
          assert j > 0;
          assert FirstFailed(jf, rest, jobs, j - 1, k) by {
            assert forall m :: 0 <= m < j - 1 ==> rest[m] == dependencies[m + 1];
          }
        }
      }
    }
  }

  lemma ScanMeaning(jf: JobFlowValue, dependencies: seq<string>, met: bool, jobs: Jobs)
    ensures Scan(jf, dependencies, met, jobs) == Satisfied <==>
            met && forall d :: d in dependencies ==>
                     (var k := Key(jf.namespace, jf.name + "-" + d);
                      k in jobs && jobs[k].status.succeeded == 1 && jobs[k].status.failed != 1)
    ensures forall k :: Scan(jf, dependencies, met, jobs) == Broken(k) <==> exists j :: FirstFailed(jf, dependencies, jobs, j, k)
    ensures Scan(jf, dependencies, met, jobs) == Satisfied <==> met && Met(jf, dependencies, jobs)
    ensures Scan(jf, dependencies, met, jobs).Broken? <==> exists j :: Breaks(jf, dependencies, jobs, j)
  {
    ScanSatisfied(jf, dependencies, met, jobs);
    ScanBroken(jf, dependencies, met, jobs);
    forall k
      ensures Scan(jf, dependencies, met, jobs) == Broken(k) <==> exists j :: FirstFailed(jf, dependencies, jobs, j, k)
    {
      ScanFirstFailed(jf, dependencies, met, jobs, k);
    }
  }

  /** A Job just created has succeeded nowhere and failed nowhere, so it enables and stops nobody. */
  lemma CreatedIsNeutral(jf: JobFlowValue, n: nat, jobs: Jobs, k: Key, job: JobValue)
    requires n < |jf.flows| && k !in jobs && job.status == NO_STATUS
    ensures Met(jf, jf.flows[n].dependencies, jobs[k := job]) <==> Met(jf, jf.flows[n].dependencies, jobs)
    ensures JobKey(jf, jf.flows[n].name) != k ==> (Ready(jf, n, jobs[k := job]) <==> Ready(jf, n, jobs))
  {
    var after := jobs[k := job];
    assert forall q :: HasSucceeded(after, q) <==> HasSucceeded(jobs, q);
    assert forall q :: HasFailed(after, q) <==> HasFailed(jobs, q);
  }

  /** A pass from flow i on that creates the rendered Jobs of the ready flows before the one it stops at, and no others. */
  ghost predicate CreatesReady(jf: JobFlowValue, templates: map<Key, SpecValue>, i: nat, jobs: Jobs, pass: Pass) {
    && i <= pass.reached <= |jf.flows|
    && pass.created.Keys !! jobs.Keys
    && (forall n :: i <= n < pass.reached && Ready(jf, n, jobs) ==> CreatedFor(jf, templates, n, pass.created))
    && (forall k :: k in pass.created ==>
          pass.created[k].status == NO_STATUS && pass.created[k].key == k &&
          exists n :: i <= n < pass.reached && Ready(jf, n, jobs) && k == JobKey(jf, jf.flows[n].name))
  }

  ghost predicate CreatedFor(jf: JobFlowValue, templates: map<Key, SpecValue>, n: nat, created: Jobs)
    requires n < |jf.flows|
  {
    var base := BaseOf(jf, jf.flows[n], templates);
    && JobKey(jf, jf.flows[n].name) in created && base.Some?
    && created[JobKey(jf, jf.flows[n].name)] == RenderJob(jf, jf.flows[n], base.value)
  }

  lemma CreateFirst(jf: JobFlowValue, templates: map<Key, SpecValue>, i: nat, jobs: Jobs, k: Key, job: JobValue, rest: Pass)
    requires i < |jf.flows| && DistinctNames(jf) && Ready(jf, i, jobs)
    requires k == JobKey(jf, jf.flows[i].name) && job.key == k && job.status == NO_STATUS
    requires CreatedFor(jf, templates, i, map[k := job])
    requires CreatesReady(jf, templates, i + 1, jobs[k := job], rest)
    ensures CreatesReady(jf, templates, i, jobs, rest.(created := map[k := job] + rest.created))
  {
    hide RenderJob, Met, BaseOf;
    var created := map[k := job] + rest.created;
    forall n | i < n < |jf.flows|
      ensures Ready(jf, n, jobs[k := job]) <==> Ready(jf, n, jobs)
    {
      JobKeyInjective(jf, jf.flows[i].name, jf.flows[n].name);
      CreatedIsNeutral(jf, n, jobs, k, job);
    }
    forall n | i <= n < rest.reached && Ready(jf, n, jobs)
      ensures CreatedFor(jf, templates, n, created)
    {
      if n > i {
        assert CreatedFor(jf, templates, n, rest.created);
      }
    }
    forall q | q in created
      ensures created[q].status == NO_STATUS && created[q].key == q
      ensures exists n :: i <= n < rest.reached && Ready(jf, n, jobs) && q == JobKey(jf, jf.flows[n].name)
    {
      if q in rest.created {
        var n :| i + 1 <= n < rest.reached && Ready(jf, n, jobs[k := job]) && q == JobKey(jf, jf.flows[n].name);
        assert Ready(jf, n, jobs);
      }
    }
  }

  lemma CreateNone(jf: JobFlowValue, templates: map<Key, SpecValue>, i: nat, jobs: Jobs, pass: Pass)
    requires i < |jf.flows|
    requires (pass.reached == i && pass.created == map[]) ||
             (!Ready(jf, i, jobs) && CreatesReady(jf, templates, i + 1, jobs, pass))
    ensures CreatesReady(jf, templates, i, jobs, pass)
  {
  }

  lemma {:induction false} PassCreatesReady(jf: JobFlowValue, templates: map<Key, SpecValue>, i: nat, jobs: Jobs)
    requires i <= |jf.flows| && DistinctNames(jf)
    ensures CreatesReady(jf, templates, i, jobs, DeployFrom(jf, templates, i, jobs))
    decreases |jf.flows| - i
  {
    var pass := DeployFrom(jf, templates, i, jobs);
    if i < |jf.flows| {
      var flow, k := jf.flows[i], JobKey(jf, jf.flows[i].name);
      ScanMeaning(jf, flow.dependencies, true, jobs);
      var base := BaseOf(jf, flow, templates);
      hide CreatesReady, Met;
      if base.Some? && (k in jobs || Scan(jf, flow.dependencies, true, jobs) == Blocked) {
        PassCreatesReady(jf, templates, i + 1, jobs);
        CreateNone(jf, templates, i, jobs, pass);
      } else if base.Some? && Scan(jf, flow.dependencies, true, jobs) == Satisfied {
        var job := RenderJob(jf, flow, base.value);
        PassCreatesReady(jf, templates, i + 1, jobs[k := job]);
        CreateFirst(jf, templates, i, jobs, k, job, DeployFrom(jf, templates, i + 1, jobs[k := job]));
      } else {
        CreateNone(jf, templates, i, jobs, pass);
      }
    }
  }

  /** Of these Jobs, those of flows from i up to m. */
  ghost function MadeBetween(jf: JobFlowValue, created: Jobs, i: nat, m: nat): Jobs
    requires i <= m <= |jf.flows|
  {
    map k | k in created && k in FlowKeysBetween(jf, i, m) :: created[k]
  }

  ghost function FlowKeysBetween(jf: JobFlowValue, i: nat, m: nat): set<Key>
    requires i <= m <= |jf.flows|
  {
    set n | i <= n < m :: JobKey(jf, jf.flows[n].name)
  }

  /** The pass from flow i on over these Jobs ends at its last flow, or at one whose template is missing or
      which has no Job and a failed dependency. */
  ghost predicate Ends(jf: JobFlowValue, templates: map<Key, SpecValue>, i: nat, jobs: Jobs, pass: Pass) {
    && i <= pass.reached <= |jf.flows|
    && (pass.outcome == Deployed <==> pass.reached == |jf.flows|)
    && (pass.reached < |jf.flows| ==> StopsAt(jf, templates, pass.reached, jobs + pass.created, pass.outcome))
  }

  /** It ends at the first such flow, as things stand when the pass gets there. */
  ghost predicate StopsRight(jf: JobFlowValue, templates: map<Key, SpecValue>, i: nat, jobs: Jobs, pass: Pass) {
    && Ends(jf, templates, i, jobs, pass)
    && (forall m :: i <= m < pass.reached ==> PassesBy(jf, templates, i, jobs, pass, m))
  }

  /** The pass from flow i on does not stop at flow m. */
  ghost predicate PassesBy(jf: JobFlowValue, templates: map<Key, SpecValue>, i: nat, jobs: Jobs, pass: Pass, m: nat)
    requires i <= m < |jf.flows|
  {
    forall outcome :: !StopsAt(jf, templates, m, jobs + MadeBetween(jf, pass.created, i, m), outcome)
  }

  lemma MadeAfter(jf: JobFlowValue, i: nat, jobs: Jobs, k: Key, job: JobValue, rest: Jobs, m: nat)
    requires i < m <= |jf.flows| && k == JobKey(jf, jf.flows[i].name) && k !in rest
    ensures jobs + MadeBetween(jf, map[k := job] + rest, i, m) == jobs[k := job] + MadeBetween(jf, rest, i + 1, m)
  {
    assert FlowKeysBetween(jf, i, m) == {k} + FlowKeysBetween(jf, i + 1, m);
    hide FlowKeysBetween;
  }

  lemma MadeSince(jf: JobFlowValue, i: nat, jobs: Jobs, created: Jobs, m: nat)
    requires i < m <= |jf.flows| && JobKey(jf, jf.flows[i].name) !in created
    ensures MadeBetween(jf, created, i, m) == MadeBetween(jf, created, i + 1, m)
  {
    assert FlowKeysBetween(jf, i, m) == {JobKey(jf, jf.flows[i].name)} + FlowKeysBetween(jf, i + 1, m);
  }

  lemma MadeNone(jf: JobFlowValue, i: nat, jobs: Jobs, created: Jobs)
    requires i <= |jf.flows|
    ensures jobs + MadeBetween(jf, created, i, i) == jobs
  {
    assert MadeBetween(jf, created, i, i) == map[];
  }

  lemma StopsRightCreate(jf: JobFlowValue, templates: map<Key, SpecValue>, i: nat, jobs: Jobs, k: Key, job: JobValue, rest: Pass)
    requires i < |jf.flows| && k == JobKey(jf, jf.flows[i].name) && k !in jobs && k !in rest.created
    requires StopsRight(jf, templates, i + 1, jobs[k := job], rest)
    requires forall outcome :: !StopsAt(jf, templates, i, jobs, outcome)
    ensures StopsRight(jf, templates, i, jobs, rest.(created := map[k := job] + rest.created))
  {
    hide StopsAt, MadeBetween;
    var pass := rest.(created := map[k := job] + rest.created);
    assert jobs[k := job] + rest.created == jobs + pass.created;
    forall m | i <= m < rest.reached
      ensures PassesBy(jf, templates, i, jobs, pass, m)
    {
      if m == i {
        MadeNone(jf, i, jobs, pass.created);
      } else {
        MadeAfter(jf, i, jobs, k, job, rest.created, m);
        assert PassesBy(jf, templates, i + 1, jobs[k := job], rest, m);
      }
    }
  }

  lemma StopsRightSkip(jf: JobFlowValue, templates: map<Key, SpecValue>, i: nat, jobs: Jobs, pass: Pass)
    requires i < |jf.flows| && JobKey(jf, jf.flows[i].name) !in pass.created
    requires StopsRight(jf, templates, i + 1, jobs, pass)
    requires forall outcome :: !StopsAt(jf, templates, i, jobs, outcome)
    ensures StopsRight(jf, templates, i, jobs, pass)
  {
    hide StopsAt, MadeBetween;
    forall m | i <= m < pass.reached
      ensures PassesBy(jf, templates, i, jobs, pass, m)
    {
      if m == i {
        MadeNone(jf, i, jobs, pass.created);
      } else {
        MadeSince(jf, i, jobs, pass.created, m);
        assert PassesBy(jf, templates, i + 1, jobs, pass, m);
      }
    }
  }

  /** No flow before i shares a Job name with flow i or a later one, so it is not among what they create. */
  lemma NotLater(jf: JobFlowValue, templates: map<Key, SpecValue>, i: nat, jobs: Jobs, pass: Pass)
    requires i < |jf.flows| && DistinctNames(jf) && CreatesReady(jf, templates, i + 1, jobs, pass)
    ensures JobKey(jf, jf.flows[i].name) !in pass.created
  {
    hide Ready, CreatedFor;
    var k := JobKey(jf, jf.flows[i].name);
    if k in pass.created {
      var n :| i + 1 <= n < pass.reached && Ready(jf, n, jobs) && k == JobKey(jf, jf.flows[n].name);
      JobKeyInjective(jf, jf.flows[i].name, jf.flows[n].name);
    }
  }

  lemma EndsCreate(jf: JobFlowValue, templates: map<Key, SpecValue>, i: nat, jobs: Jobs, k: Key, job: JobValue, rest: Pass)
    requires i < |jf.flows| && Ends(jf, templates, i + 1, jobs[k := job], rest)
    ensures Ends(jf, templates, i, jobs, rest.(created := map[k := job] + rest.created))
  {
    hide StopsAt;
    assert jobs[k := job] + rest.created == jobs + (map[k := job] + rest.created);
  }

  lemma {:induction false} PassEnds(jf: JobFlowValue, templates: map<Key, SpecValue>, i: nat, jobs: Jobs)
    requires i <= |jf.flows|
    ensures Ends(jf, templates, i, jobs, DeployFrom(jf, templates, i, jobs))
    decreases |jf.flows| - i
  {
    assert jobs + map[] == jobs;
    if i < |jf.flows| {
      var flow, k := jf.flows[i], JobKey(jf, jf.flows[i].name);
      var base := BaseOf(jf, flow, templates);
      var verdict := Scan(jf, flow.dependencies, true, jobs);
      hide RenderJob, Scan, BaseOf, JobKey;
      if base.Some? && (k in jobs || verdict == Blocked) {
        PassEnds(jf, templates, i + 1, jobs);
      } else if base.Some? && verdict == Satisfied {
        var job := RenderJob(jf, flow, base.value);
        PassEnds(jf, templates, i + 1, jobs[k := job]);
        hide Ends;
        EndsCreate(jf, templates, i, jobs, k, job, DeployFrom(jf, templates, i + 1, jobs[k := job]));
      }
    }
  }

  lemma GoesPast(jf: JobFlowValue, templates: map<Key, SpecValue>, i: nat, jobs: Jobs)
    requires i < |jf.flows|
    ensures BaseOf(jf, jf.flows[i], templates).Some? &&
            (JobKey(jf, jf.flows[i].name) in jobs || !Scan(jf, jf.flows[i].dependencies, true, jobs).Broken?) ==>
              forall outcome :: !StopsAt(jf, templates, i, jobs, outcome)
  {
  }

  /** With distinct flow names the pass ends at the first flow it has to stop at. */
  lemma {:induction false} PassStopsFirst(jf: JobFlowValue, templates: map<Key, SpecValue>, i: nat, jobs: Jobs)
    requires i <= |jf.flows| && DistinctNames(jf)
    ensures StopsRight(jf, templates, i, jobs, DeployFrom(jf, templates, i, jobs))
    decreases |jf.flows| - i
  {
    PassEnds(jf, templates, i, jobs);
    if i < |jf.flows| {
      var flow, k := jf.flows[i], JobKey(jf, jf.flows[i].name);
      var base := BaseOf(jf, flow, templates);
      var verdict := Scan(jf, flow.dependencies, true, jobs);
      var pass := DeployFrom(jf, templates, i, jobs);
      GoesPast(jf, templates, i, jobs);
      hide RenderJob, Scan, BaseOf, JobKey, StopsRight, Ends, CreatesReady, StopsAt;
      if base.Some? && (k in jobs || verdict == Blocked) {
        PassStopsFirst(jf, templates, i + 1, jobs);
        PassCreatesReady(jf, templates, i + 1, jobs);
        NotLater(jf, templates, i, jobs, pass);
        StopsRightSkip(jf, templates, i, jobs, pass);
      } else if base.Some? && verdict == Satisfied {
        var job := RenderJob(jf, flow, base.value);
        var rest := DeployFrom(jf, templates, i + 1, jobs[k := job]);
        PassStopsFirst(jf, templates, i + 1, jobs[k := job]);
        PassCreatesReady(jf, templates, i + 1, jobs[k := job]);
        NotLater(jf, templates, i, jobs[k := job], rest);
        StopsRightCreate(jf, templates, i, jobs, k, job, rest);
      } else {
        StopsHere(jf, templates, i, jobs, pass);
      }
    }
  }

  lemma StopsHere(jf: JobFlowValue, templates: map<Key, SpecValue>, i: nat, jobs: Jobs, pass: Pass)
    requires pass.reached == i && Ends(jf, templates, i, jobs, pass)
    ensures StopsRight(jf, templates, i, jobs, pass)
  {
  }

  /** A pass ends at its last flow, or where a template is missing or a dependency failed: with distinct flow
      names, at the first such flow. */
  lemma PassStops(jf: JobFlowValue, templates: map<Key, SpecValue>, i: nat, jobs: Jobs)
    requires i <= |jf.flows|
    ensures Ends(jf, templates, i, jobs, DeployFrom(jf, templates, i, jobs))
    ensures DistinctNames(jf) ==> StopsRight(jf, templates, i, jobs, DeployFrom(jf, templates, i, jobs))
  {
    PassEnds(jf, templates, i, jobs);
    if DistinctNames(jf) {
      PassStopsFirst(jf, templates, i, jobs);
    }
  }

  lemma MadeIsAll(jf: JobFlowValue, templates: map<Key, SpecValue>, jobs: Jobs, pass: Pass)
    requires CreatesReady(jf, templates, 0, jobs, pass)
    ensures MadeBetween(jf, pass.created, 0, pass.reached) == pass.created
  {
    hide Ready, CreatedFor;
    assert forall k :: k in pass.created ==> k in FlowKeysBetween(jf, 0, pass.reached);
  }

  /** Two passes that both create the ready flows have made the same up to any flow both reach. */
  lemma MadeSame(jf: JobFlowValue, templates: map<Key, SpecValue>, jobs: Jobs, p: Pass, q: Pass, m: nat)
    requires DistinctNames(jf) && m <= p.reached && m <= q.reached
    requires CreatesReady(jf, templates, 0, jobs, p) && CreatesReady(jf, templates, 0, jobs, q)
    ensures MadeBetween(jf, p.created, 0, m) == MadeBetween(jf, q.created, 0, m)
  {
    hide Ready;
    forall k | k in FlowKeysBetween(jf, 0, m)
      ensures k in p.created <==> k in q.created
      ensures k in p.created ==> p.created[k] == q.created[k]
    {
      var n :| 0 <= n < m && k == JobKey(jf, jf.flows[n].name);
      MadeWhenReady(jf, templates, jobs, p, n);
      MadeWhenReady(jf, templates, jobs, q, n);
    }
  }

  lemma MadeWhenReady(jf: JobFlowValue, templates: map<Key, SpecValue>, jobs: Jobs, pass: Pass, n: nat)
    requires DistinctNames(jf) && CreatesReady(jf, templates, 0, jobs, pass) && n < pass.reached
    ensures JobKey(jf, jf.flows[n].name) in pass.created <==> Ready(jf, n, jobs)
    ensures Ready(jf, n, jobs) ==> CreatedFor(jf, templates, n, pass.created)
  {
    hide Ready, CreatedFor;
    var k := JobKey(jf, jf.flows[n].name);
    if Ready(jf, n, jobs) {
      assert CreatedFor(jf, templates, n, pass.created);
      CreatedForIn(jf, templates, n, pass.created);
    }
    if k in pass.created {
      var m :| 0 <= m < pass.reached && Ready(jf, m, jobs) && k == JobKey(jf, jf.flows[m].name);
      JobKeyInjective(jf, jf.flows[m].name, jf.flows[n].name);
    }
  }

  lemma CreatedForIn(jf: JobFlowValue, templates: map<Key, SpecValue>, n: nat, created: Jobs)
    requires n < |jf.flows| && CreatedFor(jf, templates, n, created)
    ensures JobKey(jf, jf.flows[n].name) in created
  {
  }

  lemma StoppedMeans(jf: JobFlowValue, templates: map<Key, SpecValue>, jobs: Jobs, pass: Pass, m: nat, outcome: Outcome)
    requires m < |jf.flows| && StopsAt(jf, templates, m, jobs + MadeBetween(jf, pass.created, 0, m), outcome)
    ensures !PassesBy(jf, templates, 0, jobs, pass, m)
  {
  }

  lemma NotBefore(jf: JobFlowValue, templates: map<Key, SpecValue>, jobs: Jobs, p: Pass, q: Pass)
    requires DistinctNames(jf)
    requires CreatesReady(jf, templates, 0, jobs, p) && StopsRight(jf, templates, 0, jobs, p)
    requires CreatesReady(jf, templates, 0, jobs, q) && StopsRight(jf, templates, 0, jobs, q)
    ensures p.reached >= q.reached
  {
    hide StopsAt, CreatesReady, MadeBetween, PassesBy;
    if p.reached < q.reached {
      MadeIsAll(jf, templates, jobs, p);
      MadeSame(jf, templates, jobs, p, q, p.reached);
      StoppedMeans(jf, templates, jobs, q, p.reached, p.outcome);
    }
  }

  lemma StopsOnce(jf: JobFlowValue, templates: map<Key, SpecValue>, m: nat, now: Jobs, a: Outcome, b: Outcome)
    requires m < |jf.flows| && StopsAt(jf, templates, m, now, a) && StopsAt(jf, templates, m, now, b)
    ensures a == b
  {
  }

  lemma PassUnique(jf: JobFlowValue, templates: map<Key, SpecValue>, jobs: Jobs, p: Pass, q: Pass)
    requires DistinctNames(jf)
    requires CreatesReady(jf, templates, 0, jobs, p) && StopsRight(jf, templates, 0, jobs, p)
    requires CreatesReady(jf, templates, 0, jobs, q) && StopsRight(jf, templates, 0, jobs, q)
    ensures p == q
  {
    hide StopsAt, CreatesReady, MadeBetween, PassesBy, DistinctNames;
    NotBefore(jf, templates, jobs, p, q);
    NotBefore(jf, templates, jobs, q, p);
    MadeIsAll(jf, templates, jobs, p);
    MadeIsAll(jf, templates, jobs, q);
    MadeSame(jf, templates, jobs, p, q, p.reached);
    if p.reached < |jf.flows| {
      StopsOnce(jf, templates, p.reached, jobs + p.created, p.outcome, q.outcome);
    }
  }

  /** These two properties are all there is to a pass: it creates the ready flows before the first flow it has to stop at. */
  lemma PassExactly(jf: JobFlowValue, templates: map<Key, SpecValue>, jobs: Jobs, pass: Pass)
    requires DistinctNames(jf)
    ensures pass == DeployPass(jf, templates, jobs) <==>
            CreatesReady(jf, templates, 0, jobs, pass) && StopsRight(jf, templates, 0, jobs, pass)
  {
    var deployed := DeployPass(jf, templates, jobs);
    PassCreatesReady(jf, templates, 0, jobs);
    PassStops(jf, templates, 0, jobs);
    hide *;
    if CreatesReady(jf, templates, 0, jobs, pass) && StopsRight(jf, templates, 0, jobs, pass) {
      PassUnique(jf, templates, jobs, pass, deployed);
    }
  }

  /** The pass would stop at flow m: its template is missing, or it has no Job and some dependency that the
      scan gets to has failed. */
  ghost predicate Halts(jf: JobFlowValue, templates: map<Key, SpecValue>, jobs: Jobs, m: int)
    requires 0 <= m < |jf.flows|
  {
    || BaseOf(jf, jf.flows[m], templates).None?
    || (JobKey(jf, jf.flows[m].name) !in jobs && exists j :: Breaks(jf, jf.flows[m].dependencies, jobs, j))
  }

  /** Flow n is ready, its template is there, and no flow before it halts the pass. */
  ghost predicate Startable(jf: JobFlowValue, templates: map<Key, SpecValue>, jobs: Jobs, n: int) {
    && 0 <= n < |jf.flows| && Ready(jf, n, jobs) && BaseOf(jf, jf.flows[n], templates).Some?
    && forall m :: 0 <= m < n ==> !Halts(jf, templates, jobs, m)
  }

  ghost predicate SomeStartable(jf: JobFlowValue, templates: map<Key, SpecValue>, jobs: Jobs) {
    exists n :: Startable(jf, templates, jobs, n)
  }

  lemma {:induction false} CreatesFrom(jf: JobFlowValue, templates: map<Key, SpecValue>, i: nat, jobs: Jobs)
    requires i <= |jf.flows|
    requires forall m :: 0 <= m < i ==> !Ready(jf, m, jobs) && !Halts(jf, templates, jobs, m)
    ensures DeployFrom(jf, templates, i, jobs).created != map[] <==> SomeStartable(jf, templates, jobs)
    decreases |jf.flows| - i
  {
    if i < |jf.flows| {
      var flow, k := jf.flows[i], JobKey(jf, jf.flows[i].name);
      ScanMeaning(jf, flow.dependencies, true, jobs);
      var base, verdict := BaseOf(jf, flow, templates), Scan(jf, flow.dependencies, true, jobs);
      hide Breaks, Met, RenderJob, Scan, BaseOf;
      if base.Some? && (k in jobs || verdict == Blocked) {
        assert !Ready(jf, i, jobs) && !Halts(jf, templates, jobs, i);
        CreatesFrom(jf, templates, i + 1, jobs);
      } else if base.Some? && verdict == Satisfied {
        assert Startable(jf, templates, jobs, i);
        assert k in DeployFrom(jf, templates, i, jobs).created;
      } else {
        assert Halts(jf, templates, jobs, i);
        assert !(base.Some? && Ready(jf, i, jobs));
      }
    }
  }

  /** A pass creates some Job exactly when some flow is startable. */
  lemma CreatesExactly(jf: JobFlowValue, templates: map<Key, SpecValue>, jobs: Jobs)
    ensures DeployPass(jf, templates, jobs).created != map[] <==> SomeStartable(jf, templates, jobs)
  {
    CreatesFrom(jf, templates, 0, jobs);
  }

  ghost predicate TemplatesPresent(jf: JobFlowValue, templates: map<Key, SpecValue>) {
    forall n :: 0 <= n < |jf.flows| ==> BaseOf(jf, jf.flows[n], templates).Some?
  }

  ghost predicate NoFailedDependency(jf: JobFlowValue, jobs: Jobs) {
    forall n, d :: 0 <= n < |jf.flows| && d in jf.flows[n].dependencies ==> !HasFailed(jobs, JobKey(jf, d))
  }

  ghost function ReadyKeys(jf: JobFlowValue, jobs: Jobs): set<Key> {
    set n | 0 <= n < |jf.flows| && Ready(jf, n, jobs) :: JobKey(jf, jf.flows[n].name)
  }

  /** Without failures or missing templates the pass reaches the end. */
  lemma ReachesEnd(jf: JobFlowValue, templates: map<Key, SpecValue>, jobs: Jobs)
    requires DistinctNames(jf) && TemplatesPresent(jf, templates) && NoFailedDependency(jf, jobs)
    ensures DeployPass(jf, templates, jobs).reached == |jf.flows| && DeployPass(jf, templates, jobs).outcome == Deployed
  {
    var pass := DeployPass(jf, templates, jobs);
    PassCreatesReady(jf, templates, 0, jobs);
    PassEnds(jf, templates, 0, jobs);
    hide DeployFrom, RenderJob, DistinctNames, Ready, CreatedFor;
    assert forall k :: HasFailed(jobs + pass.created, k) ==> HasFailed(jobs, k);
    if pass.reached < |jf.flows| {
      ScanMeaning(jf, jf.flows[pass.reached].dependencies, true, jobs + pass.created);
    }
  }

  /** Without failures or missing templates the pass reaches the end and creates exactly the ready flows. */
  lemma PassIsReadySet(jf: JobFlowValue, templates: map<Key, SpecValue>, jobs: Jobs)
    requires DistinctNames(jf) && TemplatesPresent(jf, templates) && NoFailedDependency(jf, jobs)
    ensures DeployPass(jf, templates, jobs).outcome == Deployed
    ensures DeployPass(jf, templates, jobs).created.Keys == ReadyKeys(jf, jobs)
    ensures forall n :: 0 <= n < |jf.flows| && Ready(jf, n, jobs) ==>
              CreatedFor(jf, templates, n, DeployPass(jf, templates, jobs).created)
  {
    var pass := DeployPass(jf, templates, jobs);
    PassCreatesReady(jf, templates, 0, jobs);
    ReachesEnd(jf, templates, jobs);
    hide DeployPass, DeployFrom, RenderJob, DistinctNames, Ready, BaseOf;
    assert forall n :: 0 <= n < |jf.flows| && Ready(jf, n, jobs) ==> CreatedFor(jf, templates, n, pass.created);
  }

  /** The same step, with its dependencies written in another order. */
  ghost predicate SameFlow(f: FlowValue, g: FlowValue) {
    f.(dependencies := g.dependencies) == g && forall d :: d in f.dependencies <==> d in g.dependencies
  }

  ghost predicate EachFlowIn(a: JobFlowValue, b: JobFlowValue) {
    forall i :: 0 <= i < |a.flows| ==> exists j :: 0 <= j < |b.flows| && SameFlow(a.flows[i], b.flows[j])
  }

  /** The same JobFlow with flows and dependencies written in another order. */
  ghost predicate Reordered(a: JobFlowValue, b: JobFlowValue) {
    a.(flows := b.flows) == b && EachFlowIn(a, b) && EachFlowIn(b, a)
  }

  lemma ReorderedFlow(a: JobFlowValue, i: nat, b: JobFlowValue, j: nat, templates: map<Key, SpecValue>, jobs: Jobs)
    requires i < |a.flows| && j < |b.flows| && SameFlow(a.flows[i], b.flows[j])
    requires a.(flows := b.flows) == b
    ensures Ready(a, i, jobs) <==> Ready(b, j, jobs)
    ensures BaseOf(a, a.flows[i], templates) == BaseOf(b, b.flows[j], templates)
    ensures JobKey(a, a.flows[i].name) == JobKey(b, b.flows[j].name)
    ensures forall base :: RenderJob(a, a.flows[i], base) == RenderJob(b, b.flows[j], base)
  {
    assert forall d :: JobKey(a, d) == JobKey(b, d);
    forall base: SpecValue
      ensures RenderJob(a, a.flows[i], base) == RenderJob(b, b.flows[j], base)
    {
      RenderDependsOn(a, a.flows[i], b, b.flows[j], base);
    }
  }

  lemma ReorderedCreates(a: JobFlowValue, b: JobFlowValue, templates: map<Key, SpecValue>, jobs: Jobs, p: Jobs, q: Jobs, i: nat)
    requires a.(flows := b.flows) == b && EachFlowIn(a, b)
    requires i < |a.flows| && Ready(a, i, jobs) && CreatedFor(a, templates, i, p)
    requires forall n :: 0 <= n < |b.flows| && Ready(b, n, jobs) ==> CreatedFor(b, templates, n, q)
    ensures var k := JobKey(a, a.flows[i].name); k in p && k in q && q[k] == p[k]
  {
    hide Ready, RenderJob, BaseOf, CreatedFor;
    var f := a.flows[i];
    var j :| 0 <= j < |b.flows| && SameFlow(f, b.flows[j]);
    ReorderedFlow(a, i, b, j, templates, jobs);
    CreatedSame(a, i, b, j, templates, p, q);
  }

  lemma CreatedSame(a: JobFlowValue, i: nat, b: JobFlowValue, j: nat, templates: map<Key, SpecValue>, p: Jobs, q: Jobs)
    requires i < |a.flows| && j < |b.flows|
    requires CreatedFor(a, templates, i, p) && CreatedFor(b, templates, j, q)
    requires BaseOf(a, a.flows[i], templates) == BaseOf(b, b.flows[j], templates)
    requires JobKey(a, a.flows[i].name) == JobKey(b, b.flows[j].name)
    requires forall base :: RenderJob(a, a.flows[i], base) == RenderJob(b, b.flows[j], base)
    ensures var k := JobKey(a, a.flows[i].name); k in p && k in q && q[k] == p[k]
  {
  }

  lemma FlowKeeps(a: JobFlowValue, i: nat, b: JobFlowValue, j: nat, jobs: Jobs)
    requires i < |a.flows| && j < |b.flows| && SameFlow(b.flows[j], a.flows[i])
    requires a.(flows := b.flows) == b && NoFailedDependency(a, jobs)
    ensures forall d :: d in b.flows[j].dependencies ==> !HasFailed(jobs, JobKey(b, d))
  {
    assert forall d :: JobKey(b, d) == JobKey(a, d);
  }

  lemma Counterpart(b: JobFlowValue, n: nat, a: JobFlowValue) returns (i: nat)
    requires EachFlowIn(b, a) && n < |b.flows|
    ensures i < |a.flows| && SameFlow(b.flows[n], a.flows[i])
  {
    hide SameFlow;
    var f := b.flows[n];
    i :| 0 <= i < |a.flows| && SameFlow(f, a.flows[i]);
  }

  lemma SameFlowSymmetric(f: FlowValue, g: FlowValue)
    requires SameFlow(f, g)
    ensures SameFlow(g, f)
  {
  }

  lemma ReorderedKeeps(a: JobFlowValue, b: JobFlowValue, templates: map<Key, SpecValue>, jobs: Jobs)
    requires TemplatesPresent(a, templates) && NoFailedDependency(a, jobs) && Reordered(a, b)
    ensures TemplatesPresent(b, templates) && NoFailedDependency(b, jobs)
  {
    ReorderedParts(a, b);
    hide NoFailedDependency, BaseOf, RenderJob, Ready, EachFlowIn, SameFlow, Reordered;
    forall n | 0 <= n < |b.flows|
      ensures BaseOf(b, b.flows[n], templates).Some?
      ensures forall d :: d in b.flows[n].dependencies ==> !HasFailed(jobs, JobKey(b, d))
    {
      var i := Counterpart(b, n, a);
      FlowKeeps(a, i, b, n, jobs);
      SameFlowSymmetric(b.flows[n], a.flows[i]);
      ReorderedFlow(a, i, b, n, templates, jobs);
    }
    KeepsAll(b, jobs);
  }

  lemma KeepsAll(b: JobFlowValue, jobs: Jobs)
    requires forall n :: 0 <= n < |b.flows| ==> forall d :: d in b.flows[n].dependencies ==> !HasFailed(jobs, JobKey(b, d))
    ensures NoFailedDependency(b, jobs)
  {
  }

  lemma PickReady(jf: JobFlowValue, jobs: Jobs, k: Key) returns (n: nat)
    requires k in ReadyKeys(jf, jobs)
    ensures n < |jf.flows| && Ready(jf, n, jobs) && k == JobKey(jf, jf.flows[n].name)
  {
    n :| 0 <= n < |jf.flows| && Ready(jf, n, jobs) && k == JobKey(jf, jf.flows[n].name);
  }

  lemma ReorderedIncludes(a: JobFlowValue, b: JobFlowValue, templates: map<Key, SpecValue>, jobs: Jobs, p: Jobs, q: Jobs)
    requires a.(flows := b.flows) == b && EachFlowIn(a, b)
    requires p.Keys == ReadyKeys(a, jobs)
    requires forall n :: 0 <= n < |a.flows| && Ready(a, n, jobs) ==> CreatedFor(a, templates, n, p)
    requires forall n :: 0 <= n < |b.flows| && Ready(b, n, jobs) ==> CreatedFor(b, templates, n, q)
    ensures forall k :: k in p ==> k in q && q[k] == p[k]
  {
    hide *;
    forall k | k in p
      ensures k in q && q[k] == p[k]
    {
      var i := PickReady(a, jobs, k);
      ReorderedCreates(a, b, templates, jobs, p, q, i);
    }
  }

  lemma ReorderedParts(a: JobFlowValue, b: JobFlowValue)
    requires Reordered(a, b)
    ensures a.(flows := b.flows) == b && b.(flows := a.flows) == a && EachFlowIn(a, b) && EachFlowIn(b, a)
  {
  }

  /** The order in which flows and dependencies are written does not change what a pass creates. */
  lemma OrderIsIrrelevant(a: JobFlowValue, b: JobFlowValue, templates: map<Key, SpecValue>, jobs: Jobs)
    requires DistinctNames(a) && TemplatesPresent(a, templates) && NoFailedDependency(a, jobs)
    requires DistinctNames(b) && Reordered(a, b)
    ensures DeployPass(b, templates, jobs).outcome == DeployPass(a, templates, jobs).outcome == Deployed
    ensures DeployPass(b, templates, jobs).created == DeployPass(a, templates, jobs).created
  {
    hide *;
    ReorderedParts(a, b);
    ReorderedKeeps(a, b, templates, jobs);
    var p, q := DeployPass(a, templates, jobs).created, DeployPass(b, templates, jobs).created;
    PassIsReadySet(a, templates, jobs);
    PassIsReadySet(b, templates, jobs);
    ReorderedIncludes(a, b, templates, jobs, p, q);
    ReorderedIncludes(b, a, templates, jobs, q, p);
  }

  /** Nothing is ready before the flow the pass stops at, so nothing is created. */
  lemma {:induction false} IdlePass(jf: JobFlowValue, templates: map<Key, SpecValue>, i: nat, stop: nat, jobs: Jobs, outcome: Outcome)
    requires i <= stop <= |jf.flows|
    requires forall n :: i <= n < stop ==> !Ready(jf, n, jobs)
    requires stop < |jf.flows| ==> StopsAt(jf, templates, stop, jobs, outcome)
    ensures DeployFrom(jf, templates, i, jobs).created == map[]
    decreases stop - i
  {
    if i < stop {
      ScanMeaning(jf, jf.flows[i].dependencies, true, jobs);
      assert !Ready(jf, i, jobs);
      IdlePass(jf, templates, i + 1, stop, jobs, outcome);
    }
  }

  /** A second pass creates nothing, even when the first one stopped at a failed dependency
      (the second may then stop at an earlier flow). */
  lemma SecondPassIsIdle(jf: JobFlowValue, templates: map<Key, SpecValue>, jobs: Jobs)
    requires DistinctNames(jf)
    ensures DeployPass(jf, templates, jobs + DeployPass(jf, templates, jobs).created).created == map[]
  {
    var pass := DeployPass(jf, templates, jobs);
    var after := jobs + pass.created;
    PassCreatesReady(jf, templates, 0, jobs);
    PassEnds(jf, templates, 0, jobs);
    forall n | 0 <= n < pass.reached
      ensures !Ready(jf, n, after)
    {
      if Ready(jf, n, jobs) {
        assert CreatedFor(jf, templates, n, pass.created);
      } else if JobKey(jf, jf.flows[n].name) !in jobs {
        assert forall k :: HasSucceeded(after, k) ==> HasSucceeded(jobs, k);
        assert forall k :: HasFailed(jobs, k) ==> HasFailed(after, k);
      }
    }
    IdlePass(jf, templates, 0, pass.reached, after, pass.outcome);
  }
}

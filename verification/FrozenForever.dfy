/**
 Exactly when a JobFlow's Jobs are complete for good: whatever happens from now on, Jobs
 progressing and reads lagging behind included, no further Job of it is ever created.
 */
module FrozenForever {
  import opened Kube
  import opened JobFlows
  import opened Deploy
  import opened Passes
  import opened StatusMeaning
  import opened Reconciling
  import opened Runs
  import opened RunSafety
  import opened Lagging
  import opened Freezing

  const FINISHED := JobStatus(0, 1, 0)

  /** The Jobs as they are when every Job of the JobFlow that is not finished yet has succeeded. */
  ghost function AtBest(spec: JobFlowValue, jobs: Jobs): Jobs {
    map k | k in jobs :: jobs[k].(status := BestStatus(spec, k, jobs[k].status))
  }

  ghost function BestStatus(spec: JobFlowValue, k: Key, status: JobStatus): JobStatus {
    if MentionedKey(spec, k) && PhaseOf(status) != Succeeded && PhaseOf(status) != Failed then FINISHED else status
  }

  /** Any continuation of w in which no Job is deleted. */
  ghost predicate Future(spec: JobFlowValue, w: World, ws: seq<World>) {
    && |ws| > 0 && ws[0] == w && (forall i :: 0 <= i < |ws| ==> Bounds(ws[i]))
    && forall i :: 0 <= i < |ws| - 1 ==> Step(spec, false, ws[i], ws[i + 1])
  }

  // ---- only then ----

  /** The same Jobs of the JobFlow, each as it was or further on. */
  ghost predicate Onward(spec: JobFlowValue, before: Jobs, after: Jobs) {
    forall k :: MentionedKey(spec, k) ==>
      (k in after <==> k in before) && (k in after ==> Advances(before[k].status, after[k].status))
  }

  lemma AdvancesTransitive(a: JobStatus, b: JobStatus, c: JobStatus)
    requires Advances(a, b) && Advances(b, c)
    ensures Advances(a, c)
  {
  }

  lemma OnwardMoved(spec: JobFlowValue, before: Jobs, now: Jobs, after: Jobs)
    requires Onward(spec, before, now) && Moved(spec, false, now, after)
    ensures Onward(spec, before, after)
  {
    hide MentionedKey, Foreign, Advances;
    forall k | MentionedKey(spec, k) && k in after
      ensures k in before && Advances(before[k].status, after[k].status)
    {
      AdvancesTransitive(before[k].status, now[k].status, after[k].status);
    }
  }

  /** No later moment shows more success than the best of now. */
  lemma BestBounds(spec: JobFlowValue, before: Jobs, after: Jobs, k: Key)
    requires Onward(spec, before, before) && Onward(spec, before, after) && MentionedKey(spec, k) && Good(after, k)
    ensures Good(AtBest(spec, before), k)
  {
    hide MentionedKey;
  }

  /** What has failed or succeeded stays so in a move of the environment. */
  lemma MovedSticks(spec: JobFlowValue, before: Jobs, now: Jobs, after: Jobs, first: Jobs)
    requires Sticky(spec, first, now) && Onward(spec, before, now) && Moved(spec, false, now, after)
    ensures Sticky(spec, first, after)
  {
    hide MentionedKey, Foreign;
  }

  /** Nothing has been gained since w, and the Jobs have only moved on. */
  ghost predicate CalmSince(spec: JobFlowValue, w: World, u: World)
    requires Bounds(w)
  {
    && Calm(spec, w, AtBest(spec, Now(w)), u)
    && forall b :: |w.jobs| - 1 <= b < |u.jobs| ==> Onward(spec, Now(w), u.jobs[b])
  }

  lemma EnvironmentGainsNothing(spec: JobFlowValue, w: World, u: World, u': World)
    requires Bounds(w) && CalmSince(spec, w, u) && Environment(spec, false, u, u')
    ensures Onward(spec, Now(w), Now(u')) && NothingGained(spec, w, AtBest(spec, Now(w)), u'.jobs)
  {
    var next := Now(u');
    assert |w.jobs| <= |u.jobs| && Onward(spec, Now(w), u.jobs[|w.jobs| - 1]);
    OnwardMoved(spec, Now(w), Now(u), next);
    hide MentionedKey, Moved, AtBest, Got, HandCalm;
    forall a | w.seen <= a < |u.jobs|
      ensures Sticky(spec, u.jobs[a], next)
    {
      assert Sticky(spec, u.jobs[a], u.jobs[|u.jobs| - 1]);
      MovedSticks(spec, Now(w), Now(u), next, u.jobs[a]);
    }
    StickyItself(spec, next);
    forall k | MentionedKey(spec, k) && Good(next, k)
      ensures Good(AtBest(spec, Now(w)), k)
    {
      BestBounds(spec, Now(w), next, k);
    }
    hide Sticky, Onward, Good;
  }

  lemma StickyItself(spec: JobFlowValue, jobs: Jobs)
    ensures Sticky(spec, jobs, jobs)
  {
  }

  lemma EnvironmentCalm(spec: JobFlowValue, w: World, u: World, u': World)
    requires Bounds(w) && CalmSince(spec, w, u) && Environment(spec, false, u, u')
    ensures CalmSince(spec, w, u')
  {
    EnvironmentGainsNothing(spec, w, u, u');
    if v :| Readable(u', v) {
      assert Readable(u, v);
    }
    hide NothingGained, Got, Onward, AtBest, Moved, CanRead;
    if u.controller.Busy? && u.controller.pc.Deploying? {
      GotStays(spec, w, AtBest(spec, Now(w)), u.jobs, u.seen, u'.jobs, u'.seen, u.controller.pc.pc);
    }
  }

  /** What the controller creates is one of the JobFlow's Jobs. */
  lemma CreatedGains(spec: JobFlowValue, w: World, u: World, u': World)
    requires Bounds(w) && CalmSince(spec, w, u) && Bounds(u') && Created(spec, u, u')
    ensures Gained(spec, w, u')
  {
    var jf, n := u.controller.pc.jf, u.controller.pc.pc.flow;
    FlowMentioned(spec, n);
    assert JobKey(jf, jf.flows[n].name) == JobKey(spec, spec.flows[n].name);
    assert Onward(spec, Now(w), u.jobs[|u.jobs| - 1]);
    hide MentionedKey, Calm, AtBest;
  }

  lemma OwnStepOnward(spec: JobFlowValue, w: World, u: World, u': World)
    requires Bounds(w) && CalmSince(spec, w, u) && OwnStep(spec, u, u') && Calm(spec, w, AtBest(spec, Now(w)), u')
    ensures CalmSince(spec, w, u')
  {
    assert Step(spec, false, u, u');
    JobsGrow(spec, false, u, u');
    hide OwnStep, Step, Created, AtBest;
    CalmGainsNothing(spec, w, AtBest(spec, Now(w)), u');
    if Created(spec, u, u') {
      CreatedGains(spec, w, u, u');
    } else if Environment(spec, false, u, u') {
      EnvironmentCalm(spec, w, u, u');
    }
  }

  lemma StepCalm(spec: JobFlowValue, w: World, u: World, u': World)
    requires Bounds(w) && Bound(spec, w, AtBest(spec, Now(w))) && CalmSince(spec, w, u) && Step(spec, false, u, u')
    ensures CalmSince(spec, w, u') || (CanRead(w) && CanStart(spec, w, AtBest(spec, Now(w))))
  {
    var best := AtBest(spec, Now(w));
    hide Calm, CanRead, CanStart, OwnStep, Environment, Onward, AtBest, Bound;
    if Environment(spec, false, u, u') {
      EnvironmentCalm(spec, w, u, u');
    } else {
      OwnStepCalm(spec, w, best, u, u');
      if Calm(spec, w, best, u') {
        OwnStepOnward(spec, w, u, u');
      }
    }
  }

  /** What the invariant of the runs says about the history: it is in order, and nothing in it is better than the best of now. */
  lemma SafeMeansOrder(spec: JobFlowValue, w: World)
    requires SafeInv(spec, w)
    ensures Bounds(w) && Monotone(spec, w) && Bound(spec, w, AtBest(spec, Now(w)))
    ensures Onward(spec, Now(w), Now(w)) && WellOwned(spec, Now(w))
  {
    var last := |w.jobs| - 1;
    assert Proper(spec, w.templates, w.jobs[last]);
    forall a, b | w.seen <= a <= b < |w.jobs|
      ensures Sticky(spec, w.jobs[a], w.jobs[b])
    {
      LaterSticks(spec, w.jobs[a], w.jobs[b]);
    }
    LaterSticks(spec, w.jobs[last], w.jobs[last]);
    forall b, k | w.seen <= b < |w.jobs| && MentionedKey(spec, k) && Good(w.jobs[b], k)
      ensures Good(AtBest(spec, Now(w)), k)
    {
      assert Sticky(spec, w.jobs[b], w.jobs[last]);
      BestBounds(spec, Now(w), Now(w), k);
    }
    hide Sticky, MentionedKey;
  }

  lemma LaterSticks(spec: JobFlowValue, a: Jobs, b: Jobs)
    requires Later(spec, a, b) && Later(spec, a, a)
    ensures Sticky(spec, a, b)
    ensures a == b ==> Onward(spec, a, b)
  {
    hide MentionedKey;
  }

  lemma CalmSinceFirst(spec: JobFlowValue, w: World)
    requires SafeInv(spec, w) && w.controller == Idle
    ensures CalmSince(spec, w, w)
  {
    SafeMeansOrder(spec, w);
    hide SafeInv, Monotone, Bound, Onward, AtBest;
    CalmAtFirst(spec, w, AtBest(spec, Now(w)));
  }

  lemma {:induction false} CalmUnlessStartable(spec: JobFlowValue, w: World, ws: seq<World>, i: nat)
    requires Future(spec, w, ws) && SafeInv(spec, w) && w.controller == Idle && i < |ws|
    ensures Bounds(w) && (CalmSince(spec, w, ws[i]) || (CanRead(w) && CanStart(spec, w, AtBest(spec, Now(w)))))
  {
    SafeMeansOrder(spec, w);
    if i == 0 {
      CalmSinceFirst(spec, w);
    } else {
      CalmUnlessStartable(spec, w, ws, i - 1);
      assert Step(spec, false, ws[i - 1], ws[i - 1 + 1]);
      hide CalmSince, CanRead, CanStart, Step, AtBest, SafeInv, Bound;
      if CalmSince(spec, w, ws[i - 1]) {
        StepCalm(spec, w, ws[i - 1], ws[i]);
      }
    }
  }

  // ---- and then indeed ----

  lemma BestIsMoved(spec: JobFlowValue, jobs: Jobs)
    requires Onward(spec, jobs, jobs) && WellOwned(spec, jobs)
    ensures Moved(spec, false, jobs, AtBest(spec, jobs))
  {
    forall k | k in jobs && !MentionedKey(spec, k)
      ensures !IsFlowKey(spec, k)
    {
      if IsFlowKey(spec, k) {
        FlowKeyMentioned(spec, k);
      }
    }
    hide MentionedKey, IsFlowKey;
  }

  lemma FutureJoins(spec: JobFlowValue, w: World, u: World, us: seq<World>) returns (all: seq<World>)
    requires Bounds(w) && Environment(spec, false, w, u) && LeftAlone(spec, u, us)
    ensures Future(spec, w, all) && all[|all| - 1] == us[|us| - 1]
  {
    all := [w] + us;
    hide OwnStep, Environment;
    forall i | 0 <= i < |all| - 1
      ensures Step(spec, false, all[i], all[i + 1])
    {
      if i > 0 {
        assert OwnStep(spec, us[i - 1], us[i - 1 + 1]);
      }
    }
  }

  /** What led somewhere still does when the Jobs have moved on to their best. */
  lemma StillLeads(spec: JobFlowValue, w: World, u: World, h: seq<nat>)
    requires Bounds(w) && Leads(spec, w, AtBest(spec, Now(w)), h)
    requires u == w.(jobs := w.jobs + [AtBest(spec, Now(w))])
    ensures Bounds(u) && Leads(spec, u, Now(u), h)
  {
    hide GetsPast, Ready, AtBest, BaseOf;
  }

  lemma BestThenCreate(spec: JobFlowValue, w: World, v: int, h: seq<nat>) returns (ws: seq<World>)
    requires Bounds(w) && w.controller == Idle && Onward(spec, Now(w), Now(w)) && WellOwned(spec, Now(w))
    requires Readable(w, v) && Leads(spec, w, AtBest(spec, Now(w)), h)
    ensures Future(spec, w, ws) && Gained(spec, w, ws[|ws| - 1])
  {
    var u := w.(jobs := w.jobs + [AtBest(spec, Now(w))]);
    BestIsMoved(spec, Now(w));
    StillLeads(spec, w, u, h);
    hide Onward, WellOwned, Moved, AtBest, Leads, LeftAlone, Gained;
    assert Environment(spec, false, w, u);
    var us, last := ReadThenCreate(spec, u, v, h);
    ws := FutureJoins(spec, w, u, us);
    GainedSince(spec, w, u, last);
  }

  lemma GainedSince(spec: JobFlowValue, w: World, u: World, u': World)
    requires Bounds(w) && Bounds(u) && Bounds(u') && Now(u) == AtBest(spec, Now(w)) && Gained(spec, u, u')
    ensures Gained(spec, w, u')
  {
    hide MentionedKey;
  }

  /** In every reachable world with no reconcile under way, however far the caches lag behind: some continuation gives
      the JobFlow another Job exactly when the controller can still read a version that has not failed and some flow
      can be started on the way to the moment when every unfinished Job has succeeded. */
  lemma FrozenExactly(spec: JobFlowValue, run: seq<World>, i: nat)
    requires DistinctNames(spec) && WellFormed(spec) && Run(spec, false, run) && i < |run|
    requires Bounds(run[i]) && run[i].controller == Idle
    ensures (exists ws :: Future(spec, run[i], ws) && Gained(spec, run[i], ws[|ws| - 1])) <==>
            CanRead(run[i]) && CanStart(spec, run[i], AtBest(spec, Now(run[i])))
  {
    var w := run[i];
    SafeAlways(spec, run, i);
    SafeMeansOrder(spec, w);
    hide Gained, Step, Leads, CalmSince, Onward, AtBest, SafeInv, WellOwned, Run, Bound, Monotone;
    if CanRead(w) && CanStart(spec, w, AtBest(spec, Now(w))) {
      var v :| Readable(w, v);
      var h :| Leads(spec, w, AtBest(spec, Now(w)), h);
      var ws := BestThenCreate(spec, w, v, h);
    }
    if ws :| Future(spec, w, ws) && Gained(spec, w, ws[|ws| - 1]) {
      CalmUnlessStartable(spec, w, ws, |ws| - 1);
      if CalmSince(spec, w, ws[|ws| - 1]) {
        CalmNow(spec, w, ws[|ws| - 1]);
      }
    }
  }

  lemma CalmNow(spec: JobFlowValue, w: World, u: World)
    requires Bounds(w) && CalmSince(spec, w, u)
    ensures Bounds(u) && !Gained(spec, w, u)
  {
    hide Calm, AtBest, Onward;
    CalmGainsNothing(spec, w, AtBest(spec, Now(w)), u);
  }

  /** At its best, the JobFlow has the same Jobs and failures, and at least the same successes. */
  lemma BestAgrees(spec: JobFlowValue, jobs: Jobs, n: nat)
    requires n < |spec.flows|
    ensures forall templates :: Halts(spec, templates, AtBest(spec, jobs), n) <==> Halts(spec, templates, jobs, n)
    ensures Ready(spec, n, jobs) ==> Ready(spec, n, AtBest(spec, jobs))
  {
    var best, dependencies := AtBest(spec, jobs), spec.flows[n].dependencies;
    FlowMentioned(spec, n);
    hide MentionedKey;
    forall d | d in dependencies
      ensures JobKey(spec, d) in best <==> JobKey(spec, d) in jobs
      ensures HasFailed(best, JobKey(spec, d)) <==> HasFailed(jobs, JobKey(spec, d))
      ensures HasSucceeded(jobs, JobKey(spec, d)) ==> HasSucceeded(best, JobKey(spec, d))
    {
    }
    hide AtBest, HasSucceeded, HasFailed;
    assert forall m :: 0 <= m < |dependencies| ==> dependencies[m] in dependencies;
    assert forall j :: Breaks(spec, dependencies, best, j) <==> Breaks(spec, dependencies, jobs, j);
  }

  lemma CanStartWhenCurrent(spec: JobFlowValue, w: World)
    requires Bounds(w) && w.seen == |w.jobs| - 1
    ensures CanStart(spec, w, AtBest(spec, Now(w))) <==> SomeStartable(spec, w.templates, AtBest(spec, Now(w)))
  {
    var now, best := Now(w), AtBest(spec, Now(w));
    forall n | 0 <= n < |spec.flows|
      ensures Halts(spec, w.templates, best, n) <==> Halts(spec, w.templates, now, n)
      ensures Ready(spec, n, now) ==> Ready(spec, n, best)
    {
      BestAgrees(spec, now, n);
    }
    hide AtBest, Halts, Ready, BaseOf;
    if h :| Leads(spec, w, best, h) {
      forall m | 0 <= m < |h|
        ensures !Halts(spec, w.templates, best, m)
      {
        ScheduleNoHalt(spec, w, h, m);
      }
      assert Startable(spec, w.templates, best, |h|);
    }
    if n :| Startable(spec, w.templates, best, n) {
      var h := PastOrReady(spec, w, now, n);
      assert Leads(spec, w, best, h);
    }
  }

  /** So with an up-to-date cache the condition is a readable version that has not failed and a flow that would be
      startable if every unfinished Job succeeded. */
  lemma FrozenWhenCurrent(spec: JobFlowValue, run: seq<World>, i: nat)
    requires DistinctNames(spec) && WellFormed(spec) && Run(spec, false, run) && i < |run|
    requires Bounds(run[i]) && run[i].controller == Idle && run[i].seen == |run[i].jobs| - 1
    ensures (exists ws :: Future(spec, run[i], ws) && Gained(spec, run[i], ws[|ws| - 1])) <==>
            CanRead(run[i]) && SomeStartable(spec, run[i].templates, AtBest(spec, Now(run[i])))
  {
    hide Future, Gained, CanStart, SomeStartable, Run, AtBest;
    FrozenExactly(spec, run, i);
    CanStartWhenCurrent(spec, run[i]);
  }

  /** However far the cache lags behind, a flow that would be startable then can be started. */
  lemma StartableIsEnough(spec: JobFlowValue, w: World)
    requires Bounds(w) && SomeStartable(spec, w.templates, AtBest(spec, Now(w)))
    ensures CanStart(spec, w, AtBest(spec, Now(w)))
  {
    var current := w.(seen := |w.jobs| - 1);
    hide SomeStartable, GetsPast, Ready, BaseOf, AtBest;
    CanStartWhenCurrent(spec, current);
    var h :| Leads(spec, current, AtBest(spec, Now(w)), h);
    assert Leads(spec, w, AtBest(spec, Now(w)), h);
  }
}

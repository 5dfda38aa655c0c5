/**
 The reported state over whole runs: what it means when it is computed, that it only moves
 forward, and what a failure freezes.
 */
module RunStatus {
  import opened Kube
  import opened JobFlows
  import opened Render
  import opened Machine
  import opened FlowStatus
  import opened StatusMeaning
  import opened Reconciling
  import opened Runs
  import opened RunSafety

  lemma MeaningOfSpec(a: JobFlowValue, b: JobFlowValue, jobs: Jobs)
    requires SameSpec(a, b)
    ensures Meaning(b, jobs) == if b.deleting then TERMINATING else Meaning(a.(deleting := false), jobs)
  {
    assert forall n :: 0 <= n < |a.flows| ==> JobKey(a, a.flows[n].name) == JobKey(b, b.flows[n].name);
    var c := a.(deleting := false);
    assert forall n, phase :: 0 <= n < |a.flows| ==> (InPhase(b, jobs, phase, n) <==> InPhase(c, jobs, phase, n));
  }

  /** What a List computes is the meaning of the Jobs it shows. */
  lemma ListedMeaning(spec: JobFlowValue, w: World, jf: JobFlowValue, items: seq<JobValue>)
    requires DistinctNames(spec) && SafeInv(spec, w) && SameSpec(spec, jf) && IsListing(items, Cache(w))
    ensures StatusOf(jf, items).state == Meaning(jf, Cache(w))
  {
    assert Proper(spec, w.templates, w.jobs[w.seen]);
    SameOwnership(spec, jf, Cache(w));
    StateMeans(jf, Cache(w), items);
  }

  /** In the step from ws[i] the controller's List is answered. */
  ghost predicate ListAnswered(w: World, w': World) {
    w.controller.Busy? && w.controller.pc.Listing? && w'.controller.Busy? && w'.controller.pc.Updating?
  }

  lemma StatusComputed(spec: JobFlowValue, ws: seq<World>, i: nat)
    requires DistinctNames(spec) && WellFormed(spec) && Run(spec, false, ws) && i + 1 < |ws|
    requires Bounds(ws[i]) && ListAnswered(ws[i], ws[i + 1])
    ensures SafeInv(spec, ws[i]) && SameSpec(spec, ws[i].controller.pc.jf)
    ensures ws[i + 1].controller.pc.status.state == Meaning(ws[i].controller.pc.jf, Cache(ws[i]))
  {
    var w, w' := ws[i], ws[i + 1];
    SafeAlways(spec, ws, i);
    assert Step(spec, false, w, w');
    var resp :| Called(spec, w, resp, w');
    ListedMeaning(spec, w, w.controller.pc.jf, resp.items);
  }

  /** Unless the JobFlow is being deleted, the status about to be written is Succeed exactly when every
      declared flow has a Job, owned by the JobFlow, whose Succeeded count is 1. */
  lemma SucceedMeansAllDone(spec: JobFlowValue, ws: seq<World>, i: nat)
    requires DistinctNames(spec) && WellFormed(spec) && Run(spec, false, ws) && i + 1 < |ws|
    requires Bounds(ws[i]) && ListAnswered(ws[i], ws[i + 1]) && !ws[i].controller.pc.jf.deleting
    ensures ws[i + 1].controller.pc.status.state == SUCCEED <==>
            forall n :: 0 <= n < |spec.flows| ==>
              var k := JobKey(spec, spec.flows[n].name);
              HasSucceeded(Cache(ws[i]), k) && Matches(Cache(ws[i])[k].owners, KIND, spec.name) == 1
  {
    StatusComputed(spec, ws, i);
    var jf, jobs := ws[i].controller.pc.jf, Cache(ws[i]);
    assert Proper(spec, ws[i].templates, ws[i].jobs[ws[i].seen]);
    forall n | 0 <= n < |spec.flows|
      ensures InPhase(jf, jobs, Succeeded, n) <==>
              var k := JobKey(spec, spec.flows[n].name);
              HasSucceeded(jobs, k) && Matches(jobs[k].owners, KIND, spec.name) == 1
    {
      assert JobKey(jf, jf.flows[n].name) == JobKey(spec, spec.flows[n].name);
      assert IsFlowKey(spec, JobKey(spec, spec.flows[n].name));
    }
  }

  /** A reconcile whose List shows a failed Job computes Failed, or Terminating for a JobFlow being deleted. */
  lemma FailureIsReported(spec: JobFlowValue, ws: seq<World>, i: nat, k: Key)
    requires DistinctNames(spec) && WellFormed(spec) && Run(spec, false, ws) && i + 1 < |ws|
    requires Bounds(ws[i]) && ListAnswered(ws[i], ws[i + 1])
    requires IsFlowKey(spec, k) && HasFailed(Cache(ws[i]), k)
    ensures ws[i + 1].controller.pc.status.state == if ws[i].controller.pc.jf.deleting then TERMINATING else FAILED
  {
    StatusComputed(spec, ws, i);
    assert Later(spec, ws[i].jobs[ws[i].seen], ws[i].jobs[ws[i].seen]);
    hide SafeInv, Run, Meaning;
    FlowKeyMentioned(spec, k);
    FailureMeansFailed(spec, ws[i].controller.pc.jf, Cache(ws[i]), k);
  }

  /** When that reconcile's write is then accepted, the failure is persisted, unless the JobFlow was being deleted. */
  lemma FailureIsPersisted(spec: JobFlowValue, ws: seq<World>, i: nat, k: Key, j: nat)
    requires DistinctNames(spec) && WellFormed(spec) && Run(spec, false, ws) && i < j && j + 1 < |ws|
    requires Bounds(ws[i]) && ListAnswered(ws[i], ws[i + 1])
    requires IsFlowKey(spec, k) && HasFailed(Cache(ws[i]), k)
    requires Bounds(ws[j]) && ws[j].controller == ws[i + 1].controller && Called(spec, ws[j], Done, ws[j + 1])
    ensures Bounds(ws[j + 1]) && NowFlow(ws[j + 1]).Stored?
    ensures NowFlow(ws[j + 1]).status.state == if ws[i].controller.pc.jf.deleting then TERMINATING else FAILED
  {
    FailureIsReported(spec, ws, i, k);
    assert Step(spec, false, ws[j], ws[j + 1]);
    StepGrows(spec, false, ws[j], ws[j + 1]);
    hide Run, Step, IsFlowKey, DistinctNames;
    Accepted(spec, ws[j], ws[j + 1]);
  }

  lemma Accepted(spec: JobFlowValue, w: World, w': World)
    requires Bounds(w) && Bounds(w') && Called(spec, w, Done, w') && w.controller.pc.Updating?
    ensures NowFlow(w').Stored? && NowFlow(w').status == w.controller.pc.status
  {
  }

  lemma FailureMeansFailed(spec: JobFlowValue, jf: JobFlowValue, jobs: Jobs, k: Key)
    requires SameSpec(spec, jf) && IsFlowKey(spec, k) && HasFailed(jobs, k) && Exclusive(jobs[k].status)
    ensures Meaning(jf, jobs) == if jf.deleting then TERMINATING else FAILED
  {
    var n :| 0 <= n < |spec.flows| && k == JobKey(spec, spec.flows[n].name);
    assert JobKey(jf, jf.flows[n].name) == k;
    assert InPhase(jf, jobs, Failed, n) && !InPhase(jf, jobs, Succeeded, n);
  }

  /** A pass that stopped at a failed dependency stopped at one the cache still shows. */
  ghost predicate StopInv(spec: JobFlowValue, w: World) {
    && SafeInv(spec, w)
    && (w.controller.Busy? && w.controller.pc.Listing? && w.controller.pc.outcome.BadRequest? &&
        w.controller.pc.outcome.cause.DependencyFailed? ==>
          var k := w.controller.pc.outcome.cause.job;
          IsFlowKey(spec, k) && HasFailed(Cache(w), k))
  }

  lemma NextStops(jf: JobFlowValue, pc: Pc, resp: Response, k: Key)
    requires ValidPc(jf, pc) && !pc.Returned? && Fits(RequestOf(jf, pc), resp)
    requires Next(jf, pc, resp) == Returned(BadRequest(DependencyFailed(k)))
    ensures pc.CheckDependency? && k == JobKey(jf, jf.flows[pc.flow].dependencies[pc.dependency])
    ensures resp.JobFound? && resp.job.status.failed == 1
  {
  }

  lemma StopInvStep(spec: JobFlowValue, w: World, w': World)
    requires DistinctNames(spec) && WellFormed(spec) && StopInv(spec, w) && Step(spec, false, w, w')
    ensures StopInv(spec, w')
  {
    SafeInvStep(spec, w, w');
    StepGrows(spec, false, w, w');
    if w'.controller.Busy? && w'.controller.pc.Listing? && w'.controller.pc.outcome.BadRequest? &&
       w'.controller.pc.outcome.cause.DependencyFailed? {
      var k := w'.controller.pc.outcome.cause.job;
      if resp :| Called(spec, w, resp, w') {
        hide SafeInv, RenderJob, Next;
        StopReached(spec, w, resp, w', k);
      } else {
        FlowKeyMentioned(spec, k);
        assert Later(spec, w'.jobs[w.seen], w'.jobs[w'.seen]) && Later(spec, w'.jobs[w.seen], w'.jobs[w.seen]);
      }
    }
  }

  lemma StopReached(spec: JobFlowValue, w: World, resp: Response, w': World, k: Key)
    requires SafeInv(spec, w) && Called(spec, w, resp, w') && Bounds(w')
    requires w'.controller.Busy? && w'.controller.pc.Listing?
    requires w'.controller.pc.outcome == BadRequest(DependencyFailed(k))
    ensures IsFlowKey(spec, k) && HasFailed(Cache(w'), k)
  {
    var jf, pc := w.controller.pc.jf, w.controller.pc.pc;
    hide RenderJob;
    NextStops(jf, pc, resp, k);
    FlowMentioned(spec, pc.flow);
    assert k == JobKey(spec, spec.flows[pc.flow].dependencies[pc.dependency]);
    assert Proper(spec, w.templates, w.jobs[w.seen]);
  }

  lemma {:induction false} StopAlways(spec: JobFlowValue, ws: seq<World>, i: nat)
    requires DistinctNames(spec) && WellFormed(spec) && Run(spec, false, ws) && i < |ws|
    ensures StopInv(spec, ws[i])
  {
    if i > 0 {
      StopAlways(spec, ws, i - 1);
      assert Step(spec, false, ws[i - 1], ws[i - 1 + 1]);
      StopInvStep(spec, ws[i - 1], ws[i]);
    } else {
      SafeAtStart(spec, ws[0]);
    }
  }

  /** If the deploy part of a reconcile gave up on a failed dependency, the status it then computes is Failed. */
  lemma DeployAndStatusAgree(spec: JobFlowValue, ws: seq<World>, i: nat)
    requires DistinctNames(spec) && WellFormed(spec) && Run(spec, false, ws) && i + 1 < |ws|
    requires Bounds(ws[i]) && ListAnswered(ws[i], ws[i + 1])
    requires ws[i].controller.pc.outcome.BadRequest? && ws[i].controller.pc.outcome.cause.DependencyFailed?
    ensures ws[i + 1].controller.pc.status.state == if ws[i].controller.pc.jf.deleting then TERMINATING else FAILED
  {
    StopAlways(spec, ws, i);
    FailureIsReported(spec, ws, i, ws[i].controller.pc.outcome.cause.job);
  }

  // ---- the state only moves forward ----

  /** From no state to Pending to Running to Succeed or Failed; the last two are final. */
  predicate Forward(a: string, b: string) {
    || a == b
    || a == ""
    || (a == PENDING && b != "")
    || (a == RUNNING && (b == SUCCEED || b == FAILED))
  }

  ghost predicate Live(history: seq<Version>) {
    forall v :: 0 <= v < |history| ==> history[v].Stored? && !history[v].deleting
  }

  lemma PhaseForward(spec: JobFlowValue, before: Jobs, after: Jobs, n: nat)
    requires Later(spec, before, after) && n < |spec.flows|
    ensures InPhase(spec, before, Succeeded, n) ==> InPhase(spec, after, Succeeded, n)
    ensures InPhase(spec, before, Failed, n) ==> InPhase(spec, after, Failed, n)
    ensures InPhase(spec, before, Running, n) ==>
              InPhase(spec, after, Running, n) || InPhase(spec, after, Succeeded, n) || InPhase(spec, after, Failed, n)
  {
    FlowMentioned(spec, n);
  }

  lemma MeaningForward(spec: JobFlowValue, before: Jobs, after: Jobs)
    requires !spec.deleting && Later(spec, before, after)
    ensures Forward(Meaning(spec, before), Meaning(spec, after))
  {
    forall n | 0 <= n < |spec.flows|
      ensures InPhase(spec, before, Succeeded, n) ==> InPhase(spec, after, Succeeded, n)
      ensures InPhase(spec, before, Failed, n) ==> InPhase(spec, after, Failed, n) && !InPhase(spec, after, Succeeded, n)
      ensures InPhase(spec, before, Running, n) ==>
                InPhase(spec, after, Running, n) || InPhase(spec, after, Succeeded, n) || InPhase(spec, after, Failed, n)
    {
      PhaseForward(spec, before, after, n);
    }
    hide InPhase, Later;
  }

  /** The persisted state is that of the Jobs at k, and the cache shows no older ones; a status on its way
      to the server is that of Jobs between the two. */
  ghost predicate Accounts(spec: JobFlowValue, w: World, k: nat)
    requires Bounds(w)
  {
    && k <= w.seen
    && NowFlow(w).Stored? && (NowFlow(w).status.state == "" || NowFlow(w).status.state == Meaning(spec, w.jobs[k]))
    && (w.controller.Busy? && w.controller.pc.Updating? ==>
          exists k': nat :: Between(spec, w, k, k', w.controller.pc.status.state))
  }

  ghost predicate Between(spec: JobFlowValue, w: World, k: nat, k': nat, state: string)
    requires Bounds(w)
  {
    k <= k' <= w.seen && state == Meaning(spec, w.jobs[k'])
  }

  ghost predicate StateInv(spec: JobFlowValue, w: World) {
    Bounds(w) && (Live(w.flow) ==> exists k: nat :: Accounts(spec, w, k))
  }

  /** Nothing is written to the JobFlow and no List is answered. */
  lemma AccountsStay(spec: JobFlowValue, w: World, w': World, k: nat)
    requires Bounds(w) && Bounds(w') && Accounts(spec, w, k)
    requires w.jobs <= w'.jobs && w.seen <= w'.seen && w'.flow == w.flow
    requires w'.controller == w.controller || !w'.controller.Busy? || !w'.controller.pc.Updating?
    ensures Accounts(spec, w', k)
  {
    hide Meaning;
    assert w'.jobs[k] == w.jobs[k];
    if w'.controller.Busy? && w'.controller.pc.Updating? {
      var k': nat :| Between(spec, w, k, k', w.controller.pc.status.state);
      assert w'.jobs[k'] == w.jobs[k'];
      assert Between(spec, w', k, k', w'.controller.pc.status.state);
    }
  }

  lemma ListAnswer(spec: JobFlowValue, w: World, resp: Response, w': World)
    requires ReadInv(spec, w) && Called(spec, w, resp, w') && ListAnswered(w, w')
    ensures resp.Listed? && IsListing(resp.items, Cache(w))
    ensures w'.jobs == w.jobs && w'.seen == w.seen && w'.flow == w.flow && w'.flowSeen == w.flowSeen
    ensures w'.controller.pc.status == StatusOf(w.controller.pc.jf, resp.items)
    ensures SameSpec(spec, w.controller.pc.jf)
    ensures Live(w.flow) ==> !w.controller.pc.jf.deleting
  {
  }

  lemma AccountsAfterList(spec: JobFlowValue, w: World, w': World, k: nat)
    requires Bounds(w) && Bounds(w') && Accounts(spec, w, k)
    requires w'.jobs == w.jobs && w'.seen == w.seen && w'.flow == w.flow
    requires w'.controller.Busy? && w'.controller.pc.Updating?
    requires w'.controller.pc.status.state == Meaning(spec, Cache(w))
    ensures Accounts(spec, w', k)
  {
    hide Meaning;
    assert Between(spec, w', k, w'.seen, w'.controller.pc.status.state);
  }

  lemma ListedLive(spec: JobFlowValue, w: World, jf: JobFlowValue, items: seq<JobValue>)
    requires DistinctNames(spec) && !spec.deleting && SafeInv(spec, w) && Bounds(w)
    requires SameSpec(spec, jf) && !jf.deleting && IsListing(items, Cache(w))
    ensures StatusOf(jf, items).state == Meaning(spec, Cache(w))
  {
    hide SafeInv, IsListing, StatusOf, Meaning;
    ListedMeaning(spec, w, jf, items);
    MeaningOfSpec(spec, jf, Cache(w));
    assert spec.(deleting := false) == spec;
  }

  lemma AccountsList(spec: JobFlowValue, w: World, resp: Response, w': World, k: nat)
    requires DistinctNames(spec) && !spec.deleting && Live(w.flow) && Bounds(w')
    requires SafeInv(spec, w) && ReadInv(spec, w) && Bounds(w)
    requires Called(spec, w, resp, w') && ListAnswered(w, w') && Accounts(spec, w, k)
    requires w.controller.Busy? && w.controller.pc.Listing? && w'.controller.Busy? && w'.controller.pc.Updating?
    ensures Accounts(spec, w', k)
  {
    hide *;
    ListAnswer(spec, w, resp, w');
    ListedLive(spec, w, w.controller.pc.jf, resp.items);
    AccountsAfterList(spec, w, w', k);
  }

  /** What the answer to a status update changes: the history of the JobFlow, if the write was accepted. */
  lemma WriteAnswer(spec: JobFlowValue, w: World, resp: Response, w': World)
    requires Bounds(w) && Called(spec, w, resp, w') && w.controller.pc.Updating?
    ensures w'.jobs == w.jobs && w'.seen == w.seen && w'.flowSeen == w.flowSeen && w'.controller == Idle
    ensures w'.flow == w.flow || (NowFlow(w).Stored? && w'.flow == Recorded(w.flow, w.controller.pc.status))
  {
  }

  /** A write that is accepted makes the persisted state that of newer Jobs. */
  lemma AccountsWrite(spec: JobFlowValue, w: World, resp: Response, w': World, k: nat) returns (k': nat)
    requires !spec.deleting && SafeInv(spec, w) && Called(spec, w, resp, w') && Accounts(spec, w, k)
    requires w.controller.Busy? && w.controller.pc.Updating?
    ensures Bounds(w') && Accounts(spec, w', k')
    ensures Forward(NowFlow(w).status.state, NowFlow(w').status.state)
  {
    hide Called, Meaning, SafeInv, Later;
    InvBounds(spec, w);
    WriteAnswer(spec, w, resp, w');
    k' :| Between(spec, w, k, k', w.controller.pc.status.state);
    BetweenForward(spec, w, k, k', w.controller.pc.status.state);
    if w'.flow == w.flow && NowFlow(w).status != w.controller.pc.status {
      k' := k;
    }
  }

  lemma InvBounds(spec: JobFlowValue, w: World)
    requires SafeInv(spec, w)
    ensures Bounds(w)
  {
  }

  lemma BetweenForward(spec: JobFlowValue, w: World, k: nat, k': nat, state: string)
    requires !spec.deleting && SafeInv(spec, w) && Between(spec, w, k, k', state)
    ensures Forward(Meaning(spec, w.jobs[k]), state)
  {
    assert Later(spec, w.jobs[k], w.jobs[k']);
    hide SafeInv, Meaning, Later;
    MeaningForward(spec, w.jobs[k], w.jobs[k']);
  }

  lemma LiveBefore(w: World, w': World)
    requires Bounds(w) && w.flow <= w'.flow && Live(w'.flow)
    ensures Live(w.flow)
  {
    assert forall v :: 0 <= v < |w.flow| ==> w.flow[v] == w'.flow[v];
  }

  lemma AccountsCalled(spec: JobFlowValue, w: World, resp: Response, w': World, k: nat) returns (k': nat)
    requires DistinctNames(spec) && !spec.deleting && SafeInv(spec, w) && ReadInv(spec, w) && Bounds(w) && Live(w.flow)
    requires Called(spec, w, resp, w') && Accounts(spec, w, k) && Bounds(w') && w.jobs <= w'.jobs
    ensures Accounts(spec, w', k') && Forward(NowFlow(w).status.state, NowFlow(w').status.state)
  {
    k' := k;
    hide SafeInv, Accounts, Live, Served;
    if w.controller.pc.Updating? {
      k' := AccountsWrite(spec, w, resp, w', k);
    } else {
      WritesOnlyInUpdate(spec, w, resp, w');
      if ListAnswered(w, w') {
        AccountsList(spec, w, resp, w', k);
      } else {
        AccountsStay(spec, w, w', k);
      }
    }
  }

  lemma AccountsStep(spec: JobFlowValue, w: World, w': World, k: nat) returns (k': nat)
    requires DistinctNames(spec) && WellFormed(spec) && !spec.deleting
    requires SafeInv(spec, w) && Step(spec, false, w, w') && Live(w.flow) && Accounts(spec, w, k) && !DeleteFlow(w, w')
    ensures Bounds(w') && Accounts(spec, w', k') && Forward(NowFlow(w).status.state, NowFlow(w').status.state)
  {
    StepGrows(spec, false, w, w');
    k' := k;
    if resp :| Called(spec, w, resp, w') {
      k' := AccountsCalled(spec, w, resp, w', k);
    } else {
      OtherStep(spec, w, w');
      hide *;
      AccountsStay(spec, w, w', k);
      ForwardReflexive(spec, w, w', k);
    }
  }

  lemma OtherStep(spec: JobFlowValue, w: World, w': World)
    requires Step(spec, false, w, w') && !DeleteFlow(w, w') && forall resp :: !Called(spec, w, resp, w')
    ensures w'.flow == w.flow
    ensures w'.controller == w.controller || !w'.controller.Busy? || !w'.controller.pc.Updating?
  {
    hide Called, Moved;
  }

  lemma ForwardReflexive(spec: JobFlowValue, w: World, w': World, k: nat)
    requires Bounds(w) && Bounds(w') && Accounts(spec, w, k) && w'.flow == w.flow
    ensures NowFlow(w).Stored? && NowFlow(w') == NowFlow(w) && Forward(NowFlow(w).status.state, NowFlow(w').status.state)
  {
    hide Meaning;
  }

  lemma StateInvStep(spec: JobFlowValue, w: World, w': World)
    requires DistinctNames(spec) && WellFormed(spec) && !spec.deleting
    requires SafeInv(spec, w) && StateInv(spec, w) && Step(spec, false, w, w')
    ensures StateInv(spec, w')
    ensures Live(w'.flow) ==> Live(w.flow) && Forward(NowFlow(w).status.state, NowFlow(w').status.state)
  {
    StepGrows(spec, false, w, w');
    hide SafeInv, Accounts, Live, Step;
    if Live(w'.flow) {
      LiveBefore(w, w');
      LiveMeansNoDelete(w, w');
      var k: nat :| Accounts(spec, w, k);
      k := AccountsStep(spec, w, w', k);
    }
  }

  lemma WritesOnlyInUpdate(spec: JobFlowValue, w: World, resp: Response, w': World)
    requires Bounds(w) && Called(spec, w, resp, w') && !w.controller.pc.Updating?
    ensures w'.flow == w.flow
    ensures w'.controller.Busy? && w'.controller.pc.Updating? ==> ListAnswered(w, w')
  {
  }

  lemma LiveMeansNoDelete(w: World, w': World)
    requires Bounds(w) && Live(w'.flow)
    ensures !DeleteFlow(w, w')
  {
    assert |w.flow| < |w'.flow| ==> w'.flow[|w.flow|].Stored? && !w'.flow[|w.flow|].deleting;
  }

  lemma {:induction false} StateAlways(spec: JobFlowValue, ws: seq<World>, i: nat)
    requires DistinctNames(spec) && WellFormed(spec) && !spec.deleting && Run(spec, false, ws) && i < |ws|
    ensures SafeInv(spec, ws[i]) && StateInv(spec, ws[i])
  {
    SafeAlways(spec, ws, i);
    if i > 0 {
      StateAlways(spec, ws, i - 1);
      assert Step(spec, false, ws[i - 1], ws[i - 1 + 1]);
      StateInvStep(spec, ws[i - 1], ws[i]);
    } else {
      assert Accounts(spec, ws[0], 0);
    }
  }

  lemma ForwardTransitive(a: string, b: string, c: string)
    requires (a == b || Forward(a, b)) && (b == c || Forward(b, c))
    ensures Forward(a, c)
  {
  }

  lemma StateForwardStep(spec: JobFlowValue, ws: seq<World>, j: nat)
    requires DistinctNames(spec) && WellFormed(spec) && !spec.deleting && Run(spec, false, ws) && j + 1 < |ws|
    ensures Bounds(ws[j]) && Bounds(ws[j + 1])
    ensures Live(ws[j + 1].flow) ==> Live(ws[j].flow) && Forward(NowFlow(ws[j]).status.state, NowFlow(ws[j + 1]).status.state)
  {
    StateAlways(spec, ws, j);
    assert Step(spec, false, ws[j], ws[j + 1]);
    hide SafeInv, StateInv, Step, Live, Run;
    StateInvStep(spec, ws[j], ws[j + 1]);
    InvBounds(spec, ws[j]);
    StepGrows(spec, false, ws[j], ws[j + 1]);
  }

  lemma LiveStored(w: World)
    requires Bounds(w) && Live(w.flow)
    ensures NowFlow(w).Stored?
  {
  }

  /** While nobody deletes the JobFlow or its Jobs, the persisted state never goes back, whatever the caches show. */
  lemma {:induction false} StateMovesForward(spec: JobFlowValue, ws: seq<World>, i: nat, j: nat)
    requires DistinctNames(spec) && WellFormed(spec) && !spec.deleting && Run(spec, false, ws) && i <= j < |ws|
    requires Bounds(ws[i]) && Bounds(ws[j]) && Live(ws[j].flow)
    ensures Live(ws[i].flow) && Forward(NowFlow(ws[i]).status.state, NowFlow(ws[j]).status.state)
    decreases j
  {
    hide *;
    LiveStored(ws[j]);
    if i < j {
      StateForwardStep(spec, ws, j - 1);
      StateMovesForward(spec, ws, i, j - 1);
      LiveStored(ws[i]);
      LiveStored(ws[j - 1]);
      ForwardTransitive(NowFlow(ws[i]).status.state, NowFlow(ws[j - 1]).status.state, NowFlow(ws[j]).status.state);
    } else {
      ForwardTransitive(NowFlow(ws[i]).status.state, NowFlow(ws[i]).status.state, NowFlow(ws[i]).status.state);
    }
  }

  /** A persisted Succeed tells the truth about the server: every declared flow's Job has succeeded. */
  lemma SucceedIsTrue(spec: JobFlowValue, ws: seq<World>, i: nat)
    requires DistinctNames(spec) && WellFormed(spec) && !spec.deleting && Run(spec, false, ws) && i < |ws|
    requires Bounds(ws[i]) && Live(ws[i].flow) && NowFlow(ws[i]).status.state == SUCCEED
    ensures AllSucceeded(spec, Now(ws[i]))
  {
    var w := ws[i];
    StateAlways(spec, ws, i);
    var k: nat :| Accounts(spec, w, k);
    assert Later(spec, w.jobs[k], w.jobs[|w.jobs| - 1]);
    MeaningForward(spec, w.jobs[k], Now(w));
  }

  // ---- what a failure freezes ----

  /** A persisted Failed stays, even when later reconciles start from a stale JobFlow or the JobFlow is
      marked for deletion: their write carries an old version and is refused. */
  lemma {:induction false} FailedIsFinal(spec: JobFlowValue, deletions: bool, ws: seq<World>, i: nat, j: nat)
    requires Run(spec, deletions, ws) && i <= j < |ws| && Bounds(ws[i]) && Bounds(ws[j])
    requires NowFlow(ws[i]).Stored? ==> NowFlow(ws[i]).status.state == FAILED
    ensures NowFlow(ws[j]).Stored? ==> NowFlow(ws[j]).status.state == FAILED
    decreases j
  {
    if i < j {
      ReadInvAlways(spec, deletions, ws, j - 1);
      assert Step(spec, deletions, ws[j - 1], ws[j - 1 + 1]);
      FailedIsFinal(spec, deletions, ws, i, j - 1);
      FailedStep(spec, deletions, ws[j - 1], ws[j]);
    }
  }

  lemma FailedStep(spec: JobFlowValue, deletions: bool, w: World, w': World)
    requires ReadInv(spec, w) && Step(spec, deletions, w, w') && Bounds(w')
    requires NowFlow(w).Stored? ==> NowFlow(w).status.state == FAILED
    ensures NowFlow(w').Stored? ==> NowFlow(w').status.state == FAILED
  {
    if resp :| Called(spec, w, resp, w') {
      if w.controller.pc.Updating? {
        assert w.controller.version != |w.flow| - 1 || !NowFlow(w).Stored?;
      } else {
        WritesOnlyInUpdate(spec, w, resp, w');
      }
    }
  }

  /** No reconcile is under way that could act, and whatever the next one reads is failed or gone. */
  ghost predicate Frozen(w: World) {
    && Bounds(w)
    && (w.controller.Busy? ==> w.controller.pc.ReadJobFlow?)
    && (forall v :: w.flowSeen <= v < |w.flow| ==> w.flow[v].Stored? ==> w.flow[v].status.state == FAILED)
  }

  ghost function MentionedKeys(spec: JobFlowValue, jobs: Jobs): set<Key> {
    set k | k in jobs && MentionedKey(spec, k)
  }

  lemma FrozenStep(spec: JobFlowValue, w: World, w': World)
    requires Frozen(w) && Step(spec, false, w, w')
    ensures Frozen(w') && MentionedKeys(spec, Now(w')) == MentionedKeys(spec, Now(w))
  {
    StepGrows(spec, false, w, w');
    hide MentionedKey;
    if resp :| Called(spec, w, resp, w') {
      InHandRead(FlowKey(spec), resp);
    }
  }

  /** Once a reconcile can only read Failed, no Job of the JobFlow appears or disappears for the rest of the run. */
  lemma {:induction false} FrozenForGood(spec: JobFlowValue, ws: seq<World>, i: nat, j: nat)
    requires Run(spec, false, ws) && i <= j < |ws| && Frozen(ws[i])
    ensures Frozen(ws[j]) && MentionedKeys(spec, Now(ws[j])) == MentionedKeys(spec, Now(ws[i]))
    decreases j
  {
    if i < j {
      FrozenForGood(spec, ws, i, j - 1);
      assert Step(spec, false, ws[j - 1], ws[j - 1 + 1]);
      FrozenStep(spec, ws[j - 1], ws[j]);
    }
  }
}

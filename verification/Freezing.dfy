/**
 Exactly when the controller, left alone, creates another Job of the JobFlow, however far
 its caches lag behind.
 */
module Freezing {
  import opened Kube
  import opened JobFlows
  import opened Render
  import opened Machine
  import opened Deploy
  import opened Passes
  import opened PassByCalls
  import opened Reconciling
  import opened Runs
  import opened Lagging

  /** A continuation of w in which nobody but the controller touches the Jobs. */
  ghost predicate LeftAlone(spec: JobFlowValue, w: World, ws: seq<World>) {
    && |ws| > 0 && ws[0] == w && (forall i :: 0 <= i < |ws| ==> Bounds(ws[i]))
    && forall i :: 0 <= i < |ws| - 1 ==> OwnStep(spec, ws[i], ws[i + 1])
  }

  // ---- only then ----

  /** Nothing has been gained since w; whatever the controller works on was readable at w. */
  ghost predicate Calm(spec: JobFlowValue, w: World, best: Jobs, u: World)
    requires Bounds(w)
  {
    && Bounds(u) && w.seen <= u.seen && u.templates == w.templates && w.flowSeen <= u.flowSeen
    && (CanRead(u) ==> CanRead(w)) && NothingGained(spec, w, best, u.jobs)
    && (u.controller.Busy? ==> HandCalm(spec, w, best, u, u.controller.pc))
  }

  ghost predicate HandCalm(spec: JobFlowValue, w: World, best: Jobs, u: World, pc: ReconcilePc)
    requires Bounds(u)
  {
    && ValidReconcilePc(pc)
    && (!pc.ReadJobFlow? ==> CanRead(w))
    && (pc.Deploying? ==>
          SameSpec(spec, pc.jf) && ValidPc(spec, pc.pc) && Got(spec, w, best, u.jobs, u.seen, pc.pc))
  }

  /** An upper bound on success that has none of the missing Jobs: what is there now, or what it may become. */
  ghost predicate Bound(spec: JobFlowValue, w: World, best: Jobs)
    requires Bounds(w)
  {
    && (forall k :: MentionedKey(spec, k) && k in best ==> k in Now(w))
    && (forall b, k :: w.seen <= b < |w.jobs| && MentionedKey(spec, k) && Good(w.jobs[b], k) ==> Good(best, k))
  }

  /** The JobFlow that was read and the spec ask for the same and go the same way. */
  lemma SameCalls(spec: JobFlowValue, jf: JobFlowValue, pc: Pc, resp: Response)
    requires SameSpec(spec, jf) && ValidPc(jf, pc) && !pc.Returned? && Fits(RequestOf(jf, pc), resp)
    ensures ValidPc(spec, pc) && RequestOf(spec, pc) == RequestOf(jf, pc) && Next(spec, pc, resp) == Next(jf, pc, resp)
  {
    if pc.Create? {
      RenderDependsOn(jf, jf.flows[pc.flow], spec, spec.flows[pc.flow], pc.base);
    }
  }

  lemma SameEnter(spec: JobFlowValue, jf: JobFlowValue, i: nat)
    requires SameSpec(spec, jf) && i <= |spec.flows|
    ensures Enter(jf, i) == Enter(spec, i)
  {
  }

  /** A call of a pass: read from the cache, or a Create at the server. */
  lemma DeployServed(spec: JobFlowValue, u: World, resp: Response, u': World)
    requires Bounds(u) && Called(spec, u, resp, u') && u.controller.pc.Deploying?
    ensures var jf, pc := u.controller.pc.jf, u.controller.pc.pc;
            Fits(RequestOf(jf, pc), resp) && FromCache(u.templates, u.jobs[u.seen], RequestOf(jf, pc), resp)
    ensures u'.flow == u.flow && u'.flowSeen == u.flowSeen && u'.seen == u.seen && u'.templates == u.templates
    ensures u'.controller.Busy? ==>
              u'.controller.pc == AfterDeploy(u.controller.pc.jf, Next(u.controller.pc.jf, u.controller.pc.pc, resp))
    ensures var jf, pc := u.controller.pc.jf, u.controller.pc.pc;
            pc.Create? && JobKey(jf, jf.flows[pc.flow].name) in Now(u) ==> !resp.Done? && u'.jobs == u.jobs
    ensures !u.controller.pc.pc.Create? ==> u'.jobs == u.jobs
  {
  }

  lemma CalmAfter(spec: JobFlowValue, w: World, best: Jobs, u: World, u': World)
    requires Bounds(w) && Calm(spec, w, best, u) && u'.templates == u.templates && u'.seen == u.seen
    requires u'.jobs == u.jobs && u'.flow == u.flow && u'.flowSeen == u.flowSeen
    requires u'.controller.Busy? ==> HandCalm(spec, w, best, u', u'.controller.pc)
    ensures Calm(spec, w, best, u')
  {
    if v :| Readable(u', v) {
      assert Readable(u, v);
    }
    hide CanRead, HandCalm, NothingGained;
  }

  lemma DeployCalm(spec: JobFlowValue, w: World, best: Jobs, u: World, resp: Response, u': World)
    requires Bounds(w) && Bound(spec, w, best) && Calm(spec, w, best, u) && Called(spec, u, resp, u')
    requires u.controller.pc.Deploying?
    ensures Calm(spec, w, best, u') || (CanRead(w) && CanStart(spec, w, best))
  {
    var jf, pc := u.controller.pc.jf, u.controller.pc.pc;
    DeployServed(spec, u, resp, u');
    SameCalls(spec, jf, pc, resp);
    hide Called, NothingGained, Got, Next, FromCache, RequestOf, Fits, CanStart, CanRead, Bound;
    if pc.Create? {
      StartsOrKnown(spec, w, best, u, pc);
      assert JobKey(jf, jf.flows[pc.flow].name) == JobKey(spec, spec.flows[pc.flow].name);
    }
    if !(pc.Create? && CanStart(spec, w, best)) {
      GotNext(spec, w, best, u.jobs, u.seen, pc, resp);
      CalmAfter(spec, w, best, u, u');
    }
  }

  /** What is about to be created can be started, or exists already. */
  lemma StartsOrKnown(spec: JobFlowValue, w: World, best: Jobs, u: World, pc: Pc)
    requires Bounds(w) && Bound(spec, w, best) && Bounds(u) && NothingGained(spec, w, best, u.jobs) && w.seen <= u.seen
    requires ValidPc(spec, pc) && pc.Create? && Got(spec, w, best, u.jobs, u.seen, pc)
    ensures CanStart(spec, w, best) || JobKey(spec, spec.flows[pc.flow].name) in Now(u)
  {
    var k := JobKey(spec, spec.flows[pc.flow].name);
    FlowMentioned(spec, pc.flow);
    hide MentionedKey, CanStart, Got, Good;
    if k in Now(w) {
      assert Sticky(spec, u.jobs[|w.jobs| - 1], u.jobs[|u.jobs| - 1]);
    } else {
      assert k !in best;
      CreateLeads(spec, w, best, u.jobs, u.seen, pc);
    }
  }

  lemma ReachedNone(spec: JobFlowValue, w: World, seen: nat)
    ensures Reached(spec, w, 0, seen)
  {
    assert Schedule(spec, w, []);
  }

  lemma ReadCalm(spec: JobFlowValue, w: World, best: Jobs, u: World, resp: Response, u': World)
    requires Bounds(w) && Calm(spec, w, best, u) && Called(spec, u, resp, u') && u.controller.pc.ReadJobFlow?
    ensures Calm(spec, w, best, u')
  {
    hide NothingGained, Got;
    if u'.controller.Busy? {
      assert Readable(u, u.flowSeen);
      var jf := At(spec, u.flow[u.flowSeen]);
      ReachedNone(spec, w, u.seen);
      GotAtHead(spec, w, best, u.jobs, u.seen, 0);
      SameEnter(spec, jf, 0);
      hide Enter;
      assert u'.controller.pc == AfterDeploy(jf, Enter(jf, 0));
    }
    CalmAfter(spec, w, best, u, u');
  }

  /** The status is listed and written; a version that is written was made from a readable one. */
  lemma StatusCalm(spec: JobFlowValue, w: World, best: Jobs, u: World, resp: Response, u': World)
    requires Bounds(w) && Calm(spec, w, best, u) && Called(spec, u, resp, u')
    requires u.controller.pc.Listing? || u.controller.pc.Updating?
    ensures Calm(spec, w, best, u')
  {
    hide NothingGained, Got;
  }

  lemma IsCalled(spec: JobFlowValue, u: World, resp: Response, u': World)
    requires Bounds(u) && Called(spec, u, resp, u')
    ensures u.controller.Busy? && !u.controller.pc.Finished?
  {
  }

  lemma CallCalm(spec: JobFlowValue, w: World, best: Jobs, u: World, resp: Response, u': World)
    requires Bounds(w) && Bound(spec, w, best) && Calm(spec, w, best, u) && Called(spec, u, resp, u')
    ensures Calm(spec, w, best, u') || (CanRead(w) && CanStart(spec, w, best))
  {
    hide Called, NothingGained, Bound;
    IsCalled(spec, u, resp, u');
    match u.controller.pc
    case ReadJobFlow => ReadCalm(spec, w, best, u, resp, u');
    case Deploying(_, _) => DeployCalm(spec, w, best, u, resp, u');
    case Listing(_, _) => StatusCalm(spec, w, best, u, resp, u');
    case Updating(_, _) => StatusCalm(spec, w, best, u, resp, u');
  }

  lemma OtherCalm(spec: JobFlowValue, w: World, best: Jobs, u: World, u': World)
    requires Bounds(w) && Calm(spec, w, best, u)
    requires StartOrCrash(u, u') || Observe(u, u') || DeleteFlow(u, u')
    ensures Calm(spec, w, best, u')
  {
    if v :| Readable(u', v) {
      assert v < |u.flow| ==> Readable(u, v);
      assert v >= |u.flow| ==> Readable(u, |u.flow| - 1);
    }
    hide CanRead, NothingGained, Got;
    if u.controller.Busy? && u.controller.pc.Deploying? {
      GotStays(spec, w, best, u.jobs, u.seen, u'.jobs, u'.seen, u.controller.pc.pc);
    }
  }

  lemma OwnStepCalm(spec: JobFlowValue, w: World, best: Jobs, u: World, u': World)
    requires Bounds(w) && Bound(spec, w, best) && Calm(spec, w, best, u) && OwnStep(spec, u, u')
    ensures Calm(spec, w, best, u') || (CanRead(w) && CanStart(spec, w, best))
  {
    hide Called, CanRead, CanStart, StartOrCrash, Observe, DeleteFlow, NothingGained, Bound, HandCalm;
    if resp :| Called(spec, u, resp, u') {
      CallCalm(spec, w, best, u, resp, u');
    } else {
      OtherCalm(spec, w, best, u, u');
    }
  }

  lemma CalmAtFirst(spec: JobFlowValue, w: World, best: Jobs)
    requires Bounds(w) && w.controller == Idle && Monotone(spec, w) && Bound(spec, w, best)
    ensures Calm(spec, w, best, w)
  {
    hide Sticky, MentionedKey, Good;
  }

  lemma NowBounds(spec: JobFlowValue, w: World)
    requires Bounds(w) && Monotone(spec, w)
    ensures Bound(spec, w, Now(w))
  {
    forall b, k | w.seen <= b < |w.jobs| && MentionedKey(spec, k) && Good(w.jobs[b], k)
      ensures Good(Now(w), k)
    {
      assert Sticky(spec, w.jobs[b], w.jobs[|w.jobs| - 1]);
    }
  }

  lemma CalmGainsNothing(spec: JobFlowValue, w: World, best: Jobs, u: World)
    requires Bounds(w) && Calm(spec, w, best, u)
    ensures Bounds(u) && !Gained(spec, w, u)
  {
    hide MentionedKey, Good, Sticky, Got;
    assert |u.jobs| == |w.jobs| ==> Now(u) == Now(w);
  }

  lemma {:induction false} CalmUnlessStarted(spec: JobFlowValue, w: World, ws: seq<World>, i: nat)
    requires LeftAlone(spec, w, ws) && Bounds(w) && w.controller == Idle && Monotone(spec, w) && i < |ws|
    ensures Calm(spec, w, Now(w), ws[i]) || (CanRead(w) && CanStart(spec, w, Now(w)))
  {
    NowBounds(spec, w);
    if i == 0 {
      CalmAtFirst(spec, w, Now(w));
    } else {
      CalmUnlessStarted(spec, w, ws, i - 1);
      assert OwnStep(spec, ws[i - 1], ws[i - 1 + 1]);
      hide Calm, CanRead, CanStart, OwnStep, Bound, Monotone;
      if Calm(spec, w, Now(w), ws[i - 1]) {
        OwnStepCalm(spec, w, Now(w), ws[i - 1], ws[i]);
      }
    }
  }

  // ---- and then indeed ----

  lemma Extend(spec: JobFlowValue, w: World, ws: seq<World>, u: World) returns (ws': seq<World>)
    requires LeftAlone(spec, w, ws) && OwnStep(spec, ws[|ws| - 1], u) && Bounds(u)
    ensures LeftAlone(spec, w, ws') && |ws'| > 0 && ws' == ws + [u] && ws'[|ws'| - 1] == u
  {
    ws' := ws + [u];
    hide OwnStep;
    forall i | 0 <= i < |ws'| - 1
      ensures OwnStep(spec, ws'[i], ws'[i + 1])
    {
      if i < |ws| - 1 {
        assert OwnStep(spec, ws[i], ws[i + 1]);
      }
    }
  }

  /** The answer these Jobs give to a read. */
  function Answer(templates: map<Key, SpecValue>, jobs: Jobs, req: Request): Response {
    match req
    case GetTemplate(k) => if k in templates then TemplateFound(templates[k]) else NotFound
    case GetJob(k) => if k in jobs then JobFound(jobs[k]) else NotFound
    case _ => Done
  }

  lemma AnswerFits(jf: JobFlowValue, templates: map<Key, SpecValue>, jobs: Jobs, pc: Pc)
    requires ValidPc(jf, pc) && !pc.Returned? && !pc.Create?
    ensures Fits(RequestOf(jf, pc), Answer(templates, jobs, RequestOf(jf, pc)))
  {
  }

  /** What a pass knows of flow i while all its reads are answered from the same Jobs. */
  ghost predicate AtFlow(jf: JobFlowValue, templates: map<Key, SpecValue>, jobs: Jobs, i: nat, pc: Pc)
    requires i < |jf.flows| && ValidPc(jf, pc)
  {
    var flow := jf.flows[i];
    !pc.Returned? && FlowAt(jf, pc) == i &&
    match pc
    case FetchTemplate(_) => true
    case Lookup(_, base) => BaseOf(jf, flow, templates) == Some(base)
    case CheckDependency(_, base, j, met) =>
      BaseOf(jf, flow, templates) == Some(base) && JobKey(jf, flow.name) !in jobs && Scanned(jf, jobs, flow.dependencies, j, met)
    case Create(_, base) =>
      BaseOf(jf, flow, templates) == Some(base) && JobKey(jf, flow.name) !in jobs && Met(jf, flow.dependencies, jobs)
  }

  /** Nothing at flow i makes the pass stop. */
  ghost predicate Unstopped(jf: JobFlowValue, templates: map<Key, SpecValue>, jobs: Jobs, i: nat)
    requires i < |jf.flows|
  {
    !Halts(jf, templates, jobs, i)
  }

  /** The pass is through with flow i, because its Job is there or some dependency is not done. */
  ghost predicate Through(jf: JobFlowValue, jobs: Jobs, i: nat, pc: Pc)
    requires i < |jf.flows|
  {
    pc == Enter(jf, i + 1) && (JobKey(jf, jf.flows[i].name) in jobs || !Met(jf, jf.flows[i].dependencies, jobs))
  }

  lemma CheckGoesOn(jf: JobFlowValue, templates: map<Key, SpecValue>, jobs: Jobs, i: nat, pc: Pc)
    requires i < |jf.flows| && ValidPc(jf, pc) && AtFlow(jf, templates, jobs, i, pc) && pc.CheckDependency?
    requires Unstopped(jf, templates, jobs, i)
    ensures var next := Next(jf, pc, Answer(templates, jobs, RequestOf(jf, pc)));
            AtFlow(jf, templates, jobs, i, next) || Through(jf, jobs, i, next)
  {
    var j, dependencies := pc.dependency, jf.flows[i].dependencies;
    var d := JobKey(jf, dependencies[j]);
    assert dependencies[j] in dependencies;
    if d in jobs {
      if HasFailed(jobs, d) {
        assert Breaks(jf, dependencies, jobs, j);
      }
      ScanOn(jf, jobs, dependencies, j, pc.met);
      if j + 1 == |dependencies| {
        ScannedAll(jf, jobs, dependencies, pc.met && HasSucceeded(jobs, d));
      }
    }
  }

  lemma FlowGoesOn(jf: JobFlowValue, templates: map<Key, SpecValue>, jobs: Jobs, i: nat, pc: Pc)
    requires i < |jf.flows| && ValidPc(jf, pc) && AtFlow(jf, templates, jobs, i, pc) && !pc.Create?
    requires Unstopped(jf, templates, jobs, i)
    ensures var next := Next(jf, pc, Answer(templates, jobs, RequestOf(jf, pc)));
            AtFlow(jf, templates, jobs, i, next) || Through(jf, jobs, i, next)
  {
    hide Breaks;
    if pc.CheckDependency? {
      CheckGoesOn(jf, templates, jobs, i, pc);
    }
  }

  /** How far a pass has to go at most within a flow. */
  function Stage(pc: Pc): nat {
    match pc
    case FetchTemplate(_) => 2
    case Lookup(_, _) => 1
    case _ => 0
  }

  function Left(jf: JobFlowValue, pc: Pc): int
    requires ValidPc(jf, pc)
  {
    if pc.CheckDependency? then |jf.flows[pc.flow].dependencies| - pc.dependency else 0
  }

  lemma GetsOn(jf: JobFlowValue, templates: map<Key, SpecValue>, jobs: Jobs, pc: Pc)
    requires ValidPc(jf, pc) && !pc.Returned? && !pc.Create?
    ensures var next := Next(jf, pc, Answer(templates, jobs, RequestOf(jf, pc)));
            next.Returned? || FlowAt(jf, next) > FlowAt(jf, pc) ||
            Stage(next) < Stage(pc) || (Stage(next) == Stage(pc) && Left(jf, next) < Left(jf, pc))
  {
  }

  lemma StepOn(spec: JobFlowValue, u: World, jf: JobFlowValue, pc: Pc) returns (u': World)
    requires Bounds(u) && ValidPc(jf, pc) && !pc.Returned? && !pc.Create?
    requires u.controller.Busy? && u.controller.pc == Deploying(jf, pc)
    requires !Next(jf, pc, Answer(u.templates, Cache(u), RequestOf(jf, pc))).Returned?
    ensures Bounds(u') && OwnStep(spec, u, u')
    ensures u' == u.(controller := Busy(u.controller.version, Deploying(jf, Next(jf, pc, Answer(u.templates, Cache(u), RequestOf(jf, pc))))))
  {
    var resp := Answer(u.templates, Cache(u), RequestOf(jf, pc));
    AnswerFits(jf, u.templates, Cache(u), pc);
    hide Next;
    u' := u.(controller := Busy(u.controller.version, Deploying(jf, Next(jf, pc, resp))));
    assert Called(spec, u, resp, u');
  }

  /** The worlds so far end in u. */
  ghost predicate EndsIn(ws: seq<World>, u: World) {
    |ws| > 0 && ws[|ws| - 1] == u
  }

  /** With the cache standing still, a pass goes through flow i, or gets to its Create. */
  lemma RunFlow(spec: JobFlowValue, w: World, ws: seq<World>, u: World, jf: JobFlowValue, i: nat, pc: Pc)
    returns (ws': seq<World>, end: Pc)
    requires i < |jf.flows|
    requires LeftAlone(spec, w, ws) && EndsIn(ws, u) && Bounds(u)
    requires ValidPc(jf, pc) && AtFlow(jf, u.templates, Cache(u), i, pc) && Unstopped(jf, u.templates, Cache(u), i)
    requires u.controller.Busy? && u.controller.pc == Deploying(jf, pc)
    requires i + 1 < |jf.flows| || Ready(jf, i, Cache(u))
    ensures ValidPc(jf, end) && !end.Returned? && LeftAlone(spec, w, ws')
    ensures EndsIn(ws', u.(controller := Busy(u.controller.version, Deploying(jf, end))))
    ensures Through(jf, Cache(u), i, end) || (end.Create? && AtFlow(jf, u.templates, Cache(u), i, end))
    decreases if pc.Create? then 0 else 1, Stage(pc), Left(jf, pc)
  {
    if pc.Create? {
      ws', end := ws, pc;
    } else {
      var next := Next(jf, pc, Answer(u.templates, Cache(u), RequestOf(jf, pc)));
      FlowGoesOn(jf, u.templates, Cache(u), i, pc);
      GetsOn(jf, u.templates, Cache(u), pc);
      NotThroughReady(jf, Cache(u), i, next);
      ThroughStays(jf, u.templates, Cache(u), i, next);
      hide OwnStep, Next, Answer, RequestOf, LeftAlone, Ready, AtFlow, Through, Unstopped;
      var u' := StepOn(spec, u, jf, pc);
      ws' := Extend(spec, w, ws, u');
      if Through(jf, Cache(u), i, next) {
        end := next;
      } else {
        ws', end := RunFlow(spec, w, ws', u', jf, i, next);
      }
    }
  }

  lemma NotThroughReady(jf: JobFlowValue, jobs: Jobs, i: nat, pc: Pc)
    requires i < |jf.flows|
    ensures Ready(jf, i, jobs) ==> !Through(jf, jobs, i, pc)
  {
  }

  lemma ThroughStays(jf: JobFlowValue, templates: map<Key, SpecValue>, jobs: Jobs, i: nat, pc: Pc)
    requires i < |jf.flows| && ValidPc(jf, pc)
    ensures Through(jf, jobs, i, pc) && i + 1 < |jf.flows| ==> !pc.Returned?
    ensures AtFlow(jf, templates, jobs, i, pc) ==> !pc.Returned? && FlowAt(jf, pc) == i
  {
  }

  lemma CreateStep(spec: JobFlowValue, u: World, jf: JobFlowValue, pc: Pc) returns (u': World)
    requires Bounds(u) && ValidPc(jf, pc) && pc.Create? && JobKey(jf, jf.flows[pc.flow].name) !in Now(u)
    requires u.controller.Busy? && u.controller.pc == Deploying(jf, pc)
    ensures Bounds(u') && OwnStep(spec, u, u') && JobKey(jf, jf.flows[pc.flow].name) in Now(u')
  {
    var k, job := JobKey(jf, jf.flows[pc.flow].name), RenderJob(jf, jf.flows[pc.flow], pc.base);
    assert job.key == k;
    hide RenderJob;
    u' := u.(jobs := u.jobs + [Now(u)[k := job]],
             controller := Busy(u.controller.version, AfterDeploy(jf, Enter(jf, pc.flow + 1))));
    assert Called(spec, u, Done, u');
  }

  /** The Job exists after all, and the flow depends on nothing. */
  lemma ExistsStep(spec: JobFlowValue, u: World, jf: JobFlowValue, pc: Pc) returns (u': World)
    requires Bounds(u) && ValidPc(jf, pc) && pc.Create? && JobKey(jf, jf.flows[pc.flow].name) in Now(u)
    requires jf.flows[pc.flow].dependencies == [] && pc.flow + 1 < |jf.flows|
    requires u.controller.Busy? && u.controller.pc == Deploying(jf, pc)
    ensures Bounds(u') && OwnStep(spec, u, u') && !Enter(jf, pc.flow + 1).Returned?
    ensures u' == u.(controller := Busy(u.controller.version, Deploying(jf, Enter(jf, pc.flow + 1))))
  {
    var job := RenderJob(jf, jf.flows[pc.flow], pc.base);
    assert job.key == JobKey(jf, jf.flows[pc.flow].name);
    hide RenderJob;
    u' := u.(controller := Busy(u.controller.version, Deploying(jf, Enter(jf, pc.flow + 1))));
    assert Called(spec, u, AlreadyExists, u');
  }

  /** A Create whose Job did not exist at w. */
  lemma CreateGains(spec: JobFlowValue, w: World, ws: seq<World>, u: World, jf: JobFlowValue, pc: Pc) returns (ws': seq<World>, u': World)
    requires LeftAlone(spec, w, ws) && EndsIn(ws, u) && Bounds(w) && Bounds(u) && u.jobs == w.jobs && SameSpec(spec, jf)
    requires ValidPc(jf, pc) && pc.Create? && u.controller.Busy? && u.controller.pc == Deploying(jf, pc)
    requires JobKey(jf, jf.flows[pc.flow].name) !in Now(w)
    ensures LeftAlone(spec, w, ws') && EndsIn(ws', u') && Bounds(u') && Gained(spec, w, u')
  {
    FlowMentioned(spec, pc.flow);
    assert JobKey(spec, spec.flows[pc.flow].name) == JobKey(jf, jf.flows[pc.flow].name);
    hide OwnStep, LeftAlone, MentionedKey;
    u' := CreateStep(spec, u, jf, pc);
    ws' := Extend(spec, w, ws, u');
  }

  lemma EnterAtFlow(jf: JobFlowValue, templates: map<Key, SpecValue>, jobs: Jobs, i: nat)
    requires i < |jf.flows| && BaseOf(jf, jf.flows[i], templates).Some?
    ensures AtFlow(jf, templates, jobs, i, Enter(jf, i))
  {
  }

  lemma PastMeans(jf: JobFlowValue, templates: map<Key, SpecValue>, jobs: Jobs, i: nat, pc: Pc)
    requires i < |jf.flows| && ValidPc(jf, pc) && GetsPast(jf, templates, jobs, i)
    ensures Unstopped(jf, templates, jobs, i) && BaseOf(jf, jf.flows[i], templates).Some?
    ensures pc.Create? && AtFlow(jf, templates, jobs, i, pc) ==> pc.flow == i && jf.flows[i].dependencies == []
  {
  }

  lemma ReadyMeans(jf: JobFlowValue, templates: map<Key, SpecValue>, jobs: Jobs, i: nat, pc: Pc)
    requires i < |jf.flows| && ValidPc(jf, pc) && Ready(jf, i, jobs) && BaseOf(jf, jf.flows[i], templates).Some?
    ensures Unstopped(jf, templates, jobs, i)
    ensures pc.Create? && AtFlow(jf, templates, jobs, i, pc) ==> pc.flow == i && JobKey(jf, jf.flows[i].name) !in jobs
  {
    if j :| Breaks(jf, jf.flows[i].dependencies, jobs, j) {
      BreaksUnmet(jf, jf.flows[i].dependencies, jobs, j);
    }
  }

  /** The pass gets past flow i, unless it gains its Job. */
  lemma PassFlow(spec: JobFlowValue, w: World, ws: seq<World>, u: World, jf: JobFlowValue, i: nat)
    returns (ws': seq<World>, u': World)
    requires LeftAlone(spec, w, ws) && EndsIn(ws, u) && Bounds(w) && Bounds(u) && u.jobs == w.jobs && SameSpec(spec, jf)
    requires i + 1 < |jf.flows| && GetsPast(jf, u.templates, Cache(u), i)
    requires !Enter(jf, i).Returned? && u.controller.Busy? && u.controller.pc == Deploying(jf, Enter(jf, i))
    ensures LeftAlone(spec, w, ws') && EndsIn(ws', u') && Bounds(u') && !Enter(jf, i + 1).Returned?
    ensures Gained(spec, w, u') || u' == u.(controller := Busy(u.controller.version, Deploying(jf, Enter(jf, i + 1))))
  {
    PastMeans(jf, u.templates, Cache(u), i, Enter(jf, i));
    EnterAtFlow(jf, u.templates, Cache(u), i);
    hide AtFlow, Unstopped, GetsPast, LeftAlone, OwnStep, SameSpec, Gained, Enter;
    var end;
    ws', end := RunFlow(spec, w, ws, u, jf, i, Enter(jf, i));
    u' := u.(controller := Busy(u.controller.version, Deploying(jf, end)));
    if end.Create? && AtFlow(jf, u.templates, Cache(u), i, end) {
      PastMeans(jf, u.templates, Cache(u), i, end);
      if JobKey(jf, jf.flows[i].name) in Now(u) {
        var next := ExistsStep(spec, u', jf, end);
        ws' := Extend(spec, w, ws', next);
        u' := next;
      } else {
        ws', u' := CreateGains(spec, w, ws', u', jf, end);
      }
    }
  }

  /** With the cache caught up, the pass creates the Job of a flow that is ready. */
  lemma StartFlow(spec: JobFlowValue, w: World, ws: seq<World>, u: World, jf: JobFlowValue, i: nat)
    returns (ws': seq<World>, u': World)
    requires LeftAlone(spec, w, ws) && EndsIn(ws, u) && Bounds(w) && Bounds(u) && u.jobs == w.jobs && SameSpec(spec, jf)
    requires i < |jf.flows| && u.seen == |u.jobs| - 1 && Ready(jf, i, Now(w)) && BaseOf(jf, jf.flows[i], u.templates).Some?
    requires !Enter(jf, i).Returned? && u.controller.Busy? && u.controller.pc == Deploying(jf, Enter(jf, i))
    ensures LeftAlone(spec, w, ws') && EndsIn(ws', u') && Bounds(u') && Gained(spec, w, u')
  {
    ReadyMeans(jf, u.templates, Cache(u), i, Enter(jf, i));
    EnterAtFlow(jf, u.templates, Cache(u), i);
    hide AtFlow, Unstopped, LeftAlone, OwnStep, SameSpec, Gained, Enter, Ready;
    var end;
    ws', end := RunFlow(spec, w, ws, u, jf, i, Enter(jf, i));
    u' := u.(controller := Busy(u.controller.version, Deploying(jf, end)));
    NotThroughReady(jf, Cache(u), i, end);
    ReadyMeans(jf, u.templates, Cache(u), i, end);
    ws', u' := CreateGains(spec, w, ws', u', jf, end);
  }

  lemma SamePast(spec: JobFlowValue, jf: JobFlowValue, templates: map<Key, SpecValue>, jobs: Jobs, i: nat)
    requires SameSpec(spec, jf) && i < |spec.flows|
    ensures GetsPast(jf, templates, jobs, i) <==> GetsPast(spec, templates, jobs, i)
    ensures Ready(jf, i, jobs) <==> Ready(spec, i, jobs)
    ensures BaseOf(jf, jf.flows[i], templates) == BaseOf(spec, spec.flows[i], templates)
  {
    assert jf.flows == spec.flows;
    assert forall d :: JobKey(jf, d) == JobKey(spec, d);
    hide HasSucceeded, HasFailed, JobKey;
    assert forall j :: Breaks(jf, jf.flows[i].dependencies, jobs, j) <==> Breaks(spec, spec.flows[i].dependencies, jobs, j);
  }

  /** The cache catches up as far as this entry. */
  lemma CatchUp(spec: JobFlowValue, w: World, ws: seq<World>, u: World, g: nat) returns (ws': seq<World>, u': World)
    requires LeftAlone(spec, w, ws) && EndsIn(ws, u) && Bounds(u) && u.seen <= g < |u.jobs|
    ensures LeftAlone(spec, w, ws') && EndsIn(ws', u') && Bounds(u') && u' == u.(seen := g)
  {
    u' := u.(seen := g);
    assert Observe(u, u');
    ws' := Extend(spec, w, ws, u');
  }

  /** A pass at flow m follows the schedule to the flow that is ready. */
  lemma Follow(spec: JobFlowValue, w: World, ws: seq<World>, u: World, jf: JobFlowValue, h: seq<nat>, m: nat)
    returns (ws': seq<World>, u': World)
    requires LeftAlone(spec, w, ws) && EndsIn(ws, u) && Bounds(w) && Bounds(u) && u.jobs == w.jobs && SameSpec(spec, jf)
    requires u.templates == w.templates && Leads(spec, w, Now(w), h) && m <= |h| && w.seen <= u.seen
    requires forall n :: m <= n < |h| ==> u.seen <= h[n]
    requires !Enter(jf, m).Returned? && u.controller.Busy? && u.controller.pc == Deploying(jf, Enter(jf, m))
    ensures LeftAlone(spec, w, ws') && EndsIn(ws', u') && Bounds(u') && Gained(spec, w, u')
    decreases |h| - m
  {
    SamePast(spec, jf, w.templates, if m < |h| then w.jobs[h[m]] else Now(w), m);
    assert |jf.flows| == |spec.flows|;
    hide LeftAlone, OwnStep, GetsPast, Ready, BaseOf, Gained, SameSpec, Enter;
    if m == |h| {
      var u0;
      ws', u0 := CatchUp(spec, w, ws, u, |u.jobs| - 1);
      ws', u' := StartFlow(spec, w, ws', u0, jf, m);
    } else {
      var u0;
      ws', u0 := CatchUp(spec, w, ws, u, h[m]);
      ws', u' := PassFlow(spec, w, ws', u0, jf, m);
      if !Gained(spec, w, u') {
        ws', u' := Follow(spec, w, ws', u', jf, h, m + 1);
      }
    }
  }

  /** A reconcile starts and reads version v. */
  lemma ReadVersion(spec: JobFlowValue, w: World, v: int) returns (ws: seq<World>, u: World, jf: JobFlowValue)
    requires Bounds(w) && w.controller == Idle && Readable(w, v) && |spec.flows| > 0
    ensures jf == At(spec, w.flow[v]) && LeftAlone(spec, w, ws) && EndsIn(ws, u) && !Enter(jf, 0).Returned?
    ensures Bounds(u) && u.jobs == w.jobs && u.seen == w.seen && u.templates == w.templates
    ensures u.controller.Busy? && u.controller.pc == Deploying(jf, Enter(jf, 0))
  {
    jf := At(spec, w.flow[v]);
    ws := [w];
    var u1 := w.(flowSeen := v);
    assert Observe(w, u1);
    ws := Extend(spec, w, ws, u1);
    var u2 := u1.(controller := Busy(0, ReadJobFlow));
    ws := Extend(spec, w, ws, u2);
    u := u2.(controller := Busy(v, Deploying(jf, Enter(jf, 0))));
    assert Called(spec, u2, JobFlowFound(jf), u);
    ws := Extend(spec, w, ws, u);
  }

  /** A readable version and a schedule that leads to a ready flow are enough. */
  lemma ReadThenCreate(spec: JobFlowValue, w: World, v: int, h: seq<nat>) returns (ws: seq<World>, u: World)
    requires Bounds(w) && w.controller == Idle && Readable(w, v) && Leads(spec, w, Now(w), h)
    ensures LeftAlone(spec, w, ws) && EndsIn(ws, u) && Bounds(u) && Gained(spec, w, u)
  {
    hide LeftAlone, Enter, GetsPast, Ready, BaseOf, Gained;
    var jf;
    ws, u, jf := ReadVersion(spec, w, v);
    ws, u := Follow(spec, w, ws, u, jf, h, 0);
  }

  /** With no reconcile under way, however far the caches lag behind: the controller, left alone, can create a Job of
      the JobFlow exactly when it can still read a version that has not failed and some flow can be started. */
  lemma GrowsExactly(spec: JobFlowValue, w: World)
    requires Bounds(w) && w.controller == Idle && Monotone(spec, w)
    ensures (exists ws :: LeftAlone(spec, w, ws) && Gained(spec, w, ws[|ws| - 1])) <==>
            CanRead(w) && CanStart(spec, w, Now(w))
  {
    hide Gained, OwnStep, Leads, Calm, Monotone;
    if CanRead(w) && CanStart(spec, w, Now(w)) {
      var v :| Readable(w, v);
      var h :| Leads(spec, w, Now(w), h);
      var ws, u := ReadThenCreate(spec, w, v, h);
      assert LeftAlone(spec, w, ws) && Gained(spec, w, ws[|ws| - 1]);
    }
    if ws :| LeftAlone(spec, w, ws) && Gained(spec, w, ws[|ws| - 1]) {
      CalmUnlessStarted(spec, w, ws, |ws| - 1);
      if Calm(spec, w, Now(w), ws[|ws| - 1]) {
        CalmGainsNothing(spec, w, Now(w), ws[|ws| - 1]);
      }
    }
  }

  /** With an up-to-date cache, a flow can be started exactly when one is startable. */
  lemma CanStartWhenCurrent(spec: JobFlowValue, w: World)
    requires Bounds(w) && w.seen == |w.jobs| - 1
    ensures CanStart(spec, w, Now(w)) <==> SomeStartable(spec, w.templates, Now(w))
  {
    if h :| Leads(spec, w, Now(w), h) {
      forall m | 0 <= m < |h|
        ensures !Halts(spec, w.templates, Now(w), m)
      {
        ScheduleNoHalt(spec, w, h, m);
      }
      assert Startable(spec, w.templates, Now(w), |h|);
    }
    if n :| Startable(spec, w.templates, Now(w), n) {
      var h := PastOrReady(spec, w, Now(w), n);
      assert Leads(spec, w, Now(w), h);
    }
  }

  /** So with an up-to-date cache the condition is a readable version that has not failed and a startable flow. */
  lemma GrowsWhenCurrent(spec: JobFlowValue, w: World)
    requires Bounds(w) && w.controller == Idle && w.seen == |w.jobs| - 1
    ensures (exists ws :: LeftAlone(spec, w, ws) && Gained(spec, w, ws[|ws| - 1])) <==>
            CanRead(w) && SomeStartable(spec, w.templates, Now(w))
  {
    hide LeftAlone, Gained, CanStart, SomeStartable;
    GrowsExactly(spec, w);
    CanStartWhenCurrent(spec, w);
  }

  /** However far the cache lags behind, a startable flow can be started: the cache may catch up first. */
  lemma StartableIsEnough(spec: JobFlowValue, w: World)
    requires Bounds(w) && SomeStartable(spec, w.templates, Now(w))
    ensures CanStart(spec, w, Now(w))
  {
    var current := w.(seen := |w.jobs| - 1);
    hide SomeStartable, GetsPast, Ready, BaseOf;
    CanStartWhenCurrent(spec, current);
    var h :| Leads(spec, current, Now(w), h);
    assert Leads(spec, w, Now(w), h);
  }
}

/**
 Which flows a pass can start when its reads come from a cache that lags behind and catches
 up on the way: the flows before must let it past at entries of the history that it can
 read in this order.
 */
module Lagging {
  import opened Kube
  import opened JobFlows
  import opened Render
  import opened Machine
  import opened Deploy
  import opened Passes
  import opened Reconciling
  import opened Runs

  /** The next read of the JobFlow can show this version, and it has not failed. */
  predicate Readable(w: World, v: int) {
    w.flowSeen <= v < |w.flow| && w.flow[v].Stored? && w.flow[v].status.state != FAILED
  }

  ghost predicate CanRead(w: World) {
    exists v :: Readable(w, v)
  }

  /** The JobFlow has got a Job it did not have. */
  ghost predicate Gained(spec: JobFlowValue, w: World, w': World)
    requires Bounds(w) && Bounds(w')
  {
    exists k :: MentionedKey(spec, k) && k in Now(w') && k !in Now(w)
  }

  predicate Good(jobs: Jobs, k: Key) {
    HasSucceeded(jobs, k) && !HasFailed(jobs, k)
  }

  /** From one moment to a later one, Jobs under the names stay, and so do failure and success. */
  ghost predicate Sticky(spec: JobFlowValue, a: Jobs, b: Jobs) {
    forall k :: MentionedKey(spec, k) ==>
      && (k in a ==> k in b) && (HasFailed(a, k) ==> HasFailed(b, k)) && (Good(a, k) ==> Good(b, k))
  }

  /** What the cache can still show is in order; so it is in every run without Job deletions. */
  ghost predicate Monotone(spec: JobFlowValue, w: World)
    requires Bounds(w)
  {
    forall a, b :: w.seen <= a <= b < |w.jobs| ==> Sticky(spec, w.jobs[a], w.jobs[b])
  }

  /** A pass that looks flow m up in these Jobs goes on to the next flow: the Job is there, or the dependencies neither
      stop the pass nor lead it to a Create that would end it because the Job exists after all. */
  ghost predicate GetsPast(jf: JobFlowValue, templates: map<Key, SpecValue>, jobs: Jobs, m: int)
    requires 0 <= m < |jf.flows|
  {
    var flow := jf.flows[m];
    && BaseOf(jf, flow, templates).Some?
    && (JobKey(jf, flow.name) in jobs ||
        ((flow.dependencies == [] || !Met(jf, flow.dependencies, jobs)) &&
         forall j :: !Breaks(jf, flow.dependencies, jobs, j)))
  }

  /** Entries of the history, in the order a cache can show them, at which a pass gets past the first flows. */
  ghost predicate Schedule(spec: JobFlowValue, w: World, h: seq<nat>) {
    && |h| <= |spec.flows|
    && (forall m :: 0 <= m < |h| ==> w.seen <= h[m] < |w.jobs| && GetsPast(spec, w.templates, w.jobs[h[m]], m))
    && (forall m, n :: 0 <= m < n < |h| ==> h[m] <= h[n])
  }

  /** Past the flows of the schedule there is one that is ready in these Jobs. */
  ghost predicate Leads(spec: JobFlowValue, w: World, goal: Jobs, h: seq<nat>) {
    && Schedule(spec, w, h) && |h| < |spec.flows|
    && Ready(spec, |h|, goal) && BaseOf(spec, spec.flows[|h|], w.templates).Some?
  }

  /** Some flow can be started, on the way to the moment when the Jobs are these. */
  ghost predicate CanStart(spec: JobFlowValue, w: World, goal: Jobs) {
    exists h :: Leads(spec, w, goal, h)
  }

  // ---- with an up-to-date cache, that is being startable ----

  lemma PastIsNoHalt(jf: JobFlowValue, templates: map<Key, SpecValue>, jobs: Jobs, m: nat)
    requires m < |jf.flows|
    ensures GetsPast(jf, templates, jobs, m) ==> !Halts(jf, templates, jobs, m)
    ensures !Halts(jf, templates, jobs, m) && !GetsPast(jf, templates, jobs, m) ==>
              Ready(jf, m, jobs) && BaseOf(jf, jf.flows[m], templates).Some?
  {
    hide Breaks, Met;
  }

  /** Before a flow that no halting flow precedes, all flows let the pass past or one of them is ready itself. */
  lemma {:induction false} PastOrReady(spec: JobFlowValue, w: World, now: Jobs, n: nat) returns (h: seq<nat>)
    requires Bounds(w) && w.seen == |w.jobs| - 1 && now == Now(w) && n <= |spec.flows|
    requires forall m :: 0 <= m < n ==> !Halts(spec, w.templates, now, m)
    ensures Schedule(spec, w, h) && |h| <= n
    ensures |h| < n ==> Ready(spec, |h|, now) && BaseOf(spec, spec.flows[|h|], w.templates).Some?
  {
    hide Halts, GetsPast, Ready, BaseOf;
    if n == 0 {
      h := [];
    } else {
      h := PastOrReady(spec, w, now, n - 1);
      if |h| == n - 1 {
        PastIsNoHalt(spec, w.templates, now, n - 1);
        if GetsPast(spec, w.templates, now, n - 1) {
          h := h + [w.seen];
        }
      }
    }
  }

  lemma ScheduleNoHalt(spec: JobFlowValue, w: World, h: seq<nat>, m: nat)
    requires Bounds(w) && w.seen == |w.jobs| - 1 && Schedule(spec, w, h) && m < |h|
    ensures !Halts(spec, w.templates, Now(w), m)
  {
    assert GetsPast(spec, w.templates, w.jobs[h[m]], m) && h[m] == w.seen;
    hide GetsPast, Halts;
    PastIsNoHalt(spec, w.templates, Now(w), m);
  }

  // ---- passes under lag ----

  /** What a pass reads from the cache. */
  ghost predicate FromCache(templates: map<Key, SpecValue>, cache: Jobs, req: Request, resp: Response) {
    match req
    case GetTemplate(k) => resp.TemplateFound? ==> k in templates && resp.spec == templates[k]
    case GetJob(k) => (resp.JobFound? ==> k in cache && resp.job == cache[k]) && (resp.NotFound? ==> k !in cache)
    case _ => true
  }

  /** A pass can have got past the first i flows by the time the cache shows entry b. */
  ghost predicate Reached(spec: JobFlowValue, w: World, i: nat, b: int) {
    exists h :: Schedule(spec, w, h) && |h| == i && (i > 0 ==> h[i - 1] <= b)
  }

  /** Flow i was looked up at entry g, and its first j dependencies were read at later ones. */
  ghost predicate LookedUp(spec: JobFlowValue, w: World, best: Jobs, history: seq<Jobs>, i: nat, j: nat, met: bool, g: nat)
    requires i < |spec.flows| && j <= |spec.flows[i].dependencies|
  {
    var dependencies := spec.flows[i].dependencies;
    && w.seen <= g < |history| && Reached(spec, w, i, g)
    && JobKey(spec, spec.flows[i].name) !in history[g]
    && (forall m :: 0 <= m < j ==> !HasFailed(history[g], JobKey(spec, dependencies[m])))
    && (if met then forall m :: 0 <= m < j ==> Good(best, JobKey(spec, dependencies[m]))
        else exists m :: 0 <= m < j && !Good(history[g], JobKey(spec, dependencies[m])))
  }

  /** What the history and the cache say when the pass is at this call. */
  ghost predicate Got(spec: JobFlowValue, w: World, best: Jobs, history: seq<Jobs>, seen: nat, pc: Pc)
    requires ValidPc(spec, pc)
  {
    match pc
    case FetchTemplate(i) => Reached(spec, w, i, seen)
    case Lookup(i, base) => Reached(spec, w, i, seen) && BaseOf(spec, spec.flows[i], w.templates) == Some(base)
    case CheckDependency(i, base, j, met) =>
      && BaseOf(spec, spec.flows[i], w.templates) == Some(base)
      && exists g: nat :: g <= seen && LookedUp(spec, w, best, history, i, j, met, g)
    case Create(i, base) =>
      && BaseOf(spec, spec.flows[i], w.templates) == Some(base)
      && exists g: nat :: g <= seen && LookedUp(spec, w, best, history, i, |spec.flows[i].dependencies|, true, g)
    case Returned(_) => true
  }

  /** Everything known about a later history in which nothing has been gained. */
  ghost predicate NothingGained(spec: JobFlowValue, w: World, best: Jobs, history: seq<Jobs>)
    requires Bounds(w)
  {
    && w.jobs <= history
    && (forall a, b :: w.seen <= a <= b < |history| ==> Sticky(spec, history[a], history[b]))
    && (forall b, k :: |w.jobs| <= b < |history| && MentionedKey(spec, k) && k in history[b] ==> k in Now(w))
    && (forall b, k :: w.seen <= b < |history| && MentionedKey(spec, k) && Good(history[b], k) ==> Good(best, k))
  }

  /** Flow m lets the pass past at an entry of the history; then it does so at one w knows. */
  lemma PastAtNow(spec: JobFlowValue, templates: map<Key, SpecValue>, now: Jobs, later: Jobs, m: nat)
    requires m < |spec.flows| && Sticky(spec, now, later) && GetsPast(spec, templates, later, m)
    requires forall k :: MentionedKey(spec, k) && k in later ==> k in now
    ensures GetsPast(spec, templates, now, m)
  {
    var dependencies := spec.flows[m].dependencies;
    FlowMentioned(spec, m);
    hide MentionedKey, HasSucceeded, HasFailed, BaseOf;
    if Met(spec, dependencies, now) {
      StillMet(spec, now, later, dependencies);
    }
    if j :| Breaks(spec, dependencies, now, j) {
      StillBreaks(spec, now, later, dependencies, j);
    }
  }

  lemma StillMet(spec: JobFlowValue, now: Jobs, later: Jobs, dependencies: seq<string>)
    requires Met(spec, dependencies, now) && Sticky(spec, now, later)
    requires forall d :: d in dependencies ==> MentionedKey(spec, JobKey(spec, d))
    ensures Met(spec, dependencies, later)
  {
    hide MentionedKey, HasSucceeded, HasFailed;
    forall d | d in dependencies
      ensures Good(later, JobKey(spec, d))
    {
      assert Good(now, JobKey(spec, d));
    }
  }

  lemma StillBreaks(spec: JobFlowValue, now: Jobs, later: Jobs, dependencies: seq<string>, j: int)
    requires Breaks(spec, dependencies, now, j) && Sticky(spec, now, later)
    requires forall d :: d in dependencies ==> MentionedKey(spec, JobKey(spec, d))
    ensures Breaks(spec, dependencies, later, j)
  {
    hide MentionedKey, HasSucceeded, HasFailed;
    forall m | 0 <= m <= j
      ensures MentionedKey(spec, JobKey(spec, dependencies[m]))
    {
      assert dependencies[m] in dependencies;
    }
  }

  lemma ScheduleOn(spec: JobFlowValue, w: World, h: seq<nat>, g: nat)
    requires Schedule(spec, w, h) && |h| < |spec.flows| && w.seen <= g < |w.jobs|
    requires GetsPast(spec, w.templates, w.jobs[g], |h|) && (h != [] ==> h[|h| - 1] <= g)
    ensures Schedule(spec, w, h + [g])
  {
    hide GetsPast;
    var h' := h + [g];
    assert forall m :: 0 <= m < |h| ==> h'[m] == h[m] <= g;
  }

  /** A pass that got past flow i, looked up at entry g, has got past one flow more. */
  lemma ReachedNext(spec: JobFlowValue, w: World, best: Jobs, history: seq<Jobs>, i: nat, g: nat, seen: nat)
    requires Bounds(w) && NothingGained(spec, w, best, history) && i < |spec.flows| && w.seen <= g <= seen && g < |history|
    requires Reached(spec, w, i, g) && GetsPast(spec, w.templates, history[g], i)
    ensures Reached(spec, w, i + 1, seen)
  {
    var h :| Schedule(spec, w, h) && |h| == i && (i > 0 ==> h[i - 1] <= g);
    var g' := EntryAtNow(spec, w, best, history, i, g);
    hide GetsPast, NothingGained;
    assert i > 0 ==> h[i - 1] <= g';
    ScheduleOn(spec, w, h, g');
    assert Schedule(spec, w, h + [g']) && (h + [g'])[i] == g';
  }

  lemma EntryAtNow(spec: JobFlowValue, w: World, best: Jobs, history: seq<Jobs>, i: nat, g: nat) returns (g': nat)
    requires Bounds(w) && NothingGained(spec, w, best, history) && i < |spec.flows| && w.seen <= g < |history|
    requires GetsPast(spec, w.templates, history[g], i)
    ensures w.seen <= g' < |w.jobs| && g' == (if g < |w.jobs| then g else |w.jobs| - 1)
    ensures GetsPast(spec, w.templates, w.jobs[g'], i)
  {
    hide GetsPast, MentionedKey, Good;
    var last := |w.jobs| - 1;
    g' := if g < |w.jobs| then g else last;
    assert w.jobs[g'] == history[g'];
    if g >= |w.jobs| {
      assert Sticky(spec, history[last], history[g]);
      hide Sticky;
      PastAtNow(spec, w.templates, Now(w), history[g], i);
    }
  }

  lemma ReachedLater(spec: JobFlowValue, w: World, i: nat, b: int, b': int)
    requires Reached(spec, w, i, b) && b <= b'
    ensures Reached(spec, w, i, b')
  {
  }

  lemma GotStays(spec: JobFlowValue, w: World, best: Jobs, history: seq<Jobs>, seen: nat, history': seq<Jobs>, seen': nat, pc: Pc)
    requires ValidPc(spec, pc) && Got(spec, w, best, history, seen, pc) && history <= history' && seen <= seen'
    ensures Got(spec, w, best, history', seen', pc)
  {
    hide Reached, BaseOf, Good;
    match pc
    case FetchTemplate(i) => ReachedLater(spec, w, i, seen, seen');
    case Lookup(i, _) => ReachedLater(spec, w, i, seen, seen');
    case CheckDependency(i, _, j, met) =>
      var g: nat :| g <= seen && LookedUp(spec, w, best, history, i, j, met, g);
      assert history'[g] == history[g];
      assert LookedUp(spec, w, best, history', i, j, met, g);
    case Create(i, _) =>
      var n := |spec.flows[i].dependencies|;
      var g: nat :| g <= seen && LookedUp(spec, w, best, history, i, n, true, g);
      assert history'[g] == history[g];
      assert LookedUp(spec, w, best, history', i, n, true, g);
    case Returned(_) =>
  }

  lemma GotAtHead(spec: JobFlowValue, w: World, best: Jobs, history: seq<Jobs>, seen: nat, i: nat)
    requires i <= |spec.flows| && Reached(spec, w, i, seen)
    ensures Got(spec, w, best, history, seen, Enter(spec, i))
  {
    hide Reached;
  }

  lemma GotFetched(spec: JobFlowValue, w: World, best: Jobs, history: seq<Jobs>, seen: nat, pc: Pc, resp: Response)
    requires ValidPc(spec, pc) && pc.FetchTemplate? && Got(spec, w, best, history, seen, pc)
    requires seen < |history| && Fits(RequestOf(spec, pc), resp) && FromCache(w.templates, history[seen], RequestOf(spec, pc), resp)
    ensures Got(spec, w, best, history, seen, Next(spec, pc, resp))
  {
    hide Reached;
  }

  /** The Job of flow i is there. */
  lemma GotFound(spec: JobFlowValue, w: World, best: Jobs, history: seq<Jobs>, seen: nat, i: nat)
    requires Bounds(w) && NothingGained(spec, w, best, history) && w.seen <= seen < |history| && i < |spec.flows|
    requires Reached(spec, w, i, seen) && BaseOf(spec, spec.flows[i], w.templates).Some?
    requires JobKey(spec, spec.flows[i].name) in history[seen]
    ensures Got(spec, w, best, history, seen, Enter(spec, i + 1))
  {
    assert GetsPast(spec, w.templates, history[seen], i);
    hide Reached, NothingGained, BaseOf, GetsPast, Got;
    ReachedNext(spec, w, best, history, i, seen, seen);
    GotAtHead(spec, w, best, history, seen, i + 1);
  }

  lemma GotLookedUp(spec: JobFlowValue, w: World, best: Jobs, history: seq<Jobs>, seen: nat, pc: Pc, resp: Response)
    requires Bounds(w) && NothingGained(spec, w, best, history) && w.seen <= seen < |history|
    requires ValidPc(spec, pc) && pc.Lookup? && Got(spec, w, best, history, seen, pc)
    requires Fits(RequestOf(spec, pc), resp) && FromCache(w.templates, history[seen], RequestOf(spec, pc), resp)
    ensures Got(spec, w, best, history, seen, Next(spec, pc, resp))
  {
    hide Reached, NothingGained, BaseOf, Enter;
    if resp.JobFound? {
      GotFound(spec, w, best, history, seen, pc.flow);
    } else if resp.NotFound? {
      assert LookedUp(spec, w, best, history, pc.flow, 0, true, seen);
    }
  }

  /** The scan of flow i has come to an end without a Create. */
  lemma ScanPasses(spec: JobFlowValue, w: World, best: Jobs, history: seq<Jobs>, i: nat, j: nat, met: bool, g: nat)
    requires i < |spec.flows| && BaseOf(spec, spec.flows[i], w.templates).Some? && j <= |spec.flows[i].dependencies|
    requires LookedUp(spec, w, best, history, i, j, met, g)
    requires if j < |spec.flows[i].dependencies| then JobKey(spec, spec.flows[i].dependencies[j]) !in history[g]
             else !met || spec.flows[i].dependencies == []
    ensures GetsPast(spec, w.templates, history[g], i)
  {
    var dependencies := spec.flows[i].dependencies;
    hide Reached, BaseOf;
    if j < |dependencies| {
      assert dependencies[j] in dependencies;
    } else if !met {
      var m :| 0 <= m < j && !Good(history[g], JobKey(spec, dependencies[m]));
      assert dependencies[m] in dependencies;
    }
  }

  /** What reading dependency j at a later entry says about the one at which the flow was looked up. */
  lemma DependencyRead(spec: JobFlowValue, w: World, best: Jobs, history: seq<Jobs>, i: nat, j: nat, g: nat, seen: nat)
    requires Bounds(w) && NothingGained(spec, w, best, history) && w.seen <= g <= seen < |history|
    requires i < |spec.flows| && j < |spec.flows[i].dependencies|
    requires !HasFailed(history[seen], JobKey(spec, spec.flows[i].dependencies[j]))
    ensures var k := JobKey(spec, spec.flows[i].dependencies[j]);
            && !HasFailed(history[g], k)
            && (if HasSucceeded(history[seen], k) then Good(best, k) else !Good(history[g], k))
  {
    var k := JobKey(spec, spec.flows[i].dependencies[j]);
    FlowMentioned(spec, i);
    assert spec.flows[i].dependencies[j] in spec.flows[i].dependencies;
    assert Sticky(spec, history[g], history[seen]);
    hide MentionedKey, HasSucceeded, HasFailed;
    assert Good(history[seen], k) ==> Good(best, k);
  }

  lemma LookedUpMore(spec: JobFlowValue, w: World, best: Jobs, history: seq<Jobs>, i: nat, j: nat, met: bool, g: nat, seen: nat)
    requires Bounds(w) && NothingGained(spec, w, best, history) && g <= seen < |history|
    requires i < |spec.flows| && j < |spec.flows[i].dependencies| && LookedUp(spec, w, best, history, i, j, met, g)
    requires !HasFailed(history[seen], JobKey(spec, spec.flows[i].dependencies[j]))
    ensures var ok := HasSucceeded(history[seen], JobKey(spec, spec.flows[i].dependencies[j]));
            LookedUp(spec, w, best, history, i, j + 1, met && ok, g)
  {
    DependencyRead(spec, w, best, history, i, j, g, seen);
    hide Reached, NothingGained, HasSucceeded, HasFailed, Good, JobKey;
    if !met {
      var m :| 0 <= m < j && !Good(history[g], JobKey(spec, spec.flows[i].dependencies[m]));
    }
  }

  /** The scan over, the pass is at the next flow. */
  lemma GotPast(spec: JobFlowValue, w: World, best: Jobs, history: seq<Jobs>, i: nat, j: nat, met: bool, g: nat, seen: nat)
    requires Bounds(w) && NothingGained(spec, w, best, history) && i < |spec.flows| && j <= |spec.flows[i].dependencies|
    requires BaseOf(spec, spec.flows[i], w.templates).Some? && g <= seen && LookedUp(spec, w, best, history, i, j, met, g)
    requires if j < |spec.flows[i].dependencies| then JobKey(spec, spec.flows[i].dependencies[j]) !in history[g]
             else !met || spec.flows[i].dependencies == []
    ensures Got(spec, w, best, history, seen, Enter(spec, i + 1))
  {
    hide LookedUp, NothingGained, GetsPast, BaseOf, Reached;
    LookedUpParts(spec, w, best, history, i, j, met, g);
    ScanPasses(spec, w, best, history, i, j, met, g);
    ReachedNext(spec, w, best, history, i, g, seen);
    GotAtHead(spec, w, best, history, seen, i + 1);
  }

  /** The next dependency is missing. */
  lemma GotMissing(spec: JobFlowValue, w: World, best: Jobs, history: seq<Jobs>, seen: nat, i: nat, j: nat, met: bool)
    requires Bounds(w) && NothingGained(spec, w, best, history) && i < |spec.flows| && j < |spec.flows[i].dependencies|
    requires BaseOf(spec, spec.flows[i], w.templates).Some? && seen < |history|
    requires exists g: nat :: g <= seen && LookedUp(spec, w, best, history, i, j, met, g)
    requires JobKey(spec, spec.flows[i].dependencies[j]) !in history[seen]
    ensures Got(spec, w, best, history, seen, Enter(spec, i + 1))
  {
    var g: nat :| g <= seen && LookedUp(spec, w, best, history, i, j, met, g);
    LookedUpParts(spec, w, best, history, i, j, met, g);
    hide LookedUp, NothingGained, BaseOf, Reached, Got;
    Missing(spec, w, best, history, i, j, g, seen);
    GotPast(spec, w, best, history, i, j, met, g, seen);
  }

  /** The next dependency is there and has not failed. */
  lemma GotMore(spec: JobFlowValue, w: World, best: Jobs, history: seq<Jobs>, seen: nat, i: nat, base: SpecValue, j: nat, met: bool)
    requires Bounds(w) && NothingGained(spec, w, best, history) && i < |spec.flows| && j < |spec.flows[i].dependencies|
    requires BaseOf(spec, spec.flows[i], w.templates) == Some(base) && seen < |history|
    requires exists g: nat :: g <= seen && LookedUp(spec, w, best, history, i, j, met, g)
    requires !HasFailed(history[seen], JobKey(spec, spec.flows[i].dependencies[j]))
    ensures var met' := met && HasSucceeded(history[seen], JobKey(spec, spec.flows[i].dependencies[j]));
            Got(spec, w, best, history, seen,
                if j + 1 < |spec.flows[i].dependencies| then CheckDependency(i, base, j + 1, met')
                else if met' then Create(i, base) else Enter(spec, i + 1))
  {
    var g: nat :| g <= seen && LookedUp(spec, w, best, history, i, j, met, g);
    var met' := met && HasSucceeded(history[seen], JobKey(spec, spec.flows[i].dependencies[j]));
    hide LookedUp, NothingGained, BaseOf, Reached, HasSucceeded, HasFailed;
    LookedUpMore(spec, w, best, history, i, j, met, g, seen);
    if j + 1 == |spec.flows[i].dependencies| && !met' {
      GotPast(spec, w, best, history, i, j + 1, met', g, seen);
    }
  }

  lemma GotChecked(spec: JobFlowValue, w: World, best: Jobs, history: seq<Jobs>, seen: nat, pc: Pc, resp: Response)
    requires Bounds(w) && NothingGained(spec, w, best, history) && w.seen <= seen < |history|
    requires ValidPc(spec, pc) && pc.CheckDependency? && Got(spec, w, best, history, seen, pc)
    requires Fits(RequestOf(spec, pc), resp) && FromCache(w.templates, history[seen], RequestOf(spec, pc), resp)
    ensures Got(spec, w, best, history, seen, Next(spec, pc, resp))
  {
    hide LookedUp, NothingGained, BaseOf, Enter;
    if resp.NotFound? {
      GotMissing(spec, w, best, history, seen, pc.flow, pc.dependency, pc.met);
    } else if resp.JobFound? && resp.job.status.failed != 1 {
      GotMore(spec, w, best, history, seen, pc.flow, pc.base, pc.dependency, pc.met);
    }
  }

  lemma Missing(spec: JobFlowValue, w: World, best: Jobs, history: seq<Jobs>, i: nat, j: nat, g: nat, seen: nat)
    requires Bounds(w) && NothingGained(spec, w, best, history) && w.seen <= g <= seen < |history|
    requires i < |spec.flows| && j < |spec.flows[i].dependencies|
    requires JobKey(spec, spec.flows[i].dependencies[j]) !in history[seen]
    ensures JobKey(spec, spec.flows[i].dependencies[j]) !in history[g]
  {
    FlowMentioned(spec, i);
    assert spec.flows[i].dependencies[j] in spec.flows[i].dependencies;
    assert Sticky(spec, history[g], history[seen]);
    hide MentionedKey;
  }

  lemma LookedUpParts(spec: JobFlowValue, w: World, best: Jobs, history: seq<Jobs>, i: nat, j: nat, met: bool, g: nat)
    requires i < |spec.flows| && j <= |spec.flows[i].dependencies| && LookedUp(spec, w, best, history, i, j, met, g)
    ensures w.seen <= g < |history| && Reached(spec, w, i, g)
    ensures JobKey(spec, spec.flows[i].name) !in history[g]
  {
  }

  /** AlreadyExists for a flow that depends on nothing. */
  lemma GotBeyond(spec: JobFlowValue, w: World, best: Jobs, history: seq<Jobs>, seen: nat, i: nat)
    requires Bounds(w) && NothingGained(spec, w, best, history) && i < |spec.flows| && spec.flows[i].dependencies == []
    requires BaseOf(spec, spec.flows[i], w.templates).Some?
    requires exists g: nat :: g <= seen && LookedUp(spec, w, best, history, i, 0, true, g)
    ensures Got(spec, w, best, history, seen, Enter(spec, i + 1))
  {
    hide LookedUp, NothingGained, BaseOf, Reached, Got;
    var g: nat :| g <= seen && LookedUp(spec, w, best, history, i, 0, true, g);
    GotPast(spec, w, best, history, i, 0, true, g, seen);
  }

  /** A Create that cannot gain anything lets the pass go on only if the flow depends on nothing. */
  lemma GotCreated(spec: JobFlowValue, w: World, best: Jobs, history: seq<Jobs>, seen: nat, pc: Pc, resp: Response)
    requires Bounds(w) && NothingGained(spec, w, best, history) && w.seen <= seen < |history|
    requires ValidPc(spec, pc) && pc.Create? && Got(spec, w, best, history, seen, pc)
    requires Fits(RequestOf(spec, pc), resp) && !resp.Done?
    ensures Got(spec, w, best, history, seen, Next(spec, pc, resp))
  {
    hide LookedUp, NothingGained, BaseOf, Enter, Reached, RenderJob;
    if resp.AlreadyExists? && spec.flows[pc.flow].dependencies == [] {
      GotBeyond(spec, w, best, history, seen, pc.flow);
    }
  }

  lemma GotNext(spec: JobFlowValue, w: World, best: Jobs, history: seq<Jobs>, seen: nat, pc: Pc, resp: Response)
    requires Bounds(w) && NothingGained(spec, w, best, history) && w.seen <= seen < |history|
    requires ValidPc(spec, pc) && !pc.Returned? && Got(spec, w, best, history, seen, pc)
    requires Fits(RequestOf(spec, pc), resp) && FromCache(w.templates, history[seen], RequestOf(spec, pc), resp)
    requires pc.Create? ==> !resp.Done?
    ensures Got(spec, w, best, history, seen, Next(spec, pc, resp))
  {
    hide Got, NothingGained, FromCache, Next, Fits, RequestOf;
    match pc
    case FetchTemplate(_) => GotFetched(spec, w, best, history, seen, pc, resp);
    case Lookup(_, _) => GotLookedUp(spec, w, best, history, seen, pc, resp);
    case CheckDependency(_, _, _, _) => GotChecked(spec, w, best, history, seen, pc, resp);
    case Create(_, _) => GotCreated(spec, w, best, history, seen, pc, resp);
  }

  /** A pass about to create a Job that did not exist has found a flow that can be started. */
  lemma CreateLeads(spec: JobFlowValue, w: World, best: Jobs, history: seq<Jobs>, seen: nat, pc: Pc)
    requires Bounds(w) && NothingGained(spec, w, best, history) && ValidPc(spec, pc) && pc.Create? && Got(spec, w, best, history, seen, pc)
    requires JobKey(spec, spec.flows[pc.flow].name) !in best
    ensures CanStart(spec, w, best)
  {
    var i, dependencies := pc.flow, spec.flows[pc.flow].dependencies;
    var g: nat :| g <= seen && LookedUp(spec, w, best, history, i, |dependencies|, true, g);
    forall d | d in dependencies
      ensures Good(best, JobKey(spec, d))
    {
      var m :| 0 <= m < |dependencies| && dependencies[m] == d;
    }
    var h :| Schedule(spec, w, h) && |h| == i && (i > 0 ==> h[i - 1] <= g);
    assert Leads(spec, w, best, h);
  }
}

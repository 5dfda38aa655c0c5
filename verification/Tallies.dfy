/**
 What the computed status is for any listing at all, read off the owner references and the
 counters of the listed Jobs: who is counted, under which text, and with which state.
 */
module Tallies {
  import opened Kube
  import opened JobFlows
  import opened FlowStatus
  import opened Counting

  /** Reference r of the Job names this owner. */
  ghost predicate Refers(job: JobValue, r: int, kind: string, name: string) {
    0 <= r < |job.owners| && job.owners[r].kind == kind && job.owners[r].name == name
  }

  /** Every reference of a listed Job with `Succeeded == 1` counts as one that is completed. */
  ghost function Completed(kind: string, name: string, items: seq<JobValue>): set<(int, int)> {
    set i, r | 0 <= i < |items| && 0 <= r < |items[i].owners| && Refers(items[i], r, kind, name)
               && items[i].status.succeeded == 1 :: (i, r)
  }

  ghost function Broken(kind: string, name: string, items: seq<JobValue>): set<(int, int)> {
    set i, r | 0 <= i < |items| && 0 <= r < |items[i].owners| && Refers(items[i], r, kind, name)
               && items[i].status.succeeded != 1 && items[i].status.failed == 1 :: (i, r)
  }

  ghost function Active(kind: string, name: string, items: seq<JobValue>): set<(int, int)> {
    set i, r | 0 <= i < |items| && 0 <= r < |items[i].owners| && Refers(items[i], r, kind, name)
               && items[i].status.succeeded != 1 && items[i].status.failed != 1 && items[i].status.active == 1 :: (i, r)
  }

  ghost predicate StateTells(kind: string, name: string, deleting: bool, declared: nat, items: seq<JobValue>, state: string) {
    var completed := |Completed(kind, name, items)|;
    state == if deleting then "Terminating"
             else if completed == declared then "Succeed"
             else if Broken(kind, name, items) != {} then "Failed"
             else if Active(kind, name, items) != {} || completed > 0 then "Running"
             else "Pending"
  }

  /** The status map has the text name/namespace of every listed Job that refers to the owner, with its status (that
      of the last one if several share the text), and nothing else. */
  ghost predicate MapTells(kind: string, name: string, items: seq<JobValue>, list: map<string, JobStatus>) {
    && (forall i, r :: 0 <= i < |items| && Refers(items[i], r, kind, name) ==>
          items[i].key.name + "/" + items[i].key.namespace in list)
    && (forall s :: s in list ==> exists i, r :: LastUnder(kind, name, items, i, r, s) && list[s] == items[i].status)
  }

  ghost predicate LastUnder(kind: string, name: string, items: seq<JobValue>, i: int, r: int, s: string) {
    && 0 <= i < |items| && Refers(items[i], r, kind, name) && s == items[i].key.name + "/" + items[i].key.namespace
    && forall j, q :: i < j < |items| && Refers(items[j], q, kind, name) ==> items[j].key.name + "/" + items[j].key.namespace != s
  }

  /** All of the status. */
  ghost predicate Tells(kind: string, name: string, deleting: bool, declared: nat, items: seq<JobValue>, status: JobFlowStatus) {
    StateTells(kind, name, deleting, declared, items, status.state) && MapTells(kind, name, items, status.jobStatusList)
  }

  // ---- counting references ----

  /** The references of one Job, paired with its place in the list. */
  ghost function Pairs(i: int, job: JobValue, n: nat, kind: string, name: string): set<(int, int)>
    requires n <= |job.owners|
  {
    set r | 0 <= r < n && Refers(job, r, kind, name) :: (i, r)
  }

  lemma {:induction false} PairsCount(i: int, job: JobValue, n: nat, kind: string, name: string)
    requires n <= |job.owners|
    ensures |Pairs(i, job, n, kind, name)| == Matches(job.owners[..n], kind, name)
  {
    if n > 0 {
      PairsCount(i, job, n - 1, kind, name);
      assert job.owners[..n][..n - 1] == job.owners[..n - 1];
      assert Pairs(i, job, n, kind, name) ==
             Pairs(i, job, n - 1, kind, name) + if Refers(job, n - 1, kind, name) then {(i, n - 1)} else {};
    }
  }

  /** The number of matching references; none exactly when no reference names the owner. */
  lemma MatchesMeaning(i: int, job: JobValue, kind: string, name: string)
    ensures |Pairs(i, job, |job.owners|, kind, name)| == Matches(job.owners, kind, name)
    ensures Matches(job.owners, kind, name) > 0 <==> exists r :: Refers(job, r, kind, name)
  {
    PairsCount(i, job, |job.owners|, kind, name);
    assert job.owners[..|job.owners|] == job.owners;
    var pairs := Pairs(i, job, |job.owners|, kind, name);
    if r :| Refers(job, r, kind, name) {
      assert (i, r) in pairs;
    }
    if |pairs| > 0 {
      var p :| p in pairs;
    }
  }

  /** The references of the listed Jobs in one phase. */
  ghost function InPhase(kind: string, name: string, items: seq<JobValue>, phase: Phase): set<(int, int)> {
    set i, r | 0 <= i < |items| && 0 <= r < |items[i].owners| && Refers(items[i], r, kind, name)
               && PhaseOf(items[i].status) == phase :: (i, r)
  }

  lemma InPhaseSplit(kind: string, name: string, items: seq<JobValue>, job: JobValue, phase: Phase)
    ensures InPhase(kind, name, items + [job], phase) ==
            InPhase(kind, name, items, phase) +
            if PhaseOf(job.status) == phase then Pairs(|items|, job, |job.owners|, kind, name) else {}
  {
    hide PhaseOf, Refers;
    var all, n := items + [job], |items|;
    assert all[n] == job && forall i :: 0 <= i < n ==> all[i] == items[i];
  }

  lemma InPhaseAppend(kind: string, name: string, items: seq<JobValue>, job: JobValue, phase: Phase)
    ensures |InPhase(kind, name, items + [job], phase)| ==
            |InPhase(kind, name, items, phase)| + if PhaseOf(job.status) == phase then Matches(job.owners, kind, name) else 0
  {
    InPhaseSplit(kind, name, items, job, phase);
    assert InPhase(kind, name, items, phase) !! Pairs(|items|, job, |job.owners|, kind, name);
    hide PhaseOf, Matches, InPhase, Pairs;
    MatchesMeaning(|items|, job, kind, name);
  }

  lemma OneCopyMore(a: seq<JobValue>, job: JobValue, m: nat)
    ensures a + Copies(job, 0) == a
    ensures m > 0 ==> a + Copies(job, m) == a + Copies(job, m - 1) + [job]
  {
  }

  lemma {:induction false} NamesInCopies(phase: Phase, a: seq<JobValue>, job: JobValue, m: nat)
    ensures |NamesIn(phase, a + Copies(job, m))| == |NamesIn(phase, a)| + if PhaseOf(job.status) == phase then m else 0
  {
    OneCopyMore(a, job, m);
    if m > 0 {
      hide Copies, NamesIn, PhaseOf;
      NamesInCopies(phase, a, job, m - 1);
      NamesInAppend(phase, a + Copies(job, m - 1), job);
    }
  }

  lemma OwnedMore(kind: string, name: string, items: seq<JobValue>, job: JobValue)
    ensures OwnedItems(items + [job], kind, name) == OwnedItems(items, kind, name) + Copies(job, Matches(job.owners, kind, name))
  {
    assert (items + [job])[..|items|] == items;
  }

  /** Whoever is listed and however often an owner is named: a name list is as long as there are references. */
  lemma {:induction false} CountReferences(kind: string, name: string, items: seq<JobValue>, phase: Phase)
    ensures |NamesIn(phase, OwnedItems(items, kind, name))| == |InPhase(kind, name, items, phase)|
  {
    if items == [] {
      assert InPhase(kind, name, items, phase) == {};
    } else {
      hide NamesIn, OwnedItems, InPhase, PhaseOf, Matches, Copies;
      var n := |items| - 1;
      var most, last := items[..n], items[n];
      assert items == most + [last];
      CountReferences(kind, name, most, phase);
      OwnedMore(kind, name, most, last);
      NamesInCopies(phase, OwnedItems(most, kind, name), last, Matches(last.owners, kind, name));
      InPhaseAppend(kind, name, most, last, phase);
    }
  }

  lemma PhasesAreCounters(kind: string, name: string, items: seq<JobValue>)
    ensures InPhase(kind, name, items, Succeeded) == Completed(kind, name, items)
    ensures InPhase(kind, name, items, Failed) == Broken(kind, name, items)
    ensures InPhase(kind, name, items, Phase.Running) == Active(kind, name, items)
  {
    hide Refers;
  }

  lemma StateIsTold(kind: string, name: string, deleting: bool, declared: nat, items: seq<JobValue>)
    ensures StateTells(kind, name, deleting, declared, items, StatusFor(kind, name, deleting, declared, items).state)
  {
    CountReferences(kind, name, items, Succeeded);
    CountReferences(kind, name, items, Failed);
    CountReferences(kind, name, items, Phase.Running);
    PhasesAreCounters(kind, name, items);
    hide NamesIn, OwnedItems, InPhase, Completed, Broken, Active, StatusList;
  }

  // ---- the status map ----

  lemma StatusListMore(a: seq<JobValue>, job: JobValue)
    ensures StatusList(a + [job]) == StatusList(a)[StatusKey(job.key) := job.status]
  {
    assert (a + [job])[..|a|] == a;
  }

  lemma {:induction false} StatusListCopies(a: seq<JobValue>, job: JobValue, m: nat)
    ensures StatusList(a + Copies(job, m)) == if m == 0 then StatusList(a) else StatusList(a)[StatusKey(job.key) := job.status]
  {
    OneCopyMore(a, job, m);
    if m > 0 {
      hide Copies, StatusList, StatusKey;
      StatusListCopies(a, job, m - 1);
      StatusListMore(a + Copies(job, m - 1), job);
    }
  }

  lemma MapTellsOther(kind: string, name: string, items: seq<JobValue>, job: JobValue, list: map<string, JobStatus>)
    requires MapTells(kind, name, items, list) && forall r :: !Refers(job, r, kind, name)
    ensures MapTells(kind, name, items + [job], list)
  {
    var all, n := items + [job], |items|;
    assert all[n] == job && forall i :: 0 <= i < n ==> all[i] == items[i];
    hide Refers;
    forall s | s in list
      ensures exists i, r :: LastUnder(kind, name, all, i, r, s) && list[s] == all[i].status
    {
      var i, r :| LastUnder(kind, name, items, i, r, s) && list[s] == items[i].status;
      assert LastUnder(kind, name, all, i, r, s);
    }
  }

  lemma MapTellsMore(kind: string, name: string, items: seq<JobValue>, job: JobValue, list: map<string, JobStatus>, r: int)
    requires MapTells(kind, name, items, list) && Refers(job, r, kind, name)
    ensures MapTells(kind, name, items + [job], list[job.key.name + "/" + job.key.namespace := job.status])
  {
    var all, n := items + [job], |items|;
    var text := job.key.name + "/" + job.key.namespace;
    assert all[n] == job && forall i :: 0 <= i < n ==> all[i] == items[i];
    hide Refers;
    var after := list[text := job.status];
    forall s | s in after
      ensures exists i, r :: LastUnder(kind, name, all, i, r, s) && after[s] == all[i].status
    {
      if s == text {
        assert LastUnder(kind, name, all, n, r, s);
      } else {
        var i, q :| LastUnder(kind, name, items, i, q, s) && list[s] == items[i].status;
        assert LastUnder(kind, name, all, i, q, s);
      }
    }
  }

  lemma {:induction false} MapIsTold(kind: string, name: string, items: seq<JobValue>)
    ensures MapTells(kind, name, items, StatusList(OwnedItems(items, kind, name)))
  {
    if items != [] {
      hide OwnedItems, MapTells, Matches, StatusList, Copies, Refers;
      var n := |items| - 1;
      var most, last := items[..n], items[n];
      assert items == most + [last];
      MapIsTold(kind, name, most);
      OwnedMore(kind, name, most, last);
      StatusListCopies(OwnedItems(most, kind, name), last, Matches(last.owners, kind, name));
      MatchesMeaning(0, last, kind, name);
      if r :| Refers(last, r, kind, name) {
        MapTellsMore(kind, name, most, last, StatusList(OwnedItems(most, kind, name)), r);
      } else {
        MapTellsOther(kind, name, most, last, StatusList(OwnedItems(most, kind, name)));
      }
    }
  }

  /** The status of any listing, in terms of the listed Jobs' own fields. */
  lemma StatusTells(kind: string, name: string, deleting: bool, declared: nat, items: seq<JobValue>)
    ensures Tells(kind, name, deleting, declared, items, StatusFor(kind, name, deleting, declared, items))
  {
    StateIsTold(kind, name, deleting, declared, items);
    MapIsTold(kind, name, items);
    hide StateTells, MapTells, StatusList, OwnedItems, NamesIn;
  }

  // ---- order ----

  /** The text name/namespace of every one of these Jobs with its status, that of the last one under a text. */
  ghost predicate ListTells(jobs: seq<JobValue>, list: map<string, JobStatus>) {
    && (forall i :: 0 <= i < |jobs| ==> jobs[i].key.name + "/" + jobs[i].key.namespace in list)
    && (forall s :: s in list ==> exists i :: LastOf(jobs, i, s) && list[s] == jobs[i].status)
  }

  ghost predicate LastOf(jobs: seq<JobValue>, i: int, s: string) {
    && 0 <= i < |jobs| && s == jobs[i].key.name + "/" + jobs[i].key.namespace
    && forall j :: i < j < |jobs| ==> jobs[j].key.name + "/" + jobs[j].key.namespace != s
  }

  lemma ListTellsMore(jobs: seq<JobValue>, job: JobValue, list: map<string, JobStatus>)
    requires ListTells(jobs, list)
    ensures ListTells(jobs + [job], list[job.key.name + "/" + job.key.namespace := job.status])
  {
    var all, n := jobs + [job], |jobs|;
    var text := job.key.name + "/" + job.key.namespace;
    var after := list[text := job.status];
    assert all[n] == job && forall i :: 0 <= i < n ==> all[i] == jobs[i];
    forall s | s in after
      ensures exists i :: LastOf(all, i, s) && after[s] == all[i].status
    {
      if s == text {
        assert LastOf(all, n, s);
      } else {
        var i :| LastOf(jobs, i, s) && list[s] == jobs[i].status;
        assert LastOf(all, i, s);
      }
    }
  }

  lemma {:induction false} ListIsTold(jobs: seq<JobValue>)
    ensures ListTells(jobs, StatusList(jobs))
  {
    if jobs != [] {
      var n := |jobs| - 1;
      assert jobs == jobs[..n] + [jobs[n]];
      hide ListTells;
      ListIsTold(jobs[..n]);
      ListTellsMore(jobs[..n], jobs[n], StatusList(jobs[..n]));
    }
  }

  /** The counters of a Job in this phase. */
  predicate Counts(s: JobStatus, phase: Phase) {
    match phase
    case Succeeded => s.succeeded == 1
    case Failed => s.succeeded != 1 && s.failed == 1
    case Running => s.succeeded != 1 && s.failed != 1 && s.active == 1
    case Waiting => s.succeeded != 1 && s.failed != 1 && s.active != 1
  }

  /** The names of the Jobs in the phase, in list order. */
  ghost predicate NamesTell(phase: Phase, jobs: seq<JobValue>, names: seq<string>) {
    exists at: seq<int> ::
      AllAt(phase, jobs, at) && |at| == |names| && forall n :: 0 <= n < |at| ==> names[n] == jobs[at[n]].key.name
  }

  ghost predicate AllAt(phase: Phase, jobs: seq<JobValue>, at: seq<int>) {
    && (forall n :: 0 <= n < |at| ==> 0 <= at[n] < |jobs| && Counts(jobs[at[n]].status, phase))
    && (forall m, n :: 0 <= m < n < |at| ==> at[m] < at[n])
    && (forall i :: 0 <= i < |jobs| && Counts(jobs[i].status, phase) ==> i in at)
  }

  lemma {:induction false} NamesInOrder(phase: Phase, jobs: seq<JobValue>) returns (at: seq<int>)
    ensures |at| == |NamesIn(phase, jobs)|
    ensures forall n :: 0 <= n < |at| ==>
              && 0 <= at[n] < |jobs| && PhaseOf(jobs[at[n]].status) == phase && NamesIn(phase, jobs)[n] == jobs[at[n]].key.name
    ensures forall m, n :: 0 <= m < n < |at| ==> at[m] < at[n]
    ensures forall i :: 0 <= i < |jobs| && PhaseOf(jobs[i].status) == phase ==> i in at
  {
    at := [];
    if jobs != [] {
      hide PhaseOf;
      at := NamesInOrder(phase, jobs[..|jobs| - 1]);
      if PhaseOf(jobs[|jobs| - 1].status) == phase {
        at := at + [|jobs| - 1];
      }
    }
  }

  lemma PhaseCounts(s: JobStatus, phase: Phase)
    ensures PhaseOf(s) == phase <==> Counts(s, phase)
  {
  }

  lemma NamesAreTold(phase: Phase, jobs: seq<JobValue>)
    ensures NamesTell(phase, jobs, NamesIn(phase, jobs))
  {
    var at := NamesInOrder(phase, jobs);
    forall i | 0 <= i < |jobs|
      ensures PhaseOf(jobs[i].status) == phase <==> Counts(jobs[i].status, phase)
    {
      PhaseCounts(jobs[i].status, phase);
    }
    hide PhaseOf, Counts, NamesIn;
    assert AllAt(phase, jobs, at);
  }

  /** The matching references of one Job, in order. */
  lemma {:induction false} ReferencesInOrder(job: JobValue, n: nat, kind: string, name: string) returns (refs: seq<int>)
    requires n <= |job.owners|
    ensures |refs| == Matches(job.owners[..n], kind, name)
    ensures forall m :: 0 <= m < |refs| ==> refs[m] < n && Refers(job, refs[m], kind, name)
    ensures forall m, m' :: 0 <= m < m' < |refs| ==> refs[m] < refs[m']
    ensures forall r :: r < n && Refers(job, r, kind, name) ==> r in refs
  {
    refs := [];
    if n > 0 {
      refs := ReferencesInOrder(job, n - 1, kind, name);
      assert job.owners[..n][..n - 1] == job.owners[..n - 1];
      if Refers(job, n - 1, kind, name) {
        refs := refs + [n - 1];
      }
    }
  }

  ghost predicate Earlier(p: (int, int), q: (int, int)) {
    p.0 < q.0 || (p.0 == q.0 && p.1 < q.1)
  }

  lemma CopiesAreSame(job: JobValue, m: nat)
    ensures |Copies(job, m)| == m && forall i :: 0 <= i < m ==> Copies(job, m)[i] == job
  {
  }

  /** These are the matching references of the listed Jobs, in the order of the list. */
  ghost predicate AllInOrder(kind: string, name: string, items: seq<JobValue>, from: seq<(int, int)>) {
    && (forall n :: 0 <= n < |from| ==> 0 <= from[n].0 < |items| && Refers(items[from[n].0], from[n].1, kind, name))
    && (forall m, n :: 0 <= m < n < |from| ==> Earlier(from[m], from[n]))
    && (forall i, r :: 0 <= i < |items| && Refers(items[i], r, kind, name) ==> (i, r) in from)
  }

  lemma OrderMore(kind: string, name: string, items: seq<JobValue>, job: JobValue, from: seq<(int, int)>, refs: seq<int>)
    returns (all: seq<(int, int)>)
    requires AllInOrder(kind, name, items, from)
    requires forall m :: 0 <= m < |refs| ==> Refers(job, refs[m], kind, name)
    requires forall m, m' :: 0 <= m < m' < |refs| ==> refs[m] < refs[m']
    requires forall r :: Refers(job, r, kind, name) ==> r in refs
    ensures AllInOrder(kind, name, items + [job], all) && |all| == |from| + |refs| && from <= all
    ensures forall n :: |from| <= n < |all| ==> all[n].0 == |items|
  {
    hide Refers;
    var more := seq(|refs|, m requires 0 <= m < |refs| => (|items|, refs[m]));
    all := from + more;
    forall i, r | 0 <= i < |items + [job]| && Refers((items + [job])[i], r, kind, name)
      ensures (i, r) in all
    {
      if i == |items| {
        var m :| 0 <= m < |refs| && refs[m] == r;
        assert more[m] == (i, r);
      } else {
        assert (i, r) in from;
      }
    }
  }

  /** The owner filter: one entry for every matching reference of every listed Job, in the order of the list. */
  lemma {:induction false} OwnedInOrder(kind: string, name: string, items: seq<JobValue>) returns (from: seq<(int, int)>)
    ensures AllInOrder(kind, name, items, from) && |from| == |OwnedItems(items, kind, name)|
    ensures forall n :: 0 <= n < |from| ==> OwnedItems(items, kind, name)[n] == items[from[n].0]
  {
    from := [];
    if items != [] {
      var n := |items| - 1;
      var most, last := items[..n], items[n];
      assert items == most + [last];
      hide Refers, Matches, Copies, OwnedItems;
      var before := OwnedInOrder(kind, name, most);
      var refs := ReferencesInOrder(last, |last.owners|, kind, name);
      assert last.owners[..|last.owners|] == last.owners;
      forall r | Refers(last, r, kind, name)
        ensures r in refs
      {
        InRange(last, r, kind, name);
      }
      OwnedMore(kind, name, most, last);
      CopiesAreSame(last, |refs|);
      from := OrderMore(kind, name, most, last, before, refs);
    }
  }

  /** These Jobs are the listed ones, each once for every reference to the owner, in the order of the list. */
  ghost predicate OwnedTells(kind: string, name: string, items: seq<JobValue>, owned: seq<JobValue>) {
    exists from: seq<(int, int)> ::
      AllInOrder(kind, name, items, from) && |from| == |owned| && forall n :: 0 <= n < |from| ==> owned[n] == items[from[n].0]
  }

  lemma OwnedAreTold(kind: string, name: string, items: seq<JobValue>)
    ensures OwnedTells(kind, name, items, OwnedItems(items, kind, name))
  {
    var from := OwnedInOrder(kind, name, items);
  }

  lemma InRange(job: JobValue, r: int, kind: string, name: string)
    requires Refers(job, r, kind, name)
    ensures r < |job.owners|
  {
  }
}

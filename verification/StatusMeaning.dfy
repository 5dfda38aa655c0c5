/**
 What the computed status means.  The controller compares lengths of name lists; when
 every owned Job is declared and has one matching owner reference, that amounts to
 asking whether each declared flow's Job has succeeded.
 */
module StatusMeaning {
  import opened Kube
  import opened JobFlows
  import opened FlowStatus
  import opened Counting
  import Tallies

  ghost predicate IsFlowKey(jf: JobFlowValue, k: Key) {
    exists n :: 0 <= n < |jf.flows| && k == JobKey(jf, jf.flows[n].name)
  }

  /** The Jobs the filter keeps are those under the declared names, each with one matching reference. */
  ghost predicate WellOwned(jf: JobFlowValue, jobs: Jobs) {
    && Filed(jobs)
    && (forall k :: k in jobs ==> Matches(jobs[k].owners, KIND, jf.name) == if IsFlowKey(jf, k) then 1 else 0)
  }

  ghost predicate InPhase(jf: JobFlowValue, jobs: Jobs, phase: Phase, n: nat)
    requires n < |jf.flows|
  {
    var k := JobKey(jf, jf.flows[n].name);
    k in jobs && PhaseOf(jobs[k].status) == phase
  }

  ghost predicate AllSucceeded(jf: JobFlowValue, jobs: Jobs) {
    forall n :: 0 <= n < |jf.flows| ==> InPhase(jf, jobs, Succeeded, n)
  }

  ghost predicate Any(jf: JobFlowValue, jobs: Jobs, phase: Phase) {
    exists n :: 0 <= n < |jf.flows| && InPhase(jf, jobs, phase, n)
  }

  /** The state, flow by flow. */
  ghost function Meaning(jf: JobFlowValue, jobs: Jobs): string {
    if jf.deleting then "Terminating"
    else if AllSucceeded(jf, jobs) then "Succeed"
    else if Any(jf, jobs, Failed) then "Failed"
    else if Any(jf, jobs, Running) || Any(jf, jobs, Succeeded) then "Running"
    else "Pending"
  }

  ghost function FlowKeys(jf: JobFlowValue, n: nat): set<Key>
    requires n <= |jf.flows|
  {
    set i | 0 <= i < n :: JobKey(jf, jf.flows[i].name)
  }

  lemma {:induction false} FlowKeysCount(jf: JobFlowValue, n: nat)
    requires n <= |jf.flows| && DistinctNames(jf)
    ensures |FlowKeys(jf, n)| == n
  {
    if n > 0 {
      FlowKeysCount(jf, n - 1);
      var k := JobKey(jf, jf.flows[n - 1].name);
      forall i | 0 <= i < n - 1
        ensures JobKey(jf, jf.flows[i].name) != k
      {
        JobKeyInjective(jf, jf.flows[i].name, jf.flows[n - 1].name);
      }
      assert FlowKeys(jf, n) == FlowKeys(jf, n - 1) + {k};
    }
  }

  lemma FlowKeysMember(jf: JobFlowValue, k: Key)
    ensures k in FlowKeys(jf, |jf.flows|) <==> IsFlowKey(jf, k)
  {
  }

  lemma OwnsFlowKeys(jf: JobFlowValue, jobs: Jobs)
    requires WellOwned(jf, jobs)
    ensures Owns(KIND, jf.name, FlowKeys(jf, |jf.flows|), jobs)
  {
    forall k | k in jobs
      ensures k in FlowKeys(jf, |jf.flows|) <==> IsFlowKey(jf, k)
    {
      FlowKeysMember(jf, k);
    }
    hide IsFlowKey, Matches;
  }

  /** Flow by flow is the same as key by key. */
  lemma MeaningByKeys(jf: JobFlowValue, jobs: Jobs)
    ensures Meaning(jf, jobs) == MeaningOf(jf.deleting, FlowKeys(jf, |jf.flows|), jobs)
  {
    forall n, phase | 0 <= n < |jf.flows|
      ensures JobKey(jf, jf.flows[n].name) in FlowKeys(jf, |jf.flows|)
      ensures InPhase(jf, jobs, phase, n) <==> KeyInPhase(jobs, JobKey(jf, jf.flows[n].name), phase)
    {
    }
    forall k | k in FlowKeys(jf, |jf.flows|)
      ensures exists n :: 0 <= n < |jf.flows| && k == JobKey(jf, jf.flows[n].name)
    {
    }
    hide InPhase, KeyInPhase, JobKey;
  }

  /** The state a reconcile writes is the one a reader expects, flow by flow. */
  lemma StateMeans(jf: JobFlowValue, jobs: Jobs, items: seq<JobValue>)
    requires DistinctNames(jf) && WellOwned(jf, jobs) && IsListing(items, jobs)
    ensures StatusOf(jf, items).state == Meaning(jf, jobs)
  {
    FlowKeysCount(jf, |jf.flows|);
    OwnsFlowKeys(jf, jobs);
    StateByCounting(KIND, jf.name, jf.deleting, FlowKeys(jf, |jf.flows|), jobs, items);
    MeaningByKeys(jf, jobs);
  }

  ghost predicate OwnedInOrder(jf: JobFlowValue, items: seq<JobValue>) {
    forall i :: 0 <= i < |items| ==>
      Matches(items[i].owners, KIND, jf.name) == if IsFlowKey(jf, items[i].key) then 1 else 0
  }

  /** The status map has one entry for each listed Job under a declared name, and no other. */
  ghost predicate Records(jf: JobFlowValue, items: seq<JobValue>, list: map<string, JobStatus>) {
    && (forall i :: 0 <= i < |items| && IsFlowKey(jf, items[i].key) ==>
          var text := items[i].key.name + "/" + items[i].key.namespace;
          text in list && list[text] == items[i].status)
    && (forall s :: s in list ==> exists i :: 0 <= i < |items| && IsFlowKey(jf, items[i].key) &&
                                              s == items[i].key.name + "/" + items[i].key.namespace)
  }

  /** All owned Jobs live in one namespace, so no two of them share an entry. */
  lemma StatusKeyInjective(jf: JobFlowValue, k: Key, k': Key)
    requires IsFlowKey(jf, k) && IsFlowKey(jf, k') && StatusKey(k) == StatusKey(k')
    ensures k == k'
  {
    var s := StatusKey(k);
    assert |k.name| == |k'.name|;
    assert k.name == s[..|k.name|] && k'.name == s[..|k.name|];
  }

  lemma RecordsAppend(jf: JobFlowValue, items: seq<JobValue>, job: JobValue, list: map<string, JobStatus>)
    requires Records(jf, items, list) && DistinctKeys(items + [job])
    ensures IsFlowKey(jf, job.key) ==> Records(jf, items + [job], list[StatusKey(job.key) := job.status])
    ensures !IsFlowKey(jf, job.key) ==> Records(jf, items + [job], list)
  {
    var all := items + [job];
    assert all[|items|] == job && forall i :: 0 <= i < |items| ==> all[i] == items[i];
    forall i | 0 <= i < |items| && IsFlowKey(jf, items[i].key) && IsFlowKey(jf, job.key)
      ensures StatusKey(items[i].key) != StatusKey(job.key)
    {
      assert all[i].key != all[|items|].key;
      if StatusKey(items[i].key) == StatusKey(job.key) {
        StatusKeyInjective(jf, items[i].key, job.key);
      }
    }
    hide IsFlowKey;
  }

  lemma {:induction false} ListRecords(jf: JobFlowValue, items: seq<JobValue>)
    requires DistinctKeys(items) && OwnedInOrder(jf, items)
    ensures Records(jf, items, StatusList(OwnedItems(items, KIND, jf.name)))
  {
    if items != [] {
      hide OwnedItems, Records, IsFlowKey, Matches, StatusList;
      var n := |items| - 1;
      assert items == items[..n] + [items[n]];
      ListRecords(jf, items[..n]);
      OwnedAppend(KIND, jf.name, items[..n], items[n]);
      Tallies.StatusListMore(OwnedItems(items[..n], KIND, jf.name), items[n]);
      RecordsAppend(jf, items[..n], items[n], StatusList(OwnedItems(items[..n], KIND, jf.name)));
    }
  }

  lemma StatusRecords(jf: JobFlowValue, jobs: Jobs, items: seq<JobValue>)
    requires WellOwned(jf, jobs) && IsListing(items, jobs)
    ensures Records(jf, items, StatusOf(jf, items).jobStatusList)
  {
    ListRecords(jf, items);
  }

  /** No difference the status of jf could show. */
  ghost predicate SameToStatus(jf: JobFlowValue, jobs: Jobs, jobs': Jobs) {
    forall k :: IsFlowKey(jf, k) ==> (k in jobs <==> k in jobs') && (k in jobs ==> jobs[k].status == jobs'[k].status)
  }

  lemma RecordsUnique(jf: JobFlowValue, jobs: Jobs, jobs': Jobs, items: seq<JobValue>, items': seq<JobValue>,
                      list: map<string, JobStatus>, list': map<string, JobStatus>, s: string)
    requires IsListing(items, jobs) && IsListing(items', jobs') && SameToStatus(jf, jobs, jobs')
    requires Records(jf, items, list) && Records(jf, items', list') && s in list
    ensures s in list' && list'[s] == list[s]
  {
    hide IsFlowKey;
    var i :| 0 <= i < |items| && IsFlowKey(jf, items[i].key) && s == items[i].key.name + "/" + items[i].key.namespace;
    var k := items[i].key;
    assert k in jobs';
    var j :| 0 <= j < |items'| && items'[j].key == k;
    assert items'[j] == jobs'[k];
  }

  lemma SameMeaning(jf: JobFlowValue, jobs: Jobs, jobs': Jobs)
    requires SameToStatus(jf, jobs, jobs')
    ensures Meaning(jf, jobs) == Meaning(jf, jobs')
    ensures SameToStatus(jf, jobs', jobs)
  {
    forall n, phase | 0 <= n < |jf.flows|
      ensures InPhase(jf, jobs, phase, n) <==> InPhase(jf, jobs', phase, n)
    {
      assert IsFlowKey(jf, JobKey(jf, jf.flows[n].name));
    }
  }

  /** The order of the list, and Jobs under other names, do not show in the status. */
  lemma ListingIsIrrelevant(jf: JobFlowValue, jobs: Jobs, jobs': Jobs, items: seq<JobValue>, items': seq<JobValue>)
    requires DistinctNames(jf) && WellOwned(jf, jobs) && WellOwned(jf, jobs') && SameToStatus(jf, jobs, jobs')
    requires IsListing(items, jobs) && IsListing(items', jobs')
    ensures StatusOf(jf, items) == StatusOf(jf, items')
  {
    hide *;
    StateMeans(jf, jobs, items);
    StateMeans(jf, jobs', items');
    SameMeaning(jf, jobs, jobs');
    StatusRecords(jf, jobs, items);
    StatusRecords(jf, jobs', items');
    var list, list' := StatusOf(jf, items).jobStatusList, StatusOf(jf, items').jobStatusList;
    forall s
      ensures s in list ==> s in list' && list'[s] == list[s]
      ensures s in list' ==> s in list
    {
      if s in list {
        RecordsUnique(jf, jobs, jobs', items, items', list, list', s);
      }
      if s in list' {
        RecordsUnique(jf, jobs', jobs, items', items, list', list, s);
      }
    }
    assert list == list';
  }
}

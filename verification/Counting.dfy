/**
 Comparing list lengths decides the state.  For any owner with a set of declared Job
 keys, when each declared Job carries one matching owner reference and no other Job
 carries any, the lengths of the three name lists say which declared Jobs are where.
 */
module Counting {
  import opened Kube
  import opened JobFlows
  import opened FlowStatus

  /** The Jobs the owner filter keeps are the declared ones, each with one matching reference. */
  ghost predicate Owns(kind: string, name: string, declared: set<Key>, jobs: Jobs) {
    Filed(jobs) && forall k :: k in jobs ==> Matches(jobs[k].owners, kind, name) == if k in declared then 1 else 0
  }

  ghost predicate OwnedOnce(kind: string, name: string, declared: set<Key>, items: seq<JobValue>) {
    forall i :: 0 <= i < |items| ==> Matches(items[i].owners, kind, name) == if items[i].key in declared then 1 else 0
  }

  ghost predicate DistinctKeys(items: seq<JobValue>) {
    forall i, j :: 0 <= i < j < |items| ==> items[i].key != items[j].key
  }

  ghost predicate KeyInPhase(jobs: Jobs, k: Key, phase: Phase) {
    k in jobs && PhaseOf(jobs[k].status) == phase
  }

  /** The state, key by key. */
  ghost function MeaningOf(deleting: bool, declared: set<Key>, jobs: Jobs): string {
    if deleting then "Terminating"
    else if forall k :: k in declared ==> KeyInPhase(jobs, k, Succeeded) then "Succeed"
    else if exists k :: k in declared && KeyInPhase(jobs, k, Failed) then "Failed"
    else if exists k :: k in declared && (KeyInPhase(jobs, k, Running) || KeyInPhase(jobs, k, Succeeded)) then "Running"
    else "Pending"
  }

  /** The declared keys whose listed Job is in this phase. */
  ghost function PhaseKeys(declared: set<Key>, items: seq<JobValue>, phase: Phase): set<Key> {
    set i | 0 <= i < |items| && items[i].key in declared && PhaseOf(items[i].status) == phase :: items[i].key
  }

  lemma NamesInAppend(phase: Phase, a: seq<JobValue>, job: JobValue)
    ensures |NamesIn(phase, a + [job])| == |NamesIn(phase, a)| + if PhaseOf(job.status) == phase then 1 else 0
  {
    assert (a + [job])[..|a|] == a;
  }

  lemma CopiesOnce(job: JobValue)
    ensures Copies(job, 1) == [job] && Copies(job, 0) == []
  {
  }

  lemma PhaseKeysAppend(declared: set<Key>, items: seq<JobValue>, job: JobValue, phase: Phase)
    requires forall i :: 0 <= i < |items| ==> items[i].key != job.key
    ensures |PhaseKeys(declared, items + [job], phase)| ==
            |PhaseKeys(declared, items, phase)| + if job.key in declared && PhaseOf(job.status) == phase then 1 else 0
  {
    hide PhaseOf;
    var counted := job.key in declared && PhaseOf(job.status) == phase;
    var all := items + [job];
    assert all[|items|] == job && forall i :: 0 <= i < |items| ==> all[i] == items[i];
    assert PhaseKeys(declared, all, phase) == PhaseKeys(declared, items, phase) + if counted then {job.key} else {};
  }

  lemma OwnedAppend(kind: string, name: string, items: seq<JobValue>, job: JobValue)
    ensures Matches(job.owners, kind, name) == 1 ==> OwnedItems(items + [job], kind, name) == OwnedItems(items, kind, name) + [job]
    ensures Matches(job.owners, kind, name) == 0 ==> OwnedItems(items + [job], kind, name) == OwnedItems(items, kind, name)
  {
    assert (items + [job])[..|items|] == items;
    CopiesOnce(job);
  }

  /** The length of a name list is the number of declared Jobs in that phase. */
  lemma {:induction false} CountPhase(kind: string, name: string, declared: set<Key>, items: seq<JobValue>, phase: Phase)
    requires DistinctKeys(items) && OwnedOnce(kind, name, declared, items)
    ensures |NamesIn(phase, OwnedItems(items, kind, name))| == |PhaseKeys(declared, items, phase)|
  {
    if items == [] {
      assert PhaseKeys(declared, items, phase) == {};
    } else {
      hide NamesIn, OwnedItems, PhaseKeys, PhaseOf, Matches;
      var n := |items| - 1;
      var most, last := items[..n], items[n];
      assert items == most + [last];
      CountPhase(kind, name, declared, most, phase);
      OwnedAppend(kind, name, most, last);
      NamesInAppend(phase, OwnedItems(most, kind, name), last);
      PhaseKeysAppend(declared, most, last, phase);
    }
  }

  lemma ListingIsOwned(kind: string, name: string, declared: set<Key>, jobs: Jobs, items: seq<JobValue>)
    requires Owns(kind, name, declared, jobs) && IsListing(items, jobs)
    ensures DistinctKeys(items) && OwnedOnce(kind, name, declared, items)
  {
  }

  lemma PhaseKeysMeaning(declared: set<Key>, jobs: Jobs, items: seq<JobValue>, phase: Phase)
    requires Filed(jobs) && IsListing(items, jobs)
    ensures PhaseKeys(declared, items, phase) == set k | k in declared && KeyInPhase(jobs, k, phase)
  {
    forall k | k in declared && KeyInPhase(jobs, k, phase)
      ensures k in PhaseKeys(declared, items, phase)
    {
      var i :| 0 <= i < |items| && items[i].key == k;
    }
  }

  /** What the length of one name list says: a subset of the declared keys as large as all of them is all of them. */
  lemma CountMeans(kind: string, name: string, declared: set<Key>, jobs: Jobs, items: seq<JobValue>, phase: Phase)
    requires Owns(kind, name, declared, jobs) && IsListing(items, jobs)
    ensures var count := |NamesIn(phase, OwnedItems(items, kind, name))|;
            && (count > 0 <==> exists k :: k in declared && KeyInPhase(jobs, k, phase))
            && (count == |declared| <==> forall k :: k in declared ==> KeyInPhase(jobs, k, phase))
  {
    hide NamesIn, OwnedItems, KeyInPhase, IsListing, PhaseKeys;
    ListingIsOwned(kind, name, declared, jobs, items);
    CountPhase(kind, name, declared, items, phase);
    PhaseKeysMeaning(declared, jobs, items, phase);
    var keys := PhaseKeys(declared, items, phase);
    NonEmpty(declared, jobs, keys, phase);
    if forall k :: k in declared ==> KeyInPhase(jobs, k, phase) {
      assert keys == declared;
    }
    if |keys| == |declared| {
      SubsetOfSameSize(keys, declared);
    }
  }

  /** Comparing lengths decides the state. */
  lemma StateByCounting(kind: string, name: string, deleting: bool, declared: set<Key>, jobs: Jobs, items: seq<JobValue>)
    requires Owns(kind, name, declared, jobs) && IsListing(items, jobs)
    ensures StatusFor(kind, name, deleting, |declared|, items).state == MeaningOf(deleting, declared, jobs)
  {
    hide NamesIn, OwnedItems, StatusList, KeyInPhase, IsListing, Owns;
    CountMeans(kind, name, declared, jobs, items, Succeeded);
    CountMeans(kind, name, declared, jobs, items, Failed);
    CountMeans(kind, name, declared, jobs, items, Running);
  }

  lemma NonEmpty(declared: set<Key>, jobs: Jobs, keys: set<Key>, phase: Phase)
    requires keys == set k | k in declared && KeyInPhase(jobs, k, phase)
    ensures |keys| > 0 <==> exists k :: k in declared && KeyInPhase(jobs, k, phase)
  {
    if k :| k in declared && KeyInPhase(jobs, k, phase) {
      assert k in keys;
    }
    if |keys| > 0 {
      var k :| k in keys;
    }
  }

  lemma SubsetOfSameSize<T>(a: set<T>, b: set<T>)
    requires a <= b && |a| == |b|
    ensures a == b
  {
    if x :| x in b && x !in a {
      assert a <= b - {x} && |b - {x}| == |b| - 1;
      SubsetSize(a, b - {x});
    }
  }

  lemma {:induction false} SubsetSize<T>(a: set<T>, b: set<T>)
    requires a <= b
    ensures |a| <= |b|
  {
    if a != {} {
      var x :| x in a;
      SubsetSize(a - {x}, b - {x});
    }
  }
}

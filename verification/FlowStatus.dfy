/**
 The status of a JobFlow (pkg/controller/helper.go:249-306): filter the listed Jobs by
 owner, sort their names into three lists, and compare list lengths.
 */
module FlowStatus {
  import opened Kube
  import opened JobFlows

  /** How many owner references name this owner; namespace and API version are not compared. */
  function Matches(owners: seq<OwnerReference>, kind: string, name: string): nat {
    if owners == [] then 0
    else
      var last := owners[|owners| - 1];
      Matches(owners[..|owners| - 1], kind, name) + if last.kind == kind && last.name == name then 1 else 0
  }

  lemma SoleOwner(o: OwnerReference, kind: string, name: string)
    ensures Matches([o], kind, name) == if o.kind == kind && o.name == name then 1 else 0
  {
    assert [o][..0] == [];
  }

  function Copies(job: JobValue, n: nat): seq<JobValue> {
    if n == 0 then [] else Copies(job, n - 1) + [job]
  }

  /** The Jobs kept by the owner filter: once for every reference that matches. */
  function OwnedItems(items: seq<JobValue>, kind: string, name: string): seq<JobValue> {
    if items == [] then []
    else
      var last := items[|items| - 1];
      OwnedItems(items[..|items| - 1], kind, name) + Copies(last, Matches(last.owners, kind, name))
  }

  /** The names of the Jobs in one phase, in list order. */
  function NamesIn(phase: Phase, jobs: seq<JobValue>): seq<string> {
    if jobs == [] then []
    else
      var last := jobs[|jobs| - 1];
      NamesIn(phase, jobs[..|jobs| - 1]) + if PhaseOf(last.status) == phase then [last.key.name] else []
  }

  function StatusKey(k: Key): string {
    k.name + "/" + k.namespace
  }

  function StatusList(jobs: seq<JobValue>): map<string, JobStatus> {
    if jobs == [] then map[]
    else
      var last := jobs[|jobs| - 1];
      StatusList(jobs[..|jobs| - 1])[StatusKey(last.key) := last.status]
  }

  /** The state from the number of Jobs declared and the numbers found in each phase. */
  function StateFrom(deleting: bool, declared: nat, completed: nat, failed: nat, running: nat): string {
    if deleting then TERMINATING
    else if declared == completed then SUCCEED
    else if failed > 0 then FAILED
    else if running > 0 || completed > 0 then RUNNING
    else PENDING
  }

  function StatusFor(kind: string, name: string, deleting: bool, declared: nat, items: seq<JobValue>): JobFlowStatus {
    var owned := OwnedItems(items, kind, name);
    JobFlowStatus(
      StatusList(owned),
      StateFrom(deleting, declared, |NamesIn(Succeeded, owned)|, |NamesIn(Failed, owned)|, |NamesIn(Running, owned)|))
  }

  function StatusOf<C>(jf: JobFlow<C>, items: seq<JobValue>): JobFlowStatus {
    StatusFor(KIND, jf.name, jf.deleting, |jf.flows|, items)
  }
}

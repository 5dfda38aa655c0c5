/**
 The part of the Kubernetes API the controllers rely on: keys, owner references,
 Jobs with their three status counters, and the Pod template fields that rendering
 touches.  A Go slice that can be nil is an Option; a struct that holds the
 container slice is generic in it, so that one declaration serves both for the heap
 (the slice is an array that several structs can share) and for plain values.
 */
module Kube {

  datatype Option<+T> = None | Some(value: T)

  datatype Key = Key(namespace: string, name: string)

  datatype OwnerReference = OwnerReference(apiVersion: string, kind: string, name: string, uid: string)

  datatype VolumeMount = VolumeMount(name: string, mountPath: string)

  datatype Volume = Volume(name: string, claim: string)

  datatype EnvVar = EnvVar(name: string, value: string)

  datatype Container = Container(
    name: string,
    image: string,
    volumeMounts: Option<seq<VolumeMount>>,
    env: Option<seq<EnvVar>>)

  datatype JobSpec<C> = JobSpec(
    volumes: Option<seq<Volume>>,
    containers: C,
    restartPolicy: string,
    backoffLimit: Option<int>,
    nodeName: string,
    labels: map<string, string>,
    annotations: map<string, string>)

  datatype JobStatus = JobStatus(active: int, succeeded: int, failed: int)

  const NO_STATUS := JobStatus(0, 0, 0)

  datatype Job<C> = Job(
    key: Key,
    owners: seq<OwnerReference>,
    annotations: map<string, string>,
    labels: map<string, string>,
    spec: JobSpec<C>,
    status: JobStatus)

  type SpecValue = JobSpec<seq<Container>>
  type SpecObject = JobSpec<array<Container>>
  type JobValue = Job<seq<Container>>
  type JobObject = Job<array<Container>>

  /** The Jobs of a cluster at one moment. */
  type Jobs = map<Key, JobValue>

  ghost function SpecView(s: SpecObject): SpecValue
    reads s.containers
  {
    JobSpec(s.volumes, s.containers[..], s.restartPolicy, s.backoffLimit, s.nodeName, s.labels, s.annotations)
  }

  ghost function JobView(j: JobObject): JobValue
    reads j.spec.containers
  {
    Job(j.key, j.owners, j.annotations, j.labels, SpecView(j.spec), j.status)
  }

  /** The life of a single-completion Job, read off the counters in the order the controllers test them. */
  datatype Phase = Waiting | Running | Succeeded | Failed

  function PhaseOf(s: JobStatus): Phase {
    if s.succeeded == 1 then Succeeded
    else if s.failed == 1 then Failed
    else if s.active == 1 then Running
    else Waiting
  }

  /** Success and failure exclude each other. */
  predicate Exclusive(s: JobStatus) {
    !(s.succeeded == 1 && s.failed == 1)
  }

  /** A status may move on, but it never leaves a terminal phase and never un-starts. */
  predicate Advances(s: JobStatus, t: JobStatus) {
    && Exclusive(t)
    && (PhaseOf(s) == Succeeded ==> PhaseOf(t) == Succeeded)
    && (PhaseOf(s) == Failed ==> PhaseOf(t) == Failed)
    && (PhaseOf(s) == Running ==> PhaseOf(t) != Waiting)
  }

  predicate HasSucceeded(jobs: Jobs, k: Key) {
    k in jobs && jobs[k].status.succeeded == 1
  }

  predicate HasFailed(jobs: Jobs, k: Key) {
    k in jobs && jobs[k].status.failed == 1
  }

  /** A store files every Job under its own key. */
  ghost predicate Filed(jobs: Jobs) {
    forall k :: k in jobs ==> jobs[k].key == k
  }

  /** What a List call may return: every Job of the store once, in any order. */
  ghost predicate IsListing(items: seq<JobValue>, jobs: Jobs) {
    && (forall i :: 0 <= i < |items| ==> items[i].key in jobs && items[i] == jobs[items[i].key])
    && (forall i, j :: 0 <= i < j < |items| ==> items[i].key != items[j].key)
    && (forall k :: k in jobs ==> exists i :: 0 <= i < |items| && items[i].key == k)
  }
}

/**
 The JobFlow resource (pkg/apis/jobflow/v1alpha1/types.go), its dependency graph and
 the names of the Jobs it stands for.
 */
module JobFlows {
  import opened Kube

  const KIND := "JobFlow"
  const API_VERSION := "api.practice.com/v1alpha1"

  const SUCCEED := "Succeed"
  const TERMINATING := "Terminating"
  const FAILED := "Failed"
  const RUNNING := "Running"
  const PENDING := "Pending"

  datatype GlobalParams = GlobalParams(
    env: Option<seq<EnvVar>>,
    nodeName: string,
    labels: Option<map<string, string>>,
    annotations: Option<map<string, string>>)

  datatype Flow<C> = Flow(
    name: string,
    jobTemplate: JobSpec<C>,
    jobTemplateRef: string,
    dependencies: seq<string>,
    shareVolumeMounts: seq<VolumeMount>)

  datatype JobFlowStatus = JobFlowStatus(jobStatusList: map<string, JobStatus>, state: string)

  datatype JobFlow<C> = JobFlow(
    apiVersion: string,
    kind: string,
    namespace: string,
    name: string,
    uid: string,
    deleting: bool,
    globalParams: GlobalParams,
    flows: seq<Flow<C>>,
    shareVolumes: seq<Volume>,
    status: JobFlowStatus)

  type FlowValue = Flow<seq<Container>>
  type FlowObject = Flow<array<Container>>
  type JobFlowValue = JobFlow<seq<Container>>
  type JobFlowObject = JobFlow<array<Container>>

  function JobName(jobFlowName: string, flowName: string): string {
    jobFlowName + "-" + flowName
  }

  /** The key of the Job that stands for the flow called name. */
  function JobKey<C>(jf: JobFlow<C>, name: string): Key {
    Key(jf.namespace, JobName(jf.name, name))
  }

  function FlowKey<C>(jf: JobFlow<C>): Key {
    Key(jf.namespace, jf.name)
  }

  ghost predicate Declared<C(!new)>(jf: JobFlow<C>, name: string) {
    exists i :: 0 <= i < |jf.flows| && jf.flows[i].name == name
  }

  /** Flow names are not repeated, as the operator repository's own README.md asks on line 18. */
  ghost predicate DistinctNames<C(!new)>(jf: JobFlow<C>) {
    forall i, j :: 0 <= i < j < |jf.flows| ==> jf.flows[i].name != jf.flows[j].name
  }

  /** Flow x is declared and lists y among its dependencies. */
  ghost predicate DependsOn<C(!new)>(jf: JobFlow<C>, x: string, y: string) {
    exists i :: 0 <= i < |jf.flows| && jf.flows[i].name == x && y in jf.flows[i].dependencies
  }

  /** A name the controller can look up: a flow's own name or a dependency's. */
  ghost predicate Mentioned<C(!new)>(jf: JobFlow<C>, name: string) {
    Declared(jf, name) || exists x :: DependsOn(jf, x, name)
  }

  ghost predicate MentionedKey<C(!new)>(jf: JobFlow<C>, k: Key) {
    exists name :: Mentioned(jf, name) && k == JobKey(jf, name)
  }

  /** A dependency chain: each flow depends on the next one. */
  ghost predicate Chain<C(!new)>(jf: JobFlow<C>, p: seq<string>) {
    |p| > 0 && forall i :: 0 <= i < |p| - 1 ==> DependsOn(jf, p[i], p[i + 1])
  }

  /** Two Job names are equal exactly when the JobFlow names and the flow names are,
      or when one JobFlow name continues the other by "-s" and the flow names make up for it. */
  lemma NamesCollide(a: string, x: string, b: string, y: string)
    ensures JobName(a, x) == JobName(b, y) <==>
            || (a == b && x == y)
            || (exists s :: b == a + "-" + s && x == s + "-" + y)
            || (exists s :: a == b + "-" + s && y == s + "-" + x)
  {
    if JobName(a, x) == JobName(b, y) {
      if |a| <= |b| {
        Overlap(a, x, b, y);
      } else {
        Overlap(b, y, a, x);
      }
    }
  }

  lemma Overlap(a: string, x: string, b: string, y: string)
    requires JobName(a, x) == JobName(b, y) && |a| <= |b|
    ensures (a == b && x == y) || exists s :: b == a + "-" + s && x == s + "-" + y
  {
    var n := JobName(a, x);
    assert a == n[..|a|] && b == n[..|b|] && x == n[|a| + 1..] && y == n[|b| + 1..];
    if |a| < |b| {
      var s := b[|a| + 1..];
      assert n[|a|] == '-' && n[|b|] == '-';
      assert b == a + "-" + s;
      assert x == s + "-" + y;
    }
  }

  lemma JobKeyInjective<C>(jf: JobFlow<C>, x: string, y: string)
    ensures JobKey(jf, x) == JobKey(jf, y) ==> x == y
  {
    if JobKey(jf, x) == JobKey(jf, y) {
      Overlap(jf.name, x, jf.name, y);
    }
  }
}

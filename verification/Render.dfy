/**
 What a created Job looks like: prepareJob (pkg/controller/helper.go:153-246) as a
 function of the JobFlow, one of its flows and the Job template that flow uses.
 */
module Render {
  import opened Kube
  import opened JobFlows
  import opened Annotations

  /** Volumes are shared only when the JobFlow offers them and the flow mounts them. */
  predicate Shares<C>(jf: JobFlow<C>, flow: Flow<C>) {
    |jf.shareVolumes| != 0 && |flow.shareVolumeMounts| != 0
  }

  /** What a slice holds; a nil slice holds nothing. */
  function Elements<T>(s: Option<seq<T>>): seq<T> {
    if s.Some? then s.value else []
  }

  function Mounted(c: Container, mounts: seq<VolumeMount>): Container {
    c.(volumeMounts := Some(Elements(c.volumeMounts) + mounts))
  }

  function RenderContainer<C>(jf: JobFlow<C>, flow: Flow<C>, c: Container): Container {
    var m := if Shares(jf, flow) then Mounted(c, flow.shareVolumeMounts) else c;
    if jf.globalParams.env.Some? then m.(env := jf.globalParams.env) else m
  }

  function Entries(m: Option<map<string, string>>): map<string, string> {
    if m.Some? then m.value else map[]
  }

  function RenderVolumes<C>(jf: JobFlow<C>, flow: Flow<C>, own: Option<seq<Volume>>): Option<seq<Volume>> {
    if Shares(jf, flow) then Some(Elements(own) + jf.shareVolumes) else own
  }

  function RenderSpec<C>(jf: JobFlow<C>, flow: Flow<C>, base: SpecValue): SpecValue {
    JobSpec(
      RenderVolumes(jf, flow, base.volumes),
      seq(|base.containers|, i requires 0 <= i < |base.containers| => RenderContainer(jf, flow, base.containers[i])),
      "Never",
      Some(0),
      if jf.globalParams.nodeName != "" then jf.globalParams.nodeName else base.nodeName,
      if jf.globalParams.labels.Some? then jf.globalParams.labels.value else base.labels,
      if jf.globalParams.annotations.Some? then jf.globalParams.annotations.value else base.annotations)
  }

  function TemplateMark<C>(jf: JobFlow<C>, flow: Flow<C>): map<string, string> {
    if flow.jobTemplateRef != "" then map[CREATED_BY_TEMPLATE := Connection(jf.namespace, flow.jobTemplateRef)] else map[]
  }

  function RenderJob<C>(jf: JobFlow<C>, flow: Flow<C>, base: SpecValue): JobValue {
    Job(
      JobKey(jf, flow.name),
      [OwnerReference(jf.apiVersion, jf.kind, jf.name, jf.uid)],
      TemplateMark(jf, flow) + Entries(jf.globalParams.annotations),
      Entries(jf.globalParams.labels),
      RenderSpec(jf, flow, base),
      NO_STATUS)
  }

  /** Every field of a flow's Job but its status, spelled out from the JobFlow, the flow and the template. */
  ghost predicate AsAsked<C>(jf: JobFlow<C>, flow: Flow<C>, base: SpecValue, job: JobValue) {
    var params := jf.globalParams;
    var shared := |jf.shareVolumes| != 0 && |flow.shareVolumeMounts| != 0;
    && job.key == Key(jf.namespace, jf.name + "-" + flow.name)
    && job.owners == [OwnerReference(jf.apiVersion, jf.kind, jf.name, jf.uid)]
    && job.annotations ==
       (if flow.jobTemplateRef == "" then map[] else map["createByJobTemplate" := jf.namespace + "." + flow.jobTemplateRef]) +
       (if params.annotations.Some? then params.annotations.value else map[])
    && job.labels == (if params.labels.Some? then params.labels.value else map[])
    && job.spec.volumes ==
       (if shared then Some((if base.volumes.Some? then base.volumes.value else []) + jf.shareVolumes) else base.volumes)
    && |job.spec.containers| == |base.containers|
    && (forall c :: 0 <= c < |base.containers| ==>
          var own := base.containers[c];
          job.spec.containers[c] == own.(
            volumeMounts := if shared then Some((if own.volumeMounts.Some? then own.volumeMounts.value else []) + flow.shareVolumeMounts)
                            else own.volumeMounts,
            env := if params.env.Some? then params.env else own.env))
    && job.spec.restartPolicy == "Never" && job.spec.backoffLimit == Some(0)
    && job.spec.nodeName == (if params.nodeName != "" then params.nodeName else base.nodeName)
    && job.spec.labels == (if params.labels.Some? then params.labels.value else base.labels)
    && job.spec.annotations == (if params.annotations.Some? then params.annotations.value else base.annotations)
  }

  /** A Job is rendered as asked, and its status aside there is only one such Job. */
  lemma RenderedAsAsked<C>(jf: JobFlow<C>, flow: Flow<C>, base: SpecValue, job: JobValue)
    ensures AsAsked(jf, flow, base, job) <==> job == RenderJob(jf, flow, base).(status := job.status)
  {
    var rendered := RenderJob(jf, flow, base);
    assert AsAsked(jf, flow, base, rendered);
    if AsAsked(jf, flow, base, job) {
      assert job.spec.containers == rendered.spec.containers;
    }
  }

  /** Rendering looks at the JobFlow's header and at the flow's name, template reference and mounts; nothing else. */
  lemma RenderDependsOn<C, D>(jf: JobFlow<C>, flow: Flow<C>, jf': JobFlow<D>, flow': Flow<D>, base: SpecValue)
    requires jf.apiVersion == jf'.apiVersion && jf.kind == jf'.kind && jf.namespace == jf'.namespace && jf.name == jf'.name
    requires jf.uid == jf'.uid && jf.globalParams == jf'.globalParams && jf.shareVolumes == jf'.shareVolumes
    requires flow.name == flow'.name && flow.jobTemplateRef == flow'.jobTemplateRef
    requires flow.shareVolumeMounts == flow'.shareVolumeMounts
    ensures RenderJob(jf, flow, base) == RenderJob(jf', flow', base)
  {
    assert RenderSpec(jf, flow, base).containers == RenderSpec(jf', flow', base).containers;
  }
}

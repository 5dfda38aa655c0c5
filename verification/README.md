# A verified model of the JobFlow operator

The operator turns a `JobFlow` (a graph of Jobs with dependencies) into Kubernetes Jobs, step by
step, as the Jobs they depend on succeed; it also places one Job per node for a `DaemonJob`, and
keeps for every `JobTemplate` a list of the Jobs made from it.  This project models the three
controllers and proves what they guarantee, over single calls and over whole runs.

## How the model is laid out

| part | files | what it is |
|---|---|---|
| data | `Kube`, `JobFlows`, `DaemonJobs`, `Annotations`, `Strings` | keys, Jobs, owner references, the three resources, string splitting |
| specifications | `Render`, `FlowStatus`, `Machine`, `Deploy`, `Exclusion` | the Job that rendering produces, the status fold, one reconcile as a machine over client calls, one undisturbed pass as a function |
| the controllers | `Controller`, `DaemonController`, `Templates`, `WorkQueue` | the imperative code: loops with early exits, in-place writes into shared container slices, deep copies, event handlers; each method is proved against the specifications |
| one call at a time | `Calls`, `DaemonCalls`, `Tallies` | what a reconcile's calls and answers say about it, and the status of any listing, read off the objects' own fields |
| undisturbed reconciles | `Passes`, `Counting`, `StatusMeaning`, `Reconciling`, `Progress`, `Chains` | what one pass, one status and a series of rounds amount to |
| one JobFlow over whole runs | `Runs`, `RunSafety`, `DeletedJobs`, `RunStatus`, `StaleRead`, `PassByCalls`, `Lagging`, `Freezing`, `FrozenForever` | call-by-call runs with lagging caches, their invariants, and exactly when the Job set is complete |
| all JobFlows and the work queue | `ClusterRuns`, `Wakeups`, `LostWakeup`, `TemplateArrival`, `Quiescence` | one worker reconciling call by call while events arrive, and exactly when a wake-up is lost |
| events behind a lagging cache | `LaggedWakeups`, `LaggedLoss` | one JobFlow whose Jobs appear in the cache, and their events arrive, later than they happen |
| one DaemonJob over whole runs | `Placement` | which nodes get a Job, and what the status says |

`Controller.Client` is the API.  In isolated mode it has up-to-date reads and no faults, and the
methods are then proved to compute `Deploy.DeployPass` and `Deploy.Reconciled`.  In any mode they
are proved to make exactly the calls of `Machine.DriveReconcile`, whatever the answers.  `Runs` takes
that machine call by call and interleaves it with the environment: Jobs progress and may be deleted,
foreign Jobs come and go, the process crashes, the JobFlow is deleted, reads come from a lagging
cache of a server history, a status update carries the version that was read and is refused if
that is not the newest, and a call that reports a fault may have taken effect.

## Assumptions

* Jobs run to a single completion; `Succeeded == 1` and `Failed == 1` exclude each other and
  stay, and a Job that has been active never goes back to waiting (`Kube.Advances`).
* Flow names are distinct in a JobFlow, JobFlow and DaemonJob names are unique in the cluster (the
  status filter compares owner kind and name only), and nobody else creates Jobs under the derived
  names or with these owner references (`Runs.Foreign`, `LaggedWakeups.Environment`, `Placement.Foreign`).
* With several JobFlows (`ClusterRuns.FlowCreated`), a new JobFlow's Job names, those of its
  dependencies included, are disjoint from every other JobFlow's; `Reconciling.DisjointExactly` says which
  are.  Under colliding names a Job's events queue only the JobFlow that owns it.  A JobFlow is not
  created again while the worker still holds the old one, nor over Jobs left behind by one of
  another uid.
* A JobFlow's spec does not change; a JobTemplate may be missing for a time but keeps its content.  An object read through the cache carries its kind and API version.
* Each controller works on one key at a time (the default of one concurrent reconcile).
* Results that need more say so in their `requires`: no Job deletion, templates present, an
  acyclic graph with declared dependencies.

## What turned out not to hold as one might wish

* **Failed does not freeze the Job set by itself.**  A reconcile that still reads the JobFlow from
  before the failure deploys once more (`StaleRead.JobsAfterFailed`).  The status cannot change
  again (`RunStatus.FailedIsFinal`).  With no reconcile under way, however far the caches lag
  behind, another Job can still be created exactly when some version without the failure is
  readable and some flow can be started: its Job is not there, its dependencies have succeeded,
  and the flows before it let a pass past them at entries of the Job history that the cache can
  still show, in this order (`Lagging.CanStart`).  For what the controller does when left alone the
  dependencies count as the Jobs stand (`Freezing.GrowsExactly`); for everything that can happen
  without Job deletions, as if every unfinished Job succeeded (`FrozenForever.FrozenExactly`).
  When the Job cache is up to date, that is a startable flow among these Jobs
  (`Freezing.GrowsWhenCurrent`, `FrozenForever.FrozenWhenCurrent`); at a lagging one a startable flow is
  enough (`Freezing.StartableIsEnough`, `FrozenForever.StartableIsEnough`) but not needed, since a flow that would stop a pass now can still
  be passed by as it was.
* **A BadRequest from the API can lose a wake-up.**  The controller takes it for a failed
  dependency, writes the status and does not come back (jobflow_controller.go:64-72).  A JobFlow that
  is neither queued nor being worked on is settled exactly when its last reconcile was not cut
  short like that with a flow left to start (`Wakeups.SettledExactly`); `LostWakeup.BadRequestStrands`
  is a run in which that happens.
* **A DaemonJob does not get one Job per node.**  The lookup before the create uses the
  DaemonJob's own name, and both a success and an AlreadyExists end the pass, so a pass serves only
  the first eligible node of its list.  When no Create's reply is lost, coverage is complete
  exactly when every eligible node heads a completed pass (`Placement.CoverageExactly`); a Create that
  took effect with its reply lost covers its node too.  With a fixed list order that means at most one
  eligible node (`DaemonJobs.PassesCoverExactly`, concrete input in `DaemonJobs.SecondNodeStarves`).
* **A template name with a dot breaks the back-index's wake-up.**  Names may contain dots; the
  handlers then queue another key.  They decode correctly exactly when neither part has a dot
  (`Templates.DecodeConnection`).
* **A template that arrives late wakes no JobFlow** (`TemplateArrival.ArrivalIsMissed`).  With other
  templates a settled JobFlow stays settled exactly when it has failed or no flow is startable
  (`TemplateArrival.ArrivalExactly`).
* **AlreadyExists can lose a wake-up.**  The `break` on it for a flow with dependencies
  (helper.go:88-90) leaves the loop over the flows, while a flow without dependencies goes on.  When the
  cache does not show a Job yet that has been created, the pass ends there, and the Job's
  appearance in the cache is not announced.  A JobFlow at rest has a startable flow exactly when its
  last reconcile ended early, like this or by a BadRequest, with such a flow left
  (`LaggedWakeups.RestingExactly`); `LaggedLoss.AlreadyExistsStrands` is a run in which that happens.

## Model

| member | source | states |
|---|---|---|
| JobFlows.NamesCollide | pkg/controller/helper.go:104-106 | two Job names are equal exactly when the parts are, or when one JobFlow name is the other plus "-s" and the flow names make up for it |
| JobFlows.JobKeyInjective | pkg/controller/helper.go:104-106 | within one JobFlow, distinct flow names give distinct Job keys |
| Controller.DeepCopySpec | pkg/apis/jobflow/v1alpha1/zz_generated.deepcopy.go:49-65 | the library's copy of a Job template: equal contents in a fresh container slice |
| Controller.DeepCopyFlow | pkg/apis/jobflow/v1alpha1/zz_generated.deepcopy.go:49-65 | a flow's copy has equal contents and a fresh container slice |
| Controller.DeepCopy | pkg/apis/jobflow/v1alpha1/zz_generated.deepcopy.go:115-195 | the copy is equal to the original, all its container slices are fresh, and no two flows share one |
| Controller.AppendMounts | pkg/controller/helper.go:201-210 | every container ends up with its own mounts followed by the given ones; nil slices count as empty |
| Controller.ReplaceEnv | pkg/controller/helper.go:239-243 | every container's environment is replaced, in place, and nothing else of it |
| Controller.ShareVolumes | pkg/controller/helper.go:188-211 | when the JobFlow has volumes and the flow has mounts, and only then, the template's volumes are followed by the JobFlow's and each container's mounts by the flow's |
| Controller.ApplyGlobals | pkg/controller/helper.go:218-237 | global annotations are added over the template mark, labels and node name take over when set |
| Controller.RenderInPlace | pkg/controller/helper.go:188-245 | the in-place writes produce a Job with every field as `Render.AsAsked` spells it out from the template as it was, and touch only the container slice they were given |
| Controller.PrepareJob | pkg/controller/helper.go:153-246 | which template is used, the errors for a missing or unreadable one, every field of the Job spelled out, and which slice it shares |
| Render.RenderedAsAsked | pkg/controller/helper.go:153-246 | the Job with key, owner, annotations, labels, volumes, mounts, environment, restart policy, back-off limit, node and Pod metadata spelled out from JobFlow, flow and template is the rendered one, and the only one |
| Render.RenderDependsOn | pkg/controller/helper.go:153-246 | rendering depends on the JobFlow's header and the flow's name, template reference and mounts, not on the other flows |
| Controller.CheckDependencies | pkg/controller/helper.go:55-84 | the dependency loop: its calls are the machine's, and undisturbed it finds the verdict of `Deploy.Scan`: satisfied, blocked, or broken at the first failed Job before any missing one |
| Controller.CreateOnce | pkg/controller/helper.go:45-50 | create, and how the answer leaves the loop: AlreadyExists continues without dependencies and breaks with them (88-92) |
| Controller.DeployPrepared | pkg/controller/helper.go:38-99 | look up, check, create: the machine's calls in order, and undisturbed one step of the pass |
| Controller.DeployFlow | pkg/controller/helper.go:27-99 | one turn of the loop over the flows, prepared Job included |
| Controller.DeployJobFlow | pkg/controller/helper.go:24-102 | makes exactly the machine's calls under any answers, each Create resting on what was read before; undisturbed it returns the outcome of `Deploy.DeployPass` and creates its Jobs |
| Calls.CreatesAreJustified | pkg/controller/helper.go:39-97 | under any answers, a flow's Job is created only right after its look-up found none and each of its dependencies, one after the other, was found to have succeeded and not failed |
| Controller.FilterByOwner | pkg/controller/helper.go:251-258 | a listed Job is kept once for every owner reference of the kind and name, in list order, and no other is kept |
| Controller.SortByPhase | pkg/controller/helper.go:260-285 | the three name lists by counters, in list order, and the status map under name/namespace |
| Controller.GetAllJobStatus | pkg/controller/helper.go:249-306 | for any listing: the map has name/namespace and status of every Job that refers to the JobFlow and nothing else, and the state is what the numbers of references to completed, failed and active Jobs say |
| Tallies.StatusTells | pkg/controller/helper.go:249-306 | the computed status of either controller in terms of the listed Jobs' owner references and counters, for any listing, several references or shared texts included |
| Tallies.CountReferences | pkg/controller/helper.go:251-285 | a name list is as long as there are references to the owner by Jobs in the phase |
| Controller.UpdateJobFlowStatus | pkg/controller/helper.go:109-133 | lists, computes, writes what the list gives; it fails exactly when its last call is answered by a fault, so a JobFlow that is gone is no error; only the status of the stored object changes |
| Controller.Reconcile | pkg/controller/jobflow_controller.go:38-85 | makes exactly the calls of the reconcile machine under any answers, and is run again exactly when the last was answered by a fault, so not for a JobFlow that is gone or has failed; undisturbed, stored JobFlow and Jobs change as `Deploy.Reconciled` says and nothing else changes |
| Calls.ReconcileEnds | pkg/controller/jobflow_controller.go:38-85 | only the read is made unless the JobFlow is there and not Failed; a fault ends the reconcile and has it run again, but a BadRequest of the deploy part goes on to the List; and what is written last is the status of the listed Jobs |
| Controller.DriveEmbeds | pkg/controller/jobflow_controller.go:64-72 | the deploy machine's calls are calls of the reconcile machine, and a BadRequest goes on to the status while any other error ends it |
| Passes.ScanMeaning | pkg/controller/helper.go:55-84 | dependencies are satisfied exactly when all Jobs are there with `Succeeded == 1` and `Failed != 1`; broken, and by which Job, exactly when it is the first failed one with only existing ones before it |
| Passes.PassCreatesReady | pkg/controller/helper.go:24-102 | a pass creates the rendered Jobs of exactly the ready flows before the one it stops at |
| Passes.PassStops | pkg/controller/helper.go:24-102 | a pass ends at its last flow or at the first flow, as things stand when it gets there, whose template is missing or which has no Job and a failed dependency, with the matching error |
| Passes.PassExactly | pkg/controller/helper.go:24-102 | these two properties are all there is to a pass: a result with both is the pass's result |
| Passes.CreatesExactly | pkg/controller/helper.go:24-102 | a pass creates some Job exactly when some flow is startable: ready, its template there, and no earlier flow stopping the pass |
| Passes.PassIsReadySet | pkg/controller/helper.go:26-100 | without failed dependencies and missing templates the created keys are exactly the ready set |
| Passes.OrderIsIrrelevant | pkg/controller/helper.go:26-100 | reordering flows and dependencies changes neither the outcome nor the created Jobs |
| Passes.SecondPassIsIdle | pkg/controller/helper.go:24-102 | a second pass creates nothing, also when the first stopped early and the second stops earlier |
| Counting.CountPhase | pkg/controller/helper.go:251-285 | the length of a name list is the number of declared Jobs in that phase |
| Counting.StateByCounting | pkg/controller/helper.go:287-303 | for any owner, comparing list lengths decides whether every declared Job has succeeded, some has failed, or some has started |
| StatusMeaning.StateMeans | pkg/controller/helper.go:287-303 | the JobFlow's state is the one expected flow by flow: Succeed exactly when every flow's Job has succeeded, else Failed exactly when one has failed, and so on |
| StatusMeaning.StatusRecords | pkg/controller/helper.go:270-276 | the status map has the text name/namespace of each listed Job of the JobFlow with its status, and no other entry |
| StatusMeaning.ListingIsIrrelevant | pkg/controller/helper.go:249-306 | list order and other owners' Jobs do not show in the status |
| Reconciling.DeployAgrees | pkg/controller/helper.go:24-102 | a pass depends only on the spec and on presence and status of the Jobs under the names it looks up |
| Reconciling.CreatedJobs | pkg/controller/helper.go:159-168 | every created Job is one flow's, new, and owned by the JobFlow alone |
| Reconciling.AddsNothingExactly | pkg/controller/jobflow_controller.go:56-72 | a reconcile creates no Job exactly when it reads Failed or no flow is startable |
| Reconciling.ReconcileIsIdempotent | pkg/controller/jobflow_controller.go:38-85 | reconciling again right away creates nothing and leaves the persisted status equal |
| Reconciling.DisjointExactly | pkg/controller/helper.go:104-106 | which JobFlows share no Job name, dependency names included: different namespaces, or no "-s" overlap |
| Reconciling.ReconcilesCommute | pkg/controller/jobflow_controller.go:38-85 | reconciling two such JobFlows in either order gives the same Jobs and statuses |
| Progress.PassRaisesLevel | pkg/controller/helper.go:26-100 | from the Jobs of the flows of chain length up to k, a pass gives those up to k + 1 |
| Progress.ChainBound | pkg/controller/helper.go:55-86 | in an acyclic JobFlow no dependency chain is longer than the number of flows |
| Progress.LevelByLevel | pkg/controller/helper.go:24-102 | if created Jobs succeed between reconciles, after k rounds the Jobs are exactly those of the flows of chain length up to k, and the state is Succeed exactly when that was all of them a round before |
| Progress.RoundsMakeProgress | pkg/controller/helper.go:24-102 | the set of flows without a Job strictly shrinks with every round until it is empty |
| Progress.SucceedsInTime | pkg/controller/helper.go:287-303 | an acyclic JobFlow of n flows reports Succeed after n + 1 reconciles and from then on |
| RunSafety.SafeAlways | pkg/controller/helper.go:38-97 | the run invariant: Jobs under the names are the JobFlow's own, rendered once, from the right template, and with one owner reference; every Job's dependencies have succeeded; success seen in the cache holds on the server |
| RunSafety.DependencySafety | pkg/controller/helper.go:38-97 | in every run with stale reads, at the moment a flow's Job is created every transitive dependency has a Job that succeeded |
| DeletedJobs.DependenciesSucceededOnce | pkg/controller/helper.go:55-88 | in every run with stale reads, Job deletion included: whenever a flow has a Job, every transitive dependency had a Job that succeeded at an earlier entry of the history |
| RunSafety.ImpossibleNeverStarts | pkg/controller/helper.go:57-86 | in every run, Job deletion included, a flow on or above a dependency cycle or an undeclared name never has a Job |
| RunSafety.FailureIsContained | pkg/controller/helper.go:80-83 | once a flow's Job has failed, no flow depending on it, directly or not, has a Job at any moment of the run |
| RunSafety.MountsSharedOnce | pkg/controller/helper.go:199-211 | however many reconciles ran, each container of a flow's Job has the mounts its template gives it followed once by the shared ones |
| RunSafety.JobsAsAsked | pkg/controller/helper.go:153-246 | at every moment of every run each Job of a flow has all its fields as JobFlow, flow and template ask, the template looked up in the JobFlow's namespace |
| RunSafety.EventsQueueTheJobFlow | pkg/controller/helper.go:308-330 | at every moment of every run an event of a flow's Job queues its JobFlow and nothing else |
| RunStatus.SucceedMeansAllDone | pkg/controller/helper.go:251-302 | in every reachable non-deleting state the computed status is Succeed exactly when every declared flow has an owned Job with `Succeeded == 1` |
| RunStatus.FailureIsReported | pkg/controller/helper.go:287-302 | a reconcile whose List shows a failed Job computes Failed, or Terminating when being deleted |
| RunStatus.FailureIsPersisted | pkg/controller/helper.go:120-132 | when that reconcile's status write is accepted, the persisted state is Failed, or Terminating when being deleted |
| RunStatus.DeployAndStatusAgree | pkg/controller/helper.go:81-83 | if the pass gave up on a failed dependency, the status computed later in the same reconcile is Failed or Terminating |
| RunStatus.StateMovesForward | pkg/controller/helper.go:274-303 | without deletions, persisted states go from Pending to Running to Succeed or Failed and never back, whatever the caches show |
| RunStatus.SucceedIsTrue | pkg/controller/helper.go:287-302 | a persisted Succeed is true of the server: every flow's Job has succeeded |
| RunStatus.FailedIsFinal | pkg/controller/jobflow_controller.go:56-58 | a persisted Failed stays in every continuation, deletions and stale reads included |
| RunStatus.FrozenForGood | pkg/controller/jobflow_controller.go:56-58 | once a reconcile can only read Failed, the set of the JobFlow's Jobs stays the same for the rest of the run |
| PassByCalls.AtPcNext | pkg/controller/helper.go:24-102 | call by call on up-to-date answers, a pass has left no ready flow behind it, creates only ready flows, and leaves no flow startable unless an API error ended it |
| Lagging.GotNext | pkg/controller/helper.go:38-92 | as long as nothing is created, every call of a pass under a lagging cache leaves behind flows that let it past at entries of the history in cache order |
| Lagging.CreateLeads | pkg/controller/helper.go:80-88 | a pass about to create a Job that did not exist has found a flow that can be started in this sense |
| Freezing.GrowsExactly | pkg/controller/jobflow_controller.go:56-72 | with no reconcile under way and at any cache lag, the controller left alone can create a Job of the JobFlow exactly when it can read a version that has not failed and some flow can be started: no Job, dependencies succeeded, and each flow before it lets a pass past at an entry the cache can still show, in order |
| Freezing.GrowsWhenCurrent | pkg/controller/jobflow_controller.go:56-72 | with an up-to-date Job cache that condition is a readable version that has not failed and a startable flow |
| Freezing.StartableIsEnough | pkg/controller/helper.go:24-102 | at any cache lag, a startable flow can be started |
| FrozenForever.SafeMeansOrder | pkg/controller/helper.go:38-97 | in every reachable world the history the cache can still show is in order: success and failure stay, and no entry is better than all unfinished Jobs succeeding |
| FrozenForever.FrozenExactly | pkg/controller/jobflow_controller.go:56-72 | from any such moment of any run, at any cache lag, some continuation, progressing Jobs and lagging reads included, gives the JobFlow another Job exactly when it can read a version that has not failed and some flow can be started when every unfinished Job succeeds |
| FrozenForever.FrozenWhenCurrent | pkg/controller/jobflow_controller.go:56-72 | with an up-to-date Job cache that condition is a readable version that has not failed and a flow that would be startable if every unfinished Job succeeded |
| FrozenForever.StartableIsEnough | pkg/controller/helper.go:24-102 | at any cache lag, a flow that would be startable if every unfinished Job succeeded can be started on the way there |
| StaleRead.JobsAfterFailed | pkg/controller/jobflow_controller.go:56-72 | a run in which a reconcile with a stale read creates a Job after Failed was persisted |
| WorkQueue.Queue.OnJobEvent | pkg/controller/helper.go:308-330 | the key is queued, in the Job's namespace, for exactly the owner references of kind JobFlow and API version api.practice.com/v1alpha1 |
| Wakeups.InvAlways | main.go:93-99 | in every reachable cluster, an unqueued JobFlow has a current status and a startable flow only if stranded, or its reconcile under way has missed nothing so far |
| Wakeups.SettledExactly | pkg/controller/jobflow_controller.go:64-84 | a JobFlow neither queued nor worked on is settled exactly when its last reconcile was not cut short by a BadRequest from the API with a flow left to start |
| Wakeups.NoLostWakeup | pkg/controller/helper.go:308-330 | reconciling such a JobFlow undisturbed would create no Job and leave its status as it is, exactly when it is not stranded |
| LostWakeup.BadRequestStrands | pkg/controller/jobflow_controller.go:64-72 | a run that ends with the JobFlow unqueued and unsettled, its Creates having been answered with a BadRequest |
| LaggedWakeups.InvAlways | pkg/controller/helper.go:38-92 | in every run with a lagging cache: a flow with a Job has dependencies whose success the cache shows, and a JobFlow that is neither queued nor about to be told of something is where its reconcile says it is |
| LaggedWakeups.RestingExactly | pkg/controller/helper.go:87-92 | events arriving no earlier than the cache shows their cause: a JobFlow at rest has a startable flow exactly when its last reconcile was ended by a BadRequest, or by AlreadyExists for a flow with dependencies, with such a flow left |
| LaggedLoss.AlreadyExistsStrands | pkg/controller/helper.go:87-92 | a run that ends at rest, the cache caught up, with a startable flow, because AlreadyExists ended the last pass |
| Quiescence.QuietMeansDone | pkg/controller/helper.go:24-102 | in every reachable cluster, an acyclic JobFlow nobody will look at, not stranded, failed or being deleted, with its templates present and its existing Jobs succeeded, has all its Jobs and reports Succeed |
| TemplateArrival.ArrivalExactly | main.go:93-99 | with other templates a settled JobFlow is still settled exactly when it has failed or no flow is startable |
| TemplateArrival.ArrivalIsHarmless | main.go:93-99 | new templates change nothing for a JobFlow whose own templates are present |
| TemplateArrival.ArrivalIsMissed | main.go:93-99 | a reachable cluster in which an unqueued JobFlow would create its Job once its template arrives |
| Strings.JoinSplit | pkg/controller/daemonjob_controller.go:129 | splitting leaves no separator in a field and joining the fields gives the text back |
| Strings.SplitJoin | pkg/controller/daemonjob_controller.go:129 | fields without separators come back from the joined text |
| Templates.OnJobEvent | pkg/controller/jobflow_template_controller.go:115-137 | queues the template of the first two fields of the annotation, nothing without an annotation, and panics exactly on a text without a dot |
| Templates.WrittenDecodes | pkg/controller/jobflow_template_controller.go:115-121 | the text up to the first dot is the namespace and the text up to the second dot or the end is the name |
| Templates.DecodeConnection | pkg/common/common.go:18-20 | both indices are in range for every written annotation, and the decoded key is the template's exactly when neither part has a dot |
| Templates.PanicExactly | pkg/controller/jobflow_template_controller.go:115-137 | a handler panics exactly on a non-empty annotation without a dot |
| Templates.RenderedDecodes | pkg/controller/helper.go:173-183 | what a rendered Job's annotations decode to, with and without global annotations that override the mark |
| Templates.ConnectionInjective | pkg/common/common.go:18-20 | with dot-free namespaces no two templates share an annotation value, whatever their names |
| Templates.DependentsExactly | pkg/controller/jobflow_template_controller.go:86-92 | the filter keeps exactly the Jobs made from the template |
| Templates.EventReachesTemplate | pkg/controller/jobflow_template_controller.go:76-137 | end to end: a Job made from a template decodes to it exactly when the name is dot-free, and reconciling the template records precisely the Jobs made from it, in list order |
| Templates.CollectDependents | pkg/controller/jobflow_template_controller.go:86-104 | the names of the Jobs whose annotation is namespace, dot, name of the template, in list order; the old list when there is none |
| Templates.Reconcile | pkg/controller/jobflow_template_controller.go:44-113 | one List at most; if no listed Job carries the template's annotation the stored list stays, otherwise the names of those that do, in list order, are written |
| Exclusion.Sort | pkg/controller/daemonjob_controller.go:131 | the library's in-place sort: sorted, and a permutation |
| Exclusion.OrderMeans | pkg/controller/daemonjob_controller.go:130-132 | the order is Go's: one string begins the other, or the first differing character decides |
| Exclusion.SplitString | pkg/controller/daemonjob_controller.go:125-133 | a fresh, sorted permutation of the fields of the text without its spaces |
| Exclusion.IsJumpOverNode | pkg/controller/daemonjob_controller.go:136-143 | true exactly when the node is in the list |
| Exclusion.FieldsOfList | pkg/controller/daemonjob_controller.go:125-133 | the ", "-joined text of clean names parses back to the names; no names give one empty field |
| Exclusion.SkippedExactly | pkg/controller/daemonjob_controller.go:125-143 | a node with a name is skipped exactly when it was listed |
| Exclusion.FieldsAreClean | pkg/controller/daemonjob_controller.go:125-133 | no text yields a field with a comma or a space |
| DaemonJobs.NodeKeyInjective | pkg/controller/daemonjob_controller.go:157 | distinct nodes get distinct Job keys, none of them the DaemonJob's own |
| DaemonJobs.RenderedAgain | pkg/controller/daemonjob_controller.go:145-185 | rendering for one node, in the shared container slice, does not show in the next node's Job |
| DaemonJobs.HeadMeans | pkg/controller/daemonjob_controller.go:96-100 | the node that heads a pass is the first of the list that is not excluded, and there is none exactly when all are excluded |
| DaemonJobs.PassesPlaceTheHead | pkg/controller/daemonjob_controller.go:88-123 | any number of undisturbed passes create what the first one does |
| DaemonJobs.PassesCoverExactly | pkg/controller/daemonjob_controller.go:88-123 | undisturbed passes over an unchanging list cover all eligible nodes exactly when there is at most one, or none if a Job bears the DaemonJob's own name |
| DaemonJobs.SecondNodeStarves | pkg/controller/daemonjob_controller.go:88-123 | concrete: with two nodes and no exclusions the second never gets its Job |
| DaemonController.ApplyDaemonGlobals | pkg/controller/daemonjob_controller.go:168-176 | global annotations and labels take over, in the Job and in its Pods, when they are set |
| DaemonController.PrepareJobFromDaemonJob | pkg/controller/daemonjob_controller.go:145-185 | every field of the node's Job spelled out from the DaemonJob, and the state left in the shared slice |
| DaemonJobs.NodeJobAsAsked | pkg/controller/daemonjob_controller.go:145-185 | the Job with key, owner, annotations, labels, environment, restart policy, back-off limit, node and Pod metadata spelled out from the DaemonJob is the rendered one, and the only one |
| DaemonController.PlaceNode | pkg/controller/daemonjob_controller.go:102-120 | own-name lookup, create, and every exit: a fault of either call fails the pass, a Job found goes on to the next node, and only NotFound leads to a create |
| DaemonController.DeployDaemonJob | pkg/controller/daemonjob_controller.go:88-123 | makes exactly the calls of the placement machine under any answers; undisturbed it creates exactly the Job of the first eligible node, unless a Job bears the DaemonJob's own name |
| DaemonCalls.PlacingShaped | pkg/controller/daemonjob_controller.go:88-123 | under any answers the pass fails exactly by a fault, which ends it, and a Job is created only for a listed node that is not excluded, right after the look-up of the own name found nothing |
| DaemonController.GetAllJobStatusFromDaemonJob | pkg/controller/daemonjob_controller.go:215-281 | for any listing: the status map under name/namespace, and the state from the references to completed, failed and active Jobs against the eligible entries of a fresh node list |
| DaemonJobs.PlacingEmbeds | pkg/controller/daemonjob_controller.go:65-72 | the placement machine's calls are calls of the reconcile machine, and any error of the pass ends it, a BadRequest too |
| DaemonController.UpdateDaemonStatus | pkg/controller/daemonjob_controller.go:188-212 | lists Jobs, then nodes; the status those answers give is what is written; after an error nothing is, unless only the reply was lost |
| DaemonController.Reconcile | pkg/controller/daemonjob_controller.go:45-85 | no call for a gone or failed DaemonJob; otherwise the machine's calls; after a fault, which is the last call, nothing is written, and else the status that the last two lists give |
| DaemonCalls.DaemonShaped | pkg/controller/daemonjob_controller.go:45-85 | under any answers a reconcile gives up exactly at its first fault, and otherwise reports the status of the Jobs and nodes it listed last |
| Placement.PlacedExactly | pkg/controller/daemonjob_controller.go:88-123 | over every run, with lists that differ from pass to pass, a node's Job exists exactly when the node headed a completed pass, or one whose Create took effect with its reply lost |
| Placement.CoverageExactly | pkg/controller/daemonjob_controller.go:88-123 | with no lost replies, every eligible node has its Job exactly when each headed a completed pass |
| Placement.OthersStarve | pkg/controller/daemonjob_controller.go:96-121 | if the same node heads every pass, no other node ever gets a Job |
| Placement.OnePerNode | pkg/controller/daemonjob_controller.go:145-165 | never two Jobs of the DaemonJob on one node, and none on an excluded one |
| Placement.PlacedAsAsked | pkg/controller/daemonjob_controller.go:145-185 | at every moment of every run each node's Job has all its fields as the DaemonJob asks, and its events queue no JobFlow |
| Placement.FixedNodes | pkg/controller/daemonjob_controller.go:96-121 | with a fixed node set the DaemonJob has no Job anywhere else |
| Placement.DaemonStatusMeans | pkg/controller/daemonjob_controller.go:215-281 | with a fixed node set the non-deleting status is Succeed exactly when every eligible node's Job has succeeded, and otherwise says where the Jobs are |
| Placement.NeverSucceeds | pkg/controller/daemonjob_controller.go:88-123 | with a fixed head and a second eligible node, the DaemonJob never reports Succeed |

## Left out

- The generated client (pkg/client), start-up, scheme registration and configuration: plumbing; only the event wiring of main.go is taken, as the steps of `Wakeups`.
- Logging, event recording, sleeping, requeue delays and rate limits: a queue is a set of pending keys.
- API errors other than NotFound and AlreadyExists: one kind of fault, which may or may not be a BadRequest and ends the pass.
- PodSpec and JobSpec fields other than containers (mounts, environment), volumes, node name, labels, annotations, restart policy and backoff limit; the library's deep copy of them is taken to be deep.
- Jobs with several completions, owner garbage collection, and edits to a JobFlow's spec during a run.
- The error handler of a JobFlow (pkg/apis/jobflow/v1alpha1/types.go:30-31): no controller reads it.
- The generated deep copies of DaemonJob and JobTemplate, and the DaemonJob's two Job event handlers: they repeat the JobFlow ones with another kind.
- Spare capacity of a slice: `append` is modelled as making a new list, so two slices over one backing array with room to grow are not told apart.
- The Failed gate in the runs of a DaemonJob: passes may start at any time, so runs that the Failed gate would rule out are included; the DaemonJob's own status is not part of the run.
- Wakeups.NoLostWakeup: reads are up to date and templates do not change during a run.
- LaggedWakeups.RestingExactly: says nothing about the status at rest, which may lack a Job that has appeared in the cache since; the JobFlow itself is read up to date, Jobs are not deleted, and templates do not change.

/**
 The JobTemplate back-index: the annotation that prepareJob writes, its decoding in the
 three Job event handlers, and the list of dependent Jobs a template records
 (pkg/controller/jobflow_template_controller.go).
 */
module Templates {
  import opened Kube
  import opened JobFlows
  import opened Strings
  import opened Annotations
  import opened Render
  import opened WorkQueue
  import opened Machine
  import opened Controller

  /** A Go map lookup: a missing key reads as the empty string. */
  function Annotation(annotations: map<string, string>): string {
    if CREATED_BY_TEMPLATE in annotations then annotations[CREATED_BY_TEMPLATE] else ""
  }

  /** What a handler makes of a Job's annotations; indexing a text without dots is a panic. */
  datatype Decoded = Unmarked | Template(key: Key) | Panic

  function Decode(annotations: map<string, string>): Decoded {
    if Annotation(annotations) == "" then Unmarked
    else
      var fields := Split(Annotation(annotations), '.');
      if |fields| < 2 then Panic else Template(Key(fields[0], fields[1]))
  }

  /** The annotation's text begins with these two fields, cut at the first two dots. */
  ghost predicate Written(annotations: map<string, string>, namespace: string, name: string, rest: string) {
    && "createByJobTemplate" in annotations && annotations["createByJobTemplate"] == namespace + "." + name + rest
    && '.' !in namespace && '.' !in name && (rest == "" || rest[0] == '.')
  }

  /** The first two fields are what a handler decodes; every text with a dot has them. */
  lemma WrittenDecodes(annotations: map<string, string>)
    ensures forall namespace, name, rest :: Written(annotations, namespace, name, rest) ==>
              Decode(annotations) == Template(Key(namespace, name))
  {
    forall namespace, name, rest | Written(annotations, namespace, name, rest)
      ensures Decode(annotations) == Template(Key(namespace, name))
    {
      var text := annotations["createByJobTemplate"];
      assert text == namespace + ['.'] + (name + rest);
      SplitAt(namespace, name + rest, '.');
      SplitClean(namespace, '.');
      if rest == "" {
        assert name + rest == name;
        SplitClean(name, '.');
      } else {
        assert name + rest == name + ['.'] + rest[1..];
        SplitAt(name, rest[1..], '.');
        SplitClean(name, '.');
      }
    }
  }

  lemma TextHasFields(annotations: map<string, string>)
    requires "createByJobTemplate" in annotations && '.' in annotations["createByJobTemplate"]
    ensures exists namespace, name, rest :: Written(annotations, namespace, name, rest)
  {
    var text := annotations["createByJobTemplate"];
    var i := FirstDot(text);
    var tail := text[i + 1..];
    var j := FirstDot(tail);
    assert text == text[..i] + "." + tail[..j] + tail[j..];
    assert Written(annotations, text[..i], tail[..j], tail[j..]);
  }

  /** The place of the first dot, or the end of the text. */
  lemma {:induction false} FirstDot(text: string) returns (i: nat)
    ensures i <= |text| && '.' !in text[..i] && (i < |text| ==> text[i] == '.')
  {
    i := 0;
    if text != "" && text[0] != '.' {
      i := FirstDot(text[1..]);
      assert text[..i + 1] == [text[0]] + text[1..][..i];
      i := i + 1;
    }
  }

  /** The create, update and delete handlers have this same body (jobflow_template_controller.go:115-137). */
  method OnJobEvent(queue: Queue, annotations: map<string, string>) returns (panicked: bool)
    modifies queue
    ensures forall namespace, name, rest :: Written(annotations, namespace, name, rest) ==>
              !panicked && queue.keys == old(queue.keys) + {Key(namespace, name)}
    ensures panicked <==> "createByJobTemplate" in annotations && annotations["createByJobTemplate"] != "" &&
                          '.' !in annotations["createByJobTemplate"]
    ensures panicked || "createByJobTemplate" !in annotations || annotations["createByJobTemplate"] == "" ==>
              queue.keys == old(queue.keys)
    ensures panicked <==> Decode(annotations) == Panic
    ensures queue.keys == old(queue.keys) + if Decode(annotations).Template? then {Decode(annotations).key} else {}
  {
    WrittenDecodes(annotations);
    PanicExactly(annotations);
    hide Written, Split;
    panicked := false;
    if Annotation(annotations) != "" {
      var fields := Split(Annotation(annotations), '.');
      if |fields| < 2 {
        return true;
      }
      var namespace, name := fields[0], fields[1];
      queue.Add(Key(namespace, name));
    }
  }

  predicate DotFree(k: Key) {
    '.' !in k.namespace && '.' !in k.name
  }

  function ConnectionOf(k: Key): string {
    Connection(k.namespace, k.name)
  }

  /** The handlers decode a template's connection to that template exactly when neither part has a dot,
      and both indices are in range in any case. */
  lemma DecodeConnection(annotations: map<string, string>, k: Key)
    requires Annotation(annotations) == ConnectionOf(k)
    ensures Decode(annotations).Template?
    ensures Decode(annotations) == Template(k) <==> DotFree(k)
  {
    SplitAt(k.namespace, k.name, '.');
    FirstField(k.namespace, '.');
    FirstField(k.name, '.');
    assert ConnectionOf(k) == k.namespace + ['.'] + k.name;
    if '.' !in k.namespace {
      SplitClean(k.namespace, '.');
    }
  }

  /** A handler panics exactly on a non-empty annotation without a dot. */
  lemma PanicExactly(annotations: map<string, string>)
    ensures Decode(annotations) == Panic <==> Annotation(annotations) != "" && '.' !in Annotation(annotations)
  {
    var text := Annotation(annotations);
    JoinSplit(text, '.');
    if '.' !in text {
      SplitClean(text, '.');
    }
  }

  /** Two templates share a connection only if a namespace contains a dot. */
  lemma ConnectionInjective(a: Key, b: Key)
    requires '.' !in a.namespace && '.' !in b.namespace && ConnectionOf(a) == ConnectionOf(b)
    ensures a == b
  {
    SplitAt(a.namespace, a.name, '.');
    SplitAt(b.namespace, b.name, '.');
    SplitClean(a.namespace, '.');
    SplitClean(b.namespace, '.');
    assert ConnectionOf(a) == a.namespace + ['.'] + a.name && ConnectionOf(b) == b.namespace + ['.'] + b.name;
    assert Split(ConnectionOf(a), '.')[0] == a.namespace && Split(ConnectionOf(b), '.')[0] == b.namespace;
    assert a.name == ConnectionOf(a)[|a.namespace| + 1..] && b.name == ConnectionOf(b)[|b.namespace| + 1..];
  }

  /** The JobFlow's global annotations leave the template mark alone. */
  predicate KeepsMark<C>(jf: JobFlow<C>) {
    CREATED_BY_TEMPLATE !in Entries(jf.globalParams.annotations)
  }

  /** The Job was made by some JobFlow from a flow that refers to this template. */
  ghost predicate MadeFrom(job: JobValue, k: Key) {
    exists jf: JobFlowValue, flow: FlowValue, base: SpecValue ::
      && KeepsMark(jf) && flow.jobTemplateRef != "" && k == Key(jf.namespace, flow.jobTemplateRef)
      && job == RenderJob(jf, flow, base).(status := job.status)
  }

  /** The names of the Jobs that carry the template's connection, in list order. */
  function Dependents(k: Key, items: seq<JobValue>): seq<string> {
    if items == [] then []
    else
      var last := items[|items| - 1];
      Dependents(k, items[..|items| - 1]) + if Annotation(last.annotations) == ConnectionOf(k) then [last.key.name] else []
  }

  /** The names of the Jobs made from the template, in list order. */
  ghost function MadeNames(k: Key, items: seq<JobValue>): seq<string> {
    if items == [] then []
    else
      var last := items[|items| - 1];
      MadeNames(k, items[..|items| - 1]) + if MadeFrom(last, k) then [last.key.name] else []
  }

  /** Jobs made from templates in dot-free namespaces, and Jobs without the mark. */
  ghost predicate ProperlyMarked(job: JobValue) {
    CREATED_BY_TEMPLATE !in job.annotations || exists k :: MadeFrom(job, k) && '.' !in k.namespace
  }

  lemma MadeMark(job: JobValue, k: Key)
    requires MadeFrom(job, k)
    ensures Annotation(job.annotations) == ConnectionOf(k)
  {
  }

  lemma MarkMeaning(job: JobValue, k: Key)
    requires ProperlyMarked(job) && '.' !in k.namespace
    ensures Annotation(job.annotations) == ConnectionOf(k) <==> MadeFrom(job, k)
  {
    if MadeFrom(job, k) {
      MadeMark(job, k);
    }
    if CREATED_BY_TEMPLATE in job.annotations {
      var k' :| MadeFrom(job, k') && '.' !in k'.namespace;
      MadeMark(job, k');
      if ConnectionOf(k') == ConnectionOf(k) {
        ConnectionInjective(k', k);
      }
    }
  }

  /** Comparing connections finds exactly the Jobs made from the template. */
  lemma {:induction false} DependentsExactly(k: Key, items: seq<JobValue>)
    requires '.' !in k.namespace && forall i :: 0 <= i < |items| ==> ProperlyMarked(items[i])
    ensures Dependents(k, items) == MadeNames(k, items)
  {
    if items != [] {
      hide MadeFrom, ProperlyMarked, Annotation;
      DependentsExactly(k, items[..|items| - 1]);
      MarkMeaning(items[|items| - 1], k);
    }
  }

  /** End to end: an event of a Job made from a template queues a key; it is the template's exactly when its
      name is dot-free too, and reconciling the template records precisely the Jobs made from it. */
  lemma EventReachesTemplate(k: Key, items: seq<JobValue>, i: nat)
    requires '.' !in k.namespace && (forall n :: 0 <= n < |items| ==> ProperlyMarked(items[n]))
    requires i < |items| && MadeFrom(items[i], k)
    ensures Decode(items[i].annotations).Template?
    ensures Decode(items[i].annotations) == Template(k) <==> '.' !in k.name
    ensures Recorded(k, items, []) == MadeNames(k, items) && items[i].key.name in MadeNames(k, items)
  {
    MadeMark(items[i], k);
    DecodeConnection(items[i].annotations, k);
    DependentsExactly(k, items);
    MadeNameListed(k, items, i);
  }

  lemma {:induction false} MadeNameListed(k: Key, items: seq<JobValue>, i: nat)
    requires i < |items| && MadeFrom(items[i], k)
    ensures items[i].key.name in MadeNames(k, items)
  {
    if i < |items| - 1 {
      MadeNameListed(k, items[..|items| - 1], i);
    }
  }

  /** What a rendered Job decodes to, global annotations included. */
  lemma RenderedDecodes(jf: JobFlowValue, flow: FlowValue, base: SpecValue)
    ensures var job, k := RenderJob(jf, flow, base), Key(jf.namespace, flow.jobTemplateRef);
            && (KeepsMark(jf) && flow.jobTemplateRef == "" ==> Decode(job.annotations) == Unmarked)
            && (KeepsMark(jf) && flow.jobTemplateRef != "" ==> (Decode(job.annotations) == Template(k) <==> DotFree(k)))
            && (!KeepsMark(jf) ==> Decode(job.annotations) == Decode(Entries(jf.globalParams.annotations)))
  {
    if KeepsMark(jf) && flow.jobTemplateRef != "" {
      DecodeConnection(RenderJob(jf, flow, base).annotations, Key(jf.namespace, flow.jobTemplateRef));
    }
  }

  /** The list after a reconcile: the names found, or the previous list if there are none. */
  function Recorded(k: Key, items: seq<JobValue>, previous: seq<string>): seq<string> {
    if Dependents(k, items) == [] then previous else Dependents(k, items)
  }

  /** The Job's annotation names the template: its namespace, a dot and its name. */
  ghost predicate Carries(job: JobValue, k: Key) {
    "createByJobTemplate" in job.annotations && job.annotations["createByJobTemplate"] == k.namespace + "." + k.name
  }

  /** The names of the Jobs that carry it, in list order. */
  ghost predicate NamesCarriers(items: seq<JobValue>, k: Key, list: seq<string>) {
    exists at: seq<int> :: Carriers(items, k, at) && |at| == |list| && forall n :: 0 <= n < |at| ==> list[n] == items[at[n]].key.name
  }

  ghost predicate Carriers(items: seq<JobValue>, k: Key, at: seq<int>) {
    && (forall n :: 0 <= n < |at| ==> 0 <= at[n] < |items| && Carries(items[at[n]], k))
    && (forall m, n :: 0 <= m < n < |at| ==> at[m] < at[n])
    && (forall i :: 0 <= i < |items| && Carries(items[i], k) ==> i in at)
  }

  lemma {:induction false} CarriersInOrder(k: Key, items: seq<JobValue>) returns (at: seq<int>)
    ensures Carriers(items, k, at) && |at| == |Dependents(k, items)|
    ensures forall n :: 0 <= n < |at| ==> Dependents(k, items)[n] == items[at[n]].key.name
  {
    at := [];
    if items != [] {
      var n := |items| - 1;
      assert Annotation(items[n].annotations) == ConnectionOf(k) <==> Carries(items[n], k) by {
        assert |ConnectionOf(k)| > 0;
      }
      hide Carries, ConnectionOf, Annotation;
      at := CarriersInOrder(k, items[..n]);
      if Carries(items[n], k) {
        at := at + [n];
      }
    }
  }

  lemma DependentsCarry(k: Key, items: seq<JobValue>)
    ensures NamesCarriers(items, k, Dependents(k, items))
    ensures Dependents(k, items) != [] <==> exists i :: 0 <= i < |items| && Carries(items[i], k)
  {
    var at := CarriersInOrder(k, items);
    if at != [] {
      assert Carries(items[at[0]], k);
    }
  }

  /** The stored templates' dependency lists, as the template controller reads and writes them. */
  class TemplateStore {
    const isolated: bool
    var lists: map<Key, seq<string>>

    constructor (isolated: bool, lists: map<Key, seq<string>>)
      ensures this.isolated == isolated && this.lists == lists
    {
      this.isolated, this.lists := isolated, lists;
    }

    method Get(k: Key) returns (fault: bool, found: Option<seq<string>>)
      ensures fault ==> !isolated
      ensures !fault ==> found == if k in lists then Some(lists[k]) else None
    {
      fault, found := *, None;
      fault := fault && !isolated;
      if !fault && k in lists {
        found := Some(lists[k]);
      }
    }

    /** A template that is gone is not an error; a call that reports a fault may have taken effect. */
    method UpdateStatus(k: Key, list: seq<string>) returns (fault: bool)
      modifies this
      ensures fault ==> !isolated
      ensures lists == (if k in old(lists) then old(lists)[k := list] else old(lists)) || (fault && lists == old(lists))
    {
      var lost: bool;
      fault, lost := *, *;
      fault := fault && !isolated;
      if k in lists && (!fault || lost) {
        lists := lists[k := list];
      }
    }
  }

  /** jobflow_template_controller.go:86-104: filter the Jobs, collect their names, overwrite the list if there are any. */
  method CollectDependents(k: Key, items: seq<JobValue>, dependencyList: seq<string>) returns (changed: bool, list: seq<string>)
    ensures changed <==> exists i :: 0 <= i < |items| && Carries(items[i], k)
    ensures if changed then NamesCarriers(items, k, list) else list == dependencyList
    ensures changed <==> Dependents(k, items) != []
    ensures list == Recorded(k, items, dependencyList)
  {
    hide NamesCarriers, Carries;
    var filtered: seq<JobValue> := [];
    for i := 0 to |items|
      invariant Dependents(k, items[..i]) == Names(filtered)
    {
      assert items[..i + 1][..i] == items[..i];
      ghost var before := filtered;
      if Annotation(items[i].annotations) == Connection(k.namespace, k.name) {
        filtered := filtered + [items[i]];
        assert filtered[..|before|] == before;
      }
    }
    assert items[..|items|] == items;
    DependentsCarry(k, items);
    if |filtered| == 0 {
      return false, dependencyList;
    }
    list := [];
    for i := 0 to |filtered|
      invariant list == Names(filtered[..i])
    {
      assert filtered[..i + 1][..i] == filtered[..i];
      list := list + [filtered[i].key.name];
    }
    assert filtered[..|filtered|] == filtered;
    changed := true;
  }

  function Names(jobs: seq<JobValue>): (names: seq<string>)
    ensures |names| == |jobs|
  {
    if jobs == [] then [] else Names(jobs[..|jobs| - 1]) + [jobs[|jobs| - 1].key.name]
  }

  /** jobflow_template_controller.go:44-113.  One List at most; what it answers decides what is written. */
  method Reconcile(client: Client, store: TemplateStore, k: Key) returns (failed: bool, ghost calls: seq<Call>)
    modifies client`log, store
    ensures client.log == old(client.log) + calls
    ensures calls == [] || (|calls| == 1 && calls[0].request == ListJobs && Fits(ListJobs, calls[0].response))
    ensures calls == [] ==> store.lists == old(store.lists) && (!failed ==> k !in old(store.lists))
    ensures calls != [] && calls[0].response.Listed? ==>
              var items := calls[0].response.items;
              if forall i :: 0 <= i < |items| ==> !Carries(items[i], k) then !failed && store.lists == old(store.lists)
              else || (failed && store.lists == old(store.lists))
                   || exists list :: NamesCarriers(items, k, list) && store.lists == old(store.lists)[k := list]
    ensures calls != [] ==>
              && k in old(store.lists)
              && if calls[0].response.Fault? then failed && store.lists == old(store.lists)
                 else
                   || store.lists == old(store.lists)[k := Recorded(k, calls[0].response.items, old(store.lists[k]))]
                   || (failed && store.lists == old(store.lists))
    ensures client.isolated && store.isolated ==> !failed
    ensures client.isolated && Filed(client.jobs) && calls != [] ==>
              calls[0].response.Listed? && IsListing(calls[0].response.items, client.jobs)
  {
    calls := [];
    var fault, found := store.Get(k);
    if fault || found.None? {
      return fault, calls;
    }
    var resp := client.List();
    calls := [Call(ListJobs, resp)];
    if resp.Fault? {
      return true, calls;
    }
    var changed, list := CollectDependents(k, resp.items, found.value);
    if !changed {
      return false, calls;
    }
    failed := store.UpdateStatus(k, list);
  }
}

/**
 The JobFlow controller's event handlers (pkg/controller/helper.go:308-330): a Job that
 changes or goes away queues the JobFlows its owner references name.
 */
module WorkQueue {
  import opened Kube
  import opened JobFlows

  /** The keys a Job event queues. */
  ghost function OwnerKeys(job: JobValue): set<Key> {
    set i | 0 <= i < |job.owners| && job.owners[i].kind == KIND && job.owners[i].apiVersion == API_VERSION ::
      Key(job.key.namespace, job.owners[i].name)
  }

  /** A queue of reconcile requests; a key that is waiting already is not added twice. */
  class Queue {
    var keys: set<Key>

    constructor ()
      ensures keys == {}
    {
      keys := {};
    }

    method Add(k: Key)
      modifies this
      ensures keys == old(keys) + {k}
    {
      keys := keys + {k};
    }

    /** Called with the new object of an update event (helper.go:308-319) and with the deleted one (helper.go:321-330). */
    method OnJobEvent(job: JobValue)
      modifies this
      ensures forall k :: k in keys <==>
                || k in old(keys)
                || exists i :: 0 <= i < |job.owners| && job.owners[i].kind == "JobFlow" &&
                     job.owners[i].apiVersion == "api.practice.com/v1alpha1" && k == Key(job.key.namespace, job.owners[i].name)
      ensures keys == old(keys) + OwnerKeys(job)
    {
      for i := 0 to |job.owners|
        invariant keys == old(keys) + set r | 0 <= r < i && job.owners[r].kind == KIND && job.owners[r].apiVersion == API_VERSION ::
                                        Key(job.key.namespace, job.owners[r].name)
      {
        var ref := job.owners[i];
        if ref.kind == KIND && ref.apiVersion == API_VERSION {
          Add(Key(job.key.namespace, ref.name));
        }
      }
    }
  }
}

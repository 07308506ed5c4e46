/**
 * The job scheduler the activity drives (Android's WorkManager), reduced to
 * its table of work records: each has the tags it was built with, the
 * requested repeat interval, and whether it is still enqueued or was
 * cancelled. Real firing, the platform's minimum interval and delivery of
 * the stop signal to a running worker are not part of this model.
 */
module WorkManagement {

  /** A work request's id (a random UUID in the application). */
  type JobId = nat

  datatype WorkState = Enqueued | Cancelled

  datatype WorkSpec = WorkSpec(tags: set<string>, intervalMinutes: int, state: WorkState)

  /** A built `PeriodicWorkRequest`, not yet enqueued. */
  datatype WorkRequest = WorkRequest(id: JobId, tags: set<string>, intervalMinutes: int)

  type Jobs = map<JobId, WorkSpec>

  /** The ids of the enqueued jobs that carry `tag`. */
  function ActiveWithTag(jobs: Jobs, tag: string): (ids: set<JobId>)
    ensures forall id :: id in ids <==> id in jobs && jobs[id].state == Enqueued && tag in jobs[id].tags
  {
    set id | id in jobs && jobs[id].state == Enqueued && tag in jobs[id].tags
  }

  /** `cancelAllWorkByTag(tag)`. */
  function CancelledByTag(jobs: Jobs, tag: string): (r: Jobs)
    ensures r.Keys == jobs.Keys
    ensures ActiveWithTag(r, tag) == {}
    ensures forall id :: id in jobs && tag !in jobs[id].tags ==> r[id] == jobs[id]
    ensures forall id :: id in jobs ==> r[id].tags == jobs[id].tags && r[id].intervalMinutes == jobs[id].intervalMinutes
  {
    map id | id in jobs :: if tag in jobs[id].tags then jobs[id].(state := Cancelled) else jobs[id]
  }

  /** `enqueue(request)`. */
  function WithEnqueued(jobs: Jobs, request: WorkRequest): (r: Jobs)
    ensures r.Keys == jobs.Keys + {request.id}
    ensures r[request.id] == WorkSpec(request.tags, request.intervalMinutes, Enqueued)
    ensures forall id :: id in jobs && id != request.id ==> r[id] == jobs[id]
  {
    jobs[request.id := WorkSpec(request.tags, request.intervalMinutes, Enqueued)]
  }

  /** `cancelWorkById(id)`; an unknown id cancels nothing. */
  function CancelledById(jobs: Jobs, id: JobId): (r: Jobs)
    ensures r.Keys == jobs.Keys
    ensures id in jobs ==> r[id] == jobs[id].(state := Cancelled)
    ensures forall other :: other in jobs && other != id ==> r[other] == jobs[other]
    ensures id !in jobs ==> r == jobs
  {
    if id in jobs then jobs[id := jobs[id].(state := Cancelled)] else jobs
  }

  /** `pruneWork()`: drops the records of cancelled work and keeps every enqueued job as it was. */
  function Pruned(jobs: Jobs): (r: Jobs)
    ensures forall id :: id in r <==> id in jobs && jobs[id].state == Enqueued
    ensures forall id :: id in r ==> r[id] == jobs[id]
  {
    map id | id in jobs && jobs[id].state == Enqueued :: jobs[id]
  }

  lemma PruneKeepsActive(jobs: Jobs, tag: string)
    ensures ActiveWithTag(Pruned(jobs), tag) == ActiveWithTag(jobs, tag)
  {
  }

  /** The scheduler instance (`WorkManager.getInstance(context)`). */
  class WorkManager {
    var jobs: Jobs

    constructor ()
      ensures jobs == map[]
    {
      jobs := map[];
    }

    method CancelAllWorkByTag(tag: string)
      modifies this
      ensures jobs == CancelledByTag(old(jobs), tag)
    {
      jobs := CancelledByTag(jobs, tag);
    }

    method Enqueue(request: WorkRequest)
      modifies this
      ensures jobs == WithEnqueued(old(jobs), request)
    {
      jobs := WithEnqueued(jobs, request);
    }

    method CancelWorkById(id: JobId)
      modifies this
      ensures jobs == CancelledById(old(jobs), id)
    {
      jobs := CancelledById(jobs, id);
    }

    method PruneWork()
      modifies this
      ensures jobs == Pruned(old(jobs))
    {
      jobs := Pruned(jobs);
    }
  }
}

/** Stopping one Job while everybody else goes on writing (src/scheduler.rs:202-230). `TopScheduler` uses the
    same operation where nobody interferes. */
module Cancelling {
  import opened Wrappers
  import opened Domain
  import opened Records

  class JobCanceller {
    var jobs: map<Id, Job>
    /** The Jobs whose cancellations are logged, in order. */
    var logged: seq<Id>
    /** The Jobs whose Teams were told to stop. */
    var signalled: set<Id>
    /** The Jobs that have a cancellation handle. */
    const handles: set<Id>

    predicate Evolved(was: map<Id, Job>, next: map<Id, Job>) {
      forall id :: id in was ==> id in next && JobEvolves(was[id], next[id])
    }

    lemma EvolvedTransitive(a: map<Id, Job>, b: map<Id, Job>, c: map<Id, Job>)
      requires Evolved(a, b) && Evolved(b, c)
      ensures Evolved(a, c)
    {
      forall id | id in a ensures id in c && JobEvolves(a[id], c[id]) { JobEvolvesTransitive(a[id], b[id], c[id]); }
    }

    /** Whatever others do between two store operations; the protocol lets records only evolve. */
    method Elsewhere(ghost was: map<Id, Job>)
      requires Evolved(was, jobs)
      modifies this`jobs
      ensures Evolved(old(jobs), jobs) && Evolved(was, jobs)
    {
      var next: map<Id, Job> := *;
      if Evolved(jobs, next) {
        EvolvedTransitive(was, jobs, next);
        jobs := next;
      }
    }

    /** A Job that another writer changed since it was read has come further. */
    lemma ConflictAdvances(read: Job, now: Job)
      requires JobEvolves(read, now) && now != read
      ensures JobVersion(read) < JobVersion(now)
    {
    }

    /** No Job that is stored can be left unfinished, and a result that others recorded meanwhile is never
        replaced: the record is written and the event logged once, or not at all. Every conflict means that the
        Job has come further, so the loop meets at most four. */
    method CancelJobRecord(id: Id) returns (r: Result<()>, ghost conflicts: nat)
      modifies this`jobs, this`logged, this`signalled
      ensures Evolved(old(jobs), jobs)
      ensures signalled == old(signalled) + if id in handles then {id} else {}
      ensures r.Err? ==> r == Err(NotFound) && id !in old(jobs) && logged == old(logged)
      ensures r.Ok? ==> id in jobs && jobs[id].status.IsTerminal()
      ensures logged == old(logged) || (r.Ok? && logged == old(logged) + [id] && jobs[id].status.JCancelled?)
      ensures conflicts <= 4
    {
      if id in handles { signalled := signalled + {id}; }
      conflicts := 0;
      while true
        invariant Evolved(old(jobs), jobs) && logged == old(logged) && conflicts <= 4
        invariant signalled == old(signalled) + if id in handles then {id} else {}
        invariant conflicts > 0 ==> id in jobs && JobVersion(jobs[id]) >= conflicts
        decreases 4 - conflicts
      {
        Elsewhere(old(jobs));
        if id !in jobs { return Err(NotFound), conflicts; }
        var job := jobs[id];
        if job.status.IsTerminal() { return Ok(()), conflicts; }
        var next := new JobRecord(job);
        var error := next.TransitionTo(JCancelled);
        assert error.None?;
        Elsewhere(old(jobs));
        if jobs[id] == job {
          JobRewriteEvolves(job, JobCancel);
          ghost var mid := jobs;
          jobs := jobs[id := next.Value()];
          EvolvedTransitive(old(jobs), mid, jobs);
          logged := logged + [id];
          return Ok(()), conflicts;
        }
        ConflictAdvances(job, jobs[id]);
        conflicts := conflicts + 1;
      }
    }
  }
}

/** The cleanup-job service of one process, and how its pass over the due jobs runs on the shared queue. */
module CleanupService {
  import opened Wrappers
  import opened CleanupQueue

  /** How working on one job goes, and the clock when that is known. */
  datatype Attempt = Attempt(ok: bool, at: int)

  /** What one worker alone makes of a job. */
  function Processed(j: Job, o: Attempt): Job {
    if j.status.Pending? then Settled(Started(Claim(j)), j.attempts + 1, o.ok, o.at) else j
  }

  function ProcessedAll(jobs: seq<Job>, found: seq<JobId>, os: seq<Attempt>): (after: seq<Job>)
    requires |found| <= |os| && forall i :: 0 <= i < |found| ==> found[i] < |jobs|
    ensures |after| == |jobs|
  {
    if |found| == 0 then jobs
    else
      var i := |found| - 1;
      var before := ProcessedAll(jobs, found[..i], os);
      before[found[i] := Processed(before[found[i]], os[i])]
  }

  /**
   What processing makes of a job. One that is pending is attempted and started once more; it is
   completed exactly if the work succeeded, given up exactly if the work failed on the last attempt
   allowed, and otherwise waits for the smaller of a minute and two to the power of its attempts.
   */
  lemma ProcessedOutcome(j: Job, o: Attempt)
    ensures var k, n := Processed(j, o), j.attempts + 1;
            && (!j.status.Pending? ==> k == j)
            && (j.status.Pending? ==>
                  && k == j.(status := k.status, attempts := n, availableAt := k.availableAt, runs := j.runs + 1)
                  && (k.status.Completed? <==> o.ok)
                  && (k.status.DeadLetter? <==> !o.ok && n >= j.limit)
                  && (k.status.Pending? <==> !o.ok && n < j.limit)
                  && k.availableAt == if k.status.Pending?
                                      then o.at + (if Power2(n) < 60 then Power2(n) else 60)
                                      else j.availableAt)
  {
  }

  /** The pass treats every listed job once, and no other. */
  lemma {:induction false} PassTreatsEachOnce(jobs: seq<Job>, found: seq<JobId>, os: seq<Attempt>, id: JobId)
    requires |found| <= |os| && (forall i :: 0 <= i < |found| ==> found[i] < |jobs|) && NoDup(found) && id < |jobs|
    ensures var after := ProcessedAll(jobs, found, os);
            && (forall i :: 0 <= i < |found| && found[i] == id ==> after[id] == Processed(jobs[id], os[i]))
            && (id !in found ==> after[id] == jobs[id])
  {
    if |found| == 0 {
    } else {
      var i := |found| - 1;
      PassTreatsEachOnce(jobs, found[..i], os, id);
      assert forall k :: 0 <= k < i ==> found[..i][k] == found[k];
      if found[i] == id {
        assert id !in found[..i];
      } else {
        assert id in found ==> id in found[..i];
      }
    }
  }

  /** Processing a job is claiming it, reading it back and settling it, with nobody in between. */
  lemma ProcessingIsThreeCommands(q: Queue, w: WorkerId, o: Attempt)
    requires Enabled(q, TakeNext(w)) && o.at == q.now
    ensures var id := WorkerOf(q, w).todo[0].job;
            var taken := Step(q, TakeNext(w));
            (if q.jobs[id].status.Pending? then Step(Step(taken, ReadBack(w)), Settle(w, o.ok)) else taken)
            == Put(SetJob(q, id, Processed(q.jobs[id], o)), w, Worker(WorkerOf(q, w).todo[1..], Ready))
  {
    var id := WorkerOf(q, w).todo[0].job;
    var rest := WorkerOf(q, w).todo[1..];
    var taken := Step(q, TakeNext(w));
    if q.jobs[id].status.Pending? {
      var read := Step(taken, ReadBack(w));
      assert taken == Put(SetJob(q, id, Claim(q.jobs[id])), w, Worker(rest, Claimed(id)));
      assert read.jobs == q.jobs[id := Started(Claim(q.jobs[id]))];
      assert read ==
             Put(SetJob(q, id, Started(Claim(q.jobs[id]))), w, Worker(rest, Working(id, q.jobs[id].attempts + 1)));
      var settled := Step(read, Settle(w, o.ok));
      assert settled.jobs == q.jobs[id := Processed(q.jobs[id], o)];
      assert settled.workers == q.workers[w := Worker(rest, Ready)];
    }
  }

  class CleanupJobService {
    const maxAttempts: int
    var jobs: seq<Job>

    constructor (maxAttempts: int)
      ensures jobs == [] && this.maxAttempts == maxAttempts
    {
      this.maxAttempts := maxAttempts;
      jobs := [];
    }

    /** The stored job with the dedupe key, inserted unless it was there. */
    method Enqueue(key: string, now: int) returns (id: JobId)
      modifies this`jobs
      ensures jobs == Enqueued(old(jobs), key, maxAttempts, now)
      ensures id < |jobs| && jobs[id].key == key
    {
      if !HasKey(jobs, key) {
        jobs := jobs + [NewJob(key, maxAttempts, now)];
        return |jobs| - 1;
      }
      id := 0;
      while jobs[id].key != key
        invariant id < |jobs| && forall i :: 0 <= i < id ==> jobs[i].key != key
        decreases |jobs| - id
      {
        if id == |jobs| - 1 {
          assert false;
        }
        id := id + 1;
      }
    }

    method HandleFailure(job: Job, id: JobId, now: int)
      requires id < |jobs| && job.limit == jobs[id].limit
      modifies this`jobs
      ensures jobs == old(jobs)[id := Settled(old(jobs)[id], job.attempts, false, now)]
    {
      if job.attempts >= job.limit {
        jobs := jobs[id := jobs[id].(status := DeadLetter)];
        return;
      }
      var backoff := if Power2(job.attempts) < 60 then Power2(job.attempts) else 60;
      jobs := jobs[id := jobs[id].(status := Pending, availableAt := now + backoff)];
    }

    method ProcessJob(id: JobId, o: Attempt)
      requires id < |jobs|
      modifies this`jobs
      ensures jobs == old(jobs)[id := Processed(old(jobs)[id], o)]
      ensures old(jobs)[id].status.Pending? ==>
                && jobs[id].attempts == old(jobs)[id].attempts + 1
                && (jobs[id].status.Completed? <==> o.ok)
                && (jobs[id].status.DeadLetter? <==> !o.ok && jobs[id].attempts >= jobs[id].limit)
    {
      if !jobs[id].status.Pending? {
        return;
      }
      jobs := jobs[id := jobs[id].(status := Running, attempts := jobs[id].attempts + 1)];
      var refreshed := jobs[id];
      jobs := jobs[id := Started(jobs[id])];
      if !o.ok {
        HandleFailure(refreshed, id, o.at);
        return;
      }
      jobs := jobs[id := jobs[id].(status := Completed)];
    }

    /** found is the answer to the query for due jobs. */
    method RunOnce(found: seq<JobId>, os: seq<Attempt>)
      requires |found| <= |os| && forall i :: 0 <= i < |found| ==> found[i] < |jobs|
      modifies this`jobs
      ensures jobs == ProcessedAll(old(jobs), found, os)
    {
      for i := 0 to |found|
        invariant jobs == ProcessedAll(old(jobs), found[..i], os)
      {
        assert found[..i + 1][..i] == found[..i];
        ProcessJob(found[i], os[i]);
      }
      assert found[..|found|] == found;
    }
  }
}

/** What every run of the cleanup queue guarantees: exclusive work, bounded work, final ends, paced retries. */
module CleanupRuns {
  import opened CleanupQueue

  // ---------- exclusive and bounded work ----------

  lemma OneExecutorPerJob(start: int, acts: seq<Action>, w: WorkerId, v: WorkerId, id: JobId)
    requires Holds(Run(start, acts), w, id) && Holds(Run(start, acts), v, id)
    ensures w == v
  {
    RunKeepsInv(start, acts);
  }

  /** Every attempt is one start of the work, but for a worker that vanishes between claiming and starting. */
  lemma AttemptsCountStarts(start: int, acts: seq<Action>, id: JobId)
    requires id < |Run(start, acts).jobs|
    ensures var j := Run(start, acts).jobs[id];
            && j.runs <= j.attempts <= Cap(j.limit)
            && (j.runs == j.attempts || (j.status.Running? && j.runs == j.attempts - 1))
            && (j.status.DeadLetter? ==> j.attempts == Cap(j.limit))
            && (j.status.Completed? ==> j.attempts >= 1)
            && (j.status.Pending? ==> j.attempts < Cap(j.limit))
  {
    RunKeepsInv(start, acts);
    assert JobOk(Run(start, acts).jobs[id]);
  }

  lemma OneJobPerKey(start: int, acts: seq<Action>, i: JobId, j: JobId)
    requires i < |Run(start, acts).jobs| && j < |Run(start, acts).jobs|
    requires Run(start, acts).jobs[i].key == Run(start, acts).jobs[j].key
    ensures i == j
  {
    RunKeepsInv(start, acts);
  }

  /** A worker claims the next job of its list exactly if that is still pending, and only adds an attempt to it. */
  lemma TakeNextClaims(start: int, acts: seq<Action>, w: WorkerId)
    requires Enabled(Run(start, acts), TakeNext(w))
    ensures var q, r := Run(start, acts), Step(Run(start, acts), TakeNext(w));
            var id := WorkerOf(q, w).todo[0].job;
            && (Holds(r, w, id) <==> q.jobs[id].status.Pending?)
            && (Holds(r, w, id) ==>
                  r.jobs == q.jobs[id := q.jobs[id].(status := Running, attempts := q.jobs[id].attempts + 1)])
            && (!Holds(r, w, id) ==> r.jobs == q.jobs)
            && WorkerOf(r, w).todo == WorkerOf(q, w).todo[1..]
  {
  }

  /**
   In every run, a worker whose work succeeded leaves its job completed; one whose work failed leaves it
   a dead letter exactly if that was the last attempt allowed, and otherwise to be tried again after
   the smaller of a minute and two to the power of its attempts. No other job is touched.
   */
  lemma SettledOutcome(start: int, acts: seq<Action>, w: WorkerId, ok: bool)
    requires Enabled(Run(start, acts), Settle(w, ok))
    ensures var q, r := Run(start, acts), Step(Run(start, acts), Settle(w, ok));
            var id := WorkerOf(q, w).stage.job; var n := q.jobs[id].attempts;
            && q.jobs[id].status.Running? && |r.jobs| == |q.jobs| && WorkerOf(r, w).stage.Ready?
            && (forall i :: 0 <= i < |q.jobs| && i != id ==> r.jobs[i] == q.jobs[i])
            && r.jobs[id] == q.jobs[id].(status := r.jobs[id].status, availableAt := r.jobs[id].availableAt)
            && (r.jobs[id].status.Completed? <==> ok)
            && (r.jobs[id].status.DeadLetter? <==> !ok && n >= q.jobs[id].limit)
            && (r.jobs[id].status.Pending? <==> !ok && n < q.jobs[id].limit)
            && r.jobs[id].availableAt == if r.jobs[id].status.Pending?
                                         then q.now + (if Power2(n) < 60 then Power2(n) else 60)
                                         else q.jobs[id].availableAt
  {
    RunKeepsInv(start, acts);
    assert StageOk(Run(start, acts), Run(start, acts).workers[w]);
  }

  /** A new job is pending and due at once; a key that is stored already adds nothing. */
  lemma EnqueueAdds(q: Queue, key: string, limit: int)
    ensures var r := Step(q, Enqueue(key, limit));
            if exists i: nat :: i < |q.jobs| && q.jobs[i].key == key then r == q
            else r == q.(jobs := q.jobs + [Job(key, Pending, 0, limit, q.now, q.now, 0)])
  {
  }

  // ---------- every job ends after a bounded number of writes ----------

  predicate Final(j: Job) {
    j.status.Completed? || j.status.DeadLetter?
  }

  /** How many more writes a job can see. */
  ghost function Potential(j: Job): nat
    requires j.attempts <= Cap(j.limit)
  {
    match j.status
    case Pending => 2 * (Cap(j.limit) - j.attempts)
    case Running => 2 * (Cap(j.limit) - j.attempts) + 1
    case Completed => 0
    case DeadLetter => 0
  }

  predicate SameStored(j: Job, k: Job) {
    k == j.(runs := k.runs)
  }

  /** A job either stays as stored or uses up some of its potential; a final one stays altogether. */
  ghost predicate Progressed(j: Job, k: Job)
    requires j.attempts <= Cap(j.limit) && k.attempts <= Cap(k.limit)
  {
    && k.limit == j.limit
    && (SameStored(j, k) || Potential(k) < Potential(j))
    && (Final(j) ==> k == j)
  }

  lemma StepProgresses(q: Queue, a: Action, id: JobId)
    requires Inv(q) && id < |q.jobs|
    ensures id < |Step(q, a).jobs|
    ensures JobOk(q.jobs[id]) && JobOk(Step(q, a).jobs[id])
    ensures Progressed(q.jobs[id], Step(q, a).jobs[id])
  {
    StepKeepsInv(q, a);
    assert JobOk(q.jobs[id]);
    var w := match a case ReadBack(w) => w case Settle(w, _) => w case _ => 0;
    if w in q.workers {
      assert StageOk(q, q.workers[w]);
    }
  }

  ghost function Writes(start: int, acts: seq<Action>, id: JobId): nat {
    if |acts| == 0 then 0
    else
      var q := Run(start, acts[..|acts| - 1]);
      var r := Run(start, acts);
      Writes(start, acts[..|acts| - 1], id) +
      (if id < |q.jobs| && id < |r.jobs| && !SameStored(q.jobs[id], r.jobs[id]) then 1 else 0)
  }

  /** From its insertion on, a job is written at most twice per attempt it may have, whoever works on it. */
  lemma {:induction false} WritesAreBounded(start: int, acts: seq<Action>, id: JobId)
    requires id < |Run(start, acts).jobs|
    ensures JobOk(Run(start, acts).jobs[id])
    ensures var j := Run(start, acts).jobs[id];
            Writes(start, acts, id) + Potential(j) <= 2 * Cap(j.limit)
  {
    RunKeepsInv(start, acts);
    if |acts| == 0 {
    } else {
      var q := Run(start, acts[..|acts| - 1]);
      RunKeepsInv(start, acts[..|acts| - 1]);
      if id < |q.jobs| {
        WritesAreBounded(start, acts[..|acts| - 1], id);
        StepProgresses(q, acts[|acts| - 1], id);
      } else {
        NoWritesYet(start, acts[..|acts| - 1], id);
      }
    }
  }

  lemma {:induction false} NoWritesYet(start: int, acts: seq<Action>, id: JobId)
    requires id >= |Run(start, acts).jobs|
    ensures Writes(start, acts, id) == 0
  {
    if |acts| == 0 {
    } else {
      var q := Run(start, acts[..|acts| - 1]);
      RunKeepsInv(start, acts[..|acts| - 1]);
      if id < |q.jobs| {
        StepProgresses(q, acts[|acts| - 1], id);
        assert false;
      }
      NoWritesYet(start, acts[..|acts| - 1], id);
    }
  }

  /** A job that is completed or given up stays exactly as it is. */
  lemma {:induction false} EndsAreFinal(start: int, acts: seq<Action>, k: nat, id: JobId)
    requires k <= |acts| && id < |Run(start, acts[..k]).jobs| && Final(Run(start, acts[..k]).jobs[id])
    ensures id < |Run(start, acts).jobs| && Run(start, acts).jobs[id] == Run(start, acts[..k]).jobs[id]
  {
    if k == |acts| {
      assert acts[..k] == acts;
    } else {
      var front := acts[..|acts| - 1];
      assert front[..k] == acts[..k];
      EndsAreFinal(start, front, k, id);
      RunKeepsInv(start, front);
      StepProgresses(Run(start, front), acts[|acts| - 1], id);
    }
  }

  // ---------- retries are paced ----------

  /** The waiting a job has behind it after n failures. */
  function Backoff(n: nat): int {
    if n == 0 then 0 else Backoff(n - 1) + Delay(n)
  }

  lemma {:induction false} BackoffClosedForm(n: nat)
    ensures n <= 5 ==> Backoff(n) == Power2(n + 1) - 2
    ensures n >= 5 ==> Backoff(n) == 62 + 60 * (n - 5)
    ensures n >= 6 ==> Power2(n) >= 64
  {
    if n == 0 {
    } else {
      BackoffClosedForm(n - 1);
      assert Power2(0) == 1 && Power2(1) == 2 && Power2(2) == 4 && Power2(3) == 8;
      assert Power2(4) == 16 && Power2(5) == 32 && Power2(6) == 64;
    }
  }

  /**
   A claim before the job is available again happens only if the job has been attempted by somebody
   else since the claiming worker listed it: the claim checks the status and not the time.
   */
  lemma EarlyClaimsAreStale(start: int, acts: seq<Action>, w: WorkerId)
    requires var q := Run(start, acts); Enabled(q, TakeNext(w)) && q.jobs[WorkerOf(q, w).todo[0].job].status.Pending?
    ensures var q := Run(start, acts);
            var t := WorkerOf(q, w).todo[0];
            q.jobs[t.job].availableAt > q.now ==> q.jobs[t.job].attempts > t.attempts
  {
    RunKeepsInv(start, acts);
    var q := Run(start, acts);
    assert TicketsOk(q, q.workers[w]);
    assert TicketOk(q, q.workers[w].todo[0]);
  }

  /** Worker w, or no worker at all, does a. */
  predicate DoneBy(w: WorkerId, a: Action) {
    match a
    case Enqueue(_, _) => true
    case Tick(_) => true
    case Fetch(v, _) => v == w
    case TakeNext(v) => v == w
    case ReadBack(v) => v == w
    case Settle(v, _) => v == w
    case Vanish(v) => v == w
  }

  ghost predicate Only(w: WorkerId, acts: seq<Action>) {
    forall i :: 0 <= i < |acts| ==> DoneBy(w, acts[i])
  }

  /** Nothing on the worker's list has been touched since it was listed. */
  ghost predicate FreshList(q: Queue, w: WorkerId) {
    var todo := WorkerOf(q, w).todo;
    && (forall i, j :: 0 <= i < j < |todo| ==> todo[i].job != todo[j].job)
    && forall i :: 0 <= i < |todo| ==>
         && todo[i].job < |q.jobs| && Due(q.jobs[todo[i].job], q.now)
         && !Holds(q, w, todo[i].job)
  }

  /** So long after a job was enqueued it may have been attempted that often. */
  ghost predicate Paced(j: Job, now: int) {
    && (j.status.Pending? ==> j.availableAt >= j.createdAt + Backoff(j.attempts))
    && (j.status.Running? && j.attempts >= 1 ==> now >= j.createdAt + Backoff(j.attempts - 1))
  }

  ghost predicate AllPaced(q: Queue) {
    forall i :: 0 <= i < |q.jobs| ==> Paced(q.jobs[i], q.now)
  }

  lemma FetchKeepsPace(q: Queue, found: seq<JobId>, w: WorkerId)
    requires FreshList(q, w) && AllPaced(q)
    ensures FreshList(Step(q, Fetch(w, found)), w) && AllPaced(Step(q, Fetch(w, found)))
  {
  }

  lemma TakeNextKeepsPace(q: Queue, w: WorkerId)
    requires FreshList(q, w) && AllPaced(q)
    ensures FreshList(Step(q, TakeNext(w)), w) && AllPaced(Step(q, TakeNext(w)))
  {
    if Enabled(q, TakeNext(w)) {
      var todo := WorkerOf(q, w).todo;
      var r := Step(q, TakeNext(w));
      assert Paced(q.jobs[todo[0].job], q.now) && Due(q.jobs[todo[0].job], q.now);
      assert WorkerOf(r, w).todo == todo[1..];
    }
  }

  lemma SettleKeepsPace(q: Queue, w: WorkerId, ok: bool)
    requires Inv(q) && FreshList(q, w) && AllPaced(q)
    ensures FreshList(Step(q, Settle(w, ok)), w) && AllPaced(Step(q, Settle(w, ok)))
  {
    if Enabled(q, Settle(w, ok)) {
      var id := WorkerOf(q, w).stage.job;
      assert StageOk(q, q.workers[w]) && Holds(q, w, id);
      assert JobOk(q.jobs[id]) && Paced(q.jobs[id], q.now);
      var r := Step(q, Settle(w, ok));
      assert WorkerOf(r, w).todo == WorkerOf(q, w).todo;
      assert Paced(r.jobs[id], r.now);
    }
  }

  lemma ReadBackKeepsPace(q: Queue, w: WorkerId)
    requires FreshList(q, w) && AllPaced(q)
    ensures FreshList(Step(q, ReadBack(w)), w) && AllPaced(Step(q, ReadBack(w)))
  {
    if Enabled(q, ReadBack(w)) {
      assert Holds(q, w, WorkerOf(q, w).stage.job);
    }
  }

  lemma StepKeepsPace(q: Queue, a: Action, w: WorkerId)
    requires Inv(q) && FreshList(q, w) && AllPaced(q) && DoneBy(w, a)
    ensures FreshList(Step(q, a), w) && AllPaced(Step(q, a))
  {
    match a
    case Enqueue(key, limit) => assert WorkerOf(Step(q, a), w) == WorkerOf(q, w);
    case Tick(n) => assert WorkerOf(Step(q, a), w) == WorkerOf(q, w);
    case Fetch(_, found) => FetchKeepsPace(q, found, w);
    case TakeNext(_) => TakeNextKeepsPace(q, w);
    case ReadBack(_) => ReadBackKeepsPace(q, w);
    case Settle(_, ok) => SettleKeepsPace(q, w, ok);
    case Vanish(_) => assert WorkerOf(Step(q, a), w) == IDLE;
  }

  lemma {:induction false} RunKeepsPace(start: int, acts: seq<Action>, w: WorkerId)
    requires Only(w, acts)
    ensures FreshList(Run(start, acts), w) && AllPaced(Run(start, acts))
  {
    if |acts| == 0 {
    } else {
      assert Only(w, acts[..|acts| - 1]);
      RunKeepsInv(start, acts[..|acts| - 1]);
      RunKeepsPace(start, acts[..|acts| - 1], w);
      StepKeepsPace(Run(start, acts[..|acts| - 1]), acts[|acts| - 1], w);
    }
  }

  /** With one worker, the n-th attempt of a job starts no sooner than the waits of its n - 1 failures allow. */
  lemma OneWorkerKeepsPace(start: int, acts: seq<Action>, w: WorkerId, id: JobId)
    requires Only(w, acts) && id < |Run(start, acts).jobs| && Run(start, acts).jobs[id].status.Running?
    ensures var q := Run(start, acts);
            var n := q.jobs[id].attempts - 1;
            && n >= 0 && q.now - q.jobs[id].createdAt >= Backoff(n)
            && Backoff(n) == if n <= 5 then Power2(n + 1) - 2 else 62 + 60 * (n - 5)
  {
    RunKeepsInv(start, acts);
    RunKeepsPace(start, acts, w);
    var j := Run(start, acts).jobs[id];
    assert JobOk(j) && Paced(j, Run(start, acts).now);
    BackoffClosedForm(j.attempts - 1);
  }

  // ---------- with two workers they are not ----------

  lemma OneMore(start: int, acts: seq<Action>, a: Action)
    ensures Run(start, acts + [a]) == Step(Run(start, acts), a)
  {
    assert (acts + [a])[..|acts|] == acts;
  }

  function BothList(key: string): seq<Action> {
    [Enqueue(key, 5)] + [Fetch(1, [0])] + [Fetch(2, [0])]
  }

  lemma BothListed(key: string)
    ensures Run(0, BothList(key)) ==
            Queue(0, [NewJob(key, 5, 0)], map[1 := Worker([Ticket(0, 0)], Ready), 2 := Worker([Ticket(0, 0)], Ready)])
  {
    var a := [Enqueue(key, 5)];
    assert [] + a == a;
    OneMore(0, [], Enqueue(key, 5));
    OneMore(0, a, Fetch(1, [0]));
    OneMore(0, a + [Fetch(1, [0])], Fetch(2, [0]));
    var jobs := [NewJob(key, 5, 0)];
    assert Tickets(jobs, [0]) == [Ticket(0, 0)];
    assert Run(0, a) == Queue(0, jobs, map[]);
    assert Enabled(Run(0, a), Fetch(1, [0]));
    assert Run(0, a + [Fetch(1, [0])]) == Queue(0, jobs, map[1 := Worker([Ticket(0, 0)], Ready)]);
    assert Enabled(Run(0, a + [Fetch(1, [0])]), Fetch(2, [0]));
  }

  function FirstFails(key: string): seq<Action> {
    BothList(key) + [TakeNext(1)] + [ReadBack(1)] + [Settle(1, false)]
  }

  lemma FirstFailed(key: string)
    ensures var q := Run(0, FirstFails(key));
            && q.now == 0 && q.jobs == [Job(key, Pending, 1, 5, 2, 0, 1)]
            && 2 in q.workers && q.workers[2] == Worker([Ticket(0, 0)], Ready)
  {
    BothListed(key);
    var a := BothList(key);
    OneMore(0, a, TakeNext(1));
    OneMore(0, a + [TakeNext(1)], ReadBack(1));
    OneMore(0, a + [TakeNext(1)] + [ReadBack(1)], Settle(1, false));
    assert Run(0, a + [TakeNext(1)]).jobs == [Job(key, Running, 1, 5, 0, 0, 0)];
    assert Run(0, a + [TakeNext(1)] + [ReadBack(1)]).jobs == [Job(key, Running, 1, 5, 0, 0, 1)];
    assert Power2(1) == 2;
  }

  /** Two workers list a job; one fails on it, and the other retries at once instead of two seconds later. */
  lemma TwoWorkersOutrunTheWait(key: string)
    ensures var q := Run(0, FirstFails(key) + [TakeNext(2)]);
            && |q.jobs| == 1 && q.jobs[0].status.Running? && q.jobs[0].attempts == 2
            && q.now - q.jobs[0].createdAt < Backoff(1)
  {
    FirstFailed(key);
    OneMore(0, FirstFails(key), TakeNext(2));
    assert Power2(1) == 2;
  }
}

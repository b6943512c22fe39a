/**
 The cleanup-job queue: many workers, each with its own and possibly stale list of jobs, take jobs
 by a compare-and-set on the stored status. One action is one database command.
 */
module CleanupQueue {
  import opened Wrappers

  type JobId = nat
  type WorkerId = nat

  datatype Status = Pending | Running | Completed | DeadLetter

  /** `runs` is history: how often the work of the job has been started. */
  datatype Job = Job(key: string, status: Status, attempts: nat, limit: int, availableAt: int, createdAt: int,
    runs: nat)

  /** Between jobs; having claimed one; having read it back, and so working on it. */
  datatype Stage = Ready | Claimed(job: JobId) | Working(job: JobId, attempts: nat)

  /** A job as the query for due jobs returned it. */
  datatype Ticket = Ticket(job: JobId, attempts: nat)

  datatype Worker = Worker(todo: seq<Ticket>, stage: Stage)

  datatype Queue = Queue(now: int, jobs: seq<Job>, workers: map<WorkerId, Worker>)

  const IDLE := Worker([], Ready)

  function Power2(n: nat): (p: nat)
    ensures p >= 1
  {
    if n == 0 then 1 else 2 * Power2(n - 1)
  }

  /** Seconds to wait after the attempts-th failure. */
  function Delay(attempts: nat): int {
    if Power2(attempts) < 60 then Power2(attempts) else 60
  }

  /** A job is given up after this many attempts; it is always attempted once. */
  function Cap(limit: int): nat {
    if limit < 1 then 1 else limit
  }

  // ---------- one command on one job ----------

  function NewJob(key: string, limit: int, now: int): Job {
    Job(key, Pending, 0, limit, now, now, 0)
  }

  predicate HasKey(jobs: seq<Job>, key: string) {
    exists i: nat :: i < |jobs| && jobs[i].key == key
  }

  function Enqueued(jobs: seq<Job>, key: string, limit: int, now: int): seq<Job> {
    if HasKey(jobs, key) then jobs else jobs + [NewJob(key, limit, now)]
  }

  predicate Due(j: Job, now: int) {
    j.status.Pending? && j.availableAt <= now
  }

  /** Only a pending job can be claimed; when it becomes available is not looked at again. */
  function Claim(j: Job): Job {
    if j.status.Pending? then j.(status := Running, attempts := j.attempts + 1) else j
  }

  function Started(j: Job): Job {
    j.(runs := j.runs + 1)
  }

  /** What is written when work on the job, read back with this many attempts, is over. */
  function Settled(j: Job, attempts: nat, ok: bool, now: int): Job {
    if ok then j.(status := Completed)
    else if attempts >= j.limit then j.(status := DeadLetter)
    else j.(status := Pending, availableAt := now + Delay(attempts))
  }

  // ---------- actions ----------

  datatype Action =
    | Enqueue(key: string, limit: int)
    | Fetch(worker: WorkerId, found: seq<JobId>)
    | TakeNext(worker: WorkerId)
    | ReadBack(worker: WorkerId)
    | Settle(worker: WorkerId, ok: bool)
    | Vanish(worker: WorkerId)
    | Tick(seconds: nat)

  function WorkerOf(q: Queue, w: WorkerId): Worker {
    if w in q.workers then q.workers[w] else IDLE
  }

  /** What the query for due jobs may answer: any list of them, none twice. */
  ghost predicate DueList(q: Queue, found: seq<JobId>) {
    && NoDup(found)
    && forall i :: 0 <= i < |found| ==> found[i] < |q.jobs| && Due(q.jobs[found[i]], q.now)
  }

  ghost predicate Enabled(q: Queue, a: Action) {
    match a
    case Fetch(w, found) => WorkerOf(q, w) == IDLE && DueList(q, found)
    case TakeNext(w) =>
      WorkerOf(q, w).stage.Ready? && |WorkerOf(q, w).todo| > 0 && WorkerOf(q, w).todo[0].job < |q.jobs|
    case ReadBack(w) => WorkerOf(q, w).stage.Claimed? && WorkerOf(q, w).stage.job < |q.jobs|
    case Settle(w, ok) => WorkerOf(q, w).stage.Working? && WorkerOf(q, w).stage.job < |q.jobs|
    case _ => true
  }

  function Put(q: Queue, w: WorkerId, k: Worker): Queue {
    q.(workers := q.workers[w := k])
  }

  function SetJob(q: Queue, id: JobId, j: Job): Queue
    requires id < |q.jobs|
  {
    q.(jobs := q.jobs[id := j])
  }

  function Tickets(jobs: seq<Job>, found: seq<JobId>): (ts: seq<Ticket>)
    requires forall i :: 0 <= i < |found| ==> found[i] < |jobs|
    ensures |ts| == |found| && forall i :: 0 <= i < |found| ==> ts[i] == Ticket(found[i], jobs[found[i]].attempts)
  {
    seq(|found|, i requires 0 <= i < |found| => Ticket(found[i], jobs[found[i]].attempts))
  }

  ghost function TakenNext(q: Queue, w: WorkerId): Queue
    requires Enabled(q, TakeNext(w))
  {
    var k := WorkerOf(q, w);
    var id := k.todo[0].job;
    Put(SetJob(q, id, Claim(q.jobs[id])), w,
        Worker(k.todo[1..], if q.jobs[id].status.Pending? then Claimed(id) else Ready))
  }

  ghost function BackRead(q: Queue, w: WorkerId): Queue
    requires Enabled(q, ReadBack(w))
  {
    var k := WorkerOf(q, w);
    var id := k.stage.job;
    Put(SetJob(q, id, Started(q.jobs[id])), w, k.(stage := Working(id, q.jobs[id].attempts)))
  }

  ghost function AfterWork(q: Queue, w: WorkerId, ok: bool): Queue
    requires Enabled(q, Settle(w, ok))
  {
    var k := WorkerOf(q, w);
    var id := k.stage.job;
    Put(SetJob(q, id, Settled(q.jobs[id], k.stage.attempts, ok, q.now)), w, k.(stage := Ready))
  }

  /** An action that is not enabled does nothing. */
  ghost function Step(q: Queue, a: Action): Queue {
    if !Enabled(q, a) then q
    else
      match a
      case Enqueue(key, limit) => q.(jobs := Enqueued(q.jobs, key, limit, q.now))
      case Fetch(w, found) => Put(q, w, Worker(Tickets(q.jobs, found), Ready))
      case TakeNext(w) => TakenNext(q, w)
      case ReadBack(w) => BackRead(q, w)
      case Settle(w, ok) => AfterWork(q, w, ok)
      case Vanish(w) => Put(q, w, IDLE)
      case Tick(n) => q.(now := q.now + n)
  }

  /** The queue after a run that starts with no jobs and no workers. */
  ghost function Run(start: int, acts: seq<Action>): Queue {
    if |acts| == 0 then Queue(start, [], map[]) else Step(Run(start, acts[..|acts| - 1]), acts[|acts| - 1])
  }

  // ---------- invariants of every run ----------

  ghost predicate JobOk(j: Job) {
    && j.attempts <= Cap(j.limit)
    && (j.status.Pending? ==> j.attempts < Cap(j.limit))
    && (j.status.Running? ==> 1 <= j.attempts && j.attempts - 1 <= j.runs <= j.attempts)
    && (!j.status.Running? ==> j.runs == j.attempts)
    && (j.status.DeadLetter? ==> j.attempts == Cap(j.limit))
    && (j.status.Completed? ==> 1 <= j.attempts)
  }

  ghost predicate Holds(q: Queue, w: WorkerId, id: JobId) {
    !WorkerOf(q, w).stage.Ready? && WorkerOf(q, w).stage.job == id
  }

  ghost predicate StageOk(q: Queue, k: Worker) {
    match k.stage
    case Ready => true
    case Claimed(id) => id < |q.jobs| && q.jobs[id].status.Running? && q.jobs[id].runs == q.jobs[id].attempts - 1
    case Working(id, a) =>
      id < |q.jobs| && q.jobs[id].status.Running? && q.jobs[id].runs == q.jobs[id].attempts == a
  }

  /** A job that still is as its ticket says is available; since then its attempts can only have grown. */
  ghost predicate TicketOk(q: Queue, t: Ticket) {
    && t.job < |q.jobs|
    && t.attempts <= q.jobs[t.job].attempts
    && (q.jobs[t.job].status.Running? ==> t.attempts < q.jobs[t.job].attempts)
    && (q.jobs[t.job].status.Pending? && q.jobs[t.job].attempts == t.attempts ==> q.jobs[t.job].availableAt <= q.now)
  }

  ghost predicate TicketsOk(q: Queue, k: Worker) {
    forall i :: 0 <= i < |k.todo| ==> TicketOk(q, k.todo[i])
  }

  ghost predicate WorkersOk(q: Queue) {
    forall w :: w in q.workers ==> StageOk(q, q.workers[w]) && TicketsOk(q, q.workers[w])
  }

  ghost predicate OneHolder(q: Queue) {
    forall w, v, id :: Holds(q, w, id) && Holds(q, v, id) ==> w == v
  }

  ghost predicate KeysDistinct(jobs: seq<Job>) {
    forall i, j :: 0 <= i < j < |jobs| ==> jobs[i].key != jobs[j].key
  }

  ghost predicate Inv(q: Queue) {
    && (forall i :: 0 <= i < |q.jobs| ==> JobOk(q.jobs[i]))
    && WorkersOk(q) && OneHolder(q) && KeysDistinct(q.jobs)
  }

  lemma EnqueueKeeps(q: Queue, key: string, limit: int)
    requires Inv(q)
    ensures Inv(Step(q, Enqueue(key, limit)))
  {
    var r := Step(q, Enqueue(key, limit));
    forall w | w in r.workers ensures TicketsOk(r, r.workers[w]) {
      assert TicketsOk(q, q.workers[w]);
      forall i | 0 <= i < |r.workers[w].todo| ensures TicketOk(r, r.workers[w].todo[i]) {
        assert TicketOk(q, q.workers[w].todo[i]);
      }
    }
    forall w, v, id | Holds(r, w, id) && Holds(r, v, id) ensures w == v {
      assert Holds(q, w, id) && Holds(q, v, id);
    }
  }

  lemma FetchKeeps(q: Queue, w: WorkerId, found: seq<JobId>)
    requires Inv(q)
    ensures Inv(Step(q, Fetch(w, found)))
  {
    var r := Step(q, Fetch(w, found));
    if r != q {
      KeptByWorker(q, r, w);
    }
  }

  /** r differs from q in worker w alone, who holds nothing new. */
  lemma KeptByWorker(q: Queue, r: Queue, w: WorkerId)
    requires Inv(q)
    requires w in r.workers && r == Put(q, w, r.workers[w])
    requires r.workers[w].stage.Ready? && TicketsOk(q, r.workers[w])
    ensures Inv(r)
  {
    forall v | v in r.workers ensures StageOk(r, r.workers[v]) && TicketsOk(r, r.workers[v]) {
      forall i | 0 <= i < |r.workers[v].todo| ensures TicketOk(r, r.workers[v].todo[i]) {
        if v != w {
          assert TicketsOk(q, q.workers[v]);
        }
        assert TicketOk(q, r.workers[v].todo[i]);
      }
    }
    forall v, x, id | Holds(r, v, id) && Holds(r, x, id) ensures v == x {
      assert Holds(q, v, id) && Holds(q, x, id);
    }
  }

  /** How a command may change the job it is about, as far as other workers' tickets can tell. */
  ghost predicate Advances(j: Job, j': Job, now: int) {
    && j'.key == j.key && j'.limit == j.limit && j'.createdAt == j.createdAt
    && j'.attempts >= j.attempts
    && (j'.status.Running? ==> j.status.Running? || j'.attempts > j.attempts)
    && (j'.status.Pending? ==> j' == j || j.status.Running?)
  }

  lemma TicketStays(q: Queue, r: Queue, id: JobId, t: Ticket)
    requires TicketOk(q, t) && r.now == q.now && id < |q.jobs| && |r.jobs| == |q.jobs|
    requires forall i :: 0 <= i < |q.jobs| && i != id ==> r.jobs[i] == q.jobs[i]
    requires Advances(q.jobs[id], r.jobs[id], q.now)
    ensures TicketOk(r, t)
  {
  }

  /** Worker w writes job id, which nobody else holds. */
  lemma WriteKeeps(q: Queue, r: Queue, w: WorkerId, id: JobId)
    requires Inv(q) && id < |q.jobs| && w in q.workers && w in r.workers
    requires |r.jobs| == |q.jobs| && r == Put(SetJob(q, id, r.jobs[id]), w, r.workers[w])
    requires JobOk(r.jobs[id]) && Advances(q.jobs[id], r.jobs[id], q.now)
    requires StageOk(r, r.workers[w]) && (r.workers[w].stage.Ready? || r.workers[w].stage.job == id)
    requires forall v :: v != w ==> !Holds(q, v, id)
    requires forall t :: t in r.workers[w].todo ==> t in q.workers[w].todo
    ensures Inv(r)
  {
    forall v | v in r.workers ensures StageOk(r, r.workers[v]) && TicketsOk(r, r.workers[v]) {
      if v != w {
        assert StageOk(q, q.workers[v]) && !Holds(q, v, id);
      }
      forall i | 0 <= i < |r.workers[v].todo| ensures TicketOk(r, r.workers[v].todo[i]) {
        var t := r.workers[v].todo[i];
        assert t in r.workers[v].todo;
        assert TicketsOk(q, q.workers[v]);
        TicketStays(q, r, id, t);
      }
    }
    forall v, x, j | Holds(r, v, j) && Holds(r, x, j) ensures v == x {
      if v != w { assert Holds(q, v, j); }
      if x != w { assert Holds(q, x, j); }
    }
  }

  lemma TakeNextKeeps(q: Queue, w: WorkerId)
    requires Inv(q)
    ensures Inv(Step(q, TakeNext(w)))
  {
    if Enabled(q, TakeNext(w)) {
      var id := WorkerOf(q, w).todo[0].job;
      var r := Step(q, TakeNext(w));
      forall t | t in r.workers[w].todo ensures t in q.workers[w].todo {}
      if q.jobs[id].status.Pending? {
        forall v | v != w ensures !Holds(q, v, id) {
          if v in q.workers { assert StageOk(q, q.workers[v]); }
        }
        WriteKeeps(q, r, w, id);
      } else {
        assert r.jobs == q.jobs;
        assert TicketsOk(q, q.workers[w]);
        KeptByWorker(q, r, w);
      }
    }
  }

  lemma ReadBackKeeps(q: Queue, w: WorkerId)
    requires Inv(q)
    ensures Inv(Step(q, ReadBack(w)))
  {
    if Enabled(q, ReadBack(w)) {
      var id := WorkerOf(q, w).stage.job;
      assert Holds(q, w, id) && StageOk(q, q.workers[w]);
      WriteKeeps(q, Step(q, ReadBack(w)), w, id);
    }
  }

  lemma SettleKeeps(q: Queue, w: WorkerId, ok: bool)
    requires Inv(q)
    ensures Inv(Step(q, Settle(w, ok)))
  {
    if Enabled(q, Settle(w, ok)) {
      var id := WorkerOf(q, w).stage.job;
      assert Holds(q, w, id) && StageOk(q, q.workers[w]);
      WriteKeeps(q, Step(q, Settle(w, ok)), w, id);
    }
  }

  lemma TickKeeps(q: Queue, n: nat)
    requires Inv(q)
    ensures Inv(Step(q, Tick(n)))
  {
    var r := Step(q, Tick(n));
    forall w | w in r.workers ensures TicketsOk(r, r.workers[w]) {
      forall i | 0 <= i < |r.workers[w].todo| ensures TicketOk(r, r.workers[w].todo[i]) {
        assert TicketsOk(q, q.workers[w]);
        assert TicketOk(q, q.workers[w].todo[i]);
      }
    }
    forall w, v, id | Holds(r, w, id) && Holds(r, v, id) ensures w == v {
      assert Holds(q, w, id) && Holds(q, v, id);
    }
  }

  lemma StepKeepsInv(q: Queue, a: Action)
    requires Inv(q)
    ensures Inv(Step(q, a))
  {
    match a
    case Enqueue(key, limit) => EnqueueKeeps(q, key, limit);
    case Fetch(w, found) => FetchKeeps(q, w, found);
    case TakeNext(w) => TakeNextKeeps(q, w);
    case ReadBack(w) => ReadBackKeeps(q, w);
    case Settle(w, ok) => SettleKeeps(q, w, ok);
    case Vanish(w) => KeptByWorker(q, Step(q, a), w);
    case Tick(n) => TickKeeps(q, n);
  }

  lemma {:induction false} RunKeepsInv(start: int, acts: seq<Action>)
    ensures Inv(Run(start, acts))
  {
    if |acts| == 0 {
    } else {
      RunKeepsInv(start, acts[..|acts| - 1]);
      StepKeepsInv(Run(start, acts[..|acts| - 1]), acts[|acts| - 1]);
    }
  }
}

/**
 Payment dispatch (internal/payment/dispatcher.go, fed by internal/rpc/server.go and
 internal/scheduler/scheduler.go): a bounded queue, a worker pool with retries, conditional row
 updates, and recovery at start-up. Lightning outcomes, cancellation and failing statements are
 nondeterministic; a failing statement changes nothing. Satoshi amounts are reals, as in the counter.
 */
module Payments {
  import opened Options
  import opened Sums

  type TaskId = nat

  datatype Payment = Pending | Paid | Failed
  datatype TaskStatus = Queued | Running | Completed | Abandoned

  /** A row of tasks. */
  datatype Task = Task(uri: string, reward: real, status: TaskStatus, payment: Payment, preimage: Option<string>)

  type Tasks = map<TaskId, Task>

  datatype Job = Job(task: TaskId, uri: string, amount: real)

  const QUEUE_SIZE: nat := 1000
  const ATTEMPTS: nat := 4
  const WORKERS: nat := 10

  // ------------------------------------------------ statements and the channel

  predicate IsPending(ts: Tasks, t: TaskId) {
    t in ts && ts[t].payment == Pending
  }

  function MarkPaid(ts: Tasks, t: TaskId, preimage: string): Tasks {
    if IsPending(ts, t) then ts[t := ts[t].(payment := Paid, preimage := Some(preimage))] else ts
  }

  function MarkUnpaid(ts: Tasks, t: TaskId): Tasks {
    if IsPending(ts, t) then ts[t := ts[t].(payment := Failed)] else ts
  }

  function SetStatus(ts: Tasks, t: TaskId, status: TaskStatus): Tasks {
    if t in ts then ts[t := ts[t].(status := status)] else ts
  }

  /** A non-blocking send: a full queue drops the job. */
  function Offer(q: seq<Job>, j: Job): seq<Job> {
    if |q| < QUEUE_SIZE then q + [j] else q
  }

  function OfferAll(q: seq<Job>, rows: seq<Job>): seq<Job> {
    if rows == [] then q else Offer(OfferAll(q, rows[..|rows| - 1]), rows[|rows| - 1])
  }

  /** Offering rows to a queue appends the longest prefix of them that fits. */
  lemma {:induction false} OfferAllPrefix(q: seq<Job>, rows: seq<Job>)
    requires |q| <= QUEUE_SIZE
    ensures var n := if |rows| <= QUEUE_SIZE - |q| then |rows| else QUEUE_SIZE - |q|;
      OfferAll(q, rows) == q + rows[..n]
    decreases |rows|
  {
    if rows == [] {
      assert q + [] == q;
    } else {
      var m := |rows| - 1;
      OfferAllPrefix(q, rows[..m]);
      if |rows| <= QUEUE_SIZE - |q| {
        assert rows[..m][..m] == rows[..m];
        assert q + rows[..m] + [rows[m]] == q + rows[..m + 1];
      } else {
        var n := QUEUE_SIZE - |q|;
        assert rows[..m][..n] == rows[..n];
      }
    }
  }

  datatype SendOutcome = SendError | Status(succeeded: bool, preimage: string) | NoResult

  predicate Succeeds(o: SendOutcome) {
    o.Status? && o.succeeded
  }

  /** The first successful attempt among the first n, or n. */
  function FirstSuccess(outcomes: nat -> SendOutcome, n: nat): (i: nat)
    ensures i <= n
    ensures i < n ==> Succeeds(outcomes(i))
    ensures forall j :: 0 <= j < i ==> !Succeeds(outcomes(j))
  {
    if n == 0 then 0
    else
      var i := FirstSuccess(outcomes, n - 1);
      if i < n - 1 then i else if Succeeds(outcomes(n - 1)) then n - 1 else n
  }

  /** Attempt i reported success and none before it did. */
  ghost predicate FirstAt(outcomes: nat -> SendOutcome, i: nat) {
    outcomes(i).Status? && outcomes(i).succeeded && forall j :: 0 <= j < i ==> !(outcomes(j).Status? && outcomes(j).succeeded)
  }

  /** None of the four attempts reported success. */
  ghost predicate NoneSucceeds(outcomes: nat -> SendOutcome) {
    forall i :: 0 <= i < 4 ==> !(outcomes(i).Status? && outcomes(i).succeeded)
  }

  /** No retry up to attempt n is cancelled. */
  ghost predicate Uncancelled(cancelledBefore: nat -> bool, n: nat) {
    forall i :: 1 <= i <= n ==> !cancelledBefore(i)
  }

  lemma FirstIs(outcomes: nat -> SendOutcome)
    ensures NoneSucceeds(outcomes) ==> FirstSuccess(outcomes, ATTEMPTS) == 4
    ensures forall i :: 0 <= i < 4 && FirstAt(outcomes, i) ==> FirstSuccess(outcomes, ATTEMPTS) == i
  {
    var f := FirstSuccess(outcomes, ATTEMPTS);
    assert f < 4 ==> Succeeds(outcomes(f));
  }

  /** Whether the context was cancelled before a retry that would have come no later than the first
      success. */
  ghost predicate Stopped(outcomes: nat -> SendOutcome, cancelledBefore: nat -> bool) {
    exists j :: 1 <= j <= FirstSuccess(outcomes, ATTEMPTS) && j < ATTEMPTS && cancelledBefore(j)
  }

  /** The rows after one job: only a row still pending changes, to paid with the preimage of the first
      successful attempt, or to failed when no attempt succeeded. */
  ghost function ProcessedTasks(ts: Tasks, job: Job, outcomes: nat -> SendOutcome, cancelledBefore: nat -> bool, dbOk: bool): Tasks {
    var i := FirstSuccess(outcomes, ATTEMPTS);
    if Stopped(outcomes, cancelledBefore) || !dbOk then ts
    else if i < ATTEMPTS then MarkPaid(ts, job.task, outcomes(i).preimage)
    else MarkUnpaid(ts, job.task)
  }

  /** What the counter gains: the job's amount, once, when a success was recorded. */
  ghost function ProcessedSats(job: Job, outcomes: nat -> SendOutcome, cancelledBefore: nat -> bool, dbOk: bool): real {
    if !Stopped(outcomes, cancelledBefore) && dbOk && FirstSuccess(outcomes, ATTEMPTS) < ATTEMPTS then job.amount else 0.0
  }

  // ------------------------------------------------ the dispatcher, one call at a time

  class Dispatcher {
    var queue: seq<Job>
    var tasks: Tasks
    var sats: real

    ghost predicate Valid()
      reads this
    {
      |queue| <= QUEUE_SIZE
    }

    constructor (rows: Tasks)
      ensures Valid() && queue == [] && tasks == rows && sats == 0.0
    {
      queue, tasks, sats := [], rows, 0.0;
    }

    method Enqueue(t: TaskId, uri: string, amount: real)
      requires Valid()
      modifies this`queue
      ensures Valid() && queue == Offer(old(queue), Job(t, uri, amount))
      ensures queue == if |old(queue)| < 1000 then old(queue) + [Job(t, uri, amount)] else old(queue)
    {
      var j := Job(t, uri, amount);
      if |queue| < QUEUE_SIZE {
        queue := queue + [j];
      }
    }

    /** The recovery loop of Start over the rows its query returned, those that could be read: keeps as many as
        fit, in order. */
    method Recover(rows: seq<Job>, lost: set<TaskId>)
      requires Valid()
      modifies this`queue
      ensures Valid()
      ensures var found := Filter(rows, Read(lost));
        queue == old(queue) + found[..if |found| <= QUEUE_SIZE - |old(queue)| then |found| else QUEUE_SIZE - |old(queue)|]
    {
      for i := 0 to |rows|
        invariant Valid() && queue == OfferAll(old(queue), Filter(rows[..i], Read(lost)))
      {
        assert rows[..i + 1] == rows[..i] + [rows[i]];
        FilterAppend(rows[..i], rows[i], Read(lost));
        ghost var before := Filter(rows[..i], Read(lost));
        if rows[i].task in lost {
          assert before + [] == before;
          continue;
        }
        assert (before + [rows[i]])[..|before|] == before;
        Enqueue(rows[i].task, rows[i].uri, rows[i].amount);
      }
      assert rows[..|rows|] == rows;
      OfferAllPrefix(old(queue), Filter(rows, Read(lost)));
    }

    /** One job: up to four attempts, cancellable before each retry; the row changes only if it is still
        pending, and the counter grows by the job's amount on every recorded success. */
    method Process(job: Job, outcomes: nat -> SendOutcome, cancelledBefore: nat -> bool, dbOk: bool)
      modifies this`tasks, this`sats
      ensures tasks == ProcessedTasks(old(tasks), job, outcomes, cancelledBefore, dbOk)
      ensures sats == old(sats) + ProcessedSats(job, outcomes, cancelledBefore, dbOk)
      // Four attempts without success and none cancelled fail a row still pending.
      ensures dbOk && NoneSucceeds(outcomes) && Uncancelled(cancelledBefore, 3) && job.task in old(tasks) && old(tasks)[job.task].payment == Pending
        ==> job.task in tasks && tasks == old(tasks)[job.task := old(tasks)[job.task].(payment := Failed)] && sats == old(sats)
      // The first success pays a row still pending, with its preimage.
      ensures forall i :: 0 <= i < 4 && FirstAt(outcomes, i) && dbOk && Uncancelled(cancelledBefore, i) ==>
        sats == old(sats) + job.amount
        && (job.task in old(tasks) && old(tasks)[job.task].payment == Pending ==>
              tasks == old(tasks)[job.task := old(tasks)[job.task].(payment := Paid, preimage := Some(outcomes(i).preimage))])
      // A failing statement or a row no longer pending leaves the rows as they were.
      ensures !dbOk || job.task !in old(tasks) || old(tasks)[job.task].payment != Pending ==> tasks == old(tasks)
    {
      FirstIs(outcomes);
      ghost var first := FirstSuccess(outcomes, ATTEMPTS);
      for attempt := 0 to ATTEMPTS
        invariant tasks == old(tasks) && sats == old(sats)
        invariant attempt <= first
        invariant forall j :: 1 <= j < attempt ==> !cancelledBefore(j)
      {
        if attempt > 0 && cancelledBefore(attempt) {
          return;
        }
        if Succeeds(outcomes(attempt)) {
          assert attempt == first;
          if dbOk {
            tasks := MarkPaid(tasks, job.task, outcomes(attempt).preimage);
            sats := sats + job.amount;
          }
          return;
        }
      }
      if dbOk {
        tasks := MarkUnpaid(tasks, job.task);
      }
    }
  }

  // ------------------------------------------------ the dispatcher, any number of calls at a time

  type WorkerId = nat
  type CallId = nat

  datatype Worker =
    | Idle
    | Sending(job: Job, attempt: nat)
    | Marking(job: Job, preimage: string)
    | Counting(job: Job)
    | GivingUp(job: Job)

  /** A SubmitTaskResult call after its signature has been verified. */
  datatype Rpc =
    | Completing(t: TaskId)
    | LookingUp(t: TaskId)
    | Enqueueing(job: Job)
    | Replied

  /** A payment that left the node, and whether the attempt that made it reported success. */
  datatype Send = Send(task: TaskId, reported: bool)

  /** `duplicates`, `carried` and `sent` are bookkeeping the program does not have: amounts of successes that
      found their row no longer pending, what was recorded before this process started, and every payment made. */
  datatype State = State(
    tasks: Tasks,
    queue: seq<Job>,
    workers: map<WorkerId, Worker>,
    rpcs: map<CallId, Rpc>,
    up: bool,
    sats: real,
    duplicates: real,
    carried: real,
    sent: seq<Send>)

  /** The completed tasks still pending payment, each once, with the row's own URI and reward. */
  ghost predicate IsRecoveryListing(rows: seq<Job>, ts: Tasks) {
    && (forall i, j :: 0 <= i < j < |rows| ==> rows[i].task != rows[j].task)
    && (forall t :: (t in ts && ts[t].payment == Pending && ts[t].status == Completed)
                    <==> exists i :: 0 <= i < |rows| && rows[i].task == t)
    && (forall i :: 0 <= i < |rows| ==> RowJob(rows[i], ts))
  }

  /** A row of the recovery query that could be read; none can when the query fails. */
  function Read(lost: set<TaskId>): Job -> bool {
    (j: Job) => j.task !in lost
  }

  /** A job that carries its row's own URI and reward. */
  predicate RowJob(j: Job, ts: Tasks) {
    j.task in ts && j.uri == ts[j.task].uri && j.amount == ts[j.task].reward
  }

  /** Where a worker goes after an attempt that reported no success. */
  function AfterAttempt(job: Job, attempt: nat): Worker {
    if attempt + 1 < ATTEMPTS then Sending(job, attempt + 1) else GivingUp(job)
  }

  /** One step of worker w; `dbOk` says whether its statement, where it issues one, succeeds. */
  ghost predicate WorkerDoes(s: State, w: WorkerId, dbOk: bool, s': State)
    requires w in s.workers
  {
    match s.workers[w]
    case Idle =>
      s.queue != []
      && s' == s.(queue := s.queue[1..], workers := s.workers[w := Sending(s.queue[0], 0)])
    case Sending(job, attempt) =>
      // An attempt that reports no success may have paid all the same: its stream broke, or it timed out.
      || (attempt > 0 && s' == s.(workers := s.workers[w := Idle]))                         // cancelled
      || (exists preimage :: s' == s.(workers := s.workers[w := Marking(job, preimage)],
                                      sent := s.sent + [Send(job.task, true)]))             // succeeded
      || s' == s.(workers := s.workers[w := AfterAttempt(job, attempt)])                    // not paid
      || s' == s.(workers := s.workers[w := AfterAttempt(job, attempt)],
                  sent := s.sent + [Send(job.task, false)])                                 // paid, not reported
    case Marking(job, preimage) =>
      s' == if !dbOk then s.(workers := s.workers[w := Idle])
            else s.(tasks := MarkPaid(s.tasks, job.task, preimage),
                  workers := s.workers[w := Counting(job)],
                  duplicates := s.duplicates + if IsPending(s.tasks, job.task) then 0.0 else job.amount)
    case Counting(job) =>
      s' == s.(sats := s.sats + job.amount, workers := s.workers[w := Idle])
    case GivingUp(job) =>
      s' == if !dbOk then s.(workers := s.workers[w := Idle])
            else s.(tasks := MarkUnpaid(s.tasks, job.task), workers := s.workers[w := Idle])
  }

  ghost predicate WorkerStep(s: State, w: WorkerId, s': State)
    requires w in s.workers
  {
    WorkerDoes(s, w, true, s') || WorkerDoes(s, w, false, s')
  }

  ghost predicate RpcStep(s: State, c: CallId, s': State)
    requires c in s.rpcs
  {
    match s.rpcs[c]
    case Completing(t) =>
      || s' == s.(rpcs := s.rpcs[c := Replied])                                             // statement failed
      || s' == s.(tasks := SetStatus(s.tasks, t, Completed), rpcs := s.rpcs[c := LookingUp(t)])
    case LookingUp(t) =>
      if t in s.tasks && s.tasks[t].uri != ""
      then s' == s.(rpcs := s.rpcs[c := Enqueueing(Job(t, s.tasks[t].uri, s.tasks[t].reward))])
           || s' == s.(rpcs := s.rpcs[c := Replied])
      else s' == s.(rpcs := s.rpcs[c := Replied])
    case Enqueueing(job) =>
      s' == s.(queue := Offer(s.queue, job), rpcs := s.rpcs[c := Replied])
    case Replied => false
  }

  datatype Action =
    | Schedule(t: TaskId, uri: string, reward: real)
    | Requeue(t: TaskId)
    | Abandon(t: TaskId)
    | Submit(c: CallId, t: TaskId)
    | Rpc(c: CallId)
    | Work(w: WorkerId, dbOk: bool)
    | Crash
    | Restart(rows: seq<Job>, lost: set<TaskId>)      // rows the query found, and those that could not be read

  function IdleWorkers(n: nat): map<WorkerId, Worker> {
    if n == 0 then map[] else IdleWorkers(n - 1)[n - 1 := Idle]
  }

  ghost predicate Does(s: State, a: Action, s': State) {
    match a
    case Schedule(t, uri, reward) =>
      t !in s.tasks && s' == s.(tasks := s.tasks[t := Task(uri, reward, Running, Pending, None)])
    case Requeue(t) =>
      t in s.tasks && s.tasks[t].status == Running && s' == s.(tasks := SetStatus(s.tasks, t, Queued))
    case Abandon(t) =>
      s' == s.(tasks := SetStatus(s.tasks, t, Abandoned))
    case Submit(c, t) =>
      s.up && c !in s.rpcs && s' == s.(rpcs := s.rpcs[c := Completing(t)])
    case Rpc(c) => s.up && c in s.rpcs && RpcStep(s, c, s')
    case Work(w, dbOk) => s.up && w in s.workers && WorkerDoes(s, w, dbOk, s')
    case Crash =>
      s' == s.(queue := [], workers := map[], rpcs := map[], up := false, sats := 0.0,
               carried := PaidTotal(s.tasks) + s.duplicates)
    case Restart(rows, lost) =>
      !s.up && IsRecoveryListing(rows, s.tasks)
      && s' == s.(queue := OfferAll(s.queue, Filter(rows, Read(lost))), workers := IdleWorkers(WORKERS), up := true)
  }

  // ------------------------------------------------ money

  function PaidReward(ts: Tasks): TaskId -> real {
    t => if t in ts && ts[t].payment == Paid then ts[t].reward else 0.0
  }

  /** The rewards of the tasks marked paid. */
  ghost function PaidTotal(ts: Tasks): real {
    SumOver(ts.Keys, PaidReward(ts))
  }

  function Uncounted(ws: map<WorkerId, Worker>): WorkerId -> real {
    w => if w in ws && ws[w].Counting? then ws[w].job.amount else 0.0
  }

  /** Amounts of recorded successes whose worker has not reached the counter yet. */
  ghost function InFlight(ws: map<WorkerId, Worker>): real {
    SumOver(ws.Keys, Uncounted(ws))
  }

  ghost predicate Init(s: State) {
    s == State(map[], [], map[], map[], false, 0.0, 0.0, 0.0, [])
  }

  ghost predicate IsRun(run: seq<State>, acts: seq<Action>) {
    && |run| == |acts| + 1 && Init(run[0])
    && forall i :: 0 <= i < |acts| ==> Does(run[i], acts[i], run[i + 1])
  }
}

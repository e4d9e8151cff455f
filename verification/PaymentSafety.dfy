/**
 Safety of payment dispatch over every run, with crashes: a payment settles once and keeps its
 preimage, the counter accounts for every recorded satoshi, and start-up recovers what a crash lost.
 */
module PaymentSafety {
  import opened Options
  import opened Sums
  import opened Payments

  // ------------------------------------------------ what rows may do

  /** Rows stay, keep their URI and reward, and keep a settled payment with its preimage. */
  ghost predicate Settles(ts: Tasks, ts': Tasks) {
    forall t :: t in ts ==>
      && t in ts' && ts'[t].uri == ts[t].uri && ts'[t].reward == ts[t].reward
      && (ts[t].payment != Pending ==> ts'[t].payment == ts[t].payment && ts'[t].preimage == ts[t].preimage)
  }

  lemma WorkSettles(s: State, w: WorkerId, s': State)
    requires w in s.workers && WorkerStep(s, w, s')
    ensures Settles(s.tasks, s'.tasks)
  {
  }

  lemma RpcSettles(s: State, c: CallId, s': State)
    requires c in s.rpcs && RpcStep(s, c, s')
    ensures Settles(s.tasks, s'.tasks)
  {
  }

  lemma ActionSettles(s: State, a: Action, s': State)
    requires Does(s, a, s')
    ensures Settles(s.tasks, s'.tasks)
  {
    hide IsRecoveryListing, OfferAll, PaidTotal, WorkerDoes, RpcStep;
    match a
    case Work(w, _) => WorkSettles(s, w, s');
    case Rpc(c) => RpcSettles(s, c, s');
    case _ =>
  }

  // ------------------------------------------------ the invariant

  function JobOf(w: Worker): Option<Job> {
    match w
    case Idle => None
    case Sending(j, _) => Some(j)
    case Marking(j, _) => Some(j)
    case Counting(j) => Some(j)
    case GivingUp(j) => Some(j)
  }

  /** Every job anywhere carries its row's own URI and reward. */
  ghost predicate JobsInv(s: State) {
    && (forall i :: 0 <= i < |s.queue| ==> RowJob(s.queue[i], s.tasks))
    && (forall w :: w in s.workers && JobOf(s.workers[w]).Some? ==> RowJob(JobOf(s.workers[w]).value, s.tasks))
    && (forall c :: c in s.rpcs && s.rpcs[c].Enqueueing? ==> RowJob(s.rpcs[c].job, s.tasks))
  }

  ghost predicate PreimageInv(ts: Tasks) {
    forall t :: t in ts ==> (ts[t].preimage.Some? <==> ts[t].payment == Paid)
  }

  /** What this process counted, and is about to count, is what was recorded since it started. */
  ghost predicate MoneyInv(s: State) {
    s.sats + InFlight(s.workers) + s.carried == PaidTotal(s.tasks) + s.duplicates
  }

  ghost predicate QueueInv(s: State) {
    |s.queue| <= QUEUE_SIZE && (!s.up ==> s.queue == [] && s.workers == map[] && s.rpcs == map[])
  }

  ghost predicate Inv(s: State) {
    JobsInv(s) && PreimageInv(s.tasks) && MoneyInv(s) && QueueInv(s)
  }

  // ------------------------------------------------ jobs and queue

  lemma {:induction false} OfferAllMember(q: seq<Job>, rows: seq<Job>, j: Job)
    requires j in OfferAll(q, rows)
    ensures j in q || j in rows
    decreases |rows|
  {
    if rows != [] {
      var n := |rows| - 1;
      if j in OfferAll(q, rows[..n]) {
        OfferAllMember(q, rows[..n], j);
      }
    }
  }

  lemma {:induction false} IdleWorkersIdle(n: nat)
    ensures forall w :: w in IdleWorkers(n) ==> IdleWorkers(n)[w] == Idle
    ensures InFlight(IdleWorkers(n)) == 0.0
    decreases n
  {
    if n > 0 {
      IdleWorkersIdle(n - 1);
    }
    var ws := IdleWorkers(n);
    var zero: WorkerId -> real := w => 0.0;
    SumOverScaled(ws.Keys, Uncounted(ws), zero, 0.0);
  }

  lemma RowJobSettles(ts: Tasks, ts': Tasks, j: Job)
    requires Settles(ts, ts') && RowJob(j, ts)
    ensures RowJob(j, ts')
  {
  }

  /** Where the jobs are after a worker's step. */
  lemma WorkMoves(s: State, w: WorkerId, s': State)
    requires w in s.workers && WorkerStep(s, w, s')
    ensures w in s'.workers && s'.workers == s.workers[w := s'.workers[w]] && s'.rpcs == s.rpcs
    ensures s'.queue == s.queue || (s.queue != [] && s'.queue == s.queue[1..])
    ensures JobOf(s'.workers[w]).Some? ==>
      JobOf(s'.workers[w]) == JobOf(s.workers[w]) || (s.queue != [] && JobOf(s'.workers[w]).value == s.queue[0])
  {
    hide MarkPaid, MarkUnpaid, IsPending;
  }

  lemma WorkJobs(s: State, w: WorkerId, s': State)
    requires w in s.workers && WorkerStep(s, w, s') && JobsInv(s)
    ensures JobsInv(s')
  {
    hide Settles, RowJob, WorkerStep;
    WorkMoves(s, w, s');
    WorkSettles(s, w, s');
    forall j | RowJob(j, s.tasks)
      ensures RowJob(j, s'.tasks)
    {
      RowJobSettles(s.tasks, s'.tasks, j);
    }
  }

  lemma RpcJobs(s: State, c: CallId, s': State)
    requires c in s.rpcs && RpcStep(s, c, s') && JobsInv(s)
    ensures JobsInv(s')
  {
    hide Settles, SetStatus;
    RpcSettles(s, c, s');
    forall j | RowJob(j, s.tasks)
      ensures RowJob(j, s'.tasks)
    {
      RowJobSettles(s.tasks, s'.tasks, j);
    }
  }

  lemma JobsStep(s: State, a: Action, s': State)
    requires Does(s, a, s') && JobsInv(s)
    ensures JobsInv(s')
  {
    hide IsRecoveryListing, OfferAll, PaidTotal, IdleWorkers, WorkerDoes, RpcStep;
    match a
    case Work(w, _) => WorkJobs(s, w, s');
    case Rpc(c) => RpcJobs(s, c, s');
    case Restart(rows, lost) => RestartJobs(s, rows, lost, s');
    case _ => ActionSettles(s, a, s');
  }

  lemma RestartJobs(s: State, rows: seq<Job>, lost: set<TaskId>, s': State)
    requires Does(s, Restart(rows, lost), s') && JobsInv(s)
    ensures JobsInv(s')
  {
    hide OfferAll, IdleWorkers, Filter;
    IdleWorkersIdle(WORKERS);
    forall i | 0 <= i < |s'.queue|
      ensures RowJob(s'.queue[i], s'.tasks)
    {
      OfferAllMember(s.queue, Filter(rows, Read(lost)), s'.queue[i]);
      FilterMember(rows, Read(lost), s'.queue[i]);
    }
  }

  lemma QueueStep(s: State, a: Action, s': State)
    requires Does(s, a, s') && QueueInv(s)
    ensures QueueInv(s')
  {
    hide IsRecoveryListing, OfferAll, PaidTotal, IdleWorkers;
    match a
    case Restart(rows, lost) => OfferAllPrefix(s.queue, Filter(rows, Read(lost)));
    case _ =>
  }

  lemma PreimageStep(s: State, a: Action, s': State)
    requires Does(s, a, s') && PreimageInv(s.tasks)
    ensures PreimageInv(s'.tasks)
  {
    hide IsRecoveryListing, OfferAll, PaidTotal, IdleWorkers;
  }

  // ------------------------------------------------ money

  lemma PaidTotalMarked(ts: Tasks, t: TaskId, preimage: string)
    ensures PaidTotal(MarkPaid(ts, t, preimage)) == PaidTotal(ts) + if IsPending(ts, t) then ts[t].reward else 0.0
  {
    var ts' := MarkPaid(ts, t, preimage);
    if IsPending(ts, t) {
      assert ts'.Keys == ts.Keys;
      SumOverUpdate(ts.Keys, PaidReward(ts), PaidReward(ts'), t);
    }
  }

  /** No statement but the paying one changes which rewards are paid. */
  lemma PaidTotalKept(ts: Tasks, ts': Tasks)
    requires ts.Keys <= ts'.Keys
    requires forall t :: t in ts' ==> PaidReward(ts')(t) == PaidReward(ts)(t)
    ensures PaidTotal(ts') == PaidTotal(ts)
  {
    SumOverEqual(ts'.Keys, PaidReward(ts'), PaidReward(ts));
    SumOverSupport(ts'.Keys, ts.Keys, PaidReward(ts));
  }

  lemma InFlightChanged(ws: map<WorkerId, Worker>, w: WorkerId, x: Worker)
    requires w in ws
    ensures InFlight(ws[w := x]) == InFlight(ws) - Uncounted(ws)(w) + (if x.Counting? then x.job.amount else 0.0)
  {
    var ws' := ws[w := x];
    assert ws'.Keys == ws.Keys;
    SumOverUpdate(ws.Keys, Uncounted(ws), Uncounted(ws'), w);
  }

  lemma WorkMoney(s: State, w: WorkerId, dbOk: bool, s': State)
    requires Does(s, Work(w, dbOk), s') && JobsInv(s) && MoneyInv(s)
    ensures MoneyInv(s')
  {
    hide PaidTotal, InFlight;
    InFlightChanged(s.workers, w, s'.workers[w]);
    assert s'.workers == s.workers[w := s'.workers[w]];
    match s.workers[w]
    case Marking(job, preimage) =>
      PaidTotalMarked(s.tasks, job.task, preimage);
    case GivingUp(job) =>
      if s'.tasks != s.tasks {
        PaidTotalKept(s.tasks, s'.tasks);
      }
    case _ =>
  }

  lemma OtherMoney(s: State, a: Action, s': State)
    requires Does(s, a, s') && !a.Work? && QueueInv(s) && MoneyInv(s)
    ensures MoneyInv(s')
  {
    hide PaidTotal, InFlight, IsRecoveryListing, OfferAll, IdleWorkers;
    NoneInFlight();
    if a.Restart? {
      IdleWorkersIdle(WORKERS);
    } else if !a.Crash? {
      assert s'.workers == s.workers;
      PaidTotalKept(s.tasks, s'.tasks);
    }
  }

  lemma NoneInFlight()
    ensures InFlight(map[]) == 0.0
  {
  }

  lemma ActionInv(s: State, a: Action, s': State)
    requires Does(s, a, s') && Inv(s)
    ensures Inv(s')
  {
    hide Does, JobsInv, PreimageInv, MoneyInv, QueueInv;
    JobsStep(s, a, s');
    PreimageStep(s, a, s');
    QueueStep(s, a, s');
    if a.Work? {
      WorkMoney(s, a.w, a.dbOk, s');
    } else {
      OtherMoney(s, a, s');
    }
  }

  lemma InitInv(s: State)
    requires Init(s)
    ensures Inv(s)
  {
  }

  lemma {:induction false} RunInv(run: seq<State>, acts: seq<Action>, i: nat)
    requires IsRun(run, acts) && i < |run|
    ensures Inv(run[i])
    decreases i
  {
    hide Does, Inv;
    if i == 0 {
      InitInv(run[0]);
    } else {
      RunInv(run, acts, i - 1);
      ActionInv(run[i - 1], acts[i - 1], run[i]);
    }
  }

  // ------------------------------------------------ every run

  /** A payment that has left 'pending' keeps its outcome and its preimage for the rest of the run. */
  lemma {:induction false} SettledForever(run: seq<State>, acts: seq<Action>, i: nat, j: nat)
    requires IsRun(run, acts) && i <= j < |run|
    ensures Settles(run[i].tasks, run[j].tasks)
    decreases j
  {
    hide Does;
    if i < j {
      SettledForever(run, acts, i, j - 1);
      ActionSettles(run[j - 1], acts[j - 1], run[j]);
    }
  }

  /** In every interleaving of workers, duplicate jobs, outcomes and crashes: a row has a preimage
      exactly when it is paid; the queue never exceeds its bound and holds only jobs with their row's
      URI and reward; and whenever no success is between its row and the counter, the counter equals
      the rewards marked paid by this process plus its successes that found their row settled. */
  lemma PaymentAccounting(run: seq<State>, acts: seq<Action>, i: nat)
    requires IsRun(run, acts) && i < |run|
    ensures var s := run[i];
      && (forall t :: t in s.tasks ==> (s.tasks[t].preimage.Some? <==> s.tasks[t].payment == Paid))
      && |s.queue| <= QUEUE_SIZE
      && (forall j :: j in s.queue ==> RowJob(j, s.tasks))
      && ((forall w :: w in s.workers ==> !s.workers[w].Counting?) ==>
            s.sats == PaidTotal(s.tasks) + s.duplicates - s.carried)
  {
    hide PaidTotal;
    RunInv(run, acts, i);
    var s := run[i];
    if forall w :: w in s.workers ==> !s.workers[w].Counting? {
      var zero: WorkerId -> real := w => 0.0;
      SumOverScaled(s.workers.Keys, Uncounted(s.workers), zero, 0.0);
    }
  }

  /** Until the first crash nothing is carried over, so the counter is exactly the rewards of the paid
      tasks plus the amounts of the duplicates. */
  lemma {:induction false} NothingCarried(run: seq<State>, acts: seq<Action>, i: nat)
    requires IsRun(run, acts) && i < |run| && forall j :: 0 <= j < i ==> !acts[j].Crash?
    ensures run[i].carried == 0.0
    decreases i
  {
    hide OfferAll, IsRecoveryListing, PaidTotal;
    if i > 0 {
      NothingCarried(run, acts, i - 1);
      assert Does(run[i - 1], acts[i - 1], run[i]);
    }
  }

  /** After any run and a crash at any step, start-up re-creates exactly one job for every completed task still
      pending payment whose row could be read, when there are at most 1000 of them, and otherwise fills
      the queue exactly, with jobs for such tasks. */
  lemma RecoveryIsComplete(run: seq<State>, acts: seq<Action>, i: nat)
    requires IsRun(run, acts) && i < |acts| && acts[i].Restart?
    ensures var s, lost := run[i + 1], acts[i].lost;
      var found := Filter(acts[i].rows, Read(lost));
      && (|found| <= 1000 ==>
            (s.queue == found
             && forall t :: t in s.tasks && s.tasks[t].payment == Pending && s.tasks[t].status == Completed && t !in lost ==>
                  Job(t, s.tasks[t].uri, s.tasks[t].reward) in s.queue))
      && (|found| > 1000 ==> |s.queue| == 1000 && s.queue == found[..1000])
      && (forall j, k :: 0 <= j < k < |s.queue| ==> s.queue[j].task != s.queue[k].task)
      && forall j :: j in s.queue ==> RowJob(j, s.tasks) && IsPending(s.tasks, j.task) && s.tasks[j.task].status == Completed
  {
    hide OfferAll, Inv, Filter;
    RunInv(run, acts, i);
    var s, rows, lost, s' := run[i], acts[i].rows, acts[i].lost, run[i + 1];
    assert Does(s, acts[i], s');
    DownIsEmpty(s);
    var found := Filter(rows, Read(lost));
    OfferAllPrefix(s.queue, found);
    assert found[..|found|] == found;
    forall j: Job
      ensures j in found <==> j in rows && j.task !in lost
    {
      FilterMember(rows, Read(lost), j);
    }
    forall j | j in s'.queue
      ensures RowJob(j, s'.tasks) && IsPending(s'.tasks, j.task) && s'.tasks[j.task].status == Completed
    {
      assert j in found;
      var k :| 0 <= k < |rows| && rows[k] == j;
    }
    DistinctFound(rows, lost, found);
    if |found| <= QUEUE_SIZE {
      assert s'.queue == found;
      forall t | t in s'.tasks && s'.tasks[t].payment == Pending && s'.tasks[t].status == Completed && t !in lost
        ensures Job(t, s'.tasks[t].uri, s'.tasks[t].reward) in s'.queue
      {
        var k :| 0 <= k < |rows| && rows[k].task == t;
        assert rows[k] in rows;
      }
    }
  }

  /** What is read of rows for distinct tasks is for distinct tasks. */
  lemma DistinctFound(rows: seq<Job>, lost: set<TaskId>, found: seq<Job>)
    requires found == Filter(rows, Read(lost)) && forall i, j :: 0 <= i < j < |rows| ==> rows[i].task != rows[j].task
    ensures forall i, j :: 0 <= i < j < |found| ==> found[i].task != found[j].task
  {
    var at := FilterInOrder(rows, Read(lost));
  }

  lemma DownIsEmpty(s: State)
    requires Inv(s) && !s.up
    ensures s.queue == []
  {
  }

  /** A task whose last attempt was given up, with the statement succeeding, is not pending again: 'failed' if it
      was pending, and in no later recovery listing. */
  lemma GivenUpForGood(run: seq<State>, acts: seq<Action>, i: nat, w: WorkerId, j: nat)
    requires IsRun(run, acts) && i < j < |run| && acts[i] == Work(w, true) && w in run[i].workers && run[i].workers[w].GivingUp?
    ensures var t := run[i].workers[w].job.task;
      && t in run[i].tasks && t in run[j].tasks && run[j].tasks[t].payment != Pending
      && (run[i].tasks[t].payment == Pending ==> run[j].tasks[t].payment == Failed && run[j].tasks[t].preimage == run[i].tasks[t].preimage)
      && (j < |acts| && acts[j].Restart? ==> forall k :: 0 <= k < |acts[j].rows| ==> acts[j].rows[k].task != t)
  {
    hide MoneyInv, OfferAll, PaidTotal;
    var t := run[i].workers[w].job.task;
    RunInv(run, acts, i);
    assert RowJob(JobOf(run[i].workers[w]).value, run[i].tasks);
    assert Does(run[i], acts[i], run[i + 1]);
    assert t in run[i + 1].tasks && run[i + 1].tasks[t].payment != Pending;
    SettledForever(run, acts, i + 1, j);
    if j < |acts| && acts[j].Restart? {
      assert Does(run[j], acts[j], run[j + 1]);
    }
  }

  // ------------------------------------------------ one job is a run of worker steps

  ghost predicate IsWorkerRun(steps: seq<State>, w: WorkerId) {
    steps != [] && forall i :: 0 <= i < |steps| - 1 ==> w in steps[i].workers && WorkerStep(steps[i], w, steps[i + 1])
  }

  function At(s: State, w: WorkerId, x: Worker): State {
    s.(workers := s.workers[w := x])
  }

  lemma ExtendRun(steps: seq<State>, w: WorkerId, s: State) returns (r: seq<State>)
    requires IsWorkerRun(steps, w) && w in steps[|steps| - 1].workers && WorkerStep(steps[|steps| - 1], w, s)
    ensures IsWorkerRun(r, w) && r[0] == steps[0] && r[|r| - 1] == s
  {
    hide WorkerStep;
    r := steps + [s];
  }

  lemma {:induction false} AttemptsRun(s: State, w: WorkerId, job: Job, n: nat) returns (steps: seq<State>)
    requires n < ATTEMPTS && w in s.workers && s.workers[w] == Sending(job, 0)
    ensures IsWorkerRun(steps, w) && steps[0] == s && steps[|steps| - 1] == At(s, w, Sending(job, n))
    decreases n
  {
    if n == 0 {
      assert s.workers[w := Sending(job, 0)] == s.workers;
      steps := [s];
    } else {
      var before := AttemptsRun(s, w, job, n - 1);
      assert s.workers[w := Sending(job, n - 1)][w := Sending(job, n)] == s.workers[w := Sending(job, n)];
      steps := ExtendRun(before, w, At(s, w, Sending(job, n)));
    }
  }

  /** What the sequential Process computes, a worker of the concurrent machine can do from the same rows:
      the run ends idle, with the same rows and the same gain of the counter. */
  lemma ProcessIsWorkerRun(s: State, w: WorkerId, job: Job, outcomes: nat -> SendOutcome, cancelledBefore: nat -> bool, dbOk: bool)
      returns (steps: seq<State>)
    requires w in s.workers && s.workers[w] == Sending(job, 0)
    ensures IsWorkerRun(steps, w) && steps[0] == s
    ensures var t := steps[|steps| - 1];
      && t.workers == s.workers[w := Idle]
      && t.tasks == ProcessedTasks(s.tasks, job, outcomes, cancelledBefore, dbOk)
      && t.sats == s.sats + ProcessedSats(job, outcomes, cancelledBefore, dbOk)
  {
    hide IsWorkerRun, MarkPaid, MarkUnpaid;
    var i := FirstSuccess(outcomes, ATTEMPTS);
    if Stopped(outcomes, cancelledBefore) {
      var j :| 1 <= j <= i && j < ATTEMPTS && cancelledBefore(j);
      steps := AttemptsRun(s, w, job, j);
      assert s.workers[w := Sending(job, j)][w := Idle] == s.workers[w := Idle];
      steps := ExtendRun(steps, w, At(s, w, Idle));
    } else if i < ATTEMPTS {
      steps := AttemptsRun(s, w, job, i);
      steps := DeliverRun(s, w, job, i, outcomes(i).preimage, dbOk, steps);
    } else {
      steps := AttemptsRun(s, w, job, ATTEMPTS - 1);
      assert s.workers[w := Sending(job, ATTEMPTS - 1)][w := GivingUp(job)] == s.workers[w := GivingUp(job)];
      steps := ExtendRun(steps, w, At(s, w, GivingUp(job)));
      var end := At(s, w, Idle).(tasks := if dbOk then MarkUnpaid(s.tasks, job.task) else s.tasks);
      assert s.workers[w := GivingUp(job)][w := Idle] == s.workers[w := Idle];
      steps := ExtendRun(steps, w, end);
    }
  }

  lemma DeliverRun(s: State, w: WorkerId, job: Job, n: nat, preimage: string, dbOk: bool, before: seq<State>)
      returns (steps: seq<State>)
    requires w in s.workers && IsWorkerRun(before, w) && before[|before| - 1] == At(s, w, Sending(job, n))
    ensures IsWorkerRun(steps, w) && steps[0] == before[0]
    ensures var t := steps[|steps| - 1];
      && t.workers == s.workers[w := Idle]
      && t.tasks == (if dbOk then MarkPaid(s.tasks, job.task, preimage) else s.tasks)
      && t.sats == (if dbOk then s.sats + job.amount else s.sats)
  {
    hide IsWorkerRun, MarkPaid;
    assert before != [] by { NonEmpty(before, w); }
    var marking := At(s, w, Marking(job, preimage)).(sent := s.sent + [Send(job.task, true)]);
    assert s.workers[w := Sending(job, n)][w := Marking(job, preimage)] == s.workers[w := Marking(job, preimage)];
    steps := ExtendRun(before, w, marking);
    if dbOk {
      var counting := marking.(
        workers := s.workers[w := Counting(job)],
        tasks := MarkPaid(s.tasks, job.task, preimage),
        duplicates := s.duplicates + if IsPending(s.tasks, job.task) then 0.0 else job.amount);
      assert s.workers[w := Marking(job, preimage)][w := Counting(job)] == s.workers[w := Counting(job)];
      steps := ExtendRun(steps, w, counting);
      assert s.workers[w := Counting(job)][w := Idle] == s.workers[w := Idle];
      steps := ExtendRun(steps, w, counting.(workers := s.workers[w := Idle], sats := s.sats + job.amount));
    } else {
      assert s.workers[w := Marking(job, preimage)][w := Idle] == s.workers[w := Idle];
      steps := ExtendRun(steps, w, marking.(workers := s.workers[w := Idle]));
    }
  }

  lemma NonEmpty(steps: seq<State>, w: WorkerId)
    requires IsWorkerRun(steps, w)
    ensures steps != []
  {
  }
}

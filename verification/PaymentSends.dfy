/**
 How often a task is paid (internal/payment/dispatcher.go). A worker sends before it marks the row, does not
 look at the row's status before sending, and tries again after any attempt that reports no success, although
 such an attempt may have paid (internal/lightning/lnd_client.go). So a task is paid at most four times for
 each job for it that enters the queue, and once for each plus the payments that were not reported; runs show
 that a single submission can pay four times, and pay again after a crash.
 */
module PaymentSends {
  import opened Options
  import opened Sums
  import opened Payments
  import opened PaymentSafety

  // ------------------------------------------------ payments made

  function To(t: TaskId): Send -> bool {
    (x: Send) => x.task == t
  }

  function ReportedTo(t: TaskId): Send -> bool {
    (x: Send) => x.task == t && x.reported
  }

  function UnreportedTo(t: TaskId): Send -> bool {
    (x: Send) => x.task == t && !x.reported
  }

  /** How often t has been paid; how often by an attempt that reported it; how often by one that did not. */
  function TimesPaid(s: State, t: TaskId): nat {
    |Filter(s.sent, To(t))|
  }

  function TimesReported(s: State, t: TaskId): nat {
    |Filter(s.sent, ReportedTo(t))|
  }

  function TimesUnreported(s: State, t: TaskId): nat {
    |Filter(s.sent, UnreportedTo(t))|
  }

  lemma {:induction false} PaidSplits(sent: seq<Send>, t: TaskId)
    ensures |Filter(sent, To(t))| == |Filter(sent, ReportedTo(t))| + |Filter(sent, UnreportedTo(t))|
    decreases |sent|
  {
    if sent != [] {
      PaidSplits(sent[..|sent| - 1], t);
    }
  }

  // ------------------------------------------------ jobs that may still pay

  function ForTask(t: TaskId): Job -> bool {
    (j: Job) => j.task == t
  }

  ghost function Queued(s: State, t: TaskId): nat {
    |Filter(s.queue, ForTask(t))|
  }

  function IsSender(x: Worker, t: TaskId): bool {
    x.Sending? && x.job.task == t
  }

  /** The attempts a worker still has for t. */
  function Left(x: Worker, t: TaskId): int {
    if IsSender(x, t) then ATTEMPTS - x.attempt else 0
  }

  function Sender(ws: map<WorkerId, Worker>, t: TaskId): WorkerId -> real {
    w => if w in ws && IsSender(ws[w], t) then 1.0 else 0.0
  }

  function LeftOf(ws: map<WorkerId, Worker>, t: TaskId): WorkerId -> real {
    w => if w in ws then Left(ws[w], t) as real else 0.0
  }

  /** Jobs for t in the queue or with a worker between attempts. */
  ghost function Unsent(s: State, t: TaskId): real {
    Queued(s, t) as real + SumOver(s.workers.Keys, Sender(s.workers, t))
  }

  /** Attempts for t still to be made by jobs in the queue or with a worker. */
  ghost function AttemptsLeft(s: State, t: TaskId): real {
    (ATTEMPTS * Queued(s, t)) as real + SumOver(s.workers.Keys, LeftOf(s.workers, t))
  }

  ghost predicate TriesInv(s: State) {
    forall w :: w in s.workers && s.workers[w].Sending? ==> s.workers[w].attempt < ATTEMPTS
  }

  /** How many jobs for t an action puts into the queue. */
  ghost function Enters(s: State, a: Action, t: TaskId): nat {
    match a
    case Rpc(c) =>
      if c in s.rpcs && s.rpcs[c].Enqueueing? && s.rpcs[c].job.task == t && |s.queue| < QUEUE_SIZE then 1 else 0
    case Restart(rows, lost) =>
      if |s.queue| <= QUEUE_SIZE
      then (var found := Filter(rows, Read(lost)); |Filter(found[..Fit(s.queue, found)], ForTask(t))|)
      else 0
    case _ => 0
  }

  function Fit(q: seq<Job>, rows: seq<Job>): (n: nat)
    requires |q| <= QUEUE_SIZE
    ensures n <= |rows|
  {
    if |rows| <= QUEUE_SIZE - |q| then |rows| else QUEUE_SIZE - |q|
  }

  ghost function Entered(run: seq<State>, acts: seq<Action>, t: TaskId, i: nat): nat
    requires i <= |acts| <= |run|
  {
    if i == 0 then 0 else Entered(run, acts, t, i - 1) + Enters(run[i - 1], acts[i - 1], t)
  }

  // ------------------------------------------------ one step

  /** A step spends what it pays: of the attempts left, and, if reported, of the jobs unsent. */
  ghost predicate Spends(s: State, s': State, t: TaskId, entered: nat) {
    && (TimesReported(s', t) - TimesReported(s, t)) as real + Unsent(s', t) <= Unsent(s, t) + entered as real
    && (TimesPaid(s', t) - TimesPaid(s, t)) as real + AttemptsLeft(s', t) <= AttemptsLeft(s, t) + (ATTEMPTS * entered) as real
  }

  lemma WorkerMoved(ws: map<WorkerId, Worker>, w: WorkerId, x: Worker, t: TaskId)
    requires w in ws
    ensures var ws' := ws[w := x];
      && SumOver(ws'.Keys, Sender(ws', t)) == SumOver(ws.Keys, Sender(ws, t)) - Sender(ws, t)(w) + Sender(ws', t)(w)
      && SumOver(ws'.Keys, LeftOf(ws', t)) == SumOver(ws.Keys, LeftOf(ws, t)) - LeftOf(ws, t)(w) + LeftOf(ws', t)(w)
  {
    hide Left, IsSender;
    var ws' := ws[w := x];
    assert ws'.Keys == ws.Keys;
    SumOverUpdate(ws.Keys, Sender(ws, t), Sender(ws', t), w);
    SumOverUpdate(ws.Keys, LeftOf(ws, t), LeftOf(ws', t), w);
  }

  lemma TakeFirst(q: seq<Job>, t: TaskId)
    requires q != []
    ensures |Filter(q, ForTask(t))| == |Filter(q[1..], ForTask(t))| + if q[0].task == t then 1 else 0
  {
    assert q == [q[0]] + q[1..];
    FilterConcat([q[0]], q[1..], ForTask(t));
    FilterAppend([], q[0], ForTask(t));
    assert [] + [q[0]] == [q[0]];
  }

  lemma {:induction false} FilterConcat<T>(s: seq<T>, r: seq<T>, p: T -> bool)
    ensures Filter(s + r, p) == Filter(s, p) + Filter(r, p)
    decreases |r|
  {
    if r == [] {
      assert s + r == s;
    } else {
      var n := |r| - 1;
      FilterConcat(s, r[..n], p);
      assert s + r == (s + r[..n]) + [r[n]];
      FilterAppend(s + r[..n], r[n], p);
    }
  }

  lemma SentMore(sent: seq<Send>, x: Send, t: TaskId)
    ensures |Filter(sent + [x], To(t))| == |Filter(sent, To(t))| + if x.task == t then 1 else 0
    ensures |Filter(sent + [x], ReportedTo(t))| == |Filter(sent, ReportedTo(t))| + if x.task == t && x.reported then 1 else 0
  {
    FilterAppend(sent, x, To(t));
    FilterAppend(sent, x, ReportedTo(t));
  }

  /** What a worker's step does to the queue and to what was sent. */
  lemma WorkerShape(s: State, w: WorkerId, s': State)
    requires w in s.workers && WorkerStep(s, w, s')
    ensures w in s'.workers && s'.workers == s.workers[w := s'.workers[w]]
    ensures s.workers[w].Idle? ==> s.queue != [] && s'.queue == s.queue[1..] && s'.workers[w] == Sending(s.queue[0], 0) && s'.sent == s.sent
    ensures !s.workers[w].Idle? ==> s'.queue == s.queue
    ensures s.workers[w].Sending? ==>
      var job, attempt, x := s.workers[w].job, s.workers[w].attempt, s'.workers[w];
      || (!x.Sending? && s'.sent == s.sent)
      || (!x.Sending? && s'.sent == s.sent + [Send(job.task, true)])
      || (x == AfterAttempt(job, attempt) && (s'.sent == s.sent || s'.sent == s.sent + [Send(job.task, false)]))
    ensures !s.workers[w].Idle? && !s.workers[w].Sending? ==> !s'.workers[w].Sending? && s'.sent == s.sent
  {
    hide MarkPaid, MarkUnpaid, IsPending;
  }

  lemma WorkSpends(s: State, w: WorkerId, s': State, t: TaskId)
    requires w in s.workers && WorkerStep(s, w, s') && TriesInv(s)
    ensures Spends(s, s', t, 0) && TriesInv(s')
  {
    hide Filter, WorkerStep, SumOver;
    WorkerShape(s, w, s');
    WorkerMoved(s.workers, w, s'.workers[w], t);
    if s.workers[w].Idle? {
      TakeFirst(s.queue, t);
    } else if s'.sent != s.sent {
      SentMore(s.sent, s'.sent[|s.sent|], t);
    }
  }

  lemma RestartSpends(s: State, rows: seq<Job>, lost: set<TaskId>, s': State, t: TaskId)
    requires Does(s, Restart(rows, lost), s') && QueueInv(s)
    ensures Spends(s, s', t, Enters(s, Restart(rows, lost), t)) && TriesInv(s')
  {
    hide Filter, IsRecoveryListing, IdleWorkers, OfferAll, SumOver;
    var found := Filter(rows, Read(lost));
    OfferAllPrefix(s.queue, found);
    FilterConcat(s.queue, found[..Fit(s.queue, found)], ForTask(t));
    IdleWorkersIdle(WORKERS);
    NoSenders(s'.workers, t);
    NoSenders(s.workers, t);
  }

  lemma NoSenders(ws: map<WorkerId, Worker>, t: TaskId)
    requires forall w :: w in ws ==> !ws[w].Sending?
    ensures SumOver(ws.Keys, Sender(ws, t)) == 0.0 && SumOver(ws.Keys, LeftOf(ws, t)) == 0.0
  {
    var zero: WorkerId -> real := w => 0.0;
    SumOverScaled(ws.Keys, Sender(ws, t), zero, 0.0);
    SumOverScaled(ws.Keys, LeftOf(ws, t), zero, 0.0);
  }

  lemma RpcSpends(s: State, c: CallId, s': State, t: TaskId)
    requires c in s.rpcs && RpcStep(s, c, s')
    ensures Spends(s, s', t, Enters(s, Rpc(c), t)) && s'.workers == s.workers
  {
    hide Filter, SetStatus, SumOver;
    if s.rpcs[c].Enqueueing? {
      FilterAppend(s.queue, s.rpcs[c].job, ForTask(t));
    }
  }

  lemma CrashSpends(s: State, s': State, t: TaskId)
    requires s'.sent == s.sent && s'.queue == [] && s'.workers == map[] && TriesInv(s)
    ensures Spends(s, s', t, 0)
  {
    NoSenders(s'.workers, t);
    SumOverNonNegative(s.workers.Keys, Sender(s.workers, t));
    SumOverNonNegative(s.workers.Keys, LeftOf(s.workers, t));
  }

  lemma StepSpends(s: State, a: Action, s': State, t: TaskId)
    requires Does(s, a, s') && QueueInv(s) && TriesInv(s)
    ensures Spends(s, s', t, Enters(s, a, t)) && TriesInv(s')
  {
    hide WorkerDoes, RpcStep, IsRecoveryListing, OfferAll, IdleWorkers, QueueInv, PaidTotal, Filter, SumOver;
    match a
    case Work(w, _) => WorkSpends(s, w, s', t);
    case Rpc(c) => RpcSpends(s, c, s', t);
    case Restart(rows, lost) => RestartSpends(s, rows, lost, s', t);
    case Crash => CrashSpends(s, s', t);
    case _ =>
  }

  // ------------------------------------------------ every run

  lemma {:induction false} RunSpends(run: seq<State>, acts: seq<Action>, t: TaskId, i: nat)
    requires IsRun(run, acts) && i < |run|
    ensures TriesInv(run[i])
    ensures TimesReported(run[i], t) as real + Unsent(run[i], t) <= Entered(run, acts, t, i) as real
    ensures TimesPaid(run[i], t) as real + AttemptsLeft(run[i], t) <= (ATTEMPTS * Entered(run, acts, t, i)) as real
    decreases i
  {
    hide Does, Unsent, AttemptsLeft, Enters, Inv, TriesInv, TimesReported, TimesPaid;
    if i == 0 {
      NothingSpent(run[0], t);
    } else {
      RunSpends(run, acts, t, i - 1);
      RunInv(run, acts, i - 1);
      QueueOf(run[i - 1]);
      StepSpends(run[i - 1], acts[i - 1], run[i], t);
    }
  }

  lemma NothingSpent(s: State, t: TaskId)
    requires Init(s)
    ensures TriesInv(s) && TimesReported(s, t) == 0 && TimesPaid(s, t) == 0 && Unsent(s, t) == 0.0 && AttemptsLeft(s, t) == 0.0
  {
    NoSenders(s.workers, t);
  }

  lemma QueueOf(s: State)
    requires Inv(s)
    ensures QueueInv(s)
  {
  }

  lemma NeverNegative(s: State, t: TaskId)
    requires TriesInv(s)
    ensures Unsent(s, t) >= 0.0 && AttemptsLeft(s, t) >= 0.0
  {
    SumOverNonNegative(s.workers.Keys, Sender(s.workers, t));
    SumOverNonNegative(s.workers.Keys, LeftOf(s.workers, t));
  }

  /** In every run, with workers, retries, attempts that pay without reporting it, and crashes: a task is paid at
      most ATTEMPTS times for each job for it that entered the queue, and at most once for each plus the payments
      that were not reported. */
  lemma PaymentsBounded(run: seq<State>, acts: seq<Action>, t: TaskId, i: nat)
    requires IsRun(run, acts) && i < |run|
    ensures TimesPaid(run[i], t) <= ATTEMPTS * Entered(run, acts, t, i)
    ensures TimesPaid(run[i], t) <= Entered(run, acts, t, i) + TimesUnreported(run[i], t)
  {
    hide Filter, Unsent, AttemptsLeft, TriesInv;
    RunSpends(run, acts, t, i);
    NeverNegative(run[i], t);
    PaidSplits(run[i].sent, t);
  }

  // ------------------------------------------------ tasks paid more than once

  datatype Story = Story(run: seq<State>, acts: seq<Action>)

  ghost predicate Happens(s: Story) {
    IsRun(s.run, s.acts)
  }

  ghost function Now(s: Story): State
    requires s.run != []
  {
    s.run[|s.run| - 1]
  }

  function IsSubmission(t: TaskId): Action -> bool {
    (a: Action) => a.Submit? && a.t == t
  }

  /** How often the result of t was submitted. */
  function Submissions(s: Story, t: TaskId): nat {
    |Filter(s.acts, IsSubmission(t))|
  }

  lemma Do(s: Story, a: Action, x: State, t: TaskId) returns (s': Story)
    requires Happens(s) && Does(Now(s), a, x)
    ensures Happens(s') && s'.run != [] && Now(s') == x
    ensures Submissions(s', t) == Submissions(s, t) + if IsSubmission(t)(a) then 1 else 0
  {
    hide Does;
    s' := Story(s.run + [x], s.acts + [a]);
    forall i | 0 <= i < |s'.acts|
      ensures Does(s'.run[i], s'.acts[i], s'.run[i + 1])
    {
      if i < |s.acts| {
        assert s'.run[i] == s.run[i] && s'.run[i + 1] == s.run[i + 1] && s'.acts[i] == s.acts[i];
      }
    }
    FilterAppend(s.acts, a, IsSubmission(t));
  }

  /** The result of t is submitted, and a job for it enters the queue. */
  lemma SubmitResult(s: Story, c: CallId, t: TaskId) returns (s': Story)
    requires Happens(s) && Now(s).up && c !in Now(s).rpcs && t in Now(s).tasks && Now(s).tasks[t].uri != "" && |Now(s).queue| < QUEUE_SIZE
    ensures Happens(s') && s'.run != [] && Submissions(s', t) == Submissions(s, t) + 1
    ensures var x := Now(s);
      Now(s') == x.(tasks := SetStatus(x.tasks, t, Completed), rpcs := x.rpcs[c := Replied],
                    queue := x.queue + [Job(t, x.tasks[t].uri, x.tasks[t].reward)])
  {
    hide Submissions;
    var x := Now(s);
    var job := Job(t, x.tasks[t].uri, x.tasks[t].reward);
    var x1 := x.(rpcs := x.rpcs[c := Completing(t)]);
    s' := Do(s, Submit(c, t), x1, t);
    var x2 := x1.(tasks := SetStatus(x.tasks, t, Completed), rpcs := x1.rpcs[c := LookingUp(t)]);
    s' := Do(s', Rpc(c), x2, t);
    var x3 := x2.(rpcs := x2.rpcs[c := Enqueueing(job)]);
    s' := Do(s', Rpc(c), x3, t);
    var x4 := x3.(queue := x3.queue + [job], rpcs := x3.rpcs[c := Replied]);
    s' := Do(s', Rpc(c), x4, t);
    assert x4.rpcs == x.rpcs[c := Replied];
  }

  /** Worker w takes the first job. */
  lemma Take(s: Story, w: WorkerId, t: TaskId) returns (s': Story)
    requires Happens(s) && Now(s).up && w in Now(s).workers && Now(s).workers[w] == Idle && Now(s).queue != []
    ensures Happens(s') && s'.run != [] && Submissions(s', t) == Submissions(s, t)
    ensures Now(s') == Now(s).(queue := Now(s).queue[1..], workers := Now(s).workers[w := Sending(Now(s).queue[0], 0)])
  {
    hide Submissions;
    var x := Now(s);
    s' := Do(s, Work(w, true), x.(queue := x.queue[1..], workers := x.workers[w := Sending(x.queue[0], 0)]), t);
  }

  /** Attempt n of worker w pays and does not report it. */
  lemma PayUnreported(s: Story, w: WorkerId, job: Job, n: nat) returns (s': Story)
    requires Happens(s) && Now(s).up && w in Now(s).workers && Now(s).workers[w] == Sending(job, n)
    ensures Happens(s') && s'.run != [] && Submissions(s', job.task) == Submissions(s, job.task)
    ensures Now(s') == Now(s).(workers := Now(s).workers[w := AfterAttempt(job, n)], sent := Now(s).sent + [Send(job.task, false)])
  {
    hide Submissions;
    var x := Now(s);
    s' := Do(s, Work(w, true), x.(workers := x.workers[w := AfterAttempt(job, n)], sent := x.sent + [Send(job.task, false)]), job.task);
  }

  /** An attempt of worker w pays and reports it. */
  lemma PayReported(s: Story, w: WorkerId, job: Job) returns (s': Story)
    requires Happens(s) && Now(s).up && w in Now(s).workers && Now(s).workers[w].Sending? && Now(s).workers[w].job == job
    ensures Happens(s') && s'.run != [] && Submissions(s', job.task) == Submissions(s, job.task)
    ensures Now(s') == Now(s).(workers := Now(s).workers[w := Marking(job, "")], sent := Now(s).sent + [Send(job.task, true)])
  {
    hide Submissions;
    var x := Now(s);
    s' := Do(s, Work(w, true), x.(workers := x.workers[w := Marking(job, "")], sent := x.sent + [Send(job.task, true)]), job.task);
  }

  /** Worker w marks and counts what it sent. */
  lemma Mark(s: Story, w: WorkerId, job: Job) returns (s': Story)
    requires Happens(s) && Now(s).up && w in Now(s).workers && Now(s).workers[w] == Marking(job, "")
    ensures Happens(s') && s'.run != [] && Submissions(s', job.task) == Submissions(s, job.task)
    ensures var x := Now(s);
      Now(s') == x.(workers := x.workers[w := Idle], tasks := MarkPaid(x.tasks, job.task, ""), sats := x.sats + job.amount,
                    duplicates := x.duplicates + if IsPending(x.tasks, job.task) then 0.0 else job.amount)
  {
    hide MarkPaid, Submissions;
    var x := Now(s);
    var x1 := x.(tasks := MarkPaid(x.tasks, job.task, ""), workers := x.workers[w := Counting(job)],
                 duplicates := x.duplicates + if IsPending(x.tasks, job.task) then 0.0 else job.amount);
    s' := Do(s, Work(w, true), x1, job.task);
    assert x1.workers[w := Idle] == x.workers[w := Idle];
    s' := Do(s', Work(w, true), x1.(sats := x.sats + job.amount, workers := x.workers[w := Idle]), job.task);
  }

  lemma {:induction false} WorkerExists(n: nat, w: WorkerId)
    requires w < n
    ensures w in IdleWorkers(n)
    decreases n
  {
    if w < n - 1 {
      WorkerExists(n - 1, w);
    }
  }

  /** The dispatcher started on no rows, then a task was scheduled. */
  lemma Scheduled(t: TaskId, uri: string, reward: real) returns (s: Story)
    ensures Happens(s) && s.run != [] && Submissions(s, t) == 0
    ensures Now(s).up && Now(s).rpcs == map[] && Now(s).queue == [] && Now(s).sats == 0.0 && Now(s).duplicates == 0.0 && Now(s).sent == []
    ensures Now(s).tasks == map[t := Task(uri, reward, Running, Pending, None)]
    ensures 0 in Now(s).workers && Now(s).workers[0] == Idle
  {
    hide IdleWorkers;
    var x := State(map[], [], map[], map[], false, 0.0, 0.0, 0.0, []);
    s := Story([x], []);
    var x1 := x.(workers := IdleWorkers(WORKERS), up := true);
    assert Filter([], Read({})) == [];
    assert OfferAll([], []) == [];
    s := Do(s, Restart([], {}), x1, t);
    var x2 := x1.(tasks := x1.tasks[t := Task(uri, reward, Running, Pending, None)]);
    s := Do(s, Schedule(t, uri, reward), x2, t);
    WorkerExists(WORKERS, 0);
    IdleWorkersIdle(WORKERS);
  }

  lemma {:induction false} AllTo(t: TaskId, sent: seq<Send>)
    requires forall x :: x in sent ==> x.task == t
    ensures |Filter(sent, To(t))| == |sent|
    decreases |sent|
  {
    if sent != [] {
      AllTo(t, sent[..|sent| - 1]);
    }
  }

  /** Any task whose result is submitted twice before it is paid can be paid twice: both jobs are sent, its row
      is marked once, and the counter shows both. */
  lemma PaidTwice(t: TaskId, uri: string, reward: real) returns (s: Story)
    requires uri != ""
    ensures Happens(s) && s.run != [] && Submissions(s, t) == 2 && TimesPaid(Now(s), t) == 2
    ensures Now(s).tasks == map[t := Task(uri, reward, Completed, Payment.Paid, Some(""))]
    ensures Now(s).sats == 2.0 * reward && Now(s).duplicates == reward
  {
    hide Submissions, Filter;
    var job := Job(t, uri, reward);
    s := Scheduled(t, uri, reward);
    s := SubmitResult(s, 0, t);
    s := SubmitResult(s, 1, t);
    s := Take(s, 0, t);
    s := PayReported(s, 0, job);
    s := Mark(s, 0, job);
    s := Take(s, 0, t);
    s := PayReported(s, 0, job);
    s := Mark(s, 0, job);
    AllTo(t, Now(s).sent);
  }

  /** Any task whose result is submitted once can be paid by every attempt: three pay without reporting it, the
      last one reports, and the row and the counter show one payment. */
  lemma PaidByEveryAttempt(t: TaskId, uri: string, reward: real) returns (s: Story)
    requires uri != ""
    ensures Happens(s) && s.run != [] && Submissions(s, t) == 1 && TimesPaid(Now(s), t) == ATTEMPTS
    ensures Now(s).tasks == map[t := Task(uri, reward, Completed, Payment.Paid, Some(""))]
    ensures Now(s).sats == reward && Now(s).duplicates == 0.0
  {
    hide Submissions, Filter;
    var job := Job(t, uri, reward);
    s := Scheduled(t, uri, reward);
    s := SubmitResult(s, 0, t);
    s := Take(s, 0, t);
    s := PayUnreported(s, 0, job, 0);
    s := PayUnreported(s, 0, job, 1);
    s := PayUnreported(s, 0, job, 2);
    s := PayReported(s, 0, job);
    s := Mark(s, 0, job);
    AllTo(t, Now(s).sent);
  }

  /** The process stops; the queue, the workers and the calls are lost. */
  lemma CrashNow(s: Story, t: TaskId) returns (s': Story)
    requires Happens(s)
    ensures Happens(s') && s'.run != [] && Submissions(s', t) == Submissions(s, t)
    ensures var x, y := Now(s), Now(s');
      !y.up && y.queue == [] && y.workers == map[] && y.rpcs == map[] && y.tasks == x.tasks && y.sent == x.sent && y.duplicates == x.duplicates
  {
    hide Submissions, PaidTotal;
    var x := Now(s);
    s' := Do(s, Crash, x.(queue := [], workers := map[], rpcs := map[], up := false, sats := 0.0,
                          carried := PaidTotal(x.tasks) + x.duplicates), t);
  }

  /** It starts again and finds one row to recover. */
  lemma RecoverOne(s: Story, t: TaskId, uri: string, reward: real) returns (s': Story)
    requires Happens(s) && !Now(s).up && Now(s).queue == []
    requires Now(s).tasks == map[t := Task(uri, reward, Completed, Pending, None)]
    ensures Happens(s') && s'.run != [] && Submissions(s', t) == Submissions(s, t)
    ensures var x, y := Now(s), Now(s');
      y.up && y.queue == [Job(t, uri, reward)] && y.tasks == x.tasks && y.sent == x.sent && y.duplicates == x.duplicates
      && 0 in y.workers && y.workers[0] == Idle
  {
    hide Submissions, IdleWorkers;
    var x, job := Now(s), Job(t, uri, reward);
    FilterAppend([], job, Read({}));
    assert [] + [job] == [job] && Filter([job], Read({})) == [job];
    OfferAllPrefix([], [job]);
    assert [job][..1] == [job] && [] + [job] == [job];
    assert IsRecoveryListing([job], x.tasks) by { assert [job][0] == job; }
    s' := Do(s, Restart([job], {}), x.(queue := [job], workers := IdleWorkers(WORKERS), up := true), t);
    WorkerExists(WORKERS, 0);
    IdleWorkersIdle(WORKERS);
  }

  /** Any task whose result is submitted once can be paid again after a crash between sending and marking: its
      row is still pending, and recovery sends it once more. */
  lemma PaidAgainAfterCrash(t: TaskId, uri: string, reward: real) returns (s: Story)
    requires uri != ""
    ensures Happens(s) && s.run != [] && Submissions(s, t) == 1 && TimesPaid(Now(s), t) == 2
    ensures Now(s).tasks == map[t := Task(uri, reward, Completed, Payment.Paid, Some(""))] && Now(s).duplicates == 0.0
  {
    hide Submissions, Filter;
    var job := Job(t, uri, reward);
    s := Scheduled(t, uri, reward);
    s := SubmitResult(s, 0, t);
    s := Take(s, 0, t);
    s := PayReported(s, 0, job);
    s := CrashNow(s, t);
    s := RecoverOne(s, t, uri, reward);
    s := Take(s, 0, t);
    s := PayReported(s, 0, job);
    s := Mark(s, 0, job);
    AllTo(t, Now(s).sent);
  }
}

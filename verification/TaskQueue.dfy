/**
 The background task queue (internal/service/background.go) as a step system:
 any number of workers share one table of task rows.  A claim is a database
 transaction that locks the best due row, and may commit, roll back, or commit
 with its acknowledgement lost.  A finishing write may or may not reach the table.
 */
module TaskQueue {

  const MAX_RETRIES: nat := 5
  const RETRY_BACKOFF: nat := 30  // seconds

  datatype Status = Pending | Running | Completed | Dead

  /** What has happened to one task so far; `Failed` is a handler error. */
  datatype Event = Claimed(at: int) | Failed(at: int)

  /** A table row.  `log` is no column: it records every committed claim and handler failure. */
  datatype Row = Row(
    taskType: string, priority: int, status: Status, attempts: nat, nextRunAt: int, log: seq<Event>)

  /** The three finishing updates of `processTask` and `handleTaskError`. */
  datatype Write = SetCompleted | SetDead | Requeue(nextRunAt: int)

  /** Where a worker is between two database calls. */
  datatype Worker =
    | Polling
    | Claiming(task: nat)                   // row lock held, claim not committed
    | Handling(task: nat, attempts: nat)    // claim committed, handler running
    | Finishing(task: nat, write: Write)    // outcome known, write not yet issued

  datatype State = State(now: int, handlers: set<string>, rows: seq<Row>, workers: seq<Worker>)

  datatype CommitResult = Acked | RolledBack | AckLost

  datatype Step =
    | Tick(dt: nat)
    | Enqueue(taskType: string, priority: int)
    | LockSelect(w: nat, task: nat)
    | CommitClaim(w: nat, result: CommitResult)
    | Process(w: nat, ok: bool)
    | WriteFinish(w: nat, applied: bool)
    | Crash(w: nat)

  // ---------------------------------------------------------------- steps

  predicate Locked(workers: seq<Worker>, task: nat) {
    exists w | 0 <= w < |workers| :: workers[w] == Claiming(task)
  }

  /** `ORDER BY priority DESC, next_run_at ASC`: a strictly precedes b. */
  predicate Before(a: Row, b: Row) {
    a.priority > b.priority || (a.priority == b.priority && a.nextRunAt < b.nextRunAt)
  }

  predicate Claimable(s: State, task: nat) {
    && task < |s.rows|
    && s.rows[task].status == Pending
    && s.rows[task].nextRunAt <= s.now
    && !Locked(s.workers, task)
  }

  /** The rows the claiming sub-select may return: ties are the database's choice. */
  ghost predicate IsChoice(s: State, task: nat) {
    && Claimable(s, task)
    && forall j: nat :: Claimable(s, j) ==> !Before(s.rows[j], s.rows[task])
  }

  ghost predicate Enabled(s: State, e: Step) {
    match e
    case Tick(_) => true
    case Enqueue(_, _) => true
    case LockSelect(w, task) => w < |s.workers| && s.workers[w].Polling? && IsChoice(s, task)
    case CommitClaim(w, _) => w < |s.workers| && s.workers[w].Claiming? && s.workers[w].task < |s.rows|
    case Process(w, _) => w < |s.workers| && s.workers[w].Handling? && s.workers[w].task < |s.rows|
    case WriteFinish(w, _) => w < |s.workers| && s.workers[w].Finishing? && s.workers[w].task < |s.rows|
    case Crash(w) => w < |s.workers|
  }

  /** `processTask` with `handleTaskError`: which update follows the handler's outcome. */
  function Decide(handlers: set<string>, taskType: string, attempts: nat, ok: bool, now: int): Write {
    if taskType !in handlers then SetDead
    else if ok then SetCompleted
    else if attempts >= MAX_RETRIES then SetDead
    else Requeue(now + RETRY_BACKOFF * (attempts + 1))
  }

  function ApplyWrite(row: Row, write: Write): Row {
    match write
    case SetCompleted => row.(status := Completed)
    case SetDead => row.(status := Dead)
    case Requeue(t) => row.(status := Pending, nextRunAt := t)
  }

  ghost function Apply(s: State, e: Step): State
    requires Enabled(s, e)
  {
    match e
    case Tick(dt) => s.(now := s.now + dt)
    case Enqueue(taskType, priority) =>
      s.(rows := s.rows + [Row(taskType, priority, Pending, 0, s.now, [])])
    case LockSelect(w, task) => s.(workers := s.workers[w := Claiming(task)])
    case CommitClaim(w, result) =>
      var i := s.workers[w].task;
      var row := s.rows[i];
      if result == RolledBack then s.(workers := s.workers[w := Polling])
      else s.(
        rows := s.rows[i := row.(status := Running, attempts := row.attempts + 1, log := row.log + [Claimed(s.now)])],
        workers := s.workers[w := if result == Acked then Handling(i, row.attempts + 1) else Polling])
    case Process(w, ok) =>
      var i := s.workers[w].task;
      var row := s.rows[i];
      s.(
        rows := if row.taskType in s.handlers && !ok
                then s.rows[i := row.(log := row.log + [Failed(s.now)])] else s.rows,
        workers := s.workers[w := Finishing(i, Decide(s.handlers, row.taskType, s.workers[w].attempts, ok, s.now))])
    case WriteFinish(w, applied) =>
      var i := s.workers[w].task;
      s.(
        rows := if applied then s.rows[i := ApplyWrite(s.rows[i], s.workers[w].write)] else s.rows,
        workers := s.workers[w := Polling])
    case Crash(w) => s.(workers := s.workers[w := Polling])
  }

  ghost predicate Init(s: State) {
    s.rows == [] && forall w :: 0 <= w < |s.workers| ==> s.workers[w].Polling?
  }

  ghost predicate ValidRun(s: State, run: seq<Step>)
    decreases |run|
  {
    run == [] || (Enabled(s, run[0]) && ValidRun(Apply(s, run[0]), run[1..]))
  }

  ghost function Final(s: State, run: seq<Step>): State
    requires ValidRun(s, run)
    decreases |run|
  {
    if run == [] then s else Final(Apply(s, run[0]), run[1..])
  }

  // ------------------------------------------------------------ invariant

  /** Claims and failures alternate, and claim k+1 waits 30*(k+1) seconds after failure k. */
  ghost predicate WellTimed(h: seq<Event>, now: int) {
    && (forall k :: 0 <= k < |h| ==> (h[k].Claimed? <==> k % 2 == 0) && h[k].at <= now)
    && (forall k :: 0 < k < |h| ==> h[k - 1].at <= h[k].at)
    && (forall k :: 0 < k < |h| && k % 2 == 0 ==> h[k - 1].at + RETRY_BACKOFF * (k / 2 + 1) <= h[k].at)
  }

  ghost predicate RowOk(row: Row, now: int, handlers: set<string>) {
    && WellTimed(row.log, now)
    && |row.log| <= 2 * MAX_RETRIES
    && row.attempts == (|row.log| + 1) / 2
    && (row.taskType !in handlers ==> |row.log| <= 1)
    && match row.status
       case Pending =>
         && |row.log| % 2 == 0
         && row.attempts < MAX_RETRIES
         && (row.log == [] ==> row.nextRunAt <= now)
         && (row.log != [] ==> row.nextRunAt == row.log[|row.log| - 1].at + RETRY_BACKOFF * (row.attempts + 1))
       case Running => row.log != []
       case Completed => |row.log| % 2 == 1 && row.taskType in handlers
       case Dead => if row.taskType in handlers then |row.log| == 2 * MAX_RETRIES else |row.log| == 1
  }

  ghost predicate WriteOk(row: Row, write: Write, handlers: set<string>) {
    match write
    case SetCompleted => |row.log| % 2 == 1 && row.taskType in handlers
    case SetDead => if row.taskType in handlers then |row.log| == 2 * MAX_RETRIES else |row.log| == 1
    case Requeue(t) =>
      && row.log != [] && |row.log| % 2 == 0
      && row.attempts < MAX_RETRIES
      && t == row.log[|row.log| - 1].at + RETRY_BACKOFF * (row.attempts + 1)
  }

  ghost predicate WorkerOk(s: State, worker: Worker) {
    worker.Polling? || (
      && worker.task < |s.rows|
      && var row := s.rows[worker.task];
         match worker
         case Polling => true
         case Claiming(_) => row.status == Pending && row.nextRunAt <= s.now
         case Handling(_, attempts) => row.status == Running && attempts == row.attempts && |row.log| % 2 == 1
         case Finishing(_, write) => row.status == Running && WriteOk(row, write, s.handlers))
  }

  /** A worker holds a task from the commit of its claim until its finishing write. */
  predicate Holds(worker: Worker, task: nat) {
    (worker.Handling? || worker.Finishing?) && worker.task == task
  }

  ghost predicate Inv(s: State) {
    && (forall w :: 0 <= w < |s.workers| ==> WorkerOk(s, s.workers[w]))
    && (forall v, w :: 0 <= v < w < |s.workers| && !s.workers[v].Polling? && !s.workers[w].Polling?
          ==> s.workers[v].task != s.workers[w].task)
    && (forall i :: 0 <= i < |s.rows| ==> RowOk(s.rows[i], s.now, s.handlers))
  }

  /** A step of worker w that only touches its own task i needs checking only there. */
  lemma LocalUpdateKeepsInv(s: State, t: State, w: nat, i: nat)
    requires Inv(s) && w < |s.workers| && !s.workers[w].Polling? && s.workers[w].task == i
    requires t.now == s.now && t.handlers == s.handlers
    requires i < |s.rows| == |t.rows| && t.rows == s.rows[i := t.rows[i]]
    requires |t.workers| == |s.workers| && t.workers == s.workers[w := t.workers[w]]
    requires t.workers[w].Polling? || t.workers[w].task == i
    requires RowOk(t.rows[i], t.now, t.handlers) && WorkerOk(t, t.workers[w])
    ensures Inv(t)
  {
    forall v | 0 <= v < |t.workers| ensures WorkerOk(t, t.workers[v]) {
      if v != w && !t.workers[v].Polling? {
        assert WorkerOk(s, s.workers[v]);
        assert t.workers[v].task != i by { assert s.workers[v].task != i; }
      }
    }
  }

  lemma ExtendLog(h: seq<Event>, e: Event, now: int)
    requires WellTimed(h, now) && e.at == now
    requires e.Claimed? <==> |h| % 2 == 0
    requires e.Claimed? && h != [] ==> h[|h| - 1].at + RETRY_BACKOFF * (|h| / 2 + 1) <= now
    ensures WellTimed(h + [e], now)
  {
  }

  lemma ClaimedRowOk(row: Row, now: int, handlers: set<string>)
    requires RowOk(row, now, handlers) && row.status == Pending && row.nextRunAt <= now
    ensures RowOk(row.(status := Running, attempts := row.attempts + 1, log := row.log + [Claimed(now)]), now, handlers)
  {
    ExtendLog(row.log, Claimed(now), now);
  }

  lemma FailedRowOk(row: Row, now: int, handlers: set<string>)
    requires RowOk(row, now, handlers) && row.status == Running && |row.log| % 2 == 1 && row.taskType in handlers
    ensures RowOk(row.(log := row.log + [Failed(now)]), now, handlers)
  {
    ExtendLog(row.log, Failed(now), now);
  }

  lemma ClaimKeepsInv(s: State, w: nat, result: CommitResult)
    requires Inv(s) && Enabled(s, CommitClaim(w, result))
    ensures Inv(Apply(s, CommitClaim(w, result)))
  {
    var i := s.workers[w].task;
    assert WorkerOk(s, s.workers[w]);
    ClaimedRowOk(s.rows[i], s.now, s.handlers);
    LocalUpdateKeepsInv(s, Apply(s, CommitClaim(w, result)), w, i);
  }

  lemma ProcessKeepsInv(s: State, w: nat, ok: bool)
    requires Inv(s) && Enabled(s, Process(w, ok))
    ensures Inv(Apply(s, Process(w, ok)))
  {
    var i := s.workers[w].task;
    assert WorkerOk(s, s.workers[w]) && RowOk(s.rows[i], s.now, s.handlers);
    if s.rows[i].taskType in s.handlers && !ok {
      FailedRowOk(s.rows[i], s.now, s.handlers);
    }
    LocalUpdateKeepsInv(s, Apply(s, Process(w, ok)), w, i);
  }

  lemma WriteKeepsInv(s: State, w: nat, applied: bool)
    requires Inv(s) && Enabled(s, WriteFinish(w, applied))
    ensures Inv(Apply(s, WriteFinish(w, applied)))
  {
    var i := s.workers[w].task;
    assert WorkerOk(s, s.workers[w]) && RowOk(s.rows[i], s.now, s.handlers);
    LocalUpdateKeepsInv(s, Apply(s, WriteFinish(w, applied)), w, i);
  }

  /** Every step of every worker keeps the queue invariant. */
  lemma StepKeepsInv(s: State, e: Step)
    requires Inv(s) && Enabled(s, e)
    ensures Inv(Apply(s, e))
  {
    match e
    case Tick(_) =>
    case Enqueue(_, _) =>
    case LockSelect(_, _) =>
    case CommitClaim(w, result) => ClaimKeepsInv(s, w, result);
    case Process(w, ok) => ProcessKeepsInv(s, w, ok);
    case WriteFinish(w, applied) => WriteKeepsInv(s, w, applied);
    case Crash(_) =>
  }

  lemma {:induction false} RunKeepsInv(s: State, run: seq<Step>)
    requires Inv(s) && ValidRun(s, run)
    ensures Inv(Final(s, run))
    decreases |run|
  {
    if run != [] {
      StepKeepsInv(s, run[0]);
      RunKeepsInv(Apply(s, run[0]), run[1..]);
    }
  }

  // -------------------------------------------------------- claim safety

  /**
   In every state that any schedule of any number of workers reaches, a task is held by at
   most one worker, a held row is `running`, and a row locked for claiming is `pending`
   and locked once.
   */
  lemma ClaimsAreExclusive(s: State, run: seq<Step>, v: nat, w: nat, i: nat)
    requires Init(s) && ValidRun(s, run)
    requires v < |Final(s, run).workers| && w < |Final(s, run).workers|
    ensures var t := Final(s, run);
            && (Holds(t.workers[v], i) ==> i < |t.rows| && t.rows[i].status == Running && !Locked(t.workers, i))
            && (t.workers[v] == Claiming(i) ==> i < |t.rows| && t.rows[i].status == Pending)
            && (Holds(t.workers[v], i) && Holds(t.workers[w], i) ==> v == w)
            && (t.workers[v] == t.workers[w] == Claiming(i) ==> v == w)
  {
    RunKeepsInv(s, run);
    var t := Final(s, run);
    assert WorkerOk(t, t.workers[v]);
    if u: nat :| u < |t.workers| && t.workers[u] == Claiming(i) {
      assert WorkerOk(t, t.workers[u]);
    }
  }

  ghost predicate Unheld(s: State, i: nat) {
    forall w :: 0 <= w < |s.workers| ==> !Holds(s.workers[w], i)
  }

  /** A row that nothing in the queue will ever touch again: finished, or running with no holder. */
  ghost predicate Settled(s: State, i: nat) {
    && i < |s.rows|
    && (s.rows[i].status in {Completed, Dead} || (s.rows[i].status == Running && Unheld(s, i)))
  }

  lemma StepKeepsSettled(s: State, e: Step, i: nat)
    requires Inv(s) && Enabled(s, e) && Settled(s, i)
    ensures Settled(Apply(s, e), i) && Apply(s, e).rows[i] == s.rows[i]
  {
    forall w | 0 <= w < |s.workers| ensures WorkerOk(s, s.workers[w]) {}
  }

  /**
   `completed` and `dead` rows never change again, and neither does a running row whose
   worker is gone: no step of any continuation reclaims it.
   */
  lemma {:induction false} SettledForever(s: State, run: seq<Step>, i: nat)
    requires Inv(s) && ValidRun(s, run) && Settled(s, i)
    ensures Settled(Final(s, run), i) && Final(s, run).rows[i] == s.rows[i]
    decreases |run|
  {
    if run != [] {
      StepKeepsInv(s, run[0]);
      StepKeepsSettled(s, run[0], i);
      SettledForever(Apply(s, run[0]), run[1..], i);
    }
  }

  /**
   A step leaves some row running and unheld that was not so before exactly when it is a
   finishing write that did not reach the table, a lost claim acknowledgement or the
   crash of the holder; every other step leaves each running row with a holder.
   */
  lemma OrphansComeFromFaults(s: State, e: Step, i: nat)
    requires Inv(s) && Enabled(s, e) && i < |s.rows| && !(s.rows[i].status == Running && Unheld(s, i))
    ensures (Apply(s, e).rows[i].status == Running && Unheld(Apply(s, e), i)) <==>
            match e
            case WriteFinish(w, applied) => s.workers[w].task == i && !applied
            case CommitClaim(w, result) => s.workers[w].task == i && result == AckLost
            case Crash(w) => Holds(s.workers[w], i)
            case _ => false
  {
    var t := Apply(s, e);
    forall w | 0 <= w < |s.workers| ensures WorkerOk(s, s.workers[w]) {}
    if s.rows[i].status == Running {
      var h: nat :| h < |s.workers| && Holds(s.workers[h], i);
      assert Holds(t.workers[h], i) || ((e.WriteFinish? || e.Crash?) && e.w == h);
    } else {
      forall w | 0 <= w < |s.workers| ensures !Holds(s.workers[w], i) {}
      if e.CommitClaim? && e.result == Acked {
        assert Holds(t.workers[e.w], s.workers[e.w].task);
      }
    }
  }

  // ------------------------------------------------- attempts and handlers

  function Attempts(s: State, i: nat): nat {
    if i < |s.rows| then s.rows[i].attempts else 0
  }

  /** How many of the run's steps commit a claim of task i. */
  ghost function Claims(s: State, run: seq<Step>, i: nat): nat
    requires ValidRun(s, run)
    decreases |run|
  {
    if run == [] then 0 else
    (if run[0].CommitClaim? && run[0].result != RolledBack && s.workers[run[0].w].task == i then 1 else 0)
    + Claims(Apply(s, run[0]), run[1..], i)
  }

  ghost predicate RunsHandler(s: State, e: Step, i: nat)
    requires Enabled(s, e)
  {
    e.Process? && s.workers[e.w].task == i && s.rows[i].taskType in s.handlers
  }

  /** How many of the run's steps are an execution of the handler on task i. */
  ghost function HandlerRuns(s: State, run: seq<Step>, i: nat): nat
    requires ValidRun(s, run)
    decreases |run|
  {
    if run == [] then 0 else
    (if RunsHandler(s, run[0], i) then 1 else 0) + HandlerRuns(Apply(s, run[0]), run[1..], i)
  }

  lemma {:induction false} AttemptsCountClaims(s: State, run: seq<Step>, i: nat)
    requires Inv(s) && ValidRun(s, run)
    ensures Attempts(Final(s, run), i) == Attempts(s, i) + Claims(s, run, i)
    decreases |run|
  {
    if run != [] {
      StepKeepsInv(s, run[0]);
      AttemptsCountClaims(Apply(s, run[0]), run[1..], i);
    }
  }

  /** Claims still possible for task i, plus one if its handler is about to run. */
  ghost function Credit(s: State, i: nat): int {
    MAX_RETRIES - Attempts(s, i)
    + (if exists w :: 0 <= w < |s.workers| && s.workers[w].Handling? && s.workers[w].task == i then 1 else 0)
  }

  lemma StepSpendsCredit(s: State, e: Step, i: nat)
    requires Inv(s) && Enabled(s, e)
    ensures (if RunsHandler(s, e, i) then 1 else 0) + Credit(Apply(s, e), i) <= Credit(s, i)
  {
    var t := Apply(s, e);
    forall w | 0 <= w < |s.workers| ensures WorkerOk(s, s.workers[w]) {}
    if u: nat :| u < |t.workers| && t.workers[u].Handling? && t.workers[u].task == i {
      if s.workers[u] == t.workers[u] {
        assert s.workers[u].Handling? && s.workers[u].task == i;
      }
    }
    if RunsHandler(s, e, i) {
      assert s.workers[e.w].Handling? && s.workers[e.w].task == i;
    }
  }

  lemma {:induction false} RunSpendsCredit(s: State, run: seq<Step>, i: nat)
    requires Inv(s) && ValidRun(s, run)
    ensures HandlerRuns(s, run, i) + Credit(Final(s, run), i) <= Credit(s, i)
    decreases |run|
  {
    if run != [] {
      StepKeepsInv(s, run[0]);
      StepSpendsCredit(s, run[0], i);
      RunSpendsCredit(Apply(s, run[0]), run[1..], i);
    }
  }

  function Failures(s: State, i: nat): nat {
    if i < |s.rows| then |s.rows[i].log| / 2 else 0
  }

  lemma StepFailsInHandler(s: State, e: Step, i: nat)
    requires Inv(s) && Enabled(s, e)
    ensures Failures(Apply(s, e), i) <= Failures(s, i) + (if RunsHandler(s, e, i) then 1 else 0)
  {
    forall w | 0 <= w < |s.workers| ensures WorkerOk(s, s.workers[w]) {}
    if i < |s.rows| {
      assert RowOk(s.rows[i], s.now, s.handlers);
    }
  }

  lemma {:induction false} FailuresAreHandlerRuns(s: State, run: seq<Step>, i: nat)
    requires Inv(s) && ValidRun(s, run)
    ensures Failures(Final(s, run), i) <= Failures(s, i) + HandlerRuns(s, run, i)
    decreases |run|
  {
    if run != [] {
      StepKeepsInv(s, run[0]);
      StepFailsInHandler(s, run[0], i);
      FailuresAreHandlerRuns(Apply(s, run[0]), run[1..], i);
    }
  }

  /**
   Over any schedule a row's attempts are exactly its committed claims; a pending row has at
   most 4 and a running row 1 to 5; and no handler runs more than five times for one task,
   nor less often than its failures, which are every second event of the row.
   */
  lemma AtMostFiveHandlerRuns(s: State, run: seq<Step>, i: nat)
    requires Init(s) && ValidRun(s, run)
    ensures HandlerRuns(s, run, i) <= MAX_RETRIES
    ensures i < |Final(s, run).rows| ==>
              var row := Final(s, run).rows[i];
              && row.attempts == Claims(s, run, i) <= MAX_RETRIES
              && (row.status == Pending ==> row.attempts < MAX_RETRIES)
              && (row.status == Running ==> 1 <= row.attempts)
              && |row.log| / 2 <= HandlerRuns(s, run, i)
  {
    RunKeepsInv(s, run);
    RunSpendsCredit(s, run, i);
    FailuresAreHandlerRuns(s, run, i);
    AttemptsCountClaims(s, run, i);
    if i < |Final(s, run).rows| {
      assert RowOk(Final(s, run).rows[i], Final(s, run).now, Final(s, run).handlers);
    }
  }

  // ---------------------------------------------------------- bounded work

  function Potential(row: Row): int {
    2 * (MAX_RETRIES - row.attempts) + (if row.status == Running then 1 else 0)
  }

  function TotalPotential(rows: seq<Row>): int {
    if rows == [] then 0 else Potential(rows[0]) + TotalPotential(rows[1..])
  }

  lemma {:induction false} PotentialOfUpdate(rows: seq<Row>, i: nat, row: Row)
    requires i < |rows|
    ensures TotalPotential(rows[i := row]) == TotalPotential(rows) - Potential(rows[i]) + Potential(row)
  {
    if i == 0 {
      assert rows[i := row][1..] == rows[1..];
    } else {
      assert rows[i := row][1..] == rows[1..][i - 1 := row];
      PotentialOfUpdate(rows[1..], i - 1, row);
    }
  }

  lemma {:induction false} PotentialOfAppend(rows: seq<Row>, row: Row)
    ensures TotalPotential(rows + [row]) == TotalPotential(rows) + Potential(row)
  {
    if rows != [] {
      assert (rows + [row])[1..] == rows[1..] + [row];
      PotentialOfAppend(rows[1..], row);
    }
  }

  lemma {:induction false} PotentialIsNonNegative(rows: seq<Row>)
    requires forall i :: 0 <= i < |rows| ==> rows[i].attempts <= MAX_RETRIES
    ensures TotalPotential(rows) >= 0
  {
    if rows != [] {
      PotentialIsNonNegative(rows[1..]);
    }
  }

  /** Work is a committed claim or a finishing write that reached the table. */
  predicate IsWork(e: Step) {
    (e.CommitClaim? && e.result != RolledBack) || (e.WriteFinish? && e.applied)
  }

  function Work(run: seq<Step>): nat {
    if run == [] then 0 else (if IsWork(run[0]) then 1 else 0) + Work(run[1..])
  }

  function Enqueues(run: seq<Step>): nat {
    if run == [] then 0 else (if run[0].Enqueue? then 1 else 0) + Enqueues(run[1..])
  }

  lemma StepConservesWork(s: State, e: Step)
    requires Inv(s) && Enabled(s, e)
    ensures TotalPotential(Apply(s, e).rows) + (if IsWork(e) then 1 else 0)
         == TotalPotential(s.rows) + (if e.Enqueue? then 2 * MAX_RETRIES else 0)
  {
    var t := Apply(s, e);
    match e
    case Tick(_) =>
    case Enqueue(_, _) => PotentialOfAppend(s.rows, t.rows[|s.rows|]);
    case LockSelect(_, _) =>
    case Crash(_) =>
    case CommitClaim(w, _) =>
      assert WorkerOk(s, s.workers[w]);
      PotentialOfUpdate(s.rows, s.workers[w].task, t.rows[s.workers[w].task]);
    case Process(w, _) =>
      assert WorkerOk(s, s.workers[w]);
      PotentialOfUpdate(s.rows, s.workers[w].task, t.rows[s.workers[w].task]);
    case WriteFinish(w, _) =>
      assert WorkerOk(s, s.workers[w]);
      PotentialOfUpdate(s.rows, s.workers[w].task, t.rows[s.workers[w].task]);
  }

  /** The exact account: every unit of work is paid from the ten units each task brings. */
  lemma {:induction false} RunConservesWork(s: State, run: seq<Step>)
    requires Inv(s) && ValidRun(s, run)
    ensures Work(run) + TotalPotential(Final(s, run).rows) == TotalPotential(s.rows) + 2 * MAX_RETRIES * Enqueues(run)
    decreases |run|
  {
    if run != [] {
      StepKeepsInv(s, run[0]);
      StepConservesWork(s, run[0]);
      RunConservesWork(Apply(s, run[0]), run[1..]);
    }
  }

  /** In any schedule, n enqueued tasks cause at most 10*n claims and finishing writes. */
  lemma WorkIsBounded(s: State, run: seq<Step>)
    requires Init(s) && ValidRun(s, run)
    ensures Work(run) <= 10 * Enqueues(run)
  {
    RunKeepsInv(s, run);
    RunConservesWork(s, run);
    var t := Final(s, run);
    forall i | 0 <= i < |t.rows| ensures t.rows[i].attempts <= MAX_RETRIES {
      assert RowOk(t.rows[i], t.now, t.handlers);
    }
    PotentialIsNonNegative(t.rows);
  }

  // --------------------------------------------------------------- backoff

  /**
   Over all schedules: the events of a task alternate claim, failure, claim, ...; the claim
   after failure k comes at least 30*(k+1) seconds after it; and a task that a registered
   handler's failures killed has exactly five of them, the last at least 420 seconds
   after the first.
   */
  lemma BackoffSpacing(s: State, run: seq<Step>, i: nat)
    requires Init(s) && ValidRun(s, run) && i < |Final(s, run).rows|
    ensures var row := Final(s, run).rows[i];
            && (forall k :: 0 <= k < |row.log| ==> (row.log[k].Claimed? <==> k % 2 == 0))
            && (forall k :: 1 <= k && 2 * k < |row.log| ==>
                  row.log[2 * k].at - row.log[2 * k - 1].at >= 30 * (k + 1))
            && (row.status == Dead && row.taskType in Final(s, run).handlers ==>
                  |row.log| == 10 && row.log[9].at - row.log[1].at >= 420)
  {
    RunKeepsInv(s, run);
    var row := Final(s, run).rows[i];
    assert RowOk(row, Final(s, run).now, Final(s, run).handlers);
    forall k | 1 <= k && 2 * k < |row.log|
      ensures row.log[2 * k].at - row.log[2 * k - 1].at >= 30 * (k + 1)
    {
      var j := 2 * k;
      assert j % 2 == 0 && j / 2 == k;
    }
    if row.status == Dead && row.taskType in Final(s, run).handlers {
      assert row.log[1].at + 60 <= row.log[2].at <= row.log[3].at;
      assert row.log[3].at + 90 <= row.log[4].at <= row.log[5].at;
      assert row.log[5].at + 120 <= row.log[6].at <= row.log[7].at;
      assert row.log[7].at + 150 <= row.log[8].at <= row.log[9].at;
    }
  }

  /**
   A waiting row is claimed on time.  In every reachable state, a row that is pending after k
   failures has k from 0 to 4; it is due at once when k is 0, and exactly 30*(k+1) seconds
   after the last failure otherwise.  From that second on, and not before, a polling worker's
   select may take it, exactly if no other due row that nobody is claiming has a higher
   priority, or the same and an earlier run time.  If no other row is pending, it is the
   only row the select can take.
   */
  lemma RetryIsClaimedOnTime(s: State, run: seq<Step>, w: nat, i: nat)
    requires Init(s) && ValidRun(s, run)
    requires w < |Final(s, run).workers| && Final(s, run).workers[w] == Polling
    requires i < |Final(s, run).rows| && Final(s, run).rows[i].status == Pending
    requires Claiming(i) !in Final(s, run).workers
    ensures var t := Final(s, run); var row := t.rows[i]; var k := row.attempts;
            && k < 5 && |row.log| == 2 * k
            && (k > 0 ==> row.log[2 * k - 1] == Failed(row.nextRunAt - 30 * (k + 1)))
            && (Enabled(t, LockSelect(w, i)) <==>
                  && (k == 0 || t.now >= row.log[2 * k - 1].at + 30 * (k + 1))
                  && forall j: nat :: j < |t.rows| && t.rows[j].status == Pending && t.rows[j].nextRunAt <= t.now
                                      && Claiming(j) !in t.workers ==>
                       t.rows[j].priority < row.priority
                       || (t.rows[j].priority == row.priority && t.rows[j].nextRunAt >= row.nextRunAt))
            && ((forall j :: 0 <= j < |t.rows| && j != i ==> t.rows[j].status != Pending) ==>
                  && (k == 0 || t.now >= row.log[2 * k - 1].at + 30 * (k + 1) ==> Enabled(t, LockSelect(w, i)))
                  && forall j: nat :: Enabled(t, LockSelect(w, j)) ==> j == i)
  {
    RunKeepsInv(s, run);
    var t := Final(s, run);
    assert RowOk(t.rows[i], t.now, t.handlers);
    forall j: nat
      ensures Claimable(t, j) <==> j < |t.rows| && t.rows[j].status == Pending && t.rows[j].nextRunAt <= t.now
                                   && Claiming(j) !in t.workers
    {
      assert Locked(t.workers, j) <==> Claiming(j) in t.workers;
    }
    assert t.now >= t.rows[i].nextRunAt ==> Claimable(t, i);
  }

  /** The steps of one timely retry: wait, select, claim, run the handler, write the outcome. */
  function Retry(w: nat, i: nat, dt: nat, ok: bool): seq<Step> {
    [Tick(dt), LockSelect(w, i), CommitClaim(w, Acked)] + [Process(w, ok), WriteFinish(w, true)]
  }

  lemma SoleRowIsSelected(t: State, w: nat, i: nat)
    requires w < |t.workers| && t.workers[w] == Polling && i < |t.rows| && t.rows[i].status == Pending
    requires t.rows[i].nextRunAt <= t.now && Claiming(i) !in t.workers
    requires forall j :: 0 <= j < |t.rows| && j != i ==> t.rows[j].status != Pending
    ensures Enabled(t, LockSelect(w, i))
  {
    assert Locked(t.workers, i) ==> Claiming(i) in t.workers;
  }

  lemma RetryClaims(t: State, w: nat, i: nat, dt: nat)
    requires w < |t.workers| && t.workers[w] == Polling && i < |t.rows| && t.rows[i].status == Pending
    requires t.rows[i].nextRunAt <= t.now + dt && Claiming(i) !in t.workers
    requires forall j :: 0 <= j < |t.rows| && j != i ==> t.rows[j].status != Pending
    ensures var k, now, row := t.rows[i].attempts + 1, t.now + dt, t.rows[i];
            && ValidRun(t, [Tick(dt), LockSelect(w, i), CommitClaim(w, Acked)])
            && Final(t, [Tick(dt), LockSelect(w, i), CommitClaim(w, Acked)]) == t.(
                 now := now, workers := t.workers[w := Handling(i, k)],
                 rows := t.rows[i := row.(status := Running, attempts := k, log := row.log + [Claimed(now)])])
  {
    var a := Apply(t, Tick(dt));
    SoleRowIsSelected(a, w, i);
    TwoSteps(a, LockSelect(w, i), CommitClaim(w, Acked));
    assert [Tick(dt), LockSelect(w, i), CommitClaim(w, Acked)][1..] == [LockSelect(w, i), CommitClaim(w, Acked)];
  }

  lemma {:induction false} RunConcat(s: State, a: seq<Step>, b: seq<Step>)
    requires ValidRun(s, a) && ValidRun(Final(s, a), b)
    ensures ValidRun(s, a + b) && Final(s, a + b) == Final(Final(s, a), b)
    decreases |a|
  {
    if a == [] {
      assert a + b == b;
    } else {
      assert (a + b)[1..] == a[1..] + b;
      RunConcat(Apply(s, a[0]), a[1..], b);
    }
  }

  /**
   What that retry leaves behind: one more attempt, and `completed` after a success, `dead`
   without a handler or at the fifth failure, else `pending` for 30 seconds per attempt so
   far and 30 more.
   */
  lemma RetryRuns(t: State, w: nat, i: nat, dt: nat, ok: bool)
    requires w < |t.workers| && t.workers[w] == Polling && i < |t.rows| && t.rows[i].status == Pending
    requires t.rows[i].nextRunAt <= t.now + dt && Claiming(i) !in t.workers
    requires forall j :: 0 <= j < |t.rows| && j != i ==> t.rows[j].status != Pending
    ensures ValidRun(t, Retry(w, i, dt, ok))
    ensures var u := Final(t, Retry(w, i, dt, ok)); var k := t.rows[i].attempts + 1;
            && u.workers == t.workers && u.now == t.now + dt && u.handlers == t.handlers
            && |u.rows| == |t.rows| && u.rows == t.rows[i := u.rows[i]]
            && u.rows[i].taskType == t.rows[i].taskType && u.rows[i].attempts == k
            && u.rows[i].status == (if t.rows[i].taskType !in t.handlers then Dead
                                    else if ok then Completed else if k >= 5 then Dead else Pending)
            && (u.rows[i].status == Pending ==> u.rows[i].nextRunAt == u.now + 30 * (k + 1))
  {
    RetryClaims(t, w, i, dt);
    var a := [Tick(dt), LockSelect(w, i), CommitClaim(w, Acked)];
    var c := Final(t, a);
    TwoSteps(c, Process(w, ok), WriteFinish(w, true));
    RunConcat(t, a, [Process(w, ok), WriteFinish(w, true)]);
  }

  // ------------------------------------------------------------- the service

  /** The service's shared state, updated in place by the calls its workers make. */
  class BackgroundService {
    var now: int
    var handlers: set<string>
    var rows: seq<Row>
    var workers: seq<Worker>

    ghost function View(): State
      reads this
    {
      State(now, handlers, rows, workers)
    }

    constructor (handlers: set<string>, workers: nat, now: int)
      ensures Init(View()) && |this.workers| == workers
      ensures this.handlers == handlers && this.now == now
    {
      this.now, this.handlers := now, handlers;
      this.rows := [];
      this.workers := seq(workers, _ => Polling);
    }

    method Enqueue(taskType: string, priority: int, stored: bool, acked: bool) returns (id: nat, err: bool)
      modifies this
      ensures err <==> !stored || !acked
      ensures stored ==> View() == Apply(old(View()), Step.Enqueue(taskType, priority))
                         && id == old(|rows|) && id < |rows| && rows[id].status == Pending
      ensures !stored ==> View() == old(View())
      ensures stored ==>
                && rows[..id] == old(rows) && |rows| == id + 1
                && rows[id].taskType == taskType && rows[id].priority == priority
                && rows[id].attempts == 0 && rows[id].nextRunAt == now == old(now) && rows[id].log == []
    {
      id, err := |rows|, !stored || !acked;
      if stored {
        rows := rows + [Row(taskType, priority, Pending, 0, now, [])];
      }
    }

    /** The sub-select of `claimTask`: scan for the best due row, skipping locked ones. */
    method SelectTask() returns (found: bool, best: nat)
      ensures found <==> exists j: nat ::
                j < |rows| && rows[j].status == Pending && rows[j].nextRunAt <= now && Claiming(j) !in workers
      ensures found ==> best < |rows| && rows[best].status == Pending && rows[best].nextRunAt <= now
                        && Claiming(best) !in workers
      ensures found ==> forall j: nat ::
                j < |rows| && rows[j].status == Pending && rows[j].nextRunAt <= now && Claiming(j) !in workers ==>
                rows[j].priority < rows[best].priority
                || (rows[j].priority == rows[best].priority && rows[best].nextRunAt <= rows[j].nextRunAt)
      ensures found ==> IsChoice(View(), best)
      ensures !found ==> forall j: nat :: !Claimable(View(), j)
    {
      assert forall j: nat :: Locked(workers, j) <==> Claiming(j) in workers;
      found, best := false, 0;
      for i := 0 to |rows|
        invariant found ==> best < i && Claimable(View(), best)
        invariant found ==> forall j: nat :: j < i && Claimable(View(), j) ==> !Before(rows[j], rows[best])
        invariant !found ==> forall j: nat :: j < i ==> !Claimable(View(), j)
      {
        if rows[i].status == Pending && rows[i].nextRunAt <= now && !Locked(workers, i) {
          if !found || Before(rows[i], rows[best]) {
            found, best := true, i;
          }
        }
      }
      assert forall j: nat ::
        j < |rows| && rows[j].status == Pending && rows[j].nextRunAt <= now && Claiming(j) !in workers ==>
        Claimable(View(), j);
    }

    method LockSelect(w: nat) returns (found: bool, task: nat)
      requires w < |workers| && workers[w].Polling?
      modifies this
      ensures found ==> Enabled(old(View()), Step.LockSelect(w, task))
                        && View() == Apply(old(View()), Step.LockSelect(w, task))
      ensures !found ==> View() == old(View()) && forall j: nat :: !Claimable(View(), j)
      ensures rows == old(rows) && now == old(now) && handlers == old(handlers)
      ensures found <==> exists j: nat ::
                j < |rows| && rows[j].status == Pending && rows[j].nextRunAt <= now && Claiming(j) !in old(workers)
      ensures found ==> task < |rows| && rows[task].status == Pending && rows[task].nextRunAt <= now
                        && Claiming(task) !in old(workers)
      ensures found ==> forall j: nat ::
                j < |rows| && rows[j].status == Pending && rows[j].nextRunAt <= now && Claiming(j) !in old(workers) ==>
                rows[j].priority < rows[task].priority
                || (rows[j].priority == rows[task].priority && rows[task].nextRunAt <= rows[j].nextRunAt)
      ensures workers == if found then old(workers)[w := Claiming(task)] else old(workers)
    {
      found, task := SelectTask();
      if found {
        workers := workers[w := Claiming(task)];
      }
    }

    method CommitClaim(w: nat, result: CommitResult)
      requires Enabled(View(), Step.CommitClaim(w, result))
      modifies this
      ensures View() == Apply(old(View()), Step.CommitClaim(w, result))
      ensures now == old(now) && handlers == old(handlers)
      ensures result == RolledBack ==> rows == old(rows) && workers == old(workers)[w := Polling]
      ensures result != RolledBack ==>
                var i := old(workers)[w].task; var was := old(rows)[i];
                && rows == old(rows)[i := was.(
                     status := Running, attempts := was.attempts + 1, log := was.log + [Claimed(now)])]
                && workers == old(workers)[w := if result == Acked then Handling(i, was.attempts + 1) else Polling]
    {
      var i := workers[w].task;
      if result == RolledBack {
        workers := workers[w := Polling];
        return;
      }
      var attempts := rows[i].attempts + 1;
      rows := rows[i := rows[i].(status := Running, attempts := attempts, log := rows[i].log + [Claimed(now)])];
      workers := workers[w := if result == Acked then Handling(i, attempts) else Polling];
    }

    /** `processTask` up to, and not including, its finishing update. */
    method ProcessTask(w: nat, ok: bool)
      requires Enabled(View(), Process(w, ok))
      modifies this
      ensures View() == Apply(old(View()), Process(w, ok))
      ensures now == old(now) && handlers == old(handlers)
      ensures var Handling(i, attempts) := old(workers)[w]; var was := old(rows)[i];
              if was.taskType !in handlers then
                workers == old(workers)[w := Finishing(i, SetDead)] && rows == old(rows)
              else if ok then
                workers == old(workers)[w := Finishing(i, SetCompleted)] && rows == old(rows)
              else
                && workers == old(workers)[w := Finishing(
                     i, if attempts >= 5 then SetDead else Requeue(now + 30 * (attempts + 1)))]
                && rows == old(rows)[i := was.(log := was.log + [Failed(now)])]
    {
      var Handling(i, attempts) := workers[w];
      var write;
      if rows[i].taskType !in handlers {
        write := SetDead;
      } else if !ok {
        write := HandleTaskError(attempts);
        rows := rows[i := rows[i].(log := rows[i].log + [Failed(now)])];
      } else {
        write := SetCompleted;
      }
      workers := workers[w := Finishing(i, write)];
    }

    method HandleTaskError(attempts: nat) returns (write: Write)
      ensures attempts >= 5 ==> write == SetDead
      ensures attempts < 5 ==> write == Requeue(now + 30 * (attempts + 1))
    {
      if attempts >= MAX_RETRIES {
        return SetDead;
      }
      var nextRun := now + RETRY_BACKOFF * (attempts + 1);
      return Requeue(nextRun);
    }

    method WriteFinish(w: nat, applied: bool)
      requires Enabled(View(), Step.WriteFinish(w, applied))
      modifies this
      ensures View() == Apply(old(View()), Step.WriteFinish(w, applied))
      ensures workers == old(workers)[w := Polling] && now == old(now) && handlers == old(handlers)
      ensures !applied ==> rows == old(rows)
      ensures applied ==>
                var Finishing(i, write) := old(workers)[w]; var was := old(rows)[i];
                && rows == old(rows)[i := rows[i]]
                && rows[i] == (if write.Requeue? then was.(status := Pending, nextRunAt := write.nextRunAt)
                               else was.(status := if write == SetDead then Dead else Completed))
    {
      var Finishing(i, write) := workers[w];
      if applied {
        match write {
          case SetCompleted => rows := rows[i := rows[i].(status := Completed)];
          case SetDead => rows := rows[i := rows[i].(status := Dead)];
          case Requeue(t) => rows := rows[i := rows[i].(status := Pending, nextRunAt := t)];
        }
      }
      workers := workers[w := Polling];
    }

    /** One round of the `worker` loop that no other worker interrupts. */
    method WorkerRound(w: nat, result: CommitResult, ok: bool, applied: bool)
      returns (found: bool, task: nat, ghost run: seq<Step>)
      requires Inv(View()) && w < |workers| && workers[w].Polling?
      modifies this
      ensures ValidRun(old(View()), run) && View() == Final(old(View()), run) && Inv(View())
      ensures workers == old(workers) && now == old(now) && handlers == old(handlers)
      ensures found <==> exists j: nat ::
                j < |old(rows)| && old(rows)[j].status == Pending && old(rows)[j].nextRunAt <= now
                && Claiming(j) !in old(workers)
      ensures !found ==> run == [] && rows == old(rows)
      ensures found ==>
                && task < |old(rows)| == |rows| && rows == old(rows)[task := rows[task]]
                && var was, row, k := old(rows)[task], rows[task], old(rows)[task].attempts + 1;
                   && was.status == Pending && was.nextRunAt <= now && Claiming(task) !in old(workers)
                   && row.taskType == was.taskType && row.priority == was.priority
                   && if result == RolledBack then row == was
                      else if result == AckLost || !applied then row.status == Running && row.attempts == k
                      else
                        && row.attempts == k
                        && row.status == (if was.taskType !in handlers then Dead
                                          else if ok then Completed else if k >= 5 then Dead else Pending)
                        && row.nextRunAt == (if row.status == Pending then now + 30 * (k + 1) else was.nextRunAt)
    {
      found, task, run := ClaimTask(w, result);
      if !found || result != Acked {
        return found, task, run;
      }
      FinishRound(w, ok, applied);
      ghost var s0, rest := old(View()), [Process(w, ok), Step.WriteFinish(w, applied)];
      RunConcat(s0, run, rest);
      return found, task, run + rest;
    }

    /** `claimTask`: the locking sub-select and the commit. */
    method ClaimTask(w: nat, result: CommitResult) returns (found: bool, task: nat, ghost run: seq<Step>)
      requires Inv(View()) && w < |workers| && workers[w].Polling?
      modifies this
      ensures ValidRun(old(View()), run) && View() == Final(old(View()), run) && Inv(View())
      ensures now == old(now) && handlers == old(handlers)
      ensures found <==> exists j: nat ::
                j < |old(rows)| && old(rows)[j].status == Pending && old(rows)[j].nextRunAt <= now
                && Claiming(j) !in old(workers)
      ensures !found ==> run == [] && rows == old(rows) && workers == old(workers)
      ensures found ==>
                && task < |old(rows)| == |rows| && rows == old(rows)[task := rows[task]]
                && var was, row, k := old(rows)[task], rows[task], old(rows)[task].attempts + 1;
                   && was.status == Pending && was.nextRunAt <= now && Claiming(task) !in old(workers)
                   && row.taskType == was.taskType && row.priority == was.priority && row.nextRunAt == was.nextRunAt
                   && (if result == RolledBack then row == was else row.status == Running && row.attempts == k)
                   && workers == old(workers)[w := if result == Acked then Handling(task, k) else Polling]
    {
      ghost var s0 := View();
      found, task := LockSelect(w);
      if !found {
        return found, task, [];
      }
      ghost var s1 := View();
      StepKeepsInv(s0, Step.LockSelect(w, task));
      CommitClaim(w, result);
      StepKeepsInv(s1, Step.CommitClaim(w, result));
      run := [Step.LockSelect(w, task), Step.CommitClaim(w, result)];
      TwoSteps(s0, run[0], run[1]);
    }

    /** The round after its claim: `processTask` with its finishing update. */
    method FinishRound(w: nat, ok: bool, applied: bool)
      requires Inv(View()) && w < |workers| && workers[w].Handling?
      modifies this
      ensures var run := [Process(w, ok), Step.WriteFinish(w, applied)];
              ValidRun(old(View()), run) && View() == Final(old(View()), run) && Inv(View())
      ensures workers == old(workers)[w := Polling] && now == old(now) && handlers == old(handlers)
      ensures var Handling(i, k) := old(workers)[w];
              && i < |old(rows)| == |rows| && rows == old(rows)[i := rows[i]]
              && var was, row := old(rows)[i], rows[i];
                 && row.taskType == was.taskType && row.priority == was.priority && row.attempts == was.attempts
                 && row.status == (if !applied then was.status else if was.taskType !in handlers then Dead
                                   else if ok then Completed else if k >= 5 then Dead else Pending)
                 && row.nextRunAt == (if row.status == Pending then now + 30 * (k + 1) else was.nextRunAt)
    {
      ghost var s2 := View();
      assert WorkerOk(s2, workers[w]);
      ProcessTask(w, ok);
      ghost var s3 := View();
      StepKeepsInv(s2, Process(w, ok));
      WriteFinish(w, applied);
      StepKeepsInv(s3, Step.WriteFinish(w, applied));
      TwoSteps(s2, Process(w, ok), Step.WriteFinish(w, applied));
    }
  }

  lemma TwoSteps(s: State, a: Step, b: Step)
    requires Enabled(s, a) && Enabled(Apply(s, a), b)
    ensures ValidRun(s, [a, b]) && Final(s, [a, b]) == Apply(Apply(s, a), b)
  {
    var t := Apply(s, a);
    assert [a, b][1..] == [b] && [b][1..] == [];
    assert ValidRun(Apply(t, b), []) && Final(Apply(t, b), []) == Apply(t, b);
    assert ValidRun(t, [b]) && Final(t, [b]) == Apply(t, b);
  }
}

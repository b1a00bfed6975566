/**
 Payment processing (internal/service/payment.go with the idempotency and transaction
 repositories) as a step system: any number of requests run side by side, and every
 database and provider call may fail, or take effect and have its answer lost.
 */
module Payment {
  import opened Wrappers
  import opened Transactions
  import opened Billing

  /** What became of one database statement. */
  datatype Db = Applied | Refused | AckLost

  /** What became of one provider call; `Lost` is a charge whose answer never arrived. */
  datatype Answer = Accepted(response: Response) | Declined | Lost(response: Response)

  datatype Outcome = FromProvider(response: Response) | Errored

  datatype Result = Paid(row: nat) | Duplicate | Failure

  datatype Phase =
    | Arrived
    | Passed                                // idempotency check done, or not needed
    | Loaded(provider: string)              // payment method read
    | Created(row: nat, provider: string)   // pending row persisted
    | Answered(row: nat, outcome: Outcome)  // outcome known, row not yet rewritten
    | Done(result: Result)

  /** `passed` and `row` are history: the check let the request through, and the row it persisted. */
  datatype Request = Request(
    merchant: string, amount: int, key: string, passed: bool, row: Option<nat>, phase: Phase)

  /** Money taken by the provider; `lost` when the service never saw the answer. */
  datatype Charge = Charge(
    request: nat, row: nat, merchant: string, key: string, amount: int, createdAt: int,
    response: Response, lost: bool)

  datatype State = State(
    providers: set<string>,
    keys: map<string, string>,
    rows: seq<Tx>,
    charges: seq<Charge>,
    requests: seq<Request>)

  datatype Step =
    | Arrive(merchant: string, amount: int, key: string)
    | Check(r: nat, db: Db)
    | Load(r: nat, source: Option<string>)
    | Create(r: nat, at: int, db: Db)
    | Call(r: nat, answer: Answer)
    | Write(r: nat, db: Db)
    | Refund(orig: nat, amount: int, provider: string, at: int)

  // ---------------------------------------------------------------- steps

  ghost predicate Enabled(s: State, e: Step) {
    match e
    case Arrive(_, _, _) => true
    case Check(r, _) => r < |s.requests| && s.requests[r].phase == Arrived
    case Load(r, _) => r < |s.requests| && s.requests[r].phase == Passed
    case Create(r, _, _) => r < |s.requests| && s.requests[r].phase.Loaded?
    case Call(r, _) => r < |s.requests| && s.requests[r].phase.Created? && s.requests[r].phase.row < |s.rows|
    case Write(r, _) => r < |s.requests| && s.requests[r].phase.Answered? && s.requests[r].phase.row < |s.rows|
    case Refund(orig, _, _, _) => orig < |s.rows| && s.rows[orig].provider in s.providers
  }

  function InPhase(s: State, r: nat, phase: Phase): State
    requires r < |s.requests|
  {
    s.(requests := s.requests[r := s.requests[r].(phase := phase)])
  }

  function InsertKey(keys: map<string, string>, key: string, merchant: string): map<string, string> {
    if key in keys then keys else keys[key := merchant]
  }

  function PendingRow(request: Request, r: nat, provider: string, at: int): Tx {
    Tx(request.merchant, ChargeTx, request.amount, provider, Pending, Some(request.key), 0, None, at, r, None, 0)
  }

  function RefundRow(orig: Tx, amount: int, provider: string, at: int): Tx {
    Tx(orig.merchant, RefundTx, amount, provider, Reversed, None, 0, None, at, 0, None, 0)
  }

  /** The record of the money a provider took for request r, whose row is its current one. */
  function ChargeFor(s: State, r: nat, answer: Answer): Charge
    requires r < |s.requests| && s.requests[r].phase.Created? && s.requests[r].phase.row < |s.rows|
    requires !answer.Declined?
  {
    var q, i := s.requests[r], s.requests[r].phase.row;
    Charge(r, i, q.merchant, q.key, q.amount, s.rows[i].createdAt, answer.response, answer.Lost?)
  }

  function Rewritten(row: Tx, outcome: Outcome): Tx {
    match outcome
    case FromProvider(a) =>
      row.(provider := a.provider, status := a.status, fee := a.fee, net := a.net, rewrites := row.rewrites + 1)
    case Errored => row.(status := Failed, rewrites := row.rewrites + 1)
  }

  ghost function Apply(s: State, e: Step): State
    requires Enabled(s, e)
  {
    match e
    case Arrive(merchant, amount, key) =>
      s.(requests := s.requests + [Request(merchant, amount, key, false, None, Arrived)])
    case Check(r, db) =>
      var q := s.requests[r];
      var pass := s.(requests := s.requests[r := q.(passed := true, phase := Passed)]);
      if q.key == "" then pass
      else if db == Refused then InPhase(s, r, Done(Failure))
      else if db == AckLost then InPhase(s, r, Done(Failure)).(keys := InsertKey(s.keys, q.key, q.merchant))
      else if q.key in s.keys then InPhase(s, r, Done(Duplicate))
      else pass.(keys := InsertKey(s.keys, q.key, q.merchant))
    case Load(r, source) =>
      InPhase(s, r, if source.Some? then Loaded(source.value) else Done(Failure))
    case Create(r, at, db) =>
      var q, p := s.requests[r], s.requests[r].phase.provider;
      if db == Refused then InPhase(s, r, Done(Failure))
      else s.(
        rows := s.rows + [PendingRow(q, r, p, at)],
        requests := s.requests[r := q.(
          row := Some(|s.rows|),
          phase := if db == Applied then Created(|s.rows|, p) else Done(Failure))])
    case Call(r, answer) =>
      var q, i := s.requests[r], s.requests[r].phase.row;
      if q.phase.provider !in s.providers || answer.Declined? then InPhase(s, r, Answered(i, Errored))
      else InPhase(s, r, Answered(i, if answer.Accepted? then FromProvider(answer.response) else Errored)).(
        charges := s.charges + [ChargeFor(s, r, answer)],
        rows := s.rows[i := s.rows[i].(charge := Some(|s.charges|))])
    case Write(r, db) =>
      var Answered(i, outcome) := s.requests[r].phase;
      InPhase(s, r, Done(if outcome.FromProvider? && db == Applied then Paid(i) else Failure)).(
        rows := if db == Refused then s.rows else s.rows[i := Rewritten(s.rows[i], outcome)])
    case Refund(orig, amount, provider, at) =>
      s.(rows := s.rows + [RefundRow(s.rows[orig], amount, provider, at)])
  }

  ghost predicate Init(s: State) {
    s.keys == map[] && s.rows == [] && s.charges == [] && s.requests == []
  }

  ghost predicate ValidRun(s: State, run: seq<Step>)
    decreases |run|
  {
    run == [] || (Enabled(s, run[0]) && ValidRun(Apply(s, run[0]), run[1..]))
  }

  ghost function Final(s: State, run: seq<Step>): State
    requires ValidRun(s, run)
    decreases |run|
  {
    if run == [] then s else Final(Apply(s, run[0]), run[1..])
  }

  // ------------------------------------------------------------ invariant

  predicate Carries(row: Tx, a: Response) {
    row.provider == a.provider && row.status == a.status && row.fee == a.fee && row.net == a.net
  }

  /** The outcome a request is about to write agrees with what the provider did for its row. */
  ghost predicate OutcomeOk(s: State, row: Tx, outcome: Outcome) {
    match outcome
    case FromProvider(a) =>
      row.charge.Some? && row.charge.value < |s.charges|
      && s.charges[row.charge.value].response == a && !s.charges[row.charge.value].lost
    case Errored => row.charge.Some? ==> row.charge.value < |s.charges| && s.charges[row.charge.value].lost
  }

  ghost predicate RequestOk(s: State, r: nat)
    requires r < |s.requests|
  {
    var q := s.requests[r];
    && (q.passed && q.key != "" ==> q.key in s.keys)
    && (q.row.Some? ==> q.passed && q.row.value < |s.rows|
                        && s.rows[q.row.value].kind == ChargeTx && s.rows[q.row.value].owner == r)
    && match q.phase
       case Arrived => !q.passed
       case Passed => q.passed && q.row == None
       case Loaded(_) => q.passed && q.row == None
       case Created(i, provider) =>
         q.row == Some(i) && s.rows[i].rewrites == 0 && s.rows[i].charge == None && s.rows[i].provider == provider
       case Answered(i, outcome) => q.row == Some(i) && s.rows[i].rewrites == 0 && OutcomeOk(s, s.rows[i], outcome)
       case Done(Paid(i)) =>
         && q.row == Some(i) && s.rows[i].rewrites == 1
         && s.rows[i].charge.Some? && s.rows[i].charge.value < |s.charges| && !s.charges[s.rows[i].charge.value].lost
       case Done(_) => true
  }

  ghost predicate RowOk(s: State, i: nat)
    requires i < |s.rows|
  {
    var row := s.rows[i];
    match row.kind
    case RefundTx => row.status == Reversed && row.charge == None
    case ChargeTx =>
      && row.owner < |s.requests|
      && s.requests[row.owner].row == Some(i)
      && row.key == Some(s.requests[row.owner].key)
      && row.merchant == s.requests[row.owner].merchant
      && row.amount == s.requests[row.owner].amount
      && (row.charge.Some? ==> row.charge.value < |s.charges| && s.charges[row.charge.value].row == i)
      && row.rewrites <= 1
      && (row.rewrites == 0 ==> row.status == Pending && row.fee == 0 && row.net == None)
      && (row.rewrites == 1 ==>
            if row.charge.Some? && !s.charges[row.charge.value].lost
            then Carries(row, s.charges[row.charge.value].response)
            else row.status == Failed && row.fee == 0 && row.net == None)
  }

  ghost predicate ChargeOk(s: State, c: nat)
    requires c < |s.charges|
  {
    var charge := s.charges[c];
    && charge.row < |s.rows|
    && var row := s.rows[charge.row];
       && row.kind == ChargeTx && row.charge == Some(c)
       && row.owner == charge.request && row.key == Some(charge.key)
       && row.amount == charge.amount && row.merchant == charge.merchant && row.createdAt == charge.createdAt
  }

  ghost predicate KeysUnique(s: State) {
    forall q, r :: 0 <= q < r < |s.requests| ==>
      s.requests[q].passed && s.requests[r].passed && s.requests[q].key == s.requests[r].key ==>
        s.requests[q].key == ""
  }

  ghost predicate Inv(s: State) {
    && (forall r :: 0 <= r < |s.requests| ==> RequestOk(s, r))
    && (forall i :: 0 <= i < |s.rows| ==> RowOk(s, i))
    && (forall c :: 0 <= c < |s.charges| ==> ChargeOk(s, c))
    && KeysUnique(s)
  }

  lemma StepKeepsInv(s: State, e: Step)
    requires Inv(s) && Enabled(s, e)
    ensures Inv(Apply(s, e))
  {
    var t := Apply(s, e);
    forall r | 0 <= r < |t.requests| ensures RequestOk(t, r) { StepKeepsRequest(s, e, r); }
    forall i | 0 <= i < |t.rows| ensures RowOk(t, i) { StepKeepsRow(s, e, i); }
    forall c | 0 <= c < |t.charges| ensures ChargeOk(t, c) { StepKeepsCharge(s, e, c); }
    StepKeepsKeysUnique(s, e);
  }

  lemma StepKeepsKeysUnique(s: State, e: Step)
    requires Inv(s) && Enabled(s, e)
    ensures KeysUnique(Apply(s, e))
  {
    var t := Apply(s, e);
    if e.Check? && t.requests[e.r].passed && s.requests[e.r].key != "" {
      forall q | 0 <= q < |s.requests| && s.requests[q].passed
        ensures s.requests[q].key != s.requests[e.r].key
      {
        assert RequestOk(s, q) && RequestOk(s, e.r);
      }
    }
  }

  /** A request whose row, and whose row's charge, a step leaves alone. */
  lemma RequestFrame(s: State, t: State, r: nat)
    requires r < |s.requests| && RequestOk(s, r)
    requires r < |t.requests| && t.requests[r] == s.requests[r]
    requires s.keys.Keys <= t.keys.Keys && |s.rows| <= |t.rows| && s.charges <= t.charges
    requires s.requests[r].row.Some? ==> t.rows[s.requests[r].row.value] == s.rows[s.requests[r].row.value]
    ensures RequestOk(t, r)
  {
  }

  lemma StepKeepsRequest(s: State, e: Step, r: nat)
    requires Inv(s) && Enabled(s, e) && r < |Apply(s, e).requests|
    ensures RequestOk(Apply(s, e), r)
  {
    var t := Apply(s, e);
    if r < |s.requests| {
      assert RequestOk(s, r);
      if e.Arrive? || e.Refund? || e.r != r {
        if e.Call? || e.Write? {
          assert RequestOk(s, e.r);
        }
        RequestFrame(s, t, r);
      } else {
        OwnStepKeepsRequest(s, e);
      }
    }
  }

  lemma OwnStepKeepsRequest(s: State, e: Step)
    requires Inv(s) && Enabled(s, e) && !e.Arrive? && !e.Refund?
    ensures RequestOk(Apply(s, e), e.r)
  {
    var t := Apply(s, e);
    assert RequestOk(s, e.r);
    if e.Write? {
      var Answered(i, outcome) := s.requests[e.r].phase;
      assert RowOk(s, i) && t.charges == s.charges && |t.rows| == |s.rows|;
      assert t.rows[i] == if e.db == Refused then s.rows[i] else Rewritten(s.rows[i], outcome);
    }
  }

  /** A row that a step leaves alone, and whose owner keeps its row. */
  lemma RowFrame(s: State, t: State, i: nat)
    requires i < |s.rows| && RowOk(s, i) && i < |t.rows| && t.rows[i] == s.rows[i]
    requires s.charges <= t.charges && |s.requests| <= |t.requests|
    requires s.rows[i].kind == ChargeTx ==>
               var q, r := s.requests[s.rows[i].owner], t.requests[s.rows[i].owner];
               q.row == r.row && q.key == r.key && q.merchant == r.merchant && q.amount == r.amount
    ensures RowOk(t, i)
  {
  }

  lemma StepKeepsRow(s: State, e: Step, i: nat)
    requires Inv(s) && Enabled(s, e) && i < |Apply(s, e).rows|
    ensures RowOk(Apply(s, e), i)
  {
    var t := Apply(s, e);
    if !e.Arrive? && !e.Refund? {
      assert RequestOk(s, e.r);
    }
    if i < |s.rows| {
      assert RowOk(s, i);
      if t.rows[i] == s.rows[i] {
        RowFrame(s, t, i);
      } else {
        OwnStepKeepsRow(s, e);
      }
    }
  }

  lemma OwnStepKeepsRow(s: State, e: Step)
    requires Inv(s) && Enabled(s, e) && (e.Call? || e.Write?)
    ensures RowOk(Apply(s, e), s.requests[e.r].phase.row)
  {
    assert RequestOk(s, e.r) && RowOk(s, s.requests[e.r].phase.row);
  }

  lemma StepKeepsCharge(s: State, e: Step, c: nat)
    requires Inv(s) && Enabled(s, e) && c < |Apply(s, e).charges|
    ensures ChargeOk(Apply(s, e), c)
  {
    if c < |s.charges| {
      assert ChargeOk(s, c);
    }
    if e.Call? || e.Write? {
      assert RequestOk(s, e.r) && RowOk(s, s.requests[e.r].phase.row);
    }
  }

  lemma {:induction false} RunKeepsInv(s: State, run: seq<Step>)
    requires Inv(s) && ValidRun(s, run)
    ensures Inv(Final(s, run))
    decreases |run|
  {
    if run != [] {
      StepKeepsInv(s, run[0]);
      RunKeepsInv(Apply(s, run[0]), run[1..]);
    }
  }

  // ---------------------------------------------------------- idempotency

  /**
   In every interleaving, a non-empty idempotency key lets at most one request through the
   check, and leads to at most one charge row and at most one provider charge.
   */
  lemma OneKeyOneCharge(s: State, run: seq<Step>)
    requires Init(s) && ValidRun(s, run)
    ensures var t := Final(s, run);
            && (forall q, r :: 0 <= q < |t.requests| && 0 <= r < |t.requests| ==>
                  (t.requests[q].passed && t.requests[r].passed
                    && t.requests[q].key == t.requests[r].key != "") ==> q == r)
            && (forall i, j :: 0 <= i < |t.rows| && 0 <= j < |t.rows| ==>
                  (t.rows[i].kind == t.rows[j].kind == ChargeTx
                    && t.rows[i].key == t.rows[j].key != Some("")) ==> i == j)
            && (forall c, d :: 0 <= c < |t.charges| && 0 <= d < |t.charges| ==>
                  t.charges[c].key == t.charges[d].key != "" ==> c == d)
  {
    RunKeepsInv(s, run);
    var t := Final(s, run);
    forall i, j | 0 <= i < |t.rows| && 0 <= j < |t.rows| && t.rows[i].kind == t.rows[j].kind == ChargeTx
                  && t.rows[i].key == t.rows[j].key != Some("")
      ensures i == j
    {
      assert RowOk(t, i) && RowOk(t, j);
      assert RequestOk(t, t.rows[i].owner) && RequestOk(t, t.rows[j].owner);
    }
    forall c, d | 0 <= c < |t.charges| && 0 <= d < |t.charges| && t.charges[c].key == t.charges[d].key != ""
      ensures c == d
    {
      assert ChargeOk(t, c) && ChargeOk(t, d);
    }
  }

  /**
   Even without a key, and whatever fails, one request writes at most one row and makes at
   most one provider charge, and the charge's row was persisted.
   */
  lemma OneRequestOneCharge(s: State, run: seq<Step>)
    requires Init(s) && ValidRun(s, run)
    ensures var t := Final(s, run);
            && (forall i, j :: 0 <= i < |t.rows| && 0 <= j < |t.rows| ==>
                  t.rows[i].kind == t.rows[j].kind == ChargeTx && t.rows[i].owner == t.rows[j].owner ==> i == j)
            && (forall c, d :: 0 <= c < |t.charges| && 0 <= d < |t.charges| ==>
                  t.charges[c].request == t.charges[d].request ==> c == d)
            && (forall c :: 0 <= c < |t.charges| ==>
                  t.charges[c].row < |t.rows| && t.rows[t.charges[c].row].charge == Some(c)
                  && t.rows[t.charges[c].row].amount == t.charges[c].amount)
  {
    RunKeepsInv(s, run);
    var t := Final(s, run);
    forall i, j | 0 <= i < |t.rows| && 0 <= j < |t.rows|
                  && t.rows[i].kind == t.rows[j].kind == ChargeTx && t.rows[i].owner == t.rows[j].owner
      ensures i == j
    {
      assert RowOk(t, i) && RowOk(t, j);
    }
    forall c, d | 0 <= c < |t.charges| && 0 <= d < |t.charges| && t.charges[c].request == t.charges[d].request
      ensures c == d
    {
      assert ChargeOk(t, c) && ChargeOk(t, d) && RowOk(t, t.charges[c].row) && RowOk(t, t.charges[d].row);
    }
    forall c | 0 <= c < |t.charges|
      ensures t.charges[c].row < |t.rows| && t.rows[t.charges[c].row].charge == Some(c)
              && t.rows[t.charges[c].row].amount == t.charges[c].amount
    {
      assert ChargeOk(t, c);
    }
  }

  /**
   A stored key is spent for good: whatever became of its first request, no request that
   carries it, from whichever merchant, passes the check afterwards.
   */
  lemma {:induction false} SpentKeysStaySpent(s: State, run: seq<Step>, key: string, r: nat)
    requires ValidRun(s, run) && key != "" && key in s.keys
    requires r < |Final(s, run).requests| && Final(s, run).requests[r].key == key
    requires Final(s, run).requests[r].passed
    ensures r < |s.requests| && s.requests[r].key == key && s.requests[r].passed
    decreases |run|
  {
    if run != [] {
      SpentKeysStaySpent(Apply(s, run[0]), run[1..], key, r);
    }
  }

  // ------------------------------------------------------- charges and rows

  /** A step makes a charge only for a row that is stored, pending and never charged before. */
  lemma ChargesFollowPendingRows(s: State, e: Step)
    requires Inv(s) && Enabled(s, e) && Apply(s, e).charges != s.charges
    ensures e.Call? && s.rows[s.requests[e.r].phase.row].provider in s.providers
    ensures var i := s.requests[e.r].phase.row;
            && s.rows[i].status == Pending && s.rows[i].rewrites == 0
            && s.rows[i].key == Some(s.requests[e.r].key)
            && Apply(s, e).charges == s.charges + [ChargeFor(s, e.r, e.answer)]
            && forall c :: 0 <= c < |s.charges| ==> s.charges[c].row != i
  {
    assert RequestOk(s, e.r) && RowOk(s, s.requests[e.r].phase.row);
    forall c | 0 <= c < |s.charges| ensures s.charges[c].row != s.requests[e.r].phase.row {
      assert ChargeOk(s, c);
    }
  }

  /** The table denies money that the provider took. */
  predicate Contradicts(t: State, i: nat)
    requires i < |t.rows|
  {
    var row := t.rows[i];
    && row.rewrites > 0 && row.status != Succeeded
    && row.charge.Some? && row.charge.value < |t.charges| && t.charges[row.charge.value].response.status == Succeeded
  }

  /**
   In every reachable state a charge row has been rewritten at most once and is pending
   until then; a row marked succeeded carries exactly the status, fee and net of a charge
   whose answer arrived; and a rewritten row contradicts the provider exactly when the
   answer to a successful charge was lost.
   */
  lemma RowsMirrorProvider(s: State, run: seq<Step>, i: nat)
    requires Init(s) && ValidRun(s, run) && i < |Final(s, run).rows| && Final(s, run).rows[i].kind == ChargeTx
    ensures var t := Final(s, run); var row := t.rows[i];
            && row.rewrites <= 1
            && (row.rewrites == 0 ==> row.status == Pending)
            && (row.status == Succeeded ==>
                  row.charge.Some? && row.charge.value < |t.charges|
                  && var charge := t.charges[row.charge.value];
                     charge.row == i && !charge.lost && Carries(row, charge.response) && charge.amount == row.amount)
            && (Contradicts(t, i) <==>
                  row.rewrites == 1 && row.charge.Some? && row.charge.value < |t.charges|
                  && t.charges[row.charge.value].lost && t.charges[row.charge.value].response.status == Succeeded)
  {
    RunKeepsInv(s, run);
    assert RowOk(Final(s, run), i);
    if Final(s, run).rows[i].charge.Some? {
      assert ChargeOk(Final(s, run), Final(s, run).rows[i].charge.value);
    }
  }

  /** With the mock provider, every succeeded row splits its amount into fee and net. */
  lemma MockRowsBalance(s: State, run: seq<Step>, i: nat)
    requires Init(s) && ValidRun(s, run) && i < |Final(s, run).rows| && Final(s, run).rows[i].status == Succeeded
    requires forall c :: 0 <= c < |Final(s, run).charges| ==>
               Some(Final(s, run).charges[c].response) == MockCharge(Final(s, run).charges[c].amount)
    ensures Final(s, run).rows[i].net.Some?
    ensures Final(s, run).rows[i].fee + Final(s, run).rows[i].net.value == Final(s, run).rows[i].amount
  {
    RunKeepsInv(s, run);
    assert RowOk(Final(s, run), i);
    RowsMirrorProvider(s, run, i);
  }

  /** A request told "paid" exactly what the table holds and the provider did. */
  lemma PaidMeansCharged(s: State, run: seq<Step>, r: nat, i: nat)
    requires Init(s) && ValidRun(s, run)
    requires r < |Final(s, run).requests| && Final(s, run).requests[r].phase == Done(Paid(i))
    ensures var t := Final(s, run);
            && i < |t.rows| && t.rows[i].owner == r && t.rows[i].charge.Some?
            && var c := t.rows[i].charge.value;
               c < |t.charges| && t.charges[c].request == r && Carries(t.rows[i], t.charges[c].response)
               && t.charges[c].amount == t.requests[r].amount
  {
    RunKeepsInv(s, run);
    assert RequestOk(Final(s, run), r) && RowOk(Final(s, run), i);
    assert ChargeOk(Final(s, run), Final(s, run).rows[i].charge.value);
  }

  /** Rows nothing will rewrite: refunds, rows rewritten once, and rows whose request is over. */
  ghost predicate RowSettled(s: State, i: nat) {
    && i < |s.rows|
    && (s.rows[i].kind == ChargeTx ==>
          s.rows[i].rewrites > 0 || (s.rows[i].owner < |s.requests| && s.requests[s.rows[i].owner].phase.Done?))
  }

  lemma {:induction false} SettledRowsNeverChange(s: State, run: seq<Step>, i: nat)
    requires Inv(s) && ValidRun(s, run) && RowSettled(s, i)
    ensures i < |Final(s, run).rows| && Final(s, run).rows[i] == s.rows[i]
    decreases |run|
  {
    if run != [] {
      StepKeepsInv(s, run[0]);
      if run[0].Call? || run[0].Write? {
        assert RequestOk(s, run[0].r) && RowOk(s, i);
      }
      SettledRowsNeverChange(Apply(s, run[0]), run[1..], i);
    }
  }

  // ------------------------------------------------ which requests are paid

  lemma {:induction false} RunAppend(s: State, run: seq<Step>, e: Step)
    requires ValidRun(s, run) && Enabled(Final(s, run), e)
    ensures ValidRun(s, run + [e]) && Final(s, run + [e]) == Apply(Final(s, run), e)
    decreases |run|
  {
    if run == [] {
      assert [e][1..] == [];
      assert ValidRun(Apply(s, e), []);
    } else {
      assert (run + [e])[1..] == run[1..] + [e];
      RunAppend(Apply(s, run[0]), run[1..], e);
    }
  }

  lemma {:induction false} RunSplit(s: State, a: seq<Step>, b: seq<Step>)
    requires ValidRun(s, a + b)
    ensures ValidRun(s, a) && ValidRun(Final(s, a), b) && Final(s, a + b) == Final(Final(s, a), b)
    decreases |a|
  {
    if a == [] {
      assert a + b == b;
    } else {
      assert (a + b)[1..] == a[1..] + b;
      RunSplit(Apply(s, a[0]), a[1..], b);
    }
  }

  predicate IsOf(e: Step, r: nat) {
    !e.Arrive? && !e.Refund? && e.r == r
  }

  /** The steps that request r takes in a run, in order. */
  function Own(run: seq<Step>, r: nat): seq<Step> {
    if run == [] then []
    else Own(run[..|run| - 1], r) + (if IsOf(run[|run| - 1], r) then [run[|run| - 1]] else [])
  }

  /** Five steps that went well: checked, method of a known provider, row stored, accepted, answer stored. */
  predicate WentWell(own: seq<Step>, providers: set<string>) {
    && |own| == 5
    && own[1].Load? && own[1].source.Some? && own[1].source.value in providers
    && own[2].Create? && own[2].db == Applied
    && own[3].Call? && own[3].answer.Accepted?
    && own[4].Write? && own[4].db == Applied
  }

  /** How far a request has come, read off its own steps. */
  ghost predicate Story(t: State, own: seq<Step>, r: nat) {
    if r >= |t.requests| then own == [] else
    match t.requests[r].phase
    case Arrived => own == []
    case Passed => |own| == 1
    case Loaded(p) => |own| == 2 && own[1] == Load(r, Some(p))
    case Created(i, p) =>
      && |own| == 3 && own[1] == Load(r, Some(p)) && own[2].Create? && own[2].db == Applied
      && i < |t.rows| && t.rows[i].createdAt == own[2].at
    case Answered(i, outcome) =>
      && |own| == 4 && own[1].Load? && own[1].source.Some? && own[2].Create? && own[2].db == Applied
      && i < |t.rows| && t.rows[i].createdAt == own[2].at && own[3].Call?
      && (outcome.FromProvider? <==> own[1].source.value in t.providers && own[3].answer.Accepted?)
      && (outcome.FromProvider? ==> outcome.response == own[3].answer.response)
    case Done(Paid(i)) =>
      && WentWell(own, t.providers)
      && i < |t.rows| && t.rows[i].createdAt == own[2].at && Carries(t.rows[i], own[3].answer.response)
    case Done(_) => !WentWell(own, t.providers)
  }

  /** The story reads nothing of the state but the request, its row and the providers. */
  lemma StoryFrame(t: State, u: State, own: seq<Step>, r: nat)
    requires r < |t.requests| && Story(t, own, r) && u.providers == t.providers
    requires r < |u.requests| && u.requests[r] == t.requests[r] && RequestOk(t, r)
    requires |t.rows| <= |u.rows|
    requires t.requests[r].row.Some? ==> u.rows[t.requests[r].row.value] == t.rows[t.requests[r].row.value]
    ensures Story(u, own, r)
  {
  }

  lemma OthersKeepStory(t: State, e: Step, own: seq<Step>, r: nat)
    requires Inv(t) && Enabled(t, e) && Story(t, own, r) && !IsOf(e, r)
    ensures Story(Apply(t, e), own, r)
  {
    if r < |t.requests| {
      assert RequestOk(t, r);
      if e.Call? || e.Write? {
        assert RequestOk(t, e.r);
      }
      StoryFrame(t, Apply(t, e), own, r);
    }
  }

  lemma OwnStepExtendsStory(t: State, e: Step, own: seq<Step>, r: nat)
    requires Inv(t) && Enabled(t, e) && Story(t, own, r) && IsOf(e, r)
    ensures Story(Apply(t, e), own + [e], r)
  {
    assert RequestOk(t, r);
  }

  lemma StepTellsStory(t: State, e: Step, own: seq<Step>, r: nat)
    requires Inv(t) && Enabled(t, e) && Story(t, own, r)
    ensures Story(Apply(t, e), own + (if IsOf(e, r) then [e] else []), r) && Apply(t, e).providers == t.providers
  {
    if IsOf(e, r) {
      OwnStepExtendsStory(t, e, own, r);
    } else {
      OthersKeepStory(t, e, own, r);
      assert own + [] == own;
    }
  }

  lemma {:induction false} RunsTellStory(s: State, run: seq<Step>, r: nat)
    requires Init(s) && ValidRun(s, run)
    ensures Story(Final(s, run), Own(run, r), r) && Final(s, run).providers == s.providers
    decreases |run|
  {
    if run != [] {
      var before, e := run[..|run| - 1], run[|run| - 1];
      assert run == before + [e] && [e][1..] == [];
      RunSplit(s, before, [e]);
      RunKeepsInv(s, before);
      RunsTellStory(s, before, r);
      StepTellsStory(Final(s, before), e, Own(before, r), r);
    }
  }

  /**
   Which requests are paid, whatever the others do in between: exactly those that passed
   the check, had a method of a known provider, stored their row, were accepted, and stored
   the answer.  The row then has the time it was stored at and carries that answer.
   */
  lemma PaidExactlyWhenAccepted(s: State, run: seq<Step>, r: nat)
    requires Init(s) && ValidRun(s, run) && r < |Final(s, run).requests|
    ensures var t, own := Final(s, run), Own(run, r); var phase := t.requests[r].phase;
            && (phase.Done? && phase.result.Paid? <==>
                  && |own| == 5
                  && own[1].Load? && own[1].source.Some? && own[1].source.value in s.providers
                  && own[2].Create? && own[2].db == Applied
                  && own[3].Call? && own[3].answer.Accepted?
                  && own[4].Write? && own[4].db == Applied)
            && (phase.Done? && phase.result.Paid? ==>
                  && phase.result.row < |t.rows|
                  && var row, a := t.rows[phase.result.row], own[3].answer.response;
                     && row.amount == t.requests[r].amount && row.merchant == t.requests[r].merchant
                     && row.key == Some(t.requests[r].key) && row.createdAt == own[2].at
                     && row.status == a.status && row.fee == a.fee && row.net == a.net && row.provider == a.provider)
  {
    RunsTellStory(s, run, r);
    RunKeepsInv(s, run);
    var t := Final(s, run);
    assert RequestOk(t, r);
    if t.requests[r].phase.Done? && t.requests[r].phase.result.Paid? {
      assert RowOk(t, t.requests[r].phase.result.row);
    }
  }

  // ---------------------------------------------------------- conservation

  function Took(q: Scope, charge: Charge): int {
    if charge.merchant == q.merchant && charge.response.status == Succeeded && q.from <= charge.createdAt <= q.to
    then charge.amount else 0
  }

  /** What the providers took on a merchant's behalf. */
  function SumTook(q: Scope, charges: seq<Charge>): int {
    if charges == [] then 0 else SumTook(q, charges[..|charges| - 1]) + Took(q, charges[|charges| - 1])
  }

  function RowTook(q: Scope, row: Tx, charges: seq<Charge>): int {
    if row.charge.Some? && row.charge.value < |charges| then Took(q, charges[row.charge.value]) else 0
  }

  function RowsTook(q: Scope, rows: seq<Tx>, charges: seq<Charge>): int {
    if rows == [] then 0 else RowTook(q, rows[0], charges) + RowsTook(q, rows[1..], charges)
  }

  /** Money taken for rows that do not say `succeeded`. */
  function SumUnbilled(q: Scope, rows: seq<Tx>, charges: seq<Charge>): int {
    if rows == [] then 0
    else (if rows[0].status == Succeeded then 0 else RowTook(q, rows[0], charges)) + SumUnbilled(q, rows[1..], charges)
  }

  lemma {:induction false} RowsTookOfConcat(q: Scope, a: seq<Tx>, b: seq<Tx>, charges: seq<Charge>)
    ensures RowsTook(q, a + b, charges) == RowsTook(q, a, charges) + RowsTook(q, b, charges)
  {
    if a == [] {
      assert a + b == b;
    } else {
      assert (a + b)[1..] == a[1..] + b;
      RowsTookOfConcat(q, a[1..], b, charges);
    }
  }

  lemma RowsTookOfUpdate(q: Scope, rows: seq<Tx>, i: nat, row: Tx, charges: seq<Charge>)
    requires i < |rows|
    ensures RowsTook(q, rows[i := row], charges)
         == RowsTook(q, rows, charges) - RowTook(q, rows[i], charges) + RowTook(q, row, charges)
  {
    assert rows == rows[..i] + ([rows[i]] + rows[i + 1..]);
    assert rows[i := row] == rows[..i] + ([row] + rows[i + 1..]);
    RowsTookOfConcat(q, rows[..i], [rows[i]] + rows[i + 1..], charges);
    RowsTookOfConcat(q, rows[..i], [row] + rows[i + 1..], charges);
  }

  lemma {:induction false} RowsTookIgnoresNewCharges(q: Scope, rows: seq<Tx>, charges: seq<Charge>, charge: Charge)
    requires forall i :: 0 <= i < |rows| && rows[i].charge.Some? ==> rows[i].charge.value < |charges|
    ensures RowsTook(q, rows, charges + [charge]) == RowsTook(q, rows, charges)
  {
    if rows != [] {
      RowsTookIgnoresNewCharges(q, rows[1..], charges, charge);
    }
  }

  lemma NewRowTakesNothing(q: Scope, rows: seq<Tx>, row: Tx, charges: seq<Charge>)
    requires row.charge == None
    ensures RowsTook(q, rows + [row], charges) == RowsTook(q, rows, charges)
  {
    RowsTookOfConcat(q, rows, [row], charges);
    assert [row][1..] == [];
  }

  /** A charge and the row it is made for gain the same amount. */
  lemma ChargeKeepsTook(q: Scope, rows: seq<Tx>, charges: seq<Charge>, i: nat, charge: Charge)
    requires forall j :: 0 <= j < |rows| && rows[j].charge.Some? ==> rows[j].charge.value < |charges|
    requires i < |rows| && rows[i].charge == None && SumTook(q, charges) == RowsTook(q, rows, charges)
    ensures var row := rows[i].(charge := Some(|charges|));
            SumTook(q, charges + [charge]) == RowsTook(q, rows[i := row], charges + [charge])
  {
    RowsTookIgnoresNewCharges(q, rows, charges, charge);
    RowsTookOfUpdate(q, rows, i, rows[i].(charge := Some(|charges|)), charges + [charge]);
    assert (charges + [charge])[..|charges|] == charges;
  }

  lemma StepKeepsTook(s: State, e: Step, q: Scope)
    requires Inv(s) && Enabled(s, e) && SumTook(q, s.charges) == RowsTook(q, s.rows, s.charges)
    ensures SumTook(q, Apply(s, e).charges) == RowsTook(q, Apply(s, e).rows, Apply(s, e).charges)
  {
    match e
    case Arrive(_, _, _) =>
    case Check(_, _) =>
    case Load(_, _) =>
    case Create(r, at, _) =>
      NewRowTakesNothing(q, s.rows, PendingRow(s.requests[r], r, s.requests[r].phase.provider, at), s.charges);
    case Refund(orig, amount, provider, at) =>
      NewRowTakesNothing(q, s.rows, RefundRow(s.rows[orig], amount, provider, at), s.charges);
    case Write(r, _) =>
      var Answered(i, outcome) := s.requests[r].phase;
      RowsTookOfUpdate(q, s.rows, i, Rewritten(s.rows[i], outcome), s.charges);
    case Call(r, answer) =>
      assert RequestOk(s, r);
      forall j | 0 <= j < |s.rows| && s.rows[j].charge.Some? ensures s.rows[j].charge.value < |s.charges| {
        assert RowOk(s, j);
      }
      if !answer.Declined? {
        ChargeKeepsTook(q, s.rows, s.charges, s.requests[r].phase.row, ChargeFor(s, r, answer));
      }
  }

  lemma {:induction false} RunKeepsTook(s: State, run: seq<Step>, q: Scope)
    requires Inv(s) && ValidRun(s, run) && SumTook(q, s.charges) == RowsTook(q, s.rows, s.charges)
    ensures SumTook(q, Final(s, run).charges) == RowsTook(q, Final(s, run).rows, Final(s, run).charges)
    decreases |run|
  {
    if run != [] {
      StepKeepsInv(s, run[0]);
      StepKeepsTook(s, run[0], q);
      RunKeepsTook(Apply(s, run[0]), run[1..], q);
    }
  }

  lemma {:induction false} BilledOrUnbilled(q: Scope, rows: seq<Tx>, charges: seq<Charge>)
    requires forall i :: 0 <= i < |rows| && rows[i].status == Succeeded ==> RowTook(q, rows[i], charges) == Share(q, rows[i])
    ensures RowsTook(q, rows, charges) == TotalAmount(q, rows) + SumUnbilled(q, rows, charges)
  {
    if rows != [] {
      BilledOrUnbilled(q, rows[1..], charges);
    }
  }

  /**
   Money is conserved between provider and platform: over any schedule, merchant and
   window, what the providers took is the billing total plus what was taken for rows not
   marked succeeded.
   */
  lemma TakenIsBilledPlusUnbilled(s: State, run: seq<Step>, q: Scope)
    requires Init(s) && ValidRun(s, run)
    ensures var t := Final(s, run);
            SumTook(q, t.charges) == CalculateFees(q, t.rows).totalAmount + SumUnbilled(q, t.rows, t.charges)
  {
    RunKeepsInv(s, run);
    RunKeepsTook(s, run, q);
    var t := Final(s, run);
    forall i | 0 <= i < |t.rows| && t.rows[i].status == Succeeded
      ensures RowTook(q, t.rows[i], t.charges) == Share(q, t.rows[i])
    {
      assert RowOk(t, i);
      assert ChargeOk(t, t.rows[i].charge.value);
    }
    BilledOrUnbilled(q, t.rows, t.charges);
  }

  predicate WritesSuccess(s: State, e: Step) {
    && e.Write? && e.db != Refused
    && e.r < |s.requests| && s.requests[e.r].phase.Answered?
    && s.requests[e.r].phase.outcome.FromProvider?
    && s.requests[e.r].phase.outcome.response.status == Succeeded
  }

  /** The billing total and count move exactly by the rows whose successful answer is written. */
  lemma BillingMovesOnlyOnSuccess(s: State, e: Step, q: Scope)
    requires Inv(s) && Enabled(s, e)
    ensures var t := Apply(s, e);
            if WritesSuccess(s, e) then
              var row := t.rows[s.requests[e.r].phase.row];
              TotalAmount(q, t.rows) == TotalAmount(q, s.rows) + Share(q, row)
              && Count(q, t.rows) == Count(q, s.rows) + (if Selects(q, row) then 1 else 0)
            else
              TotalAmount(q, t.rows) == TotalAmount(q, s.rows) && Count(q, t.rows) == Count(q, s.rows)
  {
    match e
    case Arrive(_, _, _) =>
    case Check(_, _) =>
    case Load(_, _) =>
    case Create(r, at, _) =>
      NewRowIsUnbilled(q, s.rows, PendingRow(s.requests[r], r, s.requests[r].phase.provider, at));
    case Refund(orig, amount, provider, at) =>
      NewRowIsUnbilled(q, s.rows, RefundRow(s.rows[orig], amount, provider, at));
    case Call(r, _) =>
      var i := s.requests[r].phase.row;
      TotalsOfUpdate(q, s.rows, i, s.rows[i].(charge := Some(|s.charges|)));
    case Write(r, _) =>
      var Answered(i, outcome) := s.requests[r].phase;
      assert RequestOk(s, r) && RowOk(s, i);
      TotalsOfUpdate(q, s.rows, i, Rewritten(s.rows[i], outcome));
  }

  lemma NewRowIsUnbilled(q: Scope, rows: seq<Tx>, row: Tx)
    requires row.status != Succeeded
    ensures TotalAmount(q, rows + [row]) == TotalAmount(q, rows) && Count(q, rows + [row]) == Count(q, rows)
  {
    TotalsOfConcat(q, rows, [row]);
    assert [row][1..] == [];
  }

  lemma {:induction false} RefundsLeaveBillingUnchanged(s: State, run: seq<Step>, q: Scope)
    requires ValidRun(s, run) && forall e :: e in run ==> e.Refund?
    ensures CalculateFees(q, Final(s, run).rows) == CalculateFees(q, s.rows)
    decreases |run|
  {
    if run != [] {
      assert run[0] in run;
      NewRowIsUnbilled(q, s.rows, Apply(s, run[0]).rows[|s.rows|]);
      RefundsLeaveBillingUnchanged(Apply(s, run[0]), run[1..], q);
    }
  }

  lemma ExtendRun(s0: State, run: seq<Step>, s: State, e: Step) returns (longer: seq<Step>)
    requires ValidRun(s0, run) && s == Final(s0, run) && Inv(s) && Enabled(s, e)
    ensures longer == run + [e]
    ensures ValidRun(s0, longer) && Final(s0, longer) == Apply(s, e) && Inv(Apply(s, e))
  {
    RunAppend(s0, run, e);
    StepKeepsInv(s, e);
    longer := run + [e];
  }

  // ------------------------------------------------------------- the service

  /** How the environment answers the calls of one payment. */
  datatype Environment = Environment(check: Db, source: Option<string>, at: int, create: Db, answer: Answer, write: Db)

  class PaymentService {
    const providers: set<string>
    var keys: map<string, string>
    var rows: seq<Tx>
    var charges: seq<Charge>
    var requests: seq<Request>

    ghost function View(): State
      reads this
    {
      State(providers, keys, rows, charges, requests)
    }

    constructor (providers: set<string>)
      ensures Init(View()) && this.providers == providers
    {
      this.providers := providers;
      keys, rows, charges, requests := map[], [], [], [];
    }

    /** `INSERT ... ON CONFLICT DO NOTHING`; `fresh` says whether a row was inserted. */
    method CheckAndSave(key: string, merchant: string, db: Db) returns (inserted: bool, err: bool)
      modifies this`keys
      ensures keys == if db == Refused || key in old(keys) then old(keys) else old(keys)[key := merchant]
      ensures err <==> db != Applied
      ensures inserted <==> db == Applied && key !in old(keys)
    {
      if db == Refused {
        return false, true;
      }
      var conflict := key in keys;
      if !conflict {
        keys := keys[key := merchant];
      }
      return db == Applied && !conflict, db != Applied;
    }

    method InsertRow(row: Tx, db: Db) returns (err: bool)
      modifies this`rows
      ensures rows == if db == Refused then old(rows) else old(rows) + [row]
      ensures err <==> db != Applied
    {
      if db != Refused {
        rows := rows + [row];
      }
      err := db != Applied;
    }

    method UpdateRow(i: nat, row: Tx, db: Db) returns (err: bool)
      requires i < |rows|
      modifies this`rows
      ensures rows == if db == Refused then old(rows) else old(rows)[i := row]
      ensures err <==> db != Applied
    {
      if db != Refused {
        rows := rows[i := row];
      }
      err := db != Applied;
    }

    method SetPhase(r: nat, phase: Phase)
      requires r < |requests|
      modifies this`requests
      ensures requests == old(requests)[r := old(requests)[r].(phase := phase)]
    {
      requests := requests[r := requests[r].(phase := phase)];
    }

    method Arrives(merchant: string, amount: int, key: string) returns (r: nat)
      modifies this`requests
      ensures View() == Apply(old(View()), Arrive(merchant, amount, key))
      ensures r == |old(requests)| && requests == old(requests) + [Request(merchant, amount, key, false, None, Arrived)]
    {
      r := |requests|;
      requests := requests + [Request(merchant, amount, key, false, None, Arrived)];
    }

    /** The idempotency check; `stop` is the request's result when it ends here. */
    method CheckKey(r: nat, db: Db) returns (stop: Option<Result>)
      requires Enabled(View(), Check(r, db))
      modifies this
      ensures View() == Apply(old(View()), Check(r, db)) && |requests| == |old(requests)|
      ensures requests[r].phase == if stop.Some? then Done(stop.value) else Passed
      ensures rows == old(rows) && charges == old(charges)
      ensures var q := old(requests)[r]; var spent := q.key in old(keys);
              && requests[r].merchant == q.merchant && requests[r].amount == q.amount && requests[r].key == q.key
              && stop == (if q.key == "" then None else if db != Applied then Some(Failure)
                          else if spent then Some(Duplicate) else None)
              && keys == if q.key == "" || db == Refused || spent then old(keys) else old(keys)[q.key := q.merchant]
    {
      var q := requests[r];
      if q.key != "" {
        var inserted, err := CheckAndSave(q.key, q.merchant, db);
        if err {
          SetPhase(r, Done(Failure));
          return Some(Failure);
        }
        if !inserted {
          SetPhase(r, Done(Duplicate));
          return Some(Duplicate);
        }
      }
      requests := requests[r := q.(passed := true, phase := Passed)];
      return None;
    }

    method LoadMethod(r: nat, source: Option<string>) returns (stop: Option<Result>)
      requires Enabled(View(), Load(r, source))
      modifies this
      ensures View() == Apply(old(View()), Load(r, source)) && |requests| == |old(requests)|
      ensures requests[r].phase == if stop.Some? then Done(stop.value) else Loaded(source.GetOr(""))
      ensures stop == if source.Some? then None else Some(Failure)
      ensures rows == old(rows) && charges == old(charges) && keys == old(keys)
      ensures requests[r] == old(requests)[r].(phase := requests[r].phase)
    {
      if source == None {
        SetPhase(r, Done(Failure));
        return Some(Failure);
      }
      SetPhase(r, Loaded(source.value));
      return None;
    }

    method CreateTx(r: nat, at: int, db: Db) returns (stop: Option<Result>)
      requires Enabled(View(), Create(r, at, db))
      modifies this
      ensures View() == Apply(old(View()), Create(r, at, db)) && |requests| == |old(requests)|
      ensures requests[r].phase == if stop.Some? then Done(stop.value)
                                   else Created(|old(rows)|, old(requests[r]).phase.provider)
      ensures stop == if db == Applied then None else Some(Failure)
      ensures charges == old(charges) && keys == old(keys)
      ensures requests[r].merchant == old(requests)[r].merchant && requests[r].amount == old(requests)[r].amount
              && requests[r].key == old(requests)[r].key
      ensures db == Refused ==> rows == old(rows)
      ensures db != Refused ==>
                var q, i := old(requests)[r], |old(rows)|;
                && |rows| == i + 1 && rows[..i] == old(rows)
                && rows[i].merchant == q.merchant && rows[i].amount == q.amount && rows[i].kind == ChargeTx
                && rows[i].provider == q.phase.provider && rows[i].key == Some(q.key) && rows[i].createdAt == at
                && rows[i].status == Pending && rows[i].fee == 0 && rows[i].net == None
    {
      var q, i := requests[r], |rows|;
      var err := InsertRow(PendingRow(q, r, q.phase.provider, at), db);
      if db != Refused {
        requests := requests[r := q.(row := Some(i))];
      }
      if err {
        SetPhase(r, Done(Failure));
        return Some(Failure);
      }
      SetPhase(r, Created(i, q.phase.provider));
      return None;
    }

    /** Provider lookup and charge: what the service then knows, and what the provider did. */
    method Charged(r: nat, i: nat, provider: string, answer: Answer) returns (outcome: Outcome)
      requires Enabled(View(), Call(r, answer)) && requests[r].phase == Created(i, provider)
      modifies this
      ensures View() == Apply(old(View()), Call(r, answer))
      ensures requests[r].phase == Answered(i, outcome) && |requests| == |old(requests)|
      ensures requests[r] == old(requests)[r].(phase := requests[r].phase) && keys == old(keys)
      ensures outcome == if provider in providers && answer.Accepted? then FromProvider(answer.response) else Errored
      ensures var took := provider in providers && !answer.Declined?;
              && |rows| == |old(rows)| && rows == old(rows)[i := rows[i]]
              && rows[i] == old(rows)[i].(charge := if took then Some(|old(charges)|) else old(rows)[i].charge)
              && if !took then charges == old(charges)
                 else
                   && |charges| == |old(charges)| + 1 && charges[..|old(charges)|] == old(charges)
                   && var c, q := charges[|old(charges)|], old(requests)[r];
                      && c.request == r && c.row == i && c.merchant == q.merchant && c.amount == q.amount
                      && c.key == q.key && c.createdAt == old(rows)[i].createdAt
                      && c.response == answer.response && c.lost == answer.Lost?
    {
      if provider !in providers {
        outcome := Errored;
      } else {
        match answer {
          case Declined => outcome := Errored;
          case Accepted(response) => outcome := FromProvider(response);
          case Lost(_) => outcome := Errored;
        }
        if !answer.Declined? {
          var q := requests[r];
          charges := charges + [Charge(r, i, q.merchant, q.key, q.amount, rows[i].createdAt, answer.response, answer.Lost?)];
          rows := rows[i := rows[i].(charge := Some(|charges| - 1))];
        }
      }
      SetPhase(r, Answered(i, outcome));
    }

    method WriteOutcome(r: nat, db: Db) returns (result: Result)
      requires Enabled(View(), Write(r, db))
      modifies this
      ensures View() == Apply(old(View()), Write(r, db)) && |requests| == |old(requests)|
      ensures requests[r].phase == Done(result)
      ensures charges == old(charges) && keys == old(keys)
      ensures var Answered(i, outcome) := old(requests)[r].phase; var was := old(rows)[i];
              && result == (if outcome.FromProvider? && db == Applied then Paid(i) else Failure)
              && |rows| == |old(rows)| && rows == old(rows)[i := rows[i]]
              && if db == Refused then rows[i] == was
                 else if outcome == Errored then rows[i] == was.(status := Failed, rewrites := was.rewrites + 1)
                 else
                   var a := outcome.response;
                   rows[i] == was.(
                     provider := a.provider, status := a.status, fee := a.fee, net := a.net, rewrites := was.rewrites + 1)
    {
      var Answered(i, outcome) := requests[r].phase;
      var err := UpdateRow(i, Rewritten(rows[i], outcome), db);
      result := if outcome.FromProvider? && !err then Paid(i) else Failure;
      SetPhase(r, Done(result));
    }

    /** The calls behind the idempotency check, appended to the run so far. */
    method PayAdmitted(r: nat, env: Environment, ghost s0: State, ghost before: seq<Step>)
      returns (result: Result, ghost run: seq<Step>)
      requires ValidRun(s0, before) && View() == Final(s0, before) && Inv(View())
      requires r < |requests| && requests[r].phase == Passed
      modifies this
      ensures ValidRun(s0, run) && View() == Final(s0, run) && Inv(View())
      ensures |requests| == |old(requests)| && requests[r].phase == Done(result) && keys == old(keys)
      ensures var known := env.source.Some? && env.source.value in providers;
              && result == (if known && env.create == Applied && env.answer.Accepted? && env.write == Applied
                            then Paid(|old(rows)|) else Failure)
              && if !(known && env.create == Applied && !env.answer.Declined?) then charges == old(charges)
                 else
                   && |charges| == |old(charges)| + 1 && charges[..|old(charges)|] == old(charges)
                   && var c, q := charges[|old(charges)|], old(requests)[r];
                      && c.request == r && c.row == |old(rows)| && c.merchant == q.merchant && c.amount == q.amount
                      && c.key == q.key && c.createdAt == env.at
                      && c.response == env.answer.response && c.lost == env.answer.Lost?
      ensures if env.source == None || env.create == Refused then rows == old(rows)
              else
                && |rows| == |old(rows)| + 1 && rows[..|old(rows)|] == old(rows)
                && var row, q := rows[|old(rows)|], old(requests)[r];
                   && row.merchant == q.merchant && row.amount == q.amount && row.kind == ChargeTx
                   && row.key == Some(q.key) && row.createdAt == env.at
                   && if env.create == AckLost || env.write == Refused then
                        row.status == Pending && row.fee == 0 && row.net == None && row.provider == env.source.value
                      else if env.source.value in providers && env.answer.Accepted? then
                        Carries(row, env.answer.response)
                      else
                        row.status == Failed && row.fee == 0 && row.net == None && row.provider == env.source.value
    {
      run := ExtendRun(s0, before, View(), Load(r, env.source));
      var stop := LoadMethod(r, env.source);
      if stop.Some? {
        return stop.value, run;
      }
      run := ExtendRun(s0, run, View(), Create(r, env.at, env.create));
      stop := CreateTx(r, env.at, env.create);
      if stop.Some? {
        return stop.value, run;
      }
      result, run := PayCreated(r, env, s0, run);
    }

    /** The provider call and the outcome write. */
    method PayCreated(r: nat, env: Environment, ghost s0: State, ghost before: seq<Step>)
      returns (result: Result, ghost run: seq<Step>)
      requires ValidRun(s0, before) && View() == Final(s0, before) && Inv(View())
      requires r < |requests| && requests[r].phase.Created?
      modifies this
      ensures ValidRun(s0, run) && View() == Final(s0, run) && Inv(View())
      ensures |requests| == |old(requests)| && requests[r].phase == Done(result) && keys == old(keys)
      ensures var Created(i, p) := old(requests)[r].phase;
              && i < |old(rows)|
              && result == (if p in providers && env.answer.Accepted? && env.write == Applied then Paid(i) else Failure)
              && if p !in providers || env.answer.Declined? then charges == old(charges)
                 else
                   && |charges| == |old(charges)| + 1 && charges[..|old(charges)|] == old(charges)
                   && var c, q := charges[|old(charges)|], old(requests)[r];
                      && c.request == r && c.row == i && c.merchant == q.merchant && c.amount == q.amount
                      && c.key == q.key && c.createdAt == old(rows)[i].createdAt
                      && c.response == env.answer.response && c.lost == env.answer.Lost?
      ensures var Created(i, p) := old(requests)[r].phase; var was := old(rows)[i];
              && |rows| == |old(rows)| && rows == old(rows)[i := rows[i]]
              && var row := rows[i];
                 && row.merchant == was.merchant && row.amount == was.amount && row.kind == was.kind
                 && row.key == was.key && row.createdAt == was.createdAt
                 && if env.write == Refused then
                      row.status == was.status && row.fee == was.fee && row.net == was.net && row.provider == p
                    else if p in providers && env.answer.Accepted? then
                      Carries(row, env.answer.response)
                    else
                      row.status == Failed && row.fee == was.fee && row.net == was.net && row.provider == p
    {
      assert RequestOk(View(), r);
      run := ExtendRun(s0, before, View(), Call(r, env.answer));
      var outcome := Charged(r, requests[r].phase.row, requests[r].phase.provider, env.answer);
      assert RequestOk(View(), r);
      run := ExtendRun(s0, run, View(), Write(r, env.write));
      result := WriteOutcome(r, env.write);
    }

    /**
     One payment that no other request interrupts is the run of its own steps, under every
     answer of the environment; the theorems above then hold of its result.
     */
    method ProcessPayment(merchant: string, amount: int, key: string, env: Environment)
      returns (result: Result, ghost run: seq<Step>)
      requires Inv(View())
      modifies this
      ensures ValidRun(old(View()), run) && View() == Final(old(View()), run) && Inv(View())
      ensures |requests| == |old(requests)| + 1 && requests[|old(requests)|].phase == Done(result)
      ensures var admitted := key == "" || (key !in old(keys) && env.check == Applied);
              var known := env.source.Some? && env.source.value in providers;
              && (result.Paid? <==>
                    admitted && known && env.create == Applied && env.answer.Accepted? && env.write == Applied)
              && (result == Duplicate <==> key != "" && key in old(keys) && env.check == Applied)
              && (if !(admitted && known && env.create == Applied && !env.answer.Declined?) then charges == old(charges)
                  else
                    && |charges| == |old(charges)| + 1 && charges[..|old(charges)|] == old(charges)
                    && var c := charges[|old(charges)|];
                       && c.merchant == merchant && c.amount == amount && c.key == key && c.createdAt == env.at
                       && c.response == env.answer.response && c.lost == env.answer.Lost?)
              && (if !(admitted && env.source.Some? && env.create != Refused) then rows == old(rows)
                  else
                    && |rows| == |old(rows)| + 1 && rows[..|old(rows)|] == old(rows)
                    && var row := rows[|old(rows)|];
                       && row.merchant == merchant && row.amount == amount && row.kind == ChargeTx
                       && row.key == Some(key) && row.createdAt == env.at
                       && (result.Paid? ==> result == Paid(|old(rows)|))
                       && if env.create == AckLost || env.write == Refused then
                            row.status == Pending && row.fee == 0 && row.net == None && row.provider == env.source.value
                          else if known && env.answer.Accepted? then
                            && row.status == env.answer.response.status && row.fee == env.answer.response.fee
                            && row.net == env.answer.response.net && row.provider == env.answer.response.provider
                          else
                            row.status == Failed && row.fee == 0 && row.net == None && row.provider == env.source.value)
      ensures keys == if key == "" || key in old(keys) || env.check == Refused then old(keys) else old(keys)[key := merchant]
    {
      ghost var s0 := View();
      run := ExtendRun(s0, [], s0, Arrive(merchant, amount, key));
      var r := Arrives(merchant, amount, key);
      run := ExtendRun(s0, run, View(), Check(r, env.check));
      var stop := CheckKey(r, env.check);
      if stop.Some? {
        return stop.value, run;
      }
      result, run := PayAdmitted(r, env, s0, run);
    }

    /** `Refund`: a refund row is stored, as `reversed`, after the provider refunded. */
    method Refund(orig: nat, amount: int, refunded: Option<string>, at: int, db: Db) returns (err: bool)
      requires Inv(View())
      modifies this`rows
      ensures Inv(View())
      ensures var stored := orig < |old(rows)| && old(rows)[orig].provider in providers && refunded.Some? && db != Refused;
              && (stored ==> Enabled(old(View()), Step.Refund(orig, amount, refunded.value, at))
                             && View() == Apply(old(View()), Step.Refund(orig, amount, refunded.value, at)))
              && (!stored ==> View() == old(View()))
              && (err <==> !stored || db == AckLost)
      ensures var stored := orig < |old(rows)| && old(rows)[orig].provider in providers && refunded.Some? && db != Refused;
              if !stored then rows == old(rows)
              else
                && |rows| == |old(rows)| + 1 && rows[..|old(rows)|] == old(rows)
                && var row := rows[|old(rows)|];
                   && row.merchant == old(rows)[orig].merchant && row.amount == amount && row.provider == refunded.value
                   && row.kind == RefundTx && row.status == Reversed && row.key == None && row.createdAt == at
                   && row.fee == 0 && row.net == None
      ensures forall q: Scope :: CalculateFees(q, rows) == CalculateFees(q, old(rows))
    {
      if orig >= |rows| || rows[orig].provider !in providers || refunded == None {
        return true;
      }
      StepKeepsInv(View(), Step.Refund(orig, amount, refunded.value, at));
      err := InsertRow(RefundRow(rows[orig], amount, refunded.value, at), db);
      forall q: Scope ensures CalculateFees(q, rows) == CalculateFees(q, old(rows)) {
        NewRowIsUnbilled(q, old(rows), RefundRow(old(rows)[orig], amount, refunded.value, at));
      }
    }
  }
}

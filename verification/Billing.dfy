/**
 Fees and reconciliation (internal/service/billing.go, reconciliation.go): the aggregate
 queries over the transaction table, and what they owe to each other.
 */
module Billing {
  import opened Transactions

  const FIXED_FEE: int := 10

  datatype BillingPeriod = BillingPeriod(totalTransactions: int, totalAmount: int, totalFees: int)

  datatype ReconciliationStatus = Match | Mismatch | Unavailable

  datatype ReconciliationResult = ReconciliationResult(
    platformTotal: int, providerTotal: int, discrepancy: int, transactionCount: int, status: ReconciliationStatus)

  /** The part of a merchant's business a query looks at; `created_at BETWEEN from AND to`. */
  datatype Scope = Scope(merchant: string, from: int, to: int)

  predicate Selects(q: Scope, row: Tx) {
    row.merchant == q.merchant && row.status == Succeeded && q.from <= row.createdAt <= q.to
  }

  function Share(q: Scope, row: Tx): int {
    if Selects(q, row) then row.amount else 0
  }

  /** `COALESCE(SUM(amount), 0)` */
  function TotalAmount(q: Scope, rows: seq<Tx>): int {
    if rows == [] then 0 else Share(q, rows[0]) + TotalAmount(q, rows[1..])
  }

  /** `COUNT(*)` */
  function Count(q: Scope, rows: seq<Tx>): nat {
    if rows == [] then 0 else (if Selects(q, rows[0]) then 1 else 0) + Count(q, rows[1..])
  }

  /** The rows one provider's reconciliation looks at. */
  function OfProvider(rows: seq<Tx>, provider: string): seq<Tx> {
    if rows == [] then []
    else (if rows[0].provider == provider then [rows[0]] else []) + OfProvider(rows[1..], provider)
  }

  /** Go's integer conversion of a product with 0.01 drops the fraction, towards zero. */
  function OnePercent(total: int): int {
    if total >= 0 then total / 100 else -(-total / 100)
  }

  function CalculateFees(q: Scope, rows: seq<Tx>): BillingPeriod {
    var total, count := TotalAmount(q, rows), Count(q, rows);
    BillingPeriod(count, total, OnePercent(total) + FIXED_FEE * count)
  }

  function Reconcile(q: Scope, rows: seq<Tx>, provider: string): ReconciliationResult {
    var total := TotalAmount(q, OfProvider(rows, provider));
    ReconciliationResult(total, 0, total - 0, Count(q, OfProvider(rows, provider)), Unavailable)
  }

  // --------------------------------------------------------- table changes

  lemma {:induction false} TotalsOfConcat(q: Scope, a: seq<Tx>, b: seq<Tx>)
    ensures TotalAmount(q, a + b) == TotalAmount(q, a) + TotalAmount(q, b)
    ensures Count(q, a + b) == Count(q, a) + Count(q, b)
  {
    if a == [] {
      assert a + b == b;
    } else {
      assert (a + b)[1..] == a[1..] + b;
      TotalsOfConcat(q, a[1..], b);
    }
  }

  lemma TotalsOfUpdate(q: Scope, rows: seq<Tx>, i: nat, row: Tx)
    requires i < |rows|
    ensures TotalAmount(q, rows[i := row]) == TotalAmount(q, rows) - Share(q, rows[i]) + Share(q, row)
    ensures Count(q, rows[i := row])
         == Count(q, rows) - (if Selects(q, rows[i]) then 1 else 0) + (if Selects(q, row) then 1 else 0)
  {
    assert rows == rows[..i] + ([rows[i]] + rows[i + 1..]);
    assert rows[i := row] == rows[..i] + ([row] + rows[i + 1..]);
    TotalsOfConcat(q, rows[..i], [rows[i]] + rows[i + 1..]);
    TotalsOfConcat(q, rows[..i], [row] + rows[i + 1..]);
  }

  // -------------------------------------------------------- reconciliation

  function SumReconciled(q: Scope, rows: seq<Tx>, providers: seq<string>): int {
    if providers == [] then 0
    else Reconcile(q, rows, providers[0]).platformTotal + SumReconciled(q, rows, providers[1..])
  }

  function CountReconciled(q: Scope, rows: seq<Tx>, providers: seq<string>): int {
    if providers == [] then 0
    else Reconcile(q, rows, providers[0]).transactionCount + CountReconciled(q, rows, providers[1..])
  }

  predicate Distinct(providers: seq<string>) {
    forall i, j :: 0 <= i < j < |providers| ==> providers[i] != providers[j]
  }

  lemma {:induction false} OfProviderOfAppend(rows: seq<Tx>, row: Tx, provider: string)
    ensures OfProvider(rows + [row], provider)
         == OfProvider(rows, provider) + (if row.provider == provider then [row] else [])
  {
    if rows == [] {
      assert [row][1..] == [];
    } else {
      assert (rows + [row])[1..] == rows[1..] + [row];
      OfProviderOfAppend(rows[1..], row, provider);
    }
  }

  /**
   What each further row of the table adds to the two reports: its amount and one, exactly
   if it is a succeeded row of the merchant inside the window, ends included, and for a
   reconciliation also of the provider.  The provider's side of a reconciliation is always
   missing, so all of the platform's total is its discrepancy.
   */
  lemma ReportsCountEachRow(q: Scope, rows: seq<Tx>, row: Tx, provider: string)
    ensures CalculateFees(q, []) == BillingPeriod(0, 0, 0)
    ensures Reconcile(q, [], provider) == ReconciliationResult(0, 0, 0, 0, Unavailable)
    ensures var was, now := CalculateFees(q, rows), CalculateFees(q, rows + [row]);
            if row.merchant == q.merchant && row.status == Succeeded && q.from <= row.createdAt <= q.to
            then now.totalAmount == was.totalAmount + row.amount && now.totalTransactions == was.totalTransactions + 1
            else now == was
    ensures var was, now := Reconcile(q, rows, provider), Reconcile(q, rows + [row], provider);
            && now.providerTotal == 0 && now.discrepancy == now.platformTotal && now.status == Unavailable
            && if row.merchant == q.merchant && row.provider == provider && row.status == Succeeded
                  && q.from <= row.createdAt <= q.to
               then now.platformTotal == was.platformTotal + row.amount && now.transactionCount == was.transactionCount + 1
               else now.platformTotal == was.platformTotal && now.transactionCount == was.transactionCount
  {
    assert [row][1..] == [];
    TotalsOfConcat(q, rows, [row]);
    OfProviderOfAppend(rows, row, provider);
    TotalsOfConcat(q, OfProvider(rows, provider), if row.provider == provider then [row] else []);
  }

  /** One row is seen by the reconciliation of its own provider and by no other. */
  lemma {:induction false} RowIsReconciledOnce(q: Scope, row: Tx, rest: seq<Tx>, providers: seq<string>)
    requires Distinct(providers)
    ensures SumReconciled(q, [row] + rest, providers)
         == SumReconciled(q, rest, providers) + (if row.provider in providers then Share(q, row) else 0)
    ensures CountReconciled(q, [row] + rest, providers)
         == CountReconciled(q, rest, providers) + (if row.provider in providers && Selects(q, row) then 1 else 0)
  {
    if providers != [] {
      var p := providers[0];
      assert ([row] + rest)[1..] == rest;
      var own := if row.provider == p then [row] else [];
      assert OfProvider([row] + rest, p) == own + OfProvider(rest, p);
      TotalsOfConcat(q, own, OfProvider(rest, p));
      assert row.provider == p ==> row.provider !in providers[1..];
      RowIsReconciledOnce(q, row, rest, providers[1..]);
    }
  }

  /**
   Over any table, merchant and window, the reconciliation totals and counts of all
   providers present add up to the billing total and count.
   */
  lemma {:induction false} ReconciliationCoversBilling(q: Scope, rows: seq<Tx>, providers: seq<string>)
    requires Distinct(providers)
    requires forall row :: row in rows && Selects(q, row) ==> row.provider in providers
    ensures SumReconciled(q, rows, providers) == CalculateFees(q, rows).totalAmount
    ensures CountReconciled(q, rows, providers) == CalculateFees(q, rows).totalTransactions
  {
    if rows == [] {
      NothingToReconcile(q, providers);
    } else {
      assert rows == [rows[0]] + rows[1..];
      RowIsReconciledOnce(q, rows[0], rows[1..], providers);
      ReconciliationCoversBilling(q, rows[1..], providers);
    }
  }

  lemma {:induction false} NothingToReconcile(q: Scope, providers: seq<string>)
    ensures SumReconciled(q, [], providers) == 0 && CountReconciled(q, [], providers) == 0
  {
    if providers != [] {
      NothingToReconcile(q, providers[1..]);
    }
  }

  // ------------------------------------------------------------- fee splits

  function Flatten(groups: seq<seq<Tx>>): seq<Tx> {
    if groups == [] then [] else groups[0] + Flatten(groups[1..])
  }

  function SumFees(q: Scope, groups: seq<seq<Tx>>): int {
    if groups == [] then 0 else CalculateFees(q, groups[0]).totalFees + SumFees(q, groups[1..])
  }

  /** What the truncations drop: each group's amount modulo one hundred. */
  function SumRemainders(q: Scope, groups: seq<seq<Tx>>): int {
    if groups == [] then 0 else TotalAmount(q, groups[0]) % 100 + SumRemainders(q, groups[1..])
  }

  lemma FeesOfOneGroup(q: Scope, rows: seq<Tx>)
    requires TotalAmount(q, rows) >= 0
    ensures 100 * CalculateFees(q, rows).totalFees + TotalAmount(q, rows) % 100
         == TotalAmount(q, rows) + 1000 * Count(q, rows)
  {
  }

  lemma {:induction false} FeesOfGroups(q: Scope, groups: seq<seq<Tx>>)
    requires forall g :: g in groups ==> TotalAmount(q, g) >= 0
    ensures 0 <= SumRemainders(q, groups) <= 99 * |groups| && 0 <= TotalAmount(q, Flatten(groups))
    ensures 100 * SumFees(q, groups) + SumRemainders(q, groups)
         == TotalAmount(q, Flatten(groups)) + 1000 * Count(q, Flatten(groups))
  {
    if groups != [] {
      TotalsOfConcat(q, groups[0], Flatten(groups[1..]));
      FeesOfOneGroup(q, groups[0]);
      FeesOfGroups(q, groups[1..]);
    }
  }

  /**
   Billing any k groups of transactions separately undercharges by exactly the dropped
   remainders over one hundred: never more than k-1 minor units, and never an overcharge.
   */
  lemma SplittingLosesAtMostOnePerCut(q: Scope, groups: seq<seq<Tx>>)
    requires groups != [] && forall g :: g in groups ==> TotalAmount(q, g) >= 0
    ensures var whole := CalculateFees(q, Flatten(groups)).totalFees;
            && whole - SumFees(q, groups) == SumRemainders(q, groups) / 100
            && whole - (|groups| - 1) <= SumFees(q, groups) <= whole
  {
    FeesOfGroups(q, groups);
    FeesOfOneGroup(q, Flatten(groups));
  }
}

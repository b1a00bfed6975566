/** Rows of the `transactions` table (internal/model/transaction.go) and the mock provider's arithmetic. */
module Transactions {
  import opened Wrappers

  datatype TxStatus = Pending | Processing | Succeeded | Failed | Cancelled | Reversed

  datatype TxType = ChargeTx | RefundTx

  /**
   A table row; its id is its position in the table.  `owner`, `charge` and `rewrites` are
   history: the request that wrote a charge row, the provider charge made for it, and how
   often the row was updated.
   */
  datatype Tx = Tx(
    merchant: string,
    kind: TxType,
    amount: int,
    provider: string,
    status: TxStatus,
    key: Option<string>,
    fee: int,
    net: Option<int>,
    createdAt: int,
    owner: nat,
    charge: Option<nat>,
    rewrites: nat)

  /** The fields of a provider's answer that `ProcessPayment` copies into the row. */
  datatype Response = Response(provider: string, status: TxStatus, fee: int, net: Option<int>)

  /** `MockProvider.Charge`, in exact integers: 2.9% rounded down plus 30. */
  function MockCharge(amount: int): Option<Response> {
    if amount <= 0 then None
    else
      var fee := 29 * amount / 1000 + 30;
      Some(Response("mock", Succeeded, fee, Some(amount - fee)))
  }

  /**
   A mock charge splits the amount into fee and net with nothing lost; the fee is 30 more
   than the whole units in 2.9% of the amount; the merchant's share is non-negative exactly
   from 30 minor units on, and never shrinks as the amount grows.
   */
  lemma MockChargeSplitsAmount(a: int, b: int)
    requires a <= b
    ensures MockCharge(a).Some? <==> a > 0
    ensures a > 0 ==>
              var r := MockCharge(a).value;
              && r.provider == "mock" && r.status == Succeeded && r.net.Some? && r.fee + r.net.value == a
              && 1000 * (r.fee - 30) <= 29 * a < 1000 * (r.fee - 29)
              && (r.net.value >= 0 <==> a >= 30)
              && r.net.value <= MockCharge(b).value.net.value
  {
  }
}

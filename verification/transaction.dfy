/** Payment attempts made against a bill. */
module Transactions {
  import opened Wrappers

  datatype Transaction = Transaction(id: string, status: string, completedAt: string, paymentChannel: string)

  /** The body of a bill's transaction listing; `page` is a JSON number kept as its text. */
  datatype BillTransactions = BillTransactions(
    billId: string,
    transactions: Option<seq<Transaction>>,
    page: string)
}

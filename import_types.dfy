/** The record every import strategy produces
    (server/utils/import-strategies/types.ts). Optional fields are absent
    rather than empty. */
module ImportTypes {
  import opened Wrappers
  import opened Schema

  datatype NormalizedTransaction = NormalizedTransaction(
    transactionDate: string,
    clearingDate: Option<string>,
    description: string,
    merchantName: string,
    amount: Amount,
    txType: string,
    purchasedBy: Option<string>,
    sourceCategory: Option<string>)
}

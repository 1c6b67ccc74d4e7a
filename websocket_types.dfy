/**
 * The block header a `newHeads` subscription delivers, after JSON parsing.
 * `None` stands for a field that is missing or `null`.
 */
module WebSocketTypes {
  import opened Common

  /**
   * The `transactions` field: missing, a bare boolean (some nodes echo the
   * `includeTransactions` flag) or a list of transaction hashes.
   */
  datatype TxField = Absent | Flag(flag: bool) | Hashes(hashes: seq<string>)

  datatype BlockHeader = BlockHeader(
    hash: Option<string>,
    number: Option<string>,
    parentHash: Option<string>,
    timestamp: Option<string>,
    gasUsed: Option<string>,
    gasLimit: Option<string>,
    baseFeePerGas: Option<string>,
    miner: Option<string>,
    transactions: TxField)
}

/**
 * A flashblock payload as it arrives on the flashblock feed, after JSON
 * parsing. `None` stands for a field that is missing or `null`.
 */
module FlashblocksTypes {
  import opened Common

  datatype Base = Base(
    parentHash: string,
    feeRecipient: string,
    blockNumber: string,
    gasLimit: string,
    timestamp: string,
    baseFeePerGas: string)

  datatype Diff = Diff(
    stateRoot: Option<string>,
    blockHash: Option<string>,
    gasUsed: Option<string>,
    transactions: Option<seq<string>>)

  datatype Receipt = Receipt(status: Option<string>, gasUsed: Option<string>, transactionHash: Option<string>)

  datatype Metadata = Metadata(
    blockNumber: Option<int>,
    newAccountBalances: map<string, string>,
    receipts: map<string, Receipt>)

  datatype Payload = Payload(
    payloadId: string,
    index: int,
    base: Option<Base>,
    diff: Option<Diff>,
    metadata: Option<Metadata>)
}

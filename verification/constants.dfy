/** The option keys, option defaults, filter names and record keys of the
    Ethereum source (EthereumConstants.java). */
module EthereumConstants {

  // Configuration option keys.
  const ETHEREUM_URI: string := "uri"
  const FILTER: string := "filter"
  const REPLAY_TRANSACTION_FROM_BLOCK: string := "from.block"
  const REPLAY_TRANSACTION_TO_BLOCK: string := "to.block"
  const POLLING_INTERVAL: string := "polling.interval"

  // Option defaults.
  const DEFAULT_POLLING_INTERVAL: string := "3600"
  const DEFAULT_FROM_BLOCK: string := "earliest"
  const DEFAULT_TO_BLOCK: string := "latest"

  // Filter names.
  const FILTER_NEW_BLOCK: string := "newBlock"
  const FILTER_NEW_TRANSACTION: string := "newTransaction"
  const FILTER_REPLAY_TRANSACTION: string := "replayTransaction"
  const FILTER_PENDING_TRANSACTION: string := "pendingTransaction"

  // Transaction record keys.
  const TRANSACTION_HASH: string := "transactionHash"
  const TRANSACTION_SENDER: string := "from"
  const TRANSACTION_RECIPIENT: string := "to"
  const TRANSACTION_AMOUNT: string := "value"
  const TRANSACTION_NONCE: string := "nonce"
  const TRANSACTION_GAS: string := "gas"
  const TRANSACTION_GAS_PRICE: string := "gasPrice"
  const TRANSACTION_INPUT_STRING: string := "input"
  const TRANSACTION_INDEX: string := "transactionIndex"

  // Block record keys (the first two also appear in transaction records).
  const BLOCK_HASH: string := "blockHash"
  const BLOCK_NUMBER: string := "blockNumber"
  const BLOCK_SIZE: string := "size"
  const BLOCK_DIFFICULTY: string := "difficulty"
  const BLOCK_TOTAL_DIFFICULTY: string := "totalDifficulty"
  const BLOCK_NONCE: string := "nonce"
  const BLOCK_GAS_LIMIT: string := "gasLimit"
  const BLOCK_GAS_USED: string := "gasUsed"
  const BLOCK_PARENT_HASH: string := "parentHash"
  const BLOCK_MIX_HASH: string := "mixHash"
  const BLOCK_MINER: string := "miner"
  const BLOCK_LOGS_BLOOM: string := "logsBloom"
  const BLOCK_STATE_ROOT: string := "stateRoot"
  const BLOCK_RECEIPT_ROOT: string := "receiptRoot"
  const BLOCK_TRANSACTIONS_ROOT: string := "transactionsRoot"
  const BLOCK_SHA3_UNCLES: string := "sha3Uncles"

  /** No two positions of `s` hold the same string. */
  predicate Distinct(s: seq<string>) {
    forall i, j :: 0 <= i < j < |s| ==> s[i] != s[j]
  }

  /** The four filter names, in the order the filter switch lists them. */
  const FilterNames: seq<string> :=
    [FILTER_NEW_BLOCK, FILTER_NEW_TRANSACTION, FILTER_PENDING_TRANSACTION, FILTER_REPLAY_TRANSACTION]

  /** The five configuration option keys. */
  const OptionKeys: seq<string> :=
    [ETHEREUM_URI, FILTER, REPLAY_TRANSACTION_FROM_BLOCK, REPLAY_TRANSACTION_TO_BLOCK, POLLING_INTERVAL]

  /** The keys of a confirmed or replayed transaction record. */
  const TransactionKeyList: seq<string> :=
    [TRANSACTION_HASH, BLOCK_HASH, BLOCK_NUMBER, TRANSACTION_SENDER, TRANSACTION_RECIPIENT,
     TRANSACTION_AMOUNT, TRANSACTION_NONCE, TRANSACTION_GAS, TRANSACTION_GAS_PRICE,
     TRANSACTION_INDEX, TRANSACTION_INPUT_STRING]

  /** The keys of a block record. */
  const BlockKeyList: seq<string> :=
    [BLOCK_HASH, BLOCK_NUMBER, BLOCK_DIFFICULTY, BLOCK_TOTAL_DIFFICULTY, BLOCK_GAS_LIMIT,
     BLOCK_GAS_USED, BLOCK_PARENT_HASH, BLOCK_MIX_HASH, BLOCK_NONCE, BLOCK_SIZE, BLOCK_MINER,
     BLOCK_RECEIPT_ROOT, BLOCK_STATE_ROOT, BLOCK_TRANSACTIONS_ROOT, BLOCK_LOGS_BLOOM,
     BLOCK_SHA3_UNCLES]

  lemma FilterNamesDistinct()
    ensures |FilterNames| == 4 && Distinct(FilterNames)
  {
  }

  lemma OptionKeysDistinct()
    ensures |OptionKeys| == 5 && Distinct(OptionKeys)
  {
  }

  lemma OptionDefaults()
    ensures DEFAULT_FROM_BLOCK == "earliest" && DEFAULT_TO_BLOCK == "latest"
    ensures DEFAULT_POLLING_INTERVAL == "3600"
  {
  }

  lemma TransactionKeysDistinct()
    ensures |TransactionKeyList| == 11 && Distinct(TransactionKeyList)
  {
  }

  lemma BlockKeysDistinct()
    ensures |BlockKeyList| == 16 && Distinct(BlockKeyList)
  {
  }

  /** A transaction's nonce and a block's nonce land under the same key,
      and the receipts root is keyed "receiptRoot". */
  lemma SharedKeys()
    ensures TRANSACTION_NONCE == BLOCK_NONCE == "nonce"
    ensures BLOCK_RECEIPT_ROOT == "receiptRoot"
  {
  }
}

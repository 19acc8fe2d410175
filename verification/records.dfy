/** The three record mappers of EthereumUtil.java: each turns one decoded
    chain object into a flat record keyed by the constants of
    EthereumConstants.java. */
module Records {
  import opened Wrappers
  import opened EthereumConstants
  import Int32

  /** A record value: a string, a narrowed Java `int`, or a stored `null`
      (a `HashMap` accepts `put(key, null)`, so an absent string field still
      occupies its key). */
  datatype Value = Text(text: string) | Int(number: int) | Null

  /** One record handed downstream. */
  type Record = map<string, Value>

  /** A decoded transaction. Numeric fields are arbitrary-precision
      quantities; string fields may be absent (for example the recipient of
      a contract creation, or the block hash of a pending transaction). */
  datatype Transaction = Transaction(
    hash: Option<string>,
    blockHash: Option<string>,
    blockNumber: int,
    from: Option<string>,
    to: Option<string>,
    value: int,
    nonce: int,
    gas: int,
    gasPrice: int,
    transactionIndex: int,
    input: Option<string>)

  /** A decoded block. */
  datatype Block = Block(
    hash: Option<string>,
    number: int,
    difficulty: int,
    totalDifficulty: int,
    gasLimit: int,
    gasUsed: int,
    parentHash: Option<string>,
    mixHash: Option<string>,
    nonce: int,
    size: int,
    miner: Option<string>,
    receiptsRoot: Option<string>,
    stateRoot: Option<string>,
    transactionsRoot: Option<string>,
    logsBloom: Option<string>,
    sha3Uncles: Option<string>)

  /** A string field as stored in the record. */
  function Nullable(s: Option<string>): Value {
    match s
    case Some(t) => Text(t)
    case None => Null
  }

  /** A numeric field as stored in the record: `intValue()` of the wire value. */
  function Narrow(wire: int): Value {
    Int(Int32.IntValue(wire))
  }

  /** `v` is a Java `int` sharing the wire value's low 32 bits; by
      `Int32.IntValueUnique` this pins `v` down to the narrowing. */
  predicate NarrowedFrom(v: Value, wire: int) {
    v.Int? && Int32.InRange(v.number) && Int32.SameLowBits(v.number, wire)
  }

  /** `v` is the wire string passed through unchanged (or `null`). */
  predicate CarriedFrom(v: Value, wire: Option<string>) {
    match wire
    case Some(t) => v == Text(t)
    case None => v == Null
  }

  /** The keys of a list of `put` calls, in call order. */
  function EntryKeys(es: seq<(string, Value)>): (ks: seq<string>)
    ensures |ks| == |es|
    ensures forall i :: 0 <= i < |es| ==> ks[i] == es[i].0
  {
    seq(|es|, i requires 0 <= i < |es| => es[i].0)
  }

  /** The map a fresh `HashMap` holds after `put(k, v)` for every entry in
      order; a later `put` on the same key replaces the earlier value. */
  function FromEntries(es: seq<(string, Value)>): Record {
    if |es| == 0 then map[]
    else FromEntries(es[..|es| - 1])[es[|es| - 1].0 := es[|es| - 1].1]
  }

  /** The keys of the built map are exactly the keys `put`. */
  lemma {:induction false} FromEntriesKeys(es: seq<(string, Value)>)
    ensures forall k :: k in FromEntries(es) <==> k in EntryKeys(es)
  {
    if |es| > 0 {
      var init := es[..|es| - 1];
      FromEntriesKeys(init);
      forall k ensures k in FromEntries(es) <==> k in EntryKeys(es) {
        if k in EntryKeys(es) && k != es[|es| - 1].0 {
          var i :| 0 <= i < |es| && EntryKeys(es)[i] == k;
          assert EntryKeys(init)[i] == k;
        }
        if k in EntryKeys(init) {
          var i :| 0 <= i < |init| && EntryKeys(init)[i] == k;
          assert EntryKeys(es)[i] == k;
        }
      }
    }
  }

  /** Dropping the last entry keeps the keys distinct. */
  lemma DistinctPrefix(es: seq<(string, Value)>)
    requires |es| > 0 && Distinct(EntryKeys(es))
    ensures Distinct(EntryKeys(es[..|es| - 1]))
    ensures es[|es| - 1].0 !in EntryKeys(es[..|es| - 1])
  {
    var ks := EntryKeys(es);
    var init := EntryKeys(es[..|es| - 1]);
    forall i, j | 0 <= i < j < |init| ensures init[i] != init[j] {
      assert init[i] == ks[i] && init[j] == ks[j];
    }
  }

  /** Every `put` of `es` is visible in the resulting map and none is lost. */
  ghost predicate AllPutsKept(es: seq<(string, Value)>) {
    && |FromEntries(es)| == |es|
    && forall i :: 0 <= i < |es| ==> es[i].0 in FromEntries(es) && FromEntries(es)[es[i].0] == es[i].1
  }

  /** With distinct keys every `put` adds one entry and none is overwritten. */
  lemma {:induction false} FromEntriesDistinct(es: seq<(string, Value)>)
    requires Distinct(EntryKeys(es))
    ensures AllPutsKept(es)
  {
    if |es| > 0 {
      var init := es[..|es| - 1];
      DistinctPrefix(es);
      FromEntriesDistinct(init);
      FromEntriesKeys(init);
      var r := FromEntries(es);
      forall i | 0 <= i < |es| ensures es[i].0 in r && r[es[i].0] == es[i].1 {
        if i < |es| - 1 {
          assert init[i] == es[i];
          assert es[i].0 in EntryKeys(init);
        }
      }
    }
  }

  /** The `put` calls of the transaction mapper, in source order. */
  function TransactionEntries(tx: Transaction): seq<(string, Value)> {
    [ (TRANSACTION_HASH, Nullable(tx.hash)),
      (BLOCK_HASH, Nullable(tx.blockHash)),
      (BLOCK_NUMBER, Narrow(tx.blockNumber)),
      (TRANSACTION_SENDER, Nullable(tx.from)),
      (TRANSACTION_RECIPIENT, Nullable(tx.to)),
      (TRANSACTION_AMOUNT, Narrow(tx.value)),
      (TRANSACTION_NONCE, Narrow(tx.nonce)),
      (TRANSACTION_GAS, Narrow(tx.gas)),
      (TRANSACTION_GAS_PRICE, Narrow(tx.gasPrice)),
      (TRANSACTION_INDEX, Narrow(tx.transactionIndex)),
      (TRANSACTION_INPUT_STRING, Nullable(tx.input)) ]
  }

  /** The `put` calls of the pending-transaction mapper, in source order. */
  function PendingEntries(tx: Transaction): seq<(string, Value)> {
    [ (TRANSACTION_HASH, Nullable(tx.hash)),
      (TRANSACTION_SENDER, Nullable(tx.from)),
      (TRANSACTION_RECIPIENT, Nullable(tx.to)),
      (TRANSACTION_AMOUNT, Narrow(tx.value)),
      (TRANSACTION_GAS_PRICE, Narrow(tx.gasPrice)),
      (TRANSACTION_GAS, Narrow(tx.gas)),
      (TRANSACTION_INPUT_STRING, Nullable(tx.input)) ]
  }

  /** The `put` calls of the block mapper, in source order. */
  function BlockEntries(b: Block): seq<(string, Value)> {
    [ (BLOCK_HASH, Nullable(b.hash)),
      (BLOCK_NUMBER, Narrow(b.number)),
      (BLOCK_DIFFICULTY, Narrow(b.difficulty)),
      (BLOCK_TOTAL_DIFFICULTY, Narrow(b.totalDifficulty)),
      (BLOCK_GAS_LIMIT, Narrow(b.gasLimit)),
      (BLOCK_GAS_USED, Narrow(b.gasUsed)),
      (BLOCK_PARENT_HASH, Nullable(b.parentHash)),
      (BLOCK_MIX_HASH, Nullable(b.mixHash)),
      (BLOCK_NONCE, Narrow(b.nonce)),
      (BLOCK_SIZE, Narrow(b.size)),
      (BLOCK_MINER, Nullable(b.miner)),
      (BLOCK_RECEIPT_ROOT, Nullable(b.receiptsRoot)),
      (BLOCK_STATE_ROOT, Nullable(b.stateRoot)),
      (BLOCK_TRANSACTIONS_ROOT, Nullable(b.transactionsRoot)),
      (BLOCK_LOGS_BLOOM, Nullable(b.logsBloom)),
      (BLOCK_SHA3_UNCLES, Nullable(b.sha3Uncles)) ]
  }

  /** The keys of a pending-transaction record, in source order. */
  const PendingKeyList: seq<string> :=
    [TRANSACTION_HASH, TRANSACTION_SENDER, TRANSACTION_RECIPIENT, TRANSACTION_AMOUNT,
     TRANSACTION_GAS_PRICE, TRANSACTION_GAS, TRANSACTION_INPUT_STRING]

  lemma PendingKeysDistinct()
    ensures |PendingKeyList| == 7 && Distinct(PendingKeyList)
  {
  }

  /** The key set of a transaction record. */
  const TransactionKeys: set<string> :=
    {TRANSACTION_HASH, BLOCK_HASH, BLOCK_NUMBER, TRANSACTION_SENDER, TRANSACTION_RECIPIENT,
     TRANSACTION_AMOUNT, TRANSACTION_NONCE, TRANSACTION_GAS, TRANSACTION_GAS_PRICE,
     TRANSACTION_INDEX, TRANSACTION_INPUT_STRING}

  /** The key set of a pending-transaction record. */
  const PendingKeys: set<string> :=
    {TRANSACTION_HASH, TRANSACTION_SENDER, TRANSACTION_RECIPIENT, TRANSACTION_AMOUNT,
     TRANSACTION_GAS_PRICE, TRANSACTION_GAS, TRANSACTION_INPUT_STRING}

  /** The key set of a block record. */
  const BlockKeys: set<string> :=
    {BLOCK_HASH, BLOCK_NUMBER, BLOCK_DIFFICULTY, BLOCK_TOTAL_DIFFICULTY, BLOCK_GAS_LIMIT,
     BLOCK_GAS_USED, BLOCK_PARENT_HASH, BLOCK_MIX_HASH, BLOCK_NONCE, BLOCK_SIZE, BLOCK_MINER,
     BLOCK_RECEIPT_ROOT, BLOCK_STATE_ROOT, BLOCK_TRANSACTIONS_ROOT, BLOCK_LOGS_BLOOM,
     BLOCK_SHA3_UNCLES}

  /** The transaction mapper `put`s each transaction key once. */
  lemma TransactionPutsKept(tx: Transaction)
    ensures EntryKeys(TransactionEntries(tx)) == TransactionKeyList
    ensures AllPutsKept(TransactionEntries(tx))
  {
    var es := TransactionEntries(tx);
    assert EntryKeys(es) == TransactionKeyList;
    TransactionKeysDistinct();
    FromEntriesDistinct(es);
  }

  /** The pending mapper `put`s each pending key once. */
  lemma PendingPutsKept(tx: Transaction)
    ensures EntryKeys(PendingEntries(tx)) == PendingKeyList
    ensures AllPutsKept(PendingEntries(tx))
  {
    var es := PendingEntries(tx);
    assert EntryKeys(es) == PendingKeyList;
    PendingKeysDistinct();
    FromEntriesDistinct(es);
  }

  /** The block mapper `put`s each block key once. */
  lemma BlockPutsKept(b: Block)
    ensures EntryKeys(BlockEntries(b)) == BlockKeyList
    ensures AllPutsKept(BlockEntries(b))
  {
    var es := BlockEntries(b);
    assert EntryKeys(es) == BlockKeyList;
    BlockKeysDistinct();
    FromEntriesDistinct(es);
  }

  /** The key set and size of the transaction record. */
  lemma TransactionShape(tx: Transaction)
    ensures var r := FromEntries(TransactionEntries(tx));
      r.Keys == TransactionKeys && |r| == 11
  {
    var r := FromEntries(TransactionEntries(tx));
    assert r.Keys <= TransactionKeys by {
      TransactionPutsKept(tx);
      FromEntriesKeys(TransactionEntries(tx));
      forall k | k in r ensures k in TransactionKeys {
        assert k in TransactionKeyList;
      }
    }
    assert TransactionKeys <= r.Keys && |r| == 11 by {
      TransactionNumbers(tx);
      TransactionStrings(tx);
      TransactionPutsKept(tx);
    }
  }

  /** The numeric fields of the transaction record. */
  lemma TransactionNumbers(tx: Transaction)
    ensures var r := FromEntries(TransactionEntries(tx));
      && BLOCK_NUMBER in r && NarrowedFrom(r[BLOCK_NUMBER], tx.blockNumber)
      && TRANSACTION_AMOUNT in r && NarrowedFrom(r[TRANSACTION_AMOUNT], tx.value)
      && TRANSACTION_NONCE in r && NarrowedFrom(r[TRANSACTION_NONCE], tx.nonce)
      && TRANSACTION_GAS in r && NarrowedFrom(r[TRANSACTION_GAS], tx.gas)
      && TRANSACTION_GAS_PRICE in r && NarrowedFrom(r[TRANSACTION_GAS_PRICE], tx.gasPrice)
      && TRANSACTION_INDEX in r && NarrowedFrom(r[TRANSACTION_INDEX], tx.transactionIndex)
  {
    TransactionPutsKept(tx);
    var es := TransactionEntries(tx);
    assert es[2].0 == BLOCK_NUMBER && es[5].0 == TRANSACTION_AMOUNT && es[6].0 == TRANSACTION_NONCE;
    assert es[7].0 == TRANSACTION_GAS && es[8].0 == TRANSACTION_GAS_PRICE && es[9].0 == TRANSACTION_INDEX;
  }

  /** The string fields of the transaction record. */
  lemma TransactionStrings(tx: Transaction)
    ensures var r := FromEntries(TransactionEntries(tx));
      && TRANSACTION_HASH in r && CarriedFrom(r[TRANSACTION_HASH], tx.hash)
      && BLOCK_HASH in r && CarriedFrom(r[BLOCK_HASH], tx.blockHash)
      && TRANSACTION_SENDER in r && CarriedFrom(r[TRANSACTION_SENDER], tx.from)
      && TRANSACTION_RECIPIENT in r && CarriedFrom(r[TRANSACTION_RECIPIENT], tx.to)
      && TRANSACTION_INPUT_STRING in r && CarriedFrom(r[TRANSACTION_INPUT_STRING], tx.input)
  {
    TransactionPutsKept(tx);
    var es := TransactionEntries(tx);
    assert es[0].0 == TRANSACTION_HASH && es[1].0 == BLOCK_HASH && es[3].0 == TRANSACTION_SENDER;
    assert es[4].0 == TRANSACTION_RECIPIENT && es[10].0 == TRANSACTION_INPUT_STRING;
  }

  /** The record of a confirmed or replayed transaction. */
  function TransactionRecord(tx: Transaction): (r: Record)
    ensures r.Keys == TransactionKeys && |r| == 11
    ensures NarrowedFrom(r[BLOCK_NUMBER], tx.blockNumber)
    ensures NarrowedFrom(r[TRANSACTION_AMOUNT], tx.value)
    ensures NarrowedFrom(r[TRANSACTION_NONCE], tx.nonce)
    ensures NarrowedFrom(r[TRANSACTION_GAS], tx.gas)
    ensures NarrowedFrom(r[TRANSACTION_GAS_PRICE], tx.gasPrice)
    ensures NarrowedFrom(r[TRANSACTION_INDEX], tx.transactionIndex)
    ensures CarriedFrom(r[TRANSACTION_HASH], tx.hash)
    ensures CarriedFrom(r[BLOCK_HASH], tx.blockHash)
    ensures CarriedFrom(r[TRANSACTION_SENDER], tx.from)
    ensures CarriedFrom(r[TRANSACTION_RECIPIENT], tx.to)
    ensures CarriedFrom(r[TRANSACTION_INPUT_STRING], tx.input)
  {
    TransactionShape(tx);
    TransactionNumbers(tx);
    TransactionStrings(tx);
    FromEntries(TransactionEntries(tx))
  }

  /** The key set and size of the pending-transaction record. */
  lemma PendingShape(tx: Transaction)
    ensures var r := FromEntries(PendingEntries(tx));
      r.Keys == PendingKeys && |r| == 7
  {
    var es := PendingEntries(tx);
    var r := FromEntries(es);
    PendingPutsKept(tx);
    assert r.Keys <= PendingKeys by {
      FromEntriesKeys(es);
      forall k | k in r ensures k in PendingKeys {
        assert k in PendingKeyList;
      }
    }
    assert PendingKeys <= r.Keys by {
      assert es[0].0 == TRANSACTION_HASH && es[1].0 == TRANSACTION_SENDER;
      assert es[2].0 == TRANSACTION_RECIPIENT && es[3].0 == TRANSACTION_AMOUNT;
      assert es[4].0 == TRANSACTION_GAS_PRICE && es[5].0 == TRANSACTION_GAS;
      assert es[6].0 == TRANSACTION_INPUT_STRING;
    }
  }

  /** The record of a pending transaction: the block-placement fields and the
      nonce are never read. */
  function PendingRecord(tx: Transaction): (r: Record)
    ensures r.Keys == PendingKeys && |r| == 7
    ensures BLOCK_HASH !in r && BLOCK_NUMBER !in r
    ensures TRANSACTION_NONCE !in r && TRANSACTION_INDEX !in r
    ensures NarrowedFrom(r[TRANSACTION_AMOUNT], tx.value)
    ensures NarrowedFrom(r[TRANSACTION_GAS_PRICE], tx.gasPrice)
    ensures NarrowedFrom(r[TRANSACTION_GAS], tx.gas)
    ensures CarriedFrom(r[TRANSACTION_HASH], tx.hash)
    ensures CarriedFrom(r[TRANSACTION_SENDER], tx.from)
    ensures CarriedFrom(r[TRANSACTION_RECIPIENT], tx.to)
    ensures CarriedFrom(r[TRANSACTION_INPUT_STRING], tx.input)
  {
    var es := PendingEntries(tx);
    PendingKeysExclude();
    assert es[0].0 == TRANSACTION_HASH && es[1].0 == TRANSACTION_SENDER;
    assert es[2].0 == TRANSACTION_RECIPIENT && es[3].0 == TRANSACTION_AMOUNT;
    assert es[4].0 == TRANSACTION_GAS_PRICE && es[5].0 == TRANSACTION_GAS;
    assert es[6].0 == TRANSACTION_INPUT_STRING;
    PendingPutsKept(tx);
    PendingShape(tx);
    FromEntries(es)
  }

  /** The key set and size of the block record. */
  lemma BlockShape(b: Block)
    ensures var r := FromEntries(BlockEntries(b));
      r.Keys == BlockKeys && |r| == 16
  {
    var r := FromEntries(BlockEntries(b));
    assert r.Keys <= BlockKeys by {
      BlockPutsKept(b);
      FromEntriesKeys(BlockEntries(b));
      forall k | k in r ensures k in BlockKeys {
        assert k in BlockKeyList;
      }
    }
    assert BlockKeys <= r.Keys && |r| == 16 by {
      BlockNumbers(b);
      BlockStrings(b);
      BlockPutsKept(b);
    }
  }

  /** The numeric fields of the block record. */
  lemma BlockNumbers(b: Block)
    ensures var r := FromEntries(BlockEntries(b));
      && BLOCK_NUMBER in r && NarrowedFrom(r[BLOCK_NUMBER], b.number)
      && BLOCK_DIFFICULTY in r && NarrowedFrom(r[BLOCK_DIFFICULTY], b.difficulty)
      && BLOCK_TOTAL_DIFFICULTY in r && NarrowedFrom(r[BLOCK_TOTAL_DIFFICULTY], b.totalDifficulty)
      && BLOCK_GAS_LIMIT in r && NarrowedFrom(r[BLOCK_GAS_LIMIT], b.gasLimit)
      && BLOCK_GAS_USED in r && NarrowedFrom(r[BLOCK_GAS_USED], b.gasUsed)
      && BLOCK_NONCE in r && NarrowedFrom(r[BLOCK_NONCE], b.nonce)
      && BLOCK_SIZE in r && NarrowedFrom(r[BLOCK_SIZE], b.size)
  {
    BlockPutsKept(b);
    var es := BlockEntries(b);
    assert es[1].0 == BLOCK_NUMBER && es[2].0 == BLOCK_DIFFICULTY && es[3].0 == BLOCK_TOTAL_DIFFICULTY;
    assert es[4].0 == BLOCK_GAS_LIMIT && es[5].0 == BLOCK_GAS_USED && es[8].0 == BLOCK_NONCE;
    assert es[9].0 == BLOCK_SIZE;
  }

  /** The string fields of the block record. */
  lemma BlockStrings(b: Block)
    ensures var r := FromEntries(BlockEntries(b));
      && BLOCK_HASH in r && CarriedFrom(r[BLOCK_HASH], b.hash)
      && BLOCK_PARENT_HASH in r && CarriedFrom(r[BLOCK_PARENT_HASH], b.parentHash)
      && BLOCK_MIX_HASH in r && CarriedFrom(r[BLOCK_MIX_HASH], b.mixHash)
      && BLOCK_MINER in r && CarriedFrom(r[BLOCK_MINER], b.miner)
      && BLOCK_RECEIPT_ROOT in r && CarriedFrom(r[BLOCK_RECEIPT_ROOT], b.receiptsRoot)
      && BLOCK_STATE_ROOT in r && CarriedFrom(r[BLOCK_STATE_ROOT], b.stateRoot)
      && BLOCK_TRANSACTIONS_ROOT in r && CarriedFrom(r[BLOCK_TRANSACTIONS_ROOT], b.transactionsRoot)
      && BLOCK_LOGS_BLOOM in r && CarriedFrom(r[BLOCK_LOGS_BLOOM], b.logsBloom)
      && BLOCK_SHA3_UNCLES in r && CarriedFrom(r[BLOCK_SHA3_UNCLES], b.sha3Uncles)
  {
    BlockPutsKept(b);
    var es := BlockEntries(b);
    assert es[0].0 == BLOCK_HASH && es[6].0 == BLOCK_PARENT_HASH && es[7].0 == BLOCK_MIX_HASH;
    assert es[10].0 == BLOCK_MINER && es[11].0 == BLOCK_RECEIPT_ROOT && es[12].0 == BLOCK_STATE_ROOT;
    assert es[13].0 == BLOCK_TRANSACTIONS_ROOT && es[14].0 == BLOCK_LOGS_BLOOM;
    assert es[15].0 == BLOCK_SHA3_UNCLES;
  }

  /** The record of a new block. */
  function BlockRecord(b: Block): (r: Record)
    ensures r.Keys == BlockKeys && |r| == 16
    ensures NarrowedFrom(r[BLOCK_NUMBER], b.number)
    ensures NarrowedFrom(r[BLOCK_DIFFICULTY], b.difficulty)
    ensures NarrowedFrom(r[BLOCK_TOTAL_DIFFICULTY], b.totalDifficulty)
    ensures NarrowedFrom(r[BLOCK_GAS_LIMIT], b.gasLimit)
    ensures NarrowedFrom(r[BLOCK_GAS_USED], b.gasUsed)
    ensures NarrowedFrom(r[BLOCK_NONCE], b.nonce)
    ensures NarrowedFrom(r[BLOCK_SIZE], b.size)
    ensures CarriedFrom(r[BLOCK_HASH], b.hash)
    ensures CarriedFrom(r[BLOCK_PARENT_HASH], b.parentHash)
    ensures CarriedFrom(r[BLOCK_MIX_HASH], b.mixHash)
    ensures CarriedFrom(r[BLOCK_MINER], b.miner)
    ensures CarriedFrom(r[BLOCK_RECEIPT_ROOT], b.receiptsRoot)
    ensures CarriedFrom(r[BLOCK_STATE_ROOT], b.stateRoot)
    ensures CarriedFrom(r[BLOCK_TRANSACTIONS_ROOT], b.transactionsRoot)
    ensures CarriedFrom(r[BLOCK_LOGS_BLOOM], b.logsBloom)
    ensures CarriedFrom(r[BLOCK_SHA3_UNCLES], b.sha3Uncles)
  {
    BlockShape(b);
    BlockNumbers(b);
    BlockStrings(b);
    FromEntries(BlockEntries(b))
  }

  /** The keys a pending record never has. */
  lemma PendingKeysExclude()
    ensures BLOCK_HASH !in PendingKeys && BLOCK_NUMBER !in PendingKeys
    ensures TRANSACTION_NONCE !in PendingKeys && TRANSACTION_INDEX !in PendingKeys
  {
  }

  /** A pending record has strictly fewer keys than a transaction record. */
  lemma PendingKeysStrictSubset()
    ensures PendingKeys < TransactionKeys
    ensures TransactionKeys - PendingKeys == {BLOCK_HASH, BLOCK_NUMBER, TRANSACTION_NONCE, TRANSACTION_INDEX}
  {
  }

  /** For the same transaction, the pending record is a sub-record of the
      transaction record: every key it has, the transaction record has too,
      with the same value. */
  lemma PendingAgreesWithTransaction(tx: Transaction)
    ensures forall k :: k in PendingRecord(tx) ==>
              k in TransactionRecord(tx) && PendingRecord(tx)[k] == TransactionRecord(tx)[k]
  {
    var p := PendingEntries(tx);
    var t := TransactionEntries(tx);
    PendingPutsKept(tx);
    TransactionPutsKept(tx);
    assert forall e :: e in p ==> e in t;
    SubEntries(p, t);
  }

  /** If every `put` of `p` is also a `put` of `t`, and neither list loses a
      `put`, the map built from `p` is a sub-map of the one built from `t`. */
  lemma SubEntries(p: seq<(string, Value)>, t: seq<(string, Value)>)
    requires AllPutsKept(p) && AllPutsKept(t)
    requires forall e :: e in p ==> e in t
    ensures forall k :: k in FromEntries(p) ==>
              k in FromEntries(t) && FromEntries(p)[k] == FromEntries(t)[k]
  {
    forall k | k in FromEntries(p) ensures k in FromEntries(t) && FromEntries(p)[k] == FromEntries(t)[k] {
      FromEntriesKeys(p);
      assert k in EntryKeys(p);
      var i :| 0 <= i < |p| && EntryKeys(p)[i] == k;
      assert p[i] in t;
      var j :| 0 <= j < |t| && t[j] == p[i];
    }
  }

  /** Whatever a transaction carries in its block hash, block number, nonce
      and index, its pending record is the same. */
  lemma PendingIgnoresPlacement(tx: Transaction, blockHash: Option<string>, blockNumber: int,
                                nonce: int, transactionIndex: int)
    ensures PendingRecord(tx) ==
            PendingRecord(tx.(blockHash := blockHash, blockNumber := blockNumber,
                              nonce := nonce, transactionIndex := transactionIndex))
  {
  }

  /** Block and transaction records share exactly the block hash, block
      number and nonce keys; a pending record shares no key with a block
      record. */
  lemma RecordKindsOverlap()
    ensures BlockKeys * TransactionKeys == {BLOCK_HASH, BLOCK_NUMBER, BLOCK_NONCE}
    ensures BlockKeys * PendingKeys == {}
  {
  }
}

/**
 * The ledger's data model, shared by both Blockchain classes: transactions,
 * blocks, the canonical block hash, and the pure transitions that the two
 * classes' mutating methods are specified by.
 */
module Chain {

  datatype Option<T> = None | Some(value: T)

  /** The two kinds of amount the ledger is given: the mining reward is the
      integer 1, the scripted transfers use strings such as "5 BTC". */
  datatype Amount = AInt(n: int) | AStr(s: string)

  datatype Transaction = Transaction(sender: string, recipient: string, amount: Amount)

  /** The reading of the clock taken when a block is created; nothing is
      computed from it, so it is an opaque input of every block-creating call. */
  type Timestamp = real

  datatype Block = Block(
    index: int,
    timestamp: Timestamp,
    transactions: seq<Transaction>,
    proof: int,
    previousHash: Option<string>)

  /** The two library primitives behind `hash`: sorted-key JSON serialisation
      of a block and the SHA-256 hex digest of a text. Both are arbitrary total
      functions here, so every fact below holds whatever they compute. */
  datatype Hasher = Hasher(serialize: Block -> string, sha256Hex: string -> string)

  /** The sentinel previous hash and the fixed proof of the genesis block. */
  const GenesisPreviousHash: string := "The Times 03/Jan/2009 Chancellor on brink of second bailout for banks."
  const GenesisProof: int := 100

  /** The canonical hash of a block: digest of its serialisation. */
  function BlockHash(h: Hasher, b: Block): string
  {
    h.sha256Hex(h.serialize(b))
  }

  /** The hash is a function of the block's content alone: structurally equal
      blocks, however and whenever they were built, hash equally. */
  lemma HashDeterministic(h: Hasher, b1: Block, b2: Block)
    requires b1 == b2
    ensures BlockHash(h, b1) == BlockHash(h, b2)
  {
  }

  /** The whole state of a Blockchain object: the chain and the pending pool. */
  datatype Ledger = Ledger(chain: seq<Block>, pending: seq<Transaction>)

  function GenesisBlock(now: Timestamp): Block
  {
    Block(1, now, [], GenesisProof, Some(GenesisPreviousHash))
  }

  predicate IsGenesis(b: Block)
  {
    b.index == 1 && b.transactions == [] && b.proof == GenesisProof
    && b.previousHash == Some(GenesisPreviousHash)
  }

  /** Indices are contiguous and 1-based. */
  predicate IndexedFromOne(chain: seq<Block>)
  {
    forall i :: 0 <= i < |chain| ==> chain[i].index == i + 1
  }

  /** The object invariant: a non-empty chain that starts with the genesis
      block and whose indices run 1, 2, 3, ... without gaps. */
  predicate WellFormed(l: Ledger)
  {
    |l.chain| > 0 && IsGenesis(l.chain[0]) && IndexedFromOne(l.chain)
  }

  /** Every block after the first records the hash of the block before it. */
  predicate HashChained(h: Hasher, chain: seq<Block>)
  {
    forall i :: 0 < i < |chain| ==> chain[i].previousHash == Some(BlockHash(h, chain[i - 1]))
  }

  /** The state right after construction: one genesis block, an empty pool. */
  function Initial(now: Timestamp): (l: Ledger)
    ensures WellFormed(l) && |l.chain| == 1 && l.pending == []
  {
    Ledger([GenesisBlock(now)], [])
  }

  function LastBlock(l: Ledger): Block
    requires |l.chain| > 0
  {
    l.chain[|l.chain| - 1]
  }

  /** `new_transaction`: the transaction joins the end of the pool. */
  function Submitted(l: Ledger, tx: Transaction): Ledger
  {
    Ledger(l.chain, l.pending + [tx])
  }

  /** `new_block` once the previous hash to store is known: the whole pool
      becomes the new block's transactions and the pool starts afresh. */
  function Forged(l: Ledger, proof: int, previousHash: Option<string>, now: Timestamp): Ledger
  {
    Ledger(l.chain + [Block(|l.chain| + 1, now, l.pending, proof, previousHash)], [])
  }

  lemma SubmittedFacts(l: Ledger, tx: Transaction)
    requires WellFormed(l)
    ensures WellFormed(Submitted(l, tx))
    ensures Submitted(l, tx).chain == l.chain
    ensures Submitted(l, tx).pending[..|l.pending|] == l.pending
    ensures Submitted(l, tx).pending[|l.pending|] == tx
    ensures LastBlock(l).index + 1 == |l.chain| + 1
  {
  }

  lemma ForgedFacts(l: Ledger, proof: int, previousHash: Option<string>, now: Timestamp)
    requires WellFormed(l)
    ensures WellFormed(Forged(l, proof, previousHash, now))
    ensures Forged(l, proof, previousHash, now).chain[..|l.chain|] == l.chain
    ensures LastBlock(Forged(l, proof, previousHash, now))
         == Block(LastBlock(l).index + 1, now, l.pending, proof, previousHash)
    ensures Forged(l, proof, previousHash, now).pending == []
  {
  }

  /** Appending a block that records the hash of the current last block keeps
      the whole chain hash-linked. */
  lemma ForgedKeepsHashChain(h: Hasher, l: Ledger, proof: int, now: Timestamp)
    requires |l.chain| > 0 && HashChained(h, l.chain)
    ensures HashChained(h, Forged(l, proof, Some(BlockHash(h, LastBlock(l))), now).chain)
  {
  }
}

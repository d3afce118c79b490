/**
 * The mining node's ledger: the Blockchain class with its proof-of-work
 * puzzle, and the ledger steps of the `/mine` request handler.
 * Here `new_block` stores the previous hash exactly as it is given.
 */
module Mining {
  import opened Chain
  import Decimal

  class Blockchain {
    /** The serialisation and digest primitives the hashing uses. */
    const hasher: Hasher
    var chain: seq<Block>
    var pendingTransactions: seq<Transaction>

    function State(): Ledger
      reads this
    {
      Ledger(chain, pendingTransactions)
    }

    ghost predicate Valid()
      reads this
    {
      WellFormed(State())
    }

    /** A chain holding only the genesis block, and an empty pool. */
    constructor (hasher: Hasher, now: Timestamp)
      ensures Valid() && this.hasher == hasher
      ensures State() == Initial(now)
      ensures chain == [Block(1, now, [], GenesisProof, Some(GenesisPreviousHash))]
      ensures pendingTransactions == []
      ensures HashChained(hasher, chain)
    {
      this.hasher := hasher;
      // `__init__` calls `new_block` on the empty chain with the sentinel and
      // proof 100; that appends exactly this block to an empty pool's ledger.
      chain := [GenesisBlock(now)];
      pendingTransactions := [];
    }

    /** The puzzle: the first four characters of the digest of the two proofs'
        decimal texts, written one after the other, are all '0'. */
    static predicate ValidProof(sha256Hex: string -> string, lastProof: int, proof: int)
    {
      var guessHash := sha256Hex(Decimal.IntToDecimal(lastProof) + Decimal.IntToDecimal(proof));
      |guessHash| >= 4 && guessHash[..4] == "0000"
    }

    /** Linear search from 0 for the least proof the puzzle accepts. The ghost
        `solution` is any accepted proof; it bounds the search. */
    method ProofOfWork(lastProof: int, ghost solution: nat) returns (proof: nat)
      requires ValidProof(hasher.sha256Hex, lastProof, solution)
      ensures ValidProof(hasher.sha256Hex, lastProof, proof)
      ensures forall k :: 0 <= k < proof ==> !ValidProof(hasher.sha256Hex, lastProof, k)
    {
      proof := 0;
      while !ValidProof(hasher.sha256Hex, lastProof, proof)
        invariant proof <= solution
        invariant forall k :: 0 <= k < proof ==> !ValidProof(hasher.sha256Hex, lastProof, k)
        decreases solution - proof
      {
        proof := proof + 1;
      }
    }

    /** Appends a block holding the whole pool, with the previous hash as given
        (also when it is None), and empties the pool. */
    method NewBlock(proof: int, previousHash: Option<string>, now: Timestamp) returns (block: Block)
      requires Valid()
      modifies this
      ensures Valid()
      ensures block == Block(|old(chain)| + 1, now, old(pendingTransactions), proof, previousHash)
      ensures State() == Forged(old(State()), proof, previousHash, now)
      ensures chain == old(chain) + [block] && pendingTransactions == []
    {
      block := Block(|chain| + 1, now, pendingTransactions, proof, previousHash);
      pendingTransactions := [];
      chain := chain + [block];
    }

    /** The most recent block; its index is the length of the chain. */
    function LastBlock(): (b: Block)
      reads this
      requires Valid()
      ensures b.index == |chain| && b in chain
    {
      chain[|chain| - 1]
    }

    /** Adds a transaction to the end of the pool and returns the index of the
        block that will hold it. */
    method NewTransaction(sender: string, recipient: string, amount: Amount) returns (index: int)
      requires Valid()
      modifies this
      ensures Valid()
      ensures State() == Submitted(old(State()), Transaction(sender, recipient, amount))
      ensures chain == old(chain)
      ensures pendingTransactions == old(pendingTransactions) + [Transaction(sender, recipient, amount)]
      ensures index == LastBlock().index + 1 == |chain| + 1
    {
      pendingTransactions := pendingTransactions + [Transaction(sender, recipient, amount)];
      index := LastBlock().index + 1;
    }
  }

  /** The sender of every mining reward: coins that come from nobody. */
  const RewardSender: string := "0"

  /** The ledger steps of `/mine`: find the next proof, pay the miner one coin,
      and forge a block that records the hash of the block mined before. */
  method Mine(blockchain: Blockchain, minerId: string, now: Timestamp, ghost solution: nat)
    returns (block: Block)
    requires blockchain.Valid()
    requires Blockchain.ValidProof(blockchain.hasher.sha256Hex, blockchain.LastBlock().proof, solution)
    modifies blockchain
    ensures blockchain.Valid()
    ensures blockchain.chain == old(blockchain.chain) + [block]
    ensures blockchain.pendingTransactions == []
    ensures block.index == old(blockchain.LastBlock()).index + 1
    ensures block.timestamp == now
    ensures block.transactions
         == old(blockchain.pendingTransactions) + [Transaction(RewardSender, minerId, AInt(1))]
    ensures block.proof >= 0
    ensures Blockchain.ValidProof(blockchain.hasher.sha256Hex, old(blockchain.LastBlock()).proof, block.proof)
    ensures forall k :: 0 <= k < block.proof
              ==> !Blockchain.ValidProof(blockchain.hasher.sha256Hex, old(blockchain.LastBlock()).proof, k)
    ensures block.previousHash == Some(BlockHash(blockchain.hasher, old(blockchain.LastBlock())))
    ensures HashChained(blockchain.hasher, old(blockchain.chain)) ==> HashChained(blockchain.hasher, blockchain.chain)
  {
    var lastBlock := blockchain.LastBlock();
    var lastProof := lastBlock.proof;
    var proof := blockchain.ProofOfWork(lastProof, solution);
    var rewardIndex := blockchain.NewTransaction(RewardSender, minerId, AInt(1));
    var previousHash := BlockHash(blockchain.hasher, lastBlock);
    block := blockchain.NewBlock(proof, Some(previousHash), now);
  }

  /** The search result is determined by the seed: two proofs that are both
      accepted with nothing accepted below them are the same proof, so anyone
      holding the seed finds the same one. */
  lemma LeastProofUnique(sha256Hex: string -> string, lastProof: int, p: nat, q: nat)
    requires Blockchain.ValidProof(sha256Hex, lastProof, p)
    requires forall k :: 0 <= k < p ==> !Blockchain.ValidProof(sha256Hex, lastProof, k)
    requires Blockchain.ValidProof(sha256Hex, lastProof, q)
    requires forall k :: 0 <= k < q ==> !Blockchain.ValidProof(sha256Hex, lastProof, k)
    ensures p == q
  {
  }

  /** The guess is the two decimal texts run together, so pairs of proofs whose
      texts concatenate to the same string are accepted or refused together:
      (12, 3) and (1, 23) both hash "123". */
  lemma ProofTextCollision(sha256Hex: string -> string)
    ensures Blockchain.ValidProof(sha256Hex, 12, 3) == Blockchain.ValidProof(sha256Hex, 1, 23)
  {
    assert Decimal.NatToDecimal(12) == Decimal.NatToDecimal(1) + [Decimal.DigitChar(2)] == "12";
    assert Decimal.NatToDecimal(23) == Decimal.NatToDecimal(2) + [Decimal.DigitChar(3)] == "23";
    assert Decimal.IntToDecimal(12) + Decimal.IntToDecimal(3) == "123";
    assert Decimal.IntToDecimal(1) + Decimal.IntToDecimal(23) == "123";
  }
}

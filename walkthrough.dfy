/**
 * The walkthrough's ledger: the same Blockchain class, except that
 * `new_block` falls back to the hash of the last block whenever the previous
 * hash it is given is falsy, and the scripted run that builds three blocks.
 */
module Walkthrough {
  import opened Chain

  /** Python truthiness of the `previous_hash` argument: None and the empty
      string are false. */
  predicate Falsy(previousHash: Option<string>)
  {
    previousHash.None? || previousHash.value == ""
  }

  /** `previous_hash or self.hash(self.chain[-1])`: what the new block stores.
      It is never None, and it is either the argument or the last block's hash. */
  function StoredPreviousHash(h: Hasher, last: Block, previousHash: Option<string>): (r: Option<string>)
    ensures r.Some?
    ensures r == previousHash || r == Some(BlockHash(h, last))
    ensures Falsy(previousHash) ==> r.value == BlockHash(h, last)
    ensures !Falsy(previousHash) ==> r == previousHash
  {
    if Falsy(previousHash) then Some(BlockHash(h, last)) else previousHash
  }

  class Blockchain {
    const hasher: Hasher
    var chain: seq<Block>
    var pendingTransactions: seq<Transaction>

    function State(): Ledger
      reads this
    {
      Ledger(chain, pendingTransactions)
    }

    ghost predicate Valid()
      reads this
    {
      WellFormed(State())
    }

    /** A chain holding only the genesis block, and an empty pool. */
    constructor (hasher: Hasher, now: Timestamp)
      ensures Valid() && this.hasher == hasher
      ensures State() == Initial(now)
      ensures chain == [Block(1, now, [], GenesisProof, Some(GenesisPreviousHash))]
      ensures pendingTransactions == []
      ensures HashChained(hasher, chain)
    {
      this.hasher := hasher;
      // `__init__` calls `new_block` on the empty chain with the sentinel and
      // proof 100; the sentinel is truthy, so the fallback (which would need a
      // last block) is not taken and exactly this block is appended.
      chain := [GenesisBlock(now)];
      pendingTransactions := [];
    }

    /** Appends a block holding the whole pool and empties the pool; a falsy
        previous hash is replaced by the hash of the block that was last. */
    method NewBlock(proof: int, previousHash: Option<string>, now: Timestamp) returns (block: Block)
      requires Valid()
      modifies this
      ensures Valid()
      ensures block == Block(|old(chain)| + 1, now, old(pendingTransactions), proof,
                             StoredPreviousHash(hasher, old(LastBlock()), previousHash))
      ensures State() == Forged(old(State()), proof, block.previousHash, now)
      ensures chain == old(chain) + [block] && pendingTransactions == []
      ensures Falsy(previousHash) && HashChained(hasher, old(chain)) ==> HashChained(hasher, chain)
    {
      var stored := StoredPreviousHash(hasher, LastBlock(), previousHash);
      block := Block(|chain| + 1, now, pendingTransactions, proof, stored);
      pendingTransactions := [];
      chain := chain + [block];
    }

    /** The most recent block; its index is the length of the chain. */
    function LastBlock(): (b: Block)
      reads this
      requires Valid()
      ensures b.index == |chain| && b in chain
    {
      chain[|chain| - 1]
    }

    /** Adds a transaction to the end of the pool and returns the index of the
        block that will hold it. */
    method NewTransaction(sender: string, recipient: string, amount: Amount) returns (index: int)
      requires Valid()
      modifies this
      ensures Valid()
      ensures State() == Submitted(old(State()), Transaction(sender, recipient, amount))
      ensures chain == old(chain)
      ensures pendingTransactions == old(pendingTransactions) + [Transaction(sender, recipient, amount)]
      ensures index == LastBlock().index + 1 == |chain| + 1
    {
      pendingTransactions := pendingTransactions + [Transaction(sender, recipient, amount)];
      index := LastBlock().index + 1;
    }
  }

  /** One call a client makes on the ledger. */
  datatype Call =
    | SubmitTransaction(sender: string, recipient: string, amount: Amount)
    | CreateBlock(proof: int, previousHash: Option<string>, now: Timestamp)

  /** The effect of one call on the ledger's state. */
  function Apply(h: Hasher, l: Ledger, c: Call): Ledger
    requires |l.chain| > 0
  {
    match c
    case SubmitTransaction(s, r, a) => Submitted(l, Transaction(s, r, a))
    case CreateBlock(p, prev, now) => Forged(l, p, StoredPreviousHash(h, LastBlock(l), prev), now)
  }

  /** The state after a sequence of calls: it stays well formed, and the chain
      only grows, never changing a block already in it. */
  function Run(h: Hasher, l: Ledger, calls: seq<Call>): (r: Ledger)
    requires WellFormed(l)
    ensures WellFormed(r)
    ensures l.chain <= r.chain
    ensures |r.chain| == |l.chain| + CountBlocks(calls)
    decreases |calls|
  {
    if calls == [] then l else Run(h, Apply(h, l, calls[0]), calls[1..])
  }

  /** How many of the calls create a block. */
  function CountBlocks(calls: seq<Call>): nat
    decreases |calls|
  {
    if calls == [] then 0 else (if calls[0].CreateBlock? then 1 else 0) + CountBlocks(calls[1..])
  }

  /** No block-creating call passes a truthy previous hash. */
  predicate DefaultHashesOnly(calls: seq<Call>)
  {
    forall i :: 0 <= i < |calls| && calls[i].CreateBlock? ==> Falsy(calls[i].previousHash)
  }

  /** If every block is created without an explicit previous hash, each block
      after the first records the hash of the one before it. */
  lemma {:induction false} RunKeepsHashChain(h: Hasher, l: Ledger, calls: seq<Call>)
    requires WellFormed(l) && HashChained(h, l.chain) && DefaultHashesOnly(calls)
    ensures HashChained(h, Run(h, l, calls).chain)
    decreases |calls|
  {
    if calls != [] {
      var next := Apply(h, l, calls[0]);
      if calls[0].CreateBlock? {
        assert Falsy(calls[0].previousHash);
        ForgedKeepsHashChain(h, l, calls[0].proof, calls[0].now);
      }
      assert DefaultHashesOnly(calls[1..]) by {
        forall i | 0 <= i < |calls[1..]| && calls[1..][i].CreateBlock?
          ensures Falsy(calls[1..][i].previousHash)
        {
          assert calls[1..][i] == calls[i + 1];
        }
      }
      RunKeepsHashChain(h, next, calls[1..]);
    }
  }

  /** From construction on: the chain is hash-linked after any such run. */
  lemma FreshLedgerHashChain(h: Hasher, now: Timestamp, calls: seq<Call>)
    requires DefaultHashesOnly(calls)
    ensures HashChained(h, Run(h, Initial(now), calls).chain)
  {
    RunKeepsHashChain(h, Initial(now), calls);
  }

  /** The module's script: three Satoshi/Mike/Hal transfers go into block 2
      with proof 12345, three Mike/Alice/Bob transfers into block 3 with proof
      6789. The three timestamps are the clock readings of the three blocks. */
  method Script(hasher: Hasher, now1: Timestamp, now2: Timestamp, now3: Timestamp)
    returns (blockchain: Blockchain, t1: int, t2: int, t3: int, t4: int, t5: int, t6: int)
    ensures blockchain.Valid() && |blockchain.chain| == 3
    ensures blockchain.chain[0] == GenesisBlock(now1)
    ensures blockchain.chain[1].transactions == [
              Transaction("Satoshi", "Mike", AStr("5 BTC")),
              Transaction("Mike", "Satoshi", AStr("1 BTC")),
              Transaction("Satoshi", "Hal Finney", AStr("5 BTC"))]
    ensures blockchain.chain[1].proof == 12345 && blockchain.chain[1].timestamp == now2
    ensures blockchain.chain[2].transactions == [
              Transaction("Mike", "Alice", AStr("1 BTC")),
              Transaction("Alice", "Bob", AStr("0.5 BTC")),
              Transaction("Bob", "Mike", AStr("0.5 BTC"))]
    ensures blockchain.chain[2].proof == 6789 && blockchain.chain[2].timestamp == now3
    ensures HashChained(hasher, blockchain.chain)
    ensures blockchain.pendingTransactions == []
    ensures t1 == t2 == t3 == 2 && t4 == t5 == t6 == 3
  {
    blockchain := new Blockchain(hasher, now1);
    t1 := blockchain.NewTransaction("Satoshi", "Mike", AStr("5 BTC"));
    t2 := blockchain.NewTransaction("Mike", "Satoshi", AStr("1 BTC"));
    t3 := blockchain.NewTransaction("Satoshi", "Hal Finney", AStr("5 BTC"));
    var block2 := blockchain.NewBlock(12345, None, now2);

    t4 := blockchain.NewTransaction("Mike", "Alice", AStr("1 BTC"));
    t5 := blockchain.NewTransaction("Alice", "Bob", AStr("0.5 BTC"));
    t6 := blockchain.NewTransaction("Bob", "Mike", AStr("0.5 BTC"));
    var block3 := blockchain.NewBlock(6789, None, now3);
  }
}

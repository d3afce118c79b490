# Blockchain walkthrough: a verified model of the ledger engine

This project models the ledger engine of a small single-process blockchain.
The engine is an append-only chain of blocks plus a pending-transaction pool,
and it appears as two near-identical `Blockchain` classes:

- `blockchain.py` belongs to the mining node. Its class has a proof-of-work
  puzzle (`valid_proof`) and its search (`proof_of_work`). The `/mine`
  request handler runs the ledger steps of mining: search, reward the miner,
  hash the previous block, create the block. Its `new_block` stores the
  `previous_hash` argument exactly as given.
- `walkthrough.py` is a teaching script. Its `new_block` falls back to the
  hash of the last block whenever `previous_hash` is falsy. A short script at
  the end of the file builds two blocks on top of the genesis block.

Block creation with a fallback to the last block's hash is the design of
the walkthrough only. The mining node's `new_block` has that fallback
commented out, so there a missing previous hash is stored as None. Each
class follows its own file. The mining node never notices the difference,
because `mine()` always passes the hash.

Modules:

- `Chain` (chain.dfy) is the shared data model. It holds `Transaction`,
  `Block`, `Amount` (an integer or a string), the genesis constants and the
  canonical `BlockHash`. It also holds the pure state transitions `Submitted`
  and `Forged` that both classes are specified by, and the invariants
  `WellFormed` and `HashChained`.
- `Decimal` (decimal.dfy) models Python's decimal rendering `f'{n}'` of an
  integer, which the puzzle hashes. It comes with a parser and a round-trip
  proof.
- `Mining` (blockchain.dfy) has the mining node's `Blockchain` class and the
  module-level `Mine`.
- `Walkthrough` (walkthrough.py's model, walkthrough.dfy) has the walkthrough's
  `Blockchain` class and a pure trace of calls, `Run`, over which hash
  chaining is proved. `Script` is the scripted scenario.

Both classes keep `Valid()`: the chain is non-empty, starts with the genesis
block (index 1, proof 100, the sentinel previous hash, no transactions), and
block `i` (0-based) has index `i + 1`. Every mutating method is specified by a
pure transition of `Chain` (`State() == Forged(old(State()), ...)`), so the
lemmas about the transitions apply to the objects.

The hashing primitives (`json.dumps(..., sort_keys=True)` and SHA-256 hex
digest) are the two fields of a `Hasher`. Each field is an arbitrary total
function, passed to the constructor. Every fact is proved for every hasher.
Determinism of `hash` is then a property of the model, not an assumption.
The clock reading `time()` is a `Timestamp` parameter of each block-creating
call, and the miner's node identifier is a string parameter of `Mine`.

## Model

| member | source | states |
|---|---|---|
| `Chain.Initial` | blockchain.py:9-13 | the state after construction is well formed: exactly one genesis block and an empty pool |
| `Chain.BlockHash` | blockchain.py:93-114 | the canonical hash: the digest of the block's sorted-key serialisation, both primitives taken from the `Hasher`; walkthrough.py:62-83 is the same function. Being a Dafny function, it is deterministic by construction |
| `Chain.HashDeterministic` | walkthrough.py:73-83 | documents that determinism: structurally equal blocks hash equally; it holds because `BlockHash` is a function, not by any property of the primitives |
| `Chain.SubmittedFacts` | blockchain.py:77-91 | adding a transaction keeps the invariant and the chain, keeps the earlier pool entries and puts the transaction last; last index + 1 equals chain length + 1 |
| `Chain.ForgedFacts` | blockchain.py:41-67 | creating a block keeps the invariant, leaves earlier blocks unchanged, makes the new block last with index = previous last index + 1 and the old pool as its transactions, and empties the pool |
| `Chain.ForgedKeepsHashChain` | walkthrough.py:28-31 | appending a block that records the hash of the current last block keeps every block linked to its predecessor |
| `Decimal.NatToDecimal` | blockchain.py:35 | the decimal text of a natural number is non-empty, all digits, and starts with '0' exactly when the number is 0 |
| `Decimal.IntToDecimal` | blockchain.py:35 | the decimal text of any integer is non-empty |
| `Decimal.NatRoundTrip` | blockchain.py:35 | parsing the decimal text of a natural number gives the number back |
| `Decimal.IntRoundTrip` | blockchain.py:35 | the text of any integer, with '-' for negatives, is well formed and parses back to the integer |
| `Decimal.IntToDecimalInjective` | blockchain.py:35 | distinct integers have distinct decimal texts |
| `Mining.Blockchain.constructor` | blockchain.py:9-16 | a chain of one genesis block (index 1, proof 100, the sentinel previous hash, no transactions) and an empty pool, trivially hash chained, so with `Mine` a chain built only by mining stays hash chained |
| `Mining.Blockchain.ValidProof` | blockchain.py:30-39 | the puzzle: the digest of the decimal text of the last proof followed by that of the candidate has "0000" as its first four characters (a digest shorter than four characters fails, as the slice comparison does); the search, `Mine` and `LeastProofUnique` are stated against it |
| `Mining.ProofTextCollision` | blockchain.py:35-39 | the puzzle sees only the concatenated text: proofs (12, 3) and (1, 23) are accepted or refused together, whatever the digest |
| `Mining.LeastProofUnique` | blockchain.py:18-39 | two proofs that are each accepted with no accepted candidate below them are equal: the search result is fixed by the seed |
| `Mining.Blockchain.ProofOfWork` | blockchain.py:18-28 | the returned proof is accepted by the puzzle and no smaller non-negative candidate is: it is the least solution |
| `Mining.Blockchain.NewBlock` | blockchain.py:41-67 | appends exactly one block with index = old length + 1, the old pool in order and the previous hash exactly as given (None stays None); empties the pool; keeps the invariant |
| `Mining.Blockchain.LastBlock` | blockchain.py:69-75 | the last block is in the chain and its index equals the chain's length |
| `Mining.Blockchain.NewTransaction` | blockchain.py:77-91 | appends the transaction at the end of the pool, leaves the chain alone, returns last index + 1 = chain length + 1 |
| `Mining.Mine` | blockchain.py:145-160 | appends one block with index = previous last index + 1, the least proof valid against the previous proof, the old pool followed by exactly one reward ("0", miner, 1), and the hash of the previous last block; empties the pool; keeps hash chaining |
| `Walkthrough.StoredPreviousHash` | walkthrough.py:28 | the stored previous hash is never None; it is the last block's hash whenever the argument is None or "", and the argument unchanged whenever it is truthy |
| `Walkthrough.Blockchain.constructor` | walkthrough.py:6-10 | a chain of one genesis block (index 1, proof 100, the sentinel previous hash, no transactions), an empty pool, trivially hash chained |
| `Walkthrough.Blockchain.NewBlock` | walkthrough.py:12-33 | appends exactly one block with index = old length + 1 and the old pool in order; a falsy previous hash is replaced by the last block's hash; empties the pool; keeps the invariant and, with a falsy argument, hash chaining |
| `Walkthrough.Blockchain.LastBlock` | walkthrough.py:37-43 | the last block is in the chain and its index equals the chain's length |
| `Walkthrough.Blockchain.NewTransaction` | walkthrough.py:45-60 | appends the transaction at the end of the pool, leaves the chain alone, returns last index + 1 = chain length + 1 |
| `Walkthrough.Run` | walkthrough.py:12-60 | any sequence of calls keeps the invariant, only extends the chain (earlier blocks unchanged), and adds one block per block-creating call |
| `Walkthrough.RunKeepsHashChain` | walkthrough.py:28-31 | if no block-creating call passes a truthy previous hash, a hash-chained ledger stays hash chained: every block after the first records the previous block's hash |
| `Walkthrough.FreshLedgerHashChain` | walkthrough.py:10-31 | starting from construction, any such sequence of calls yields a hash-chained chain |
| `Walkthrough.Script` | walkthrough.py:86-95 | the script ends with 3 blocks: block 2 holds the Satoshi/Mike/Hal transfers in order with proof 12345, block 3 the Mike/Alice/Bob transfers with proof 6789; t1..t3 are 2, t4..t6 are 3; the pool is empty and the chain is hash chained |

## Left out

- The Flask application, its routes and JSON responses (blockchain.py:132-194), including the missing-field check of `/transactions/new`: this is the HTTP layer. Only the ledger steps of `mine()` are modelled, as `Mining.Mine`.
- Node identifier generation with `uuid` (blockchain.py:134): `Mine` takes the identifier as a string.
- The internals of `json.dumps` and SHA-256 (blockchain.py:37, 104-112; walkthrough.py:73-81): they are the arbitrary functions of a `Hasher`. The text-to-bytes `.encode()` step is folded into them.
- The value of `time()` (blockchain.py:51; walkthrough.py:22): a float clock reading, given as a `Timestamp` parameter.
- `Mining.Blockchain.ProofOfWork`: takes a ghost witness `solution` that the puzzle accepts, because an unbounded search over an arbitrary digest cannot be shown to terminate. The model says nothing about a seed with no solution, where the source loops forever.
- `Mining.Mine`: requires the same witness for the last block's proof, for the same reason.
- The constructors build the genesis block directly rather than by calling `new_block` on the empty chain. The result is the same: in `walkthrough.py` the sentinel is truthy, so the fallback, which would read a last block, is never taken.
- Python's dynamic typing: a proof is an integer here, has to be one for `f'{n}'` to be the decimal text, and a previous hash is an optional string. `new_block` in the source accepts any value for either. Likewise a transaction's sender and recipient are strings and its amount an integer or a string (`Amount`), while `new_transaction` accepts any value, for example a JSON float such as `0.5` arriving through blockchain.py:180.
- The final `print` of the walkthrough script (walkthrough.py:97) and the commented-out code (blockchain.py:117-128).

# AVS registry chain caller: operator and quorum state at a block

This project models the stake and key aggregation of `AvsRegistryServiceChainCaller`
from eigensdk-rs (`crates/services/avsregistry/src/chaincaller.rs`) in Dafny and
proves what it computes. The aggregation runs in two stages.

- **Operator state builder** (`get_operators_avs_state_at_block`). It takes the
  per-quorum stake lists that the registry returns and folds them into a map from
  operator id to `OperatorAvsState`. It visits the lists quorum by quorum and entry by
  entry. On each entry it looks up the operator's public keys. On the first sighting
  of an operator it creates the operator's state, holding those keys and the queried
  block. It then sets the operator's stake for the current quorum, replacing any
  earlier value.
- **Quorum state aggregator** (`get_quorums_avs_state_at_block`). It builds the
  operator map, then reduces it once per requested quorum. The key accumulator starts
  at the G1 identity and the stake accumulator at zero. Every operator with non-zero
  stake in the quorum and keys on file adds its G1 key and its stake. The operators
  are visited in hash-map order.

Modelling choices:

- The collaborators are inputs. `lists` is what the stake reader returned.
- `resolve(k, id)` is the answer the operator info service gives to the k-th key
  lookup of the call, which looks up `id`. The source looks up the keys at every
  sighting, so "first sighting" is a real property and not an artefact of a pure
  resolver.
- G1 points are a type parameter `P`. Point addition and the identity are a
  `Monoid<P>`. Its commutative-monoid laws are a precondition (`IsCommutativeMonoid`),
  which the curve's group law meets.
- Stakes are `nat`. Operator ids are 32-byte sequences. Quorum numbers are bytes.
  Block numbers are `u32`.
- The builder and both aggregation loops are methods with `while` loops.
  - The builder is proved equal to `OperatorsAvsState`, a left fold over the
    request-order sequence of entries (`Sightings`).
  - The aggregation loop removes an arbitrarily chosen operator (`:|`) at each step,
    so its proof covers every iteration order. It is proved equal to
    `TotalStake` / `AggregateKey`, which are sums over the included operators.

Files:

- `group_sum.dfy`: sums in a commutative monoid, and independence from order.
- `types.dfy`: the value types.
- `chaincaller.dfy`: the builder, the aggregator and their properties.
- `examples_chaincaller.dfy`: concrete requests.

## Model

| member | source | states |
|---|---|---|
| `GroupSum.SumRemove` | crates/services/avsregistry/src/chaincaller.rs:83-98 | Given commutative, associative addition, any operator's contribution can be taken out of the sum first. This is what makes the result independent of the hash-map iteration order. |
| `GroupSum.AccumulateAnyOrder` | crates/services/avsregistry/src/chaincaller.rs:83-98 | Starting at the identity and adding a map's values one by one in ANY order that lists each key once gives the sum of the map. |
| `GroupSum.SumSingleton` | crates/services/avsregistry/src/chaincaller.rs:83-94 | Helper for the worked examples: a sum over a single operator is that operator's value. |
| `ChainCaller.SightingsMembership` | crates/services/avsregistry/src/chaincaller.rs:50-51 | The nested loops visit exactly the entries `lists[i][j]` of the requested quorums, each tagged with quorum `quorums[i]`. |
| `ChainCaller.SightingsAt` | crates/services/avsregistry/src/chaincaller.rs:50-51 | Entry j of the i-th requested quorum's list is visited right after the entries of all earlier quorums (request order). |
| `ChainCaller.FoldShape` | crates/services/avsregistry/src/chaincaller.rs:52-64 | The map's operators are exactly those sighted. Each state holds its own id and the queried block. Its `stake_per_quorum` has a key for exactly the quorums in whose lists the operator was sighted. |
| `ChainCaller.FoldLastWrite` | crates/services/avsregistry/src/chaincaller.rs:62-64 | The stake recorded for (operator, quorum) is that of the last sighting of the operator in that quorum's lists (`insert` overwrites). |
| `ChainCaller.FoldFirstSighting` | crates/services/avsregistry/src/chaincaller.rs:52-61 | An operator's keys are the answer to the lookup made at its first sighting. Later lookups are made but discarded (`or_insert_with`). |
| `ChainCaller.FoldStableResolver` | crates/services/avsregistry/src/chaincaller.rs:52-61 | If the info service answers the same for an operator every time, each operator's stored keys are that answer. |
| `ChainCaller.OperatorsAvsStateShape` | crates/services/avsregistry/src/chaincaller.rs:50-64 | The result's keys are exactly the ids in the requested quorums' lists. Every state holds the queried block. Operator `id` has a stake for quorum q iff `id` occurs in a list of a requested quorum numbered q. |
| `ChainCaller.ExtraListsIgnored` | crates/services/avsregistry/src/chaincaller.rs:46-51 | Lists beyond the number of requested quorums do not affect the result. |
| `ChainCaller.RecordQuorumEntries` | crates/services/avsregistry/src/chaincaller.rs:51-65 | The inner loop over one quorum's list extends the fold by exactly that list's entries, in order, and makes one key lookup per entry. |
| `ChainCaller.GetOperatorsAvsStateAtBlock` | crates/services/avsregistry/src/chaincaller.rs:33-69 | The nested loops compute the fold `OperatorsAvsState` of the request. Its keys are the ids in the requested lists, and each state holds its id and the queried block. It requires at least as many lists as quorums (fewer would index out of bounds at :51). |
| `ChainCaller.GetOperatorsAvsStateChecked` | crates/services/avsregistry/src/chaincaller.rs:46-48 | Corrected builder. It fails with `MalformedResponse` iff the list count differs from the quorum count, and otherwise returns the same map as the builder. |
| `ChainCaller.AggregateAnyOrder` | crates/services/avsregistry/src/chaincaller.rs:83-98 | Adding the operators that count to the identity and to zero, one by one in ANY order that lists each of them once, gives the quorum's aggregate key and total stake: the hash-map iteration order does not matter. |
| `ChainCaller.AggregateSplit` | crates/services/avsregistry/src/chaincaller.rs:85-97 | An operator with non-zero stake in q and keys on file adds exactly its G1 key to q's aggregate key and exactly its stake to q's total. One with zero stake or no keys changes neither. One with no entry for q also changes neither; that is the corrected behaviour, since the source panics there (:86). |
| `ChainCaller.AggregateQuorum` | crates/services/avsregistry/src/chaincaller.rs:83-98 | The inner loop, starting from the identity and zero and visiting operators in any order, returns `TotalStake` and `AggregateKey`. These are the sums of the stakes and keys of exactly the operators that count. An operator with no entry for q counts as having no stake; that is the corrected behaviour, since the source panics there (:86). |
| `ChainCaller.AggregateQuorums` | crates/services/avsregistry/src/chaincaller.rs:82-113 | The result has one entry per requested quorum number. Each holds that `quorum_num`, the queried block, that quorum's total stake and its aggregate key. It takes the corrected treatment of a missing entry (no stake); on the as-written path the precondition of `GetQuorumsAvsStateAtBlock` rules that case out. |
| `ChainCaller.StakeRecordedIff` | crates/services/avsregistry/src/chaincaller.rs:86 | Indexing `stake_per_quorum[q]` succeeds for every operator iff every operator of the request appears in some list of quorum q. |
| `ChainCaller.GetQuorumsAvsStateAtBlock` | crates/services/avsregistry/src/chaincaller.rs:71-114 | As written: builds the operator map, then gives each requested quorum its `quorum_num`, block, total stake and aggregate key over the built map. It requires the lists to cover the quorums (:51) and every operator to have an entry for every requested quorum, because the index at :86 panics otherwise. |
| `ChainCaller.GetQuorumsAvsStateChecked` | crates/services/avsregistry/src/chaincaller.rs:71-114 | Corrected aggregator. It fails with `MalformedResponse` iff the list count differs from the quorum count. Otherwise it returns the same per-quorum states with no precondition: an operator missing an entry for a quorum counts as having no stake there. |
| `ChainCallerExamples.TwoQuorumOperators` | crates/services/avsregistry/src/chaincaller.rs:50-66 | Quorums 0 and 1, with A:100 and B:0 in quorum 0 and A:50 in quorum 1. The operator map is A with stakes {0:100, 1:50} and B with {0:0}, both holding their keys and the block. |
| `ChainCallerExamples.MissingQuorumEntryPanics` | crates/services/avsregistry/src/chaincaller.rs:86 | On that request, operator B has no entry for quorum 1, so the source's index at :86 panics. |
| `ChainCallerExamples.TwoQuorumTotals` | crates/services/avsregistry/src/chaincaller.rs:82-98 | On that request, with a missing entry counted as no stake: quorum 0 totals 100 with key A (B's zero stake is skipped), and quorum 1 totals 50 with key A. |
| `ChainCallerExamples.ExtraListDropped` | crates/services/avsregistry/src/chaincaller.rs:46-51 | One quorum requested and two lists returned: the builder drops the second list and its operator without reporting anything. |
| `ChainCallerExamples.ExtraListChecked` | crates/services/avsregistry/src/chaincaller.rs:46-48 | The corrected builder reports that same response as `MalformedResponse`. |

## Left out

- The registry and info-service calls (chaincaller.rs:40-44, 116-126) are network calls. They become the inputs `lists` and `resolve`. The `unwrap`s at :44 and :121 are taken to succeed.
- The two-stage key lookup (id to address, address to keys) is folded into `resolve`. So is `get_operator_info`, which only delegates.
- BN254 arithmetic is not modelled. This covers field decoding (`Fq::new`, `G1Affine::new`), projective/affine conversion and `convert_to_g1_point(..).unwrap()` (:88-94, :99). Points are an abstract `P` with an addition obeying the commutative-monoid laws, and decoding and re-encoding are taken to be lossless.
- `OperatorPubKeys` has only its G1 key here. The G2 key is never read by this code.
- AggregateQuorum: an operator with no stake entry for the quorum is treated as having no stake. This is the corrected behaviour; the source's index at chaincaller.rs:86 panics there. `AggregateSplit`, `AggregateQuorums` and `GetQuorumsAvsStateChecked` share this treatment. The as-written path, `GetQuorumsAvsStateAtBlock`, excludes the case only through its precondition.
- AggregateQuorum: stake sums are unbounded naturals. The 256-bit width of `U256`, and what happens on overflow, are not modelled.
- `new` and `get_avs_registry` (:19-31) are a constructor and a clone, so they are left out.
- Hash-map layout is not modelled. `HashMap` is a Dafny `map`. Its iteration order appears only as the arbitrary choice in `AggregateQuorum`.
- Concurrency and async scheduling are not modelled. The source awaits each call in turn, so the model is sequential.
- The types in `eigen_types::operator` are not part of this model's sources. Their fields follow how `chaincaller.rs` uses them.
- Keys are looked up at every sighting, not once per operator, and operators are visited in hash-map order. The model follows the code. The ignored count mismatch and the panic on a missing quorum entry are recorded under Findings.

## Findings

| source | as written | input that shows it | evidently intended | confidence | as-written member | corrected member |
|---|---|---|---|---|---|---|
| crates/services/avsregistry/src/chaincaller.rs:46-48 | The list-count check has an empty branch. Extra lists are silently ignored, and too few lists index out of bounds at :51. | quorums `[0]`, lists `[[A:100], [B:7]]`: the map holds only A and no error is raised | report the mismatch as an error | high; not executed | `ChainCallerExamples.ExtraListDropped` | `ChainCaller.GetOperatorsAvsStateChecked` |
| crates/services/avsregistry/src/chaincaller.rs:86 | `stake_per_quorum[quorum_num]` panics for any operator without an entry for a requested quorum, that is, any operator not listed in every requested quorum. | quorums `[0, 1]`, lists `[[A:100, B:0], [A:50]]`: B has no entry for quorum 1 | an operator with no entry for the quorum contributes nothing, like zero stake | high; not executed | `ChainCallerExamples.MissingQuorumEntryPanics` | `ChainCaller.GetQuorumsAvsStateChecked` |

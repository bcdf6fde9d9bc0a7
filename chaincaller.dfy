/**
 * The AVS registry service chain caller: builds every operator's state at a
 * block from the per-quorum stake lists, then reduces it to one state per
 * quorum (total stake and aggregate G1 public key).
 *
 * The collaborators are inputs: `lists` is what the stake reader returned for
 * the requested quorums (one list per quorum, in request order), and
 * `resolve(k, id)` is the answer the operator info service gives to the k-th
 * key lookup made during the call, which is a lookup of `id`.
 */
module ChainCaller {
  import opened Types
  import opened GroupSum

  datatype Error = MalformedResponse
  datatype Result<T> = Success(value: T) | Failure(error: Error)

  /** The answer to the k-th public-key lookup of a call, for a given operator. */
  type Resolver<P> = (nat, OperatorId) -> Option<OperatorPubKeys<P>>

  type OperatorMap<P> = map<OperatorId, OperatorAvsState<P>>

  /** A stake entry together with the quorum whose list holds it. */
  datatype Sighting = Sighting(quorumNum: QuorumNum, entry: StakeEntry)

  // ---------------------------------------------------------------------------
  // Request order: every stake entry of every requested quorum, quorum by
  // quorum, entry by entry, which is the order the nested loops visit them in.
  // ---------------------------------------------------------------------------

  /** The entries of one quorum's list, tagged with that quorum. */
  function SightingsOf(q: QuorumNum, entries: seq<StakeEntry>): (s: seq<Sighting>)
    ensures |s| == |entries|
    ensures forall j :: 0 <= j < |s| ==> s[j] == Sighting(q, entries[j])
  {
    if entries == [] then []
    else SightingsOf(q, entries[..|entries| - 1]) + [Sighting(q, entries[|entries| - 1])]
  }

  /** All entries of the lists of the requested quorums, in request order. */
  function Sightings(quorums: seq<QuorumNum>, lists: seq<seq<StakeEntry>>): seq<Sighting>
    requires |quorums| <= |lists|
  {
    if quorums == [] then []
    else Sightings(quorums[..|quorums| - 1], lists) + SightingsOf(quorums[|quorums| - 1], lists[|quorums| - 1])
  }

  /** The operator ids named in the lists of the requested quorums. */
  ghost function OperatorIds(quorums: seq<QuorumNum>, lists: seq<seq<StakeEntry>>): set<OperatorId>
    requires |quorums| <= |lists|
  {
    set i, j | 0 <= i < |quorums| && 0 <= j < |lists[i]| :: lists[i][j].operatorId
  }

  /** A sighting is exactly an entry of the list of a requested quorum. */
  lemma {:induction false} SightingsMembership(quorums: seq<QuorumNum>, lists: seq<seq<StakeEntry>>)
    requires |quorums| <= |lists|
    ensures forall x :: x in Sightings(quorums, lists) <==>
      exists i, j :: 0 <= i < |quorums| && 0 <= j < |lists[i]| && x == Sighting(quorums[i], lists[i][j])
  {
    if quorums != [] {
      var n := |quorums| - 1;
      var front := quorums[..n];
      SightingsMembership(front, lists);
      forall x ensures x in Sightings(quorums, lists) <==>
        exists i, j :: 0 <= i < |quorums| && 0 <= j < |lists[i]| && x == Sighting(quorums[i], lists[i][j])
      {
        var tail := SightingsOf(quorums[n], lists[n]);
        if x in Sightings(front, lists) {
          var i, j :| 0 <= i < |front| && 0 <= j < |lists[i]| && x == Sighting(front[i], lists[i][j]);
          assert x == Sighting(quorums[i], lists[i][j]);
        } else if x in tail {
          var j :| 0 <= j < |tail| && tail[j] == x;
          assert x == Sighting(quorums[n], lists[n][j]);
        }
        if exists i, j :: 0 <= i < |quorums| && 0 <= j < |lists[i]| && x == Sighting(quorums[i], lists[i][j]) {
          var i, j :| 0 <= i < |quorums| && 0 <= j < |lists[i]| && x == Sighting(quorums[i], lists[i][j]);
          if i < n {
            assert x == Sighting(front[i], lists[i][j]);
          } else {
            assert tail[j] == x;
          }
        }
      }
    }
  }

  /**
   * Where an entry sits in request order: entry j of the list of the i-th
   * requested quorum comes after every entry of the quorums before it.
   */
  lemma {:induction false} SightingsAt(quorums: seq<QuorumNum>, lists: seq<seq<StakeEntry>>, i: nat, j: nat)
    requires |quorums| <= |lists|
    requires i < |quorums| && j < |lists[i]|
    ensures |Sightings(quorums[..i], lists)| + j < |Sightings(quorums, lists)|
    ensures Sightings(quorums, lists)[|Sightings(quorums[..i], lists)| + j] == Sighting(quorums[i], lists[i][j])
  {
    var n := |quorums| - 1;
    var front := quorums[..n];
    if i == n {
      assert quorums[..i] == front;
    } else {
      SightingsAt(front, lists, i, j);
      assert front[..i] == quorums[..i];
    }
  }

  /** Lists beyond the requested quorums never enter the request order. */
  lemma {:induction false} SightingsIgnoreExtraLists(quorums: seq<QuorumNum>, lists: seq<seq<StakeEntry>>, lists': seq<seq<StakeEntry>>)
    requires |quorums| <= |lists| && |quorums| <= |lists'|
    requires lists[..|quorums|] == lists'[..|quorums|]
    ensures Sightings(quorums, lists) == Sightings(quorums, lists')
  {
    if quorums != [] {
      var n := |quorums| - 1;
      assert lists[n] == lists[..|quorums|][n] == lists'[n];
      assert lists[..n] == lists[..|quorums|][..n];
      assert lists'[..n] == lists'[..|quorums|][..n];
      SightingsIgnoreExtraLists(quorums[..n], lists, lists');
    }
  }

  // ---------------------------------------------------------------------------
  // Operator state builder (get_operators_avs_state_at_block)
  // ---------------------------------------------------------------------------

  /**
   * One step of the builder: on first sight of the operator create its state
   * with the keys just looked up and the queried block; then set the stake
   * for the sighting's quorum, replacing any earlier one.
   */
  function Record<P>(m: OperatorMap<P>, x: Sighting, keys: Option<OperatorPubKeys<P>>, block: u32): OperatorMap<P>
  {
    var id := x.entry.operatorId;
    var st := if id in m then m[id] else OperatorAvsState(id, OperatorInfo(keys), map[], block);
    m[id := st.(stakePerQuorum := st.stakePerQuorum[x.quorumNum := x.entry.stake])]
  }

  /** The builder's map after the sightings `s`; the k-th one makes the k-th key lookup. */
  function Fold<P>(s: seq<Sighting>, block: u32, resolve: Resolver<P>): OperatorMap<P>
  {
    if s == [] then map[]
    else
      var n := |s| - 1;
      Record(Fold(s[..n], block, resolve), s[n], resolve(n, s[n].entry.operatorId), block)
  }

  /** The builder's result for the requested quorums. */
  function OperatorsAvsState<P>(quorums: seq<QuorumNum>, lists: seq<seq<StakeEntry>>, block: u32, resolve: Resolver<P>): OperatorMap<P>
    requires |quorums| <= |lists|
  {
    Fold(Sightings(quorums, lists), block, resolve)
  }

  /**
   * The operators in the map are exactly those sighted; each state carries
   * its own id and the queried block; an operator has a stake for exactly the
   * quorums in whose lists it was sighted.
   */
  lemma {:induction false} FoldShape<P>(s: seq<Sighting>, block: u32, resolve: Resolver<P>)
    ensures Fold(s, block, resolve).Keys == set x | x in s :: x.entry.operatorId
    ensures forall id :: id in Fold(s, block, resolve) ==>
      && Fold(s, block, resolve)[id].operatorId == id
      && Fold(s, block, resolve)[id].blockNum == block
      && Fold(s, block, resolve)[id].stakePerQuorum.Keys == set x | x in s && x.entry.operatorId == id :: x.quorumNum
  {
    if s != [] {
      var n := |s| - 1;
      var front := s[..n];
      assert s == front + [s[n]];
      FoldShape(front, block, resolve);
      var m := Fold(s, block, resolve);
      forall id | id in m
        ensures m[id].stakePerQuorum.Keys == set x | x in s && x.entry.operatorId == id :: x.quorumNum
      {
        var before := set x | x in front && x.entry.operatorId == id :: x.quorumNum;
        if id == s[n].entry.operatorId {
          assert (set x | x in s && x.entry.operatorId == id :: x.quorumNum) == before + {s[n].quorumNum};
        } else {
          assert (set x | x in s && x.entry.operatorId == id :: x.quorumNum) == before;
        }
      }
    }
  }

  /**
   * Last write wins: the stake recorded for an operator in a quorum is the
   * one of the last sighting of that operator in that quorum's lists.
   */
  lemma {:induction false} FoldLastWrite<P>(s: seq<Sighting>, block: u32, resolve: Resolver<P>, k: nat)
    requires k < |s|
    requires forall k' :: k < k' < |s| ==>
      s[k'].entry.operatorId != s[k].entry.operatorId || s[k'].quorumNum != s[k].quorumNum
    ensures s[k].entry.operatorId in Fold(s, block, resolve)
    ensures s[k].quorumNum in Fold(s, block, resolve)[s[k].entry.operatorId].stakePerQuorum
    ensures Fold(s, block, resolve)[s[k].entry.operatorId].stakePerQuorum[s[k].quorumNum] == s[k].entry.stake
  {
    var n := |s| - 1;
    if k < n {
      var front := s[..n];
      FoldLastWrite(front, block, resolve, k);
    }
  }

  /**
   * First sighting decides the keys: an operator's keys are the answer to the
   * lookup made at its first sighting; later lookups are discarded.
   */
  lemma {:induction false} FoldFirstSighting<P>(s: seq<Sighting>, block: u32, resolve: Resolver<P>, k: nat)
    requires k < |s|
    requires forall k' :: 0 <= k' < k ==> s[k'].entry.operatorId != s[k].entry.operatorId
    ensures s[k].entry.operatorId in Fold(s, block, resolve)
    ensures Fold(s, block, resolve)[s[k].entry.operatorId].operatorInfo.pubKeys == resolve(k, s[k].entry.operatorId)
  {
    var n := |s| - 1;
    var front := s[..n];
    if k == n {
      FoldShape(front, block, resolve);
      assert s[k].entry.operatorId !in Fold(front, block, resolve);
    } else {
      FoldFirstSighting(front, block, resolve, k);
    }
  }

  /**
   * When the info service answers the same for an operator every time, the
   * keys stored for each operator are that answer.
   */
  lemma {:induction false} FoldStableResolver<P>(s: seq<Sighting>, block: u32, resolve: Resolver<P>)
    requires forall k: nat, k': nat, id :: resolve(k, id) == resolve(k', id)
    ensures forall id :: id in Fold(s, block, resolve) ==> Fold(s, block, resolve)[id].operatorInfo.pubKeys == resolve(0, id)
  {
    if s != [] {
      FoldStableResolver(s[..|s| - 1], block, resolve);
    }
  }

  /**
   * The builder's map, in terms of the request: its operators are exactly the
   * ids in the requested quorums' lists, each state carries the queried block,
   * and an operator has a stake for quorum q exactly when it is in one of q's lists.
   */
  lemma OperatorsAvsStateShape<P>(quorums: seq<QuorumNum>, lists: seq<seq<StakeEntry>>, block: u32, resolve: Resolver<P>)
    requires |quorums| <= |lists|
    ensures OperatorsAvsState(quorums, lists, block, resolve).Keys == OperatorIds(quorums, lists)
    ensures forall id :: id in OperatorsAvsState(quorums, lists, block, resolve) ==>
      && OperatorsAvsState(quorums, lists, block, resolve)[id].operatorId == id
      && OperatorsAvsState(quorums, lists, block, resolve)[id].blockNum == block
    ensures forall id, q :: id in OperatorsAvsState(quorums, lists, block, resolve) ==>
      (q in OperatorsAvsState(quorums, lists, block, resolve)[id].stakePerQuorum <==>
          exists i, j :: 0 <= i < |quorums| && 0 <= j < |lists[i]| && quorums[i] == q && lists[i][j].operatorId == id)
  {
    var s := Sightings(quorums, lists);
    FoldShape(s, block, resolve);
    SightingsMembership(quorums, lists);
    var m := OperatorsAvsState(quorums, lists, block, resolve);
    forall id | id in OperatorIds(quorums, lists) ensures id in m {
      var i, j :| 0 <= i < |quorums| && 0 <= j < |lists[i]| && lists[i][j].operatorId == id;
      assert Sighting(quorums[i], lists[i][j]) in s;
    }
    forall id | id in m ensures id in OperatorIds(quorums, lists) {
      var x :| x in s && x.entry.operatorId == id;
      var i, j :| 0 <= i < |quorums| && 0 <= j < |lists[i]| && x == Sighting(quorums[i], lists[i][j]);
    }
    forall id, q | id in m
      ensures q in m[id].stakePerQuorum <==>
        exists i, j :: 0 <= i < |quorums| && 0 <= j < |lists[i]| && quorums[i] == q && lists[i][j].operatorId == id
    {
      if q in m[id].stakePerQuorum {
        var x :| x in s && x.entry.operatorId == id && x.quorumNum == q;
        var i, j :| 0 <= i < |quorums| && 0 <= j < |lists[i]| && x == Sighting(quorums[i], lists[i][j]);
      }
      if exists i, j :: 0 <= i < |quorums| && 0 <= j < |lists[i]| && quorums[i] == q && lists[i][j].operatorId == id {
        var i, j :| 0 <= i < |quorums| && 0 <= j < |lists[i]| && quorums[i] == q && lists[i][j].operatorId == id;
        assert Sighting(quorums[i], lists[i][j]) in s;
      }
    }
  }

  /** Lists beyond the requested quorums are ignored without any error. */
  lemma ExtraListsIgnored<P>(quorums: seq<QuorumNum>, lists: seq<seq<StakeEntry>>, block: u32, resolve: Resolver<P>)
    requires |quorums| <= |lists|
    ensures OperatorsAvsState(quorums, lists, block, resolve) == OperatorsAvsState(quorums, lists[..|quorums|], block, resolve)
  {
    assert lists[..|quorums|][..|quorums|] == lists[..|quorums|];
    SightingsIgnoreExtraLists(quorums, lists, lists[..|quorums|]);
  }

  /** One more entry of the current quorum's list is one more step of the fold. */
  lemma FoldEntryStep<P>(done: seq<Sighting>, q: QuorumNum, entries: seq<StakeEntry>, j: nat, block: u32, resolve: Resolver<P>)
    requires j < |entries|
    ensures Fold(done + SightingsOf(q, entries[..j + 1]), block, resolve)
      == Record(Fold(done + SightingsOf(q, entries[..j]), block, resolve), Sighting(q, entries[j]),
                resolve(|done| + j, entries[j].operatorId), block)
  {
    var s := done + SightingsOf(q, entries[..j]);
    assert entries[..j + 1][..j] == entries[..j];
    assert done + SightingsOf(q, entries[..j + 1]) == s + [Sighting(q, entries[j])];
    assert (s + [Sighting(q, entries[j])])[..|s|] == s;
  }

  /** One more requested quorum appends its list to the request order. */
  lemma SightingsStep(quorums: seq<QuorumNum>, lists: seq<seq<StakeEntry>>, i: nat)
    requires |quorums| <= |lists| && i < |quorums|
    ensures Sightings(quorums[..i + 1], lists) == Sightings(quorums[..i], lists) + SightingsOf(quorums[i], lists[i])
  {
    assert quorums[..i + 1][..i] == quorums[..i];
  }

  /**
   * The inner loop of the builder, over the list of one requested quorum q:
   * for each entry, look up the operator's keys (the k-th lookup of the call),
   * create its state on first sight and set its stake for q.
   */
  method RecordQuorumEntries<P>(r0: OperatorMap<P>, ghost done: seq<Sighting>, q: QuorumNum, entries: seq<StakeEntry>,
                                k0: nat, block: u32, resolve: Resolver<P>)
    returns (r: OperatorMap<P>, k: nat)
    requires k0 == |done| && r0 == Fold(done, block, resolve)
    ensures k == |done| + |entries|
    ensures r == Fold(done + SightingsOf(q, entries), block, resolve)
  {
    r, k := r0, k0;
    var j := 0;
    assert done + SightingsOf(q, entries[..j]) == done;
    while j < |entries|
      invariant 0 <= j <= |entries|
      invariant k == |done| + j
      invariant r == Fold(done + SightingsOf(q, entries[..j]), block, resolve)
    {
      var e := entries[j];
      var keys := resolve(k, e.operatorId);
      // entry(..).or_insert_with(..): the existing state, or a fresh one
      var st := if e.operatorId in r then r[e.operatorId]
                else OperatorAvsState(e.operatorId, OperatorInfo(keys), map[], block);
      FoldEntryStep(done, q, entries, j, block, resolve);
      r := r[e.operatorId := st.(stakePerQuorum := st.stakePerQuorum[q := e.stake])];
      j := j + 1;
      k := k + 1;
    }
    assert entries[..j] == entries;
  }

  /**
   * Builds the operator map with the source's nested loops: for each requested
   * quorum, record every entry of its list. A list count other than the
   * quorum count is not reported; fewer lists than quorums would index out of
   * bounds, hence the precondition.
   */
  method GetOperatorsAvsStateAtBlock<P>(block: u32, quorums: seq<QuorumNum>, lists: seq<seq<StakeEntry>>, resolve: Resolver<P>)
    returns (r: OperatorMap<P>)
    requires |quorums| <= |lists|
    ensures r == OperatorsAvsState(quorums, lists, block, resolve)
    ensures r.Keys == OperatorIds(quorums, lists)
    ensures forall id :: id in r ==> r[id].operatorId == id && r[id].blockNum == block
  {
    r := map[];
    var k := 0;  // key lookups made so far
    var i := 0;
    while i < |quorums|
      invariant 0 <= i <= |quorums|
      invariant k == |Sightings(quorums[..i], lists)|
      invariant r == Fold(Sightings(quorums[..i], lists), block, resolve)
    {
      r, k := RecordQuorumEntries(r, Sightings(quorums[..i], lists), quorums[i], lists[i], k, block, resolve);
      SightingsStep(quorums, lists, i);
      i := i + 1;
    }
    assert quorums[..i] == quorums;
    OperatorsAvsStateShape(quorums, lists, block, resolve);
  }

  /**
   * The builder with the list-count check the source leaves empty: a count
   * other than the number of requested quorums is a malformed response.
   */
  method GetOperatorsAvsStateChecked<P>(block: u32, quorums: seq<QuorumNum>, lists: seq<seq<StakeEntry>>, resolve: Resolver<P>)
    returns (r: Result<OperatorMap<P>>)
    ensures r.Failure? <==> |lists| != |quorums|
    ensures r.Failure? ==> r.error == MalformedResponse
    ensures r.Success? ==> r.value == OperatorsAvsState(quorums, lists, block, resolve)
  {
    if |lists| != |quorums| {
      return Failure(MalformedResponse);
    }
    var ops := GetOperatorsAvsStateAtBlock(block, quorums, lists, resolve);
    return Success(ops);
  }

  // ---------------------------------------------------------------------------
  // Quorum state aggregator (get_quorums_avs_state_at_block)
  // ---------------------------------------------------------------------------

  /**
   * An operator counts towards quorum q: non-zero stake in q and keys on file.
   * An operator with no stake entry for q does not count. That is the corrected
   * behaviour: the source indexes the entry and panics when it is missing, and
   * `GetQuorumsAvsStateAtBlock` keeps that case out through its precondition.
   */
  predicate Included<P>(op: OperatorAvsState<P>, q: QuorumNum)
  {
    q in op.stakePerQuorum && op.stakePerQuorum[q] != 0 && op.operatorInfo.pubKeys.Some?
  }

  /** The G1 keys of the operators that count towards quorum q. */
  function IncludedKeys<P>(ops: OperatorMap<P>, q: QuorumNum): map<OperatorId, P>
  {
    map id | id in ops && Included(ops[id], q) :: ops[id].operatorInfo.pubKeys.value.g1PubKey
  }

  /** The stakes in quorum q of the operators that count towards it. */
  function IncludedStakes<P>(ops: OperatorMap<P>, q: QuorumNum): map<OperatorId, nat>
  {
    map id | id in ops && Included(ops[id], q) :: ops[id].stakePerQuorum[q]
  }

  /** Quorum q's aggregate key: the sum of the keys of the operators that count. */
  ghost function AggregateKey<P>(g: Monoid<P>, ops: OperatorMap<P>, q: QuorumNum): P
  {
    Sum(g, IncludedKeys(ops, q))
  }

  /** Quorum q's total stake: the sum of the stakes of the operators that count. */
  ghost function TotalStake<P>(ops: OperatorMap<P>, q: QuorumNum): nat
  {
    Sum(NatAddition(), IncludedStakes(ops, q))
  }

  /**
   * Each operator's part in a quorum's totals: one that counts adds exactly its
   * key and its stake; one with zero stake, no stake entry or no keys adds nothing.
   */
  lemma AggregateSplit<P(!new)>(g: Monoid<P>, ops: OperatorMap<P>, q: QuorumNum, id: OperatorId)
    requires IsCommutativeMonoid(g)
    requires id in ops
    ensures Included(ops[id], q) ==>
      && AggregateKey(g, ops, q) == g.add(ops[id].operatorInfo.pubKeys.value.g1PubKey, AggregateKey(g, ops - {id}, q))
      && TotalStake(ops, q) == ops[id].stakePerQuorum[q] + TotalStake(ops - {id}, q)
    ensures !Included(ops[id], q) ==>
      && AggregateKey(g, ops, q) == AggregateKey(g, ops - {id}, q)
      && TotalStake(ops, q) == TotalStake(ops - {id}, q)
  {
    var keys, stakes := IncludedKeys(ops, q), IncludedStakes(ops, q);
    if Included(ops[id], q) {
      assert IncludedKeys(ops - {id}, q) == keys - {id};
      assert IncludedStakes(ops - {id}, q) == stakes - {id};
      SumRemove(g, keys, id);
      SumRemove(NatAddition(), stakes, id);
    } else {
      assert IncludedKeys(ops - {id}, q) == keys;
      assert IncludedStakes(ops - {id}, q) == stakes;
    }
  }

  /**
   * The inner loop: start the key at the identity and the stake at zero and
   * add in every operator that counts, taking the operators in an arbitrary
   * order (the source iterates a hash map). Whatever the order, the result is
   * the quorum's total stake and aggregate key. A missing stake entry is taken
   * as no stake (see `Included`).
   */
  method AggregateQuorum<P(!new)>(g: Monoid<P>, ops: OperatorMap<P>, q: QuorumNum) returns (totalStake: nat, aggKey: P)
    requires IsCommutativeMonoid(g)
    ensures totalStake == TotalStake(ops, q)
    ensures aggKey == AggregateKey(g, ops, q)
  {
    aggKey := g.identity;
    totalStake := 0;
    var rest := ops;
    assert IdentityAt(g, AggregateKey(g, ops, q));
    while rest != map[]
      invariant g.add(aggKey, AggregateKey(g, rest, q)) == AggregateKey(g, ops, q)
      invariant totalStake + TotalStake(rest, q) == TotalStake(ops, q)
      decreases rest.Keys
    {
      var id :| id in rest;
      var op := rest[id];
      AggregateSplit(g, rest, q, id);
      if q in op.stakePerQuorum && op.stakePerQuorum[q] != 0 {
        if op.operatorInfo.pubKeys.Some? {
          var key := op.operatorInfo.pubKeys.value.g1PubKey;
          assert AssociatesAt(g, aggKey, key, AggregateKey(g, rest - {id}, q));
          aggKey := g.add(aggKey, key);
          totalStake := totalStake + op.stakePerQuorum[q];
        }
      }
      rest := rest - {id};
    }
    assert IncludedKeys(rest, q) == map[] && IncludedStakes(rest, q) == map[];
    assert CommutesAt(g, aggKey, g.identity) && IdentityAt(g, aggKey);
  }

  /**
   * Iteration order does not matter: adding the operators that count to the
   * identity and to zero, one after the other in any order that lists each of
   * them once, gives the quorum's aggregate key and total stake.
   */
  lemma AggregateAnyOrder<P(!new)>(g: Monoid<P>, ops: OperatorMap<P>, q: QuorumNum, order: seq<OperatorId>)
    requires IsCommutativeMonoid(g)
    requires forall i, j :: 0 <= i < j < |order| ==> order[i] != order[j]
    requires forall id :: id in IncludedKeys(ops, q) <==> id in order
    ensures Accumulate(g, IncludedKeys(ops, q), order) == AggregateKey(g, ops, q)
    ensures Accumulate(NatAddition(), IncludedStakes(ops, q), order) == TotalStake(ops, q)
  {
    AccumulateAnyOrder(g, IncludedKeys(ops, q), order);
    AccumulateAnyOrder(NatAddition(), IncludedStakes(ops, q), order);
  }

  /** The outer loop: one quorum state per requested quorum. */
  method AggregateQuorums<P(!new)>(g: Monoid<P>, ops: OperatorMap<P>, quorums: seq<QuorumNum>, block: u32)
    returns (r: map<QuorumNum, QuorumAvsState<P>>)
    requires IsCommutativeMonoid(g)
    ensures r.Keys == set q | q in quorums
    ensures forall q :: q in r ==>
      && r[q].quorumNum == q
      && r[q].blockNum == block
      && r[q].totalStake == TotalStake(ops, q)
      && r[q].aggPubKeyG1 == AggregateKey(g, ops, q)
  {
    r := map[];
    var i := 0;
    while i < |quorums|
      invariant 0 <= i <= |quorums|
      invariant r.Keys == set q | q in quorums[..i]
      invariant forall q :: q in r ==>
        r[q] == QuorumAvsState(q, TotalStake(ops, q), AggregateKey(g, ops, q), block)
    {
      var q := quorums[i];
      var totalStake, aggKey := AggregateQuorum(g, ops, q);
      r := r[q := QuorumAvsState(q, totalStake, aggKey, block)];
      assert quorums[..i + 1] == quorums[..i] + [q];
      i := i + 1;
    }
    assert quorums[..i] == quorums;
  }

  /** Every operator in the map has a stake entry for quorum q. */
  ghost predicate StakeRecorded<P>(ops: OperatorMap<P>, q: QuorumNum)
  {
    forall id :: id in ops ==> q in ops[id].stakePerQuorum
  }

  /**
   * When indexing a stake map by q cannot fail: exactly when every operator
   * of the request is also in some list of quorum q.
   */
  lemma StakeRecordedIff<P>(quorums: seq<QuorumNum>, lists: seq<seq<StakeEntry>>, block: u32, resolve: Resolver<P>, q: QuorumNum)
    requires |quorums| <= |lists|
    ensures StakeRecorded(OperatorsAvsState(quorums, lists, block, resolve), q) <==>
      forall id :: id in OperatorIds(quorums, lists) ==>
        exists i, j :: 0 <= i < |quorums| && 0 <= j < |lists[i]| && quorums[i] == q && lists[i][j].operatorId == id
  {
    OperatorsAvsStateShape(quorums, lists, block, resolve);
  }

  /**
   * The aggregator as written: build the operator map, then reduce it once per
   * requested quorum. The stake map is indexed by each requested quorum for
   * every operator, which fails unless every operator has an entry for it.
   */
  method GetQuorumsAvsStateAtBlock<P(!new)>(g: Monoid<P>, quorums: seq<QuorumNum>, block: u32, lists: seq<seq<StakeEntry>>, resolve: Resolver<P>)
    returns (r: map<QuorumNum, QuorumAvsState<P>>)
    requires IsCommutativeMonoid(g)
    requires |quorums| <= |lists|
    requires forall q :: q in quorums ==> StakeRecorded(OperatorsAvsState(quorums, lists, block, resolve), q)
    ensures r.Keys == set q | q in quorums
    ensures forall q :: q in r ==>
      && r[q].quorumNum == q
      && r[q].blockNum == block
      && r[q].totalStake == TotalStake(OperatorsAvsState(quorums, lists, block, resolve), q)
      && r[q].aggPubKeyG1 == AggregateKey(g, OperatorsAvsState(quorums, lists, block, resolve), q)
  {
    var ops := GetOperatorsAvsStateAtBlock(block, quorums, lists, resolve);
    r := AggregateQuorums(g, ops, quorums, block);
  }

  /**
   * The aggregator with both defects corrected: a list count that differs from
   * the quorum count is reported, and an operator without a stake entry for a
   * quorum counts as having none there.
   */
  method GetQuorumsAvsStateChecked<P(!new)>(g: Monoid<P>, quorums: seq<QuorumNum>, block: u32, lists: seq<seq<StakeEntry>>, resolve: Resolver<P>)
    returns (r: Result<map<QuorumNum, QuorumAvsState<P>>>)
    requires IsCommutativeMonoid(g)
    ensures r.Failure? <==> |lists| != |quorums|
    ensures r.Failure? ==> r.error == MalformedResponse
    ensures r.Success? ==>
      && r.value.Keys == set q | q in quorums
      && forall q :: q in r.value ==>
        && r.value[q].quorumNum == q
        && r.value[q].blockNum == block
        && r.value[q].totalStake == TotalStake(OperatorsAvsState(quorums, lists, block, resolve), q)
        && r.value[q].aggPubKeyG1 == AggregateKey(g, OperatorsAvsState(quorums, lists, block, resolve), q)
  {
    var built := GetOperatorsAvsStateChecked(block, quorums, lists, resolve);
    if built.Failure? {
      return Failure(built.error);
    }
    var states := AggregateQuorums(g, built.value, quorums, block);
    return Success(states);
  }
}

/**
 * Concrete runs of the chain caller on small requests. Points are stood in
 * for by natural numbers under addition, which form a commutative monoid just
 * as G1 points do under the curve's group law.
 */
module ChainCallerExamples {
  import opened Types
  import opened GroupSum
  import opened ChainCaller

  /** An operator id whose first byte is `b` and whose other bytes are zero. */
  function IdStartingWith(b: byte): (id: OperatorId)
    ensures id[0] == b
  {
    [b] + seq(31, _ => 0 as byte)
  }

  const OperatorA: OperatorId := IdStartingWith(0xA)
  const OperatorB: OperatorId := IdStartingWith(0xB)

  /** Stand-ins for the G1 keys of operators A and B. */
  const KeyA: nat := 7
  const KeyB: nat := 11

  /** Both operators have keys on file, whichever lookup asks. */
  function KeysOnFile(): Resolver<nat>
  {
    (k: nat, id: OperatorId) =>
      if id == OperatorA then Some(OperatorPubKeys(KeyA)) else Some(OperatorPubKeys(KeyB))
  }

  /**
   * Quorums 0 and 1: quorum 0 lists A with stake 100 and B with stake 0,
   * quorum 1 lists A with stake 50.
   */
  function TwoQuorumLists(): seq<seq<StakeEntry>>
  {
    [[StakeEntry(OperatorA, 100), StakeEntry(OperatorB, 0)], [StakeEntry(OperatorA, 50)]]
  }

  /** A with stakes {0: 100, 1: 50} and B with stake {0: 0}, both with their keys. */
  function TwoQuorumMap(block: u32): OperatorMap<nat>
  {
    map[
      OperatorA := OperatorAvsState(OperatorA, OperatorInfo(Some(OperatorPubKeys(KeyA))), map[0 := 100, 1 := 50], block),
      OperatorB := OperatorAvsState(OperatorB, OperatorInfo(Some(OperatorPubKeys(KeyB))), map[0 := 0], block)]
  }

  /** The operator map the builder produces for the two-quorum request. */
  lemma TwoQuorumOperators(block: u32)
    ensures OperatorsAvsState([0, 1], TwoQuorumLists(), block, KeysOnFile()) == TwoQuorumMap(block)
  {
    assert OperatorA[0] != OperatorB[0];
    var lists := TwoQuorumLists();
    var xa0, xb0, xa1 := Sighting(0, lists[0][0]), Sighting(0, lists[0][1]), Sighting(1, lists[1][0]);
    assert [0, 1][..1] == [0 as QuorumNum];
    var first: seq<QuorumNum> := [0];
    assert first[..0] == [];
    assert Sightings([0], lists) == [xa0, xb0];
    var s := [xa0, xb0, xa1];
    assert Sightings([0, 1], lists) == s;
    assert s[..2] == [xa0, xb0] && s[..2][..1] == [xa0] && s[..1][..0] == [];
    var keysA, keysB := OperatorInfo(Some(OperatorPubKeys(KeyA))), OperatorInfo(Some(OperatorPubKeys(KeyB)));
    assert KeysOnFile()(0, OperatorA) == Some(OperatorPubKeys(KeyA));
    assert KeysOnFile()(1, OperatorB) == Some(OperatorPubKeys(KeyB));
    var a0 := OperatorAvsState(OperatorA, keysA, map[0 := 100], block);
    assert Fold([xa0], block, KeysOnFile()) == map[OperatorA := a0];
    var b0 := OperatorAvsState(OperatorB, keysB, map[0 := 0], block);
    assert Fold([xa0, xb0], block, KeysOnFile()) == map[OperatorA := a0, OperatorB := b0];
    assert map[0 := 100][1 := 50] == map[0 := 100, 1 := 50];
  }

  /**
   * The index at quorum 1 fails on this request: operator B has no stake
   * entry for quorum 1, so the source's aggregation cannot run on it.
   */
  lemma MissingQuorumEntryPanics(block: u32)
    ensures !StakeRecorded(OperatorsAvsState([0, 1], TwoQuorumLists(), block, KeysOnFile()), 1)
  {
    TwoQuorumOperators(block);
    assert OperatorB in OperatorsAvsState([0, 1], TwoQuorumLists(), block, KeysOnFile());
  }

  /**
   * With a missing entry counted as no stake, quorum 0 totals 100 with key A
   * (B's zero stake is skipped) and quorum 1 totals 50 with key A.
   */
  lemma TwoQuorumTotals(block: u32)
    ensures var ops := OperatorsAvsState([0, 1], TwoQuorumLists(), block, KeysOnFile());
      && TotalStake(ops, 0) == 100 && AggregateKey(NatAddition(), ops, 0) == KeyA
      && TotalStake(ops, 1) == 50 && AggregateKey(NatAddition(), ops, 1) == KeyA
  {
    TwoQuorumOperators(block);
    TwoQuorumMapTotals(block);
  }

  /** The totals of quorums 0 and 1 over the two-quorum operator map. */
  lemma TwoQuorumMapTotals(block: u32)
    ensures var ops := TwoQuorumMap(block);
      && TotalStake(ops, 0) == 100 && AggregateKey(NatAddition(), ops, 0) == KeyA
      && TotalStake(ops, 1) == 50 && AggregateKey(NatAddition(), ops, 1) == KeyA
  {
    var ops := TwoQuorumMap(block);
    assert OperatorA[0] != OperatorB[0];
    assert IncludedKeys(ops, 0) == map[OperatorA := KeyA];
    assert IncludedStakes(ops, 0) == map[OperatorA := 100];
    assert IncludedKeys(ops, 1) == map[OperatorA := KeyA];
    assert IncludedStakes(ops, 1) == map[OperatorA := 50];
    SumSingleton(NatAddition(), OperatorA, KeyA);
    SumSingleton(NatAddition(), OperatorA, 100);
    SumSingleton(NatAddition(), OperatorA, 50);
  }

  /**
   * One quorum requested, two lists returned: the builder drops the second
   * list, and operator B in it, without any error.
   */
  lemma ExtraListDropped(block: u32)
    ensures var lists := [[StakeEntry(OperatorA, 100)], [StakeEntry(OperatorB, 7)]];
      OperatorsAvsState([0], lists, block, KeysOnFile()).Keys == {OperatorA}
  {
    var lists := [[StakeEntry(OperatorA, 100)], [StakeEntry(OperatorB, 7)]];
    OperatorsAvsStateShape([0], lists, block, KeysOnFile());
    assert lists[0][0].operatorId == OperatorA;
    assert OperatorIds([0], lists) == {OperatorA};
  }

  /** The corrected builder reports the same response as malformed. */
  method ExtraListChecked(block: u32) returns (r: Result<OperatorMap<nat>>)
    ensures r == Failure(MalformedResponse)
  {
    r := GetOperatorsAvsStateChecked(block, [0], [[StakeEntry(OperatorA, 100)], [StakeEntry(OperatorB, 7)]], KeysOnFile());
  }
}

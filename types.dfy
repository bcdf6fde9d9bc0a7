/**
 * The value types the chain caller reads and produces: stake entries as the
 * registry reports them, the per-operator state it builds and the per-quorum
 * state it derives from that.
 */
module Types {

  datatype Option<T> = None | Some(value: T)

  /** An unsigned 8-bit value (a quorum number is one byte). */
  newtype byte = x: int | 0 <= x < 0x100

  /** An unsigned 32-bit value (block numbers are `u32`). */
  newtype u32 = x: int | 0 <= x < 0x1_0000_0000

  type QuorumNum = byte

  /** A 32-byte operator identifier. */
  type OperatorId = s: seq<byte> | |s| == 32 witness seq(32, _ => 0 as byte)

  /** One operator's stake in one quorum, as the registry reports it. */
  datatype StakeEntry = StakeEntry(operatorId: OperatorId, stake: nat)

  /** The public keys on file for an operator; `P` is the type of G1 points. */
  datatype OperatorPubKeys<P> = OperatorPubKeys(g1PubKey: P)

  /** What the operator info service knows of an operator: maybe its keys. */
  datatype OperatorInfo<P> = OperatorInfo(pubKeys: Option<OperatorPubKeys<P>>)

  /** One operator's state at a block: its keys and its stake in each quorum. */
  datatype OperatorAvsState<P> = OperatorAvsState(
    operatorId: OperatorId,
    operatorInfo: OperatorInfo<P>,
    stakePerQuorum: map<QuorumNum, nat>,
    blockNum: u32)

  /** One quorum's state at a block: its total stake and aggregate G1 key. */
  datatype QuorumAvsState<P> = QuorumAvsState(
    quorumNum: QuorumNum,
    totalStake: nat,
    aggPubKeyG1: P,
    blockNum: u32)
}

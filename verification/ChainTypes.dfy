/** Names, schedules and signed messages of the chain. */
module ChainTypes {
  import opened Wrappers

  type AccountName = nat
  type BlockId = nat

  /** Public keys; the default key stands for "no key". */
  type PublicKey = nat
  const DEFAULT_KEY: PublicKey := 0

  const PRODUCER_REPETITIONS: nat := 12
  const MAX_PRODUCERS: nat := 125
  const MAX_TRACKED_CONFIRMATIONS: nat := 1024

  datatype ProducerKey = ProducerKey(producerName: AccountName, signingKey: PublicKey)

  datatype Schedule = Schedule(version: nat, producers: seq<ProducerKey>) {
    function Names(): set<AccountName> {
      set i | 0 <= i < |producers| :: producers[i].producerName
    }
  }

  /** More than two thirds of n producers. */
  function Quorum(n: nat): nat { n * 2 / 3 + 1 }

  /** A producer's vote for a block; `signer` is the key its signature recovers to. */
  datatype Confirmation = Confirmation(blockId: BlockId, producer: AccountName, signer: PublicKey)

  /** A signed block header; `id` is its hash and `signer` the key its signature recovers to. */
  datatype Header = Header(
    id: BlockId,
    previous: BlockId,
    slot: nat,
    producer: AccountName,
    confirmed: nat,
    scheduleVersion: nat,
    newProducers: Option<Schedule>,
    extensions: nat,
    signer: PublicKey)
}

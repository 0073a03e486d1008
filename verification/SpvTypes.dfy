/** Errors and stored records of the light client (bitcoin-spv/src/error.rs, types.rs). */
module SpvTypes {
  import opened Bytes

  /** `HostTrap` stands for the host aborting the call (an arithmetic overflow). */
  datatype SpvError =
    | NoHeaders
    | InsufficientConfirmations
    | ZeroMinConfirmations
    | MerkleProofInvalid
    | EmptyTransaction
    | InsufficientProofOfWork
    | InvalidDifficultyBits
    | NotInitialized
    | Unauthorized
    | CheckpointNotSet
    | AmbiguousTransactionLength
    | CheckpointAlreadySet
    | InvalidCheckpoint
    | TooManyHeaders
    | UnknownParent
    | UnexpectedDifficulty
    | TimestampTooFarInFuture
    | HeaderNotFound
    | NotOnBestChain
    | BlockNotAfterCheckpoint
    | ReorgTooDeep
    | HostTrap

  datatype Config = Config(admin: nat, powLimitBits: U32)

  datatype Checkpoint = Checkpoint(height: U32, hash: Digest, bits: U32, time: U32, periodStart: U32)

  /** A header accepted into the light client, stored under its block hash. */
  datatype HeaderEntry = HeaderEntry(
    prev: Digest,
    merkleRoot: Digest,
    height: U32,
    bits: U32,
    time: U32,
    periodStart: U32,
    chainwork: U256)

  datatype BestTip = BestTip(hash: Digest, height: U32, chainwork: U256)

  datatype VerificationResult = VerificationResult(txid: Digest, blockHash: Digest, height: nat, confirmations: nat)

  /** The 80 bytes of a block header. */
  type RawHeader = s: seq<Byte> | |s| == 80 witness seq(80, _ => 0)

  /** What the contract reads from a raw header. */
  datatype Header = Header(hash: Digest, prev: Digest, merkleRoot: Digest, time: U32, bits: U32)
}

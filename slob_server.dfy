/**
 * The collaborators the conversation store's hooks talk to, reduced to the
 * call contracts the hooks rely on: identifiers and results of the slob
 * (shared versioned object) store, the slob manager's index-update entry
 * point and the wave index's in-transaction update. Their implementations
 * are outside this model; each call records itself in a ghost trace, and
 * whether it fails is chosen by the caller of the model (the environment).
 */
module SlobServer {
  import opened Wrappers

  /** Opaque identifier of a slob. */
  datatype SlobId = SlobId(id: string)

  /** Handle of an open datastore transaction (CheckedTransaction). */
  datatype CheckedTransaction = CheckedTransaction(handle: nat)

  /** Snapshot of a slob's state after a mutation; its content is opaque here. */
  datatype ReadableSlob = ReadableSlob(snapshot: string)

  /**
   * Outcome of one committed mutation: the version it produced and the
   * index payload, which is null when the mutation is not index-relevant.
   */
  datatype MutateResult = MutateResult(resultingVersion: int, indexData: Option<string>)

  /** What the slob manager forwards to the index: a payload and a nullable cursor. */
  datatype SlobIndexUpdate = SlobIndexUpdate(indexData: string, cursor: Option<string>)

  /** One call `SlobManager.update(objectId, update)`. */
  datatype IndexUpdateCall = IndexUpdateCall(objectId: SlobId, update: SlobIndexUpdate)

  /** One call `WaveIndex.update(tx, objectId, state)`. */
  datatype WaveIndexWrite = WaveIndexWrite(tx: CheckedTransaction, objectId: SlobId, state: ReadableSlob)

  /** java.io.IOException, with its message. */
  datatype IOException = IOException(message: string)

  /** RetryHelper's two failure classes, thrown by transactional work. */
  datatype StoreFailure = RetryableFailure(message: string) | PermanentFailure(message: string)

  /** java.lang.RuntimeException with a message and the exception that caused it. */
  datatype RuntimeException = RuntimeException(message: string, cause: IOException)

  /**
   * The slob manager as an abstract index dispatcher: `calls` is every
   * update it was asked to make, in order.
   */
  class SlobManager {
    ghost var calls: seq<IndexUpdateCall>

    constructor ()
      ensures calls == []
    {
      calls := [];
    }

    /**
     * Asks the external index to apply `update` to `objectId`. The call is
     * recorded whether or not it succeeds; `ioError` is the IOException the
     * index service raises, if any.
     */
    method Update(objectId: SlobId, update: SlobIndexUpdate, ioError: Option<IOException>)
      returns (outcome: Outcome<IOException>)
      modifies this
      ensures calls == old(calls) + [IndexUpdateCall(objectId, update)]
      ensures outcome.Fail? <==> ioError.Some?
      ensures outcome.Fail? ==> outcome.error == ioError.value
    {
      calls := calls + [IndexUpdateCall(objectId, update)];
      outcome := if ioError.Some? then Fail(ioError.value) else Pass;
    }
  }

  /**
   * The wave index as an abstract in-transaction writer: `writes` is every
   * update it was asked to stage, in order.
   */
  class WaveIndex {
    ghost var writes: seq<WaveIndexWrite>

    constructor ()
      ensures writes == []
    {
      writes := [];
    }

    /**
     * Stages the index entries for `state` inside `tx`. The call is recorded
     * whether or not it succeeds; `failure` is what the datastore throws, if
     * anything.
     */
    method Update(tx: CheckedTransaction, objectId: SlobId, state: ReadableSlob,
                  failure: Option<StoreFailure>)
      returns (outcome: Outcome<StoreFailure>)
      modifies this
      ensures writes == old(writes) + [WaveIndexWrite(tx, objectId, state)]
      ensures outcome.Fail? <==> failure.Some?
      ensures outcome.Fail? ==> outcome.error == failure.value
    {
      writes := writes + [WaveIndexWrite(tx, objectId, state)];
      outcome := if failure.Some? then Fail(failure.value) else Pass;
    }
  }
}

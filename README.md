# Conversation store hooks (walkaround)

This project models the behaviour inside `ConvStoreModule`, the Guice module that configures the object store for conversation wavelets in walkaround's slob (shared versioned object) store. The module binds two hooks into the store's mutation pipeline:

- The **pre-commit hook** runs inside a mutation's datastore transaction, before commit. It hands the transaction, the object id and the resulting state to the wave index. The wave index then stages its index entries atomically with the data write. The resulting version is passed to the hook but not used.
- The **post-mutate hook** runs after commit. When the mutation carries an index payload, it logs a bounded preview of the payload. It then asks the slob manager to update the index with the full payload and a null cursor. An `IOException` from the manager is rethrown as a `RuntimeException` that keeps the original as its cause. When there is no payload, the hook does nothing.
- `summarize` builds the preview. A payload of at most 50 UTF-16 code units is kept whole. A longer payload is cut to its first 50 units and gets `"..."` appended.

Layout:

- `wrappers.dfy` (module `Wrappers`) defines `Option`, which stands for a nullable reference, and `Outcome`, which records whether a void call returned or threw.
- `slob_server.dfy` (module `SlobServer`) holds the collaborators the hooks call, reduced to their call contracts: `SlobId`, `MutateResult`, `SlobIndexUpdate`, the transaction handle, the resulting state, the exception types, and the classes `SlobManager` and `WaveIndex`. Each class records every call it receives in a ghost trace. Whether a call fails is an input chosen by the environment.
- `conv_store.dfy` (module `ConvStore`) holds the preview function and its lemmas, the two hooks as classes whose collaborator is injected through the constructor, the function `Dispatch` that specifies the post-mutate hook's manager calls, and lemmas about `Trace`: the sequence of `Dispatch` results that running `PostMutateHook.Run` once per commit of a history produces, by `Run`'s ensures, in the order the hook is run. The method `HelloScenario` is a worked example: it runs the hook three times on one object, checks the manager's calls against `Trace` of those commits, and checks the preview at 50 and 51 units.

Strings are `seq<char>`, and each element stands for one UTF-16 code unit, the unit that Java's `length` and `substring` count.

## Model

| member | source | states |
|---|---|---|
| `ConvStore.Summarize` | src/com/google/walkaround/wave/server/conv/ConvStoreModule.java:77-79 | A payload of at most 50 units is returned unchanged. A longer one, 51 units included, gives exactly 53 units: its own first 50 units followed by "...". The preview always begins with the payload's first min(n, 50) units and is never longer than 53. |
| `ConvStore.SummarizeIdempotent` | src/com/google/walkaround/wave/server/conv/ConvStoreModule.java:78 | Summarizing a preview again leaves it unchanged, for payloads of every length. |
| `ConvStore.SummarizeFixedPoints` | src/com/google/walkaround/wave/server/conv/ConvStoreModule.java:78 | The preview equals the payload if and only if the payload has at most 50 units, or it has exactly 53 units ending in "...". |
| `ConvStore.SummarizeLongAgreement` | src/com/google/walkaround/wave/server/conv/ConvStoreModule.java:78 | Two payloads longer than 50 units have the same preview if and only if their first 50 units agree. |
| `ConvStore.LogRecord` | src/com/google/walkaround/wave/server/conv/ConvStoreModule.java:81-82 | A log record is written exactly when the index payload is non-null. It is the fixed prefix followed by the payload's preview, so it is at most the prefix plus 53 units long. |
| `ConvStore.Dispatch` | src/com/google/walkaround/wave/server/conv/ConvStoreModule.java:81-85 | A null payload leads to no manager call. A non-null payload leads to exactly one call, for the hook's object id, carrying the payload verbatim (not its preview) and a null cursor. |
| `ConvStore.PostMutateHook.constructor` | src/com/google/walkaround/wave/server/conv/ConvStoreModule.java:74-76 | The hook forwards to the slob manager it was given. |
| `ConvStore.PostMutateHook.Run` | src/com/google/walkaround/wave/server/conv/ConvStoreModule.java:80-90 | The manager's call trace grows by exactly `Dispatch(objectId, result)` and nothing else changes. The log record is `LogRecord(result)`. The hook throws if and only if a payload is present and the manager's update raises an IOException. It then throws a RuntimeException with message "SlobManager update failed" whose cause is that IOException. |
| `ConvStore.TraceAppend` | src/com/google/walkaround/wave/server/conv/ConvStoreModule.java:80-90 | Running the post-mutate hook over two histories of commits in turn sends the two traces of updates in turn, so updates leave in the order the hook is run. |
| `ConvStore.TraceLength` | src/com/google/walkaround/wave/server/conv/ConvStoreModule.java:81-85 | Over a history of commits, the number of updates sent equals the number of commits that carry a payload. It is never more than the number of commits. |
| `ConvStore.TraceSound` | src/com/google/walkaround/wave/server/conv/ConvStoreModule.java:81-85 | Every update sent over a history has a null cursor. It carries the verbatim payload of some commit of the same object. |
| `ConvStore.TraceComplete` | src/com/google/walkaround/wave/server/conv/ConvStoreModule.java:81-85 | Every commit in a history that carries a payload has an update for its object with that payload and a null cursor among those sent. |
| `ConvStore.PreCommitHook.constructor` | src/com/google/walkaround/wave/server/conv/ConvStoreModule.java:64-66 | The hook forwards to the wave index it was given. |
| `ConvStore.PreCommitHook.Run` | src/com/google/walkaround/wave/server/conv/ConvStoreModule.java:67-72 | The hook stages exactly one wave-index update with the same transaction, object id and resulting state, and nothing else changes. The resulting version does not affect it. A RetryableFailure or PermanentFailure from the index passes through unchanged, and the hook returns normally otherwise. |
| `SlobServer.SlobManager.Update` | src/com/google/walkaround/wave/server/conv/ConvStoreModule.java:84-86 | This is the call contract the post-mutate hook relies on. Every call is recorded in order, whether it succeeds or not. It fails with an IOException exactly when the index service raises one. |
| `SlobServer.WaveIndex.Update` | src/com/google/walkaround/wave/server/conv/ConvStoreModule.java:69-71 | This is the call contract the pre-commit hook relies on. Every call is recorded in order. It fails with a RetryableFailure or PermanentFailure exactly when the datastore raises one. |

## Left out

- The Guice bindings and exposures (lines 58-63) are dependency wiring with nothing to state. `getProvider(...).get()` is modelled as a fixed collaborator passed to each hook's constructor.
- `ROOT_ENTITY_KIND` (line 55) is only a name for persisted data.
- Logging through `java.util.logging` (line 82) is I/O. The record the hook would write is returned as a value (`logged`) instead.
- The `(ReadableWaveletObject)` cast at line 71 is a Java typing artifact. A failing cast (`ClassCastException`) is not modelled, and the resulting state has a single opaque type.
- `SlobManager`, `WaveIndex`, `RetryHelper`, `StoreModuleHelper`, `ConvAccessChecker`, `WaveObjectStoreModel` and `CheckedDatastore` are not part of this model. Only the two update calls the hooks make are modelled, as call contracts. Whether those calls fail is an input to the model.
- The order in which the post-mutate hook is run relative to the order of commits is not modelled. The pipeline may run it concurrently for several commits of one object, so the model does not establish that index updates leave in commit order; `Trace` follows the order of the hook's runs.
- The transactional mutation and retry pipeline that invokes the hooks is not modelled. That includes access checks, version monotonicity, optimistic concurrency and commit atomicity. None of this code is in the module, and it is concerned with transactional concurrency.
- What the external index service does with an update, and whether a failed update reached it partly. The manager's trace records each attempted call, successful or not.

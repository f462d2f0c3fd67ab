/**
 * The behaviour in the Guice module that configures the conversation-wavelet
 * object store: the pre-commit hook that keeps the wave index in step with a
 * mutation inside its transaction, the post-mutate hook that forwards a
 * committed mutation's index payload to the slob manager, and the bounded
 * preview of that payload which the post-mutate hook logs.
 */
module ConvStore {
  import opened Wrappers
  import opened SlobServer

  /** Longest payload that is logged in full. */
  const PreviewLimit: nat := 50

  /** Marker appended to a cut-off preview. */
  const Ellipsis: string := "..."

  /** Text that precedes the preview in the post-mutate hook's log record. */
  const LogPrefix: string := "Updating index, index data is "

  /** Message of the RuntimeException that wraps a failed index update. */
  const UpdateFailedMessage: string := "SlobManager update failed"

  function Min(a: nat, b: nat): nat { if a <= b then a else b }

  // ---------------------------------------------------------------------
  // The log preview
  // ---------------------------------------------------------------------

  /**
   * Bounded preview of an index payload. Each element of `data` stands for
   * one UTF-16 code unit, the unit Java's length and substring count.
   * A payload of at most PreviewLimit units is kept whole; a longer one keeps
   * its first PreviewLimit units and gains the ellipsis.
   */
  function Summarize(data: string): (preview: string)
    ensures |data| <= PreviewLimit ==> preview == data
    ensures |data| > PreviewLimit ==> |preview| == PreviewLimit + |Ellipsis| && preview[PreviewLimit..] == Ellipsis
    ensures preview[..Min(|data|, PreviewLimit)] == data[..Min(|data|, PreviewLimit)]
    ensures |preview| <= PreviewLimit + |Ellipsis|
  {
    if |data| <= PreviewLimit then data else data[..PreviewLimit] + Ellipsis
  }

  /** Summarizing a preview again changes nothing, whatever its length. */
  lemma SummarizeIdempotent(data: string)
    ensures Summarize(Summarize(data)) == Summarize(data)
  {
  }

  /**
   * The payloads a preview leaves unchanged are exactly those of at most
   * PreviewLimit units and those of PreviewLimit + 3 units that already end
   * in the ellipsis; so an unchanged-looking preview does not prove the
   * payload was short.
   */
  lemma SummarizeFixedPoints(data: string)
    ensures Summarize(data) == data <==>
            |data| <= PreviewLimit || (|data| == PreviewLimit + |Ellipsis| && data[PreviewLimit..] == Ellipsis)
  {
  }

  /**
   * Two payloads longer than PreviewLimit have the same preview exactly when
   * they agree on their first PreviewLimit units.
   */
  lemma SummarizeLongAgreement(s: string, t: string)
    requires |s| > PreviewLimit && |t| > PreviewLimit
    ensures Summarize(s) == Summarize(t) <==> s[..PreviewLimit] == t[..PreviewLimit]
  {
  }

  // ---------------------------------------------------------------------
  // The post-mutate hook
  // ---------------------------------------------------------------------

  /**
   * The log record the post-mutate hook writes for `result`: none when the
   * mutation carries no index payload, otherwise the fixed prefix followed
   * by the payload's preview.
   */
  function LogRecord(result: MutateResult): (line: Option<string>)
    ensures line.None? <==> result.indexData.None?
    ensures line.Some? ==> |LogPrefix| <= |line.value| <= |LogPrefix| + PreviewLimit + |Ellipsis|
    ensures line.Some? ==> line.value[..|LogPrefix|] == LogPrefix &&
                           line.value[|LogPrefix|..] == Summarize(result.indexData.value)
  {
    match result.indexData
    case None => None
    case Some(data) => Some(LogPrefix + Summarize(data))
  }

  /**
   * The manager calls the post-mutate hook makes for one committed mutation
   * of `objectId`: none without an index payload, otherwise exactly one
   * update carrying the payload itself (not its preview) and a null cursor.
   */
  function Dispatch(objectId: SlobId, result: MutateResult): (calls: seq<IndexUpdateCall>)
    ensures |calls| <= 1
    ensures calls == [] <==> result.indexData.None?
    ensures forall c | c in calls ::
              c.objectId == objectId && result.indexData == Some(c.update.indexData) && c.update.cursor.None?
  {
    match result.indexData
    case None => []
    case Some(data) => [IndexUpdateCall(objectId, SlobIndexUpdate(data, None))]
  }

  /** The post-mutate hook, with the slob manager it forwards to injected. */
  class PostMutateHook {
    const manager: SlobManager

    constructor (manager: SlobManager)
      ensures this.manager == manager
    {
      this.manager := manager;
    }

    /**
     * Runs after the mutation of `objectId` described by `result` has
     * committed. `ioError` is the IOException the manager's update raises,
     * if it is called and fails. Returns how the hook ends and the log
     * record it writes. An IOException is rethrown as a RuntimeException
     * that keeps it as its cause; nothing is swallowed.
     */
    method Run(objectId: SlobId, result: MutateResult, ioError: Option<IOException>)
      returns (outcome: Outcome<RuntimeException>, logged: Option<string>)
      modifies manager
      ensures manager.calls == old(manager.calls) + Dispatch(objectId, result)
      ensures logged == LogRecord(result)
      ensures outcome.Fail? <==> result.indexData.Some? && ioError.Some?
      ensures outcome.Fail? ==> outcome.error == RuntimeException(UpdateFailedMessage, ioError.value)
    {
      outcome, logged := Pass, None;
      if result.indexData.Some? {
        logged := Some(LogPrefix + Summarize(result.indexData.value));
        var updated := manager.Update(objectId, SlobIndexUpdate(result.indexData.value, None), ioError);
        if updated.Fail? {
          outcome := Fail(RuntimeException(UpdateFailedMessage, updated.error));
        }
      }
    }
  }

  // ---------------------------------------------------------------------
  // The post-mutate hook over a history of commits
  // ---------------------------------------------------------------------

  /** One committed mutation, as the post-mutate hook receives it. */
  datatype Commit = Commit(objectId: SlobId, result: MutateResult)

  /**
   * The manager calls made when the post-mutate hook runs once per commit
   * of `history`, in the order of `history`, which is the order in which the
   * hook is run (not necessarily the order in which the commits happened).
   * Each run on a commit `c` appends Dispatch(c.objectId, c.result), which is
   * what PostMutateHook.Run ensures; HelloScenario checks this on three runs.
   */
  function Trace(history: seq<Commit>): (calls: seq<IndexUpdateCall>)
  {
    if history == [] then []
    else
      var last := history[|history| - 1];
      Trace(history[..|history| - 1]) + Dispatch(last.objectId, last.result)
  }

  /** Commits of `history` that carry an index payload. */
  function PayloadCommits(history: seq<Commit>): (n: nat)
  {
    if history == [] then 0
    else PayloadCommits(history[..|history| - 1]) + (if history[|history| - 1].result.indexData.Some? then 1 else 0)
  }

  /**
   * Running the hook over two histories one after the other gives the two
   * traces one after the other: updates leave in the order the hook is run.
   */
  lemma {:induction false} TraceAppend(h1: seq<Commit>, h2: seq<Commit>)
    ensures Trace(h1 + h2) == Trace(h1) + Trace(h2)
  {
    if h2 != [] {
      var h2' := h2[..|h2| - 1];
      assert (h1 + h2)[..|h1 + h2| - 1] == h1 + h2';
      TraceAppend(h1, h2');
    } else {
      assert h1 + h2 == h1;
    }
  }

  /** Exactly one update per payload-carrying commit, so never more than one per commit. */
  lemma {:induction false} TraceLength(history: seq<Commit>)
    ensures |Trace(history)| == PayloadCommits(history) <= |history|
  {
    if history != [] {
      TraceLength(history[..|history| - 1]);
    }
  }

  /**
   * Every update sent names an object and carries the verbatim payload of
   * some commit of that object, with a null cursor.
   */
  lemma {:induction false} TraceSound(history: seq<Commit>)
    ensures forall c | c in Trace(history) ::
              c.update.cursor.None? &&
              exists k | 0 <= k < |history| ::
                history[k].objectId == c.objectId && history[k].result.indexData == Some(c.update.indexData)
  {
    if history != [] {
      var init := history[..|history| - 1];
      TraceSound(init);
      forall c | c in Trace(history)
        ensures c.update.cursor.None? &&
                exists k | 0 <= k < |history| ::
                  history[k].objectId == c.objectId && history[k].result.indexData == Some(c.update.indexData)
      {
        if c in Trace(init) {
          var k :| 0 <= k < |init| && init[k].objectId == c.objectId && init[k].result.indexData == Some(c.update.indexData);
          assert history[k] == init[k];
        } else {
          assert history[|history| - 1].objectId == c.objectId;
        }
      }
    }
  }

  /** Every commit that carries a payload has that payload sent for its object. */
  lemma {:induction false} TraceComplete(history: seq<Commit>)
    ensures forall k | 0 <= k < |history| && history[k].result.indexData.Some? ::
              IndexUpdateCall(history[k].objectId, SlobIndexUpdate(history[k].result.indexData.value, None))
                in Trace(history)
  {
    if history != [] {
      var init := history[..|history| - 1];
      TraceComplete(init);
      forall k | 0 <= k < |history| && history[k].result.indexData.Some?
        ensures IndexUpdateCall(history[k].objectId, SlobIndexUpdate(history[k].result.indexData.value, None))
                  in Trace(history)
      {
        if k < |init| {
          assert history[k] == init[k];
        }
      }
    }
  }

  // ---------------------------------------------------------------------
  // The pre-commit hook
  // ---------------------------------------------------------------------

  /** The pre-commit hook, with the wave index it forwards to injected. */
  class PreCommitHook {
    const index: WaveIndex

    constructor (index: WaveIndex)
      ensures this.index == index
    {
      this.index := index;
    }

    /**
     * Runs inside transaction `tx`, before it commits, for the mutation of
     * `objectId` that produced `resultingState` at `resultingVersion`. It
     * stages exactly one wave-index update with the same transaction, object
     * and state; the version plays no part. `failure` is what the index
     * update throws, if anything, and the hook lets it through unchanged.
     */
    method Run(tx: CheckedTransaction, objectId: SlobId, resultingVersion: int,
               resultingState: ReadableSlob, failure: Option<StoreFailure>)
      returns (outcome: Outcome<StoreFailure>)
      modifies index
      ensures index.writes == old(index.writes) + [WaveIndexWrite(tx, objectId, resultingState)]
      ensures outcome.Fail? <==> failure.Some?
      ensures outcome.Fail? ==> outcome.error == failure.value
    {
      outcome := index.Update(tx, objectId, resultingState, failure);
    }
  }

  /**
   * A worked example: three runs of the post-mutate hook on object W1 (a
   * payload "hello" with a healthy manager, no payload with a failing one, a
   * payload with a failing one), whose manager calls are the Trace of those
   * three commits; and the preview at the boundary of 50 and 51 units.
   */
  method HelloScenario()
  {
    var manager := new SlobManager();
    var hook := new PostMutateHook(manager);
    var w1 := SlobId("W1");
    ghost var history: seq<Commit> := [];
    var result := MutateResult(1, Some("hello"));
    var outcome, logged := hook.Run(w1, result, None);
    history := history + [Commit(w1, result)];
    assert history[..|history| - 1] == [];
    assert manager.calls == Trace(history);
    assert outcome == Pass;
    assert manager.calls == [IndexUpdateCall(w1, SlobIndexUpdate("hello", None))];
    assert logged == Some(LogPrefix + "hello");

    result := MutateResult(2, None);
    outcome, logged := hook.Run(w1, result, Some(IOException("unreachable")));
    assert (history + [Commit(w1, result)])[..|history|] == history;
    history := history + [Commit(w1, result)];
    assert manager.calls == Trace(history);
    assert outcome == Pass && logged == None;
    assert |manager.calls| == 1;

    result := MutateResult(3, Some("x"));
    outcome, logged := hook.Run(w1, result, Some(IOException("index down")));
    assert (history + [Commit(w1, result)])[..|history|] == history;
    history := history + [Commit(w1, result)];
    assert manager.calls == Trace(history);
    assert outcome == Fail(RuntimeException(UpdateFailedMessage, IOException("index down")));
    assert |manager.calls| == 2;

    var fifty := seq(50, _ => 'a');
    var fiftyOne := fifty + "b";
    assert Summarize(fifty) == fifty;
    assert Summarize(fiftyOne) == fifty + Ellipsis;
  }
}

/**
 The message taxonomy of the engine request handler (crates/engine/tree/src/engine.rs):
 what the orchestrator, the request handler, the downloader and the tree task pass to
 each other. Payloads the core only moves around are opaque types.
 */
module Messages {

  /** A 256-bit block hash (`B256`); only equality is used. */
  type Hash(==, !new)
  /** A block with recovered senders (`SealedBlockWithSenders`). */
  type Block
  /** A progress event of the consensus engine (`BeaconConsensusEngineEvent`). */
  type ConsensusEvent
  /** What the backfill sync should do (`BackfillAction`). */
  type BackfillTarget
  /** A signal from the top-level orchestrator (`FromOrchestrator`). */
  type OrchestratorEvent
  /** A request from the consensus layer (`BeaconEngineMessage`). */
  type EngineRequest

  /** Rust's `u64`. */
  type u64 = x: int | 0 <= x < 0x1_0000_0000_0000_0000

  datatype Option<T> = None | Some(value: T)

  /** `std::task::Poll`: a non-blocking source either has a value or has none yet. */
  datatype Poll<T> = Ready(value: T) | Pending

  /** A request to download blocks from the network (`DownloadRequest`). */
  datatype DownloadRequest =
    | BlockSet(hashes: set<Hash>)
    | BlockRange(start: Hash, count: u64)

  /** A command to the downloader (`DownloadAction`). */
  datatype DownloadAction = Clear | Download(request: DownloadRequest)

  /** What the downloader yields when polled (`DownloadOutcome`). */
  datatype DownloadOutcome = Blocks(blocks: seq<Block>)

  /** A result the handler bubbles up to the orchestrator (`HandlerEvent`). */
  datatype HandlerEvent =
    | BackfillAction(target: BackfillTarget)
    | Event(event: ConsensusEvent)
    | FatalError

  /** What a request handler yields when polled (`RequestHandlerEvent`). */
  datatype RequestHandlerEvent =
    | HandlerEvent(event: HandlerEvent)
    | Download(request: DownloadRequest)

  /** An input delivered to a request handler (`FromEngine`). */
  datatype FromEngine =
    | Event(event: OrchestratorEvent)
    | Request(request: EngineRequest)
    | DownloadedBlocks(blocks: seq<Block>)

  /** An event the tree task sends back to the request handler (`EngineApiEvent`). */
  datatype EngineApiEvent =
    | BeaconConsensus(event: ConsensusEvent)
    | BackfillAction(action: BackfillTarget)
    | Download(request: DownloadRequest)

  /** The distinct hashes among `hashes`. */
  function Elements(hashes: seq<Hash>): set<Hash>
  {
    set h | h in hashes
  }

  predicate Distinct(hashes: seq<Hash>)
  {
    forall i, j :: 0 <= i < j < |hashes| ==> hashes[i] != hashes[j]
  }

  /** `DownloadRequest::BlockSet(HashSet::from(hashes))`. */
  function BlockSetOf(hashes: seq<Hash>): (r: DownloadRequest)
    ensures r.BlockSet?
    ensures forall h :: h in r.hashes <==> h in hashes
  {
    BlockSet(Elements(hashes))
  }

  /** `DownloadRequest::single_block`: a request for exactly one block. */
  function SingleBlock(hash: Hash): (r: DownloadRequest)
    ensures r.BlockSet? && |r.hashes| == 1 && hash in r.hashes
  {
    var r := BlockSetOf([hash]);
    assert r.hashes == {hash};
    r
  }

  /** Prepending a hash that is not among the rest keeps the hashes distinct exactly when
      the rest are. */
  lemma DistinctCons(hashes: seq<Hash>)
    requires |hashes| > 0 && hashes[0] !in hashes[1..]
    ensures Distinct(hashes) <==> Distinct(hashes[1..])
  {
    var tail := hashes[1..];
    if Distinct(tail) {
      forall i, j | 0 <= i < j < |hashes|
        ensures hashes[i] != hashes[j]
      {
        if i == 0 {
          assert hashes[j] == tail[j - 1];
        } else {
          assert hashes[i] == tail[i - 1] && hashes[j] == tail[j - 1];
        }
      }
    }
    if Distinct(hashes) {
      forall i, j | 0 <= i < j < |tail|
        ensures tail[i] != tail[j]
      {
        assert tail[i] == hashes[i + 1] && tail[j] == hashes[j + 1];
      }
    }
  }

  /** Building a block set collapses duplicate hashes: it never grows, and it keeps
      every hash exactly when the hashes are pairwise distinct. */
  lemma {:induction false} BlockSetCollapsesDuplicates(hashes: seq<Hash>)
    ensures |BlockSetOf(hashes).hashes| <= |hashes|
    ensures |BlockSetOf(hashes).hashes| == |hashes| <==> Distinct(hashes)
  {
    if |hashes| > 0 {
      var tail := hashes[1..];
      BlockSetCollapsesDuplicates(tail);
      assert Elements(hashes) == {hashes[0]} + Elements(tail) by {
        assert hashes == [hashes[0]] + tail;
      }
      if hashes[0] in tail {
        var k :| 0 <= k < |tail| && tail[k] == hashes[0];
        assert hashes[0] == hashes[k + 1];
        assert Elements(hashes) == Elements(tail);
      } else {
        DistinctCons(hashes);
      }
    }
  }

  /** A block set built from `[h, h]` is the single-block request for `h`. */
  lemma DuplicateHashIsSingleBlock(hash: Hash)
    ensures BlockSetOf([hash, hash]) == SingleBlock(hash)
    ensures |BlockSetOf([hash, hash]).hashes| == 1
  {
    assert Elements([hash, hash]) == {hash};
  }

  /** `impl From<FromOrchestrator> for FromEngine<Req>`: the orchestrator's event, carried
      unchanged, and never mistaken for a request or for downloaded blocks. */
  function FromOrchestrator(ev: OrchestratorEvent): (r: FromEngine)
    ensures r.Event? && r.event == ev
  {
    FromEngine.Event(ev)
  }

  /** Distinct orchestrator events stay distinct once converted. */
  lemma FromOrchestratorIsInjective(a: OrchestratorEvent, b: OrchestratorEvent)
    ensures FromOrchestrator(a) == FromOrchestrator(b) <==> a == b
  {
  }

  /** The answer of a scripted non-blocking source and the script left after it.
      A source whose script is used up has nothing ready. */
  datatype Answer<T> = Answer(answer: Poll<T>, rest: seq<Poll<T>>)

  function Next<T>(script: seq<Poll<T>>): (r: Answer<T>)
    ensures |script| == 0 ==> r.answer.Pending? && r.rest == script
    ensures |script| > 0 ==> r.answer == script[0] && r.rest == script[1..]
  {
    if |script| == 0 then Answer(Pending, script) else Answer(script[0], script[1..])
  }
}

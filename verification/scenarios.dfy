/**
 Concrete runs of `EngineHandler::poll` (crates/engine/tree/src/engine.rs:72-115), some of
 them with the `EngineApiRequestHandler` (lines 191-206) as the handler.
 */
module Scenarios {
  import opened Messages
  import opened Engine
  import ApiHandler

  /** A stream that has the requests `rs` ready, one per poll. */
  function RequestScript(rs: seq<EngineRequest>): (script: seq<Poll<Option<EngineRequest>>>)
    ensures |script| == |rs|
  {
    seq(|rs|, i requires 0 <= i < |rs| => Ready(Some(rs[i])))
  }

  /** A handler with nothing scripted is drained by one pending poll. */
  lemma IdleHandlerDrains(incoming: seq<Poll<Option<EngineRequest>>>, downloader: seq<Poll<DownloadOutcome>>)
    ensures Drain(Scripts([], incoming, downloader)) ==
              Drained(None, [PolledHandler(Pending)], Scripts([], incoming, downloader))
  {
  }

  /** The handler inputs of a trace that starts with delivering request `r`. */
  lemma InputsAfterRequest(r: EngineRequest, answer: Poll<Option<EngineRequest>>, t: Trace)
    ensures Inputs([PolledHandler(Pending), PolledIncoming(answer), Delivered(Request(r))] + t) ==
              [Request(r)] + Inputs(t)
  {
    var head := [PolledHandler(Pending), PolledIncoming(answer), Delivered(Request(r))];
    ProjectAppend(head, t, InputOf);
    assert head == [head[0]] + ([head[1]] + [head[2]]);
    ProjectAppend([head[0]], [head[1]] + [head[2]], InputOf);
    ProjectAppend([head[1]], [head[2]], InputOf);
    ProjectOne(head[0], InputOf);
    ProjectOne(head[1], InputOf);
    ProjectOne(head[2], InputOf);
  }

  /** With nothing scripted, one call polls each collaborator once and is pending. */
  lemma NothingReady()
    ensures PollEngine(Scripts([], [], [])) ==
              Polled(Pending, [PolledHandler(Pending), PolledIncoming(Pending), PolledDownloader(Pending)],
                     Scripts([], [], []))
    ensures Inputs(PollEngine(Scripts([], [], [])).trace) == []
  {
    var s := Scripts([], [], []);
    IdleHandlerDrains([], []);
    assert Accept(s) == Intake(false, [PolledIncoming(Pending), PolledDownloader(Pending)], s);
    var t := [PolledHandler(Pending), PolledIncoming(Pending), PolledDownloader(Pending)];
    assert PollEngine(s).trace == [PolledHandler(Pending)] + [PolledIncoming(Pending), PolledDownloader(Pending)];
    assert t == [t[0]] + ([t[1]] + [t[2]]);
    ProjectAppend([t[0]], [t[1]] + [t[2]], InputOf);
    ProjectAppend([t[1]], [t[2]], InputOf);
    ProjectOne(t[0], InputOf);
    ProjectOne(t[1], InputOf);
    ProjectOne(t[2], InputOf);
  }

  /** One iteration with an idle handler and a ready request: the request is delivered,
      and the call goes on as if it had started with the rest of the stream. */
  lemma IdleHandlerTakesOneRequest(r: EngineRequest, rest: seq<Poll<Option<EngineRequest>>>)
    ensures var o := PollEngine(Scripts([], rest, []));
      PollEngine(Scripts([], [Ready(Some(r))] + rest, [])) ==
        Polled(o.result,
               [PolledHandler(Pending), PolledIncoming(Ready(Some(r))), Delivered(Request(r))] + o.trace,
               o.rest)
  {
    var s := Scripts([], [Ready(Some(r))] + rest, []);
    IdleHandlerDrains([Ready(Some(r))] + rest, []);
    assert Accept(s) == Intake(true, [PolledIncoming(Ready(Some(r))), Delivered(Request(r))],
                               Scripts([], rest, []));
    assert [PolledHandler(Pending)] + [PolledIncoming(Ready(Some(r))), Delivered(Request(r))] ==
           [PolledHandler(Pending), PolledIncoming(Ready(Some(r))), Delivered(Request(r))];
  }

  /** The requests `rs` as the handler receives them. */
  function AsRequests(rs: seq<EngineRequest>): (inputs: seq<FromEngine>)
    ensures |inputs| == |rs|
    ensures forall i :: 0 <= i < |rs| ==> inputs[i] == Request(rs[i])
  {
    seq(|rs|, i requires 0 <= i < |rs| => Request(rs[i]))
  }

  /** Peeling the first request off the stream. */
  lemma PeelRequest(rs: seq<EngineRequest>)
    requires |rs| > 0
    ensures RequestScript(rs) == [Ready(Some(rs[0]))] + RequestScript(rs[1..])
    ensures AsRequests(rs) == [Request(rs[0])] + AsRequests(rs[1..])
  {
    assert RequestScript(rs) == [Ready(Some(rs[0]))] + RequestScript(rs[1..]);
    assert AsRequests(rs) == [Request(rs[0])] + AsRequests(rs[1..]);
  }

  /** The effect on result, leftover scripts and inputs of taking one request. */
  lemma TakeOneRequest(r: EngineRequest, rest: seq<Poll<Option<EngineRequest>>>)
    ensures var o := PollEngine(Scripts([], rest, []));
      var o1 := PollEngine(Scripts([], [Ready(Some(r))] + rest, []));
      && o1.result == o.result
      && o1.rest == o.rest
      && Inputs(o1.trace) == [Request(r)] + Inputs(o.trace)
  {
    IdleHandlerTakesOneRequest(r, rest);
    InputsAfterRequest(r, Ready(Some(r)), PollEngine(Scripts([], rest, [])).trace);
  }

  /** A handler that is always pending receives every ready request in one call, in
      order, each as `FromEngine::Request`, and the call then returns `Pending`. */
  lemma {:induction false} IdleHandlerTakesEveryRequest(rs: seq<EngineRequest>)
    ensures var o := PollEngine(Scripts([], RequestScript(rs), []));
      && o.result == Pending
      && Inputs(o.trace) == AsRequests(rs)
      && o.rest == Scripts([], [], [])
  {
    if |rs| > 0 {
      PeelRequest(rs);
      TakeOneRequest(rs[0], RequestScript(rs[1..]));
      IdleHandlerTakesEveryRequest(rs[1..]);
    } else {
      assert RequestScript(rs) == [];
      NothingReady();
    }
  }

  /** A download request followed by an idle handler: the downloader gets the request,
      and with nothing else ready the call is pending. */
  lemma DownloadThenIdle(hash: Hash)
    ensures var req := SingleBlock(hash);
      PollEngine(Scripts([Ready(RequestHandlerEvent.Download(req)), Pending], [], [Pending])) ==
        Polled(Pending,
               [PolledHandler(Ready(RequestHandlerEvent.Download(req))),
                Commanded(DownloadAction.Download(req)),
                PolledHandler(Pending), PolledIncoming(Pending), PolledDownloader(Pending)],
               Scripts([], [], []))
  {
    var req := SingleBlock(hash);
    var s := Scripts([Ready(RequestHandlerEvent.Download(req)), Pending], [], [Pending]);
    var s1 := s.(handler := [Pending]);
    assert Drain(s1) == Drained(None, [PolledHandler(Pending)], s.(handler := []));
    assert Drain(s).trace ==
             [PolledHandler(Ready(RequestHandlerEvent.Download(req))), Commanded(DownloadAction.Download(req))] +
             [PolledHandler(Pending)];
  }

  /** Downloaded blocks go to the handler unchanged, and the handler is polled again
      before the call returns. */
  lemma DownloadedBlocksAreRedrained(block: Block)
    ensures PollEngine(Scripts([Pending, Pending], [], [Ready(Blocks([block])), Pending])) ==
              Polled(Pending,
                     [PolledHandler(Pending), PolledIncoming(Pending),
                      PolledDownloader(Ready(Blocks([block]))), Delivered(DownloadedBlocks([block])),
                      PolledHandler(Pending), PolledIncoming(Pending), PolledDownloader(Pending)],
                     Scripts([], [], []))
  {
  }

  /** A backfill request from the handler: the downloader is cleared, the request is
      returned, and neither the stream nor the downloader is polled. */
  lemma BackfillClearsDownloaderFirst(target: BackfillTarget, s: Scripts)
    requires |s.handler| > 0 && s.handler[0] == Ready(HandlerEvent(HandlerEvent.BackfillAction(target)))
    ensures PollEngine(s) ==
              Polled(Ready(HandlerEvent.BackfillAction(target)),
                     [PolledHandler(s.handler[0]), Commanded(Clear)],
                     s.(handler := s.handler[1..]))
  {
  }

  /** When the tree task's channel is closed, the request handler reports `FatalError`
      and the loop returns it at once, delivering nothing and commanding nothing. */
  lemma ClosedChannelIsFatal(fromTree: ApiHandler.FromTree, incoming: seq<Poll<Option<EngineRequest>>>,
                             downloader: seq<Poll<DownloadOutcome>>)
    requires |fromTree| > 0 && fromTree[0] == Ready(None)
    ensures PollEngine(Scripts(ApiHandler.AsScript(fromTree), incoming, downloader)) ==
              Polled(Ready(FatalError),
                     [PolledHandler(Ready(HandlerEvent(FatalError)))],
                     Scripts(ApiHandler.AsScript(fromTree[1..]), incoming, downloader))
  {
    assert ApiHandler.AsScript(fromTree)[1..] == ApiHandler.AsScript(fromTree[1..]);
  }

  /** The loop keeps no record of a returned `FatalError`: if the handler is polled again
      and is pending, the next call takes requests from the stream as usual. */
  lemma FatalErrorIsNotLatched(r: EngineRequest)
    ensures var first := PollEngine(Scripts([Ready(HandlerEvent(FatalError))], [Ready(Some(r))], []));
      && first.result == Ready(FatalError)
      && Inputs(PollEngine(first.rest).trace) == [Request(r)]
  {
    var first := PollEngine(Scripts([Ready(HandlerEvent(FatalError))], [Ready(Some(r))], []));
    assert first.rest == Scripts([], [Ready(Some(r))], []);
    IdleHandlerTakesEveryRequest([r]);
    assert RequestScript([r]) == [Ready(Some(r))];
  }
}

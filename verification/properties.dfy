/**
 Ordering and priority guarantees of `EngineHandler::poll`
 (crates/engine/tree/src/engine.rs:72-115), stated over the trace of one call.
 Most are read off the protocol of module Protocol, which the call is proved to follow.
 */
module EngineProperties {
  import opened Messages
  import opened Engine
  import opened Protocol

  /** A download request from the handler goes to the downloader at once, unchanged, and
      the handler is polled again right after: a download request never ends the drain. */
  ghost predicate DownloadsKeepDraining(t: Trace)
  {
    forall i :: 0 <= i < |t| && t[i].PolledHandler? && t[i].handlerAnswer.Ready? &&
                t[i].handlerAnswer.value.Download? ==>
      && i + 2 < |t|
      && t[i + 1] == Commanded(DownloadAction.Download(t[i].handlerAnswer.value.request))
      && t[i + 2].PolledHandler?
  }

  /** The incoming stream is polled only right after the handler reported pending. */
  ghost predicate StreamPolledAfterIdleHandler(t: Trace)
  {
    forall i :: 0 <= i < |t| && t[i].PolledIncoming? ==>
      1 <= i && t[i - 1] == PolledHandler(Pending)
  }

  /** The downloader is polled only right after the handler reported pending and the
      stream then had no request. */
  ghost predicate DownloaderPolledAfterIdleStream(t: Trace)
  {
    forall i :: 0 <= i < |t| && t[i].PolledDownloader? ==>
      && 2 <= i
      && t[i - 1].PolledIncoming? && !IsRequest(t[i - 1].incomingAnswer)
      && t[i - 2] == PolledHandler(Pending)
  }

  /** An incoming request reaches the handler as `FromEngine::Request`, unchanged, only
      right after the stream yielded it, which was only after the handler reported pending. */
  ghost predicate RequestsDeliveredAsReceived(t: Trace)
  {
    forall i :: 0 <= i < |t| && t[i].Delivered? && t[i].input.Request? ==>
      && 2 <= i
      && t[i - 1] == PolledIncoming(Ready(Some(t[i].input.request)))
      && t[i - 2] == PolledHandler(Pending)
  }

  /** Downloaded blocks reach the handler as `FromEngine::DownloadedBlocks`, unchanged,
      only right after the downloader yielded them, which was only after the handler was
      pending and the stream had no request. */
  ghost predicate BlocksDeliveredAsDownloaded(t: Trace)
  {
    forall i :: 0 <= i < |t| && t[i].Delivered? && t[i].input.DownloadedBlocks? ==>
      && 3 <= i
      && t[i - 1] == PolledDownloader(Ready(Blocks(t[i].input.blocks)))
      && t[i - 2].PolledIncoming? && !IsRequest(t[i - 2].incomingAnswer)
      && t[i - 3] == PolledHandler(Pending)
  }

  /** After every input it delivers, the loop polls the handler again before anything
      else: before the stream, the downloader, and before returning. An orchestrator event
      is never delivered by the loop. */
  ghost predicate RedrainedAfterInput(t: Trace)
  {
    forall i :: 0 <= i < |t| && t[i].Delivered? ==>
      !t[i].input.Event? && i + 1 < |t| && t[i + 1].PolledHandler?
  }

  /** A request the stream yields is delivered to the handler at once, as
      `FromEngine::Request`, unchanged. */
  ghost predicate RequestsTakenAreDelivered(t: Trace)
  {
    forall i :: 0 <= i < |t| && t[i].PolledIncoming? && IsRequest(t[i].incomingAnswer) ==>
      i + 1 < |t| && t[i + 1] == Delivered(Request(t[i].incomingAnswer.value.value))
  }

  /** A batch the downloader yields is delivered to the handler at once, as
      `FromEngine::DownloadedBlocks`, unchanged. */
  ghost predicate DownloadsTakenAreDelivered(t: Trace)
  {
    forall i :: 0 <= i < |t| && t[i].PolledDownloader? && t[i].downloaderAnswer.Ready? ==>
      i + 1 < |t| && t[i + 1] == Delivered(DownloadedBlocks(t[i].downloaderAnswer.value.blocks))
  }

  /** A handler event ends the call at once: it is the call's result, and only the `Clear`
      of a backfill request comes after it. So no handler event is ever passed over. */
  ghost predicate HandlerEventEndsCall(t: Trace, result: Poll<HandlerEvent>)
  {
    forall i :: 0 <= i < |t| && t[i].PolledHandler? && t[i].handlerAnswer.Ready? &&
                t[i].handlerAnswer.value.HandlerEvent? ==>
      && result == Ready(t[i].handlerAnswer.value.event)
      && i + (if t[i].handlerAnswer.value.event.BackfillAction? then 2 else 1) == |t|
  }

  lemma DownloadRequestsKeepDraining(t: Trace, result: Poll<HandlerEvent>)
    requires Accepts(t, result)
    ensures DownloadsKeepDraining(t)
  {
    PhaseEnds(Draining, t);
    forall i | 0 <= i < |t| && t[i].PolledHandler? && t[i].handlerAnswer.Ready? &&
               t[i].handlerAnswer.value.Download?
      ensures i + 2 < |t|
      ensures t[i + 1] == Commanded(DownloadAction.Download(t[i].handlerAnswer.value.request))
      ensures t[i + 2].PolledHandler?
    {
      PhaseStep(Draining, t, i);
      assert PhaseBefore(Draining, t, i) == Draining;
      assert PhaseBefore(Draining, t, i + 1) == Forwarding(t[i].handlerAnswer.value.request);
      assert i + 1 != |t|;
      PhaseStep(Draining, t, i + 1);
      assert PhaseBefore(Draining, t, i + 2) == Draining;
      assert i + 2 != |t|;
      PhaseStep(Draining, t, i + 2);
    }
  }

  lemma StreamPolledOnlyWhenHandlerIdle(t: Trace, result: Poll<HandlerEvent>)
    requires Accepts(t, result)
    ensures StreamPolledAfterIdleHandler(t)
  {
    PhaseEnds(Draining, t);
    forall i | 0 <= i < |t| && t[i].PolledIncoming?
      ensures 1 <= i && t[i - 1] == PolledHandler(Pending)
    {
      PhaseStep(Draining, t, i);
      assert PhaseBefore(Draining, t, i) == HandlerIdle;
      assert i != 0;
      PhaseStep(Draining, t, i - 1);
    }
  }

  lemma DownloaderPolledOnlyWhenStreamIdle(t: Trace, result: Poll<HandlerEvent>)
    requires Accepts(t, result)
    ensures DownloaderPolledAfterIdleStream(t)
  {
    PhaseEnds(Draining, t);
    forall i | 0 <= i < |t| && t[i].PolledDownloader?
      ensures 2 <= i
      ensures t[i - 1].PolledIncoming? && !IsRequest(t[i - 1].incomingAnswer)
      ensures t[i - 2] == PolledHandler(Pending)
    {
      PhaseStep(Draining, t, i);
      assert PhaseBefore(Draining, t, i) == StreamIdle;
      assert i != 0;
      PhaseStep(Draining, t, i - 1);
      assert PhaseBefore(Draining, t, i - 1) == HandlerIdle;
      assert i - 1 != 0;
      PhaseStep(Draining, t, i - 2);
    }
  }

  lemma RequestsDeliveredOnlyWhenHandlerIdle(t: Trace, result: Poll<HandlerEvent>)
    requires Accepts(t, result)
    ensures RequestsDeliveredAsReceived(t)
  {
    PhaseEnds(Draining, t);
    forall i | 0 <= i < |t| && t[i].Delivered? && t[i].input.Request?
      ensures 2 <= i
      ensures t[i - 1] == PolledIncoming(Ready(Some(t[i].input.request)))
      ensures t[i - 2] == PolledHandler(Pending)
    {
      PhaseStep(Draining, t, i);
      assert PhaseBefore(Draining, t, i) == Accepting(t[i].input.request);
      assert i != 0;
      PhaseStep(Draining, t, i - 1);
      assert PhaseBefore(Draining, t, i - 1) == HandlerIdle;
      assert i - 1 != 0;
      PhaseStep(Draining, t, i - 2);
    }
  }

  lemma BlocksDeliveredOnlyWhenIdle(t: Trace, result: Poll<HandlerEvent>)
    requires Accepts(t, result)
    ensures BlocksDeliveredAsDownloaded(t)
  {
    PhaseEnds(Draining, t);
    forall i | 0 <= i < |t| && t[i].Delivered? && t[i].input.DownloadedBlocks?
      ensures 3 <= i
      ensures t[i - 1] == PolledDownloader(Ready(Blocks(t[i].input.blocks)))
      ensures t[i - 2].PolledIncoming? && !IsRequest(t[i - 2].incomingAnswer)
      ensures t[i - 3] == PolledHandler(Pending)
    {
      PhaseStep(Draining, t, i);
      assert PhaseBefore(Draining, t, i) == Delivering(t[i].input.blocks);
      assert i != 0;
      PhaseStep(Draining, t, i - 1);
      assert PhaseBefore(Draining, t, i - 1) == StreamIdle;
      assert i - 1 != 0;
      PhaseStep(Draining, t, i - 2);
      assert PhaseBefore(Draining, t, i - 2) == HandlerIdle;
      assert i - 2 != 0;
      PhaseStep(Draining, t, i - 3);
    }
  }

  lemma HandlerRedrainedAfterInput(t: Trace, result: Poll<HandlerEvent>)
    requires Accepts(t, result)
    ensures RedrainedAfterInput(t)
  {
    PhaseEnds(Draining, t);
    forall i | 0 <= i < |t| && t[i].Delivered?
      ensures !t[i].input.Event? && i + 1 < |t| && t[i + 1].PolledHandler?
    {
      PhaseStep(Draining, t, i);
      assert PhaseBefore(Draining, t, i + 1) == Draining;
      assert i + 1 != |t|;
      PhaseStep(Draining, t, i + 1);
    }
  }

  lemma RequestsTakenAreDeliveredAtOnce(t: Trace, result: Poll<HandlerEvent>)
    requires Accepts(t, result)
    ensures RequestsTakenAreDelivered(t)
  {
    PhaseEnds(Draining, t);
    forall i | 0 <= i < |t| && t[i].PolledIncoming? && IsRequest(t[i].incomingAnswer)
      ensures i + 1 < |t| && t[i + 1] == Delivered(Request(t[i].incomingAnswer.value.value))
    {
      PhaseStep(Draining, t, i);
      assert PhaseBefore(Draining, t, i + 1) == Accepting(t[i].incomingAnswer.value.value);
      assert i + 1 != |t|;
      PhaseStep(Draining, t, i + 1);
    }
  }

  lemma DownloadsTakenAreDeliveredAtOnce(t: Trace, result: Poll<HandlerEvent>)
    requires Accepts(t, result)
    ensures DownloadsTakenAreDelivered(t)
  {
    PhaseEnds(Draining, t);
    forall i | 0 <= i < |t| && t[i].PolledDownloader? && t[i].downloaderAnswer.Ready?
      ensures i + 1 < |t| && t[i + 1] == Delivered(DownloadedBlocks(t[i].downloaderAnswer.value.blocks))
    {
      PhaseStep(Draining, t, i);
      assert PhaseBefore(Draining, t, i + 1) == Delivering(t[i].downloaderAnswer.value.blocks);
      assert i + 1 != |t|;
      PhaseStep(Draining, t, i + 1);
    }
  }

  /** A run that has returned is over. */
  lemma ReturnedIsLast(p: Phase, t: Trace, j: nat)
    requires Run(p, t).Returned? && j <= |t| && PhaseBefore(p, t, j).Returned?
    ensures j == |t|
  {
    if j < |t| {
      PhaseStep(p, t, j);
      assert false;
    }
  }

  lemma HandlerEventsEndTheCall(t: Trace, result: Poll<HandlerEvent>)
    requires Accepts(t, result)
    ensures HandlerEventEndsCall(t, result)
  {
    PhaseEnds(Draining, t);
    forall i | 0 <= i < |t| && t[i].PolledHandler? && t[i].handlerAnswer.Ready? &&
               t[i].handlerAnswer.value.HandlerEvent?
      ensures result == Ready(t[i].handlerAnswer.value.event)
      ensures i + (if t[i].handlerAnswer.value.event.BackfillAction? then 2 else 1) == |t|
    {
      var ev := t[i].handlerAnswer.value.event;
      PhaseStep(Draining, t, i);
      assert PhaseBefore(Draining, t, i) == Draining;
      if ev.BackfillAction? {
        assert PhaseBefore(Draining, t, i + 1) == Clearing(ev.target);
        assert i + 1 != |t|;
        PhaseStep(Draining, t, i + 1);
        assert PhaseBefore(Draining, t, i + 2) == Returned(Ready(ev));
        ReturnedIsLast(Draining, t, i + 2);
      } else {
        assert PhaseBefore(Draining, t, i + 1) == Returned(Ready(ev));
        ReturnedIsLast(Draining, t, i + 1);
      }
    }
  }

  /** Every call of `poll` has all of the ordering guarantees above. */
  lemma PollIsOrdered(s: Scripts)
    ensures DownloadsKeepDraining(PollEngine(s).trace)
    ensures StreamPolledAfterIdleHandler(PollEngine(s).trace)
    ensures DownloaderPolledAfterIdleStream(PollEngine(s).trace)
    ensures RequestsDeliveredAsReceived(PollEngine(s).trace)
    ensures BlocksDeliveredAsDownloaded(PollEngine(s).trace)
    ensures RedrainedAfterInput(PollEngine(s).trace)
  {
    var o := PollEngine(s);
    PollFollowsProtocol(s);
    DownloadRequestsKeepDraining(o.trace, o.result);
    StreamPolledOnlyWhenHandlerIdle(o.trace, o.result);
    DownloaderPolledOnlyWhenStreamIdle(o.trace, o.result);
    RequestsDeliveredOnlyWhenHandlerIdle(o.trace, o.result);
    BlocksDeliveredOnlyWhenIdle(o.trace, o.result);
    HandlerRedrainedAfterInput(o.trace, o.result);
  }

  /** Every call of `poll` hands on at once whatever a collaborator yields: a request or a
      batch of blocks goes straight to the handler, and a handler event straight back to
      the caller. */
  lemma PollDeliversAtOnce(s: Scripts)
    ensures RequestsTakenAreDelivered(PollEngine(s).trace)
    ensures DownloadsTakenAreDelivered(PollEngine(s).trace)
    ensures HandlerEventEndsCall(PollEngine(s).trace, PollEngine(s).result)
  {
    var o := PollEngine(s);
    PollFollowsProtocol(s);
    RequestsTakenAreDeliveredAtOnce(o.trace, o.result);
    DownloadsTakenAreDeliveredAtOnce(o.trace, o.result);
    HandlerEventsEndTheCall(o.trace, o.result);
  }

  /** The download command a handler answer asks for, if any. */
  function RequestedDownloadOf(e: Effect): seq<DownloadAction>
  {
    if e.PolledHandler? && e.handlerAnswer.Ready? && e.handlerAnswer.value.Download? then
      [DownloadAction.Download(e.handlerAnswer.value.request)]
    else []
  }

  /** The download commands the handler asked for in `t`, in order. */
  function RequestedDownloads(t: Trace): seq<DownloadAction>
  {
    Project(t, RequestedDownloadOf)
  }

  /** The command added after the requested downloads by a call that returns `result`:
      `Clear` for a backfill request, nothing otherwise. */
  function ClearFor(result: Poll<HandlerEvent>): seq<DownloadAction>
  {
    if result.Ready? && result.value.BackfillAction? then [Clear] else []
  }

  /** The command the loop still owes the downloader in phase `p`. */
  function Owed(p: Phase): seq<DownloadAction>
  {
    if p.Forwarding? then [DownloadAction.Download(p.request)] else []
  }

  /** The `Clear` still to come in phase `p` of a run that returns `result`. */
  function ClearStillToCome(p: Phase, result: Poll<HandlerEvent>): seq<DownloadAction>
  {
    if p.Returned? then [] else ClearFor(result)
  }

  lemma ReturnedIsFinal(result: Poll<HandlerEvent>, t: Trace)
    ensures |t| > 0 ==> Run(Returned(result), t) == Stuck
  {
    if |t| > 0 {
      StuckStaysStuck(t[1..]);
    }
  }

  /** One protocol step passes on the command owed, takes on the one the handler asks
      for, and at the return issues the `Clear` a backfill request needs. */
  lemma CommandsStep(p: Phase, e: Effect, result: Poll<HandlerEvent>)
    requires Step(p, e) != Stuck
    ensures !p.Returned?
    ensures !Step(p, e).Returned? ==> CommandOf(e) + Owed(Step(p, e)) == Owed(p) + RequestedDownloadOf(e)
    ensures Step(p, e) == Returned(result) ==>
              CommandOf(e) == Owed(p) + RequestedDownloadOf(e) + ClearFor(result)
  {
  }

  lemma {:induction false} CommandsFromPhase(p: Phase, t: Trace, result: Poll<HandlerEvent>)
    requires Run(p, t) == Returned(result)
    ensures Commands(t) == Owed(p) + RequestedDownloads(t) + ClearStillToCome(p, result)
    decreases |t|
  {
    if |t| > 0 {
      var p' := Step(p, t[0]);
      var t' := t[1..];
      assert Run(p', t') == Returned(result);
      StuckStaysStuck(t');
      CommandsStep(p, t[0], result);
      assert Commands(t) == CommandOf(t[0]) + Commands(t');
      assert RequestedDownloads(t) == RequestedDownloadOf(t[0]) + RequestedDownloads(t');
      if p'.Returned? {
        ReturnedIsFinal(p'.result, t');
        assert t' == [];
      } else {
        CommandsFromPhase(p', t', result);
        assert ClearStillToCome(p', result) == ClearStillToCome(p, result);
      }
    }
  }

  /** The downloader receives exactly the download requests the handler produced, in the
      order it produced them, followed by one `Clear` if and only if the call returns a
      backfill request; an event or a fatal error causes no command at all. */
  lemma CommandsAreRequestedDownloads(s: Scripts)
    ensures Commands(PollEngine(s).trace) ==
              RequestedDownloads(PollEngine(s).trace) + ClearFor(PollEngine(s).result)
  {
    var o := PollEngine(s);
    PollFollowsProtocol(s);
    CommandsFromPhase(Draining, o.trace, o.result);
  }
}

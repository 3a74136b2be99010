/**
 `EngineApiRequestHandler` (crates/engine/tree/src/engine.rs): the request handler that
 forwards every input to the tree task over one channel and translates what the tree task
 sends back over another. Both channels are modelled as values: the sending half records
 what was accepted, the receiving half is the script of answers its `poll_recv` gives.
 */
module ApiHandler {
  import opened Messages

  /** The sending half `to_tree`: what it has accepted so far, and whether the tree task
      still holds the receiving half. */
  datatype ToTree = ToTree(accepted: seq<FromEngine>, receiverAlive: bool)

  /** `std::sync::mpsc::SendError`: the message comes back when nobody can receive it. */
  datatype SendResult = Sent(channel: ToTree) | SendError(message: FromEngine)

  /** `Sender::send`: fails, returning the message, once the receiver is gone. */
  function Send(ch: ToTree, msg: FromEngine): (r: SendResult)
    ensures r.Sent? <==> ch.receiverAlive
    ensures r.Sent? ==> r.channel == ToTree(ch.accepted + [msg], true)
    ensures r.SendError? ==> r.message == msg
  {
    if ch.receiverAlive then Sent(ToTree(ch.accepted + [msg], true)) else SendError(msg)
  }

  /** The receiving half `from_tree` is the script of answers to `poll_recv`:
      `Ready(None)` means the channel is closed and empty. */
  type FromTree = seq<Poll<Option<EngineApiEvent>>>

  datatype ApiRequestHandler = ApiRequestHandler(toTree: ToTree, fromTree: FromTree)

  /** The match of `EngineApiRequestHandler::poll` on a received event: the event can be
      recovered from what it becomes, and it never becomes a fatal error. */
  function Translate(ev: EngineApiEvent): (r: RequestHandlerEvent)
    ensures Untranslate(r) == Some(ev)
    ensures r != HandlerEvent(FatalError)
  {
    match ev
    case BeaconConsensus(e) => HandlerEvent(HandlerEvent.Event(e))
    case BackfillAction(a) => HandlerEvent(HandlerEvent.BackfillAction(a))
    case Download(req) => RequestHandlerEvent.Download(req)
  }

  /** The inverse of `Translate`: the tree event a handler event came from, if any. */
  function Untranslate(r: RequestHandlerEvent): Option<EngineApiEvent>
  {
    match r
    case HandlerEvent(BackfillAction(a)) => Some(EngineApiEvent.BackfillAction(a))
    case HandlerEvent(Event(e)) => Some(BeaconConsensus(e))
    case HandlerEvent(FatalError) => None
    case Download(req) => Some(EngineApiEvent.Download(req))
  }

  /** Each tree event maps to exactly one handler event and can be recovered from it; the
      only handler event no tree event maps to is `FatalError`. */
  lemma TranslateIsInjective(ev: EngineApiEvent, r: RequestHandlerEvent)
    ensures Untranslate(Translate(ev)) == Some(ev)
    ensures Untranslate(r) == Some(ev) ==> Translate(ev) == r
    ensures Untranslate(r).None? <==> r == HandlerEvent(FatalError)
    ensures Translate(ev) != HandlerEvent(FatalError)
  {
  }

  /** `EngineApiEvent::is_backfill_action`: holds exactly of the events that the handler
      bubbles up as a backfill request. */
  function IsBackfillAction(ev: EngineApiEvent): (b: bool)
    ensures b <==> Translate(ev).HandlerEvent? && Translate(ev).event.BackfillAction?
  {
    ev.BackfillAction?
  }

  /** `impl From<BeaconConsensusEngineEvent> for EngineApiEvent`: a consensus event reaches
      the orchestrator as that same event, and is never a backfill request. */
  function FromConsensusEvent(e: ConsensusEvent): (ev: EngineApiEvent)
    ensures Translate(ev) == HandlerEvent(HandlerEvent.Event(e))
    ensures !IsBackfillAction(ev)
  {
    BeaconConsensus(e)
  }

  /** The whole of `EngineApiRequestHandler::poll` given one answer of `poll_recv`:
      `ready!` passes `Pending` on, a closed channel is a fatal error, and every received
      event is answered with its translation. */
  function OnReceived(received: Poll<Option<EngineApiEvent>>): (r: Poll<RequestHandlerEvent>)
    ensures r.Pending? <==> received.Pending?
    ensures r == Ready(HandlerEvent(FatalError)) <==> received == Ready(None)
    ensures r.Ready? && r != Ready(HandlerEvent(FatalError)) ==>
              received == Ready(Untranslate(r.value))
  {
    match received
    case Pending => Pending
    case Ready(None) => Ready(HandlerEvent(FatalError))
    case Ready(Some(ev)) => Ready(Translate(ev))
  }

  datatype HandlerPolled = HandlerPolled(answer: Poll<RequestHandlerEvent>, handler: ApiRequestHandler)

  /** `EngineApiRequestHandler::poll`: receives one answer from the tree channel. */
  function PollHandler(h: ApiRequestHandler): (r: HandlerPolled)
    ensures r.handler.toTree == h.toTree
    ensures r.handler.fromTree == Next(h.fromTree).rest
    ensures r.answer == Ready(HandlerEvent(FatalError)) <==>
              |h.fromTree| > 0 && h.fromTree[0] == Ready(None)
    ensures r.answer.Pending? <==> |h.fromTree| == 0 || h.fromTree[0].Pending?
    ensures |h.fromTree| > 0 && h.fromTree[0].Ready? && h.fromTree[0].value.Some? ==>
              r.answer == Ready(Translate(h.fromTree[0].value.value))
  {
    var next := Next(h.fromTree);
    HandlerPolled(OnReceived(next.answer), h.(fromTree := next.rest))
  }

  /** `EngineApiRequestHandler::on_event`: forwards the input to the tree task and drops
      the send error, if any. */
  function OnEvent(h: ApiRequestHandler, input: FromEngine): (r: ApiRequestHandler)
    ensures r.fromTree == h.fromTree
    ensures r.toTree.receiverAlive == h.toTree.receiverAlive
    ensures r.toTree.accepted ==
              h.toTree.accepted + (if h.toTree.receiverAlive then [input] else [])
  {
    match Send(h.toTree, input)
    case Sent(ch) => h.(toTree := ch)
    case SendError(_) => h
  }

  /** Forwarding an input never changes what the next poll reports: a failed send is not
      surfaced; a dead tree task shows only as a closed event channel. */
  lemma OnEventIsSilent(h: ApiRequestHandler, input: FromEngine)
    ensures PollHandler(OnEvent(h, input)).answer == PollHandler(h).answer
    ensures !h.toTree.receiverAlive ==> OnEvent(h, input) == h
  {
  }

  /** The handler as a scripted source: the answers it gives to successive polls. */
  function AsScript(fromTree: FromTree): (script: seq<Poll<RequestHandlerEvent>>)
    ensures |script| == |fromTree|
  {
    seq(|fromTree|, i requires 0 <= i < |fromTree| => OnReceived(fromTree[i]))
  }

  /** Polling the handler is answering from its script, and what remains is the script
      of the remaining channel. */
  lemma PollHandlerFollowsScript(h: ApiRequestHandler)
    ensures PollHandler(h).answer == Next(AsScript(h.fromTree)).answer
    ensures AsScript(PollHandler(h).handler.fromTree) == Next(AsScript(h.fromTree)).rest
  {
  }

  /** A failed send followed by the channel closing is not a silent hang: the next poll
      reports `FatalError`. */
  lemma SendFailureThenClosureIsFatal(h: ApiRequestHandler, input: FromEngine)
    requires !h.toTree.receiverAlive
    requires |h.fromTree| > 0 && h.fromTree[0] == Ready(None)
    ensures PollHandler(OnEvent(h, input)).answer == Ready(HandlerEvent(FatalError))
  {
  }
}

/**
 `EngineHandler` (crates/engine/tree/src/engine.rs): the poll-driven loop that multiplexes
 a request handler, a stream of incoming consensus-layer requests and a block downloader.

 The three collaborators are scripts of the answers their `poll` gives (a used-up script
 has nothing ready). One call of `poll` becomes a function from the scripts to the result,
 the trace of every interaction in order, and the scripts left over.
 */
module Engine {
  import opened Messages

  /** One interaction of the loop with a collaborator. */
  datatype Effect =
    | PolledHandler(handlerAnswer: Poll<RequestHandlerEvent>)      // handler.poll
    | PolledIncoming(incomingAnswer: Poll<Option<EngineRequest>>)   // incoming_requests.poll_next_unpin
    | PolledDownloader(downloaderAnswer: Poll<DownloadOutcome>)     // downloader.poll
    | Commanded(action: DownloadAction)                             // downloader.on_action
    | Delivered(input: FromEngine)                                  // handler.on_event

  type Trace = seq<Effect>

  /** What each collaborator will answer to its next polls. */
  datatype Scripts = Scripts(
    handler: seq<Poll<RequestHandlerEvent>>,
    incoming: seq<Poll<Option<EngineRequest>>>,
    downloader: seq<Poll<DownloadOutcome>>)

  /** The stream has a request ready; `Ready(None)` (stream ended) is not one. */
  predicate IsRequest(answer: Poll<Option<EngineRequest>>)
  {
    answer.Ready? && answer.value.Some?
  }

  /** The effects that end a drain which stopped at handler event `ev`. */
  function Bubbling(ev: HandlerEvent): Trace
  {
    [PolledHandler(Ready(HandlerEvent(ev)))] + (if ev.BackfillAction? then [Commanded(Clear)] else [])
  }

  /** The trace ends with the handler producing `ev`, followed by a `Clear` command to the
      downloader exactly when `ev` is a backfill request. */
  predicate EndsBubbling(t: Trace, ev: HandlerEvent)
  {
    if ev.BackfillAction? then
      |t| >= 2 && t[|t| - 2] == PolledHandler(Ready(HandlerEvent(ev))) && t[|t| - 1] == Commanded(Clear)
    else
      |t| >= 1 && t[|t| - 1] == PolledHandler(Ready(HandlerEvent(ev)))
  }

  datatype Drained = Drained(bubbled: Option<HandlerEvent>, trace: Trace, rest: Scripts)

  /** The inner `while let` loop: polls the handler until it is pending or has an event to
      bubble up; download requests are handed to the downloader on the way. */
  function Drain(s: Scripts): (d: Drained)
    decreases |s.handler|
    ensures d.rest.incoming == s.incoming && d.rest.downloader == s.downloader
    ensures |d.trace| > 0 && d.trace[0].PolledHandler?
    ensures forall i :: 0 <= i < |d.trace| ==> d.trace[i].PolledHandler? || d.trace[i].Commanded?
    ensures d.bubbled.None? ==> d.trace[|d.trace| - 1] == PolledHandler(Pending)
    ensures d.bubbled.Some? ==> EndsBubbling(d.trace, d.bubbled.value)
  {
    var next: Answer<RequestHandlerEvent> := Next(s.handler);
    var s' := s.(handler := next.rest);
    match next.answer
    case Pending => Drained(None, [PolledHandler(Pending)], s')
    case Ready(Download(req)) =>
      var d := Drain(s');
      Drained(d.bubbled,
              [PolledHandler(next.answer), Commanded(DownloadAction.Download(req))] + d.trace,
              d.rest)
    case Ready(HandlerEvent(ev)) => Drained(Some(ev), Bubbling(ev), s')
  }

  datatype Intake = Intake(progressed: bool, trace: Trace, rest: Scripts)

  /** The rest of one iteration of the outer loop, once the handler is pending: take one
      incoming request, or else one downloaded batch, or else give up. */
  function Accept(s: Scripts): (r: Intake)
    ensures r.rest.handler == s.handler
    ensures r.progressed ==> |r.rest.incoming| + |r.rest.downloader| < |s.incoming| + |s.downloader|
    ensures |r.trace| >= 2 && r.trace[0].PolledIncoming?
    ensures r.progressed <==> r.trace[|r.trace| - 1].Delivered?
  {
    var inc := Next(s.incoming);
    if IsRequest(inc.answer) then
      Intake(true,
             [PolledIncoming(inc.answer), Delivered(Request(inc.answer.value.value))],
             s.(incoming := inc.rest))
    else
      var dl: Answer<DownloadOutcome> := Next(s.downloader);
      var s' := s.(incoming := inc.rest, downloader := dl.rest);
      match dl.answer
      case Ready(Blocks(blocks)) =>
        Intake(true,
               [PolledIncoming(inc.answer), PolledDownloader(dl.answer), Delivered(DownloadedBlocks(blocks))],
               s')
      case Pending =>
        Intake(false, [PolledIncoming(inc.answer), PolledDownloader(Pending)], s')
  }

  /** The last three effects say that the handler, the stream and the downloader had
      nothing ready, in that order. */
  predicate EndsIdle(t: Trace)
  {
    && |t| >= 3
    && t[|t| - 3] == PolledHandler(Pending)
    && t[|t| - 2].PolledIncoming? && !IsRequest(t[|t| - 2].incomingAnswer)
    && t[|t| - 1] == PolledDownloader(Pending)
  }

  datatype Polled = Polled(result: Poll<HandlerEvent>, trace: Trace, rest: Scripts)

  /** `EngineHandler::poll`. It is pending exactly when its last iteration found all
      three collaborators with nothing ready; otherwise it returns what the handler
      bubbled up, as the handler's own last answer. */
  function PollEngine(s: Scripts): (o: Polled)
    decreases |s.incoming| + |s.downloader|
    ensures o.result.Pending? <==> EndsIdle(o.trace)
    ensures o.result.Ready? ==> EndsBubbling(o.trace, o.result.value)
  {
    var d := Drain(s);
    if d.bubbled.Some? then
      Polled(Ready(d.bubbled.value), d.trace, d.rest)
    else
      var a := Accept(d.rest);
      if a.progressed then
        var o := PollEngine(a.rest);
        var prefix := d.trace + a.trace;
        Polled(o.result, prefix + o.trace, o.rest)
      else
        Polled(Pending, d.trace + a.trace, a.rest)
  }

  /** `EngineHandler::on_event`: the orchestrator's event reaches the handler as
      `FromEngine::Event`, and nothing else happens. */
  function OnEvent(ev: OrchestratorEvent): (t: Trace)
    ensures |t| == 1 && t[0].Delivered? && t[0].input.Event? && t[0].input.event == ev
  {
    [Delivered(FromOrchestrator(ev))]
  }

  /** The entries a trace projects to under `f`, in order. */
  function Project<T>(t: Trace, f: Effect -> seq<T>): seq<T>
  {
    if |t| == 0 then [] else f(t[0]) + Project(t[1..], f)
  }

  lemma {:induction false} ProjectAppend<T>(a: Trace, b: Trace, f: Effect -> seq<T>)
    ensures Project(a + b, f) == Project(a, f) + Project(b, f)
  {
    if |a| > 0 {
      assert (a + b)[0] == a[0];
      assert (a + b)[1..] == a[1..] + b;
      ProjectAppend(a[1..], b, f);
    } else {
      assert a + b == b;
    }
  }

  lemma ProjectOne<T>(e: Effect, f: Effect -> seq<T>)
    ensures Project([e], f) == f(e)
  {
    assert [e][1..] == [];
  }

  function HandlerAnswerOf(e: Effect): seq<Poll<RequestHandlerEvent>>
  {
    if e.PolledHandler? then [e.handlerAnswer] else []
  }

  function IncomingAnswerOf(e: Effect): seq<Poll<Option<EngineRequest>>>
  {
    if e.PolledIncoming? then [e.incomingAnswer] else []
  }

  function DownloaderAnswerOf(e: Effect): seq<Poll<DownloadOutcome>>
  {
    if e.PolledDownloader? then [e.downloaderAnswer] else []
  }

  function CommandOf(e: Effect): seq<DownloadAction>
  {
    if e.Commanded? then [e.action] else []
  }

  function InputOf(e: Effect): seq<FromEngine>
  {
    if e.Delivered? then [e.input] else []
  }

  /** The answers the handler gave, in order. */
  function HandlerAnswers(t: Trace): seq<Poll<RequestHandlerEvent>> { Project(t, HandlerAnswerOf) }
  /** The answers the incoming stream gave, in order. */
  function IncomingAnswers(t: Trace): seq<Poll<Option<EngineRequest>>> { Project(t, IncomingAnswerOf) }
  /** The answers the downloader gave, in order. */
  function DownloaderAnswers(t: Trace): seq<Poll<DownloadOutcome>> { Project(t, DownloaderAnswerOf) }
  /** The commands sent to the downloader, in order. */
  function Commands(t: Trace): seq<DownloadAction> { Project(t, CommandOf) }
  /** The inputs delivered to the handler, in order. */
  function Inputs(t: Trace): seq<FromEngine> { Project(t, InputOf) }
}

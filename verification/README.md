# Engine request multiplexer

This project models the engine request handler of the tree crate
(`crates/engine/tree/src/engine.rs`). It covers two components:

- `EngineHandler` is a poll-driven loop. It multiplexes three collaborators: a request handler, a stream of incoming
  consensus-layer requests, and a block downloader. Each call of `poll` does the following:
  - It drains the handler first. Download requests go to the downloader. A backfill request, an event or a fatal error
    is returned at once, and a backfill request is preceded by `DownloadAction::Clear`.
  - It then takes at most one incoming request.
  - If no request was taken, it takes at most one batch of downloaded blocks.
  - After any delivery it starts over. When all three collaborators are idle it returns `Pending`.
- `EngineApiRequestHandler` is the request handler that forwards every input to the tree task over one channel. It
  translates what the tree task sends back over another channel. A closed channel becomes `FatalError`.

The asynchronous machinery is modelled by replacing each collaborator with a script: the answers its successive polls
give. A script that is used up has nothing ready. One call of `poll` then becomes a total function, `Engine.PollEngine`.
It maps the scripts to three things:
- the result;
- the trace of every interaction, in order: each poll and its answer, each downloader command, each input delivered to
  the handler;
- the scripts left over.

Termination follows from the number of stream and downloader answers left.

The modules are:

- `Messages` holds the message types:
  - `FromEngine`, `RequestHandlerEvent`, `HandlerEvent`, `EngineApiEvent`, `DownloadRequest`, `DownloadAction` and
    `DownloadOutcome`;
  - `single_block` and the conversion of orchestrator events;
  - the scripted source `Next`.
- `ApiHandler` holds `EngineApiRequestHandler`, the translation of tree events, and `is_backfill_action`. The sending channel is a value that records what it accepted. The
  receiving channel is a script of `poll_recv` answers.
- `Engine` holds `EngineHandler::poll` (`Drain`, `Accept`, `PollEngine`), `EngineHandler::on_event`, and projections
  of a trace.
- `Protocol` is an independent reference definition of `poll`. It is a state machine over the effects a collaborator
  can see, together with the requirement that every answer in the trace comes from the scripts. `PollIsTheProtocol`
  shows that a trace is the one `PollEngine` computes if and only if it follows the protocol and agrees with the scripts.
- `EngineProperties` holds the ordering and priority guarantees. They are proved for every trace the protocol accepts,
  and so for every call of `PollEngine`.
- `Scenarios` holds concrete calls, some of them with `EngineApiRequestHandler` as the handler.

## Model

| member | source | states |
|---|---|---|
| Messages.BlockSetOf | crates/engine/tree/src/engine.rs:281 | a `BlockSet` built from hashes contains exactly those hashes |
| Messages.BlockSetCollapsesDuplicates | crates/engine/tree/src/engine.rs:273 | a `HashSet` of block hashes never has more elements than the hashes it was built from, and has as many exactly when they are pairwise distinct |
| Messages.SingleBlock | crates/engine/tree/src/engine.rs:280-282 | `single_block(h)` is a `BlockSet` with exactly one element, and that element is `h` |
| Messages.DuplicateHashIsSingleBlock | crates/engine/tree/src/engine.rs:280-282 | a set built from a repeated hash is the single-block request for that hash |
| Messages.FromOrchestrator | crates/engine/tree/src/engine.rs:254-258 | an orchestrator event becomes `FromEngine::Event` carrying that same event |
| Messages.FromOrchestratorIsInjective | crates/engine/tree/src/engine.rs:254-258 | two orchestrator events convert to the same input exactly when they are the same event |
| ApiHandler.Send | crates/engine/tree/src/engine.rs:188 | a send succeeds, appending the message, exactly when the receiver is alive; otherwise it hands the message back |
| ApiHandler.OnEvent | crates/engine/tree/src/engine.rs:186-189 | `on_event` forwards the input to the tree task when the tree task is alive, drops it silently otherwise, and leaves the event channel alone |
| ApiHandler.OnEventIsSilent | crates/engine/tree/src/engine.rs:186-189 | `on_event` leaves the event channel untouched and surfaces no send error; with a dead tree task it changes nothing at all |
| ApiHandler.Translate | crates/engine/tree/src/engine.rs:196-204 | the translated event can be recovered from the handler event it becomes, and no tree event becomes `FatalError` |
| ApiHandler.OnReceived | crates/engine/tree/src/engine.rs:192-205 | a pending channel gives a pending poll, a closed channel and only a closed channel gives `FatalError`, and any other answer carries the event the channel delivered |
| ApiHandler.PollHandler | crates/engine/tree/src/engine.rs:191-206 | `poll` consumes one channel answer: pending exactly when the channel is, `FatalError` exactly when the channel is closed, and otherwise the translation of the received event |
| ApiHandler.TranslateIsInjective | crates/engine/tree/src/engine.rs:196-204 | each tree event maps to one handler event and can be recovered from it; `FatalError` is the only handler event no tree event maps to |
| ApiHandler.IsBackfillAction | crates/engine/tree/src/engine.rs:232-234 | `is_backfill_action` holds exactly when the request handler turns the event into a backfill request |
| ApiHandler.FromConsensusEvent | crates/engine/tree/src/engine.rs:237-241 | a converted consensus event reaches the orchestrator as that same event and is never a backfill action |
| ApiHandler.PollHandlerFollowsScript | crates/engine/tree/src/engine.rs:191-206 | polling the handler answers from the script the channel determines, and leaves the script of the rest of the channel |
| ApiHandler.SendFailureThenClosureIsFatal | crates/engine/tree/src/engine.rs:186-194 | a failed send followed by a closed channel is reported as `FatalError` on the next poll, not as a hang |
| Engine.Drain | crates/engine/tree/src/engine.rs:75-96 | the drain polls only the handler and commands only the downloader; it ends with the handler pending, or with the handler's event, followed by `Clear` exactly when the event is a backfill request |
| Engine.Accept | crates/engine/tree/src/engine.rs:98-113 | after the drain the stream is polled first; the step delivers something exactly when its last effect is a delivery, and it then shortens the scripts |
| Engine.PollEngine | crates/engine/tree/src/engine.rs:72-115 | `poll` is pending exactly when its last three effects are the handler pending, the stream without a request and the downloader pending; when ready, it returns the handler's own last event, after a `Clear` exactly for a backfill request |
| Engine.OnEvent | crates/engine/tree/src/engine.rs:67-70 | `on_event` delivers the orchestrator's event to the handler as `FromEngine::Event` and does nothing else |
| Protocol.DrainFollowsProtocol | crates/engine/tree/src/engine.rs:75-96 | the drain follows the reference protocol from draining to handler-idle or to the return, and takes its answers from the scripts |
| Protocol.AcceptFollowsProtocol | crates/engine/tree/src/engine.rs:98-113 | the intake step follows the reference protocol back to draining or to a `Pending` return, and takes its answers from the scripts |
| Protocol.PollFollowsProtocol | crates/engine/tree/src/engine.rs:72-115 | every call of `poll` is a complete run of the reference protocol whose answers come from the scripts |
| Protocol.Deterministic | crates/engine/tree/src/engine.rs:72-115 | two complete protocol runs that take their answers from the same scripts are the same run |
| Protocol.PollIsTheProtocol | crates/engine/tree/src/engine.rs:72-115 | a trace, result and leftover scripts are those of `poll` if and only if the protocol accepts the trace with that result and the trace agrees with the scripts |
| EngineProperties.DownloadRequestsKeepDraining | crates/engine/tree/src/engine.rs:91-94 | a download request from the handler is commanded to the downloader at once, unchanged, and the handler is polled again right after |
| EngineProperties.StreamPolledOnlyWhenHandlerIdle | crates/engine/tree/src/engine.rs:75-99 | the stream is polled only right after the handler reported pending |
| EngineProperties.DownloaderPolledOnlyWhenStreamIdle | crates/engine/tree/src/engine.rs:98-107 | the downloader is polled only right after the handler was pending and the stream then had no request |
| EngineProperties.RequestsDeliveredOnlyWhenHandlerIdle | crates/engine/tree/src/engine.rs:99-104 | a request reaches the handler as `FromEngine::Request`, unchanged, right after the stream yielded it and only after the handler was pending |
| EngineProperties.BlocksDeliveredOnlyWhenIdle | crates/engine/tree/src/engine.rs:107-111 | downloaded blocks reach the handler as `FromEngine::DownloadedBlocks`, unchanged, right after the downloader yielded them and only when the handler and the stream were idle |
| EngineProperties.HandlerRedrainedAfterInput | crates/engine/tree/src/engine.rs:99-111 | after every delivery the next effect is a handler poll, so the handler is re-drained before the stream, the downloader or a return |
| EngineProperties.RequestsTakenAreDeliveredAtOnce | crates/engine/tree/src/engine.rs:99-101 | a request the stream yields is delivered to the handler as `FromEngine::Request` by the very next effect, unchanged |
| EngineProperties.DownloadsTakenAreDeliveredAtOnce | crates/engine/tree/src/engine.rs:107-109 | a batch the downloader yields is delivered to the handler as `FromEngine::DownloadedBlocks` by the very next effect, unchanged |
| EngineProperties.HandlerEventsEndTheCall | crates/engine/tree/src/engine.rs:77-89 | a handler event is the call's result and ends the call, followed only by the `Clear` of a backfill request, so no handler event is passed over |
| EngineProperties.PollDeliversAtOnce | crates/engine/tree/src/engine.rs:72-115 | every call of `poll` hands on requests, downloaded blocks and handler events at once, as the three guarantees above state |
| EngineProperties.PollIsOrdered | crates/engine/tree/src/engine.rs:72-115 | every call of `poll` has the six ordering guarantees from `DownloadRequestsKeepDraining` to `HandlerRedrainedAfterInput` |
| EngineProperties.CommandsFromPhase | crates/engine/tree/src/engine.rs:79-94 | along a protocol run, the downloader commands are the requested downloads plus the commands owed at the start and the `Clear` still to come |
| EngineProperties.CommandsAreRequestedDownloads | crates/engine/tree/src/engine.rs:79-94 | the downloader receives exactly the handler's download requests, in order, then one `Clear` if and only if the call returns a backfill request; an event or a fatal error commands nothing |
| Scenarios.IdleHandlerTakesOneRequest | crates/engine/tree/src/engine.rs:98-104 | with the handler idle and a request ready, one iteration delivers the request and starts over |
| Scenarios.IdleHandlerTakesEveryRequest | crates/engine/tree/src/engine.rs:98-104 | a pending handler receives every ready request in one call, in order, and the call then returns `Pending` with all scripts used up |
| Scenarios.DownloadThenIdle | crates/engine/tree/src/engine.rs:91-113 | a single-block download request is commanded, and with nothing else ready the call is pending |
| Scenarios.DownloadedBlocksAreRedrained | crates/engine/tree/src/engine.rs:107-111 | downloaded blocks are delivered unchanged and the handler is polled again before the call returns |
| Scenarios.BackfillClearsDownloaderFirst | crates/engine/tree/src/engine.rs:79-83 | a backfill request commands `Clear` and is returned with its target, without polling the stream or the downloader |
| Scenarios.ClosedChannelIsFatal | crates/engine/tree/src/engine.rs:192-194 | with `EngineApiRequestHandler` as the handler, a closed tree channel makes `poll` return `FatalError` at once, delivering and commanding nothing |
| Scenarios.FatalErrorIsNotLatched | crates/engine/tree/src/engine.rs:88 | after `FatalError` is returned, a later call with a pending handler delivers requests again: the loop keeps no fatal state |

## Left out

- The asynchronous shell is not modelled: `Context`, waker registration, `Stream`/`poll_next_unpin`, Tokio and std channels, and the `Send`/`Sync` bounds. Each collaborator is a finite script of poll answers, and a used-up script answers `Pending`.
- Handler answers do not depend on the inputs delivered to the handler. The script is fixed in advance, which covers every sequence of answers a real handler could give but does not relate the two.
- `Ready(None)` from the incoming stream is consumed and treated like not-ready, as the `if let` at line 99 does. It is not treated as shutdown.
- A command to the downloader does not change the downloader's script: `Clear` is recorded in the trace, but its effect on pending downloads belongs to the downloader, which is not part of this model.
- The tree executor behind the channels, the backfill sync and the real block downloader are not part of this model.
- The contents of `BeaconEngineMessage`, `BeaconConsensusEngineEvent`, `BackfillAction`, `FromOrchestrator`, `SealedBlockWithSenders` and `B256` are opaque types. `HashSet<B256>` is a Dafny `set`, without hashing.
- `EngineApiKind` has no behaviour and is not modelled. Neither are the constructors `EngineHandler::new` and `EngineApiRequestHandler::new`, which only store their arguments.
- The `u64` count of `DownloadRequest::BlockRange` is carried as a bounded integer and never computed with.
- A fatal error is not terminal. A caller might expect that no input is delivered after `FatalError`, but the loop at lines 72-115 keeps no flag, and `Scenarios.FatalErrorIsNotLatched` shows that a later call delivers input again. In practice a closed tokio channel keeps answering `Ready(None)`, so the request handler keeps reporting `FatalError`. A script, however, may list any answers after a closure.
- A failed send in `EngineApiRequestHandler::on_event` is modelled only as dropped. What a dead tree task means beyond a closed event channel is not modelled.

/**
 A reference definition of `EngineHandler::poll` (crates/engine/tree/src/engine.rs:72-115),
 independent of the recursive functions in module Engine: a state machine over the effects
 a collaborator can observe. Together with the requirement that every poll answer comes from
 the collaborator's script, it admits exactly one trace, and that trace is `PollEngine`'s.
 */
module Protocol {
  import opened Messages
  import opened Engine

  /** Where the loop is, as its collaborators see it. */
  datatype Phase =
    | Draining                              // about to poll the handler
    | Forwarding(request: DownloadRequest)  // owes the downloader this request
    | Clearing(target: BackfillTarget)      // owes the downloader a Clear
    | HandlerIdle                           // the handler is pending: poll the stream
    | Accepting(incoming: EngineRequest)    // owes the handler this request
    | StreamIdle                            // the stream has no request: poll the downloader
    | Delivering(blocks: seq<Block>)        // owes the handler these blocks
    | Returned(result: Poll<HandlerEvent>)  // poll has returned
    | Stuck                                 // the loop never does this

  /** The effect `e` taken in phase `p`. */
  ghost function Step(p: Phase, e: Effect): Phase
  {
    match p
    case Draining =>
      if !e.PolledHandler? then Stuck
      else if e.handlerAnswer.Pending? then HandlerIdle
      else if e.handlerAnswer.value.Download? then Forwarding(e.handlerAnswer.value.request)
      else if e.handlerAnswer.value.event.BackfillAction? then
        Clearing(e.handlerAnswer.value.event.target)
      else Returned(Ready(e.handlerAnswer.value.event))
    case Forwarding(q) =>
      if e == Commanded(DownloadAction.Download(q)) then Draining else Stuck
    case Clearing(target) =>
      if e == Commanded(Clear) then Returned(Ready(HandlerEvent.BackfillAction(target))) else Stuck
    case HandlerIdle =>
      if !e.PolledIncoming? then Stuck
      else if IsRequest(e.incomingAnswer) then Accepting(e.incomingAnswer.value.value)
      else StreamIdle
    case Accepting(r) =>
      if e == Delivered(Request(r)) then Draining else Stuck
    case StreamIdle =>
      if !e.PolledDownloader? then Stuck
      else if e.downloaderAnswer.Pending? then Returned(Pending)
      else Delivering(e.downloaderAnswer.value.blocks)
    case Delivering(blocks) =>
      if e == Delivered(DownloadedBlocks(blocks)) then Draining else Stuck
    case Returned(_) => Stuck
    case Stuck => Stuck
  }

  ghost function Run(p: Phase, t: Trace): Phase
    decreases |t|
  {
    if |t| == 0 then p else Run(Step(p, t[0]), t[1..])
  }

  /** `t` is a complete call of `poll` that returns `result`. */
  ghost predicate Accepts(t: Trace, result: Poll<HandlerEvent>)
  {
    Run(Draining, t) == Returned(result)
  }

  lemma {:induction false} RunAppend(p: Phase, a: Trace, b: Trace)
    ensures Run(p, a + b) == Run(Run(p, a), b)
    decreases |a|
  {
    if |a| > 0 {
      assert (a + b)[0] == a[0];
      assert (a + b)[1..] == a[1..] + b;
      RunAppend(Step(p, a[0]), a[1..], b);
    } else {
      assert a + b == b;
    }
  }

  lemma {:induction false} StuckStaysStuck(t: Trace)
    ensures Run(Stuck, t) == Stuck
  {
    if |t| > 0 {
      StuckStaysStuck(t[1..]);
    }
  }

  /** The phase of a run from `p` just before effect `i` of `t`. */
  ghost function PhaseBefore(p: Phase, t: Trace, i: nat): Phase
    requires i <= |t|
  {
    Run(p, t[..i])
  }

  /** A run that ends in `Returned` takes a non-stuck step at every effect, and has not
      returned before its last effect. */
  lemma PhaseStep(p: Phase, t: Trace, i: nat)
    requires Run(p, t).Returned? && i < |t|
    ensures PhaseBefore(p, t, i + 1) == Step(PhaseBefore(p, t, i), t[i])
    ensures PhaseBefore(p, t, i + 1) != Stuck && !PhaseBefore(p, t, i).Returned?
  {
    assert t[..i + 1] == t[..i] + [t[i]];
    RunAppend(p, t[..i], [t[i]]);
    assert Run(Run(p, t[..i]), [t[i]]) == Run(Step(Run(p, t[..i]), t[i]), []);
    assert t == t[..i + 1] + t[i + 1..];
    RunAppend(p, t[..i + 1], t[i + 1..]);
    if Run(p, t[..i + 1]) == Stuck {
      StuckStaysStuck(t[i + 1..]);
    }
  }

  lemma PhaseEnds(p: Phase, t: Trace)
    ensures PhaseBefore(p, t, 0) == p
    ensures PhaseBefore(p, t, |t|) == Run(p, t)
  {
    assert t[..|t|] == t;
    assert t[..0] == [];
  }

  /** The rest of `script` once it has given `answers`, or `None` when it would have given
      something else; a used-up script keeps answering `Pending`. */
  ghost function Consume<T>(script: seq<Poll<T>>, answers: seq<Poll<T>>): Option<seq<Poll<T>>>
  {
    if |answers| == 0 then Some(script)
    else if answers[0] == Next(script).answer then Consume(Next(script).rest, answers[1..])
    else None
  }

  lemma {:induction false} ConsumeAppend<T>(script: seq<Poll<T>>, a: seq<Poll<T>>, b: seq<Poll<T>>)
    ensures Consume(script, a + b) ==
              (match Consume(script, a) case None => None case Some(m) => Consume(m, b))
  {
    if |a| > 0 {
      assert (a + b)[0] == a[0];
      assert (a + b)[1..] == a[1..] + b;
      ConsumeAppend(Next(script).rest, a[1..], b);
    } else {
      assert a + b == b;
    }
  }

  /** Every poll answer in `t` is the next answer of that collaborator's script, and
      `rest` is what the scripts have left afterwards. */
  ghost predicate Consistent(s: Scripts, t: Trace, rest: Scripts)
  {
    && Consume(s.handler, HandlerAnswers(t)) == Some(rest.handler)
    && Consume(s.incoming, IncomingAnswers(t)) == Some(rest.incoming)
    && Consume(s.downloader, DownloaderAnswers(t)) == Some(rest.downloader)
  }

  lemma ConsistentAppend(s: Scripts, a: Trace, m: Scripts, b: Trace, r: Scripts)
    requires Consistent(s, a, m) && Consistent(m, b, r)
    ensures Consistent(s, a + b, r)
  {
    ProjectAppend(a, b, HandlerAnswerOf);
    ProjectAppend(a, b, IncomingAnswerOf);
    ProjectAppend(a, b, DownloaderAnswerOf);
    ConsumeAppend(s.handler, HandlerAnswers(a), HandlerAnswers(b));
    ConsumeAppend(s.incoming, IncomingAnswers(a), IncomingAnswers(b));
    ConsumeAppend(s.downloader, DownloaderAnswers(a), DownloaderAnswers(b));
  }

  /** The scripts after the collaborators answered the polls in `e`. */
  function Advance(s: Scripts, e: Effect): Scripts
  {
    match e
    case PolledHandler(_) => s.(handler := Next(s.handler).rest)
    case PolledIncoming(_) => s.(incoming := Next(s.incoming).rest)
    case PolledDownloader(_) => s.(downloader := Next(s.downloader).rest)
    case _ => s
  }

  /** `e`, if it is a poll, takes the next answer of that collaborator's script. */
  ghost predicate AnswersNext(s: Scripts, e: Effect)
  {
    && (e.PolledHandler? ==> e.handlerAnswer == Next(s.handler).answer)
    && (e.PolledIncoming? ==> e.incomingAnswer == Next(s.incoming).answer)
    && (e.PolledDownloader? ==> e.downloaderAnswer == Next(s.downloader).answer)
  }

  lemma ConsistentOne(s: Scripts, e: Effect)
    requires AnswersNext(s, e)
    ensures Consistent(s, [e], Advance(s, e))
  {
    ProjectOne(e, HandlerAnswerOf);
    ProjectOne(e, IncomingAnswerOf);
    ProjectOne(e, DownloaderAnswerOf);
  }

  /** The first effect of a consistent trace takes the next answer of its script. */
  lemma ConsistentStep(s: Scripts, t: Trace, r: Scripts)
    requires |t| > 0 && Consistent(s, t, r)
    ensures Consistent(Advance(s, t[0]), t[1..], r)
    ensures AnswersNext(s, t[0])
  {
    var e := t[0];
    assert t == [e] + t[1..];
    ProjectAppend([e], t[1..], HandlerAnswerOf);
    ProjectAppend([e], t[1..], IncomingAnswerOf);
    ProjectAppend([e], t[1..], DownloaderAnswerOf);
    ProjectOne(e, HandlerAnswerOf);
    ProjectOne(e, IncomingAnswerOf);
    ProjectOne(e, DownloaderAnswerOf);
    ConsumeAppend(s.handler, HandlerAnswerOf(e), HandlerAnswers(t[1..]));
    ConsumeAppend(s.incoming, IncomingAnswerOf(e), IncomingAnswers(t[1..]));
    ConsumeAppend(s.downloader, DownloaderAnswerOf(e), DownloaderAnswers(t[1..]));
  }

  /** Given the scripts, the protocol allows at most one complete run from any phase. */
  lemma {:induction false} Deterministic(p: Phase, s: Scripts, t1: Trace, r1: Scripts, t2: Trace, r2: Scripts)
    requires Run(p, t1).Returned? && Consistent(s, t1, r1)
    requires Run(p, t2).Returned? && Consistent(s, t2, r2)
    ensures t1 == t2 && r1 == r2 && Run(p, t1) == Run(p, t2)
    decreases |t1|
  {
    if |t1| == 0 || |t2| == 0 {
      if |t1| > 0 {
        StuckStaysStuck(t1[1..]);
      }
      if |t2| > 0 {
        StuckStaysStuck(t2[1..]);
      }
    } else {
      var e := t1[0];
      assert Run(p, t1) == Run(Step(p, e), t1[1..]);
      assert Run(p, t2) == Run(Step(p, t2[0]), t2[1..]);
      ConsistentStep(s, t1, r1);
      ConsistentStep(s, t2, r2);
      FirstEffectDetermined(p, s, t1[0], t2[0], t1[1..], t2[1..]);
      Deterministic(Step(p, e), Advance(s, e), t1[1..], r1, t2[1..], r2);
      assert t1 == [e] + t1[1..];
      assert t2 == [e] + t2[1..];
    }
  }

  /** The protocol and the next answers of the scripts fix the next effect of a run. */
  lemma FirstEffectDetermined(p: Phase, s: Scripts, e1: Effect, e2: Effect, u1: Trace, u2: Trace)
    requires Run(Step(p, e1), u1).Returned? && AnswersNext(s, e1)
    requires Run(Step(p, e2), u2).Returned? && AnswersNext(s, e2)
    ensures e1 == e2
  {
    StuckStaysStuck(u1);
    StuckStaysStuck(u2);
  }

  /** One effect that takes the next answer is one protocol step and consumes that answer. */
  lemma OneEffect(p: Phase, s: Scripts, e: Effect)
    requires AnswersNext(s, e)
    ensures Run(p, [e]) == Step(p, e)
    ensures Consistent(s, [e], Advance(s, e))
  {
    ConsistentOne(s, e);
    assert [e][1..] == [];
  }

  lemma TwoEffects(p: Phase, s: Scripts, e0: Effect, e1: Effect)
    requires AnswersNext(s, e0) && AnswersNext(Advance(s, e0), e1)
    ensures Run(p, [e0, e1]) == Step(Step(p, e0), e1)
    ensures Consistent(s, [e0, e1], Advance(Advance(s, e0), e1))
  {
    OneEffect(p, s, e0);
    OneEffect(Step(p, e0), Advance(s, e0), e1);
    assert [e0, e1] == [e0] + [e1];
    RunAppend(p, [e0], [e1]);
    ConsistentAppend(s, [e0], Advance(s, e0), [e1], Advance(Advance(s, e0), e1));
  }

  lemma ThreeEffects(p: Phase, s: Scripts, e0: Effect, e1: Effect, e2: Effect)
    requires AnswersNext(s, e0) && AnswersNext(Advance(s, e0), e1)
    requires AnswersNext(Advance(Advance(s, e0), e1), e2)
    ensures Run(p, [e0, e1, e2]) == Step(Step(Step(p, e0), e1), e2)
    ensures Consistent(s, [e0, e1, e2], Advance(Advance(Advance(s, e0), e1), e2))
  {
    var s2 := Advance(Advance(s, e0), e1);
    TwoEffects(p, s, e0, e1);
    OneEffect(Step(Step(p, e0), e1), s2, e2);
    assert [e0, e1, e2] == [e0, e1] + [e2];
    RunAppend(p, [e0, e1], [e2]);
    ConsistentAppend(s, [e0, e1], s2, [e2], Advance(s2, e2));
  }

  lemma {:induction false} DrainFollowsProtocol(s: Scripts)
    ensures Drain(s).bubbled.None? ==> Run(Draining, Drain(s).trace) == HandlerIdle
    ensures Drain(s).bubbled.Some? ==>
              Run(Draining, Drain(s).trace) == Returned(Ready(Drain(s).bubbled.value))
    ensures Consistent(s, Drain(s).trace, Drain(s).rest)
    decreases |s.handler|
  {
    var next := Next(s.handler);
    var e0 := PolledHandler(next.answer);
    var s' := Advance(s, e0);
    var d := Drain(s);
    if next.answer.Ready? && next.answer.value.Download? {
      var e1 := Commanded(DownloadAction.Download(next.answer.value.request));
      TwoEffects(Draining, s, e0, e1);
      DrainFollowsProtocol(s');
      assert d.trace == [e0, e1] + Drain(s').trace;
      RunAppend(Draining, [e0, e1], Drain(s').trace);
      ConsistentAppend(s, [e0, e1], s', Drain(s').trace, d.rest);
    } else if next.answer.Ready? && next.answer.value.event.BackfillAction? {
      TwoEffects(Draining, s, e0, Commanded(Clear));
      assert d.trace == [e0, Commanded(Clear)];
    } else {
      OneEffect(Draining, s, e0);
      assert d.trace == [e0];
    }
  }

  lemma AcceptFollowsProtocol(s: Scripts)
    ensures Accept(s).progressed ==> Run(HandlerIdle, Accept(s).trace) == Draining
    ensures !Accept(s).progressed ==> Run(HandlerIdle, Accept(s).trace) == Returned(Pending)
    ensures Consistent(s, Accept(s).trace, Accept(s).rest)
  {
    var inc := Next(s.incoming);
    var e0 := PolledIncoming(inc.answer);
    if IsRequest(inc.answer) {
      TwoEffects(HandlerIdle, s, e0, Delivered(Request(inc.answer.value.value)));
    } else {
      var dl := Next(s.downloader);
      var e1 := PolledDownloader(dl.answer);
      if dl.answer.Ready? {
        ThreeEffects(HandlerIdle, s, e0, e1, Delivered(DownloadedBlocks(dl.answer.value.blocks)));
      } else {
        TwoEffects(HandlerIdle, s, e0, e1);
      }
    }
  }

  /** `PollEngine` is a complete run of the protocol that takes every answer from the
      scripts, in order, and leaves exactly the rest of them. */
  lemma {:induction false} PollFollowsProtocol(s: Scripts)
    ensures Accepts(PollEngine(s).trace, PollEngine(s).result)
    ensures Consistent(s, PollEngine(s).trace, PollEngine(s).rest)
    decreases |s.incoming| + |s.downloader|
  {
    var d := Drain(s);
    DrainFollowsProtocol(s);
    if d.bubbled.None? {
      var a := Accept(d.rest);
      AcceptFollowsProtocol(d.rest);
      RunAppend(Draining, d.trace, a.trace);
      ConsistentAppend(s, d.trace, d.rest, a.trace, a.rest);
      if a.progressed {
        var o := PollEngine(a.rest);
        PollFollowsProtocol(a.rest);
        RunAppend(Draining, d.trace + a.trace, o.trace);
        ConsistentAppend(s, d.trace + a.trace, a.rest, o.trace, o.rest);
      }
    }
  }

  /** The protocol and the scripts determine one call of `poll` completely: a trace,
      result and leftover scripts are those of `PollEngine` exactly when the protocol
      accepts the trace with that result and the trace takes its answers from the scripts. */
  lemma PollIsTheProtocol(s: Scripts, t: Trace, result: Poll<HandlerEvent>, rest: Scripts)
    ensures Accepts(t, result) && Consistent(s, t, rest) <==>
              t == PollEngine(s).trace && result == PollEngine(s).result && rest == PollEngine(s).rest
  {
    PollFollowsProtocol(s);
    if Accepts(t, result) && Consistent(s, t, rest) {
      Deterministic(Draining, s, t, rest, PollEngine(s).trace, PollEngine(s).rest);
    }
  }
}

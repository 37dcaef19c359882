/** What a handler makes of what it hears: its substreams, what it hands over, what becomes of the messages it
    sends and its status, each told from the history of answers and events alone. */
module HandlerHistories {
  import opened Types
  import opened SendQueues
  import opened Handlers
  import opened HandlerRuns
  import opened HandlerTimes

  // ---- The outbound substream ----

  function NextOutbound(o: Outbound, e: OutEntry): Outbound {
    match e
    case OutOpened(stream) => WaitingOutput(stream)
    case TookUp(m) => if o.WaitingOutput? then PendingSend(o.stream, m) else o
    case SinkSaid(Done) =>
      if o.PendingSend? then PendingFlush(o.stream) else if o.PendingFlush? then WaitingOutput(o.stream) else o
    case SinkSaid(Failed) => NoOutbound
    case SinkSaid(NotYet) => o
    case OutShut => NoOutbound
  }

  function OutboundOf(said: seq<OutEntry>): Outbound {
    if said == [] then NoOutbound else NextOutbound(OutboundOf(said[..|said| - 1]), said[|said| - 1])
  }

  /** What became of the message that was waiting to be sent. */
  function Resolution(o: Outbound, e: OutEntry): seq<Outcome> {
    if !o.PendingSend? then []
    else match e
      case SinkSaid(Done) => [Given(o.rpc)]
      case SinkSaid(Failed) => [Lost(o.rpc)]
      case OutShut => [Abandoned(o.rpc)]
      case _ => []
  }

  function OutcomesOf(said: seq<OutEntry>): seq<Outcome> {
    if said == [] then []
    else OutcomesOf(said[..|said| - 1]) + Resolution(OutboundOf(said[..|said| - 1]), said[|said| - 1])
  }

  function TakenUp(said: seq<OutEntry>): seq<RpcOut> {
    if said == [] then []
    else TakenUp(said[..|said| - 1]) + if said[|said| - 1].TookUp? then [said[|said| - 1].rpc] else []
  }

  lemma SaidOne(said: seq<OutEntry>, e: OutEntry)
    ensures OutboundOf(said + [e]) == NextOutbound(OutboundOf(said), e)
    ensures OutcomesOf(said + [e]) == OutcomesOf(said) + Resolution(OutboundOf(said), e)
    ensures TakenUp(said + [e]) == TakenUp(said) + if e.TookUp? then [e.rpc] else []
  {
    assert (said + [e])[..|said|] == said;
  }

  ghost predicate OutTold(h: HandlerState) {
    && h.outbound == OutboundOf(h.said) && h.outcomes == OutcomesOf(h.said)
    && TakenTo(h.taken, ToTheSink) == TakenUp(h.said)
  }

  lemma TurnTold(h: HandlerState, now: nat, answer: SinkAnswer)
    requires OutTold(h)
    ensures OutTold(OutboundTurn(h, now, answer).0)
  {
    hide PollNext, OutboundOf, OutcomesOf, TakenUp, TakenTo;
    match h.outbound
    case WaitingOutput(_) =>
      var polled := PollNext(h.queue).1;
      if polled.Ready? && polled.value.Some? {
        var m := polled.value.value;
        var fate := if m.TimedOut(now) then Expired(now) else ForSending(now);
        TakenAppend(h.taken, Taken(m, fate, |h.queue.priority|), ToTheSink);
        SaidOne(h.said, TookUp(m));
        assert OutcomesOf(h.said) + [] == OutcomesOf(h.said);
        assert TakenTo(h.taken, ToTheSink) + [] == TakenTo(h.taken, ToTheSink);
      }
    case _ =>
      SaidOne(h.said, SinkSaid(answer));
      assert OutcomesOf(h.said) + [] == OutcomesOf(h.said) && TakenUp(h.said) + [] == TakenUp(h.said);
  }

  // ---- The inbound substream ----

  function NextInbound(i: Inbound, e: InEntry): Inbound {
    match e
    case InOpened(stream) => WaitingInput(stream)
    case Read(answer) => if i.WaitingInput? && (answer == Broken || answer == Ended) then Closing(i.stream) else i
    case AskedToClose(done) => if done && i.Closing? then NoInbound else i
    case InShut => NoInbound
  }

  function InboundOf(heard: seq<InEntry>): Inbound {
    if heard == [] then NoInbound else NextInbound(InboundOf(heard[..|heard| - 1]), heard[|heard| - 1])
  }

  /** The RPCs that were read, in order. */
  function RpcsRead(heard: seq<InEntry>): seq<Rpc> {
    if heard == [] then []
    else
      var last := heard[|heard| - 1];
      RpcsRead(heard[..|heard| - 1]) + if last.Read? && last.answer.Got? then [last.answer.rpc] else []
  }

  lemma HeardOne(heard: seq<InEntry>, e: InEntry)
    ensures InboundOf(heard + [e]) == NextInbound(InboundOf(heard), e)
    ensures RpcsRead(heard + [e]) == RpcsRead(heard) + if e.Read? && e.answer.Got? then [e.answer.rpc] else []
  {
    assert (heard + [e])[..|heard|] == heard;
  }

  /** What one poll hears on the inbound side. */
  function Hears(inbound: Inbound, source: seq<SourceAnswer>): seq<InEntry> {
    match inbound
    case WaitingInput(_) =>
      if source == [] then [Read(Waiting)]
      else if source[0] == Broken || source[0] == Ended then
        [Read(source[0]), AskedToClose(|source| > 1 && source[1] == Closed)]
      else [Read(source[0])]
    case Closing(_) => [AskedToClose(source != [] && source[0] == Closed)]
    case _ => []
  }

  lemma LoopHears(heard: seq<InEntry>, inbound: Inbound, source: seq<SourceAnswer>)
    requires inbound == InboundOf(heard)
    ensures var (inbound', got, more) := InboundLoop(inbound, source);
            && more == Hears(inbound, source)
            && inbound' == InboundOf(heard + more)
            && RpcsRead(heard + more) == RpcsRead(heard) + if got.Some? then [got.value] else []
  {
    hide InboundOf, RpcsRead;
    var more := InboundLoop(inbound, source).2;
    assert heard + [] == heard && RpcsRead(heard) + [] == RpcsRead(heard);
    if |more| == 1 {
      HeardOne(heard, more[0]);
    } else if |more| == 2 {
      HeardOne(heard, more[0]);
      HeardOne(heard + [more[0]], more[1]);
      assert heard + more == heard + [more[0]] + [more[1]];
    }
  }

  // ---- Polls and events ----

  /** What the sink has said, in order. */
  function SinkAnswers(said: seq<OutEntry>): seq<SinkAnswer> {
    if said == [] then []
    else SinkAnswers(said[..|said| - 1]) + if said[|said| - 1].SinkSaid? then [said[|said| - 1].answer] else []
  }

  lemma AnswersOne(said: seq<OutEntry>, e: OutEntry)
    ensures SinkAnswers(said + [e]) == SinkAnswers(said) + if e.SinkSaid? then [e.answer] else []
  {
    assert (said + [e])[..|said|] == said;
  }

  /** The sink was asked for its answers one after the other, and once more at most. */
  ghost predicate Consulted(before: seq<SinkAnswer>, after: seq<SinkAnswer>, answers: seq<SinkAnswer>) {
    before <= after && after[|before|..] <= answers + [NotYet]
  }

  lemma AskedThen(a: seq<SinkAnswer>, answer: SinkAnswer, b: seq<SinkAnswer>, answers: seq<SinkAnswer>)
    requires answers != [] && answer == answers[0] && Consulted(a + [answer], b, answers[1..])
    ensures Consulted(a, b, answers)
  {
    assert b[|a|..] == [answer] + b[|a| + 1..];
    assert answers + [NotYet] == [answer] + (answers[1..] + [NotYet]);
  }

  lemma {:induction false} LoopAsks(h: HandlerState, now: nat, answers: seq<SinkAnswer>)
    ensures Consulted(SinkAnswers(h.said), SinkAnswers(OutboundLoop(h, now, answers).0.said), answers)
    decreases Work(h)
  {
    hide SinkAnswers, Consulted, Work;
    var (h', turn) := OutboundTurn(h, now, NextAnswer(answers));
    TurnAsks(h, now, answers);
    if turn == Again {
      AgainWorks(h, now, answers);
      LoopAsks(h', now, AnswersLeft(h, answers));
      if h.outbound.PendingSend? || h.outbound.PendingFlush? {
        AskedThen(SinkAnswers(h.said), answers[0],
                  SinkAnswers(OutboundLoop(h', now, AnswersLeft(h, answers)).0.said), answers);
      }
    }
  }

  lemma TurnAsks(h: HandlerState, now: nat, answers: seq<SinkAnswer>)
    ensures var (h', turn) := OutboundTurn(h, now, NextAnswer(answers));
            && Consulted(SinkAnswers(h.said), SinkAnswers(h'.said), answers)
            && (turn == Again && (h.outbound.PendingSend? || h.outbound.PendingFlush?) ==>
                  answers != [] && SinkAnswers(h'.said) == SinkAnswers(h.said) + [answers[0]])
            && (turn == Again && !(h.outbound.PendingSend? || h.outbound.PendingFlush?) ==>
                  SinkAnswers(h'.said) == SinkAnswers(h.said))
  {
    hide SinkAnswers, PollNext;
    var h' := OutboundTurn(h, now, NextAnswer(answers)).0;
    if |h'.said| == |h.said| + 1 {
      AnswersOne(h.said, h'.said[|h.said|]);
    }
  }

  lemma {:induction false} LoopTold(h: HandlerState, now: nat, answers: seq<SinkAnswer>)
    requires OutTold(h)
    ensures OutTold(OutboundLoop(h, now, answers).0)
    decreases Work(h)
  {
    hide OutboundTurn, OutTold, Work;
    var (h', turn) := OutboundTurn(h, now, NextAnswer(answers));
    TurnTold(h, now, NextAnswer(answers));
    if turn == Again {
      AgainWorks(h, now, answers);
      LoopTold(h', now, AnswersLeft(h, answers));
    }
  }

  lemma StaleTold(h: HandlerState, now: nat)
    requires OutTold(h)
    ensures var (h', polled) := DropOneStale(h, now);
            OutTold(h') && h'.said == h.said && h'.heard == h.heard && h'.inbound == h.inbound && !polled.Received?
  {
    hide PollStale, TakenTo, OutboundOf, OutcomesOf, TakenUp;
    var polled := PollStale(h.queue, now).1;
    if polled.Ready? && polled.value.Some? {
      TakenAppend(h.taken, Taken(polled.value.value, Stale(now), |h.queue.priority|), ToTheSink);
      assert TakenTo(h.taken, ToTheSink) + [] == TakenTo(h.taken, ToTheSink);
    }
  }

  /** What a poll does with what it hears. */
  ghost predicate PollHears(h: HandlerState, h': HandlerState, polled: Polled, sink: seq<SinkAnswer>,
                            source: seq<SourceAnswer>) {
    && OutTold(h') && h'.inbound == InboundOf(h'.heard)
    && Consulted(SinkAnswers(h.said), SinkAnswers(h'.said), sink)
    && (h'.heard == h.heard || h'.heard == h.heard + Hears(h.inbound, source))
    && RpcsRead(h'.heard) == RpcsRead(h.heard) + if polled.Received? then [polled.rpc] else []
  }

  lemma PollTold(h: HandlerState, now: nat, sink: seq<SinkAnswer>, source: seq<SourceAnswer>)
    requires OutTold(h) && h.inbound == InboundOf(h.heard)
    ensures var (h', polled) := PollHandler(h, now, sink, source); PollHears(h, h', polled, sink, source)
  {
    hide OutboundLoop, InboundLoop, DropOneStale, PollIsEmpty, OutTold, Consulted, InboundOf, RpcsRead, SinkAnswers,
         Hears;
    var h1 := h.(queue := PollIsEmpty(h.queue).0);
    SameTold(h, h1);
    SameTold(h, h1.(establishing := true));
    NothingAsked(SinkAnswers(h.said), sink);
    assert RpcsRead(h.heard) + [] == RpcsRead(h.heard);
    LoopTold(h1, now, sink);
    LoopAsks(h1, now, sink);
    LoopFrame(h1, now, sink);
    var h2 := OutboundLoop(h1, now, sink).0;
    LoopHears(h.heard, h.inbound, source);
    var (inbound, got, heard) := InboundLoop(h2.inbound, source);
    var h3 := h2.(inbound := inbound, heard := h2.heard + heard);
    SameTold(h2, h3);
    StaleTold(h3, now);
  }

  lemma SameTold(h: HandlerState, h': HandlerState)
    requires OutTold(h) && h'.outbound == h.outbound && h'.outcomes == h.outcomes && h'.said == h.said
    requires h'.taken == h.taken
    ensures OutTold(h')
  {}

  lemma NothingAsked(before: seq<SinkAnswer>, answers: seq<SinkAnswer>)
    ensures Consulted(before, before, answers)
  {}

  lemma DisableTold(h: HandlerState, status: Status)
    requires OutTold(h) && h.inbound == InboundOf(h.heard)
    ensures var h' := Disable(h, status);
            OutTold(h') && h'.inbound == InboundOf(h'.heard) && RpcsRead(h'.heard) == RpcsRead(h.heard)
  {
    hide TakenTo, OutboundOf, OutcomesOf, TakenUp, InboundOf, RpcsRead, ReceiverGone, HeadsTaken;
    SaidOne(h.said, OutShut);
    HeardOne(h.heard, InShut);
    NoneForTheSink(h.taken, HeadsTaken(h.queue)) by { HeadsAreTheHandlers(h.queue); }
    assert RpcsRead(h.heard) + [] == RpcsRead(h.heard) && TakenUp(h.said) + [] == TakenUp(h.said);
  }

  lemma HeadsAreTheHandlers(q: SendQueue)
    ensures forall t :: t in HeadsTaken(q) ==> t.fate == WithHandler
  {}

  lemma {:induction false} NoneForTheSink(taken: seq<Taken>, more: seq<Taken>)
    requires forall t :: t in more ==> t.fate == WithHandler
    ensures TakenTo(taken + more, ToTheSink) == TakenTo(taken, ToTheSink)
  {
    if more == [] {
      assert taken + more == taken;
    } else {
      var k := |more| - 1;
      assert more[k] in more;
      NoneForTheSink(taken, more[..k]);
      TakenAppend(taken + more[..k], more[k], ToTheSink);
      assert taken + more == (taken + more[..k]) + [more[k]];
    }
  }

  lemma EventTold(h: HandlerState, event: ConnectionEvent)
    requires OutTold(h) && h.inbound == InboundOf(h.heard)
    ensures var h' := OnEvent(h, event);
            OutTold(h') && h'.inbound == InboundOf(h'.heard) && RpcsRead(h'.heard) == RpcsRead(h.heard)
  {
    hide TakenTo, OutboundOf, OutcomesOf, TakenUp, InboundOf, RpcsRead, Disable;
    assert RpcsRead(h.heard) + [] == RpcsRead(h.heard) && TakenUp(h.said) + [] == TakenUp(h.said);
    assert OutcomesOf(h.said) + [] == OutcomesOf(h.said);
    forall h1: HandlerState, status | h1 == h.(inboundAttempts := h1.inboundAttempts, establishing := h1.establishing,
                                               outboundAttempts := h1.outboundAttempts)
      ensures var h' := Disable(h1, status);
              OutTold(h') && h'.inbound == InboundOf(h'.heard) && RpcsRead(h'.heard) == RpcsRead(h.heard)
    {
      DisableTold(h1, status);
    }
    if event.FullyNegotiatedInbound? {
      HeardOne(h.heard, InOpened(event.stream));
    }
    if event.FullyNegotiatedOutbound? {
      SaidOne(h.said, OutOpened(event.stream));
    }
  }

  // ---- Lives ----

  ghost predicate AllTold(l: Life) {
    OutTold(l.h) && l.h.inbound == InboundOf(l.h.heard) && l.received == RpcsRead(l.h.heard)
  }

  lemma {:induction false} RunTold(queueLen: nat, steps: seq<Step>)
    ensures AllTold(Run(NewLife(queueLen), steps))
  {
    hide PollHandler, OnEvent, TrySend, OutTold, InboundOf, RpcsRead, Consulted, Hears, SinkAnswers;
    if steps == [] {
      NothingTold(queueLen);
    } else {
      var k := |steps| - 1;
      var l := Run(NewLife(queueLen), steps[..k]);
      RunTold(queueLen, steps[..k]);
      assert RpcsRead(l.h.heard) + [] == RpcsRead(l.h.heard);
      match steps[k]
      case Send(rpc) => SameTold(l.h, l.h.(queue := TrySend(l.h.queue, rpc).0));
      case PollAt(now, sink, source) => PollTold(l.h, now, sink, source);
      case Happen(event) => EventTold(l.h, event);
    }
  }

  lemma NothingTold(queueLen: nat)
    ensures AllTold(NewLife(queueLen))
  {}

  /** Over any life: what the behaviour is handed is, in order, exactly the RPCs that were read; the inbound
      substream closes only when the source breaks or ends, and goes only when it has closed or the handler is
      disabled; the outbound substream and the outcome of every message taken up are what the sink's answers make
      of them; and the messages taken up are those that left the queue to be sent. */
  lemma HandlerDoesWhatItHears(queueLen: nat, steps: seq<Step>)
    ensures var l := Run(NewLife(queueLen), steps);
            var h := l.h;
            && l.received == RpcsRead(h.heard) && h.inbound == InboundOf(h.heard)
            && h.outbound == OutboundOf(h.said) && h.outcomes == OutcomesOf(h.said)
            && TakenTo(h.taken, ToTheSink) == TakenUp(h.said)
  {
    hide Run, RpcsRead, InboundOf, OutboundOf, OutcomesOf, TakenTo, TakenUp;
    RunTold(queueLen, steps);
  }

  /** And a poll listens: it asks the sink for its answers in their order until one is "not yet", and reads from
      the source unless it has left before. */
  lemma PollListens(queueLen: nat, steps: seq<Step>, now: nat, sink: seq<SinkAnswer>, source: seq<SourceAnswer>)
    ensures var h := Run(NewLife(queueLen), steps).h;
            var (h', polled) := PollHandler(h, now, sink, source);
            && Consulted(SinkAnswers(h.said), SinkAnswers(h'.said), sink)
            && h'.heard == h.heard + if LeftEarly(h', polled, now) then [] else Hears(h.inbound, source)
  {
    hide Run, PollHandler, Sound, OutTold, Consulted, InboundOf, InboundLoop, RpcsRead, SinkAnswers, Asked,
         Books;
    var h := Run(NewLife(queueLen), steps).h;
    RunTold(queueLen, steps);
    PollTold(h, now, sink, source);
    LoopHears(h.heard, h.inbound, source);
    OpenAndSound(queueLen, steps);
    if h.status == Enabled {
      PollMeans(h, now, sink, source);
    } else {
      DisabledIsStill(h, now, sink, source);
      NoSubstreamLeft(queueLen, steps);
      assert h.heard + [] == h.heard;
    }
  }

  lemma NoSubstreamLeft(queueLen: nat, steps: seq<Step>)
    ensures var h := Run(NewLife(queueLen), steps).h; h.status != Enabled ==> h.inbound == NoInbound
  {
    hide Run, Books;
    RunKept(queueLen, steps);
  }

  // ---- One message at a time ----

  function Quiet(said: seq<OutEntry>): seq<OutEntry> {
    if said == [] then []
    else Quiet(said[..|said| - 1]) + if said[|said| - 1] == SinkSaid(NotYet) then [] else [said[|said| - 1]]
  }

  lemma QuietOne(said: seq<OutEntry>, e: OutEntry)
    ensures Quiet(said + [e]) == Quiet(said) + if e == SinkSaid(NotYet) then [] else [e]
  {
    assert (said + [e])[..|said|] == said;
  }

  /** The substream has just been opened, or the last message taken up has been given and flushed. */
  ghost predicate Idle(quiet: seq<OutEntry>) {
    var n := |quiet|;
    n > 0 && (quiet[n - 1].OutOpened?
              || (n >= 3 && quiet[n - 1] == SinkSaid(Done) && quiet[n - 2] == SinkSaid(Done) && quiet[n - 3].TookUp?))
  }

  ghost predicate TakesTurns(quiet: seq<OutEntry>) {
    forall i :: 0 <= i < |quiet| && quiet[i].TookUp? ==> Idle(quiet[..i])
  }

  ghost predicate InStep(h: HandlerState) {
    var quiet := Quiet(h.said);
    var n := |quiet|;
    && TakesTurns(quiet)
    && match h.outbound
       case WaitingOutput(_) => Idle(quiet)
       case PendingSend(_, m) => n > 0 && quiet[n - 1] == TookUp(m)
       case PendingFlush(_) => n > 1 && quiet[n - 1] == SinkSaid(Done) && quiet[n - 2].TookUp?
       case _ => true
  }

  lemma TurnsOne(quiet: seq<OutEntry>, e: OutEntry)
    requires TakesTurns(quiet) && (e.TookUp? ==> Idle(quiet))
    ensures TakesTurns(quiet + [e])
  {
    hide Idle;
    var longer := quiet + [e];
    forall i | 0 <= i < |longer| && longer[i].TookUp?
      ensures Idle(longer[..i])
    {
      assert longer[..i] == quiet[..i];
      assert quiet[..|quiet|] == quiet;
    }
  }

  lemma TurnInStep(h: HandlerState, now: nat, answer: SinkAnswer)
    requires InStep(h)
    ensures InStep(OutboundTurn(h, now, answer).0)
  {
    hide PollNext, Quiet, TakesTurns;
    var h' := OutboundTurn(h, now, answer).0;
    if |h'.said| == |h.said| + 1 {
      var e := h'.said[|h.said|];
      QuietOne(h.said, e);
      TurnsOne(Quiet(h.said), e);
      assert Quiet(h.said) + [] == Quiet(h.said);
    }
  }

  lemma {:induction false} LoopInStep(h: HandlerState, now: nat, answers: seq<SinkAnswer>)
    requires InStep(h)
    ensures InStep(OutboundLoop(h, now, answers).0)
    decreases Work(h)
  {
    hide OutboundTurn, InStep, Work;
    var (h', turn) := OutboundTurn(h, now, NextAnswer(answers));
    TurnInStep(h, now, NextAnswer(answers));
    if turn == Again {
      AgainWorks(h, now, answers);
      LoopInStep(h', now, AnswersLeft(h, answers));
    }
  }

  lemma SameStep(h: HandlerState, h': HandlerState)
    requires InStep(h) && h'.said == h.said && (h'.outbound == h.outbound || h'.outbound == NoOutbound)
    ensures InStep(h')
  {}

  lemma StaleSays(h: HandlerState, now: nat)
    ensures var h' := DropOneStale(h, now).0; h' == h.(queue := h'.queue, taken := h'.taken)
  {
    hide PollStale;
  }

  lemma PollInStep(h: HandlerState, now: nat, sink: seq<SinkAnswer>, source: seq<SourceAnswer>)
    requires InStep(h)
    ensures InStep(PollHandler(h, now, sink, source).0)
  {
    hide OutboundLoop, InboundLoop, DropOneStale, PollIsEmpty, InStep;
    var h1 := h.(queue := PollIsEmpty(h.queue).0);
    SameStep(h, h1);
    SameStep(h, h1.(establishing := true));
    LoopInStep(h1, now, sink);
    var h2 := OutboundLoop(h1, now, sink).0;
    var (inbound, _, heard) := InboundLoop(h2.inbound, source);
    var h3 := h2.(inbound := inbound, heard := h2.heard + heard);
    SameStep(h2, h3);
    StaleSays(h3, now);
    SameStep(h3, DropOneStale(h3, now).0);
  }

  lemma EventInStep(h: HandlerState, event: ConnectionEvent)
    requires InStep(h)
    ensures InStep(OnEvent(h, event))
  {
    hide Quiet, TakesTurns, HeadsTaken, ReceiverGone;
    forall e: OutEntry
      ensures Quiet(h.said + [e]) == Quiet(h.said) + (if e == SinkSaid(NotYet) then [] else [e])
      ensures !e.TookUp? ==> TakesTurns(Quiet(h.said) + [e])
    {
      QuietOne(h.said, e);
      if !e.TookUp? {
        TurnsOne(Quiet(h.said), e);
      }
    }
  }

  lemma {:induction false} RunInStep(queueLen: nat, steps: seq<Step>)
    ensures InStep(Run(NewLife(queueLen), steps).h)
  {
    hide PollHandler, OnEvent, TrySend, InStep;
    if steps == [] {
      assert InStep(NewLife(queueLen).h) by { FirstStep(queueLen); }
    } else {
      var k := |steps| - 1;
      var l := Run(NewLife(queueLen), steps[..k]);
      RunInStep(queueLen, steps[..k]);
      match steps[k]
      case Send(rpc) => SameStep(l.h, l.h.(queue := TrySend(l.h.queue, rpc).0));
      case PollAt(now, sink, source) => PollInStep(l.h, now, sink, source);
      case Happen(event) => EventInStep(l.h, event);
    }
  }

  lemma FirstStep(queueLen: nat)
    ensures InStep(NewLife(queueLen).h)
  {}

  /** Over any life no message is taken up unless the substream is fresh or the one before was given to the sink
      and flushed. */
  lemma OneAtATime(queueLen: nat, steps: seq<Step>)
    ensures TakesTurns(Quiet(Run(NewLife(queueLen), steps).h.said))
  {
    hide Run, TakesTurns;
    RunInStep(queueLen, steps);
  }

  // ---- The status ----

  predicate OnInbound(e: ConnectionEvent) { e.FullyNegotiatedInbound? || e.ListenUpgradeError? }

  predicate OnOutbound(e: ConnectionEvent) {
    e.FullyNegotiatedOutbound? || e.DialTimeout? || e.DialNegotiationFailed? || e.DialIo?
  }

  function CountIn(told: seq<ConnectionEvent>): nat {
    if told == [] then 0 else CountIn(told[..|told| - 1]) + if OnInbound(told[|told| - 1]) then 1 else 0
  }

  function CountOut(told: seq<ConnectionEvent>): nat {
    if told == [] then 0 else CountOut(told[..|told| - 1]) + if OnOutbound(told[|told| - 1]) then 1 else 0
  }

  /** The substreams negotiated with the other side, in order. */
  function Offered(told: seq<ConnectionEvent>, inbound: bool): seq<Stream> {
    if told == [] then []
    else
      var e := told[|told| - 1];
      Offered(told[..|told| - 1], inbound)
      + if (inbound && e.FullyNegotiatedInbound?) || (!inbound && e.FullyNegotiatedOutbound?) then [e.stream] else []
  }

  /** The substreams the handler has opened, in order. */
  function OpenedIn(heard: seq<InEntry>): seq<Stream> {
    if heard == [] then []
    else OpenedIn(heard[..|heard| - 1]) + if heard[|heard| - 1].InOpened? then [heard[|heard| - 1].stream] else []
  }

  function OpenedOut(said: seq<OutEntry>): seq<Stream> {
    if said == [] then []
    else OpenedOut(said[..|said| - 1]) + if said[|said| - 1].OutOpened? then [said[|said| - 1].stream] else []
  }

  lemma ToldOne(told: seq<ConnectionEvent>, e: ConnectionEvent)
    ensures CountIn(told + [e]) == CountIn(told) + if OnInbound(e) then 1 else 0
    ensures CountOut(told + [e]) == CountOut(told) + if OnOutbound(e) then 1 else 0
    ensures Offered(told + [e], true) == Offered(told, true) + if e.FullyNegotiatedInbound? then [e.stream] else []
    ensures Offered(told + [e], false) == Offered(told, false) + if e.FullyNegotiatedOutbound? then [e.stream] else []
  {
    assert (told + [e])[..|told|] == told;
  }

  lemma OpenedInOne(heard: seq<InEntry>, e: InEntry)
    ensures OpenedIn(heard + [e]) == OpenedIn(heard) + if e.InOpened? then [e.stream] else []
  {
    assert (heard + [e])[..|heard|] == heard;
  }

  lemma OpenedOutOne(said: seq<OutEntry>, e: OutEntry)
    ensures OpenedOut(said + [e]) == OpenedOut(said) + if e.OutOpened? then [e.stream] else []
  {
    assert (said + [e])[..|said|] == said;
  }

  /** The events that left the handler enabled. */
  function Survived(l: Life): seq<ConnectionEvent> {
    if l.h.status == Enabled || l.told == [] then l.told else l.told[..|l.told| - 1]
  }

  /** The status and the substreams opened, told from the events. */
  ghost predicate StatusTold(l: Life) {
    var h := l.h;
    && h.status == (if CountIn(l.told) == 5 || CountOut(l.told) == 5 then MaxSubstreamAttempts
                    else if DialNegotiationFailed in l.told then ProtocolUnsupported
                    else Enabled)
    && CountIn(l.told) <= 5 && CountOut(l.told) <= 5 && DialNegotiationFailed !in Survived(l)
    && OpenedIn(h.heard) == Offered(Survived(l), true) && OpenedOut(h.said) == Offered(Survived(l), false)
  }

  /** While the handler is enabled its attempts are the events it was told. */
  ghost predicate Attempts(l: Life) {
    l.h.status == Enabled ==> l.h.inboundAttempts == CountIn(l.told) && l.h.outboundAttempts == CountOut(l.told)
  }

  lemma EventStatus(l: Life, event: ConnectionEvent)
    requires l.h.status == Enabled && StatusTold(l) && Attempts(l)
    ensures var l' := l.(h := OnEvent(l.h, event), told := l.told + [event]); StatusTold(l') && Attempts(l')
  {
    hide CountIn, CountOut, Offered, OpenedIn, OpenedOut, HeadsTaken, ReceiverGone;
    var told := l.told + [event];
    ToldOne(l.told, event);
    assert told[..|told| - 1] == l.told;
    forall e: InEntry
      ensures OpenedIn(l.h.heard + [e]) == OpenedIn(l.h.heard) + if e.InOpened? then [e.stream] else []
    {
      OpenedInOne(l.h.heard, e);
    }
    forall e: OutEntry
      ensures OpenedOut(l.h.said + [e]) == OpenedOut(l.h.said) + if e.OutOpened? then [e.stream] else []
    {
      OpenedOutOne(l.h.said, e);
    }
  }

  lemma TurnOpens(h: HandlerState, now: nat, answer: SinkAnswer)
    ensures OpenedOut(OutboundTurn(h, now, answer).0.said) == OpenedOut(h.said)
  {
    hide PollNext, OpenedOut;
    var h' := OutboundTurn(h, now, answer).0;
    if |h'.said| == |h.said| + 1 {
      OpenedOutOne(h.said, h'.said[|h.said|]);
    }
  }

  lemma {:induction false} LoopOpens(h: HandlerState, now: nat, answers: seq<SinkAnswer>)
    ensures OpenedOut(OutboundLoop(h, now, answers).0.said) == OpenedOut(h.said)
    decreases Work(h)
  {
    hide OutboundTurn, OpenedOut, Work;
    var (h', turn) := OutboundTurn(h, now, NextAnswer(answers));
    TurnOpens(h, now, NextAnswer(answers));
    if turn == Again {
      AgainWorks(h, now, answers);
      LoopOpens(h', now, AnswersLeft(h, answers));
    }
  }

  lemma HearsOpens(heard: seq<InEntry>, inbound: Inbound, source: seq<SourceAnswer>)
    ensures OpenedIn(heard + InboundLoop(inbound, source).2) == OpenedIn(heard)
  {
    hide OpenedIn;
    var more := InboundLoop(inbound, source).2;
    assert heard + [] == heard;
    if |more| == 1 {
      OpenedInOne(heard, more[0]);
    } else if |more| == 2 {
      OpenedInOne(heard, more[0]);
      OpenedInOne(heard + [more[0]], more[1]);
      assert heard + more == heard + [more[0]] + [more[1]];
    }
  }

  lemma PollOpens(h: HandlerState, now: nat, sink: seq<SinkAnswer>, source: seq<SourceAnswer>)
    ensures var h' := PollHandler(h, now, sink, source).0;
            && OpenedOut(h'.said) == OpenedOut(h.said) && OpenedIn(h'.heard) == OpenedIn(h.heard)
            && h'.status == h.status && h'.inboundAttempts == h.inboundAttempts
            && h'.outboundAttempts == h.outboundAttempts
  {
    hide OutboundLoop, InboundLoop, DropOneStale, PollIsEmpty, OpenedIn, OpenedOut;
    var h1 := h.(queue := PollIsEmpty(h.queue).0);
    LoopOpens(h1, now, sink);
    LoopFrame(h1, now, sink);
    var h2 := OutboundLoop(h1, now, sink).0;
    HearsOpens(h2.heard, h2.inbound, source);
    var (inbound, _, heard) := InboundLoop(h2.inbound, source);
    StaleSays(h2.(inbound := inbound, heard := h2.heard + heard), now);
  }

  lemma SameStatus(l: Life, l': Life)
    requires StatusTold(l) && Attempts(l) && l'.told == l.told && l'.h.status == l.h.status
    requires OpenedOut(l'.h.said) == OpenedOut(l.h.said) && OpenedIn(l'.h.heard) == OpenedIn(l.h.heard)
    requires l'.h.inboundAttempts == l.h.inboundAttempts && l'.h.outboundAttempts == l.h.outboundAttempts
    ensures StatusTold(l') && Attempts(l')
  {}

  lemma {:induction false} RunStatus(queueLen: nat, steps: seq<Step>)
    ensures var l := Run(NewLife(queueLen), steps); StatusTold(l) && Attempts(l)
  {
    hide PollHandler, OnEvent, TrySend, StatusTold, Attempts, OpenedIn, OpenedOut;
    if steps == [] {
      FirstStatus(queueLen);
    } else {
      var k := |steps| - 1;
      var l := Run(NewLife(queueLen), steps[..k]);
      var l' := Do(l, steps[k]);
      RunStatus(queueLen, steps[..k]);
      match steps[k]
      case Send(rpc) => SameStatus(l, l');
      case PollAt(now, sink, source) =>
        PollOpens(l.h, now, sink, source);
        SameStatus(l, l');
      case Happen(event) =>
        if l.h.status == Enabled {
          EventStatus(l, event);
        } else {
          DisabledIsDeaf(l.h, event);
          assert l.told + [] == l.told;
        }
    }
  }

  lemma DisabledIsDeaf(h: HandlerState, event: ConnectionEvent)
    requires h.status != Enabled
    ensures OnEvent(h, event) == h
  {}

  lemma FirstStatus(queueLen: nat)
    ensures StatusTold(NewLife(queueLen)) && Attempts(NewLife(queueLen))
  {}

  /** Over any life a handler is enabled if and only if it has been told of fewer than five inbound and of fewer
      than five outbound substreams and never that the peer does not speak the protocol; and every negotiated
      substream was opened, but for one that disabled it. */
  lemma EnabledIff(queueLen: nat, steps: seq<Step>)
    ensures StatusTold(Run(NewLife(queueLen), steps))
  {
    hide StatusTold, Run;
    RunStatus(queueLen, steps);
  }
}

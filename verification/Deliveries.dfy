/** The raw frames and trader events of whole runs, told from the frames received. */
module Deliveries {
  import opened Prelude
  import opened Events
  import opened Sinks
  import opened RecorderStates
  import opened Recording
  import opened Accounts
  import opened Detection
  import Dedup

  // ----- what should be handed over -----

  // One raw frame for every frame received, archived or not.
  function RawFrames(visits: seq<Visit>): seq<RawFrame> {
    if visits == [] then []
    else
      var f := visits[|visits| - 1].frame;
      RawFrames(visits[..|visits| - 1]) + [RawFrame(LastRawId(visits), f.channel, f.payload, f.receipt)]
  }

  // Some of the later arrivals repeats nothing.
  predicate BringsNovel(limits: Dedup.Limits, before: seq<Arrival>, more: seq<Arrival>) {
    Novel(limits, before + more) != Novel(limits, before)
  }

  // The trader records of a frame, each as an event referring to the raw frame.
  function TraderEvents(v: Visit, rawId: string): seq<TraderEvent>
    requires v.frame.content.Data?
  {
    seq(|v.frame.content.traders|, i requires 0 <= i < |v.frame.content.traders| =>
      TraderEvent(v.env.traderIds(i), v.frame.content.traders[i], v.frame.receipt, Some(rawId)))
  }

  // The market write of this frame is made and fails.
  predicate MarketWriteFails(limits: Dedup.Limits, before: seq<Arrival>, v: Visit, rawId: string) {
    !v.env.marketOk && BringsNovel(limits, before, ArrivalsOf(v, rawId))
  }

  // The trader events due from a frame, these arrivals having come before it.
  function TradersOf(limits: Dedup.Limits, before: seq<Arrival>, v: Visit, rawId: string): seq<TraderEvent> {
    if !v.env.rawOk || !v.frame.content.Data? || MarketWriteFails(limits, before, v, rawId) then []
    else TraderEvents(v, rawId)
  }

  function TradersDue(limits: Dedup.Limits, visits: seq<Visit>): seq<TraderEvent> {
    if visits == [] then []
    else
      var front := visits[..|visits| - 1];
      TradersDue(limits, front) + TradersOf(limits, Arrivals(front), visits[|visits| - 1], LastRawId(visits))
  }

  // ----- one frame -----

  lemma {:induction false} NovelGrows(limits: Dedup.Limits, before: seq<Arrival>, more: seq<Arrival>)
    ensures Novel(limits, before) <= Novel(limits, before + more)
  {
    if more == [] {
      assert before + more == before;
    } else {
      var front, last := more[..|more| - 1], more[|more| - 1];
      NovelGrows(limits, before, front);
      LastOf(before, more);
      NovelOneMore(limits, before + front, last);
    }
  }

  // Acceptance hands events on exactly when the frame brings something novel.
  lemma {:induction false} AcceptsWhenNovel(
    cfg: Config, c: Core, after: Core, accepted: seq<MarketEvent>, before: seq<Arrival>, more: seq<Arrival>)
    requires SinkGot(cfg, c, [], Novel(cfg.dedup, before)) && Offered(after.calls) == Offered(c.calls)
    requires SinkGot(cfg, after, accepted, Novel(cfg.dedup, before + more))
    ensures accepted != [] <==> BringsNovel(cfg.dedup, before, more)
  {
    NovelGrows(cfg.dedup, before, more);
    var x, y := Novel(cfg.dedup, before), Novel(cfg.dedup, before + more);
    assert |Offered(c.calls)| == |x| && |Offered(c.calls)| + |accepted| == |y|;
    assert |x| == |y| ==> x == y;
  }

  lemma {:induction false} GapsOfferNothing(gaps: seq<Outcome>)
    requires AllGaps(gaps)
    ensures Offered(gaps) == [] && OfferedTraders(gaps) == []
  {
    if gaps != [] {
      GapsOfferNothing(gaps[..|gaps| - 1]);
    }
  }

  lemma {:induction false} AcceptanceOffersNothing(cfg: Config, a: Accepting, v: Visit, rawId: string)
    requires v.frame.content.Data? && AllStamped(a.accepted, rawId)
    ensures Offered(AcceptFrom(cfg, a, v, rawId, 0).core.calls) == Offered(a.core.calls)
  {
    var gaps := AcceptingCalls(cfg, a, v, rawId);
    OfferedSplit(a.core.calls, gaps);
    GapsOfferNothing(gaps);
    assert Offered(a.core.calls) + [] == Offered(a.core.calls);
  }

  lemma AcceptedWhenNovel(cfg: Config, r: Recording, v: Visit, before: seq<Arrival>)
    requires Settled(cfg, r.core, before) && v.env.rawOk && v.frame.content.Data?
    ensures AcceptedOf(cfg, r.core, v) != [] <==>
            BringsNovel(cfg.dedup, before, ArrivalsOf(v, RawIdOf(r.core, v)))
  {
    var rawId := RawIdOf(r.core, v);
    var archived := ArchivedBy(r, v).core;
    var start := Accepting(Parsed(archived), []);
    var a := AcceptFrom(cfg, start, v, rawId, 0);
    var more := ArrivalsOf(v, RawIdOf(r.core, v));
    ArchivedIsSettled(cfg, r, v, before);
    SameIsSettled(cfg, archived, start.core, before);
    AcceptFromDetects(cfg, start, v, rawId, before);
    AcceptanceOffersNothing(cfg, start, v, rawId);
    AcceptsWhenNovel(cfg, start.core, a.core, a.accepted, before, more);
  }

  lemma StampedAreTraderEvents(v: Visit, rawId: string)
    requires v.frame.content.Data?
    ensures StampedTraders(v, rawId) == TraderEvents(v, rawId)
  {
    var x, y := StampedTraders(v, rawId), TraderEvents(v, rawId);
    forall i | 0 <= i < |x|
      ensures x[i] == y[i]
    {
      assert x[i] == NewTraderEvent(v.frame.content.traders[i], v.frame.receipt, v.env.traderIds(i)).(
                       rawReference := Some(rawId));
    }
  }

  lemma OneCallTraders(o: Outcome)
    ensures OfferedTraders([o]) == if o.call.WriteTraders? then o.call.traders else []
  {
    TradersOneMore([], o);
    assert [] + [o] == [o];
  }

  lemma MarketCallTraders(accepted: seq<MarketEvent>, env: Env)
    ensures OfferedTraders(MarketCall(accepted, env)) == []
  {
    if accepted != [] {
      OneCallTraders(MarketCall(accepted, env)[0]);
    }
  }

  lemma TraderCallTraders(v: Visit, rawId: string)
    requires v.frame.content.Data?
    ensures OfferedTraders(TraderCall(v, rawId)) == TraderEvents(v, rawId)
  {
    StampedAreTraderEvents(v, rawId);
    if v.frame.content.traders != [] {
      OneCallTraders(TraderCall(v, rawId)[0]);
    }
  }

  lemma TailTraders(accepted: seq<MarketEvent>, v: Visit, rawId: string)
    requires v.frame.content.Data?
    ensures OfferedTraders(Tail(accepted, v, rawId)) ==
            if accepted != [] && !v.env.marketOk then [] else TraderEvents(v, rawId)
  {
    var market := MarketCall(accepted, v.env);
    var traders := if accepted != [] && !v.env.marketOk then [] else TraderCall(v, rawId);
    MarketCallTraders(accepted, v.env);
    TraderCallTraders(v, rawId);
    TradersSplit(market, traders);
  }

  lemma {:induction false} ShapeTraders(raw: Outcome, gaps: seq<Outcome>, tail: seq<Outcome>)
    requires raw.call.WriteRaw? && AllGaps(gaps)
    ensures OfferedTraders([raw] + gaps + tail) == OfferedTraders(tail)
  {
    TradersSplit([raw] + gaps, tail);
    TradersSplit([raw], gaps);
    GapsOfferNothing(gaps);
    OneCallTraders(raw);
  }

  lemma DataFrameTraders(cfg: Config, r: Recording, v: Visit, rawId: string)
    requires v.env.rawOk && v.frame.content.Data? && rawId == RawIdOf(r.core, v)
    ensures OfferedTraders(CallsOf(cfg, r, v)) ==
            if AcceptedOf(cfg, r.core, v) != [] && !v.env.marketOk then [] else TraderEvents(v, rawId)
  {
    var accepted := AcceptedOf(cfg, r.core, v);
    var gaps := HandleShape(cfg, r, v);
    ShapeTraders(RawCall(r.core, v), gaps, Tail(accepted, v, rawId));
    TailTraders(accepted, v, rawId);
  }

  lemma OtherFrameTraders(cfg: Config, r: Recording, v: Visit)
    requires !v.env.rawOk || !v.frame.content.Data?
    ensures OfferedTraders(CallsOf(cfg, r, v)) == []
  {
    var raw := RawCall(r.core, v);
    CallsWithoutData(cfg, r, v);
    OneCallTraders(raw);
  }

  lemma FrameTraders(cfg: Config, r: Recording, v: Visit, before: seq<Arrival>)
    requires Settled(cfg, r.core, before)
    ensures OfferedTraders(CallsOf(cfg, r, v)) == TradersOf(cfg.dedup, before, v, RawIdOf(r.core, v))
  {
    if v.env.rawOk && v.frame.content.Data? {
      DataFrameTraders(cfg, r, v, RawIdOf(r.core, v));
      AcceptedWhenNovel(cfg, r, v, before);
    } else {
      OtherFrameTraders(cfg, r, v);
    }
  }

  // ----- runs -----

  predicate Delivered(cfg: Config, c: Core, visits: seq<Visit>) {
    RawsOf(c.calls) == RawFrames(visits) && OfferedTraders(c.calls) == TradersDue(cfg.dedup, visits)
  }

  // After these frames: all delivered, and the detectors and the count as they should be.
  predicate Ready(cfg: Config, c: Core, visits: seq<Visit>) {
    Delivered(cfg, c, visits) && Settled(cfg, c, Arrivals(visits)) && c.metrics.received == |visits|
  }

  lemma DueOneMore(limits: Dedup.Limits, front: seq<Visit>, v: Visit)
    ensures var id, f := LastRawId(front + [v]), v.frame;
            && RawFrames(front + [v]) == RawFrames(front) + [RawFrame(id, f.channel, f.payload, f.receipt)]
            && TradersDue(limits, front + [v]) == TradersDue(limits, front) + TradersOf(limits, Arrivals(front), v, id)
  {
    assert (front + [v])[..|front|] == front;
  }

  lemma OneMoreDelivered(cfg: Config, r: Recording, front: seq<Visit>, v: Visit)
    requires Ready(cfg, r.core, front)
    ensures Delivered(cfg, Handle(cfg, r, v).core, front + [v])
  {
    var calls := CallsOf(cfg, r, v);
    var _ := FrameCalls(cfg, r, v);
    FrameHasOneRaw(cfg, r, v);
    FrameTraders(cfg, r, v, Arrivals(front));
    RawsSplit(r.core.calls, calls);
    TradersSplit(r.core.calls, calls);
    DueOneMore(cfg.dedup, front, v);
  }

  lemma {:induction false} OneMoreSettled(cfg: Config, r: Recording, front: seq<Visit>, v: Visit)
    requires Ready(cfg, r.core, front)
    ensures Settled(cfg, Handle(cfg, r, v).core, Arrivals(front + [v]))
  {
    HandleSettles(cfg, r, v, Arrivals(front));
    ArrivalsOneMore(front, v);
  }

  lemma OneMoreReceived(cfg: Config, r: Recording, v: Visit)
    ensures Handle(cfg, r, v).core.metrics.received == r.core.metrics.received + 1
  {
    HandleIntake(cfg, r, v);
  }

  lemma OneMoreReady(cfg: Config, r: Recording, front: seq<Visit>, v: Visit)
    requires Ready(cfg, r.core, front)
    ensures Ready(cfg, Handle(cfg, r, v).core, front + [v])
  {
    OneMoreDelivered(cfg, r, front, v);
    OneMoreSettled(cfg, r, front, v);
    OneMoreReceived(cfg, r, v);
  }

  lemma NewIsReady(cfg: Config)
    ensures Ready(cfg, NEW_CORE, [])
  {
    NewIsSettled(cfg);
    assert NEW_CORE.calls == [];
  }

  lemma {:induction false} RunIsReady(cfg: Config, r: Recording, visits: seq<Visit>)
    requires r.core == NEW_CORE
    ensures Ready(cfg, HandleAll(cfg, r, visits).core, visits)
  {
    var holds := (c: Core, front: seq<Visit>) => Ready(cfg, c, front);
    NewIsReady(cfg);
    forall q, front, v
      ensures KeptByHandle(cfg, holds, q, front, v)
    {
      if holds(q.core, front) {
        OneMoreReady(cfg, q, front, v);
      }
    }
    RunInduction(cfg, r, visits, holds);
  }

  /** Whatever fails in a run, every frame received is handed to the sink raw, once and in order; and the
      trader events handed over are exactly the trader records of the archived data frames whose market write
      did not fail, in order, each referring to its raw frame. */
  lemma {:induction false} RunsDeliver(cfg: Config, machine: Machine, visits: seq<Visit>, at: nat -> int, flushOk: bool)
    requires Permitted(machine.state, Connecting)
    ensures var calls := Run(cfg, Recording(NEW_CORE, machine), visits, at, flushOk).core.calls;
            RawsOf(calls) == RawFrames(visits) && OfferedTraders(calls) == TradersDue(cfg.dedup, visits)
  {
    var r := Recording(NEW_CORE, Started(machine, at));
    var done := HandleAll(cfg, r, visits).core;
    RunIsReady(cfg, r, visits);
    RunEnds(cfg, machine, visits, at, flushOk);
    RawsOneMore(done.calls, Outcome(Flush, flushOk));
    TradersOneMore(done.calls, Outcome(Flush, flushOk));
  }
}

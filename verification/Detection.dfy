/** The recorder over whole runs, told from the frames it receives: what its detectors see, and every raw
    frame, market event and trader event it hands to the sink. */
module Detection {
  import opened Prelude
  import opened Events
  import opened Sinks
  import opened RecorderStates
  import opened Recording
  import opened Accounts
  import opened Verdicts
  import DataQuality
  import Dedup
  import Gaps

  // ----- what arrives -----

  // One market record of an archived frame, with the id generated for it, what the clock reads when it
  // would be validated, and the id of its raw frame.
  datatype Arrival = Arrival(record: MarketRecord, receipt: Receipt, id: string, at: int, rawId: string)

  function ArrivalAt(v: Visit, rawId: string, k: nat): Arrival
    requires v.frame.content.Data? && k < |v.frame.content.market|
  {
    Arrival(v.frame.content.market[k], v.frame.receipt, v.env.marketIds(k), v.env.validateAt(k), rawId)
  }

  function FrameArrivals(v: Visit, rawId: string): seq<Arrival>
    requires v.frame.content.Data?
  {
    seq(|v.frame.content.market|, k requires 0 <= k < |v.frame.content.market| => ArrivalAt(v, rawId, k))
  }

  function ArrivalsOf(v: Visit, rawId: string): seq<Arrival> {
    if v.env.rawOk && v.frame.content.Data? then FrameArrivals(v, rawId) else []
  }

  // The raw id of the last of these frames.
  function LastRawId(visits: seq<Visit>): string
    requires visits != []
  {
    RawId(|visits|, visits[|visits| - 1].frame.receipt.time)
  }

  // The market records of all archived data frames.
  function Arrivals(visits: seq<Visit>): seq<Arrival> {
    if visits == [] then []
    else Arrivals(visits[..|visits| - 1]) + ArrivalsOf(visits[|visits| - 1], LastRawId(visits))
  }

  lemma {:induction false} ArrivalsOneMore(front: seq<Visit>, v: Visit)
    ensures Arrivals(front + [v]) == Arrivals(front) + ArrivalsOf(v, LastRawId(front + [v]))
  {
    assert (front + [v])[..|front|] == front;
  }

  function Normalized(a: Arrival): MarketEvent {
    MarketEvent(a.id, a.record, a.receipt, a.record.txHash, Unknown)
  }

  // The event as the sink must get it: judged at its clock reading, referring to its raw frame.
  function Judgement(b: DataQuality.Bounds, a: Arrival): MarketEvent {
    MarketEvent(a.id, a.record, a.receipt, Some(a.rawId), DataQuality.Status(Normalized(a), a.at, b))
  }

  function Judgements(b: DataQuality.Bounds, arrivals: seq<Arrival>): seq<MarketEvent> {
    seq(|arrivals|, i requires 0 <= i < |arrivals| => Judgement(b, arrivals[i]))
  }

  function Sightings(arrivals: seq<Arrival>): seq<Dedup.Sighting> {
    seq(|arrivals|, i requires 0 <= i < |arrivals| =>
      Dedup.Sighting(IdentityOf(Normalized(arrivals[i])), arrivals[i].receipt.time))
  }

  function Observations(arrivals: seq<Arrival>): seq<Gaps.Observation> {
    seq(|arrivals|, i requires 0 <= i < |arrivals| =>
      Gaps.Observation(arrivals[i].record.stream, arrivals[i].record.sequence, arrivals[i].receipt.time))
  }

  // Whether an arrival repeats one that came before.
  predicate Repeats(limits: Dedup.Limits, before: seq<Arrival>, a: Arrival) {
    Dedup.Query(Dedup.Run(limits, Sightings(before)).cache, IdentityOf(Normalized(a)), a.receipt.time, limits).1
  }

  // The arrivals that repeat nothing.
  function Novel(limits: Dedup.Limits, arrivals: seq<Arrival>): seq<Arrival> {
    if arrivals == [] then []
    else
      var front, last := arrivals[..|arrivals| - 1], arrivals[|arrivals| - 1];
      Novel(limits, front) + (if Repeats(limits, front, last) then [] else [last])
  }

  // ----- one event -----

  predicate CacheSaw(cfg: Config, c: Core, arrivals: seq<Arrival>) {
    c.cache == Dedup.Run(cfg.dedup, Sightings(arrivals)).cache
  }

  predicate TrackerSaw(c: Core, novel: seq<Arrival>) {
    var h := Gaps.Run(Observations(novel));
    c.tracker == h.tracker && GapsOf(c.calls) == h.reports
  }

  predicate SinkGot(cfg: Config, c: Core, held: seq<MarketEvent>, novel: seq<Arrival>) {
    Offered(c.calls) + held == Judgements(cfg.quality, novel)
  }

  lemma {:induction false} SightingsOneMore(limits: Dedup.Limits, arrivals: seq<Arrival>, a: Arrival)
    ensures Dedup.Run(limits, Sightings(arrivals + [a])).cache ==
            Dedup.Query(
              Dedup.Run(limits, Sightings(arrivals)).cache, IdentityOf(Normalized(a)), a.receipt.time, limits).0
  {
    var s := Dedup.Sighting(IdentityOf(Normalized(a)), a.receipt.time);
    assert Sightings(arrivals + [a]) == Sightings(arrivals) + [s];
    assert (Sightings(arrivals) + [s])[..|arrivals|] == Sightings(arrivals);
  }

  lemma {:induction false} NovelOneMore(limits: Dedup.Limits, arrivals: seq<Arrival>, a: Arrival)
    ensures Novel(limits, arrivals + [a]) ==
            if Repeats(limits, arrivals, a) then Novel(limits, arrivals) else Novel(limits, arrivals) + [a]
  {
    assert (arrivals + [a])[..|arrivals|] == arrivals;
    assert Novel(limits, arrivals) + [] == Novel(limits, arrivals);
  }

  lemma ObservedOneMore(arrivals: seq<Arrival>, a: Arrival)
    ensures var before, after := Gaps.Run(Observations(arrivals)), Gaps.Run(Observations(arrivals + [a]));
            var (tracker, report) := Gaps.Observing(before.tracker, a.record.stream, a.record.sequence, a.receipt.time);
            && after.tracker == tracker
            && after.reports == if report.Some? then before.reports + [report.value] else before.reports
  {
    var o := Gaps.Observation(a.record.stream, a.record.sequence, a.receipt.time);
    assert Observations(arrivals + [a]) == Observations(arrivals) + [o];
    assert (Observations(arrivals) + [o])[..|arrivals|] == Observations(arrivals);
    assert Gaps.Run(Observations(arrivals)).reports + [] == Gaps.Run(Observations(arrivals)).reports;
  }

  lemma JudgementsOneMore(b: DataQuality.Bounds, arrivals: seq<Arrival>, a: Arrival)
    ensures Judgements(b, arrivals + [a]) == Judgements(b, arrivals) + [Judgement(b, a)]
  {
  }

  // Screening is one query of the cache and, for what passes, one observation.
  lemma ScreenDetects(cfg: Config, c: Core, e: MarketEvent)
    ensures var s := Screen(cfg, c, e);
            var (cache, duplicate) := Dedup.Query(c.cache, IdentityOf(e), e.receipt.time, cfg.dedup);
            var (tracker, report) := Gaps.Observing(c.tracker, e.record.stream, e.record.sequence, e.receipt.time);
            && s.core.cache == cache && s.Dropped? == duplicate
            && s.core.tracker == (if duplicate then c.tracker else tracker)
            && GapsOf(s.core.calls) ==
               if !duplicate && report.Some? then GapsOf(c.calls) + [report.value] else GapsOf(c.calls)
  {
    var report := Gaps.Observing(c.tracker, e.record.stream, e.record.sequence, e.receipt.time).1;
    if report.Some? {
      GapsOneMore(c.calls, Outcome(WriteGap(report.value), true));
    }
  }

  // The three views together, with events accepted but not yet handed to the sink.
  predicate Detected(cfg: Config, a: Accepting, arrivals: seq<Arrival>) {
    && CacheSaw(cfg, a.core, arrivals)
    && TrackerSaw(a.core, Novel(cfg.dedup, arrivals))
    && SinkGot(cfg, a.core, a.accepted, Novel(cfg.dedup, arrivals))
  }

  lemma DroppedIsDetected(cfg: Config, a: Accepting, x: Arrival, arrivals: seq<Arrival>)
    requires Detected(cfg, a, arrivals) && Screen(cfg, a.core, Normalized(x)).Dropped?
    ensures Detected(cfg, a.(core := Screen(cfg, a.core, Normalized(x)).core), arrivals + [x])
    ensures Repeats(cfg.dedup, arrivals, x)
  {
    ScreenDetects(cfg, a.core, Normalized(x));
    ScreeningGivesNoVerdict(cfg, a.core, Normalized(x));
    SightingsOneMore(cfg.dedup, arrivals, x);
    NovelOneMore(cfg.dedup, arrivals, x);
  }

  lemma PassedToTracker(c: Core, after: Core, x: Arrival, novel: seq<Arrival>)
    requires TrackerSaw(c, novel)
    requires var (tracker, report) := Gaps.Observing(c.tracker, x.record.stream, x.record.sequence, x.receipt.time);
             && after.tracker == tracker
             && GapsOf(after.calls) == if report.Some? then GapsOf(c.calls) + [report.value] else GapsOf(c.calls)
    ensures TrackerSaw(after, novel + [x])
  {
    ObservedOneMore(novel, x);
  }

  lemma PassedToSink(
    cfg: Config, c: Core, after: Core, held: seq<MarketEvent>, e: MarketEvent, novel: seq<Arrival>, x: Arrival)
    requires SinkGot(cfg, c, held, novel) && Offered(after.calls) == Offered(c.calls)
    requires e == Judgement(cfg.quality, x)
    ensures SinkGot(cfg, after, held + [e], novel + [x])
  {
    JudgementsOneMore(cfg.quality, novel, x);
    Regroup(Offered(c.calls), held, [e]);
  }

  lemma StampedIsJudgement(cfg: Config, x: Arrival)
    ensures Stamped(Normalized(x), DataQuality.Status(Normalized(x), x.at, cfg.quality), x.rawId) ==
            Judgement(cfg.quality, x)
  {
  }

  lemma PassedIsDetected(cfg: Config, a: Accepting, x: Arrival, arrivals: seq<Arrival>, after: Accepting)
    requires Detected(cfg, a, arrivals) && Screen(cfg, a.core, Normalized(x)).Passed?
    requires after == Admit(cfg, a.(core := Screen(cfg, a.core, Normalized(x)).core), Normalized(x), x.at, x.rawId)
    ensures Detected(cfg, after, arrivals + [x]) && !Repeats(cfg.dedup, arrivals, x)
  {
    var novel := Novel(cfg.dedup, arrivals);
    ScreenDetects(cfg, a.core, Normalized(x));
    ScreeningGivesNoVerdict(cfg, a.core, Normalized(x));
    SightingsOneMore(cfg.dedup, arrivals, x);
    NovelOneMore(cfg.dedup, arrivals, x);
    PassedToTracker(a.core, after.core, x, novel);
    StampedIsJudgement(cfg, x);
    PassedToSink(cfg, a.core, after.core, a.accepted, Judgement(cfg.quality, x), novel, x);
  }

  lemma AcceptOneDetects(cfg: Config, a: Accepting, x: Arrival, arrivals: seq<Arrival>)
    requires Detected(cfg, a, arrivals)
    ensures Detected(cfg, AcceptOne(cfg, a, Normalized(x), x.at, x.rawId), arrivals + [x])
  {
    if Screen(cfg, a.core, Normalized(x)).Dropped? {
      DroppedIsDetected(cfg, a, x, arrivals);
    } else {
      PassedIsDetected(cfg, a, x, arrivals, AcceptOne(cfg, a, Normalized(x), x.at, x.rawId));
    }
  }

  // ----- the events of a frame -----

  lemma GrownPrefix<T>(before: seq<T>, all: seq<T>, k: nat)
    requires k < |all|
    ensures before + all[..k] + [all[k]] == before + all[..k + 1]
  {
  }

  lemma WholePrefix<T>(before: seq<T>, all: seq<T>)
    ensures before + all[..0] == before && before + all[..|all|] == before + all
  {
  }

  lemma NextDetects(cfg: Config, a: Accepting, v: Visit, rawId: string, k: nat, arrivals: seq<Arrival>)
    returns (next: Accepting)
    requires v.frame.content.Data? && k < |v.frame.content.market| && Detected(cfg, a, arrivals)
    ensures next == AcceptOne(cfg, a, EventAt(v, k), v.env.validateAt(k), rawId)
    ensures AcceptFrom(cfg, a, v, rawId, k) == AcceptFrom(cfg, next, v, rawId, k + 1)
    ensures Detected(cfg, next, arrivals + [ArrivalAt(v, rawId, k)])
  {
    var x := ArrivalAt(v, rawId, k);
    assert EventAt(v, k) == Normalized(x);
    next := AcceptOne(cfg, a, EventAt(v, k), v.env.validateAt(k), rawId);
    AcceptOneDetects(cfg, a, x, arrivals);
    AcceptFromStep(cfg, a, v, rawId, k, next);
  }

  lemma {:induction false} AcceptFromDetects(cfg: Config, a: Accepting, v: Visit, rawId: string, arrivals: seq<Arrival>)
    requires v.frame.content.Data? && Detected(cfg, a, arrivals)
    ensures Detected(cfg, AcceptFrom(cfg, a, v, rawId, 0), arrivals + FrameArrivals(v, rawId))
  {
    var all := FrameArrivals(v, rawId);
    var holds := (q: Accepting, k: nat) => k <= |all| && Detected(cfg, q, arrivals + all[..k]);
    WholePrefix(arrivals, all);
    forall q, k: nat
      ensures KeptByAccept(cfg, v, rawId, holds, q, k)
    {
      if holds(q, k) && k < |all| {
        var _ := NextDetects(cfg, q, v, rawId, k, arrivals + all[..k]);
        GrownPrefix(arrivals, all, k);
      }
    }
    AcceptInduction(cfg, a, v, rawId, 0, holds);
  }

  // ----- frames and runs -----

  // The same detectors, gaps and offered events.
  predicate SameDetection(a: Core, b: Core) {
    && a.cache == b.cache && a.tracker == b.tracker
    && GapsOf(a.calls) == GapsOf(b.calls) && Offered(a.calls) == Offered(b.calls)
  }

  lemma CallDetectsNothing(c: Core, call: Call, ok: bool)
    requires !call.WriteGap? && !call.WriteMarket?
    ensures SameDetection(c, Called(c, call, ok))
  {
    GapsOneMore(c.calls, Outcome(call, ok));
    OfferedOneMore(c.calls, Outcome(call, ok));
  }

  lemma TradersDetectNothing(cfg: Config, r: Recording, v: Visit, rawId: string)
    requires v.frame.content.Data?
    ensures SameDetection(r.core, PersistTraders(cfg, r, v, rawId).core)
  {
    CallDetectsNothing(r.core, WriteTraders(StampedTraders(v, rawId)), v.env.tradersOk);
  }

  predicate Settled(cfg: Config, c: Core, arrivals: seq<Arrival>) {
    Detected(cfg, Accepting(c, []), arrivals)
  }

  lemma SameIsSettled(cfg: Config, a: Core, b: Core, arrivals: seq<Arrival>)
    requires Settled(cfg, a, arrivals) && SameDetection(a, b)
    ensures Settled(cfg, b, arrivals)
  {
  }

  lemma HandingOverSettles(cfg: Config, c: Core, held: seq<MarketEvent>, ok: bool, arrivals: seq<Arrival>)
    requires Detected(cfg, Accepting(c, held), arrivals)
    ensures Settled(cfg, Called(c, WriteMarket(held), ok), arrivals)
  {
    GapsOneMore(c.calls, Outcome(WriteMarket(held), ok));
    OfferedOneMore(c.calls, Outcome(WriteMarket(held), ok));
    assert Offered(c.calls) + held + [] == Offered(c.calls) + held;
  }

  lemma PersistSettles(
    cfg: Config, r: Recording, accepted: seq<MarketEvent>, v: Visit, rawId: string, arrivals: seq<Arrival>)
    requires v.frame.content.Data? && Detected(cfg, Accepting(r.core, accepted), arrivals)
    ensures Settled(cfg, Persisted(cfg, r, accepted, v, rawId).core, arrivals)
  {
    var after := Persisted(cfg, r, accepted, v, rawId).core;
    if accepted == [] {
      TradersDetectNothing(cfg, r, v, rawId);
      SameIsSettled(cfg, r.core, after, arrivals);
    } else {
      HandingOverSettles(cfg, r.core, accepted, v.env.marketOk, arrivals);
      var sent := r.(core := Called(r.core, WriteMarket(accepted), v.env.marketOk));
      if v.env.marketOk {
        TradersDetectNothing(cfg, MarketKept(sent, |accepted|), v, rawId);
      }
      SameIsSettled(cfg, sent.core, after, arrivals);
    }
  }

  lemma ProcessSettles(cfg: Config, r: Recording, v: Visit, rawId: string, arrivals: seq<Arrival>, end: seq<Arrival>)
    requires Settled(cfg, r.core, arrivals)
    requires end == arrivals + if v.frame.content.Data? then FrameArrivals(v, rawId) else []
    ensures Settled(cfg, Process(cfg, r, v, rawId).core, end)
  {
    if v.frame.content.Data? {
      var start := Accepting(Parsed(r.core), []);
      var a := AcceptFrom(cfg, start, v, rawId, 0);
      SameIsSettled(cfg, r.core, start.core, arrivals);
      AcceptFromDetects(cfg, start, v, rawId, arrivals);
      ProcessParts(cfg, r, v, rawId, a);
      PersistSettles(cfg, r.(core := a.core), a.accepted, v, rawId, end);
    } else {
      SameIsSettled(cfg, r.core, Process(cfg, r, v, rawId).core, arrivals);
      assert end == arrivals;
    }
  }

  lemma ArchivedIsSettled(cfg: Config, r: Recording, v: Visit, arrivals: seq<Arrival>)
    requires Settled(cfg, r.core, arrivals)
    ensures Settled(cfg, ArchivedBy(r, v).core, arrivals)
  {
    var arrived := Arrived(r.core, v.frame);
    CallDetectsNothing(arrived, WriteRaw(RawOf(arrived, v.frame)), v.env.rawOk);
    SameIsSettled(cfg, r.core, ArchivedBy(r, v).core, arrivals);
  }

  lemma HandleSettles(cfg: Config, r: Recording, v: Visit, arrivals: seq<Arrival>)
    requires Settled(cfg, r.core, arrivals)
    ensures Settled(cfg, Handle(cfg, r, v).core, arrivals + ArrivalsOf(v, RawIdOf(r.core, v)))
  {
    if v.env.rawOk {
      ArchivedIsSettled(cfg, r, v, arrivals);
      HandleIsProcess(cfg, r, v);
      ProcessSettles(
        cfg, ArchivedBy(r, v), v, RawIdOf(r.core, v), arrivals, arrivals + ArrivalsOf(v, RawIdOf(r.core, v)));
    } else {
      var arrived := Arrived(r.core, v.frame);
      CallDetectsNothing(arrived, WriteRaw(RawOf(arrived, v.frame)), v.env.rawOk);
      SameIsSettled(cfg, r.core, Handle(cfg, r, v).core, arrivals);
      assert arrivals + [] == arrivals;
    }
  }

  lemma NewIsSettled(cfg: Config)
    ensures Settled(cfg, NEW_CORE, [])
  {
    assert NEW_CORE.calls == [];
    assert Sightings([]) == [] && Observations([]) == [];
    assert Offered([]) + [] == [];
  }

  lemma {:induction false} RunSettles(cfg: Config, r: Recording, visits: seq<Visit>)
    requires r.core == NEW_CORE
    ensures Settled(cfg, HandleAll(cfg, r, visits).core, Arrivals(visits))
  {
    if visits == [] {
      NewIsSettled(cfg);
    } else {
      var front, v := visits[..|visits| - 1], visits[|visits| - 1];
      RunSettles(cfg, r, front);
      RunIntake(cfg, r, front);
      HandleSettles(cfg, HandleAll(cfg, r, front), v, Arrivals(front));
    }
  }

  /** Whatever fails in a run: its cache is that of the duplicate detector over the market records of all
      archived data frames; its gap positions and the gaps written are those of the gap detector over the
      records that repeat nothing; and exactly those are handed to the sink, in order, each judged at the
      clock reading of its validation and referring to its raw frame. */
  lemma {:induction false} RunsDetect(cfg: Config, machine: Machine, visits: seq<Visit>, at: nat -> int, flushOk: bool)
    requires Permitted(machine.state, Connecting)
    ensures var c := Run(cfg, Recording(NEW_CORE, machine), visits, at, flushOk).core;
            var novel := Novel(cfg.dedup, Arrivals(visits));
            && c.cache == Dedup.Run(cfg.dedup, Sightings(Arrivals(visits))).cache
            && c.tracker == Gaps.Run(Observations(novel)).tracker
            && GapsOf(c.calls) == Gaps.Run(Observations(novel)).reports
            && Offered(c.calls) == Judgements(cfg.quality, novel)
  {
    var r := Recording(NEW_CORE, Started(machine, at));
    var done := HandleAll(cfg, r, visits).core;
    RunSettles(cfg, r, visits);
    CallDetectsNothing(done, Flush, flushOk);
    SameIsSettled(cfg, done, Called(done, Flush, flushOk), Arrivals(visits));
    RunEnds(cfg, machine, visits, at, flushOk);
    assert Offered(done.calls) + [] == Offered(done.calls);
  }

  /** So the gaps a run writes are complete: on every stream they are separated and increasing and hold
      exactly the numbers, between the first and the highest handed to the sink, that never were a highest. */
  lemma {:induction false} WrittenGapsAreComplete(
    cfg: Config, machine: Machine, visits: seq<Visit>, at: nat -> int, flushOk: bool, s: Stream)
    requires Permitted(machine.state, Connecting)
    ensures var c := Run(cfg, Recording(NEW_CORE, machine), visits, at, flushOk).core;
            Gaps.Complete(
              Gaps.Numbers(ObservedEvents(Offered(c.calls)), s),
              Gaps.Intervals(GapsOf(c.calls), s),
              Gaps.PositionOf(c.tracker, s).lastSequence)
  {
    var novel := Novel(cfg.dedup, Arrivals(visits));
    RunsDetect(cfg, machine, visits, at, flushOk);
    JudgementsAreObserved(cfg.quality, novel);
    Gaps.GapsAreComplete(Observations(novel), s);
  }

  function ObservedEvents(events: seq<MarketEvent>): seq<Gaps.Observation> {
    seq(|events|, i requires 0 <= i < |events| =>
      Gaps.Observation(events[i].record.stream, events[i].record.sequence, events[i].receipt.time))
  }

  lemma JudgementsAreObserved(b: DataQuality.Bounds, arrivals: seq<Arrival>)
    ensures ObservedEvents(Judgements(b, arrivals)) == Observations(arrivals)
  {
  }
}

/** Exactly when a live run and its replay record the same: when no clock reading before a receipt changed a
    verdict. */
module ClockSkew {
  import opened Prelude
  import opened Events
  import opened Sinks
  import opened Recording
  import opened Accounts
  import opened Detection
  import opened Deliveries
  import opened LiveReplay
  import Dedup
  import DataQuality

  // The clock reading at which this arrival was judged changed nothing.
  predicate Harmless(b: DataQuality.Bounds, a: Arrival) {
    DataQuality.ClockHarmless(Normalized(a), a.at, b)
  }

  predicate AllHarmless(b: DataQuality.Bounds, arrivals: seq<Arrival>) {
    forall i :: 0 <= i < |arrivals| ==> Harmless(b, arrivals[i])
  }

  lemma EarlierHarmless(b: DataQuality.Bounds, fewer: seq<Arrival>, arrivals: seq<Arrival>)
    requires AllHarmless(b, arrivals) && fewer <= arrivals
    ensures AllHarmless(b, fewer)
  {
    forall i | 0 <= i < |fewer|
      ensures Harmless(b, fewer[i])
    {
      assert fewer[i] == arrivals[i];
    }
  }

  // ----- harmless readings might as well have been the receipts -----

  function OnTime(v: Visit): Visit {
    v.(env := v.env.(validateAt := _ => v.frame.receipt.time))
  }

  function AllOnTime(visits: seq<Visit>): seq<Visit> {
    seq(|visits|, i requires 0 <= i < |visits| => OnTime(visits[i]))
  }

  lemma HarmlessJudgement(cfg: Config, a: Accepting, x: Arrival)
    requires Screen(cfg, a.core, Normalized(x)).Passed? ==> Harmless(cfg.quality, x)
    ensures AcceptOne(cfg, a, Normalized(x), x.at, x.rawId) ==
            AcceptOne(cfg, a, Normalized(x), x.receipt.time, x.rawId)
  {
    DataQuality.SameVerdictExactly(Normalized(x), x.at, cfg.quality);
  }

  // What passes is novel, now and at the end of the frame.
  lemma {:induction false} PassedIsHarmless(
    cfg: Config, a: Accepting, x: Arrival, arrivals: seq<Arrival>, more: seq<Arrival>, end: seq<Arrival>)
    requires Detected(cfg, a, arrivals) && Screen(cfg, a.core, Normalized(x)).Passed?
    requires end == arrivals + [x] + more && AllHarmless(cfg.quality, Novel(cfg.dedup, end))
    ensures Harmless(cfg.quality, x)
  {
    var after := Admit(cfg, a.(core := Screen(cfg, a.core, Normalized(x)).core), Normalized(x), x.at, x.rawId);
    PassedIsDetected(cfg, a, x, arrivals, after);
    NovelOneMore(cfg.dedup, arrivals, x);
    NovelGrows(cfg.dedup, arrivals + [x], more);
    var now := Novel(cfg.dedup, arrivals + [x]);
    EarlierHarmless(cfg.quality, now, Novel(cfg.dedup, end));
    assert now[|now| - 1] == x;
  }

  // One event, judged when it was or at its receipt.
  lemma NextOnTime(cfg: Config, a: Accepting, v: Visit, rawId: string, k: nat, arrivals: seq<Arrival>)
    returns (next: Accepting)
    requires v.frame.content.Data? && k < |v.frame.content.market|
    requires var x, all := ArrivalAt(v, rawId, k), FrameArrivals(v, rawId);
             && Detected(cfg, a, arrivals + all[..k])
             && (Screen(cfg, a.core, Normalized(x)).Passed? ==> Harmless(cfg.quality, x))
    ensures next == AcceptOne(cfg, a, EventAt(v, k), v.env.validateAt(k), rawId)
    ensures AcceptFrom(cfg, a, OnTime(v), rawId, k) == AcceptFrom(cfg, next, OnTime(v), rawId, k + 1)
    ensures Detected(cfg, next, arrivals + FrameArrivals(v, rawId)[..k + 1])
  {
    var x, w, all := ArrivalAt(v, rawId, k), OnTime(v), FrameArrivals(v, rawId);
    assert EventAt(v, k) == Normalized(x) == EventAt(w, k);
    next := NextDetects(cfg, a, v, rawId, k, arrivals + all[..k]);
    GrownPrefix(arrivals, all, k);
    HarmlessJudgement(cfg, a, x);
    AcceptFromStep(cfg, a, w, rawId, k, next);
  }

  lemma SplitAt<T>(before: seq<T>, all: seq<T>, k: nat)
    requires k < |all|
    ensures before + all == before + all[..k] + [all[k]] + all[k + 1..]
  {
  }

  lemma {:induction false} NextIsHarmless(
    cfg: Config, a: Accepting, v: Visit, rawId: string, k: nat, arrivals: seq<Arrival>)
    requires v.frame.content.Data? && k < |v.frame.content.market|
    requires Detected(cfg, a, arrivals + FrameArrivals(v, rawId)[..k])
    requires AllHarmless(cfg.quality, Novel(cfg.dedup, arrivals + FrameArrivals(v, rawId)))
    ensures var x := ArrivalAt(v, rawId, k);
            Screen(cfg, a.core, Normalized(x)).Passed? ==> Harmless(cfg.quality, x)
  {
    var x, all := ArrivalAt(v, rawId, k), FrameArrivals(v, rawId);
    if Screen(cfg, a.core, Normalized(x)).Passed? {
      SplitAt(arrivals, all, k);
      PassedIsHarmless(cfg, a, x, arrivals + all[..k], all[k + 1..], arrivals + all);
    }
  }

  lemma {:induction false} AcceptOnTime(cfg: Config, a: Accepting, v: Visit, rawId: string, arrivals: seq<Arrival>)
    requires v.frame.content.Data? && Detected(cfg, a, arrivals)
    requires AllHarmless(cfg.quality, Novel(cfg.dedup, arrivals + FrameArrivals(v, rawId)))
    ensures AcceptFrom(cfg, a, v, rawId, 0) == AcceptFrom(cfg, a, OnTime(v), rawId, 0)
  {
    var all, end := FrameArrivals(v, rawId), AcceptFrom(cfg, a, OnTime(v), rawId, 0);
    var holds := (q: Accepting, k: nat) =>
      k <= |all| && Detected(cfg, q, arrivals + all[..k]) && AcceptFrom(cfg, q, OnTime(v), rawId, k) == end;
    WholePrefix(arrivals, all);
    forall q, k: nat
      ensures KeptByAccept(cfg, v, rawId, holds, q, k)
    {
      if holds(q, k) && k < |all| {
        NextIsHarmless(cfg, q, v, rawId, k, arrivals);
        var _ := NextOnTime(cfg, q, v, rawId, k, arrivals);
      }
    }
    AcceptInduction(cfg, a, v, rawId, 0, holds);
  }

  lemma SameTraderEvents(v: Visit, rawId: string)
    requires v.frame.content.Data?
    ensures StampedTraders(v, rawId) == StampedTraders(OnTime(v), rawId)
  {
    StampedAreTraderEvents(v, rawId);
    StampedAreTraderEvents(OnTime(v), rawId);
    assert TraderEvents(v, rawId) == TraderEvents(OnTime(v), rawId);
  }

  lemma PersistOnTime(cfg: Config, r: Recording, accepted: seq<MarketEvent>, v: Visit, rawId: string)
    requires v.frame.content.Data?
    ensures Persisted(cfg, r, accepted, v, rawId) == Persisted(cfg, r, accepted, OnTime(v), rawId)
  {
    SameTraderEvents(v, rawId);
  }

  lemma {:induction false} ProcessOnTime(cfg: Config, r: Recording, v: Visit, rawId: string, arrivals: seq<Arrival>)
    requires Settled(cfg, r.core, arrivals) && v.frame.content.Data?
    requires AllHarmless(cfg.quality, Novel(cfg.dedup, arrivals + FrameArrivals(v, rawId)))
    ensures Process(cfg, r, v, rawId) == Process(cfg, r, OnTime(v), rawId)
  {
    var start := Accepting(Parsed(r.core), []);
    var a := AcceptFrom(cfg, start, v, rawId, 0);
    SameIsSettled(cfg, r.core, start.core, arrivals);
    AcceptOnTime(cfg, start, v, rawId, arrivals);
    ProcessParts(cfg, r, v, rawId, a);
    ProcessParts(cfg, r, OnTime(v), rawId, a);
    PersistOnTime(cfg, r.(core := a.core), a.accepted, v, rawId);
  }

  lemma {:induction false} HandleOnTime(cfg: Config, r: Recording, v: Visit, arrivals: seq<Arrival>)
    requires Settled(cfg, r.core, arrivals)
    requires AllHarmless(cfg.quality, Novel(cfg.dedup, arrivals + ArrivalsOf(v, RawIdOf(r.core, v))))
    ensures Handle(cfg, r, v) == Handle(cfg, r, OnTime(v))
  {
    if v.env.rawOk {
      HandleIsProcess(cfg, r, v);
      HandleIsProcess(cfg, r, OnTime(v));
      if v.frame.content.Data? {
        ArchivedIsSettled(cfg, r, v, arrivals);
        ProcessOnTime(cfg, ArchivedBy(r, v), v, RawIdOf(r.core, v), arrivals);
      }
    }
  }

  lemma {:induction false} HarmlessBefore(b: DataQuality.Bounds, limits: Dedup.Limits, front: seq<Visit>, v: Visit)
    requires AllHarmless(b, Novel(limits, Arrivals(front + [v])))
    ensures AllHarmless(b, Novel(limits, Arrivals(front)))
  {
    var more := ArrivalsOf(v, LastRawId(front + [v]));
    ArrivalsOneMore(front, v);
    NovelGrows(limits, Arrivals(front), more);
    EarlierHarmless(b, Novel(limits, Arrivals(front)), Novel(limits, Arrivals(front) + more));
  }

  lemma CurrentRawId(cfg: Config, c: Core, front: seq<Visit>, v: Visit)
    requires Ready(cfg, c, front)
    ensures RawIdOf(c, v) == LastRawId(front + [v])
  {
  }

  // One more frame, its novel arrivals all judged harmlessly.
  lemma {:induction false} FrameOnTime(cfg: Config, q: Recording, front: seq<Visit>, v: Visit)
    requires Ready(cfg, q.core, front) && AllHarmless(cfg.quality, Novel(cfg.dedup, Arrivals(front + [v])))
    ensures Handle(cfg, q, v) == Handle(cfg, q, OnTime(v))
  {
    CurrentRawId(cfg, q.core, front, v);
    ArrivalsOneMore(front, v);
    HandleOnTime(cfg, q, v, Arrivals(front));
  }

  lemma OnTimeOneMore(front: seq<Visit>, v: Visit)
    ensures AllOnTime(front + [v]) == AllOnTime(front) + [OnTime(v)]
  {
  }

  lemma {:induction false} LastOnTime(cfg: Config, r: Recording, front: seq<Visit>, v: Visit)
    requires HandleAll(cfg, r, front) == HandleAll(cfg, r, AllOnTime(front))
    requires var q := HandleAll(cfg, r, front); Handle(cfg, q, v) == Handle(cfg, q, OnTime(v))
    ensures HandleAll(cfg, r, front + [v]) == HandleAll(cfg, r, AllOnTime(front + [v]))
  {
    HandledLast(cfg, r, front, v);
    OnTimeOneMore(front, v);
    HandledLast(cfg, r, AllOnTime(front), OnTime(v));
  }

  // If its novel arrivals were all judged harmlessly, a run is the run judged on receipt.
  predicate RunsOnTime(cfg: Config, r: Recording, visits: seq<Visit>) {
    AllHarmless(cfg.quality, Novel(cfg.dedup, Arrivals(visits))) ==>
      HandleAll(cfg, r, visits) == HandleAll(cfg, r, AllOnTime(visits))
  }

  lemma OneMoreOnTime(cfg: Config, r: Recording, front: seq<Visit>, v: Visit)
    requires r.core == NEW_CORE && RunsOnTime(cfg, r, front)
    ensures RunsOnTime(cfg, r, front + [v])
  {
    if AllHarmless(cfg.quality, Novel(cfg.dedup, Arrivals(front + [v]))) {
      HarmlessBefore(cfg.quality, cfg.dedup, front, v);
      RunIsReady(cfg, r, front);
      FrameOnTime(cfg, HandleAll(cfg, r, front), front, v);
      LastOnTime(cfg, r, front, v);
    }
  }

  lemma RunOnTime(cfg: Config, r: Recording, visits: seq<Visit>)
    requires r.core == NEW_CORE
    ensures RunsOnTime(cfg, r, visits)
  {
    var holds := front => RunsOnTime(cfg, r, front);
    assert holds([]) by {
      assert AllOnTime([]) == [];
    }
    forall front, v | holds(front)
      ensures holds(front + [v])
    {
      OneMoreOnTime(cfg, r, front, v);
    }
    Growing(visits, holds);
  }

  // ----- otherwise the two differ -----

  // The same record, received alike; generated ids and clock readings may differ.
  predicate SameArrival(a: Arrival, b: Arrival) {
    a.record == b.record && a.receipt == b.receipt && a.rawId == b.rawId
  }

  predicate SameArrivals(xs: seq<Arrival>, ys: seq<Arrival>) {
    |xs| == |ys| && forall i :: 0 <= i < |xs| ==> SameArrival(xs[i], ys[i])
  }

  lemma SameSightings(xs: seq<Arrival>, ys: seq<Arrival>)
    requires SameArrivals(xs, ys)
    ensures Sightings(xs) == Sightings(ys)
  {
    forall i | 0 <= i < |xs|
      ensures Sightings(xs)[i] == Sightings(ys)[i]
    {
      assert SameArrival(xs[i], ys[i]);
    }
  }

  lemma {:induction false} SameNovel(limits: Dedup.Limits, xs: seq<Arrival>, ys: seq<Arrival>)
    requires SameArrivals(xs, ys)
    ensures SameArrivals(Novel(limits, xs), Novel(limits, ys))
  {
    if xs != [] {
      var n := |xs| - 1;
      SameNovel(limits, xs[..n], ys[..n]);
      SameSightings(xs[..n], ys[..n]);
      assert SameArrival(xs[n], ys[n]);
    }
  }

  lemma SameFrameArrivals(v: Visit, w: Visit, rawId: string)
    requires v.frame == w.frame && v.frame.content.Data?
    ensures SameArrivals(FrameArrivals(v, rawId), FrameArrivals(w, rawId))
  {
  }

  lemma SameJoined(us: seq<Arrival>, vs: seq<Arrival>, xs: seq<Arrival>, ys: seq<Arrival>)
    requires SameArrivals(us, vs) && SameArrivals(xs, ys)
    ensures SameArrivals(us + xs, vs + ys)
  {
  }

  // The same frames, archived or not alike; every other sink call and clock may differ.
  predicate SameArchived(vs: seq<Visit>, ws: seq<Visit>) {
    |vs| == |ws| && forall i :: 0 <= i < |vs| ==> vs[i].frame == ws[i].frame && vs[i].env.rawOk == ws[i].env.rawOk
  }

  lemma {:induction false} SameArrivalsOf(vs: seq<Visit>, ws: seq<Visit>)
    requires SameArchived(vs, ws)
    ensures SameArrivals(Arrivals(vs), Arrivals(ws))
  {
    if vs != [] {
      var n := |vs| - 1;
      var v, w, rawId := vs[n], ws[n], LastRawId(vs);
      assert v.frame == w.frame && rawId == LastRawId(ws);
      SameArrivalsOf(vs[..n], ws[..n]);
      if v.env.rawOk && v.frame.content.Data? {
        SameFrameArrivals(v, w, rawId);
      }
      SameJoined(Arrivals(vs[..n]), Arrivals(ws[..n]), ArrivalsOf(v, rawId), ArrivalsOf(w, rawId));
    }
  }

  // Validated at its receipt or later.
  predicate Punctual(a: Arrival) {
    a.at >= a.receipt.time
  }

  predicate AllPunctual(arrivals: seq<Arrival>) {
    forall i :: 0 <= i < |arrivals| ==> Punctual(arrivals[i])
  }

  lemma {:induction false} PunctualArrivals(visits: seq<Visit>)
    requires AllInTime(visits)
    ensures AllPunctual(Arrivals(visits))
  {
    if visits != [] {
      var front, v := visits[..|visits| - 1], visits[|visits| - 1];
      PunctualArrivals(front);
      assert InTime(v);
    }
  }

  lemma {:induction false} PunctualNovel(limits: Dedup.Limits, arrivals: seq<Arrival>)
    requires AllPunctual(arrivals)
    ensures AllPunctual(Novel(limits, arrivals))
  {
    if arrivals != [] {
      PunctualNovel(limits, arrivals[..|arrivals| - 1]);
    }
  }

  lemma OfferedLast(calls: seq<Outcome>)
    requires calls != []
    ensures var front, last := calls[..|calls| - 1], calls[|calls| - 1];
            UnnamedAll(Offered(calls)) ==
            UnnamedAll(Offered(front)) + if last.call.WriteMarket? then UnnamedAll(last.call.market) else []
  {
    var front, last := calls[..|calls| - 1], calls[|calls| - 1];
    assert calls == front + [last];
    OfferedOneMore(front, last);
    if last.call.WriteMarket? {
      UnnamedJoined(Offered(front), last.call.market);
    }
  }

  lemma {:induction false} SameOffered(a: seq<Outcome>, b: seq<Outcome>)
    requires UnnamedCalls(a) == UnnamedCalls(b)
    ensures UnnamedAll(Offered(a)) == UnnamedAll(Offered(b))
  {
    SameLast(a, b);
    if a != [] {
      SameOffered(a[..|a| - 1], b[..|b| - 1]);
      OfferedLast(a);
      OfferedLast(b);
    }
  }

  lemma UnnamedJoined(x: seq<MarketEvent>, y: seq<MarketEvent>)
    ensures UnnamedAll(x + y) == UnnamedAll(x) + UnnamedAll(y)
  {
  }

  // Judged alike by a punctual clock, an arrival was judged harmlessly.
  lemma SameVerdictIsHarmless(b: DataQuality.Bounds, x: Arrival, y: Arrival)
    requires SameArrival(x, y) && Punctual(y) && Judgement(b, x).quality == Judgement(b, y).quality
    ensures Harmless(b, x)
  {
    DataQuality.SameVerdictExactly(Normalized(x), x.at, b);
    DataQuality.SameVerdictExactly(Normalized(y), y.at, b);
    assert DataQuality.Status(Normalized(x), x.receipt.time, b) == DataQuality.Status(Normalized(y), y.receipt.time, b);
  }

  lemma SameOfferedIsHarmless(b: DataQuality.Bounds, xs: seq<Arrival>, ys: seq<Arrival>)
    requires SameArrivals(xs, ys) && AllPunctual(ys)
    requires UnnamedAll(Judgements(b, xs)) == UnnamedAll(Judgements(b, ys))
    ensures AllHarmless(b, xs)
  {
    forall i | 0 <= i < |xs|
      ensures Harmless(b, xs[i])
    {
      assert SameArrival(xs[i], ys[i]) && Punctual(ys[i]);
      var p, q := Judgements(b, xs), Judgements(b, ys);
      assert Unnamed(p[i]) == UnnamedAll(p)[i] == UnnamedAll(q)[i] == Unnamed(q[i]);
      SameVerdictIsHarmless(b, xs[i], ys[i]);
    }
  }

  lemma {:induction false} SettledOffers(cfg: Config, c: Core, arrivals: seq<Arrival>)
    requires Settled(cfg, c, arrivals)
    ensures Offered(c.calls) == Judgements(cfg.quality, Novel(cfg.dedup, arrivals))
  {
    assert Offered(c.calls) + [] == Offered(c.calls);
  }

  lemma HarmlessIsSameOffered(b: DataQuality.Bounds, xs: seq<Arrival>, ys: seq<Arrival>)
    requires SameArrivals(xs, ys) && AllPunctual(ys) && AllHarmless(b, xs)
    ensures UnnamedAll(Judgements(b, xs)) == UnnamedAll(Judgements(b, ys))
  {
    forall i | 0 <= i < |xs|
      ensures Unnamed(Judgement(b, xs[i])) == Unnamed(Judgement(b, ys[i]))
    {
      assert SameArrival(xs[i], ys[i]) && Punctual(ys[i]) && Harmless(b, xs[i]);
      HarmlessIsSameVerdict(b, xs[i], ys[i]);
    }
  }

  lemma HarmlessIsSameVerdict(b: DataQuality.Bounds, x: Arrival, y: Arrival)
    requires SameArrival(x, y) && Punctual(y) && Harmless(b, x)
    ensures Judgement(b, x).quality == Judgement(b, y).quality
  {
    DataQuality.SameVerdictExactly(Normalized(x), x.at, b);
    DataQuality.SameVerdictExactly(Normalized(y), y.at, b);
    assert DataQuality.Status(Normalized(x), x.receipt.time, b) == DataQuality.Status(Normalized(y), y.receipt.time, b);
  }

  lemma SameObservations(xs: seq<Arrival>, ys: seq<Arrival>)
    requires SameArrivals(xs, ys)
    ensures Observations(xs) == Observations(ys)
  {
    forall i | 0 <= i < |xs|
      ensures Observations(xs)[i] == Observations(ys)[i]
    {
      assert SameArrival(xs[i], ys[i]);
    }
  }

  // Two cores settled on the same arrivals hold the same detectors and gaps, and but for verdicts the same events.
  lemma {:induction false} SettledAlike(cfg: Config, c: Core, d: Core, xs: seq<Arrival>, ys: seq<Arrival>)
    requires Settled(cfg, c, xs) && Settled(cfg, d, ys) && SameArrivals(xs, ys) && AllPunctual(ys)
    ensures c.cache == d.cache && c.tracker == d.tracker && GapsOf(c.calls) == GapsOf(d.calls)
    ensures UnnamedAll(Offered(c.calls)) == UnnamedAll(Offered(d.calls)) <==>
            AllHarmless(cfg.quality, Novel(cfg.dedup, xs))
  {
    var ps, qs := Novel(cfg.dedup, xs), Novel(cfg.dedup, ys);
    SettledOffers(cfg, c, xs);
    SettledOffers(cfg, d, ys);
    SameSightings(xs, ys);
    SameNovel(cfg.dedup, xs, ys);
    SameObservations(ps, qs);
    PunctualNovel(cfg.dedup, ys);
    if AllHarmless(cfg.quality, ps) {
      HarmlessIsSameOffered(cfg.quality, ps, qs);
    }
    if UnnamedAll(Offered(c.calls)) == UnnamedAll(Offered(d.calls)) {
      SameOfferedIsHarmless(cfg.quality, ps, qs);
    }
  }

  /** However their other sink calls end, a live run and a replay of it that archive the same frames hold the
      same duplicate cache and gap positions and write the same gaps; and they hand over the same market events,
      verdicts included, exactly when the live clock was harmless. */
  lemma {:induction false} SameDetectionsExactly(
    cfg: Config, r: Recording, s: Recording, live: seq<Visit>, replay: seq<Visit>)
    requires r.core == NEW_CORE && s.core == NEW_CORE && SameArchived(live, replay) && AllInTime(replay)
    ensures var a, b := HandleAll(cfg, r, live).core, HandleAll(cfg, s, replay).core;
            && a.cache == b.cache && a.tracker == b.tracker && GapsOf(a.calls) == GapsOf(b.calls)
            && (UnnamedAll(Offered(a.calls)) == UnnamedAll(Offered(b.calls)) <==>
                AllHarmless(cfg.quality, Novel(cfg.dedup, Arrivals(live))))
  {
    RunSettles(cfg, r, live);
    RunSettles(cfg, s, replay);
    SameArrivalsOf(live, replay);
    PunctualArrivals(replay);
    SettledAlike(
      cfg, HandleAll(cfg, r, live).core, HandleAll(cfg, s, replay).core, Arrivals(live), Arrivals(replay));
  }

  lemma FatesArchive(live: seq<Visit>, replay: seq<Visit>)
    requires SameFates(live, replay)
    ensures SameArchived(live, replay)
  {
    forall i | 0 <= i < |live|
      ensures live[i].frame == replay[i].frame && live[i].env.rawOk == replay[i].env.rawOk
    {
      assert SameFate(live[i], replay[i]);
    }
  }

  lemma {:induction false} SameOnlyIfHarmless(
    cfg: Config, r: Recording, s: Recording, live: seq<Visit>, replay: seq<Visit>)
    requires r.core == NEW_CORE && s.core == NEW_CORE && SameFates(live, replay) && AllInTime(replay)
    requires Same(HandleAll(cfg, r, live).core, HandleAll(cfg, s, replay).core)
    ensures AllHarmless(cfg.quality, Novel(cfg.dedup, Arrivals(live)))
  {
    FatesArchive(live, replay);
    SameOffered(HandleAll(cfg, r, live).core.calls, HandleAll(cfg, s, replay).core.calls);
    SameDetectionsExactly(cfg, r, s, live, replay);
  }

  lemma OnTimeFates(live: seq<Visit>, replay: seq<Visit>)
    requires SameFates(live, replay)
    ensures SameFates(AllOnTime(live), replay) && AllInTime(AllOnTime(live))
  {
    forall i | 0 <= i < |live|
      ensures SameFate(AllOnTime(live)[i], replay[i])
    {
      assert SameFate(live[i], replay[i]);
    }
  }

  /** A live run and a replay of it, sink calls ending alike, record the same (but for generated ids) exactly
      when no event handed to the sink was judged by a clock reading before its receipt, unless it is invalid
      at any reading. */
  lemma {:induction false} SameExactlyWhenHarmless(
    cfg: Config, r: Recording, s: Recording, live: seq<Visit>, replay: seq<Visit>)
    requires r.core == NEW_CORE && s.core == NEW_CORE && SameFates(live, replay) && AllInTime(replay)
    ensures Same(HandleAll(cfg, r, live).core, HandleAll(cfg, s, replay).core) <==>
            AllHarmless(cfg.quality, Novel(cfg.dedup, Arrivals(live)))
  {
    if Same(HandleAll(cfg, r, live).core, HandleAll(cfg, s, replay).core) {
      SameOnlyIfHarmless(cfg, r, s, live, replay);
    }
    if AllHarmless(cfg.quality, Novel(cfg.dedup, Arrivals(live))) {
      RunOnTime(cfg, r, live);
      OnTimeFates(live, replay);
      LiveEqualsReplay(cfg, r, s, AllOnTime(live), replay);
    }
  }

  // ----- an instance -----

  // One frame carrying one sound mark price, received at time zero; every sink call succeeds.
  function OneMark(now: int): seq<Visit> {
    var env := Env(true, true, true, _ => now, 0, 0, 0, _ => "", _ => "");
    [Visit(Frame("", "", DataQuality.FINE_MARK.receipt, Data([DataQuality.FINE_MARK.record], [])), env)]
  }

  lemma {:induction false} OneMarkArrives(limits: Dedup.Limits, now: int)
    ensures Arrivals(OneMark(now)) == [ArrivalAt(OneMark(now)[0], LastRawId(OneMark(now)), 0)]
    ensures Novel(limits, Arrivals(OneMark(now))) == Arrivals(OneMark(now))
  {
    var visits := OneMark(now);
    var x := ArrivalAt(visits[0], LastRawId(visits), 0);
    assert visits[..0] == [];
    assert Arrivals(visits) == [x];
    NovelOneMore(limits, [], x);
    assert [] + [x] == [x];
    assert Sightings([]) == [];
  }

  // Judged by a clock one microsecond behind, it does not replay as it was recorded.
  lemma {:induction false} SkewedClockShows(cfg: Config, r: Recording, s: Recording)
    requires r.core == NEW_CORE && s.core == NEW_CORE
    ensures SameFates(OneMark(-1), OneMark(0)) && AllInTime(OneMark(0))
    ensures !Same(HandleAll(cfg, r, OneMark(-1)).core, HandleAll(cfg, s, OneMark(0)).core)
  {
    OneMarkArrives(cfg.dedup, -1);
    DataQuality.EarlyClockCondemns(cfg.quality);
    SameExactlyWhenHarmless(cfg, r, s, OneMark(-1), OneMark(0));
    var novel := Novel(cfg.dedup, Arrivals(OneMark(-1)));
    assert !Harmless(cfg.quality, novel[0]);
  }
}

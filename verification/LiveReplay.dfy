/** Two runs over the same frames, under different clocks and with different generated ids. */
module LiveReplay {
  import opened Prelude
  import opened Events
  import opened Sinks
  import opened Recording
  import Gaps
  import DataQuality

  // ----- what is compared -----

  function Unnamed(e: MarketEvent): MarketEvent {
    e.(eventId := "")
  }

  function UnnamedTrader(e: TraderEvent): TraderEvent {
    e.(eventId := "")
  }

  function UnnamedAll(es: seq<MarketEvent>): seq<MarketEvent> {
    seq(|es|, i requires 0 <= i < |es| => Unnamed(es[i]))
  }

  function UnnamedTraders(es: seq<TraderEvent>): seq<TraderEvent> {
    seq(|es|, i requires 0 <= i < |es| => UnnamedTrader(es[i]))
  }

  // A sink call without the generated event ids.
  function UnnamedCall(o: Outcome): Outcome {
    match o.call
    case WriteMarket(es) => Outcome(WriteMarket(UnnamedAll(es)), o.ok)
    case WriteTraders(es) => Outcome(WriteTraders(UnnamedTraders(es)), o.ok)
    case _ => o
  }

  function UnnamedCalls(calls: seq<Outcome>): seq<Outcome> {
    seq(|calls|, i requires 0 <= i < |calls| => UnnamedCall(calls[i]))
  }

  lemma SameLast(a: seq<Outcome>, b: seq<Outcome>)
    requires UnnamedCalls(a) == UnnamedCalls(b)
    ensures |a| == |b|
    ensures a != [] ==>
              && UnnamedCalls(a[..|a| - 1]) == UnnamedCalls(b[..|b| - 1])
              && UnnamedCall(a[|a| - 1]) == UnnamedCall(b[|b| - 1])
  {
    assert |UnnamedCalls(a)| == |UnnamedCalls(b)|;
    if a != [] {
      var n := |a| - 1;
      assert UnnamedCalls(a[..n]) == UnnamedCalls(a)[..n] && UnnamedCalls(b[..n]) == UnnamedCalls(b)[..n];
      assert UnnamedCall(a[n]) == UnnamedCalls(a)[n] && UnnamedCall(b[n]) == UnnamedCalls(b)[n];
    }
  }

  // Same detectors, same counters, and the same sink calls with the same outcomes but for event ids.
  predicate Same(a: Core, b: Core) {
    && a.cache == b.cache && a.tracker == b.tracker && a.beat == b.beat && a.metrics == b.metrics
    && UnnamedCalls(a.calls) == UnnamedCalls(b.calls)
  }

  // The same frame with the same sink outcomes; clocks and ids may differ.
  predicate SameFate(v: Visit, w: Visit) {
    && v.frame == w.frame
    && v.env.rawOk == w.env.rawOk && v.env.marketOk == w.env.marketOk && v.env.tradersOk == w.env.tradersOk
  }

  // Whenever an event of the frame is validated, the clock reads its receipt or later.
  ghost predicate InTime(v: Visit) {
    forall k :: v.env.validateAt(k) >= v.frame.receipt.time
  }

  lemma SameCalled(a: Core, b: Core, x: Call, y: Call, ok: bool)
    requires Same(a, b) && UnnamedCall(Outcome(x, ok)) == UnnamedCall(Outcome(y, ok))
    ensures Same(Called(a, x, ok), Called(b, y, ok))
  {
    var p, q := a.calls + [Outcome(x, ok)], b.calls + [Outcome(y, ok)];
    assert UnnamedCalls(p) == UnnamedCalls(a.calls) + [UnnamedCall(Outcome(x, ok))];
    assert UnnamedCalls(q) == UnnamedCalls(b.calls) + [UnnamedCall(Outcome(y, ok))];
  }

  // ----- acceptance -----

  predicate SameAccepting(a: Accepting, b: Accepting) {
    Same(a.core, b.core) && UnnamedAll(a.accepted) == UnnamedAll(b.accepted)
  }

  lemma SameScreen(cfg: Config, a: Core, b: Core, e: MarketEvent, f: MarketEvent)
    requires Same(a, b) && Unnamed(e) == Unnamed(f)
    ensures var x, y := Screen(cfg, a, e), Screen(cfg, b, f);
            x.Dropped? == y.Dropped? && Same(x.core, y.core)
  {
    var report := Gaps.Observing(a.tracker, e.record.stream, e.record.sequence, e.receipt.time).1;
    assert IdentityOf(e) == IdentityOf(f) && e.record == f.record && e.receipt == f.receipt;
    if report.Some? {
      var gap := WriteGap(report.value);
      var p, q := a.calls + [Outcome(gap, true)], b.calls + [Outcome(gap, true)];
      assert UnnamedCalls(p) == UnnamedCalls(a.calls) + [Outcome(gap, true)];
      assert UnnamedCalls(q) == UnnamedCalls(b.calls) + [Outcome(gap, true)];
    }
  }

  lemma SameAdmit(
    cfg: Config, a: Accepting, b: Accepting, e: MarketEvent, f: MarketEvent, now: int, later: int, rawId: string)
    requires SameAccepting(a, b) && Unnamed(e) == Unnamed(f)
    requires now >= e.receipt.time && later >= e.receipt.time
    ensures SameAccepting(Admit(cfg, a, e, now, rawId), Admit(cfg, b, f, later, rawId))
  {
    var q := DataQuality.Status(e, now, cfg.quality);
    DataQuality.StatusIgnoresClock(e, now, later, cfg.quality);
    assert e.record == f.record && e.receipt == f.receipt;
    assert DataQuality.Status(f, later, cfg.quality) == q;
    var x, y := Stamped(e, q, rawId), Stamped(f, q, rawId);
    assert Unnamed(x) == Unnamed(y);
    assert UnnamedAll(a.accepted + [x]) == UnnamedAll(a.accepted) + [Unnamed(x)];
    assert UnnamedAll(b.accepted + [y]) == UnnamedAll(b.accepted) + [Unnamed(y)];
  }

  lemma SameAcceptOne(
    cfg: Config, a: Accepting, b: Accepting, e: MarketEvent, f: MarketEvent, now: int, later: int, rawId: string)
    requires SameAccepting(a, b) && Unnamed(e) == Unnamed(f)
    requires now >= e.receipt.time && later >= e.receipt.time
    ensures SameAccepting(AcceptOne(cfg, a, e, now, rawId), AcceptOne(cfg, b, f, later, rawId))
  {
    SameScreen(cfg, a.core, b.core, e, f);
    var x, y := Screen(cfg, a.core, e), Screen(cfg, b.core, f);
    if x.Passed? {
      SameAdmit(cfg, a.(core := x.core), b.(core := y.core), e, f, now, later, rawId);
    }
  }

  lemma {:induction false} SameAccept(
    cfg: Config, a: Accepting, b: Accepting, v: Visit, w: Visit, rawId: string, k: nat)
    requires SameAccepting(a, b) && SameFate(v, w) && InTime(v) && InTime(w)
    requires v.frame.content.Data? && k <= |v.frame.content.market|
    ensures SameAccepting(AcceptFrom(cfg, a, v, rawId, k), AcceptFrom(cfg, b, w, rawId, k))
    decreases |v.frame.content.market| - k
  {
    if k < |v.frame.content.market| {
      var e, f, now, later := EventAt(v, k), EventAt(w, k), v.env.validateAt(k), w.env.validateAt(k);
      SameAcceptOne(cfg, a, b, e, f, now, later, rawId);
      SameAccept(cfg, AcceptOne(cfg, a, e, now, rawId), AcceptOne(cfg, b, f, later, rawId), v, w, rawId, k + 1);
    }
  }

  // ----- persistence -----

  lemma SameTraders(cfg: Config, r: Recording, s: Recording, v: Visit, w: Visit, rawId: string)
    requires Same(r.core, s.core) && SameFate(v, w) && v.frame.content.Data?
    ensures Same(PersistTraders(cfg, r, v, rawId).core, PersistTraders(cfg, s, w, rawId).core)
  {
    var x, y := StampedTraders(v, rawId), StampedTraders(w, rawId);
    forall i | 0 <= i < |x|
      ensures UnnamedTrader(x[i]) == UnnamedTrader(y[i])
    {
      var t, receipt := v.frame.content.traders[i], v.frame.receipt;
      assert x[i] == NewTraderEvent(t, receipt, v.env.traderIds(i)).(rawReference := Some(rawId));
      assert y[i] == NewTraderEvent(t, receipt, w.env.traderIds(i)).(rawReference := Some(rawId));
    }
    assert UnnamedTraders(x) == UnnamedTraders(y);
    SameCalled(r.core, s.core, WriteTraders(x), WriteTraders(y), v.env.tradersOk);
  }

  lemma SamePersist(
    cfg: Config, r: Recording, s: Recording, x: seq<MarketEvent>, y: seq<MarketEvent>, v: Visit, w: Visit,
    rawId: string)
    requires Same(r.core, s.core) && UnnamedAll(x) == UnnamedAll(y) && SameFate(v, w) && v.frame.content.Data?
    ensures Same(Persisted(cfg, r, x, v, rawId).core, Persisted(cfg, s, y, w, rawId).core)
  {
    assert |x| == |UnnamedAll(x)| == |UnnamedAll(y)| == |y|;
    if x == [] {
      SameTraders(cfg, r, s, v, w, rawId);
    } else {
      SameCalled(r.core, s.core, WriteMarket(x), WriteMarket(y), v.env.marketOk);
      var p, q := Called(r.core, WriteMarket(x), v.env.marketOk), Called(s.core, WriteMarket(y), v.env.marketOk);
      if v.env.marketOk {
        SameTraders(cfg, MarketKept(r.(core := p), |x|), MarketKept(s.(core := q), |y|), v, w, rawId);
      }
    }
  }

  lemma SameProcess(cfg: Config, r: Recording, s: Recording, v: Visit, w: Visit, rawId: string)
    requires Same(r.core, s.core) && SameFate(v, w) && InTime(v) && InTime(w)
    ensures Same(Process(cfg, r, v, rawId).core, Process(cfg, s, w, rawId).core)
  {
    if v.frame.content.Data? {
      var a, b := Accepting(Parsed(r.core), []), Accepting(Parsed(s.core), []);
      SameAccept(cfg, a, b, v, w, rawId, 0);
      var x, y := AcceptFrom(cfg, a, v, rawId, 0), AcceptFrom(cfg, b, w, rawId, 0);
      SamePersist(cfg, r.(core := x.core), s.(core := y.core), x.accepted, y.accepted, v, w, rawId);
    }
  }

  lemma SameHandle(cfg: Config, r: Recording, s: Recording, v: Visit, w: Visit)
    requires Same(r.core, s.core) && SameFate(v, w) && InTime(v) && InTime(w)
    ensures Same(Handle(cfg, r, v).core, Handle(cfg, s, w).core)
  {
    var raw := WriteRaw(RawOf(Arrived(r.core, v.frame), v.frame));
    SameCalled(Arrived(r.core, v.frame), Arrived(s.core, w.frame), raw, raw, v.env.rawOk);
    if v.env.rawOk {
      var p, q := Archived(Submitted(r.core, v)), Archived(Submitted(s.core, w));
      SameProcess(cfg, r.(core := p), s.(core := q), v, w, RawIdOf(r.core, v));
    }
  }

  predicate SameFates(vs: seq<Visit>, ws: seq<Visit>) {
    |vs| == |ws| && forall i :: 0 <= i < |vs| ==> SameFate(vs[i], ws[i])
  }

  ghost predicate AllInTime(vs: seq<Visit>) {
    forall i :: 0 <= i < |vs| ==> InTime(vs[i])
  }

  /** Two runs over the same frames whose sink calls end alike record the same events (but for generated
      ids), verdicts, gaps and counters, whatever their clocks read, as long as no clock reads before a
      frame's receipt while its events are validated. The state machines may differ. */
  lemma {:induction false} LiveEqualsReplay(
    cfg: Config, r: Recording, s: Recording, live: seq<Visit>, replay: seq<Visit>)
    requires Same(r.core, s.core)
    requires SameFates(live, replay) && AllInTime(live) && AllInTime(replay)
    ensures Same(HandleAll(cfg, r, live).core, HandleAll(cfg, s, replay).core)
  {
    if live != [] {
      var n := |live| - 1;
      LiveEqualsReplay(cfg, r, s, live[..n], replay[..n]);
      SameHandle(cfg, HandleAll(cfg, r, live[..n]), HandleAll(cfg, s, replay[..n]), live[n], replay[n]);
    }
  }

  // ----- signatures -----

  // What two replays are compared by: recorded events without their ids and raw references.
  datatype Signed = SignedMarket(event: MarketEvent) | SignedTrader(trader: TraderEvent)

  function SignMarket(e: MarketEvent): Signed {
    SignedMarket(e.(eventId := "", rawReference := None))
  }

  function SignTrader(e: TraderEvent): Signed {
    SignedTrader(e.(eventId := "", rawReference := None))
  }

  // Market events recorded, in order.
  function MarketSignature(calls: seq<Outcome>): seq<Signed> {
    if calls == [] then []
    else
      var o := calls[|calls| - 1];
      MarketSignature(calls[..|calls| - 1])
      + (if o.call.WriteMarket? && o.ok then SignAll(o.call.market) else [])
  }

  function TraderSignature(calls: seq<Outcome>): seq<Signed> {
    if calls == [] then []
    else
      var o := calls[|calls| - 1];
      TraderSignature(calls[..|calls| - 1])
      + (if o.call.WriteTraders? && o.ok then SignAllTraders(o.call.traders) else [])
  }

  function SignAll(es: seq<MarketEvent>): seq<Signed> {
    seq(|es|, i requires 0 <= i < |es| => SignMarket(es[i]))
  }

  function SignAllTraders(es: seq<TraderEvent>): seq<Signed> {
    seq(|es|, i requires 0 <= i < |es| => SignTrader(es[i]))
  }

  function Signature(calls: seq<Outcome>): seq<Signed> {
    MarketSignature(calls) + TraderSignature(calls)
  }

  lemma SameSigned(x: seq<MarketEvent>, y: seq<MarketEvent>)
    requires UnnamedAll(x) == UnnamedAll(y)
    ensures SignAll(x) == SignAll(y)
  {
    assert |x| == |UnnamedAll(x)| == |UnnamedAll(y)| == |y|;
    forall i | 0 <= i < |x|
      ensures SignMarket(x[i]) == SignMarket(y[i])
    {
      assert Unnamed(x[i]) == UnnamedAll(x)[i] == UnnamedAll(y)[i] == Unnamed(y[i]);
    }
  }

  lemma SameSignedTraders(x: seq<TraderEvent>, y: seq<TraderEvent>)
    requires UnnamedTraders(x) == UnnamedTraders(y)
    ensures SignAllTraders(x) == SignAllTraders(y)
  {
    assert |x| == |UnnamedTraders(x)| == |UnnamedTraders(y)| == |y|;
    forall i | 0 <= i < |x|
      ensures SignTrader(x[i]) == SignTrader(y[i])
    {
      assert UnnamedTrader(x[i]) == UnnamedTraders(x)[i] == UnnamedTraders(y)[i] == UnnamedTrader(y[i]);
    }
  }

  lemma {:induction false} SameSignature(a: seq<Outcome>, b: seq<Outcome>)
    requires UnnamedCalls(a) == UnnamedCalls(b)
    ensures Signature(a) == Signature(b)
    ensures MarketSignature(a) == MarketSignature(b) && TraderSignature(a) == TraderSignature(b)
  {
    assert |a| == |UnnamedCalls(a)| == |UnnamedCalls(b)| == |b|;
    if a != [] {
      var n := |a| - 1;
      assert UnnamedCalls(a[..n]) == UnnamedCalls(a)[..n] == UnnamedCalls(b)[..n] == UnnamedCalls(b[..n]);
      SameSignature(a[..n], b[..n]);
      assert UnnamedCall(a[n]) == UnnamedCalls(a)[n] == UnnamedCalls(b)[n] == UnnamedCall(b[n]);
      if a[n].call.WriteMarket? {
        SameSigned(a[n].call.market, b[n].call.market);
      } else if a[n].call.WriteTraders? {
        SameSignedTraders(a[n].call.traders, b[n].call.traders);
      }
    }
  }

  // ----- what equal signatures mean -----

  // The events of the market writes that returned, in order.
  function RecordedMarket(calls: seq<Outcome>): seq<MarketEvent> {
    if calls == [] then []
    else
      var o := calls[|calls| - 1];
      RecordedMarket(calls[..|calls| - 1]) + (if o.call.WriteMarket? && o.ok then o.call.market else [])
  }

  function RecordedTraders(calls: seq<Outcome>): seq<TraderEvent> {
    if calls == [] then []
    else
      var o := calls[|calls| - 1];
      RecordedTraders(calls[..|calls| - 1]) + (if o.call.WriteTraders? && o.ok then o.call.traders else [])
  }

  lemma SignAllJoined(x: seq<MarketEvent>, y: seq<MarketEvent>)
    ensures SignAll(x + y) == SignAll(x) + SignAll(y)
  {
  }

  lemma SignAllTradersJoined(x: seq<TraderEvent>, y: seq<TraderEvent>)
    ensures SignAllTraders(x + y) == SignAllTraders(x) + SignAllTraders(y)
  {
  }

  lemma {:induction false} SignedIsRecorded(calls: seq<Outcome>)
    ensures MarketSignature(calls) == SignAll(RecordedMarket(calls))
    ensures TraderSignature(calls) == SignAllTraders(RecordedTraders(calls))
  {
    if calls != [] {
      var front, o := calls[..|calls| - 1], calls[|calls| - 1];
      SignedIsRecorded(front);
      if o.call.WriteMarket? && o.ok {
        SignAllJoined(RecordedMarket(front), o.call.market);
      } else if o.call.WriteTraders? && o.ok {
        SignAllTradersJoined(RecordedTraders(front), o.call.traders);
      }
      assert SignAll(RecordedMarket(front)) + [] == SignAll(RecordedMarket(front) + []);
      assert SignAllTraders(RecordedTraders(front)) + [] == SignAllTraders(RecordedTraders(front) + []);
    }
  }

  // The same in order, but for event ids and raw references.
  predicate AlikeMarket(x: seq<MarketEvent>, y: seq<MarketEvent>) {
    |x| == |y| && forall i :: 0 <= i < |x| ==>
      x[i].record == y[i].record && x[i].receipt == y[i].receipt && x[i].quality == y[i].quality
  }

  predicate AlikeTraders(x: seq<TraderEvent>, y: seq<TraderEvent>) {
    |x| == |y| && forall i :: 0 <= i < |x| ==> x[i].record == y[i].record && x[i].receipt == y[i].receipt
  }

  lemma SignsOneAlike(x: MarketEvent, y: MarketEvent)
    ensures SignMarket(x) == SignMarket(y) <==>
            x.record == y.record && x.receipt == y.receipt && x.quality == y.quality
  {
  }

  lemma SignsAlike(x: seq<MarketEvent>, y: seq<MarketEvent>)
    ensures SignAll(x) == SignAll(y) <==> AlikeMarket(x, y)
  {
    assert |SignAll(x)| == |x| && |SignAll(y)| == |y|;
    forall i | 0 <= i < |x| && i < |y|
      ensures SignAll(x)[i] == SignAll(y)[i] <==>
              x[i].record == y[i].record && x[i].receipt == y[i].receipt && x[i].quality == y[i].quality
    {
      SignsOneAlike(x[i], y[i]);
    }
  }

  lemma SignsTradersAlike(x: seq<TraderEvent>, y: seq<TraderEvent>)
    ensures SignAllTraders(x) == SignAllTraders(y) <==> AlikeTraders(x, y)
  {
    assert |SignAllTraders(x)| == |x| && |SignAllTraders(y)| == |y|;
    forall i | 0 <= i < |x| && i < |y|
      ensures SignAllTraders(x)[i] == SignAllTraders(y)[i] <==>
              x[i].record == y[i].record && x[i].receipt == y[i].receipt
    {
      assert SignTrader(x[i]) == SignTrader(y[i]) <==> x[i].record == y[i].record && x[i].receipt == y[i].receipt;
    }
  }

  lemma {:induction false} KindAt(a: seq<Signed>, b: seq<Signed>, i: nat)
    requires (forall x <- a :: x.SignedMarket?) && (forall x <- b :: x.SignedTrader?) && i < |a| + |b|
    ensures (a + b)[i].SignedMarket? <==> i < |a|
  {
    if i < |a| {
      assert a[i] in a;
    } else {
      assert b[i - |a|] in b;
    }
  }

  lemma SplitAlike(a: seq<Signed>, b: seq<Signed>, c: seq<Signed>, d: seq<Signed>)
    requires |a| == |c| && a + b == c + d
    ensures a == c && b == d
  {
    assert a == (a + b)[..|a|] && c == (c + d)[..|c|];
    assert b == (a + b)[|a|..] && d == (c + d)[|c|..];
  }

  // A signature comes apart into its market part and its trader part in one way.
  lemma {:induction false} PartsAlike(a: seq<Signed>, b: seq<Signed>, c: seq<Signed>, d: seq<Signed>)
    requires (forall x <- a :: x.SignedMarket?) && (forall x <- c :: x.SignedMarket?)
    requires (forall x <- b :: x.SignedTrader?) && (forall x <- d :: x.SignedTrader?)
    ensures a + b == c + d <==> a == c && b == d
  {
    if a + b == c + d {
      assert |a| + |b| == |a + b| == |c + d| == |c| + |d|;
      var i := Min(|a|, |c|);
      if i < |a| + |b| {
        KindAt(a, b, i);
        KindAt(c, d, i);
      }
      SplitAlike(a, b, c, d);
    }
  }

  /** Two runs have equal signatures exactly when the market events they recorded, and the trader events they
      recorded, agree in number, in order and in every field but the event id and the raw reference. */
  lemma {:induction false} SignatureExactly(a: seq<Outcome>, b: seq<Outcome>)
    ensures Signature(a) == Signature(b) <==>
            && AlikeMarket(RecordedMarket(a), RecordedMarket(b))
            && AlikeTraders(RecordedTraders(a), RecordedTraders(b))
  {
    SignedIsRecorded(a);
    SignedIsRecorded(b);
    PartsAlike(MarketSignature(a), TraderSignature(a), MarketSignature(b), TraderSignature(b));
    SignsAlike(RecordedMarket(a), RecordedMarket(b));
    SignsTradersAlike(RecordedTraders(a), RecordedTraders(b));
  }

  lemma {:induction false} SignatureCounts(calls: seq<Outcome>)
    ensures |Signature(calls)| == |RecordedMarket(calls)| + |RecordedTraders(calls)|
  {
    SignedIsRecorded(calls);
  }

  // ----- what it means for calls to be the same up to ids -----

  // The same call with the same outcome, its events differing in their ids at most.
  predicate SameCall(a: Outcome, b: Outcome) {
    && a.ok == b.ok
    && match a.call
       case WriteMarket(x) =>
         b.call.WriteMarket? && AlikeMarket(x, b.call.market)
         && forall i :: 0 <= i < |x| ==> x[i].rawReference == b.call.market[i].rawReference
       case WriteTraders(x) =>
         b.call.WriteTraders? && AlikeTraders(x, b.call.traders)
         && forall i :: 0 <= i < |x| ==> x[i].rawReference == b.call.traders[i].rawReference
       case _ => b.call == a.call
  }

  lemma UnnamedOneAlike(x: MarketEvent, y: MarketEvent)
    ensures Unnamed(x) == Unnamed(y) <==>
            && x.record == y.record && x.receipt == y.receipt && x.quality == y.quality
            && x.rawReference == y.rawReference
  {
  }

  lemma UnnamedAlike(x: seq<MarketEvent>, y: seq<MarketEvent>)
    ensures UnnamedAll(x) == UnnamedAll(y) <==>
            AlikeMarket(x, y) && forall i :: 0 <= i < |x| ==> x[i].rawReference == y[i].rawReference
  {
    assert |UnnamedAll(x)| == |x| && |UnnamedAll(y)| == |y|;
    forall i | 0 <= i < |x| && i < |y|
      ensures UnnamedAll(x)[i] == UnnamedAll(y)[i] <==>
              && x[i].record == y[i].record && x[i].receipt == y[i].receipt && x[i].quality == y[i].quality
              && x[i].rawReference == y[i].rawReference
    {
      UnnamedOneAlike(x[i], y[i]);
    }
  }

  lemma UnnamedTradersAlike(x: seq<TraderEvent>, y: seq<TraderEvent>)
    ensures UnnamedTraders(x) == UnnamedTraders(y) <==>
            AlikeTraders(x, y) && forall i :: 0 <= i < |x| ==> x[i].rawReference == y[i].rawReference
  {
    assert |UnnamedTraders(x)| == |x| && |UnnamedTraders(y)| == |y|;
    forall i | 0 <= i < |x| && i < |y|
      ensures UnnamedTraders(x)[i] == UnnamedTraders(y)[i] <==>
              x[i].record == y[i].record && x[i].receipt == y[i].receipt && x[i].rawReference == y[i].rawReference
    {
      assert UnnamedTrader(x[i]) == UnnamedTrader(y[i]) <==>
             x[i].record == y[i].record && x[i].receipt == y[i].receipt && x[i].rawReference == y[i].rawReference;
    }
  }

  lemma SameCallExactly(a: Outcome, b: Outcome)
    ensures UnnamedCall(a) == UnnamedCall(b) <==> SameCall(a, b)
  {
    if a.call.WriteMarket? && b.call.WriteMarket? {
      UnnamedAlike(a.call.market, b.call.market);
    } else if a.call.WriteTraders? && b.call.WriteTraders? {
      UnnamedTradersAlike(a.call.traders, b.call.traders);
    }
  }

  /** Two runs made the same calls up to ids exactly when they made as many, and the i-th of the one is the i-th
      of the other, with the same outcome, but for the ids of its events. */
  lemma SameCallsExactly(a: seq<Outcome>, b: seq<Outcome>)
    ensures UnnamedCalls(a) == UnnamedCalls(b) <==> |a| == |b| && forall i :: 0 <= i < |a| ==> SameCall(a[i], b[i])
  {
    assert |UnnamedCalls(a)| == |a| && |UnnamedCalls(b)| == |b|;
    forall i | 0 <= i < |a| && i < |b|
      ensures UnnamedCalls(a)[i] == UnnamedCalls(b)[i] <==> SameCall(a[i], b[i])
    {
      SameCallExactly(a[i], b[i]);
    }
  }
}

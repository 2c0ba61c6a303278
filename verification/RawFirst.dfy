/** The acceptance proof that raw frames are written before anything derived from them. */
module RawFirst {
  import opened Prelude
  import opened Events
  import opened Sinks
  import opened Recording
  import opened Accounts
  import opened RecorderStates

  datatype Kind = RawMark | MarketMark | TraderMark

  datatype Marker = Marker(kind: Kind, reference: string)

  datatype Verdict = Verified(frames: nat) | WithoutReference | BeforeItsFrame(reference: string) | Untested

  // The markers one sink call leaves, whether or not the wrapped sink then fails.
  function MarkersOf(c: Call): seq<Marker> {
    match c
    case WriteRaw(f) => [Marker(RawMark, f.rawId)]
    case WriteMarket(es) =>
      seq(|es|, i requires 0 <= i < |es| => Marker(MarketMark, Reference(es[i].rawReference)))
    case WriteTraders(es) =>
      seq(|es|, i requires 0 <= i < |es| => Marker(TraderMark, Reference(es[i].rawReference)))
    case WriteGap(_) => []
    case Flush => []
  }

  function Order(calls: seq<Outcome>): seq<Marker> {
    if calls == [] then [] else Order(calls[..|calls| - 1]) + MarkersOf(calls[|calls| - 1].call)
  }

  // Event marker i references a raw marker that came strictly before it.
  predicate FollowsItsFrame(order: seq<Marker>, i: nat)
    requires i < |order|
  {
    order[i].reference != "" && Marker(RawMark, order[i].reference) in order[..i]
  }

  predicate EventsFollow(order: seq<Marker>) {
    forall i :: 0 <= i < |order| && order[i].kind != RawMark ==> FollowsItsFrame(order, i)
  }

  predicate HasRaw(order: seq<Marker>) {
    exists i :: 0 <= i < |order| && order[i].kind == RawMark
  }

  function RawReferences(order: seq<Marker>): set<string> {
    set m <- order | m.kind == RawMark :: m.reference
  }

  class OrderedSink {
    var order: seq<Marker>

    constructor ()
      ensures order == []
    {
      order := [];
    }

    method Write(c: Call)
      modifies this
      ensures order == old(order) + MarkersOf(c)
    {
      order := order + MarkersOf(c);
    }

    method RawFirstHolds() returns (v: Verdict)
      ensures v.Verified? <==> EventsFollow(order) && HasRaw(order)
      ensures v.Verified? ==> v.frames == |RawReferences(order)|
      ensures v.WithoutReference? ==> exists m <- order :: m.kind != RawMark && m.reference == ""
      ensures v.BeforeItsFrame? ==>
                exists i :: 0 <= i < |order| && order[i].kind != RawMark && order[i].reference == v.reference
                            && Marker(RawMark, v.reference) !in order[..i]
    {
      var seenRaw: set<string> := {};
      for i := 0 to |order|
        invariant seenRaw == RawReferences(order[..i])
        invariant forall j :: 0 <= j < i && order[j].kind != RawMark ==> FollowsItsFrame(order, j)
      {
        var m := order[i];
        assert order[..i + 1] == order[..i] + [m];
        if m.kind == RawMark {
          seenRaw := seenRaw + {m.reference};
          continue;
        }
        if m.reference == "" {
          assert !FollowsItsFrame(order, i);
          return WithoutReference;
        }
        SeenExactly(order[..i], m.reference);
        if m.reference !in seenRaw {
          assert !FollowsItsFrame(order, i);
          return BeforeItsFrame(m.reference);
        }
      }
      assert order[..|order|] == order;
      HasRawExactly(order);
      if seenRaw == {} {
        return Untested;
      }
      v := Verified(|seenRaw|);
    }
  }

  lemma HasRawExactly(order: seq<Marker>)
    ensures HasRaw(order) <==> RawReferences(order) != {}
  {
    if HasRaw(order) {
      var i :| 0 <= i < |order| && order[i].kind == RawMark;
      assert order[i] in order && order[i].reference in RawReferences(order);
    }
    if RawReferences(order) != {} {
      var reference :| reference in RawReferences(order);
      var m :| m in order && m.kind == RawMark && m.reference == reference;
      var i :| 0 <= i < |order| && order[i] == m;
    }
  }

  lemma SeenExactly(order: seq<Marker>, reference: string)
    ensures reference in RawReferences(order) <==> Marker(RawMark, reference) in order
  {
    if reference in RawReferences(order) {
      var m :| m in order && m.kind == RawMark && m.reference == reference;
      assert m == Marker(RawMark, reference);
    }
  }

  // ----- every recorder run passes -----

  lemma {:induction false} OrderOfOneMore(a: seq<Outcome>, o: Outcome)
    ensures Order(a + [o]) == Order(a) + MarkersOf(o.call)
  {
    assert (a + [o])[..|a|] == a;
  }

  lemma {:induction false} OrderSplits(a: seq<Outcome>, b: seq<Outcome>)
    ensures Order(a + b) == Order(a) + Order(b)
  {
    if b == [] {
      assert a + b == a;
    } else {
      var front, last := b[..|b| - 1], b[|b| - 1];
      OrderSplits(a, front);
      LastOf(a, b);
      OrderOfOneMore(a + front, last);
      OrderOfOneMore(front, last);
      Regroup(Order(a), Order(front), MarkersOf(last.call));
    }
  }

  predicate AllRefer(order: seq<Marker>, rawId: string) {
    forall i :: 0 <= i < |order| ==> order[i].kind != RawMark && order[i].reference == rawId
  }

  lemma {:induction false} ServingMarkers(calls: seq<Outcome>, rawId: string)
    requires AllServe(calls, rawId)
    ensures AllRefer(Order(calls), rawId)
  {
    if calls != [] {
      var front, last := calls[..|calls| - 1], calls[|calls| - 1];
      assert Serves(last.call, rawId);
      ServingMarkers(front, rawId);
      OneServes(last.call, rawId);
      ReferJoin(Order(front), MarkersOf(last.call), rawId);
    }
  }

  lemma OneServes(c: Call, rawId: string)
    requires Serves(c, rawId)
    ensures AllRefer(MarkersOf(c), rawId)
  {
  }

  lemma ReferJoin(a: seq<Marker>, b: seq<Marker>, rawId: string)
    requires AllRefer(a, rawId) && AllRefer(b, rawId)
    ensures AllRefer(a + b, rawId)
  {
  }

  lemma AppendFrame(order: seq<Marker>, rawId: string, more: seq<Marker>)
    requires rawId != "" && AllRefer(more, rawId)
    ensures EventsFollow(order) ==> EventsFollow(order + [Marker(RawMark, rawId)] + more)
    ensures HasRaw(order + [Marker(RawMark, rawId)] + more)
  {
    var all := order + [Marker(RawMark, rawId)] + more;
    assert all[|order|] == Marker(RawMark, rawId);
    forall i | EventsFollow(order) && 0 <= i < |all| && all[i].kind != RawMark
      ensures FollowsItsFrame(all, i)
    {
      if i < |order| {
        assert FollowsItsFrame(order, i) && all[..i] == order[..i];
      } else {
        assert all[i] == more[i - |order| - 1];
        assert all[..i][|order|] == Marker(RawMark, rawId);
      }
    }
  }

  // The ids of the raw frames submitted, in order.
  function RawIds(calls: seq<Outcome>): seq<string> {
    var frames := RawsOf(calls);
    seq(|frames|, i requires 0 <= i < |frames| => frames[i].rawId)
  }

  // What the markers of one kind refer to, in order.
  function MarkedAs(kind: Kind, order: seq<Marker>): seq<string> {
    if order == [] then []
    else
      var m := order[|order| - 1];
      MarkedAs(kind, order[..|order| - 1]) + (if m.kind == kind then [m.reference] else [])
  }

  lemma {:induction false} MarkedSplits(kind: Kind, a: seq<Marker>, b: seq<Marker>)
    ensures MarkedAs(kind, a + b) == MarkedAs(kind, a) + MarkedAs(kind, b)
  {
    if b == [] {
      assert a + b == a;
    } else {
      LastOf(a, b);
      MarkedSplits(kind, a, b[..|b| - 1]);
      assert (a + b)[..|a + b| - 1] == a + b[..|b| - 1];
    }
  }

  lemma {:induction false} MarkedAlike(kind: Kind, order: seq<Marker>, own: Kind)
    requires forall i :: 0 <= i < |order| ==> order[i].kind == own
    ensures |MarkedAs(kind, order)| == if kind == own then |order| else 0
    ensures kind == own ==> forall i :: 0 <= i < |order| ==> MarkedAs(kind, order)[i] == order[i].reference
  {
    if order != [] {
      MarkedAlike(kind, order[..|order| - 1], own);
    }
  }

  // Each of these texts names that reference, an event without one leaving an empty text.
  predicate Names(texts: seq<string>, references: seq<Option<string>>) {
    && |texts| == |references|
    && forall i :: 0 <= i < |texts| ==>
         if references[i].None? then texts[i] == "" else Some(texts[i]) == references[i]
  }

  function MarketReferences(events: seq<MarketEvent>): seq<Option<string>> {
    seq(|events|, i requires 0 <= i < |events| => events[i].rawReference)
  }

  function TraderReferences(events: seq<TraderEvent>): seq<Option<string>> {
    seq(|events|, i requires 0 <= i < |events| => events[i].rawReference)
  }

  // A log of these frames and events handed over: one marker for each, in order, with the id or reference it carries.
  predicate Logs(order: seq<Marker>, raws: seq<RawFrame>, market: seq<MarketEvent>, traders: seq<TraderEvent>) {
    && MarkedAs(RawMark, order) == seq(|raws|, i requires 0 <= i < |raws| => raws[i].rawId)
    && Names(MarkedAs(MarketMark, order), MarketReferences(market))
    && Names(MarkedAs(TraderMark, order), TraderReferences(traders))
  }

  lemma OneCallHands(o: Outcome)
    ensures RawsOf([o]) == if o.call.WriteRaw? then [o.call.frame] else []
    ensures Offered([o]) == if o.call.WriteMarket? then o.call.market else []
    ensures OfferedTraders([o]) == if o.call.WriteTraders? then o.call.traders else []
  {
    assert [] + [o] == [o];
    RawsOneMore([], o);
    OfferedOneMore([], o);
    TradersOneMore([], o);
  }

  lemma MarkersLog(c: Call)
    ensures Logs(MarkersOf(c), if c.WriteRaw? then [c.frame] else [], if c.WriteMarket? then c.market else [],
                 if c.WriteTraders? then c.traders else [])
  {
    var order := MarkersOf(c);
    var own := match c case WriteMarket(_) => MarketMark case WriteTraders(_) => TraderMark case _ => RawMark;
    MarkedAlike(RawMark, order, own);
    MarkedAlike(MarketMark, order, own);
    MarkedAlike(TraderMark, order, own);
  }

  lemma CallIsLogged(o: Outcome)
    ensures Logs(MarkersOf(o.call), RawsOf([o]), Offered([o]), OfferedTraders([o]))
  {
    OneCallHands(o);
    MarkersLog(o.call);
  }

  lemma ReferencesJoin(
    market: seq<MarketEvent>, more: seq<MarketEvent>, traders: seq<TraderEvent>, others: seq<TraderEvent>)
    ensures MarketReferences(market + more) == MarketReferences(market) + MarketReferences(more)
    ensures TraderReferences(traders + others) == TraderReferences(traders) + TraderReferences(others)
  {
  }

  lemma LogsJoin(
    a: seq<Marker>, raws: seq<RawFrame>, market: seq<MarketEvent>, traders: seq<TraderEvent>,
    b: seq<Marker>, raws': seq<RawFrame>, market': seq<MarketEvent>, traders': seq<TraderEvent>)
    requires Logs(a, raws, market, traders) && Logs(b, raws', market', traders')
    ensures Logs(a + b, raws + raws', market + market', traders + traders')
  {
    MarkedSplits(RawMark, a, b);
    MarkedSplits(MarketMark, a, b);
    MarkedSplits(TraderMark, a, b);
    ReferencesJoin(market, market', traders, traders');
  }

  /** The log of any calls, failed ones included, holds one raw marker for every frame handed over and one event
      marker for every event handed over, in order, each with the id or reference it carries. */
  lemma {:induction false} LogsExactly(calls: seq<Outcome>)
    ensures Logs(Order(calls), RawsOf(calls), Offered(calls), OfferedTraders(calls))
  {
    if calls != [] {
      var front, o := calls[..|calls| - 1], calls[|calls| - 1];
      LogsExactly(front);
      CallIsLogged(o);
      assert calls == front + [o];
      RawsSplit(front, [o]);
      OfferedSplit(front, [o]);
      TradersSplit(front, [o]);
      LogsJoin(Order(front), RawsOf(front), Offered(front), OfferedTraders(front),
               MarkersOf(o.call), RawsOf([o]), Offered([o]), OfferedTraders([o]));
    }
  }

  // From calls to more, one frame was handled: its raw id came first, and everything after refers to it.
  predicate FrameAdded(calls: seq<Outcome>, more: seq<Outcome>, rawId: string) {
    && (EventsFollow(Order(calls)) ==> EventsFollow(Order(more)))
    && HasRaw(Order(more))
    && RawIds(more) == RawIds(calls) + [rawId]
  }

  lemma AddsRawId(cfg: Config, r: Recording, v: Visit)
    ensures RawIds(Handle(cfg, r, v).core.calls) == RawIds(r.core.calls) + [RawIdOf(r.core, v)]
  {
    var _ := FrameCalls(cfg, r, v);
    FrameHasOneRaw(cfg, r, v);
    RawsSplit(r.core.calls, CallsOf(cfg, r, v));
  }

  lemma HandleAddsFrame(cfg: Config, r: Recording, v: Visit)
    ensures FrameAdded(r.core.calls, Handle(cfg, r, v).core.calls, RawIdOf(r.core, v))
  {
    var rawId := RawIdOf(r.core, v);
    var more := HandlingCalls(cfg, r, v);
    var raw := [RawCall(r.core, v)];
    RawIdNotEmpty(r.core.metrics.received + 1, v.frame.receipt.time);
    OrderSplits(r.core.calls + raw, more);
    OrderSplits(r.core.calls, raw);
    assert raw[..0] == [];
    assert Order(raw) == [Marker(RawMark, rawId)];
    ServingMarkers(more, rawId);
    AppendFrame(Order(r.core.calls), rawId, Order(more));
    AddsRawId(cfg, r, v);
  }

  // The i-th raw id is made from the count i + 1 and the i-th receipt.
  function FrameIds(visits: seq<Visit>): nat -> string {
    (i: nat) => if i < |visits| then RawId(i + 1, visits[i].frame.receipt.time) else ""
  }

  lemma FrameIdsDiffer(visits: seq<Visit>, i: nat, j: nat)
    requires i < j < |visits|
    ensures FrameIds(visits)(i) != FrameIds(visits)(j)
  {
    var x, y := visits[i].frame.receipt.time, visits[j].frame.receipt.time;
    if RawId(i + 1, x) == RawId(j + 1, y) {
      RawIdsDiffer(i + 1, x, j + 1, y);
    }
  }

  // The calls made for n frames, as the log and the raw ids see them.
  predicate InTurn(calls: seq<Outcome>, ids: nat -> string, n: nat) {
    && EventsFollow(Order(calls))
    && (HasRaw(Order(calls)) <==> n > 0)
    && |RawIds(calls)| == n
    && forall i :: 0 <= i < n ==> RawIds(calls)[i] == ids(i)
  }

  lemma OneMoreInTurn(calls: seq<Outcome>, more: seq<Outcome>, ids: nat -> string, n: nat)
    requires InTurn(calls, ids, n) && FrameAdded(calls, more, ids(n))
    ensures InTurn(more, ids, n + 1)
  {
  }

  // Calls that grow by one frame at a time stay in turn.
  lemma {:induction false} CallsInTurn(calls: nat -> seq<Outcome>, ids: nat -> string, n: nat)
    requires calls(0) == [] && forall i | 0 <= i < n :: FrameAdded(calls(i), calls(i + 1), ids(i))
    ensures InTurn(calls(n), ids, n)
  {
    if n > 0 {
      CallsInTurn(calls, ids, n - 1);
      assert FrameAdded(calls(n - 1), calls(n - 1 + 1), ids(n - 1));
      OneMoreInTurn(calls(n - 1), calls(n), ids, n - 1);
    }
  }

  // The calls made for the first n frames.
  function CallsAfter(cfg: Config, r: Recording, visits: seq<Visit>): nat -> seq<Outcome> {
    (n: nat) => if n <= |visits| then HandleAll(cfg, r, visits[..n]).core.calls else []
  }

  lemma {:induction false} FrameIdAt(cfg: Config, r: Recording, visits: seq<Visit>, i: nat)
    requires r.core == NEW_CORE && i < |visits|
    ensures RawIdOf(HandleAll(cfg, r, visits[..i]).core, visits[i]) == FrameIds(visits)(i)
  {
    RunIntake(cfg, r, visits[..i]);
  }

  lemma FrameAddedAt(cfg: Config, r: Recording, visits: seq<Visit>, i: nat)
    requires r.core == NEW_CORE && i < |visits|
    ensures var calls := CallsAfter(cfg, r, visits); FrameAdded(calls(i), calls(i + 1), FrameIds(visits)(i))
  {
    FrameIdAt(cfg, r, visits, i);
    HandledOneMore(cfg, r, visits, i);
    HandleAddsFrame(cfg, HandleAll(cfg, r, visits[..i]), visits[i]);
  }

  lemma {:induction false} RunIsInTurn(cfg: Config, r: Recording, visits: seq<Visit>)
    requires r.core == NEW_CORE
    ensures InTurn(HandleAll(cfg, r, visits).core.calls, FrameIds(visits), |visits|)
  {
    var calls, ids := CallsAfter(cfg, r, visits), FrameIds(visits);
    forall i | 0 <= i < |visits|
      ensures FrameAdded(calls(i), calls(i + 1), ids(i))
    {
      FrameAddedAt(cfg, r, visits, i);
    }
    CallsInTurn(calls, ids, |visits|);
    assert visits[..|visits|] == visits;
  }

  lemma FlushLeavesNoMarker(c: Core, ok: bool)
    ensures Order(Called(c, Flush, ok).calls) == Order(c.calls)
    ensures RawIds(Called(c, Flush, ok).calls) == RawIds(c.calls)
  {
    assert (c.calls + [Outcome(Flush, ok)])[..|c.calls|] == c.calls;
  }

  /** The log of a whole recorder run passes the raw-first check exactly when at least one frame was
      submitted, whichever raw, market and trader writes fail and however the last flush ends; and all raw
      ids in it are distinct. */
  lemma EveryRunIsRawFirst(cfg: Config, m: Machine, visits: seq<Visit>, at: nat -> int, flushOk: bool)
    requires Permitted(m.state, Connecting)
    ensures var calls := Run(cfg, Recording(NEW_CORE, m), visits, at, flushOk).core.calls;
            && (EventsFollow(Order(calls)) && HasRaw(Order(calls)) <==> visits != [])
            && |RawIds(calls)| == |visits|
            && forall i, j :: 0 <= i < j < |visits| ==> RawIds(calls)[i] != RawIds(calls)[j]
  {
    var r := Recording(NEW_CORE, Started(m, at));
    var done := HandleAll(cfg, r, visits);
    RunIsInTurn(cfg, r, visits);
    FlushLeavesNoMarker(done.core, flushOk);
    RunEnds(cfg, m, visits, at, flushOk);
    var ids := RawIds(done.core.calls);
    forall i, j | 0 <= i < j < |visits|
      ensures ids[i] != ids[j]
    {
      FrameIdsDiffer(visits, i, j);
    }
  }
}

// Classification of a single event as valid, doubtful or invalid.
module DataQuality {
  import opened Prelude
  import opened Events

  datatype Finding = ZeroTradeQuantity | ImplausibleDelay | VenueAhead | ReceivedInFuture | ImplausibleSpread

  datatype Verdict = Verdict(status: Quality, findings: seq<Finding>)

  // Microseconds.
  datatype Bounds = Bounds(maxSourceDelay: int, maxClockSkew: int)

  const MAX_SPREAD_FRACTION := 0.10

  // ----- what each finding means -----

  predicate IsEmptyTrade(e: MarketEvent) {
    e.record.stream.eventType == Trade && e.record.quantity == Some(0.0)
  }

  predicate IsLate(e: MarketEvent, b: Bounds) {
    e.record.venueTime.Some? && e.receipt.time - e.record.venueTime.value > b.maxSourceDelay
  }

  predicate IsAhead(e: MarketEvent, b: Bounds) {
    e.record.venueTime.Some? && !IsLate(e, b) && e.receipt.time - e.record.venueTime.value < -b.maxClockSkew
  }

  predicate IsFuture(e: MarketEvent, now: int) {
    e.receipt.time > now
  }

  // The quoted spread exceeds a tenth of the (positive) midpoint. Stated without division.
  predicate IsWide(e: MarketEvent) {
    && e.record.bidPrice.Some? && e.record.askPrice.Some?
    && e.record.bidPrice.value + e.record.askPrice.value > 0.0
    && 20.0 * (e.record.askPrice.value - e.record.bidPrice.value) > e.record.bidPrice.value + e.record.askPrice.value
  }

  predicate Found(f: Finding, e: MarketEvent, now: int, b: Bounds) {
    match f
    case ZeroTradeQuantity => IsEmptyTrade(e)
    case ImplausibleDelay => IsLate(e, b)
    case VenueAhead => IsAhead(e, b)
    case ReceivedInFuture => IsFuture(e, now)
    case ImplausibleSpread => IsWide(e)
  }

  predicate Disqualifies(f: Finding) {
    f.ZeroTradeQuantity? || f.ImplausibleDelay? || f.ReceivedInFuture?
  }

  function Status(e: MarketEvent, now: int, b: Bounds): Quality {
    if IsEmptyTrade(e) || IsLate(e, b) || IsFuture(e, now) then Invalid
    else if IsAhead(e, b) || IsWide(e) then Warning
    else Valid
  }

  // ----- the engine -----

  function Mid(e: MarketEvent): Option<real> {
    if e.record.bidPrice.None? || e.record.askPrice.None? then None
    else Some((e.record.bidPrice.value + e.record.askPrice.value) / 2.0)
  }

  function SpreadFinding(e: MarketEvent): (f: Option<Finding>)
    ensures f == if IsWide(e) then Some(ImplausibleSpread) else None
  {
    var mid := Mid(e);
    if mid.None? || mid.value <= 0.0 then None
    else
      var spread := e.record.askPrice.value - e.record.bidPrice.value;
      FractionExceeds(spread, mid.value);
      if spread / mid.value > MAX_SPREAD_FRACTION then Some(ImplausibleSpread) else None
  }

  lemma FractionExceeds(spread: real, mid: real)
    requires mid > 0.0
    ensures spread / mid > 0.10 <==> spread > 0.10 * mid
  {
    var q := spread / mid;
    assert q * mid == spread;
    if q > 0.10 {
      assert (q - 0.10) * mid > 0.0;
    } else {
      assert (0.10 - q) * mid >= 0.0;
    }
  }

  function When(c: bool, f: Finding): seq<Finding> {
    if c then [f] else []
  }

  // The findings, in the order the checks are made.
  function Findings(e: MarketEvent, now: int, b: Bounds): seq<Finding> {
    When(IsEmptyTrade(e), ZeroTradeQuantity) + When(IsLate(e, b), ImplausibleDelay) + When(IsAhead(e, b), VenueAhead)
    + When(IsFuture(e, now), ReceivedInFuture) + When(IsWide(e), ImplausibleSpread)
  }

  method Validate(e: MarketEvent, now: int, b: Bounds) returns (v: Verdict)
    ensures v == Verdict(Status(e, now, b), Findings(e, now, b))
  {
    var findings: seq<Finding> := [];
    var invalid := false;
    if e.record.stream.eventType == Trade && e.record.quantity == Some(0.0) {
      findings := findings + [ZeroTradeQuantity];
      invalid := true;
    }
    assert findings == When(IsEmptyTrade(e), ZeroTradeQuantity);
    if e.record.venueTime.Some? {
      var delay := e.receipt.time - e.record.venueTime.value;
      if delay > b.maxSourceDelay {
        findings := findings + [ImplausibleDelay];
        invalid := true;
      } else if delay < -b.maxClockSkew {
        findings := findings + [VenueAhead];
      }
    }
    assert findings == When(IsEmptyTrade(e), ZeroTradeQuantity) + When(IsLate(e, b), ImplausibleDelay)
                       + When(IsAhead(e, b), VenueAhead);
    ghost var early := findings;
    if e.receipt.time > now {
      findings := findings + [ReceivedInFuture];
      invalid := true;
    }
    assert findings == early + When(IsFuture(e, now), ReceivedInFuture);
    var spread := SpreadFinding(e);
    if spread.Some? {
      findings := findings + [spread.value];
    }
    assert findings == early + When(IsFuture(e, now), ReceivedInFuture) + When(IsWide(e), ImplausibleSpread);
    if invalid {
      return Verdict(Invalid, findings);
    }
    if findings != [] {
      return Verdict(Warning, findings);
    }
    v := Verdict(Valid, []);
  }

  // Each finding is listed exactly when what it names is so, and the status is the worst finding listed.
  lemma FindingsExactly(e: MarketEvent, now: int, b: Bounds, f: Finding)
    ensures f in Findings(e, now, b) <==> Found(f, e, now, b)
    ensures f in Findings(e, now, b) && Disqualifies(f) ==> Status(e, now, b) == Invalid
    ensures Status(e, now, b) == Valid <==> Findings(e, now, b) == []
  {
    var late := When(IsLate(e, b), ImplausibleDelay);
    var parts := [
      When(IsEmptyTrade(e), ZeroTradeQuantity), late, When(IsAhead(e, b), VenueAhead),
      When(IsFuture(e, now), ReceivedInFuture), When(IsWide(e), ImplausibleSpread)];
    assert Findings(e, now, b) == parts[0] + parts[1] + parts[2] + parts[3] + parts[4];
    assert f in Findings(e, now, b) <==>
           f in parts[0] || f in parts[1] || f in parts[2] || f in parts[3] || f in parts[4];
  }

  /** Told by the two times: a delay is listed exactly when the receipt comes more than the bound after the
      venue's time, a venue ahead exactly when its time comes more than the bound after the receipt and no delay
      is listed; with bounds that are not negative no event is both. */
  lemma DelaysExactly(e: MarketEvent, now: int, b: Bounds)
    ensures var venue, found := e.record.venueTime, Findings(e, now, b);
            && (ImplausibleDelay in found <==> venue.Some? && e.receipt.time > venue.value + b.maxSourceDelay)
            && (VenueAhead in found <==>
                venue.Some? && venue.value > e.receipt.time + b.maxClockSkew && ImplausibleDelay !in found)
            && (b.maxSourceDelay >= 0 && b.maxClockSkew >= 0 && venue.Some? ==>
                !(e.receipt.time > venue.value + b.maxSourceDelay && venue.value > e.receipt.time + b.maxClockSkew))
  {
    FindingsExactly(e, now, b, ImplausibleDelay);
    FindingsExactly(e, now, b, VenueAhead);
  }

  // The other findings, told by the fields of the event.
  lemma OthersExactly(e: MarketEvent, now: int, b: Bounds)
    ensures var found, r := Findings(e, now, b), e.record;
            && (ZeroTradeQuantity in found <==> r.stream.eventType.Trade? && r.quantity == Some(0.0))
            && (ReceivedInFuture in found <==> now < e.receipt.time)
            && (ImplausibleSpread in found <==>
                && r.bidPrice.Some? && r.askPrice.Some? && r.bidPrice.value + r.askPrice.value > 0.0
                && 19.0 * r.askPrice.value > 21.0 * r.bidPrice.value)
  {
    FindingsExactly(e, now, b, ZeroTradeQuantity);
    FindingsExactly(e, now, b, ReceivedInFuture);
    FindingsExactly(e, now, b, ImplausibleSpread);
  }

  // The verdict is told by the findings: three disqualify, any other makes the event doubtful.
  lemma StatusExactly(e: MarketEvent, now: int, b: Bounds)
    ensures var found, status := Findings(e, now, b), Status(e, now, b);
            && (status == Invalid <==>
                ZeroTradeQuantity in found || ImplausibleDelay in found || ReceivedInFuture in found)
            && (status == Warning <==> status != Invalid && found != [])
            && (status == Valid <==> found == [])
  {
    FindingsExactly(e, now, b, ZeroTradeQuantity);
    FindingsExactly(e, now, b, ImplausibleDelay);
    FindingsExactly(e, now, b, ReceivedInFuture);
  }

  // A trade of one unit, made at this venue time and received at that one.
  function TradeAt(venue: int, received: int): MarketEvent {
    MarketEvent(
      "", MarketRecord(Stream("BTC", Trade), Some(1), Some(venue), Some(1.0), None, None, None, "", ""),
      Receipt(received, 0), None, Unknown)
  }

  // Within five minutes of delay and five seconds of skew: ten minutes late, then ten minutes ahead.
  lemma LateAndAhead()
    ensures var b, minute := Bounds(300_000_000, 5_000_000), 60_000_000;
            && Status(TradeAt(0, 10 * minute), 10 * minute, b) == Invalid
            && Findings(TradeAt(0, 10 * minute), 10 * minute, b) == [ImplausibleDelay]
            && Status(TradeAt(10 * minute, 0), 0, b) == Warning
            && Findings(TradeAt(10 * minute, 0), 0, b) == [VenueAhead]
  {
  }

  // A verdict does not depend on when it is given, once the receipt is not in the future.
  lemma StatusIgnoresClock(e: MarketEvent, now: int, later: int, b: Bounds)
    ensures now >= e.receipt.time && later >= e.receipt.time ==> Status(e, now, b) == Status(e, later, b)
    ensures now < e.receipt.time ==> Status(e, now, b) == Invalid
  {
  }

  // A verdict given at this reading is the one given at the receipt: what a replay gives.
  predicate ClockHarmless(e: MarketEvent, now: int, b: Bounds) {
    now >= e.receipt.time || IsEmptyTrade(e) || IsLate(e, b)
  }

  /** A verdict is the one a replay gives exactly when the clock does not read before the receipt, or the
      event is invalid anyway. */
  lemma SameVerdictExactly(e: MarketEvent, now: int, b: Bounds)
    ensures Status(e, now, b) == Status(e, e.receipt.time, b) <==> ClockHarmless(e, now, b)
  {
  }

  // A mark price received at time zero, with nothing wrong with it; these carry no venue time and no quantity.
  const FINE_MARK := MarketEvent(
    "", MarketRecord(Stream("BTC", MarkPrice), None, None, None, None, None, None, "", ""), Receipt(0, 0), None,
    Unknown)

  // A clock one microsecond behind condemns it; its replay does not.
  lemma EarlyClockCondemns(b: Bounds)
    ensures Status(FINE_MARK, -1, b) == Invalid && Status(FINE_MARK, FINE_MARK.receipt.time, b) == Valid
  {
  }
}

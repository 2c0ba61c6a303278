/** The sink over the real stores: payloads go to object storage at once, rows wait in batches. */
module StoreSink {
  import opened Prelude
  import opened Events
  import opened Sinks

  // A pending row, annotated with the time it was accepted.
  datatype Queued<T> = Queued(row: T, at: int)

  // One durable write: a payload object, or a row of one of the three tables.
  datatype Written =
    | Object(rawId: string)
    | RawRow(raw: RawFrame)
    | MarketRow(event: MarketEvent)
    | TraderRow(trader: TraderEvent)

  // log holds the durable writes of both stores, in order.
  datatype Store = Store(
    raw: seq<Queued<RawFrame>>,
    market: seq<Queued<MarketEvent>>,
    trader: seq<Queued<TraderEvent>>,
    oldest: Option<int>,
    log: seq<Written>)

  const EMPTY := Store([], [], [], None, [])

  datatype Options = Options(batchSize: int, maxAge: int)

  // What one call meets: which store operations succeed, and what the clock reads at the two places it is read.
  datatype Luck = Luck(put: bool, raw: bool, market: bool, trader: bool, noteAt: int, dueAt: int)

  function RawRows(batch: seq<Queued<RawFrame>>): seq<Written> {
    seq(|batch|, i requires 0 <= i < |batch| => RawRow(batch[i].row))
  }

  function MarketRows(batch: seq<Queued<MarketEvent>>): seq<Written> {
    seq(|batch|, i requires 0 <= i < |batch| => MarketRow(batch[i].row))
  }

  function TraderRows(batch: seq<Queued<TraderEvent>>): seq<Written> {
    seq(|batch|, i requires 0 <= i < |batch| => TraderRow(batch[i].row))
  }

  function Queue<T>(rows: seq<T>, at: int): seq<Queued<T>> {
    seq(|rows|, i requires 0 <= i < |rows| => Queued(rows[i], at))
  }

  function FlushRaw(s: Store, ok: bool): (Store, bool) {
    if s.raw == [] then (s, true)
    else if !ok then (s, false)
    else (s.(log := s.log + RawRows(s.raw), raw := []), true)
  }

  function FlushMarket(s: Store, ok: bool): (Store, bool) {
    if s.market == [] then (s, true)
    else if !ok then (s, false)
    else (s.(log := s.log + MarketRows(s.market), market := []), true)
  }

  function FlushTrader(s: Store, ok: bool): (Store, bool) {
    if s.trader == [] then (s, true)
    else if !ok then (s, false)
    else (s.(log := s.log + TraderRows(s.trader), trader := []), true)
  }

  function FlushAll(s: Store, luck: Luck): (Store, bool) {
    var (s1, ok1) := FlushRaw(s, luck.raw);
    if !ok1 then (s1, false)
    else
      var (s2, ok2) := FlushMarket(s1, luck.market);
      if !ok2 then (s2, false)
      else
        var (s3, ok3) := FlushTrader(s2, luck.trader);
        if !ok3 then (s3, false) else (s3.(oldest := None), true)
  }

  function Pending(s: Store): nat {
    |s.raw| + |s.market| + |s.trader|
  }

  function Noted(s: Store, at: int): Store {
    if s.oldest.None? then s.(oldest := Some(at)) else s
  }

  function FlushIfDue(s: Store, o: Options, luck: Luck): (Store, bool) {
    if Pending(s) >= o.batchSize then FlushAll(s, luck)
    else if s.oldest.None? then (s, true)
    else if luck.dueAt - s.oldest.value >= o.maxAge then FlushAll(s, luck)
    else (s, true)
  }

  function QueueRaw(s: Store, f: RawFrame, at: int): Store {
    s.(raw := s.raw + [Queued(f, at)], log := s.log + [Object(f.rawId)])
  }

  function QueueMarket(s: Store, events: seq<MarketEvent>, at: int): Store {
    s.(market := s.market + Queue(events, at))
  }

  function QueueTraders(s: Store, events: seq<TraderEvent>, at: int): Store {
    s.(trader := s.trader + Queue(events, at))
  }

  // The store after one sink call, and whether the call returned normally. Gaps go to a table of their own.
  function Effect(s: Store, c: Call, o: Options, luck: Luck): (Store, bool) {
    match c
    case WriteRaw(f) =>
      if !luck.put then (s, false) else FlushIfDue(Noted(QueueRaw(s, f, luck.noteAt), luck.noteAt), o, luck)
    case WriteMarket(events) => FlushIfDue(Noted(QueueMarket(s, events, luck.noteAt), luck.noteAt), o, luck)
    case WriteTraders(events) => FlushIfDue(Noted(QueueTraders(s, events, luck.noteAt), luck.noteAt), o, luck)
    case WriteGap(_) => (s, true)
    case Flush => FlushAll(s, luck)
  }

  class BatchingSink {
    const options: Options
    var rawBatch: seq<Queued<RawFrame>>
    var marketBatch: seq<Queued<MarketEvent>>
    var traderBatch: seq<Queued<TraderEvent>>
    var oldestPending: Option<int>
    var log: seq<Written>

    constructor (options: Options)
      ensures this.options == options && Value() == EMPTY
    {
      this.options := options;
      rawBatch, marketBatch, traderBatch, oldestPending, log := [], [], [], None, [];
    }

    function Value(): Store
      reads this
    {
      Store(rawBatch, marketBatch, traderBatch, oldestPending, log)
    }

    method WriteRawFrame(f: RawFrame, luck: Luck) returns (ok: bool)
      modifies this
      ensures (Value(), ok) == Effect(old(Value()), WriteRaw(f), options, luck)
    {
      if !luck.put {
        return false;
      }
      log := log + [Object(f.rawId)];
      rawBatch := rawBatch + [Queued(f, luck.noteAt)];
      NotePending(luck.noteAt);
      ok := FlushIfItIsDue(luck);
    }

    method WriteMarketEvents(events: seq<MarketEvent>, luck: Luck) returns (ok: bool)
      modifies this
      ensures (Value(), ok) == Effect(old(Value()), WriteMarket(events), options, luck)
    {
      marketBatch := marketBatch + Queue(events, luck.noteAt);
      NotePending(luck.noteAt);
      ok := FlushIfItIsDue(luck);
    }

    method WriteTraderEvents(events: seq<TraderEvent>, luck: Luck) returns (ok: bool)
      modifies this
      ensures (Value(), ok) == Effect(old(Value()), WriteTraders(events), options, luck)
    {
      traderBatch := traderBatch + Queue(events, luck.noteAt);
      NotePending(luck.noteAt);
      ok := FlushIfItIsDue(luck);
    }

    method FlushBatches(luck: Luck) returns (ok: bool)
      modifies this
      ensures (Value(), ok) == FlushAll(old(Value()), luck)
    {
      if rawBatch != [] {
        if !luck.raw {
          return false;
        }
        log := log + RawRows(rawBatch);
        rawBatch := [];
      }
      if marketBatch != [] {
        if !luck.market {
          return false;
        }
        log := log + MarketRows(marketBatch);
        marketBatch := [];
      }
      if traderBatch != [] {
        if !luck.trader {
          return false;
        }
        log := log + TraderRows(traderBatch);
        traderBatch := [];
      }
      oldestPending := None;
      ok := true;
    }

    method NotePending(at: int)
      modifies this
      ensures Value() == Noted(old(Value()), at)
    {
      if oldestPending.None? {
        oldestPending := Some(at);
      }
    }

    method FlushIfItIsDue(luck: Luck) returns (ok: bool)
      modifies this
      ensures (Value(), ok) == FlushIfDue(old(Value()), options, luck)
    {
      var pending := |rawBatch| + |marketBatch| + |traderBatch|;
      if pending >= options.batchSize {
        ok := FlushBatches(luck);
        return;
      }
      if oldestPending.None? {
        return true;
      }
      var age := luck.dueAt - oldestPending.value;
      ok := true;
      if age >= options.maxAge {
        ok := FlushBatches(luck);
      }
    }
  }

  // ----- runs of calls -----

  // A call together with what it meets.
  datatype Step = Step(call: Call, luck: Luck)

  function Run(o: Options, steps: seq<Step>): Store {
    if steps == [] then EMPTY
    else
      var last := steps[|steps| - 1];
      Effect(Run(o, steps[..|steps| - 1]), last.call, o, last.luck).0
  }

  // Whether the i-th call returned normally.
  predicate Returned(o: Options, steps: seq<Step>, i: nat)
    requires i < |steps|
  {
    Effect(Run(o, steps[..i]), steps[i].call, o, steps[i].luck).1
  }

  // ----- conservation -----

  function RowsOf<T>(batch: seq<Queued<T>>): seq<T> {
    seq(|batch|, i requires 0 <= i < |batch| => batch[i].row)
  }

  function InsertedRaw(log: seq<Written>): seq<RawFrame> {
    if log == [] then []
    else
      var w := log[|log| - 1];
      InsertedRaw(log[..|log| - 1]) + (if w.RawRow? then [w.raw] else [])
  }

  function InsertedMarket(log: seq<Written>): seq<MarketEvent> {
    if log == [] then []
    else
      var w := log[|log| - 1];
      InsertedMarket(log[..|log| - 1]) + (if w.MarketRow? then [w.event] else [])
  }

  function InsertedTrader(log: seq<Written>): seq<TraderEvent> {
    if log == [] then []
    else
      var w := log[|log| - 1];
      InsertedTrader(log[..|log| - 1]) + (if w.TraderRow? then [w.trader] else [])
  }

  // Rows of the three tables.
  datatype Tables = Tables(raw: seq<RawFrame>, market: seq<MarketEvent>, traders: seq<TraderEvent>)

  const NO_ROWS := Tables([], [], [])

  // The rows one more call owes: its events, or its frame if the payload object was written.
  function Owing(t: Tables, c: Call, put: bool): Tables {
    match c
    case WriteRaw(f) => if put then t.(raw := t.raw + [f]) else t
    case WriteMarket(events) => t.(market := t.market + events)
    case WriteTraders(events) => t.(traders := t.traders + events)
    case _ => t
  }

  // All rows the calls owe, in order.
  function Owed(steps: seq<Step>): Tables {
    if steps == [] then NO_ROWS
    else Owing(Owed(steps[..|steps| - 1]), steps[|steps| - 1].call, steps[|steps| - 1].luck.put)
  }

  function Inserted(log: seq<Written>): Tables {
    Tables(InsertedRaw(log), InsertedMarket(log), InsertedTrader(log))
  }

  // In each table, rows inserted followed by rows pending are the rows owed, in order.
  predicate Holds(s: Store, t: Tables) {
    && InsertedRaw(s.log) + RowsOf(s.raw) == t.raw
    && InsertedMarket(s.log) + RowsOf(s.market) == t.market
    && InsertedTrader(s.log) + RowsOf(s.trader) == t.traders
  }

  lemma {:induction false} InsertedRawSplit(a: seq<Written>, b: seq<Written>)
    ensures InsertedRaw(a + b) == InsertedRaw(a) + InsertedRaw(b)
  {
    if b == [] {
      assert a + b == a;
    } else {
      var front := b[..|b| - 1];
      assert (a + b)[..|a + b| - 1] == a + front;
      InsertedRawSplit(a, front);
    }
  }

  lemma {:induction false} InsertedMarketSplit(a: seq<Written>, b: seq<Written>)
    ensures InsertedMarket(a + b) == InsertedMarket(a) + InsertedMarket(b)
  {
    if b == [] {
      assert a + b == a;
    } else {
      var front := b[..|b| - 1];
      assert (a + b)[..|a + b| - 1] == a + front;
      InsertedMarketSplit(a, front);
    }
  }

  lemma {:induction false} InsertedTraderSplit(a: seq<Written>, b: seq<Written>)
    ensures InsertedTrader(a + b) == InsertedTrader(a) + InsertedTrader(b)
  {
    if b == [] {
      assert a + b == a;
    } else {
      var front := b[..|b| - 1];
      assert (a + b)[..|a + b| - 1] == a + front;
      InsertedTraderSplit(a, front);
    }
  }

  lemma {:induction false} InsertedSplit(a: seq<Written>, b: seq<Written>)
    ensures InsertedRaw(a + b) == InsertedRaw(a) + InsertedRaw(b)
    ensures InsertedMarket(a + b) == InsertedMarket(a) + InsertedMarket(b)
    ensures InsertedTrader(a + b) == InsertedTrader(a) + InsertedTrader(b)
  {
    InsertedRawSplit(a, b);
    InsertedMarketSplit(a, b);
    InsertedTraderSplit(a, b);
  }

  lemma {:induction false} RawRowsInserted(batch: seq<Queued<RawFrame>>)
    ensures InsertedRaw(RawRows(batch)) == RowsOf(batch)
    ensures InsertedMarket(RawRows(batch)) == [] && InsertedTrader(RawRows(batch)) == []
  {
    if batch != [] {
      var front := batch[..|batch| - 1];
      RawRowsInserted(front);
      assert RawRows(batch)[..|batch| - 1] == RawRows(front);
    }
  }

  lemma {:induction false} MarketRowsInserted(batch: seq<Queued<MarketEvent>>)
    ensures InsertedMarket(MarketRows(batch)) == RowsOf(batch)
    ensures InsertedRaw(MarketRows(batch)) == [] && InsertedTrader(MarketRows(batch)) == []
  {
    if batch != [] {
      var front := batch[..|batch| - 1];
      MarketRowsInserted(front);
      assert MarketRows(batch)[..|batch| - 1] == MarketRows(front);
    }
  }

  lemma {:induction false} TraderRowsInserted(batch: seq<Queued<TraderEvent>>)
    ensures InsertedTrader(TraderRows(batch)) == RowsOf(batch)
    ensures InsertedRaw(TraderRows(batch)) == [] && InsertedMarket(TraderRows(batch)) == []
  {
    if batch != [] {
      var front := batch[..|batch| - 1];
      TraderRowsInserted(front);
      assert TraderRows(batch)[..|batch| - 1] == TraderRows(front);
    }
  }

  lemma FlushRawConserves(s: Store, ok: bool, t: Tables)
    requires Holds(s, t)
    ensures Holds(FlushRaw(s, ok).0, t)
  {
    InsertedSplit(s.log, RawRows(s.raw));
    RawRowsInserted(s.raw);
    assert RowsOf<RawFrame>([]) == [];
  }

  lemma FlushMarketConserves(s: Store, ok: bool, t: Tables)
    requires Holds(s, t)
    ensures Holds(FlushMarket(s, ok).0, t)
  {
    InsertedSplit(s.log, MarketRows(s.market));
    MarketRowsInserted(s.market);
    assert RowsOf<MarketEvent>([]) == [];
  }

  lemma FlushTraderConserves(s: Store, ok: bool, t: Tables)
    requires Holds(s, t)
    ensures Holds(FlushTrader(s, ok).0, t)
  {
    InsertedSplit(s.log, TraderRows(s.trader));
    TraderRowsInserted(s.trader);
    assert RowsOf<TraderEvent>([]) == [];
  }

  lemma FlushConserves(s: Store, luck: Luck, t: Tables)
    requires Holds(s, t)
    ensures Holds(FlushAll(s, luck).0, t)
  {
    FlushRawConserves(s, luck.raw, t);
    var s1 := FlushRaw(s, luck.raw).0;
    FlushMarketConserves(s1, luck.market, t);
    FlushTraderConserves(FlushMarket(s1, luck.market).0, luck.trader, t);
  }

  lemma DueConserves(s: Store, o: Options, luck: Luck, t: Tables)
    requires Holds(s, t)
    ensures Holds(FlushIfDue(Noted(s, luck.noteAt), o, luck).0, t)
  {
    FlushConserves(Noted(s, luck.noteAt), luck, t);
  }

  lemma {:induction false} ObjectInsertsNothing(log: seq<Written>, rawId: string)
    ensures var longer := log + [Object(rawId)];
            && InsertedRaw(longer) == InsertedRaw(log)
            && InsertedMarket(longer) == InsertedMarket(log)
            && InsertedTrader(longer) == InsertedTrader(log)
  {
    assert (log + [Object(rawId)])[..|log|] == log;
  }

  lemma {:induction false} RowsQueued<T>(batch: seq<Queued<T>>, rows: seq<T>, more: seq<Queued<T>>)
    requires |more| == |rows| && forall i :: 0 <= i < |rows| ==> more[i].row == rows[i]
    ensures RowsOf(batch + more) == RowsOf(batch) + rows
  {
  }

  lemma QueueRawOwes(s: Store, f: RawFrame, at: int, t: Tables)
    requires Holds(s, t)
    ensures Holds(QueueRaw(s, f, at), t.(raw := t.raw + [f]))
  {
    ObjectInsertsNothing(s.log, f.rawId);
    RowsQueued(s.raw, [f], [Queued(f, at)]);
    Regroup(InsertedRaw(s.log), RowsOf(s.raw), [f]);
  }

  lemma QueueMarketOwes(s: Store, events: seq<MarketEvent>, at: int, t: Tables)
    requires Holds(s, t)
    ensures Holds(QueueMarket(s, events, at), t.(market := t.market + events))
  {
    RowsQueued(s.market, events, Queue(events, at));
    Regroup(InsertedMarket(s.log), RowsOf(s.market), events);
  }

  lemma QueueTradersOwes(s: Store, events: seq<TraderEvent>, at: int, t: Tables)
    requires Holds(s, t)
    ensures Holds(QueueTraders(s, events, at), t.(traders := t.traders + events))
  {
    RowsQueued(s.trader, events, Queue(events, at));
    Regroup(InsertedTrader(s.log), RowsOf(s.trader), events);
  }

  lemma EffectConserves(s: Store, c: Call, o: Options, luck: Luck, t: Tables)
    requires Holds(s, t)
    ensures Holds(Effect(s, c, o, luck).0, Owing(t, c, luck.put))
  {
    var owing := Owing(t, c, luck.put);
    match c
    case WriteRaw(f) =>
      if luck.put {
        QueueRawOwes(s, f, luck.noteAt, t);
        DueConserves(QueueRaw(s, f, luck.noteAt), o, luck, owing);
      }
    case WriteMarket(events) =>
      QueueMarketOwes(s, events, luck.noteAt, t);
      DueConserves(QueueMarket(s, events, luck.noteAt), o, luck, owing);
    case WriteTraders(events) =>
      QueueTradersOwes(s, events, luck.noteAt, t);
      DueConserves(QueueTraders(s, events, luck.noteAt), o, luck, owing);
    case WriteGap(_) =>
    case Flush => FlushConserves(s, luck, t);
  }

  lemma NothingOwed()
    ensures Holds(EMPTY, NO_ROWS)
  {
  }

  /** No row is lost, duplicated or reordered by any run of calls, wherever a flush breaks off: in each table
      the rows inserted, then those pending, are the events of all calls made and the frames of all raw calls
      whose object was written. */
  lemma {:induction false} RowsAreConserved(o: Options, steps: seq<Step>)
    ensures Holds(Run(o, steps), Owed(steps))
  {
    if steps == [] {
      NothingOwed();
    } else {
      var front, last := steps[..|steps| - 1], steps[|steps| - 1];
      RowsAreConserved(o, front);
      EffectConserves(Run(o, front), last.call, o, last.luck, Owed(front));
    }
  }

  // A flush that returns leaves nothing pending.
  lemma FlushEmpties(s: Store, luck: Luck, t: Tables)
    requires Holds(s, t) && FlushAll(s, luck).1
    ensures Inserted(FlushAll(s, luck).0.log) == t
  {
    FlushConserves(s, luck, t);
    var after := FlushAll(s, luck).0;
    assert RowsOf(after.raw) == [] && RowsOf(after.market) == [] && RowsOf(after.trader) == [];
  }

  // After a flush that returns, every row owed so far is inserted.
  lemma {:induction false} FlushedRowsAreInserted(o: Options, steps: seq<Step>)
    requires steps != [] && steps[|steps| - 1].call.Flush? && Returned(o, steps, |steps| - 1)
    ensures Inserted(Run(o, steps).log) == Owed(steps)
  {
    var front, last := steps[..|steps| - 1], steps[|steps| - 1];
    RowsAreConserved(o, front);
    FlushEmpties(Run(o, front), last.luck, Owed(front));
  }

  // ----- how long rows wait -----

  predicate NoneOlder<T>(batch: seq<Queued<T>>, t: int) {
    forall i :: 0 <= i < |batch| ==> batch[i].at >= t
  }

  // _oldest_pending is at or before the acceptance of every pending row, and set whenever a row is pending.
  predicate AgeTracked(s: Store) {
    if s.oldest.None? then Pending(s) == 0
    else NoneOlder(s.raw, s.oldest.value) && NoneOlder(s.market, s.oldest.value) && NoneOlder(s.trader, s.oldest.value)
  }

  // Clock readings never decrease, within a call or from one to the next.
  predicate ClockForward(steps: seq<Step>) {
    && (forall i :: 0 <= i < |steps| ==> steps[i].luck.noteAt <= steps[i].luck.dueAt)
    && (forall i, j :: 0 <= i < j < |steps| ==> steps[i].luck.dueAt <= steps[j].luck.noteAt)
  }

  predicate NotAfter(s: Store, now: int) {
    s.oldest.Some? ==> s.oldest.value <= now
  }

  lemma EffectTracksAge(s: Store, c: Call, o: Options, luck: Luck)
    requires AgeTracked(s) && NotAfter(s, luck.noteAt) && luck.noteAt <= luck.dueAt
    ensures AgeTracked(Effect(s, c, o, luck).0) && NotAfter(Effect(s, c, o, luck).0, luck.dueAt)
  {
    match c
    case WriteRaw(f) => DueTracksAge(Noted(QueueRaw(s, f, luck.noteAt), luck.noteAt), o, luck);
    case WriteMarket(events) => DueTracksAge(Noted(QueueMarket(s, events, luck.noteAt), luck.noteAt), o, luck);
    case WriteTraders(events) => DueTracksAge(Noted(QueueTraders(s, events, luck.noteAt), luck.noteAt), o, luck);
    case WriteGap(_) =>
    case Flush =>
  }

  lemma DueTracksAge(s: Store, o: Options, luck: Luck)
    requires AgeTracked(s) && NotAfter(s, luck.dueAt)
    ensures AgeTracked(FlushIfDue(s, o, luck).0) && NotAfter(FlushIfDue(s, o, luck).0, luck.dueAt)
  {
  }

  lemma {:induction false} AgeIsTracked(o: Options, steps: seq<Step>)
    requires ClockForward(steps)
    ensures AgeTracked(Run(o, steps))
    ensures steps != [] ==> NotAfter(Run(o, steps), steps[|steps| - 1].luck.dueAt)
    ensures steps == [] ==> Run(o, steps).oldest == None
  {
    if steps != [] {
      var front, last := steps[..|steps| - 1], steps[|steps| - 1];
      AgeIsTracked(o, front);
      EffectTracksAge(Run(o, front), last.call, o, last.luck);
    }
  }

  predicate YoungerThan<T>(batch: seq<Queued<T>>, now: int, age: int) {
    forall i :: 0 <= i < |batch| ==> now - batch[i].at < age
  }

  // Fewer rows than a batch are pending, and none has waited as long as the limit.
  predicate WaitsBriefly(s: Store, now: int, o: Options) {
    && Pending(s) < o.batchSize
    && YoungerThan(s.raw, now, o.maxAge) && YoungerThan(s.market, now, o.maxAge) && YoungerThan(s.trader, now, o.maxAge)
  }

  lemma DueIsBrief(s: Store, o: Options, luck: Luck)
    requires AgeTracked(s) && o.batchSize >= 1 && FlushIfDue(s, o, luck).1
    ensures WaitsBriefly(FlushIfDue(s, o, luck).0, luck.dueAt, o)
  {
  }

  /** After every write that returns normally, on a clock that does not run backwards, fewer than
      batch_size rows are pending and the oldest is younger than the age limit at the due-check. */
  lemma {:induction false} NormalWritesLeaveLittle(o: Options, steps: seq<Step>)
    requires ClockForward(steps) && steps != [] && o.batchSize >= 1
    requires var c := steps[|steps| - 1].call; c.WriteRaw? || c.WriteMarket? || c.WriteTraders?
    requires Returned(o, steps, |steps| - 1)
    ensures WaitsBriefly(Run(o, steps), steps[|steps| - 1].luck.dueAt, o)
  {
    var front, last := steps[..|steps| - 1], steps[|steps| - 1];
    var s, luck := Run(o, front), last.luck;
    AgeIsTracked(o, front);
    match last.call
    case WriteRaw(f) => DueIsBrief(Noted(QueueRaw(s, f, luck.noteAt), luck.noteAt), o, luck);
    case WriteMarket(events) => DueIsBrief(Noted(QueueMarket(s, events, luck.noteAt), luck.noteAt), o, luck);
    case WriteTraders(events) => DueIsBrief(Noted(QueueTraders(s, events, luck.noteAt), luck.noteAt), o, luck);
    case _ =>
  }

  // This step handed the row over, and took the time then.
  predicate RawFrom(step: Step, q: Queued<RawFrame>) {
    step.call.WriteRaw? && q.row == step.call.frame && q.at == step.luck.noteAt
  }

  predicate MarketFrom(step: Step, q: Queued<MarketEvent>) {
    step.call.WriteMarket? && q.row in step.call.market && q.at == step.luck.noteAt
  }

  predicate TraderFrom(step: Step, q: Queued<TraderEvent>) {
    step.call.WriteTraders? && q.row in step.call.traders && q.at == step.luck.noteAt
  }

  // Whatever is pending was pending before, or comes from this step.
  predicate Dated(after: Store, s: Store, step: Step) {
    && (forall q <- after.raw :: q in s.raw || RawFrom(step, q))
    && (forall q <- after.market :: q in s.market || MarketFrom(step, q))
    && (forall q <- after.trader :: q in s.trader || TraderFrom(step, q))
  }

  lemma FlushDates(queued: Store, s: Store, step: Step)
    requires Dated(queued, s, step)
    ensures Dated(FlushAll(queued, step.luck).0, s, step)
  {
  }

  lemma DueDates(queued: Store, s: Store, o: Options, step: Step)
    requires Dated(queued, s, step)
    ensures Dated(FlushIfDue(Noted(queued, step.luck.noteAt), o, step.luck).0, s, step)
  {
    FlushDates(Noted(queued, step.luck.noteAt), s, step);
  }

  lemma QueueDates<T>(rows: seq<T>, at: int)
    ensures forall q <- Queue(rows, at) :: q.row in rows && q.at == at
  {
  }

  lemma EffectDates(s: Store, o: Options, step: Step)
    ensures Dated(Effect(s, step.call, o, step.luck).0, s, step)
  {
    var at := step.luck.noteAt;
    match step.call
    case WriteRaw(f) => DueDates(QueueRaw(s, f, at), s, o, step);
    case WriteMarket(events) =>
      QueueDates(events, at);
      DueDates(QueueMarket(s, events, at), s, o, step);
    case WriteTraders(events) =>
      QueueDates(events, at);
      DueDates(QueueTraders(s, events, at), s, o, step);
    case WriteGap(_) =>
    case Flush => FlushDates(s, s, step);
  }

  /** The time a pending row is said to wait since is the clock reading of a call that handed it over. */
  lemma {:induction false} RowsAreDated(o: Options, steps: seq<Step>)
    ensures forall q <- Run(o, steps).raw :: exists step <- steps :: RawFrom(step, q)
    ensures forall q <- Run(o, steps).market :: exists step <- steps :: MarketFrom(step, q)
    ensures forall q <- Run(o, steps).trader :: exists step <- steps :: TraderFrom(step, q)
  {
    if steps != [] {
      var front, last := steps[..|steps| - 1], steps[|steps| - 1];
      RowsAreDated(o, front);
      EffectDates(Run(o, front), o, last);
      assert last in steps && forall step <- front :: step in steps;
    }
  }

  // ----- ordering across the two stores -----

  predicate HasObject(log: seq<Written>, id: string) {
    Object(id) in log
  }

  predicate HasRawRow(log: seq<Written>, id: string) {
    exists i :: 0 <= i < |log| && log[i].RawRow? && log[i].raw.rawId == id
  }

  // The object and the index row of this raw frame are both durable.
  predicate Archived(log: seq<Written>, id: string) {
    HasObject(log, id) && HasRawRow(log, id)
  }

  function ReferenceOf(w: Written): Option<string> {
    match w
    case MarketRow(e) => Some(Reference(e.rawReference))
    case TraderRow(e) => Some(Reference(e.rawReference))
    case _ => None
  }

  // Every market or trader row was inserted after the object and the index row of the frame it references.
  predicate RawBeforeRows(log: seq<Written>) {
    forall p :: 0 <= p < |log| && ReferenceOf(log[p]).Some? ==> Archived(log[..p], ReferenceOf(log[p]).value)
  }

  predicate Waiting(batch: seq<Queued<RawFrame>>, id: string) {
    exists i :: 0 <= i < |batch| && batch[i].row.rawId == id
  }

  // Frames whose raw write returned: object durable, index row durable or pending.
  predicate Kept(s: Store, ids: set<string>) {
    forall id <- ids :: HasObject(s.log, id) && (HasRawRow(s.log, id) || Waiting(s.raw, id))
  }

  // Everything pending or logged respects the order, ids being the frames whose raw write returned.
  predicate InOrder(s: Store, ids: set<string>) {
    && RawBeforeRows(s.log)
    && Kept(s, ids)
    && (forall i :: 0 <= i < |s.market| ==> Reference(s.market[i].row.rawReference) in ids)
    && (forall i :: 0 <= i < |s.trader| ==> Reference(s.trader[i].row.rawReference) in ids)
  }

  lemma ArchivedLater(log: seq<Written>, more: seq<Written>, id: string)
    ensures HasObject(log, id) ==> HasObject(log + more, id)
    ensures HasRawRow(log, id) ==> HasRawRow(log + more, id)
  {
    if HasRawRow(log, id) {
      var i :| 0 <= i < |log| && log[i].RawRow? && log[i].raw.rawId == id;
      assert (log + more)[i] == log[i];
    }
  }

  // Appending rows whose frames are archived keeps the order.
  lemma {:induction false} AppendInOrder(log: seq<Written>, more: seq<Written>)
    requires RawBeforeRows(log)
    requires forall w <- more :: ReferenceOf(w).Some? ==> Archived(log, ReferenceOf(w).value)
    ensures RawBeforeRows(log + more)
  {
    var all := log + more;
    forall p | 0 <= p < |all| && ReferenceOf(all[p]).Some?
      ensures Archived(all[..p], ReferenceOf(all[p]).value)
    {
      if p < |log| {
        assert all[..p] == log[..p];
      } else {
        assert all[p] == more[p - |log|];
        assert all[..p] == log + more[..p - |log|];
        ArchivedLater(log, more[..p - |log|], ReferenceOf(all[p]).value);
      }
    }
  }

  lemma FlushRawInOrder(s: Store, ok: bool, ids: set<string>)
    requires InOrder(s, ids)
    ensures InOrder(FlushRaw(s, ok).0, ids)
  {
    var s1 := FlushRaw(s, ok).0;
    if s.raw != [] && ok {
      var more := RawRows(s.raw);
      AppendInOrder(s.log, more);
      forall id | id in ids
        ensures HasObject(s1.log, id) && HasRawRow(s1.log, id)
      {
        ArchivedLater(s.log, more, id);
        if Waiting(s.raw, id) {
          var i :| 0 <= i < |s.raw| && s.raw[i].row.rawId == id;
          assert s1.log[|s.log| + i] == RawRow(s.raw[i].row);
        }
      }
    }
  }

  lemma FlushMarketInOrder(s: Store, ok: bool, ids: set<string>)
    requires InOrder(s, ids) && s.raw == []
    ensures InOrder(FlushMarket(s, ok).0, ids)
  {
    var more := MarketRows(s.market);
    forall w | w in more
      ensures ReferenceOf(w).Some? && Archived(s.log, ReferenceOf(w).value)
    {
      var i :| 0 <= i < |more| && more[i] == w;
      assert Reference(s.market[i].row.rawReference) in ids;
    }
    AppendInOrder(s.log, more);
    forall id | id in ids {
      ArchivedLater(s.log, more, id);
    }
  }

  lemma FlushTraderInOrder(s: Store, ok: bool, ids: set<string>)
    requires InOrder(s, ids) && s.raw == []
    ensures InOrder(FlushTrader(s, ok).0, ids)
  {
    var more := TraderRows(s.trader);
    forall w | w in more
      ensures ReferenceOf(w).Some? && Archived(s.log, ReferenceOf(w).value)
    {
      var i :| 0 <= i < |more| && more[i] == w;
      assert Reference(s.trader[i].row.rawReference) in ids;
    }
    AppendInOrder(s.log, more);
    forall id | id in ids {
      ArchivedLater(s.log, more, id);
    }
  }

  lemma FlushInOrder(s: Store, luck: Luck, ids: set<string>)
    requires InOrder(s, ids)
    ensures InOrder(FlushAll(s, luck).0, ids)
  {
    FlushRawInOrder(s, luck.raw, ids);
    var (s1, ok1) := FlushRaw(s, luck.raw);
    if ok1 {
      FlushMarketInOrder(s1, luck.market, ids);
      var (s2, ok2) := FlushMarket(s1, luck.market);
      if ok2 {
        FlushTraderInOrder(s2, luck.trader, ids);
      }
    }
  }

  // The events of a call reference only frames in ids.
  predicate Refers(c: Call, ids: set<string>) {
    match c
    case WriteMarket(events) => forall e <- events :: Reference(e.rawReference) in ids
    case WriteTraders(events) => forall e <- events :: Reference(e.rawReference) in ids
    case _ => true
  }

  lemma QueueRawInOrder(s: Store, f: RawFrame, at: int, ids: set<string>)
    requires InOrder(s, ids)
    ensures InOrder(QueueRaw(s, f, at), ids + {f.rawId})
  {
    var s1 := QueueRaw(s, f, at);
    AppendInOrder(s.log, [Object(f.rawId)]);
    assert s1.log[|s.log|] == Object(f.rawId);
    assert s1.raw[|s.raw|].row == f;
    forall id | id in ids
      ensures HasObject(s1.log, id) && (HasRawRow(s1.log, id) || Waiting(s1.raw, id))
    {
      ArchivedLater(s.log, [Object(f.rawId)], id);
      if Waiting(s.raw, id) {
        var i :| 0 <= i < |s.raw| && s.raw[i].row.rawId == id;
        assert s1.raw[i] == s.raw[i];
      }
    }
  }

  // The frames whose raw write has returned, after one more call.
  function Grown(ids: set<string>, c: Call, ok: bool): set<string> {
    if c.WriteRaw? && ok then ids + {c.frame.rawId} else ids
  }

  lemma {:induction false} FewerInOrder(s: Store, ids: set<string>, fewer: set<string>, id: string)
    requires InOrder(s, ids) && ids == fewer + {id}
    requires forall i :: 0 <= i < |s.market| ==> Reference(s.market[i].row.rawReference) in fewer
    requires forall i :: 0 <= i < |s.trader| ==> Reference(s.trader[i].row.rawReference) in fewer
    ensures InOrder(s, fewer)
  {
  }

  lemma DueShrinks(s: Store, o: Options, luck: Luck)
    ensures var s' := FlushIfDue(s, o, luck).0;
            && (s'.market == s.market || s'.market == [])
            && (s'.trader == s.trader || s'.trader == [])
  {
  }

  lemma EffectInOrder(s: Store, c: Call, o: Options, luck: Luck, ids: set<string>)
    requires InOrder(s, ids) && Refers(c, ids)
    ensures InOrder(Effect(s, c, o, luck).0, Grown(ids, c, Effect(s, c, o, luck).1))
  {
    match c
    case WriteRaw(f) =>
      QueueRawInOrder(s, f, luck.noteAt, ids);
      var queued := Noted(QueueRaw(s, f, luck.noteAt), luck.noteAt);
      FlushInOrder(queued, luck, ids + {f.rawId});
      if luck.put && !FlushIfDue(queued, o, luck).1 {
        DueShrinks(queued, o, luck);
        FewerInOrder(FlushIfDue(queued, o, luck).0, ids + {f.rawId}, ids, f.rawId);
      }
    case WriteMarket(events) => FlushInOrder(Noted(QueueMarket(s, events, luck.noteAt), luck.noteAt), luck, ids);
    case WriteTraders(events) => FlushInOrder(Noted(QueueTraders(s, events, luck.noteAt), luck.noteAt), luck, ids);
    case WriteGap(_) =>
    case Flush => FlushInOrder(s, luck, ids);
  }
}

/** What every run of the recorder keeps: which calls a frame makes, and how the counters add up. */
module Accounts {
  import opened Prelude
  import opened Events
  import opened Sinks
  import opened RecorderStates
  import opened Recording
  import Dedup
  import DataQuality

  // ----- the calls one frame makes -----

  // A call made on behalf of an archived frame: a gap, or events that all reference the frame.
  predicate Serves(c: Call, rawId: string) {
    match c
    case WriteGap(_) => true
    case WriteMarket(events) => events != [] && forall e <- events :: e.rawReference == Some(rawId)
    case WriteTraders(events) => events != [] && forall e <- events :: e.rawReference == Some(rawId)
    case _ => false
  }

  predicate AllServe(calls: seq<Outcome>, rawId: string) {
    forall i :: 0 <= i < |calls| ==> Serves(calls[i].call, rawId)
  }

  predicate AllGaps(calls: seq<Outcome>) {
    forall i :: 0 <= i < |calls| ==> calls[i].call.WriteGap? && calls[i].ok
  }

  predicate AllStamped(events: seq<MarketEvent>, rawId: string) {
    forall e <- events :: e.rawReference == Some(rawId)
  }

  lemma GapsJoin(a: seq<Outcome>, b: seq<Outcome>, c: seq<Outcome>)
    requires AllGaps(b) && AllGaps(c)
    ensures AllGaps(b + c) && a + b + c == a + (b + c)
  {
  }

  // One event makes at most a gap call.
  lemma AcceptOneCalls(cfg: Config, a: Accepting, e: MarketEvent, now: int, rawId: string)
    returns (more: seq<Outcome>)
    requires AllStamped(a.accepted, rawId)
    ensures AcceptOne(cfg, a, e, now, rawId).core.calls == a.core.calls + more && AllGaps(more)
    ensures AllStamped(AcceptOne(cfg, a, e, now, rawId).accepted, rawId)
  {
    match Screen(cfg, a.core, e)
    case Dropped(c) => more := [];
    case Passed(c, gap) => more := if gap then [c.calls[|a.core.calls|]] else [];
  }

  lemma AcceptFromStep(cfg: Config, a: Accepting, v: Visit, rawId: string, k: nat, next: Accepting)
    requires v.frame.content.Data? && k < |v.frame.content.market|
    requires next == AcceptOne(cfg, a, EventAt(v, k), v.env.validateAt(k), rawId)
    ensures AcceptFrom(cfg, a, v, rawId, k) == AcceptFrom(cfg, next, v, rawId, k + 1)
  {
  }

  // Accepting event k keeps this of what is accepted before it.
  predicate KeptByAccept(
    cfg: Config, v: Visit, rawId: string, holds: (Accepting, nat) -> bool, a: Accepting, k: nat)
    requires v.frame.content.Data?
  {
    holds(a, k) && k < |v.frame.content.market| ==>
      holds(AcceptOne(cfg, a, EventAt(v, k), v.env.validateAt(k), rawId), k + 1)
  }

  lemma NextKept(cfg: Config, a: Accepting, v: Visit, rawId: string, k: nat, holds: (Accepting, nat) -> bool)
    returns (next: Accepting)
    requires v.frame.content.Data? && k < |v.frame.content.market|
    requires holds(a, k) && KeptByAccept(cfg, v, rawId, holds, a, k)
    ensures AcceptFrom(cfg, a, v, rawId, k) == AcceptFrom(cfg, next, v, rawId, k + 1) && holds(next, k + 1)
  {
    next := AcceptOne(cfg, a, EventAt(v, k), v.env.validateAt(k), rawId);
    AcceptFromStep(cfg, a, v, rawId, k, next);
  }

  // What accepting every event keeps holds after the last.
  lemma {:induction false} AcceptInduction(
    cfg: Config, a: Accepting, v: Visit, rawId: string, k: nat, holds: (Accepting, nat) -> bool)
    requires v.frame.content.Data? && k <= |v.frame.content.market| && holds(a, k)
    requires forall q, i :: KeptByAccept(cfg, v, rawId, holds, q, i)
    ensures holds(AcceptFrom(cfg, a, v, rawId, k), |v.frame.content.market|)
    decreases |v.frame.content.market| - k
  {
    if k < |v.frame.content.market| {
      var next := NextKept(cfg, a, v, rawId, k, holds);
      AcceptInduction(cfg, next, v, rawId, k + 1, holds);
    }
  }

  // Only gap calls were added.
  predicate OnlyGaps(before: seq<Outcome>, after: seq<Outcome>) {
    before <= after && AllGaps(after[|before|..])
  }

  lemma OnlyGapsOnward(a: seq<Outcome>, b: seq<Outcome>, more: seq<Outcome>)
    requires OnlyGaps(a, b) && AllGaps(more)
    ensures OnlyGaps(a, b + more)
  {
    GapsJoin(a, b[|a|..], more);
    assert (b + more)[|a|..] == b[|a|..] + more;
  }

  lemma AcceptingCalls(cfg: Config, a: Accepting, v: Visit, rawId: string) returns (more: seq<Outcome>)
    requires v.frame.content.Data? && AllStamped(a.accepted, rawId)
    ensures AcceptFrom(cfg, a, v, rawId, 0).core.calls == a.core.calls + more && AllGaps(more)
    ensures AllStamped(AcceptFrom(cfg, a, v, rawId, 0).accepted, rawId)
  {
    var holds := (q: Accepting, k: nat) => OnlyGaps(a.core.calls, q.core.calls) && AllStamped(q.accepted, rawId);
    forall q, k: nat
      ensures KeptByAccept(cfg, v, rawId, holds, q, k)
    {
      if holds(q, k) && k < |v.frame.content.market| {
        var gaps := AcceptOneCalls(cfg, q, EventAt(v, k), v.env.validateAt(k), rawId);
        OnlyGapsOnward(a.core.calls, q.core.calls, gaps);
      }
    }
    AcceptInduction(cfg, a, v, rawId, 0, holds);
    more := AcceptFrom(cfg, a, v, rawId, 0).core.calls[|a.core.calls|..];
  }

  // The calls that persist a frame: market events if any were accepted, then trader events if any.
  function MarketCall(accepted: seq<MarketEvent>, env: Env): seq<Outcome> {
    if accepted == [] then [] else [Outcome(WriteMarket(accepted), env.marketOk)]
  }

  function TraderCall(v: Visit, rawId: string): seq<Outcome>
    requires v.frame.content.Data?
  {
    var traders := StampedTraders(v, rawId);
    if traders == [] then [] else [Outcome(WriteTraders(traders), v.env.tradersOk)]
  }

  function Tail(accepted: seq<MarketEvent>, v: Visit, rawId: string): seq<Outcome>
    requires v.frame.content.Data?
  {
    MarketCall(accepted, v.env) + (if accepted != [] && !v.env.marketOk then [] else TraderCall(v, rawId))
  }

  lemma PersistShape(cfg: Config, r: Recording, accepted: seq<MarketEvent>, v: Visit, rawId: string)
    requires v.frame.content.Data?
    ensures Persisted(cfg, r, accepted, v, rawId).core.calls ==
            r.core.calls + Tail(accepted, v, rawId)
  {
    var market := MarketCall(accepted, v.env);
    assert r.core.calls + market + TraderCall(v, rawId) == r.core.calls + (market + TraderCall(v, rawId));
    assert r.core.calls + [] == r.core.calls && market + [] == market;
  }

  lemma TailServes(accepted: seq<MarketEvent>, v: Visit, rawId: string)
    requires v.frame.content.Data? && AllStamped(accepted, rawId)
    ensures AllServe(Tail(accepted, v, rawId), rawId)
  {
    assert AllServe(MarketCall(accepted, v.env), rawId) && AllServe(TraderCall(v, rawId), rawId);
  }

  lemma CallsJoin(a: seq<Outcome>, gaps: seq<Outcome>, rest: seq<Outcome>, rawId: string)
    requires AllGaps(gaps) && AllServe(rest, rawId)
    ensures AllServe(gaps + rest, rawId) && a + gaps + rest == a + (gaps + rest)
  {
  }

  lemma {:induction false} ProcessParts(cfg: Config, r: Recording, v: Visit, rawId: string, a: Accepting)
    requires v.frame.content.Data? && a == AcceptFrom(cfg, Accepting(Parsed(r.core), []), v, rawId, 0)
    ensures Process(cfg, r, v, rawId) == Persisted(cfg, r.(core := a.core), a.accepted, v, rawId)
    ensures Accepting(Parsed(r.core), []).core.calls == r.core.calls
  {
  }

  function RawCall(c: Core, v: Visit): Outcome {
    Outcome(WriteRaw(RawOf(Arrived(c, v.frame), v.frame)), v.env.rawOk)
  }

  lemma ProcessingCalls(cfg: Config, r: Recording, v: Visit, rawId: string) returns (more: seq<Outcome>)
    ensures Process(cfg, r, v, rawId).core.calls == r.core.calls + more && AllServe(more, rawId)
  {
    if v.frame.content.Data? {
      var start := Accepting(Parsed(r.core), []);
      var gaps := AcceptingCalls(cfg, start, v, rawId);
      var a := AcceptFrom(cfg, start, v, rawId, 0);
      ProcessParts(cfg, r, v, rawId, a);
      PersistShape(cfg, r.(core := a.core), a.accepted, v, rawId);
      var rest := Tail(a.accepted, v, rawId);
      TailServes(a.accepted, v, rawId);
      CallsJoin(r.core.calls, gaps, rest, rawId);
      more := gaps + rest;
    } else {
      more := [];
    }
  }

  /** A frame makes its raw call first; only if that returned does it make any other, and every event in
      those references the frame. */
  lemma HandlingCalls(cfg: Config, r: Recording, v: Visit) returns (more: seq<Outcome>)
    ensures Handle(cfg, r, v).core.calls == r.core.calls + [RawCall(r.core, v)] + more
    ensures AllServe(more, RawIdOf(r.core, v)) && (!v.env.rawOk ==> more == [])
  {
    if v.env.rawOk {
      var submitted := r.(core := Submitted(r.core, v));
      more := ProcessingCalls(cfg, submitted.(core := Archived(submitted.core)), v, RawIdOf(r.core, v));
    } else {
      more := [];
    }
  }

  // ----- the calls one frame makes, in full -----

  // The accepted market events of a frame that was archived.
  function AcceptedOf(cfg: Config, c: Core, v: Visit): seq<MarketEvent>
    requires v.frame.content.Data?
  {
    AcceptFrom(cfg, Accepting(Parsed(Archived(Submitted(c, v))), []), v, RawIdOf(c, v), 0).accepted
  }

  // The sink calls one frame makes.
  function CallsOf(cfg: Config, r: Recording, v: Visit): seq<Outcome> {
    var after := Handle(cfg, r, v).core.calls;
    if |r.core.calls| <= |after| then after[|r.core.calls|..] else []
  }

  lemma ProcessShape(cfg: Config, r: Recording, v: Visit, rawId: string) returns (gaps: seq<Outcome>)
    requires v.frame.content.Data?
    ensures AllGaps(gaps)
    ensures Process(cfg, r, v, rawId).core.calls ==
            r.core.calls + gaps
            + Tail(AcceptFrom(cfg, Accepting(Parsed(r.core), []), v, rawId, 0).accepted, v, rawId)
  {
    var start := Accepting(Parsed(r.core), []);
    gaps := AcceptingCalls(cfg, start, v, rawId);
    var a := AcceptFrom(cfg, start, v, rawId, 0);
    PersistShape(cfg, r.(core := a.core), a.accepted, v, rawId);
  }

  function ArchivedBy(r: Recording, v: Visit): Recording {
    r.(core := Archived(Submitted(r.core, v)))
  }

  lemma HandleIsProcess(cfg: Config, r: Recording, v: Visit)
    requires v.env.rawOk
    ensures Handle(cfg, r, v) == Process(cfg, ArchivedBy(r, v), v, RawIdOf(r.core, v))
    ensures ArchivedBy(r, v).core.calls == r.core.calls + [RawCall(r.core, v)]
  {
  }

  lemma TakenOff<T>(before: seq<T>, first: T, middle: seq<T>, last: seq<T>)
    ensures (before + [first] + middle + last)[|before|..] == [first] + middle + last
  {
  }

  lemma HandleShape(cfg: Config, r: Recording, v: Visit) returns (gaps: seq<Outcome>)
    requires v.env.rawOk && v.frame.content.Data?
    ensures AllGaps(gaps)
    ensures CallsOf(cfg, r, v) ==
            [RawCall(r.core, v)] + gaps + Tail(AcceptedOf(cfg, r.core, v), v, RawIdOf(r.core, v))
  {
    var archived := ArchivedBy(r, v);
    HandleIsProcess(cfg, r, v);
    gaps := ProcessShape(cfg, archived, v, RawIdOf(r.core, v));
    TakenOff(r.core.calls, RawCall(r.core, v), gaps, Tail(AcceptedOf(cfg, r.core, v), v, RawIdOf(r.core, v)));
  }

  lemma CallsWithoutData(cfg: Config, r: Recording, v: Visit)
    requires !v.env.rawOk || !v.frame.content.Data?
    ensures CallsOf(cfg, r, v) == [RawCall(r.core, v)]
  {
  }

  lemma JustAdded<T>(before: seq<T>, first: T, more: seq<T>)
    ensures (before + [first] + more)[|before|..] == [first] + more
    ensures before + [first] + more == before + ([first] + more)
  {
  }

  // The calls of a run are those of its frames, each raw call first.
  lemma FrameCalls(cfg: Config, r: Recording, v: Visit) returns (more: seq<Outcome>)
    ensures CallsOf(cfg, r, v) == [RawCall(r.core, v)] + more
    ensures Handle(cfg, r, v).core.calls == r.core.calls + CallsOf(cfg, r, v)
    ensures AllServe(more, RawIdOf(r.core, v)) && (!v.env.rawOk ==> more == [])
  {
    more := HandlingCalls(cfg, r, v);
    JustAdded(r.core.calls, RawCall(r.core, v), more);
  }

  lemma {:induction false} ServingHasNoFrame(calls: seq<Outcome>, rawId: string)
    requires AllServe(calls, rawId)
    ensures RawsOf(calls) == []
  {
    if calls != [] {
      assert Serves(calls[|calls| - 1].call, rawId);
      ServingHasNoFrame(calls[..|calls| - 1], rawId);
    }
  }

  lemma {:induction false} OneFrameIn(raw: Outcome, more: seq<Outcome>, rawId: string)
    requires raw.call.WriteRaw? && AllServe(more, rawId)
    ensures RawsOf([raw] + more) == [raw.call.frame]
  {
    RawsSplit([raw], more);
    ServingHasNoFrame(more, rawId);
    RawsOneMore([], raw);
    assert [] + [raw] == [raw];
  }

  // Each frame makes one raw call.
  lemma FrameHasOneRaw(cfg: Config, r: Recording, v: Visit)
    ensures RawsOf(CallsOf(cfg, r, v)) == [RawOf(Arrived(r.core, v.frame), v.frame)]
  {
    var more := FrameCalls(cfg, r, v);
    OneFrameIn(RawCall(r.core, v), more, RawIdOf(r.core, v));
  }

  // ----- intake: frames received, archived, parsed, invalid and control -----

  datatype Intake = Intake(received: nat, archived: nat, parsed: nat, invalid: nat, control: nat)

  function IntakeOf(m: Metrics): Intake {
    Intake(m.received, m.archived, m.parsed, m.invalid, m.control)
  }

  function Counting(b: bool): nat {
    if b then 1 else 0
  }

  // These frames and one more: a frame that normalization refuses is both parsed and invalid.
  function OneMoreFrame(n: Intake, v: Visit): Intake {
    var content := v.frame.content;
    Intake(
      n.received + 1,
      n.archived + Counting(v.env.rawOk),
      n.parsed + Counting(v.env.rawOk && !content.Unparseable?),
      n.invalid + Counting(v.env.rawOk && (content.Unparseable? || content.NotNormalizable?)),
      n.control + Counting(v.env.rawOk && content.Control?))
  }

  function FrameCounts(visits: seq<Visit>): (n: Intake)
    ensures n.received == |visits|
  {
    if visits == [] then Intake(0, 0, 0, 0, 0)
    else OneMoreFrame(FrameCounts(visits[..|visits| - 1]), visits[|visits| - 1])
  }

  predicate SameIntake(m: Metrics, m': Metrics) {
    IntakeOf(m') == IntakeOf(m)
  }

  lemma AcceptOneIntake(cfg: Config, a: Accepting, e: MarketEvent, now: int, rawId: string)
    ensures SameIntake(a.core.metrics, AcceptOne(cfg, a, e, now, rawId).core.metrics)
  {
  }

  lemma {:induction false} AcceptIntake(cfg: Config, a: Accepting, v: Visit, rawId: string, k: nat)
    requires v.frame.content.Data? && k <= |v.frame.content.market|
    ensures SameIntake(a.core.metrics, AcceptFrom(cfg, a, v, rawId, k).core.metrics)
    decreases |v.frame.content.market| - k
  {
    if k < |v.frame.content.market| {
      var e, now := EventAt(v, k), v.env.validateAt(k);
      AcceptOneIntake(cfg, a, e, now, rawId);
      AcceptIntake(cfg, AcceptOne(cfg, a, e, now, rawId), v, rawId, k + 1);
    }
  }

  lemma PersistIntake(cfg: Config, r: Recording, accepted: seq<MarketEvent>, v: Visit, rawId: string)
    requires v.frame.content.Data?
    ensures SameIntake(r.core.metrics, Persisted(cfg, r, accepted, v, rawId).core.metrics)
  {
  }

  lemma ProcessIntake(cfg: Config, r: Recording, v: Visit, rawId: string)
    ensures var n, content := IntakeOf(r.core.metrics), v.frame.content;
            IntakeOf(Process(cfg, r, v, rawId).core.metrics) ==
            n.(parsed := n.parsed + Counting(!content.Unparseable?),
               invalid := n.invalid + Counting(content.Unparseable? || content.NotNormalizable?),
               control := n.control + Counting(content.Control?))
  {
    if v.frame.content.Data? {
      var start := Accepting(Parsed(r.core), []);
      AcceptIntake(cfg, start, v, rawId, 0);
      var a := AcceptFrom(cfg, start, v, rawId, 0);
      PersistIntake(cfg, r.(core := a.core), a.accepted, v, rawId);
    }
  }

  lemma HandleIntake(cfg: Config, r: Recording, v: Visit)
    ensures IntakeOf(Handle(cfg, r, v).core.metrics) == OneMoreFrame(IntakeOf(r.core.metrics), v)
  {
    if v.env.rawOk {
      var submitted := r.(core := Submitted(r.core, v));
      ProcessIntake(cfg, submitted.(core := Archived(submitted.core)), v, RawIdOf(r.core, v));
    }
  }

  // ----- counting calls -----

  datatype Tally = Tally(
    rawKept: nat, rawLost: nat, gaps: nat,
    marketRows: nat, marketKept: nat, marketLost: nat,
    tradersKept: nat, tradersLost: nat)

  const NO_TALLY := Tally(0, 0, 0, 0, 0, 0, 0, 0)

  function Counted(t: Tally, o: Outcome): Tally {
    match o.call
    case WriteRaw(_) => if o.ok then t.(rawKept := t.rawKept + 1) else t.(rawLost := t.rawLost + 1)
    case WriteGap(_) => t.(gaps := t.gaps + 1)
    case WriteMarket(events) =>
      var sent := t.(marketRows := t.marketRows + |events|);
      if o.ok then sent.(marketKept := t.marketKept + |events|) else sent.(marketLost := t.marketLost + 1)
    case WriteTraders(events) =>
      if o.ok then t.(tradersKept := t.tradersKept + |events|) else t.(tradersLost := t.tradersLost + 1)
    case Flush => t
  }

  // Calls by kind and outcome: rows handed over, rows kept, failed calls.
  function TallyOf(calls: seq<Outcome>): Tally {
    if calls == [] then NO_TALLY
    else Counted(TallyOf(calls[..|calls| - 1]), calls[|calls| - 1])
  }

  lemma TallyCalled(c: Core, call: Call, ok: bool)
    ensures TallyOf(Called(c, call, ok).calls) == Counted(TallyOf(c.calls), Outcome(call, ok))
  {
    assert (c.calls + [Outcome(call, ok)])[..|c.calls|] == c.calls;
  }

  function Verdicts(m: Metrics): nat {
    m.qualityValid + m.qualityWarning + m.qualityInvalid
  }

  // Rows kept fall short of rows handed over exactly when a market write failed.
  predicate MarketBalanced(t: Tally) {
    t.marketKept + t.marketLost <= t.marketRows && (t.marketLost == 0 ==> t.marketKept == t.marketRows)
  }

  // The counters against the calls made, while held accepted events have not been handed to the sink.
  predicate Balanced(m: Metrics, cache: Dedup.Cache, t: Tally, held: nat) {
    && m.qualityValid + m.qualityWarning + m.qualityInvalid == t.marketRows + held
    && cache.seen == m.duplicates + t.marketRows + held
    && cache.duplicates == m.duplicates
    && m.marketWritten == t.marketKept
    && MarketBalanced(t)
    && m.tradersWritten == t.tradersKept
    && m.gaps == t.gaps
    && m.archived == t.rawKept
    && m.received == t.rawKept + t.rawLost
    && m.persistFailures == t.rawLost + t.marketLost + t.tradersLost
  }

  predicate InBalance(c: Core, held: nat) {
    Balanced(c.metrics, c.cache, TallyOf(c.calls), held)
  }

  predicate Holding(a: Accepting) {
    InBalance(a.core, |a.accepted|)
  }

  // What screening an event does to the counters.
  predicate ScreenCounts(before: Core, s: Screened) {
    var m, t := before.metrics, TallyOf(before.calls);
    && s.core.cache.seen == before.cache.seen + 1
    && s.core.cache.duplicates == before.cache.duplicates + (if s.Dropped? then 1 else 0)
    && (if s.Dropped? then s.core.metrics == m.(duplicates := m.duplicates + 1)
        else s.core.metrics == m.(gaps := m.gaps + if s.gap then 1 else 0))
    && TallyOf(s.core.calls) == t.(gaps := t.gaps + if s.Passed? && s.gap then 1 else 0)
  }

  lemma ScreenIsCounted(cfg: Config, c: Core, e: MarketEvent)
    ensures ScreenCounts(c, Screen(cfg, c, e))
  {
    Dedup.QueryCounts(c.cache, IdentityOf(e), e.receipt.time, cfg.dedup);
    var s := Screen(cfg, c, e);
    if s.Passed? && s.gap {
      var n := |c.calls|;
      assert s.core.calls == c.calls + [s.core.calls[n]] && s.core.calls[n].call.WriteGap?;
      TallyCalled(c, s.core.calls[n].call, s.core.calls[n].ok);
    }
  }

  lemma DroppedBalances(before: Core, s: Screened, held: nat)
    requires InBalance(before, held) && ScreenCounts(before, s) && s.Dropped?
    ensures InBalance(s.core, held)
  {
  }

  lemma AdmittedBalances(before: Core, s: Screened, held: nat, q: Quality, after: Core)
    requires InBalance(before, held) && ScreenCounts(before, s) && s.Passed?
    requires after == s.core.(metrics := Judged(s.core.metrics, q))
    ensures InBalance(after, held + 1)
  {
  }

  lemma AcceptOneBalances(cfg: Config, a: Accepting, e: MarketEvent, now: int, rawId: string)
    requires Holding(a)
    ensures Holding(AcceptOne(cfg, a, e, now, rawId))
  {
    var s := Screen(cfg, a.core, e);
    ScreenIsCounted(cfg, a.core, e);
    if s.Dropped? {
      DroppedBalances(a.core, s, |a.accepted|);
    } else {
      var q := DataQuality.Status(e, now, cfg.quality);
      AdmittedBalances(a.core, s, |a.accepted|, q, AcceptOne(cfg, a, e, now, rawId).core);
    }
  }

  lemma {:induction false} AcceptFromBalances(cfg: Config, a: Accepting, v: Visit, rawId: string)
    requires v.frame.content.Data? && Holding(a)
    ensures Holding(AcceptFrom(cfg, a, v, rawId, 0))
  {
    var holds := (q: Accepting, k: nat) => Holding(q);
    forall q, k: nat
      ensures KeptByAccept(cfg, v, rawId, holds, q, k)
    {
      if holds(q, k) && k < |v.frame.content.market| {
        AcceptOneBalances(cfg, q, EventAt(v, k), v.env.validateAt(k), rawId);
      }
    }
    AcceptInduction(cfg, a, v, rawId, 0, holds);
  }

  lemma TradersKeptBalance(m: Metrics, cache: Dedup.Cache, t: Tally, stamped: seq<TraderEvent>)
    requires Balanced(m, cache, t, 0)
    ensures Balanced(
              m.(tradersWritten := m.tradersWritten + |stamped|), cache,
              Counted(t, Outcome(WriteTraders(stamped), true)), 0)
  {
  }

  lemma TradersLostBalance(m: Metrics, cache: Dedup.Cache, t: Tally, stamped: seq<TraderEvent>)
    requires Balanced(m, cache, t, 0)
    ensures Balanced(
              m.(persistFailures := m.persistFailures + 1), cache,
              Counted(t, Outcome(WriteTraders(stamped), false)), 0)
  {
  }

  // The core once the sink has answered a trader write, and is in balance.
  lemma TradersBalance(c: Core, stamped: seq<TraderEvent>, ok: bool) returns (after: Core)
    requires InBalance(c, 0)
    ensures var sent, m := Called(c, WriteTraders(stamped), ok), c.metrics;
            after == if ok then sent.(metrics := m.(tradersWritten := m.tradersWritten + |stamped|)) else Lost(sent)
    ensures InBalance(after, 0)
  {
    var sent, m := Called(c, WriteTraders(stamped), ok), c.metrics;
    TallyCalled(c, WriteTraders(stamped), ok);
    if ok {
      after := sent.(metrics := m.(tradersWritten := m.tradersWritten + |stamped|));
      TradersKeptBalance(m, c.cache, TallyOf(c.calls), stamped);
    } else {
      after := Lost(sent);
      TradersLostBalance(m, c.cache, TallyOf(c.calls), stamped);
    }
  }

  lemma PersistTradersBalances(cfg: Config, r: Recording, v: Visit, rawId: string)
    requires v.frame.content.Data? && InBalance(r.core, 0)
    ensures InBalance(PersistTraders(cfg, r, v, rawId).core, 0)
  {
    var stamped := StampedTraders(v, rawId);
    if stamped != [] {
      var after := TradersBalance(r.core, stamped, v.env.tradersOk);
      assert PersistTraders(cfg, r, v, rawId).core == after;
    }
  }

  lemma PersistBalances(cfg: Config, r: Recording, accepted: seq<MarketEvent>, v: Visit, rawId: string)
    requires v.frame.content.Data? && InBalance(r.core, |accepted|)
    ensures InBalance(Persisted(cfg, r, accepted, v, rawId).core, 0)
  {
    if accepted == [] {
      PersistTradersBalances(cfg, r, v, rawId);
    } else {
      TallyCalled(r.core, WriteMarket(accepted), v.env.marketOk);
      var sent := r.(core := Called(r.core, WriteMarket(accepted), v.env.marketOk));
      if v.env.marketOk {
        PersistTradersBalances(cfg, MarketKept(sent, |accepted|), v, rawId);
      }
    }
  }

  lemma ProcessBalances(cfg: Config, r: Recording, v: Visit, rawId: string)
    requires InBalance(r.core, 0)
    ensures InBalance(Process(cfg, r, v, rawId).core, 0)
  {
    if v.frame.content.Data? {
      var start := Accepting(Parsed(r.core), []);
      AcceptFromBalances(cfg, start, v, rawId);
      var a := AcceptFrom(cfg, start, v, rawId, 0);
      PersistBalances(cfg, r.(core := a.core), a.accepted, v, rawId);
    }
  }

  lemma HandleBalances(cfg: Config, r: Recording, v: Visit)
    requires InBalance(r.core, 0)
    ensures InBalance(Handle(cfg, r, v).core, 0)
  {
    var arrived := Arrived(r.core, v.frame);
    TallyCalled(arrived, WriteRaw(RawOf(arrived, v.frame)), v.env.rawOk);
    if v.env.rawOk {
      var submitted := r.(core := Submitted(r.core, v));
      ProcessBalances(cfg, submitted.(core := Archived(submitted.core)), v, RawIdOf(r.core, v));
    }
  }

  lemma NoCallsTally()
    ensures TallyOf([]) == NO_TALLY
  {
  }

  lemma NothingIsBalanced(m: Metrics, cache: Dedup.Cache, t: Tally)
    requires m == NO_METRICS && cache == Dedup.EMPTY && t == NO_TALLY
    ensures Balanced(m, cache, t, 0)
  {
  }

  lemma NewIsInBalance(c: Core)
    requires c == NEW_CORE
    ensures InBalance(c, 0)
  {
    NoCallsTally();
    NothingIsBalanced(c.metrics, c.cache, TallyOf(c.calls));
  }

  lemma {:induction false} RunIsInBalance(cfg: Config, r: Recording, visits: seq<Visit>)
    requires r.core == NEW_CORE
    ensures InBalance(HandleAll(cfg, r, visits).core, 0)
  {
    if visits == [] {
      NewIsInBalance(r.core);
    } else {
      var front, v := visits[..|visits| - 1], visits[|visits| - 1];
      RunIsInBalance(cfg, r, front);
      HandleBalances(cfg, HandleAll(cfg, r, front), v);
    }
  }

  lemma {:induction false} RunIntake(cfg: Config, r: Recording, visits: seq<Visit>)
    requires r.core == NEW_CORE
    ensures IntakeOf(HandleAll(cfg, r, visits).core.metrics) == FrameCounts(visits)
  {
    if visits != [] {
      RunIntake(cfg, r, visits[..|visits| - 1]);
      HandleIntake(cfg, HandleAll(cfg, r, visits[..|visits| - 1]), visits[|visits| - 1]);
    }
  }

  // The counters of a run over these frames, against each other and against the sink calls made.
  predicate Accounted(c: Core, visits: seq<Visit>) {
    var m, t := c.metrics, TallyOf(c.calls);
    && IntakeOf(m) == FrameCounts(visits)
    && m.received == m.archived + t.rawLost
    && c.cache.seen == m.duplicates + Verdicts(m) && c.cache.duplicates == m.duplicates
    && (m.marketWritten == Verdicts(m) <==> t.marketLost == 0)
    && m.tradersWritten == t.tradersKept
    && m.gaps == t.gaps
    && m.persistFailures == t.rawLost + t.marketLost + t.tradersLost
  }

  lemma {:induction false} BalancedIsAccounted(c: Core, visits: seq<Visit>)
    requires InBalance(c, 0) && IntakeOf(c.metrics) == FrameCounts(visits)
    ensures Accounted(c, visits)
  {
  }

  lemma FlushIsAccounted(c: Core, visits: seq<Visit>, ok: bool)
    requires Accounted(c, visits)
    ensures Accounted(Called(c, Flush, ok), visits)
  {
    TallyCalled(c, Flush, ok);
  }

  lemma {:induction false} RunEnds(cfg: Config, machine: Machine, visits: seq<Visit>, at: nat -> int, flushOk: bool)
    requires Permitted(machine.state, Connecting)
    ensures Run(cfg, Recording(NEW_CORE, machine), visits, at, flushOk).core ==
            Called(HandleAll(cfg, Recording(NEW_CORE, Started(machine, at)), visits).core, Flush, flushOk)
  {
  }

  /** After any run, whatever failed: every frame received was archived or its raw write failed; the archived,
      parsed, invalid and control counters are exactly the numbers of such frames; every event
      seen by the duplicate detector was dropped or judged; the events written are the events judged
      exactly when no market write failed; and gaps, failures and trader events match the calls made. */
  lemma MetricsAreConserved(cfg: Config, machine: Machine, visits: seq<Visit>, at: nat -> int, flushOk: bool)
    requires Permitted(machine.state, Connecting)
    ensures Accounted(Run(cfg, Recording(NEW_CORE, machine), visits, at, flushOk).core, visits)
  {
    var r := Recording(NEW_CORE, Started(machine, at));
    RunIsInBalance(cfg, r, visits);
    RunIntake(cfg, r, visits);
    BalancedIsAccounted(HandleAll(cfg, r, visits).core, visits);
    FlushIsAccounted(HandleAll(cfg, r, visits).core, visits, flushOk);
    RunEnds(cfg, machine, visits, at, flushOk);
  }
}

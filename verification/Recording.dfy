/** The recorder pipeline: archive raw, parse, normalize, deduplicate, check continuity, classify, persist.

    What the recorder cannot decide is collected per frame in an environment: whether each sink call
    returns, what the clock reads wherever it is read, and the event ids generated. */
module Recording {
  import opened Prelude
  import opened Events
  import opened Sinks
  import opened RecorderStates
  import Dedup
  import Gaps
  import DataQuality

  datatype Config = Config(dedup: Dedup.Limits, quality: DataQuality.Bounds, silence: int, heartbeat: int)

  datatype Metrics = Metrics(
    received: nat, archived: nat, parsed: nat, invalid: nat, control: nat,
    marketWritten: nat, tradersWritten: nat, duplicates: nat,
    qualityValid: nat, qualityWarning: nat, qualityInvalid: nat,
    gaps: nat, persistFailures: nat)

  const NO_METRICS := Metrics(0, 0, 0, 0, 0, 0, 0, 0, 0, 0, 0, 0, 0)

  datatype Env = Env(
    rawOk: bool, marketOk: bool, tradersOk: bool,
    validateAt: nat -> int, freshAt: int, failedAt: int, moveAt: int,
    marketIds: nat -> string, traderIds: nat -> string)

  datatype Visit = Visit(frame: Frame, env: Env)

  // Everything recorded, and the detectors it was recorded with.
  datatype Core = Core(
    cache: Dedup.Cache, tracker: Gaps.Tracker, beat: Gaps.Beat, metrics: Metrics, calls: seq<Outcome>)

  datatype Recording = Recording(core: Core, machine: Machine)

  const NEW_CORE := Core(Dedup.EMPTY, Gaps.NOTHING, Gaps.Beat(None, 0), NO_METRICS, [])

  // ----- archive raw -----

  function Arrived(c: Core, f: Frame): Core {
    c.(metrics := c.metrics.(received := c.metrics.received + 1), beat := Gaps.Heard(c.beat, f.receipt.time))
  }

  // The raw frame of the frame just received.
  function RawOf(c: Core, f: Frame): RawFrame {
    RawFrame(RawId(c.metrics.received, f.receipt.time), f.channel, f.payload, f.receipt)
  }

  function Called(c: Core, call: Call, ok: bool): Core {
    c.(calls := c.calls + [Outcome(call, ok)])
  }

  function Submitted(c: Core, v: Visit): Core {
    var arrived := Arrived(c, v.frame);
    Called(arrived, WriteRaw(RawOf(arrived, v.frame)), v.env.rawOk)
  }

  function Lost(c: Core): Core {
    c.(metrics := c.metrics.(persistFailures := c.metrics.persistFailures + 1))
  }

  function Archived(c: Core): Core {
    c.(metrics := c.metrics.(archived := c.metrics.archived + 1))
  }

  // ----- validate, deduplicate, check continuity -----

  function EventAt(v: Visit, k: nat): MarketEvent
    requires v.frame.content.Data? && k < |v.frame.content.market|
  {
    NewMarketEvent(v.frame.content.market[k], v.frame.receipt, v.env.marketIds(k))
  }

  datatype Screened = Dropped(core: Core) | Passed(core: Core, gap: bool)

  // Up to and including the start of the gap write, if a gap is found.
  function Screen(cfg: Config, c: Core, e: MarketEvent): Screened {
    var (cache, duplicate) := Dedup.Query(c.cache, IdentityOf(e), e.receipt.time, cfg.dedup);
    var seen := c.(cache := cache);
    if duplicate then Dropped(seen.(metrics := c.metrics.(duplicates := c.metrics.duplicates + 1)))
    else
      var (tracker, report) := Gaps.Observing(c.tracker, e.record.stream, e.record.sequence, e.receipt.time);
      var moved := seen.(tracker := tracker);
      if report.None? then Passed(moved, false)
      else Passed(Called(moved.(metrics := c.metrics.(gaps := c.metrics.gaps + 1)), WriteGap(report.value), true), true)
  }

  function Judged(m: Metrics, q: Quality): Metrics {
    match q
    case Valid => m.(qualityValid := m.qualityValid + 1)
    case Warning => m.(qualityWarning := m.qualityWarning + 1)
    case _ => m.(qualityInvalid := m.qualityInvalid + 1)
  }

  function Stamped(e: MarketEvent, q: Quality, rawId: string): MarketEvent {
    e.(quality := q, rawReference := Some(rawId))
  }

  datatype Accepting = Accepting(core: Core, accepted: seq<MarketEvent>)

  function Admit(cfg: Config, a: Accepting, e: MarketEvent, now: int, rawId: string): Accepting {
    var q := DataQuality.Status(e, now, cfg.quality);
    Accepting(a.core.(metrics := Judged(a.core.metrics, q)), a.accepted + [Stamped(e, q, rawId)])
  }

  function AcceptOne(cfg: Config, a: Accepting, e: MarketEvent, now: int, rawId: string): Accepting {
    match Screen(cfg, a.core, e)
    case Dropped(c) => a.(core := c)
    case Passed(c, _) => Admit(cfg, a.(core := c), e, now, rawId)
  }

  // Events k and on of the frame.
  function AcceptFrom(cfg: Config, a: Accepting, v: Visit, rawId: string, k: nat): Accepting
    requires v.frame.content.Data? && k <= |v.frame.content.market|
    decreases |v.frame.content.market| - k
  {
    if k == |v.frame.content.market| then a
    else AcceptFrom(cfg, AcceptOne(cfg, a, EventAt(v, k), v.env.validateAt(k), rawId), v, rawId, k + 1)
  }

  // ----- persist and monitor -----

  function FreshnessChecked(cfg: Config, r: Recording, env: Env): Recording {
    if Gaps.ConnectionSilent(r.core.beat, env.freshAt, cfg.heartbeat) then
      r.(machine := Degrading(r.machine, env.moveAt, NoData))
    else if r.machine.state == Degraded && Permitted(r.machine.state, Healthy) then
      r.(machine := Advance(r.machine, Healthy, env.moveAt, DataFlowing))
    else r
  }

  function StampedTraders(v: Visit, rawId: string): (events: seq<TraderEvent>)
    requires v.frame.content.Data?
  {
    var traders := v.frame.content.traders;
    seq(|traders|, i requires 0 <= i < |traders| =>
      NewTraderEvent(traders[i], v.frame.receipt, v.env.traderIds(i)).(rawReference := Some(rawId)))
  }

  function TradersReturned(cfg: Config, r: Recording, count: nat, env: Env): Recording {
    var m := r.core.metrics;
    var settled :=
      if env.tradersOk then r.(core := r.core.(metrics := m.(tradersWritten := m.tradersWritten + count)))
      else Recording(Lost(r.core), Degrading(r.machine, env.failedAt, TraderWriteFailed));
    FreshnessChecked(cfg, settled, env)
  }

  function PersistTraders(cfg: Config, r: Recording, v: Visit, rawId: string): Recording
    requires v.frame.content.Data?
  {
    var stamped := StampedTraders(v, rawId);
    if stamped == [] then FreshnessChecked(cfg, r, v.env)
    else TradersReturned(
           cfg, r.(core := Called(r.core, WriteTraders(stamped), v.env.tradersOk)), |stamped|, v.env)
  }

  function MarketLost(r: Recording, env: Env): Recording {
    Recording(Lost(r.core), Degrading(r.machine, env.failedAt, MarketWriteFailed))
  }

  function MarketKept(r: Recording, count: nat): Recording {
    var m := r.core.metrics;
    r.(core := r.core.(metrics := m.(marketWritten := m.marketWritten + count)))
  }

  function Persisted(cfg: Config, r: Recording, accepted: seq<MarketEvent>, v: Visit, rawId: string): Recording
    requires v.frame.content.Data?
  {
    if accepted == [] then PersistTraders(cfg, r, v, rawId)
    else
      var sent := r.(core := Called(r.core, WriteMarket(accepted), v.env.marketOk));
      if v.env.marketOk then PersistTraders(cfg, MarketKept(sent, |accepted|), v, rawId)
      else MarketLost(sent, v.env)
  }

  // ----- one frame -----

  function Parsed(c: Core): Core {
    c.(metrics := c.metrics.(parsed := c.metrics.parsed + 1))
  }

  function Rejected(c: Core): Core {
    c.(metrics := c.metrics.(invalid := c.metrics.invalid + 1))
  }

  function ControlSeen(c: Core): Core {
    c.(metrics := c.metrics.(control := c.metrics.control + 1))
  }

  function Process(cfg: Config, r: Recording, v: Visit, rawId: string): Recording {
    match v.frame.content
    case Unparseable => r.(core := Rejected(r.core))
    case Control => r.(core := ControlSeen(Parsed(r.core)))
    case NotNormalizable => r.(core := Rejected(Parsed(r.core)))
    case Data(_, _) =>
      var a := AcceptFrom(cfg, Accepting(Parsed(r.core), []), v, rawId, 0);
      Persisted(cfg, r.(core := a.core), a.accepted, v, rawId)
  }

  function RawLost(r: Recording, env: Env): Recording {
    Recording(Lost(r.core), Degrading(r.machine, env.failedAt, RawWriteFailed))
  }

  function RawIdOf(c: Core, v: Visit): string {
    RawId(c.metrics.received + 1, v.frame.receipt.time)
  }

  function Handle(cfg: Config, r: Recording, v: Visit): Recording {
    var submitted := r.(core := Submitted(r.core, v));
    if v.env.rawOk then Process(cfg, submitted.(core := Archived(submitted.core)), v, RawIdOf(r.core, v))
    else RawLost(submitted, v.env)
  }

  // ----- a whole run -----

  function Started(m: Machine, at: nat -> int): Machine {
    Advance(
      Advance(
        Advance(
          Advance(m, Connecting, at(0), OpeningSource),
          Connected, at(1), SourceOpen),
        Subscribing, at(2), SubscribingNow),
      Healthy, at(3), Receiving)
  }

  // After the frames, before the final flush.
  function HandleAll(cfg: Config, r: Recording, visits: seq<Visit>): Recording {
    if visits == [] then r
    else Handle(cfg, HandleAll(cfg, r, visits[..|visits| - 1]), visits[|visits| - 1])
  }

  lemma {:induction false} HandledOneMore(cfg: Config, r: Recording, visits: seq<Visit>, i: nat)
    requires i < |visits|
    ensures HandleAll(cfg, r, visits[..i + 1]) == Handle(cfg, HandleAll(cfg, r, visits[..i]), visits[i])
  {
    assert visits[..i + 1][..i] == visits[..i];
  }

  lemma {:induction false} HandledLast(cfg: Config, r: Recording, front: seq<Visit>, v: Visit)
    ensures HandleAll(cfg, r, front + [v]) == Handle(cfg, HandleAll(cfg, r, front), v)
  {
    assert (front + [v])[..|front|] == front;
  }

  // One more frame keeps the property.
  ghost predicate KeptByHandle(
    cfg: Config, holds: (Core, seq<Visit>) -> bool, q: Recording, front: seq<Visit>, v: Visit)
  {
    holds(q.core, front) ==> holds(Handle(cfg, q, v).core, front + [v])
  }

  lemma {:induction false} Along(
    cores: nat -> Core, visits: seq<Visit>, holds: (Core, seq<Visit>) -> bool, n: nat)
    requires n <= |visits| && holds(cores(0), visits[..0])
    requires forall i | 0 <= i < |visits| :: holds(cores(i), visits[..i]) ==> holds(cores(i + 1), visits[..i + 1])
    ensures holds(cores(n), visits[..n])
  {
    if n > 0 {
      Along(cores, visits, holds, n - 1);
      assert holds(cores(n - 1 + 1), visits[..n - 1 + 1]);
    }
  }

  // The core after each number of these frames.
  function CoresOf(cfg: Config, r: Recording, visits: seq<Visit>): nat -> Core {
    (n: nat) => if n <= |visits| then HandleAll(cfg, r, visits[..n]).core else r.core
  }

  lemma PrefixPlusOne<T>(items: seq<T>, i: nat)
    requires i < |items|
    ensures items[..i + 1] == items[..i] + [items[i]]
  {
  }

  lemma KeptAt(
    cfg: Config, visits: seq<Visit>, holds: (Core, seq<Visit>) -> bool, i: nat, before: Recording, after: Recording)
    requires i < |visits| && KeptByHandle(cfg, holds, before, visits[..i], visits[i])
    requires after == Handle(cfg, before, visits[i])
    ensures holds(before.core, visits[..i]) ==> holds(after.core, visits[..i + 1])
  {
    PrefixPlusOne(visits, i);
  }

  // What every frame keeps holds after any frames.
  lemma {:induction false} RunInduction(
    cfg: Config, r: Recording, visits: seq<Visit>, holds: (Core, seq<Visit>) -> bool)
    requires holds(r.core, [])
    requires forall q, front, v :: KeptByHandle(cfg, holds, q, front, v)
    ensures holds(HandleAll(cfg, r, visits).core, visits)
  {
    var cores := CoresOf(cfg, r, visits);
    assert visits[..0] == [];
    forall i | 0 <= i < |visits|
      ensures holds(cores(i), visits[..i]) ==> holds(cores(i + 1), visits[..i + 1])
    {
      HandledOneMore(cfg, r, visits, i);
      KeptAt(cfg, visits, holds, i, HandleAll(cfg, r, visits[..i]), HandleAll(cfg, r, visits[..i + 1]));
    }
    Along(cores, visits, holds, |visits|);
    assert visits[..|visits|] == visits;
  }

  // Opening raises TransitionError unless the machine may connect; otherwise all frames, then a flush.
  function Run(cfg: Config, r: Recording, visits: seq<Visit>, at: nat -> int, flushOk: bool): Recording {
    if !Permitted(r.machine.state, Connecting) then r.(machine := r.machine.(refused := true))
    else
      var done := HandleAll(cfg, r.(machine := Started(r.machine, at)), visits);
      done.(core := Called(done.core, Flush, flushOk))
  }

  class Recorder {
    const cfg: Config
    const dedup: Dedup.DuplicateDetector
    const gaps: Gaps.GapDetector
    const heartbeat: Gaps.Heartbeat
    const machine: StateMachine
    var metrics: Metrics
    // Every sink call made, with how it ended: the sink as the recorder sees it.
    var calls: seq<Outcome>

    constructor (cfg: Config)
      requires cfg.dedup.capacity >= 1
      ensures Wired() && this.cfg == cfg && Value() == Recording(NEW_CORE, NewMachine(HISTORY_LIMIT))
      ensures fresh(dedup) && fresh(gaps) && fresh(heartbeat) && fresh(machine)
    {
      this.cfg := cfg;
      dedup := new Dedup.DuplicateDetector(cfg.dedup);
      gaps := new Gaps.GapDetector(cfg.silence);
      heartbeat := new Gaps.Heartbeat(cfg.heartbeat);
      machine := new StateMachine(HISTORY_LIMIT);
      metrics, calls := NO_METRICS, [];
    }

    predicate Wired() {
      dedup.limits == cfg.dedup && gaps.silenceThreshold == cfg.silence && heartbeat.threshold == cfg.heartbeat
    }

    ghost function CoreValue(): Core
      reads this, dedup, gaps, heartbeat
    {
      Core(dedup.Value(), gaps.Value(), heartbeat.Value(), metrics, calls)
    }

    ghost function Value(): Recording
      reads this, dedup, gaps, heartbeat, machine
    {
      Recording(CoreValue(), machine.Value())
    }

    // A sink call: it returns normally or raises.
    method CallSink(call: Call, returning: bool) returns (ok: bool)
      modifies this`calls
      ensures ok == returning && CoreValue() == Called(old(CoreValue()), call, ok)
    {
      calls := calls + [Outcome(call, returning)];
      ok := returning;
    }

    method AcceptMarketEvents(v: Visit, rawId: string) returns (accepted: seq<MarketEvent>)
      requires Wired() && v.frame.content.Data?
      modifies this, dedup, gaps
      ensures Accepting(CoreValue(), accepted) == AcceptFrom(cfg, Accepting(old(CoreValue()), []), v, rawId, 0)
    {
      accepted := [];
      var events := v.frame.content.market;
      ghost var target := AcceptFrom(cfg, Accepting(CoreValue(), []), v, rawId, 0);
      for k := 0 to |events|
        invariant AcceptFrom(cfg, Accepting(CoreValue(), accepted), v, rawId, k) == target
      {
        accepted := AcceptEvent(EventAt(v, k), v.env.validateAt(k), rawId, accepted);
      }
    }

    // One pass of the loop in AcceptMarketEvents.
    method AcceptEvent(e: MarketEvent, now: int, rawId: string, before: seq<MarketEvent>)
      returns (accepted: seq<MarketEvent>)
      requires Wired()
      modifies this, dedup, gaps
      ensures Accepting(CoreValue(), accepted) == AcceptOne(cfg, Accepting(old(CoreValue()), before), e, now, rawId)
    {
      var duplicate := dedup.IsDuplicate(e);
      if duplicate {
        metrics := metrics.(duplicates := metrics.duplicates + 1);
        return before;
      }
      var gap := gaps.Observe(e.record.stream, e.record.sequence, e.receipt.time);
      if gap.Some? {
        metrics := metrics.(gaps := metrics.gaps + 1);
        var _ := CallSink(WriteGap(gap.value), true);
      }
      var verdict := DataQuality.Validate(e, now, cfg.quality);
      metrics := Judged(metrics, verdict.status);
      accepted := before + [Stamped(e, verdict.status, rawId)];
    }

    method CheckFreshness(env: Env)
      requires Wired()
      modifies machine
      ensures Value() == FreshnessChecked(cfg, old(Value()), env)
    {
      if Gaps.ConnectionSilent(heartbeat.Value(), env.freshAt, cfg.heartbeat) {
        machine.Degrade(env.moveAt, NoData);
      } else if machine.state == Degraded && Permitted(machine.state, Healthy) {
        var _ := machine.Transition(Healthy, env.moveAt, DataFlowing);
      }
    }

    method Persist(accepted: seq<MarketEvent>, v: Visit, rawId: string)
      requires Wired() && v.frame.content.Data?
      modifies this, machine
      ensures Value() == Persisted(cfg, old(Value()), accepted, v, rawId)
    {
      if accepted != [] {
        var kept := CallSink(WriteMarket(accepted), v.env.marketOk);
        if !kept {
          metrics := metrics.(persistFailures := metrics.persistFailures + 1);
          machine.Degrade(v.env.failedAt, MarketWriteFailed);
          return;
        }
        metrics := metrics.(marketWritten := metrics.marketWritten + |accepted|);
      }
      var stamped := StampedTraders(v, rawId);
      if stamped != [] {
        var kept := CallSink(WriteTraders(stamped), v.env.tradersOk);
        if kept {
          metrics := metrics.(tradersWritten := metrics.tradersWritten + |stamped|);
        } else {
          metrics := metrics.(persistFailures := metrics.persistFailures + 1);
          machine.Degrade(v.env.failedAt, TraderWriteFailed);
        }
      }
      CheckFreshness(v.env);
    }

    method HandleFrame(v: Visit)
      requires Wired()
      modifies this, dedup, gaps, heartbeat, machine
      ensures Value() == Handle(cfg, old(Value()), v)
    {
      metrics := metrics.(received := metrics.received + 1);
      heartbeat.RecordData(v.frame.receipt.time);
      var rawId := RawId(metrics.received, v.frame.receipt.time);
      var raw := RawFrame(rawId, v.frame.channel, v.frame.payload, v.frame.receipt);
      var archived := CallSink(WriteRaw(raw), v.env.rawOk);
      assert CoreValue() == Submitted(old(CoreValue()), v) && machine.Value() == old(machine.Value());
      if !archived {
        metrics := metrics.(persistFailures := metrics.persistFailures + 1);
        machine.Degrade(v.env.failedAt, RawWriteFailed);
        return;
      }
      metrics := metrics.(archived := metrics.archived + 1);
      ProcessFrame(v, rawId);
    }

    // What _handle does once the frame is archived.
    method ProcessFrame(v: Visit, rawId: string)
      requires Wired()
      modifies this, dedup, gaps, machine
      ensures Value() == Process(cfg, old(Value()), v, rawId)
    {
      if v.frame.content.Unparseable? {
        metrics := metrics.(invalid := metrics.invalid + 1);
        return;
      }
      metrics := metrics.(parsed := metrics.parsed + 1);
      assert CoreValue() == Parsed(old(CoreValue())) && machine.Value() == old(machine.Value());
      match v.frame.content {
        case Control =>
          metrics := metrics.(control := metrics.control + 1);
        case NotNormalizable =>
          metrics := metrics.(invalid := metrics.invalid + 1);
        case Data(_, _) =>
          var accepted := AcceptMarketEvents(v, rawId);
          Persist(accepted, v, rawId);
      }
    }

    // The four transitions that open a run; false when the first one raises.
    method Open(at: nat -> int) returns (ok: bool)
      modifies machine
      ensures ok == Permitted(old(machine.state), Connecting)
      ensures machine.Value() ==
              if ok then Started(old(machine.Value()), at) else old(machine.Value()).(refused := true)
    {
      var connecting := machine.Transition(Connecting, at(0), OpeningSource);
      if connecting.Failure? {
        return false;
      }
      var _ := machine.Transition(Connected, at(1), SourceOpen);
      var _ := machine.Transition(Subscribing, at(2), SubscribingNow);
      var _ := machine.Transition(Healthy, at(3), Receiving);
      ok := true;
    }

    // False when run raises: opening was refused, or the final flush failed.
    method RunOver(visits: seq<Visit>, at: nat -> int, flushOk: bool) returns (ok: bool)
      requires Wired()
      modifies this, dedup, gaps, heartbeat, machine
      ensures ok == (Permitted(old(machine.state), Connecting) && flushOk)
      ensures Value() == Run(cfg, old(Value()), visits, at, flushOk)
    {
      ok := Open(at);
      if !ok {
        return;
      }
      ghost var ready := Value();
      for i := 0 to |visits|
        invariant Value() == HandleAll(cfg, ready, visits[..i])
      {
        assert visits[..i + 1][..i] == visits[..i];
        HandleFrame(visits[i]);
      }
      assert visits[..|visits|] == visits;
      ok := CallSink(Flush, flushOk);
    }
  }
}

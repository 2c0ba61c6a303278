/** Every verdict counter against the events handed to the sink with that verdict. */
module Verdicts {
  import opened Events
  import opened Sinks
  import opened RecorderStates
  import opened Recording
  import opened Accounts
  import DataQuality

  datatype Counts = Counts(valid: nat, warning: nat, invalid: nat)

  // How many events carry each verdict.
  function CountsOf(events: seq<MarketEvent>): Counts {
    if events == [] then Counts(0, 0, 0)
    else
      var before := CountsOf(events[..|events| - 1]);
      match events[|events| - 1].quality
      case Valid => before.(valid := before.valid + 1)
      case Warning => before.(warning := before.warning + 1)
      case _ => before.(invalid := before.invalid + 1)
  }

  function Counters(m: Metrics): Counts {
    Counts(m.qualityValid, m.qualityWarning, m.qualityInvalid)
  }

  // The counters count what was offered, and the held events not yet handed over.
  predicate Matched(c: Core, held: seq<MarketEvent>) {
    Counters(c.metrics) == CountsOf(Offered(c.calls) + held)
  }

  lemma {:induction false} CountsOfOneMore(events: seq<MarketEvent>, e: MarketEvent)
    ensures CountsOf(events + [e]).valid == CountsOf(events).valid + if e.quality.Valid? then 1 else 0
    ensures CountsOf(events + [e]).warning == CountsOf(events).warning + if e.quality.Warning? then 1 else 0
    ensures CountsOf(events + [e]).invalid ==
            CountsOf(events).invalid + if e.quality.Valid? || e.quality.Warning? then 0 else 1
  {
    assert (events + [e])[..|events|] == events;
  }

  // Nothing offered and no verdict counted.
  predicate SameVerdicts(a: Core, b: Core) {
    Counters(a.metrics) == Counters(b.metrics) && Offered(a.calls) == Offered(b.calls)
  }

  lemma ScreeningGivesNoVerdict(cfg: Config, c: Core, e: MarketEvent)
    ensures SameVerdicts(c, Screen(cfg, c, e).core)
  {
    var s := Screen(cfg, c, e);
    if s.Passed? && s.gap {
      var n := |c.calls|;
      assert s.core.calls == c.calls + [s.core.calls[n]] && s.core.calls[n].call.WriteGap?;
      OfferedOneMore(c.calls, s.core.calls[n]);
    }
  }

  lemma {:induction false} JudgedCounts(m: Metrics, events: seq<MarketEvent>, e: MarketEvent)
    requires Counters(m) == CountsOf(events)
    ensures Counters(Judged(m, e.quality)) == CountsOf(events + [e])
  {
    CountsOfOneMore(events, e);
  }

  lemma AdmissionMatches(cfg: Config, a: Accepting, e: MarketEvent, now: int, rawId: string)
    requires Matched(a.core, a.accepted)
    ensures Matched(Admit(cfg, a, e, now, rawId).core, Admit(cfg, a, e, now, rawId).accepted)
  {
    var stamped := Stamped(e, DataQuality.Status(e, now, cfg.quality), rawId);
    JudgedCounts(a.core.metrics, Offered(a.core.calls) + a.accepted, stamped);
    Regroup(Offered(a.core.calls), a.accepted, [stamped]);
  }

  predicate Matching(a: Accepting) {
    Matched(a.core, a.accepted)
  }

  lemma AcceptOneMatches(cfg: Config, a: Accepting, e: MarketEvent, now: int, rawId: string)
    requires Matching(a)
    ensures Matching(AcceptOne(cfg, a, e, now, rawId))
  {
    ScreeningGivesNoVerdict(cfg, a.core, e);
    var s := Screen(cfg, a.core, e);
    if s.Passed? {
      AdmissionMatches(cfg, a.(core := s.core), e, now, rawId);
    }
  }

  lemma {:induction false} AcceptFromMatches(cfg: Config, a: Accepting, v: Visit, rawId: string, k: nat)
    requires v.frame.content.Data? && k <= |v.frame.content.market|
    requires Matching(a)
    ensures Matching(AcceptFrom(cfg, a, v, rawId, k))
    decreases |v.frame.content.market| - k
  {
    if k < |v.frame.content.market| {
      var next := AcceptOne(cfg, a, EventAt(v, k), v.env.validateAt(k), rawId);
      AcceptOneMatches(cfg, a, EventAt(v, k), v.env.validateAt(k), rawId);
      AcceptFromMatches(cfg, next, v, rawId, k + 1);
    }
  }

  lemma HandingOverMatches(c: Core, held: seq<MarketEvent>, ok: bool)
    requires Matched(c, held)
    ensures Matched(Called(c, WriteMarket(held), ok), [])
  {
    OfferedOneMore(c.calls, Outcome(WriteMarket(held), ok));
    assert Offered(c.calls) + held + [] == Offered(c.calls) + held;
  }

  lemma TradersMatch(cfg: Config, r: Recording, v: Visit, rawId: string)
    requires v.frame.content.Data? && Matched(r.core, [])
    ensures Matched(PersistTraders(cfg, r, v, rawId).core, [])
  {
    OfferedOneMore(r.core.calls, Outcome(WriteTraders(StampedTraders(v, rawId)), v.env.tradersOk));
  }

  lemma PersistMatches(cfg: Config, r: Recording, accepted: seq<MarketEvent>, v: Visit, rawId: string)
    requires v.frame.content.Data? && Matched(r.core, accepted)
    ensures Matched(Persisted(cfg, r, accepted, v, rawId).core, [])
  {
    if accepted == [] {
      TradersMatch(cfg, r, v, rawId);
    } else {
      HandingOverMatches(r.core, accepted, v.env.marketOk);
      var sent := r.(core := Called(r.core, WriteMarket(accepted), v.env.marketOk));
      if v.env.marketOk {
        TradersMatch(cfg, MarketKept(sent, |accepted|), v, rawId);
      }
    }
  }

  lemma ProcessMatches(cfg: Config, r: Recording, v: Visit, rawId: string)
    requires Matched(r.core, [])
    ensures Matched(Process(cfg, r, v, rawId).core, [])
  {
    if v.frame.content.Data? {
      var start := Accepting(Parsed(r.core), []);
      AcceptFromMatches(cfg, start, v, rawId, 0);
      var a := AcceptFrom(cfg, start, v, rawId, 0);
      PersistMatches(cfg, r.(core := a.core), a.accepted, v, rawId);
    }
  }

  lemma HandleMatches(cfg: Config, r: Recording, v: Visit)
    requires Matched(r.core, [])
    ensures Matched(Handle(cfg, r, v).core, [])
  {
    OfferedOneMore(r.core.calls, RawCall(r.core, v));
    if v.env.rawOk {
      var submitted := r.(core := Submitted(r.core, v));
      ProcessMatches(cfg, submitted.(core := Archived(submitted.core)), v, RawIdOf(r.core, v));
    }
  }

  lemma {:induction false} RunMatches(cfg: Config, r: Recording, visits: seq<Visit>)
    requires r.core == NEW_CORE
    ensures Matched(HandleAll(cfg, r, visits).core, [])
  {
    if visits == [] {
      assert Offered(r.core.calls) + [] == [];
    } else {
      var front, v := visits[..|visits| - 1], visits[|visits| - 1];
      RunMatches(cfg, r, front);
      HandleMatches(cfg, HandleAll(cfg, r, front), v);
    }
  }

  /** After any run, whatever failed, each verdict counter is the number of market events handed to the sink
      with that verdict. */
  lemma VerdictsAreCounted(cfg: Config, machine: Machine, visits: seq<Visit>, at: nat -> int, flushOk: bool)
    requires Permitted(machine.state, Connecting)
    ensures var c := Run(cfg, Recording(NEW_CORE, machine), visits, at, flushOk).core;
            Counters(c.metrics) == CountsOf(Offered(c.calls))
  {
    var r := Recording(NEW_CORE, Started(machine, at));
    var done := HandleAll(cfg, r, visits).core;
    RunMatches(cfg, r, visits);
    RunEnds(cfg, machine, visits, at, flushOk);
    OfferedOneMore(done.calls, Outcome(Flush, flushOk));
    assert Offered(done.calls) + [] == Offered(done.calls);
  }
}

/** The monitor: periodic checks over the recorder's own detectors and state machine.

    A check suspends at every on_gap call; a suspended check is a value, so that other work can happen
    before it goes on. */
module Monitoring {
  import opened Prelude
  import opened Events
  import opened RecorderStates
  import Gaps

  // Thresholds, in microseconds.
  datatype Settings = Settings(silence: int, heartbeat: int, staleness: int)

  // What makes a silence report new: the stream and when it was last heard.
  datatype Key = Key(stream: Stream, since: int)

  datatype Aged = Aged(stream: Stream, age: int)

  datatype Check = Check(at: int, stalest: Option<Aged>, newGaps: seq<Gaps.Report>, connectionSilent: bool)

  // fired lists the on_gap calls. found, not kept by the source, collects every silence any check has seen.
  datatype Monitor = Monitor(
    checks: nat, reported: set<Key>, last: Option<Check>, fired: seq<Key>, found: set<Key>)

  const NEW_MONITOR := Monitor(0, {}, None, [], {})

  function KeyOf(r: Gaps.Report): Key {
    Key(r.stream, r.start)
  }

  function KeysOf(reports: seq<Gaps.Report>): set<Key> {
    set r <- reports :: KeyOf(r)
  }

  // The stream heard longest ago; the first of several.
  function Stalest(t: Gaps.Tracker, order: seq<Stream>, now: int): Option<Aged> {
    if order == [] then None
    else
      var s := order[|order| - 1];
      var before := Stalest(t, order[..|order| - 1], now);
      if s !in t.positions || t.positions[s].lastSeenAt.None? then before
      else
        var age := now - t.positions[s].lastSeenAt.value;
        if before.None? || age > before.value.age then Some(Aged(s, age)) else before
  }

  predicate WithinLimit(stalest: Option<Aged>, limit: int) {
    stalest.None? || stalest.value.age <= limit
  }

  predicate IsHealthy(c: Check, limit: int) {
    !c.connectionSilent && c.newGaps == [] && WithinLimit(c.stalest, limit)
  }

  function ReasonFor(c: Check): Reason {
    if c.connectionSilent then ConnectionSilent else if c.newGaps != [] then StreamsQuiet else StreamStale
  }

  function Reflected(m: Machine, c: Check, limit: int): Machine {
    if !IsHealthy(c, limit) && m.state == Healthy then Advance(m, Degraded, c.at, ReasonFor(c))
    else if IsHealthy(c, limit) && m.state == Degraded then Advance(m, Healthy, c.at, StreamsFresh)
    else m
  }

  // A check under way: what it read at the start, the reports not yet looked at, and those found new.
  datatype Pending = Pending(
    at: int, tracker: Gaps.Tracker, connectionSilent: bool, todo: seq<Gaps.Report>, newGaps: seq<Gaps.Report>)

  function Begin(m: Monitor, cfg: Settings, t: Gaps.Tracker, b: Gaps.Beat, now: int): (Monitor, Pending) {
    var reports := Gaps.SilenceReports(t, t.order, now, cfg.silence);
    (m.(checks := m.checks + 1, found := m.found + KeysOf(reports)),
     Pending(now, t, Gaps.ConnectionSilent(b, now, cfg.heartbeat), reports, []))
  }

  function CheckOf(p: Pending): Check {
    Check(p.at, Stalest(p.tracker, p.tracker.order, p.at), p.newGaps, p.connectionSilent)
  }

  // Going on with a check: to the next on_gap call, or to its end.
  datatype Next = Waiting(monitor: Monitor, pending: Pending) | Finished(monitor: Monitor, check: Check)

  function Reported(m: Monitor, r: Gaps.Report): Monitor {
    m.(reported := m.reported + {KeyOf(r)}, fired := m.fired + [KeyOf(r)])
  }

  function Scan(m: Monitor, p: Pending): Next
    decreases |p.todo|
  {
    if p.todo == [] then Finished(m.(last := Some(CheckOf(p))), CheckOf(p))
    else
      var r := p.todo[0];
      if KeyOf(r) in m.reported then Scan(m, p.(todo := p.todo[1..]))
      else Waiting(Reported(m, r), p.(todo := p.todo[1..], newGaps := p.newGaps + [r]))
  }

  lemma {:induction false} ScanShrinks(m: Monitor, p: Pending)
    ensures Scan(m, p).Waiting? ==> |Scan(m, p).pending.todo| < |p.todo|
    decreases |p.todo|
  {
    if p.todo != [] && KeyOf(p.todo[0]) in m.reported {
      ScanShrinks(m, p.(todo := p.todo[1..]));
    }
  }

  // The whole check, resumed at once after every on_gap call.
  function ScanAll(m: Monitor, p: Pending): (Monitor, Check)
    decreases |p.todo|
  {
    ScanShrinks(m, p);
    match Scan(m, p)
    case Finished(m', c) => (m', c)
    case Waiting(m', p') => ScanAll(m', p')
  }

  datatype Outcome = Outcome(monitor: Monitor, machine: Machine, check: Check)

  function RunCheck(m: Monitor, cfg: Settings, t: Gaps.Tracker, b: Gaps.Beat, machine: Machine, now: int): Outcome {
    var (started, p) := Begin(m, cfg, t, b, now);
    var (done, c) := ScanAll(started, p);
    Outcome(done, Reflected(machine, c, cfg.staleness), c)
  }

  class MonitorTask {
    const cfg: Settings
    const gaps: Gaps.GapDetector
    const heartbeat: Gaps.Heartbeat
    const machine: StateMachine
    var checks: nat
    var reported: set<Key>
    var last: Option<Check>
    // The calls made to on_gap.
    var fired: seq<Key>
    ghost var found: set<Key>

    // The monitor takes the recorder's own detectors and state machine.
    constructor (cfg: Settings, gaps: Gaps.GapDetector, heartbeat: Gaps.Heartbeat, machine: StateMachine)
      ensures this.cfg == cfg && this.gaps == gaps && this.heartbeat == heartbeat && this.machine == machine
      ensures Value() == NEW_MONITOR
    {
      this.cfg, this.gaps, this.heartbeat, this.machine := cfg, gaps, heartbeat, machine;
      checks, reported, last, fired, found := 0, {}, None, [], {};
    }

    ghost function Value(): Monitor
      reads this
    {
      Monitor(checks, reported, last, fired, found)
    }

    predicate Wired() {
      gaps.silenceThreshold == cfg.silence && heartbeat.threshold == cfg.heartbeat
    }

    method StalestStream(now: int) returns (r: Option<Aged>)
      ensures r == Stalest(gaps.Value(), gaps.order, now)
    {
      r := None;
      for i := 0 to |gaps.order|
        invariant r == Stalest(gaps.Value(), gaps.order[..i], now)
      {
        assert gaps.order[..i + 1][..i] == gaps.order[..i];
        var s := gaps.order[i];
        if s in gaps.positions && gaps.positions[s].lastSeenAt.Some? {
          var age := now - gaps.positions[s].lastSeenAt.value;
          if r.None? || age > r.value.age {
            r := Some(Aged(s, age));
          }
        }
      }
      assert gaps.order[..|gaps.order|] == gaps.order;
    }

    // One pass, with nothing else running while on_gap is awaited.
    method CheckOnce(now: int) returns (c: Check)
      requires Wired()
      modifies this, machine
      ensures Outcome(Value(), machine.Value(), c) ==
              RunCheck(old(Value()), cfg, gaps.Value(), heartbeat.Value(), old(machine.Value()), now)
    {
      ghost var (started, pending) := Begin(Value(), cfg, gaps.Value(), heartbeat.Value(), now);
      checks := checks + 1;
      var stalest := StalestStream(now);
      var silent := Gaps.ConnectionSilent(heartbeat.Value(), now, cfg.heartbeat);
      var reports := gaps.CheckSilence(now);
      found := found + KeysOf(reports);
      var newGaps := FireNew(reports, pending);
      c := Check(now, stalest, newGaps, silent);
      last := Some(c);
      if !IsHealthy(c, cfg.staleness) && machine.state == Healthy {
        var _ := machine.Transition(Degraded, now, ReasonFor(c));
      } else if IsHealthy(c, cfg.staleness) && machine.state == Degraded {
        var _ := machine.Transition(Healthy, now, StreamsFresh);
      }
    }

    // The loop over the reports: on_gap for each one not reported before.
    method FireNew(reports: seq<Gaps.Report>, ghost p: Pending) returns (newGaps: seq<Gaps.Report>)
      requires p.todo == reports && p.newGaps == []
      modifies this`reported, this`fired
      ensures var done := p.(todo := [], newGaps := newGaps);
              ScanAll(old(Value()), p) == (Value().(last := Some(CheckOf(done))), CheckOf(done))
    {
      newGaps := [];
      assert reports[0..] == reports;
      for i := 0 to |reports|
        invariant ScanAll(Value(), p.(todo := reports[i..], newGaps := newGaps)) == ScanAll(old(Value()), p)
      {
        assert reports[i..][0] == reports[i] && reports[i..][1..] == reports[i + 1..];
        var key := KeyOf(reports[i]);
        if key in reported {
          continue;
        }
        reported := reported + {key};
        newGaps := newGaps + [reports[i]];
        fired := fired + [key];
      }
    }
  }

  // ----- what checks reveal -----

  lemma {:induction false} StalestIsOldest(t: Gaps.Tracker, order: seq<Stream>, now: int, s: Stream)
    requires s in order && s in t.positions && t.positions[s].lastSeenAt.Some?
    ensures Stalest(t, order, now).Some?
    ensures Stalest(t, order, now).value.age >= now - t.positions[s].lastSeenAt.value
  {
    if order[|order| - 1] != s {
      StalestIsOldest(t, order[..|order| - 1], now, s);
    }
  }

  // When a stream was last heard, if ever.
  predicate HeardAt(t: Gaps.Tracker, s: Stream, at: int) {
    s in t.positions && t.positions[s].lastSeenAt == Some(at)
  }

  // Stream k of the order, last heard then: no stream before it is as old, and none after it is older.
  ghost predicate IsStalest(t: Gaps.Tracker, order: seq<Stream>, k: nat, at: int) {
    && k < |order| && HeardAt(t, order[k], at)
    && (forall j, x: int :: 0 <= j < k && HeardAt(t, order[j], x) ==> at < x)
    && (forall j, x: int :: k < j < |order| && HeardAt(t, order[j], x) ==> at <= x)
  }

  /** The stalest stream is the one heard longest ago, the first of several, with the time since; and there is none
      exactly when no stream was ever heard. */
  lemma {:induction false} StalestExactly(t: Gaps.Tracker, order: seq<Stream>, now: int)
    ensures var r := Stalest(t, order, now);
            && (r.None? <==> forall j, x: int :: 0 <= j < |order| ==> !HeardAt(t, order[j], x))
            && (r.Some? ==> exists k: nat, at: int :: IsStalest(t, order, k, at) && r.value == Aged(order[k], now - at))
  {
    if order != [] {
      var n := |order| - 1;
      var front, s := order[..n], order[n];
      StalestExactly(t, front, now);
      var before, r := Stalest(t, front, now), Stalest(t, order, now);
      assert forall j :: 0 <= j < n ==> front[j] == order[j];
      if s in t.positions && t.positions[s].lastSeenAt.Some? {
        assert HeardAt(t, order[n], t.positions[s].lastSeenAt.value);
      }
      if before.Some? {
        var k: nat, at: int :| IsStalest(t, front, k, at) && before.value == Aged(front[k], now - at);
        assert HeardAt(t, order[k], at);
        if r == before {
          assert IsStalest(t, order, k, at);
        } else {
          assert IsStalest(t, order, n, t.positions[s].lastSeenAt.value);
        }
      } else if r.Some? {
        assert IsStalest(t, order, n, t.positions[s].lastSeenAt.value);
      }
    }
  }

  // A healthy check means no known stream was silent when it began, if staleness is no laxer than silence.
  lemma HealthyMeansHeard(p: Pending, cfg: Settings, s: Stream)
    requires Gaps.Valid(p.tracker) && cfg.staleness <= cfg.silence
    requires IsHealthy(CheckOf(p), cfg.staleness)
    ensures !Gaps.Silent(p.tracker, s, p.at, cfg.silence)
  {
    if s in p.tracker.positions && p.tracker.positions[s].lastSeenAt.Some? {
      StalestIsOldest(p.tracker, p.tracker.order, p.at, s);
    }
  }

  lemma {:induction false} ScanAllChecks(m: Monitor, p: Pending)
    ensures exists q: Pending :: ScanAll(m, p).1 == CheckOf(q) && q.tracker == p.tracker && q.at == p.at
    decreases |p.todo|, 1
  {
    ScanShrinks(m, p);
    ScanKeeps(m, p);
    match Scan(m, p)
    case Finished(_, _) =>
    case Waiting(m', p') => ScanAllChecks(m', p');
  }

  // Scanning changes neither what the check read at its start nor, when it ends, what it reports of it.
  lemma {:induction false} ScanKeeps(m: Monitor, p: Pending)
    ensures Scan(m, p).Waiting? ==>
              var q := Scan(m, p).pending;
              q.tracker == p.tracker && q.at == p.at && q.connectionSilent == p.connectionSilent
    ensures Scan(m, p).Finished? ==> Scan(m, p).check == CheckOf(p)
    decreases |p.todo|
  {
    if p.todo != [] && KeyOf(p.todo[0]) in m.reported {
      ScanKeeps(m, p.(todo := p.todo[1..]));
    }
  }

  predicate Running(m: Machine) {
    m.state == Healthy || m.state == Degraded
  }

  /** Whatever the monitor remembers, a check made while running leaves HEALTHY only if no known stream is
      silent, provided the staleness limit does not exceed the silence threshold. */
  lemma CheckReveals(m: Monitor, cfg: Settings, t: Gaps.Tracker, b: Gaps.Beat, machine: Machine, now: int, s: Stream)
    requires cfg.staleness <= cfg.silence
    requires Gaps.Valid(t) && Running(machine) && Gaps.Silent(t, s, now, cfg.silence)
    ensures RunCheck(m, cfg, t, b, machine, now).machine.state != Healthy
  {
    var (started, p) := Begin(m, cfg, t, b, now);
    ScanAllChecks(started, p);
    var q: Pending :| ScanAll(started, p).1 == CheckOf(q) && q.tracker == p.tracker && q.at == p.at;
    if IsHealthy(CheckOf(q), cfg.staleness) {
      HealthyMeansHeard(q, cfg, s);
    }
  }
}

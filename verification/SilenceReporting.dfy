/** Silence gaps over whole interleavings: each one found is passed to on_gap exactly once. */
module SilenceReporting {
  import opened Prelude
  import opened Events
  import opened RecorderStates
  import opened Recording
  import opened Interleaving
  import opened Monitoring
  import Gaps

  // ----- the tracker stays well formed -----

  lemma ObservingKeepsValid(t: Gaps.Tracker, s: Stream, sequence: Option<int>, at: int)
    requires Gaps.Valid(t)
    ensures Gaps.Valid(Gaps.Observing(t, s, sequence, at).0)
  {
  }

  lemma ScreenKeepsTracker(cfg: Config, c: Core, e: MarketEvent)
    requires Gaps.Valid(c.tracker)
    ensures Gaps.Valid(Screen(cfg, c, e).core.tracker)
  {
    var t := Gaps.Observing(c.tracker, e.record.stream, e.record.sequence, e.receipt.time).0;
    ObservingKeepsValid(c.tracker, e.record.stream, e.record.sequence, e.receipt.time);
    assert Screen(cfg, c, e).core.tracker == c.tracker || Screen(cfg, c, e).core.tracker == t;
  }

  // At one event acceptance pauses, or goes on as if from next.
  lemma OnwardKeepsTracker(cfg: Config, a: Accepting, v: Visit, rawId: string, k: nat)
    returns (pauses: bool, next: Accepting)
    requires v.frame.content.Data? && k < |v.frame.content.market| && Gaps.Valid(a.core.tracker)
    ensures pauses ==> Gaps.Valid(AcceptUntilGap(cfg, a, v, rawId, k).core.tracker)
    ensures !pauses ==>
              && AcceptUntilGap(cfg, a, v, rawId, k) == AcceptUntilGap(cfg, next, v, rawId, k + 1)
              && Gaps.Valid(next.core.tracker)
  {
    ScreenKeepsTracker(cfg, a.core, EventAt(v, k));
    match Screen(cfg, a.core, EventAt(v, k))
    case Dropped(c) => pauses, next := false, a.(core := c);
    case Passed(c, gap) =>
      pauses, next := gap, Admit(cfg, a.(core := c), EventAt(v, k), v.env.validateAt(k), rawId);
  }

  // run is acceptance up to a gap. The recursion below works with run, and never unfolds acceptance.
  ghost predicate RunsToGap(run: (Accepting, nat) -> Paused, cfg: Config, v: Visit, rawId: string)
    requires v.frame.content.Data?
  {
    forall a, k {:trigger AcceptUntilGap(cfg, a, v, rawId, k)} ::
      0 <= k <= |v.frame.content.market| ==> run(a, k) == AcceptUntilGap(cfg, a, v, rawId, k)
  }

  lemma RunKeepsTracker(
    run: (Accepting, nat) -> Paused, cfg: Config, a: Accepting, v: Visit, rawId: string, k: nat)
    returns (pauses: bool, next: Accepting)
    requires v.frame.content.Data? && k < |v.frame.content.market| && RunsToGap(run, cfg, v, rawId)
    requires Gaps.Valid(a.core.tracker)
    ensures pauses ==> Gaps.Valid(run(a, k).core.tracker)
    ensures !pauses ==> run(a, k) == run(next, k + 1) && Gaps.Valid(next.core.tracker)
  {
    pauses, next := OnwardKeepsTracker(cfg, a, v, rawId, k);
  }

  lemma RunEnds(run: (Accepting, nat) -> Paused, cfg: Config, a: Accepting, v: Visit, rawId: string)
    requires v.frame.content.Data? && RunsToGap(run, cfg, v, rawId)
    ensures run(a, |v.frame.content.market|) == Through(a.core, a.accepted)
  {
    assert AcceptUntilGap(cfg, a, v, rawId, |v.frame.content.market|) == Through(a.core, a.accepted);
  }

  lemma {:induction false} PauseKeeps(
    run: (Accepting, nat) -> Paused, cfg: Config, a: Accepting, v: Visit, rawId: string, k: nat)
    requires v.frame.content.Data? && k <= |v.frame.content.market| && RunsToGap(run, cfg, v, rawId)
    requires Gaps.Valid(a.core.tracker)
    ensures Gaps.Valid(run(a, k).core.tracker)
    decreases |v.frame.content.market| - k
  {
    if k == |v.frame.content.market| {
      RunEnds(run, cfg, a, v, rawId);
    } else {
      var pauses, next := RunKeepsTracker(run, cfg, a, v, rawId, k);
      if !pauses {
        PauseKeeps(run, cfg, next, v, rawId, k + 1);
      }
    }
  }

  lemma {:induction false} PauseKeepsTracker(cfg: Config, a: Accepting, v: Visit, rawId: string, k: nat)
    requires v.frame.content.Data? && k <= |v.frame.content.market| && Gaps.Valid(a.core.tracker)
    ensures Gaps.Valid(AcceptUntilGap(cfg, a, v, rawId, k).core.tracker)
  {
    var n := |v.frame.content.market|;
    var run := (b: Accepting, i: nat) =>
      if i <= n then AcceptUntilGap(cfg, b, v, rawId, i) else Through(b.core, b.accepted);
    PauseKeeps(run, cfg, a, v, rawId, k);
  }

  lemma GoOnKeepsTracker(cfg: Config, t: Task, p: Paused, machine: Machine, v: Visit)
    requires v.frame.content.Data?
    ensures GoOn(cfg, t, p, machine, v).r.core.tracker == p.core.tracker
  {
  }

  lemma AfterRawKeepsTracker(cfg: Config, t: Task, v: Visit)
    requires Gaps.Valid(t.r.core.tracker)
    ensures Gaps.Valid(AfterRaw(cfg, t, v).r.core.tracker)
  {
    if v.env.rawOk && v.frame.content.Data? {
      var a := Accepting(Parsed(Archived(t.r.core)), []);
      PauseKeepsTracker(cfg, a, v, CurrentId(a.core, v), 0);
      GoOnKeepsTracker(cfg, t, AcceptUntilGap(cfg, a, v, CurrentId(a.core, v), 0), t.r.machine, v);
    }
  }

  lemma PastGapKeepsTracker(cfg: Config, c: Core, k: nat, accepted: seq<MarketEvent>, v: Visit)
    requires v.frame.content.Data? && k < |v.frame.content.market| && Gaps.Valid(c.tracker)
    ensures Gaps.Valid(AcceptPastGap(cfg, c, k, accepted, v).core.tracker)
  {
    var rawId := CurrentId(c, v);
    var a := Admit(cfg, Accepting(c, accepted), EventAt(v, k), v.env.validateAt(k), rawId);
    PauseKeepsTracker(cfg, a, v, rawId, k + 1);
  }

  lemma AfterGapKeepsTracker(cfg: Config, t: Task, v: Visit)
    requires t.point.InGap? && v.frame.content.Data? && t.point.k < |v.frame.content.market|
    requires Gaps.Valid(t.r.core.tracker)
    ensures Gaps.Valid(AfterGap(cfg, t, v).r.core.tracker)
  {
    PastGapKeepsTracker(cfg, t.r.core, t.point.k, t.point.accepted, v);
    GoOnKeepsTracker(cfg, t, AcceptPastGap(cfg, t.r.core, t.point.k, t.point.accepted, v), t.r.machine, v);
  }

  lemma StepKeepsTracker(cfg: Config, s: Session, t: Task)
    requires WellPlaced(s, t) && Gaps.Valid(t.r.core.tracker)
    ensures Gaps.Valid(Step(cfg, s, t).r.core.tracker)
  {
    match t.point
    case InRaw => AfterRawKeepsTracker(cfg, t, s.visits[t.next]);
    case InGap(_, _) => AfterGapKeepsTracker(cfg, t, s.visits[t.next]);
    case _ =>
  }

  // ----- what the monitor keeps -----

  predicate NoRepeats(keys: seq<Key>) {
    forall i, j :: 0 <= i < j < |keys| ==> keys[i] != keys[j]
  }

  // Reported exactly what was fired, each once; found is what was reported or is still to be looked at.
  predicate Accounted(m: Monitor, todo: seq<Gaps.Report>) {
    && NoRepeats(m.fired)
    && m.reported == (set k <- m.fired)
    && m.found == m.reported + KeysOf(todo)
  }

  function Todo(w: World): seq<Gaps.Report> {
    match w.point
    case Resting => []
    case Suspended(p) => p.todo
  }

  lemma KeysOfRest(todo: seq<Gaps.Report>)
    requires todo != []
    ensures KeysOf(todo) == {KeyOf(todo[0])} + KeysOf(todo[1..])
  {
    assert todo == [todo[0]] + todo[1..];
  }

  lemma ReportedAccounts(m: Monitor, r: Gaps.Report, rest: seq<Gaps.Report>)
    requires Accounted(m, [r] + rest) && KeyOf(r) !in m.reported
    ensures Accounted(Reported(m, r), rest)
  {
    KeysOfRest([r] + rest);
    assert ([r] + rest)[1..] == rest;
    var fired := m.fired + [KeyOf(r)];
    assert (set k <- fired) == (set k <- m.fired) + {KeyOf(r)};
  }

  lemma SkippedAccounts(m: Monitor, r: Gaps.Report, rest: seq<Gaps.Report>)
    requires Accounted(m, [r] + rest) && KeyOf(r) in m.reported
    ensures Accounted(m, rest)
  {
    KeysOfRest([r] + rest);
    assert ([r] + rest)[1..] == rest;
  }

  lemma {:induction false} ScanAccounts(m: Monitor, p: Pending)
    requires Accounted(m, p.todo)
    ensures var next := Scan(m, p);
            if next.Waiting? then Accounted(next.monitor, next.pending.todo) else Accounted(next.monitor, [])
    ensures Scan(m, p).monitor.found == m.found
    decreases |p.todo|
  {
    if p.todo != [] {
      var r, rest := p.todo[0], p.todo[1..];
      assert p.todo == [r] + rest;
      if KeyOf(r) in m.reported {
        SkippedAccounts(m, r, rest);
        ScanAccounts(m, p.(todo := rest));
      } else {
        ReportedAccounts(m, r, rest);
      }
    }
  }

  lemma BeginAccounts(m: Monitor, cfg: Settings, t: Gaps.Tracker, b: Gaps.Beat, now: int)
    requires Accounted(m, [])
    ensures var (started, p) := Begin(m, cfg, t, b, now); Accounted(started, p.todo)
  {
    assert KeysOf([]) == {};
  }

  // ----- which silences checks have seen -----

  // This stream was last heard then, and that was too long ago.
  predicate SilentKey(t: Gaps.Tracker, key: Key, now: int, threshold: int) {
    Gaps.Silent(t, key.stream, now, threshold) && t.positions[key.stream].lastSeenAt == Some(key.since)
  }

  lemma {:induction false} BeginFinds(t: Gaps.Tracker, now: int, threshold: int, key: Key)
    requires Gaps.Valid(t)
    ensures key in KeysOf(Gaps.SilenceReports(t, t.order, now, threshold)) <==> SilentKey(t, key, now, threshold)
  {
    var reports := Gaps.SilenceReports(t, t.order, now, threshold);
    Gaps.SilenceExactly(t, now, threshold);
    if key in KeysOf(reports) {
      var r :| r in reports && KeyOf(r) == key;
      var i :| 0 <= i < |reports| && reports[i] == r;
      assert Gaps.Silent(t, reports[i].stream, now, threshold);
    }
    if SilentKey(t, key, now, threshold) {
      assert Gaps.Reported(reports, key.stream);
      var i :| 0 <= i < |reports| && reports[i].stream == key.stream;
      assert reports[i] == Gaps.SilenceReport(t, key.stream);
      assert KeyOf(reports[i]) == key && reports[i] in reports;
    }
  }

  // Tick i begins a check, and that check finds this silence.
  ghost predicate FoundAt(cfg: Config, mon: Settings, s: Session, ticks: seq<Tick>, i: nat, key: Key)
    requires i < |ticks|
  {
    var w := Scheduled(cfg, mon, s, ticks[..i]);
    && ticks[i].MonitorTick? && w.point.Resting?
    && SilentKey(w.task.r.core.tracker, key, ticks[i].now, mon.silence)
  }

  // Some check begun so far has found this silence.
  ghost predicate FoundBySomeCheck(cfg: Config, mon: Settings, s: Session, ticks: seq<Tick>, key: Key) {
    exists i: nat :: i < |ticks| && FoundAt(cfg, mon, s, ticks, i, key)
  }

  lemma FoundLater(cfg: Config, mon: Settings, s: Session, ticks: seq<Tick>, key: Key)
    requires ticks != []
    ensures var n := |ticks| - 1;
            FoundBySomeCheck(cfg, mon, s, ticks, key) <==>
            FoundBySomeCheck(cfg, mon, s, ticks[..n], key) || FoundAt(cfg, mon, s, ticks, n, key)
  {
    var n := |ticks| - 1;
    var front := ticks[..n];
    forall i: nat | i < n
      ensures FoundAt(cfg, mon, s, ticks, i, key) <==> FoundAt(cfg, mon, s, front, i, key)
    {
      assert front[..i] == ticks[..i];
    }
  }

  // The invariant of every interleaving.
  ghost predicate Kept(cfg: Config, mon: Settings, s: Session, ticks: seq<Tick>) {
    var w := Scheduled(cfg, mon, s, ticks);
    && Gaps.Valid(w.task.r.core.tracker)
    && Accounted(w.monitor, Todo(w))
    && (w.point.Suspended? ==> Gaps.Valid(w.point.pending.tracker))
  }

  lemma {:induction false} MonitorKeeps(mon: Settings, w: World, now: int)
    requires Gaps.Valid(w.task.r.core.tracker) && Accounted(w.monitor, Todo(w))
    requires w.point.Suspended? ==> Gaps.Valid(w.point.pending.tracker)
    ensures var w' := MonitorStep(mon, w, now);
            && w'.task.r.core == w.task.r.core
            && Accounted(w'.monitor, Todo(w'))
            && (w'.point.Suspended? ==> Gaps.Valid(w'.point.pending.tracker))
            && w'.monitor.found ==
               if w.point.Suspended? then w.monitor.found
               else w.monitor.found
                    + KeysOf(Gaps.SilenceReports(w.task.r.core.tracker, w.task.r.core.tracker.order, now, mon.silence))
  {
    match w.point
    case Resting =>
      var t, b := w.task.r.core.tracker, w.task.r.core.beat;
      BeginAccounts(w.monitor, mon, t, b, now);
      var (m, p) := Begin(w.monitor, mon, t, b, now);
      ScanAccounts(m, p);
      ScanKeeps(m, p);
    case Suspended(p) =>
      ScanAccounts(w.monitor, p);
      ScanKeeps(w.monitor, p);
  }

  lemma NewWorldIsKept()
    ensures Gaps.Valid(NEW_WORLD.task.r.core.tracker) && Accounted(NEW_WORLD.monitor, Todo(NEW_WORLD))
  {
    assert KeysOf([]) == {};
  }

  lemma {:induction false} EverySchedule(cfg: Config, mon: Settings, s: Session, ticks: seq<Tick>)
    ensures Kept(cfg, mon, s, ticks)
  {
    if ticks == [] {
      NewWorldIsKept();
    } else {
      var front, tick := ticks[..|ticks| - 1], ticks[|ticks| - 1];
      EverySchedule(cfg, mon, s, front);
      var w := Scheduled(cfg, mon, s, front);
      match tick
      case RecorderTick => StepKeepsTracker(cfg, s, w.task);
      case MonitorTick(now) => MonitorKeeps(mon, w, now);
    }
  }

  lemma {:induction false} FoundIsHistory(cfg: Config, mon: Settings, s: Session, ticks: seq<Tick>, key: Key)
    ensures key in Scheduled(cfg, mon, s, ticks).monitor.found <==> FoundBySomeCheck(cfg, mon, s, ticks, key)
  {
    if ticks != [] {
      var n := |ticks| - 1;
      var front, tick := ticks[..n], ticks[n];
      FoundIsHistory(cfg, mon, s, front, key);
      FoundLater(cfg, mon, s, ticks, key);
      EverySchedule(cfg, mon, s, front);
      var w := Scheduled(cfg, mon, s, front);
      if tick.MonitorTick? {
        MonitorKeeps(mon, w, tick.now);
        BeginFinds(w.task.r.core.tracker, tick.now, mon.silence, key);
      }
    }
  }

  /** Over every interleaving, on_gap is never called twice for the same stream and last-seen time; and
      whenever the monitor is between checks, it has been called for exactly the silences that some check
      found. */
  lemma {:induction false} OnGapFiresExactlyOnce(cfg: Config, mon: Settings, s: Session, ticks: seq<Tick>, key: Key)
    ensures var w := Scheduled(cfg, mon, s, ticks);
            && NoRepeats(w.monitor.fired)
            && (key in w.monitor.fired ==> FoundBySomeCheck(cfg, mon, s, ticks, key))
            && (w.point.Resting? ==> (key in w.monitor.fired <==> FoundBySomeCheck(cfg, mon, s, ticks, key)))
  {
    EverySchedule(cfg, mon, s, ticks);
    FoundIsHistory(cfg, mon, s, ticks, key);
    assert KeysOf([]) == {};
  }

  // ----- what the end of a check says -----

  // What the check now under way, or beginning with this tick, read at its start.
  function SnapshotOf(w: World, now: int): (Gaps.Tracker, int) {
    match w.point
    case Resting => (w.task.r.core.tracker, now)
    case Suspended(p) => (p.tracker, p.at)
  }

  lemma EndSays(mon: Settings, w: World, now: int, s: Stream)
    requires mon.staleness <= mon.silence && Running(w.task.r.machine)
    requires Gaps.Valid(SnapshotOf(w, now).0)
    requires MonitorStep(mon, w, now).point.Resting?
    requires MonitorStep(mon, w, now).task.r.machine.state == Healthy
    ensures !Gaps.Silent(SnapshotOf(w, now).0, s, SnapshotOf(w, now).1, mon.silence)
  {
    var (m, p) :=
      match w.point
      case Resting => Begin(w.monitor, mon, w.task.r.core.tracker, w.task.r.core.beat, now)
      case Suspended(p) => (w.monitor, p);
    ScanKeeps(m, p);
    HealthyMeansHeardIf(p, mon, s);
  }

  lemma HealthyMeansHeardIf(p: Pending, cfg: Settings, s: Stream)
    requires Gaps.Valid(p.tracker) && cfg.staleness <= cfg.silence
    ensures IsHealthy(CheckOf(p), cfg.staleness) ==> !Gaps.Silent(p.tracker, s, p.at, cfg.silence)
  {
    if IsHealthy(CheckOf(p), cfg.staleness) {
      HealthyMeansHeard(p, cfg, s);
    }
  }

  /** Over every interleaving, when a check ends while the recorder runs and leaves it HEALTHY, no stream known
      when the check began was silent then, even one whose gap had been reported before. */
  lemma {:induction false} HealthyChecksHideNothing(
    cfg: Config, mon: Settings, s: Session, ticks: seq<Tick>, now: int, stream: Stream)
    requires mon.staleness <= mon.silence
    requires var w := Scheduled(cfg, mon, s, ticks);
             && !w.task.point.NotStarted?
             && MonitorStep(mon, w, now).point.Resting?
             && MonitorStep(mon, w, now).task.r.machine.state == Healthy
    ensures var (t, at) := SnapshotOf(Scheduled(cfg, mon, s, ticks), now);
            !Gaps.Silent(t, stream, at, mon.silence)
  {
    EverySchedule(cfg, mon, s, ticks);
    MachineIsSteady(cfg, mon, s, ticks);
    EndSays(mon, Scheduled(cfg, mon, s, ticks), now, stream);
  }
}

/** What one monitor check decides, told from what it was given. */
module CheckOutcome {
  import opened Prelude
  import opened Events
  import opened RecorderStates
  import opened Interleaving
  import opened Monitoring
  import opened SilenceReporting
  import Gaps

  predicate AllReported(todo: seq<Gaps.Report>, reported: set<Key>) {
    forall i :: 0 <= i < |todo| ==> KeyOf(todo[i]) in reported
  }

  // The reports of silences not passed on before.
  function NewOf(todo: seq<Gaps.Report>, reported: set<Key>): seq<Gaps.Report> {
    if todo == [] then []
    else (if KeyOf(todo[0]) in reported then [] else [todo[0]]) + NewOf(todo[1..], reported)
  }

  function KeyList(reports: seq<Gaps.Report>): seq<Key> {
    seq(|reports|, i requires 0 <= i < |reports| => KeyOf(reports[i]))
  }

  predicate DistinctStreams(reports: seq<Gaps.Report>) {
    forall i, j :: 0 <= i < j < |reports| ==> reports[i].stream != reports[j].stream
  }

  lemma {:induction false} NoneNew(todo: seq<Gaps.Report>, reported: set<Key>)
    ensures NewOf(todo, reported) == [] <==> AllReported(todo, reported)
  {
    if todo != [] {
      NoneNew(todo[1..], reported);
      assert todo == [todo[0]] + todo[1..];
    }
  }

  // Passing on one silence makes no other stream's silence known.
  lemma {:induction false} OtherStreamsStayNew(todo: seq<Gaps.Report>, reported: set<Key>, key: Key)
    requires forall i :: 0 <= i < |todo| ==> todo[i].stream != key.stream
    ensures NewOf(todo, reported + {key}) == NewOf(todo, reported)
  {
    if todo != [] {
      OtherStreamsStayNew(todo[1..], reported, key);
    }
  }

  // The monitor after passing these on, and the check if it then ends.
  function PassedOn(m: Monitor, p: Pending, news: seq<Gaps.Report>): (Monitor, Check) {
    var c := CheckOf(p.(todo := [], newGaps := p.newGaps + news));
    (m.(reported := m.reported + KeysOf(news), fired := m.fired + KeyList(news), last := Some(c)), c)
  }

  lemma {:induction false} ScanAllSkips(m: Monitor, p: Pending)
    requires p.todo != [] && KeyOf(p.todo[0]) in m.reported
    ensures ScanAll(m, p) == ScanAll(m, p.(todo := p.todo[1..]))
  {
    assert Scan(m, p) == Scan(m, p.(todo := p.todo[1..]));
  }

  lemma {:induction false} ScanAllPasses(m: Monitor, p: Pending)
    requires p.todo != [] && KeyOf(p.todo[0]) !in m.reported
    ensures ScanAll(m, p) ==
            ScanAll(Reported(m, p.todo[0]), p.(todo := p.todo[1..], newGaps := p.newGaps + [p.todo[0]]))
  {
  }

  lemma PassedOneByOne(m: Monitor, p: Pending, r: Gaps.Report, rest: seq<Gaps.Report>)
    ensures PassedOn(Reported(m, r), p.(newGaps := p.newGaps + [r]), rest) == PassedOn(m, p, [r] + rest)
  {
    assert p.newGaps + [r] + rest == p.newGaps + ([r] + rest);
    assert m.fired + [KeyOf(r)] + KeyList(rest) == m.fired + KeyList([r] + rest);
    KeysOfRest([r] + rest);
    assert ([r] + rest)[1..] == rest;
    assert m.reported + {KeyOf(r)} + KeysOf(rest) == m.reported + KeysOf([r] + rest);
  }

  lemma {:induction false} PassedNothing(m: Monitor, p: Pending)
    requires p.todo == []
    ensures ScanAll(m, p) == PassedOn(m, p, [])
  {
    assert p.newGaps + [] == p.newGaps && m.fired + KeyList([]) == m.fired;
    assert KeysOf([]) == {} && m.reported + {} == m.reported;
  }

  // A check passes on exactly the new silences, in order.
  lemma {:induction false} ScanAllFinds(m: Monitor, p: Pending)
    requires DistinctStreams(p.todo)
    ensures ScanAll(m, p) == PassedOn(m, p, NewOf(p.todo, m.reported))
    decreases |p.todo|
  {
    if p.todo == [] {
      PassedNothing(m, p);
    } else {
      var r, rest := p.todo[0], p.todo[1..];
      if KeyOf(r) in m.reported {
        ScanAllSkips(m, p);
        ScanAllFinds(m, p.(todo := rest));
        assert [] + NewOf(rest, m.reported) == NewOf(rest, m.reported);
      } else {
        ScanAllPasses(m, p);
        ScanAllFinds(Reported(m, r), p.(todo := rest, newGaps := p.newGaps + [r]));
        OtherStreamsStayNew(rest, m.reported, KeyOf(r));
        PassedOneByOne(m, p, r, NewOf(rest, m.reported));
      }
    }
  }

  // Every stream ever heard was heard within the limit.
  predicate AllWithin(t: Gaps.Tracker, order: seq<Stream>, now: int, limit: int) {
    forall s <- order :: s in t.positions && t.positions[s].lastSeenAt.Some? ==>
      now - t.positions[s].lastSeenAt.value <= limit
  }

  lemma {:induction false} StalestDecides(t: Gaps.Tracker, order: seq<Stream>, now: int, limit: int)
    ensures WithinLimit(Stalest(t, order, now), limit) <==> AllWithin(t, order, now, limit)
  {
    if order != [] {
      var front, s := order[..|order| - 1], order[|order| - 1];
      StalestDecides(t, front, now, limit);
      assert order == front + [s];
    }
  }

  // Every stream silent now had this silence reported before.
  ghost predicate OnlyOldSilences(t: Gaps.Tracker, now: int, threshold: int, reported: set<Key>) {
    forall key: Key :: SilentKey(t, key, now, threshold) ==> key in reported
  }

  lemma {:induction false} OldSilencesAreReported(t: Gaps.Tracker, now: int, threshold: int, reported: set<Key>)
    requires Gaps.Valid(t)
    ensures AllReported(Gaps.SilenceReports(t, t.order, now, threshold), reported) <==>
            OnlyOldSilences(t, now, threshold, reported)
  {
    var reports := Gaps.SilenceReports(t, t.order, now, threshold);
    if AllReported(reports, reported) {
      forall key: Key | SilentKey(t, key, now, threshold)
        ensures key in reported
      {
        BeginFinds(t, now, threshold, key);
      }
    }
    if OnlyOldSilences(t, now, threshold, reported) {
      forall i | 0 <= i < |reports|
        ensures KeyOf(reports[i]) in reported
      {
        assert reports[i] in reports && KeyOf(reports[i]) in KeysOf(reports);
        BeginFinds(t, now, threshold, KeyOf(reports[i]));
      }
    }
  }

  // Data did arrive, and longer ago than the threshold.
  predicate DataOverdue(b: Gaps.Beat, now: int, threshold: int) {
    b.lastDataAt.Some? && b.lastDataAt.value < now - threshold
  }

  // What one check finds wrong, in the order in which it looks.
  ghost function Trouble(m: Monitor, cfg: Settings, t: Gaps.Tracker, b: Gaps.Beat, now: int): Option<Reason> {
    if DataOverdue(b, now, cfg.heartbeat) then Some(ConnectionSilent)
    else if !OnlyOldSilences(t, now, cfg.silence, m.reported) then Some(StreamsQuiet)
    else if !AllWithin(t, t.order, now, cfg.staleness) then Some(StreamStale)
    else None
  }

  function Moved(m: Machine, target: State, at: int, reason: Reason): Machine {
    m.(state := target, history := Trimmed(m.history + [Change(m.state, target, at, reason)], m.limit))
  }

  /** What a check records, whatever the monitor remembers: the silences new to it are passed on, in the order in
      which their streams were first heard, and remembered; the check lists them with the stalest stream. */
  lemma {:induction false} CheckRecords(
    m: Monitor, cfg: Settings, t: Gaps.Tracker, b: Gaps.Beat, machine: Machine, now: int)
    requires Gaps.Valid(t)
    ensures var o := RunCheck(m, cfg, t, b, machine, now);
            var reports := Gaps.SilenceReports(t, t.order, now, cfg.silence);
            var news := NewOf(reports, m.reported);
            && o.check == Check(now, Stalest(t, t.order, now), news, DataOverdue(b, now, cfg.heartbeat))
            && o.monitor == Monitor(m.checks + 1, m.reported + KeysOf(news), Some(o.check),
                                    m.fired + KeyList(news), m.found + KeysOf(reports))
  {
    var (started, p) := Begin(m, cfg, t, b, now);
    Gaps.SilenceExactly(t, now, cfg.silence);
    ScanAllFinds(started, p);
    assert [] + NewOf(p.todo, m.reported) == NewOf(p.todo, m.reported);
  }

  /** A check moves a HEALTHY recorder to DEGRADED exactly when something is wrong: the connection is silent, else a
      silence is new to the monitor, else a stream is older than the staleness limit, the first of these being
      the reason; it moves a DEGRADED one to HEALTHY exactly when nothing is; and it moves no other. */
  lemma StateExactly(m: Monitor, cfg: Settings, t: Gaps.Tracker, b: Gaps.Beat, machine: Machine, now: int)
    requires Gaps.Valid(t)
    ensures var trouble := Trouble(m, cfg, t, b, now);
            RunCheck(m, cfg, t, b, machine, now).machine ==
            if machine.state == Healthy && trouble.Some? then Moved(machine, Degraded, now, trouble.value)
            else if machine.state == Degraded && trouble.None? then Moved(machine, Healthy, now, StreamsFresh)
            else machine
  {
    CheckRecords(m, cfg, t, b, machine, now);
    NoneNew(Gaps.SilenceReports(t, t.order, now, cfg.silence), m.reported);
    StalestDecides(t, t.order, now, cfg.staleness);
    OldSilencesAreReported(t, now, cfg.silence, m.reported);
  }

  // A suspended check resumed until it ends, with no recorder step in between.
  function ToItsEnd(mon: Settings, w: World, now: int): World
    decreases if w.point.Resting? then 0 else |w.point.pending.todo| + 1
  {
    if w.point.Resting? then w
    else
      ScanShrinks(w.monitor, w.point.pending);
      ToItsEnd(mon, MonitorStep(mon, w, now), now)
  }

  function Ended(mon: Settings, w: World, monitor: Monitor, c: Check): World {
    World(w.task.(r := w.task.r.(machine := Reflected(w.task.r.machine, c, mon.staleness))), monitor, Resting)
  }

  lemma {:induction false} SuspendedEnds(mon: Settings, w: World, now: int)
    requires w.point.Suspended?
    ensures var (m, c) := ScanAll(w.monitor, w.point.pending); ToItsEnd(mon, w, now) == Ended(mon, w, m, c)
    decreases |w.point.pending.todo|
  {
    var p := w.point.pending;
    ScanShrinks(w.monitor, p);
    var next := MonitorStep(mon, w, now);
    assert ToItsEnd(mon, w, now) == ToItsEnd(mon, next, now);
    if next.point.Suspended? {
      SuspendedEnds(mon, next, now);
    }
  }

  /** A check that no recorder step interrupts is one whole check, however the clock moves while on_gap is awaited. */
  lemma {:induction false} UninterruptedIsWhole(mon: Settings, w: World, now: int, later: int)
    requires w.point.Resting?
    ensures var r := w.task.r;
            var o := RunCheck(w.monitor, mon, r.core.tracker, r.core.beat, r.machine, now);
            ToItsEnd(mon, MonitorStep(mon, w, now), later) ==
            World(w.task.(r := r.(machine := o.machine)), o.monitor, Resting)
  {
    var (m, p) := Begin(w.monitor, mon, w.task.r.core.tracker, w.task.r.core.beat, now);
    var begun := w.(monitor := m, point := Suspended(p));
    assert MonitorStep(mon, w, now) == MonitorStep(mon, begun, later);
    SuspendedEnds(mon, begun, later);
  }

  /** A check made while the recorder runs leaves it HEALTHY exactly when the connection is not silent, no
      stream is older than the staleness limit, and no silence is new to the monitor; and it always leaves
      it HEALTHY or DEGRADED. */
  lemma HealthyExactly(
    m: Monitor, cfg: Settings, t: Gaps.Tracker, b: Gaps.Beat, machine: Machine, now: int)
    requires Gaps.Valid(t) && Running(machine)
    ensures var after := RunCheck(m, cfg, t, b, machine, now).machine;
            && Running(after)
            && (after.state == Healthy <==>
                && !DataOverdue(b, now, cfg.heartbeat)
                && AllWithin(t, t.order, now, cfg.staleness)
                && OnlyOldSilences(t, now, cfg.silence, m.reported))
  {
    StateExactly(m, cfg, t, b, machine, now);
  }
}

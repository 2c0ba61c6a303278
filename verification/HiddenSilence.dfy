/** A monitor whose staleness limit exceeds its silence threshold: a run in which a check leaves HEALTHY while
    a stream is silent. */
module HiddenSilence {
  import opened Prelude
  import opened Events
  import opened RecorderStates
  import opened Recording
  import opened Detection
  import opened Monitoring
  import opened Interleaving
  import opened Completion
  import opened SilenceReporting
  import Dedup
  import Gaps

  // Every sink call returns.
  const CALM := Env(true, true, true, _ => 0, 0, 0, 0, _ => "", _ => "")

  // A mark price comes with the receipt time only: no venue time, no number, no quantity.
  const MARK_PRICE := Stream("BTC", MarkPrice)

  // One stream, last heard at time zero.
  const HEARD_ONCE := Gaps.Tracker([MARK_PRICE], map[MARK_PRICE := Gaps.Position(None, Some(0), 1)])

  lemma {:induction false} HeardOnceIs(now: int, threshold: int)
    requires now > threshold
    ensures Gaps.Valid(HEARD_ONCE) && Gaps.Silent(HEARD_ONCE, MARK_PRICE, now, threshold)
    ensures Gaps.SilenceReports(HEARD_ONCE, [MARK_PRICE], now, threshold) ==
            [Gaps.SilenceReport(HEARD_ONCE, MARK_PRICE)]
    ensures Stalest(HEARD_ONCE, [MARK_PRICE], now) == Some(Aged(MARK_PRICE, now))
  {
    assert [MARK_PRICE][..0] == [];
  }

  const MARK := MarketRecord(MARK_PRICE, None, None, None, None, None, None, "", "")

  // When the checks are made: just past the silence threshold, the stream having been heard at time zero.
  function CheckTime(mon: Settings): int {
    mon.silence + 1
  }

  // When the last frame must come for the connection not to be silent then.
  function LastHeard(mon: Settings): int {
    if mon.heartbeat >= 0 then CheckTime(mon) else CheckTime(mon) - mon.heartbeat
  }

  // One mark price at time zero; later a control frame, which keeps the connection alive but not the stream.
  function Heard(): Visit {
    Visit(Frame("", "", Receipt(0, 0), Data([MARK], [])), CALM)
  }

  function Kept(mon: Settings): Visit {
    Visit(Frame("", "", Receipt(LastHeard(mon), 0), Control), CALM)
  }

  function QuietSession(mon: Settings): Session {
    Session([Heard(), Kept(mon)], _ => 0, true)
  }

  // ----- the recorder's part -----

  lemma {:induction false} OneArrival(limits: Dedup.Limits, mon: Settings)
    ensures var x := ArrivalAt(Heard(), LastRawId([Heard()]), 0);
            Novel(limits, Arrivals(QuietSession(mon).visits)) == [x]
  {
    var first := [Heard()];
    var x := ArrivalAt(Heard(), LastRawId(first), 0);
    assert [] + first == first;
    ArrivalsOneMore([], Heard());
    assert FrameArrivals(Heard(), LastRawId(first)) == [x];
    assert first + [Kept(mon)] == QuietSession(mon).visits;
    ArrivalsOneMore(first, Kept(mon));
    NovelOneMore(limits, [], x);
    assert Sightings([]) == [];
    assert [] + [x] == [x] && [x] + [] == [x];
  }

  lemma OneObservation(x: Arrival)
    requires x.record == MARK && x.receipt.time == 0
    ensures Gaps.Run(Observations([x])).tracker == HEARD_ONCE
  {
    ObservedOneMore([], x);
    assert [] + [x] == [x];
    assert Observations([]) == [];
  }

  lemma {:induction false} QuietTracker(cfg: Config, r: Recording, mon: Settings)
    requires r.core == NEW_CORE
    ensures HandleAll(cfg, r, QuietSession(mon).visits).core.tracker == HEARD_ONCE
  {
    RunSettles(cfg, r, QuietSession(mon).visits);
    OneArrival(cfg.dedup, mon);
    OneObservation(ArrivalAt(Heard(), LastRawId([Heard()]), 0));
  }

  lemma ControlIsHeard(cfg: Config, r: Recording, mon: Settings)
    ensures Handle(cfg, r, Kept(mon)).core.beat.lastDataAt == Some(LastHeard(mon))
  {
  }

  lemma {:induction false} QuietBeat(cfg: Config, r: Recording, mon: Settings)
    ensures HandleAll(cfg, r, QuietSession(mon).visits).core.beat.lastDataAt == Some(LastHeard(mon))
  {
    HandledLast(cfg, r, [Heard()], Kept(mon));
    assert [Heard()] + [Kept(mon)] == QuietSession(mon).visits;
    ControlIsHeard(cfg, HandleAll(cfg, r, [Heard()]), mon);
  }

  // ----- the monitor's part -----

  // The stream was heard once, at time zero, and the connection is not silent at the time of the checks.
  predicate Quiet(t: Task, mon: Settings) {
    && t.r.core.tracker == HEARD_ONCE
    && !Gaps.ConnectionSilent(t.r.core.beat, CheckTime(mon), mon.heartbeat)
    && Running(t.r.machine)
  }

  const SILENCE := Key(MARK_PRICE, 0)

  // A check finds the silence and suspends for on_gap.
  lemma FirstStretch(mon: Settings, w: World)
    requires Quiet(w.task, mon) && w.point.Resting? && w.monitor == NEW_MONITOR
    ensures var w1 := MonitorStep(mon, w, CheckTime(mon));
            && w1.task == w.task && w1.point.Suspended? && w1.point.pending.todo == []
            && w1.point.pending.newGaps != [] && w1.point.pending.at == CheckTime(mon)
            && w1.monitor.reported == {SILENCE}
  {
    HeardOnceIs(CheckTime(mon), mon.silence);
    var (m, p) := Begin(w.monitor, mon, HEARD_ONCE, w.task.r.core.beat, CheckTime(mon));
    assert KeyOf(p.todo[0]) == SILENCE;
  }

  // It goes on and degrades.
  lemma SecondStretch(mon: Settings, w: World)
    requires Quiet(w.task, mon) && w.point.Suspended?
    requires w.point.pending.todo == [] && w.point.pending.newGaps != []
    ensures var w1 := MonitorStep(mon, w, CheckTime(mon));
            && Quiet(w1.task, mon) && w1.point.Resting? && w1.monitor.reported == w.monitor.reported
            && w1.task.point == w.task.point
  {
  }

  // A second check finds nothing new, and leaves HEALTHY.
  lemma SecondCheck(mon: Settings, w: World)
    requires Quiet(w.task, mon) && w.point.Resting? && w.monitor.reported == {SILENCE}
    requires mon.staleness > mon.silence
    ensures var w1 := MonitorStep(mon, w, CheckTime(mon));
            w1.point.Resting? && w1.task.r.machine.state == Healthy
  {
    var now := CheckTime(mon);
    HeardOnceIs(now, mon.silence);
    var (m, p) := Begin(w.monitor, mon, HEARD_ONCE, w.task.r.core.beat, now);
    assert KeyOf(p.todo[0]) == SILENCE && p.todo[1..] == [];
    var rest := p.(todo := p.todo[1..]);
    assert Scan(m, p) == Scan(m, rest);
    assert IsHealthy(CheckOf(rest), mon.staleness);
  }

  // ----- the schedule -----

  function Steps(n: nat): seq<Tick> {
    seq(n, _ => RecorderTick)
  }

  lemma RecorderTurn(cfg: Config, mon: Settings, s: Session, n: nat)
    ensures Turn(cfg, mon, s, World(Alone(cfg, s, n), NEW_MONITOR, Resting), RecorderTick) ==
            World(Alone(cfg, s, n + 1), NEW_MONITOR, Resting)
  {
    AloneOneMore(cfg, s, n);
  }

  lemma {:induction false} OnlyRecorder(cfg: Config, mon: Settings, s: Session, n: nat)
    ensures Scheduled(cfg, mon, s, Steps(n)) == World(Alone(cfg, s, n), NEW_MONITOR, Resting)
  {
    if n > 0 {
      OnlyRecorder(cfg, mon, s, n - 1);
      ScheduledOneMore(cfg, mon, s, Steps(n - 1), RecorderTick);
      RecorderTurn(cfg, mon, s, n - 1);
      assert Steps(n) == Steps(n - 1) + [RecorderTick];
    }
  }

  lemma QuietTask(cfg: Config, mon: Settings) returns (n: nat)
    ensures Quiet(Alone(cfg, QuietSession(mon), n), mon)
    ensures Alone(cfg, QuietSession(mon), n).point == Between
  {
    var s := QuietSession(mon);
    var r := Recording(NEW_CORE, Started(NewMachine(HISTORY_LIMIT), s.at));
    n := AloneHandles(cfg, s);
    AloneIsSteady(cfg, s, n);
    QuietTracker(cfg, r, mon);
    QuietBeat(cfg, r, mon);
  }

  // The recorder has started, and with this tick a check ends and leaves HEALTHY.
  predicate ChecksHealthy(cfg: Config, mon: Settings, s: Session, ticks: seq<Tick>, now: int) {
    var w := Scheduled(cfg, mon, s, ticks);
    && !w.task.point.NotStarted?
    && MonitorStep(mon, w, now).point.Resting?
    && MonitorStep(mon, w, now).task.r.machine.state == Healthy
  }

  // The stream was known and silent when that check began.
  predicate SilentThen(cfg: Config, mon: Settings, s: Session, ticks: seq<Tick>, now: int, stream: Stream) {
    var (t, at) := SnapshotOf(Scheduled(cfg, mon, s, ticks), now);
    Gaps.Silent(t, stream, at, mon.silence)
  }

  /** With a laxer staleness limit there is a run, one mark price and a later control frame, in which a second
      check leaves HEALTHY although the stream is silent: its silence was reported by the first. */
  lemma SilenceCanHide(cfg: Config, mon: Settings) returns (s: Session, ticks: seq<Tick>, now: int)
    requires mon.staleness > mon.silence
    ensures ChecksHealthy(cfg, mon, s, ticks, now) && SilentThen(cfg, mon, s, ticks, now, MARK_PRICE)
  {
    s, now := QuietSession(mon), CheckTime(mon);
    var n := QuietTask(cfg, mon);
    OnlyRecorder(cfg, mon, s, n);
    var w := Scheduled(cfg, mon, s, Steps(n));
    FirstStretch(mon, w);
    ScheduledOneMore(cfg, mon, s, Steps(n), MonitorTick(now));
    var w1 := MonitorStep(mon, w, now);
    SecondStretch(mon, w1);
    ScheduledOneMore(cfg, mon, s, Steps(n) + [MonitorTick(now)], MonitorTick(now));
    SecondCheck(mon, MonitorStep(mon, w1, now));
    ticks := Steps(n) + [MonitorTick(now)] + [MonitorTick(now)];
    HeardOnceIs(now, mon.silence);
  }

  // In no run does a check leave HEALTHY while a stream it knew was silent.
  ghost predicate HidesNothing(cfg: Config, mon: Settings) {
    forall s, ticks, now, stream ::
      SilentThen(cfg, mon, s, ticks, now, stream) ==> !ChecksHealthy(cfg, mon, s, ticks, now)
  }

  /** Over all runs, checks hide nothing exactly when the staleness limit does not exceed the silence
      threshold. */
  lemma HidesNothingExactly(cfg: Config, mon: Settings)
    ensures HidesNothing(cfg, mon) <==> mon.staleness <= mon.silence
  {
    if mon.staleness <= mon.silence {
      forall s, ticks, now, stream | SilentThen(cfg, mon, s, ticks, now, stream)
        ensures !ChecksHealthy(cfg, mon, s, ticks, now)
      {
        if ChecksHealthy(cfg, mon, s, ticks, now) {
          HealthyChecksHideNothing(cfg, mon, s, ticks, now, stream);
        }
      }
    } else {
      var s, ticks, now := SilenceCanHide(cfg, mon);
      assert SilentThen(cfg, mon, s, ticks, now, MARK_PRICE);
    }
  }
}

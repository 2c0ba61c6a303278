/** The recorder and the monitor as two tasks over shared detectors and one state machine.

    The recorder yields at every sink call, the monitor at every on_gap call and between checks. A schedule
    says which task goes on next, and what the clock reads when a check begins. */
module Interleaving {
  import opened Prelude
  import opened Events
  import opened Sinks
  import opened RecorderStates
  import opened Recording
  import M = Monitoring

  // Everything one recorder run will meet.
  datatype Session = Session(visits: seq<Visit>, at: nat -> int, flushOk: bool)

  // Where the recorder is suspended.
  datatype Point =
    | NotStarted
    | Between
    | InRaw
    | InGap(k: nat, accepted: seq<MarketEvent>)
    | InMarket(count: nat)
    | InTraders(count: nat)
    | InFlush
    | Stopped

  // next is the frame being handled, or the next one to receive.
  datatype Task = Task(r: Recording, point: Point, next: nat)

  predicate InFrame(p: Point) {
    p.InRaw? || p.InGap? || p.InMarket? || p.InTraders?
  }

  predicate WellPlaced(s: Session, t: Task) {
    && t.next <= |s.visits|
    && (InFrame(t.point) ==> t.next < |s.visits|)
    && (t.point.InGap? || t.point.InMarket? || t.point.InTraders? ==> s.visits[t.next].frame.content.Data?)
    && (t.point.InGap? ==> t.point.k < |s.visits[t.next].frame.content.market|)
  }

  // Accepting up to the next gap write, or through the last event.
  datatype Paused =
    | AtGap(core: Core, k: nat, accepted: seq<MarketEvent>)
    | Through(core: Core, accepted: seq<MarketEvent>)

  function AcceptUntilGap(cfg: Config, a: Accepting, v: Visit, rawId: string, k: nat): (p: Paused)
    requires v.frame.content.Data? && k <= |v.frame.content.market|
    ensures p.AtGap? ==> k <= p.k < |v.frame.content.market|
    ensures p.core.metrics.received == a.core.metrics.received
    decreases |v.frame.content.market| - k
  {
    if k == |v.frame.content.market| then Through(a.core, a.accepted)
    else
      match Screen(cfg, a.core, EventAt(v, k))
      case Dropped(c) => AcceptUntilGap(cfg, a.(core := c), v, rawId, k + 1)
      case Passed(c, gap) =>
        if gap then AtGap(c, k, a.accepted)
        else
          var admitted := Admit(cfg, a.(core := c), EventAt(v, k), v.env.validateAt(k), rawId);
          AcceptUntilGap(cfg, admitted, v, rawId, k + 1)
  }

  // The id of the frame being handled.
  function CurrentId(c: Core, v: Visit): string {
    RawId(c.metrics.received, v.frame.receipt.time)
  }

  function FrameDone(t: Task, r: Recording): Task {
    Task(r, Between, t.next + 1)
  }

  function ToTraders(cfg: Config, t: Task, r: Recording, v: Visit): Task
    requires v.frame.content.Data?
  {
    var stamped := StampedTraders(v, CurrentId(r.core, v));
    if stamped == [] then FrameDone(t, FreshnessChecked(cfg, r, v.env))
    else Task(r.(core := Called(r.core, WriteTraders(stamped), v.env.tradersOk)), InTraders(|stamped|), t.next)
  }

  function ToMarket(cfg: Config, t: Task, r: Recording, accepted: seq<MarketEvent>, v: Visit): Task
    requires v.frame.content.Data?
  {
    if accepted == [] then ToTraders(cfg, t, r, v)
    else Task(r.(core := Called(r.core, WriteMarket(accepted), v.env.marketOk)), InMarket(|accepted|), t.next)
  }

  function GoOn(cfg: Config, t: Task, p: Paused, machine: Machine, v: Visit): Task
    requires v.frame.content.Data?
  {
    match p
    case AtGap(core, k, accepted) => Task(Recording(core, machine), InGap(k, accepted), t.next)
    case Through(core, accepted) => ToMarket(cfg, t, Recording(core, machine), accepted, v)
  }

  function AfterRaw(cfg: Config, t: Task, v: Visit): Task {
    if !v.env.rawOk then FrameDone(t, RawLost(t.r, v.env))
    else
      var r := t.r.(core := Archived(t.r.core));
      match v.frame.content
      case Unparseable => FrameDone(t, r.(core := Rejected(r.core)))
      case Control => FrameDone(t, r.(core := ControlSeen(Parsed(r.core))))
      case NotNormalizable => FrameDone(t, r.(core := Rejected(Parsed(r.core))))
      case Data(_, _) =>
        var a := Accepting(Parsed(r.core), []);
        GoOn(cfg, t, AcceptUntilGap(cfg, a, v, CurrentId(a.core, v), 0), r.machine, v)
  }

  // Accepting goes on with the event whose gap has been written.
  function AcceptPastGap(cfg: Config, c: Core, k: nat, accepted: seq<MarketEvent>, v: Visit): (p: Paused)
    requires v.frame.content.Data? && k < |v.frame.content.market|
    ensures p.AtGap? ==> p.k < |v.frame.content.market|
  {
    var rawId := CurrentId(c, v);
    AcceptUntilGap(
      cfg, Admit(cfg, Accepting(c, accepted), EventAt(v, k), v.env.validateAt(k), rawId), v, rawId, k + 1)
  }

  function AfterGap(cfg: Config, t: Task, v: Visit): Task
    requires t.point.InGap? && v.frame.content.Data? && t.point.k < |v.frame.content.market|
  {
    GoOn(cfg, t, AcceptPastGap(cfg, t.r.core, t.point.k, t.point.accepted, v), t.r.machine, v)
  }

  // From one suspension of the recorder to the next.
  function Step(cfg: Config, s: Session, t: Task): Task
    requires WellPlaced(s, t)
  {
    match t.point
    case NotStarted =>
      if Permitted(t.r.machine.state, Connecting)
      then Task(t.r.(machine := Started(t.r.machine, s.at)), Between, t.next)
      else Task(t.r.(machine := t.r.machine.(refused := true)), Stopped, t.next)
    case Between =>
      if t.next < |s.visits| then Task(t.r.(core := Submitted(t.r.core, s.visits[t.next])), InRaw, t.next)
      else Task(t.r.(core := Called(t.r.core, Flush, s.flushOk)), InFlush, t.next)
    case InRaw => AfterRaw(cfg, t, s.visits[t.next])
    case InGap(_, _) => AfterGap(cfg, t, s.visits[t.next])
    case InMarket(count) =>
      var v := s.visits[t.next];
      if v.env.marketOk then ToTraders(cfg, t, MarketKept(t.r, count), v) else FrameDone(t, MarketLost(t.r, v.env))
    case InTraders(count) => FrameDone(t, TradersReturned(cfg, t.r, count, s.visits[t.next].env))
    case InFlush => t.(point := Stopped)
    case Stopped => t
  }

  lemma GoOnIsWellPlaced(cfg: Config, s: Session, t: Task, p: Paused, machine: Machine)
    requires t.next < |s.visits| && s.visits[t.next].frame.content.Data?
    requires p.AtGap? ==> p.k < |s.visits[t.next].frame.content.market|
    ensures WellPlaced(s, GoOn(cfg, t, p, machine, s.visits[t.next]))
  {
  }

  lemma AfterRawIsWellPlaced(cfg: Config, s: Session, t: Task)
    requires WellPlaced(s, t) && t.point.InRaw?
    ensures WellPlaced(s, AfterRaw(cfg, t, s.visits[t.next]))
  {
    var v := s.visits[t.next];
    if v.env.rawOk && v.frame.content.Data? {
      var a := Accepting(Parsed(Archived(t.r.core)), []);
      GoOnIsWellPlaced(cfg, s, t, AcceptUntilGap(cfg, a, v, CurrentId(a.core, v), 0), t.r.machine);
    }
  }

  lemma AfterGapIsWellPlaced(cfg: Config, s: Session, t: Task)
    requires WellPlaced(s, t) && t.point.InGap?
    ensures WellPlaced(s, AfterGap(cfg, t, s.visits[t.next]))
  {
    var p := AcceptPastGap(cfg, t.r.core, t.point.k, t.point.accepted, s.visits[t.next]);
    GoOnIsWellPlaced(cfg, s, t, p, t.r.machine);
  }

  lemma StepIsWellPlaced(cfg: Config, s: Session, t: Task)
    requires WellPlaced(s, t)
    ensures WellPlaced(s, Step(cfg, s, t))
  {
    match t.point
    case InRaw => AfterRawIsWellPlaced(cfg, s, t);
    case InGap(_, _) => AfterGapIsWellPlaced(cfg, s, t);
    case _ =>
  }

  // ----- the two tasks together -----

  datatype MonitorPoint = Resting | Suspended(pending: M.Pending)

  datatype World = World(task: Task, monitor: M.Monitor, point: MonitorPoint)

  datatype Tick = RecorderTick | MonitorTick(now: int)

  // The monitor's next stretch: from rest into a check, or on from an on_gap call.
  function MonitorGoesOn(w: World, next: M.Next, limit: int): World {
    match next
    case Waiting(m, p) => w.(monitor := m, point := Suspended(p))
    case Finished(m, c) =>
      var machine := M.Reflected(w.task.r.machine, c, limit);
      World(w.task.(r := w.task.r.(machine := machine)), m, Resting)
  }

  function MonitorStep(cfg: M.Settings, w: World, now: int): World {
    match w.point
    case Resting =>
      var (m, p) := M.Begin(w.monitor, cfg, w.task.r.core.tracker, w.task.r.core.beat, now);
      MonitorGoesOn(w, M.Scan(m, p), cfg.staleness)
    case Suspended(p) => MonitorGoesOn(w, M.Scan(w.monitor, p), cfg.staleness)
  }

  function Turn(cfg: Config, mon: M.Settings, s: Session, w: World, tick: Tick): World
    requires WellPlaced(s, w.task)
  {
    match tick
    case RecorderTick => w.(task := Step(cfg, s, w.task))
    case MonitorTick(now) => MonitorStep(mon, w, now)
  }

  lemma TurnIsWellPlaced(cfg: Config, mon: M.Settings, s: Session, w: World, tick: Tick)
    requires WellPlaced(s, w.task)
    ensures WellPlaced(s, Turn(cfg, mon, s, w, tick).task)
  {
    if tick.RecorderTick? {
      StepIsWellPlaced(cfg, s, w.task);
    }
  }

  const NEW_TASK := Task(Recording(NEW_CORE, NewMachine(HISTORY_LIMIT)), NotStarted, 0)

  const NEW_WORLD := World(NEW_TASK, M.NEW_MONITOR, Resting)

  function Scheduled(cfg: Config, mon: M.Settings, s: Session, ticks: seq<Tick>): (w: World)
    ensures WellPlaced(s, w.task)
  {
    if ticks == [] then NEW_WORLD
    else
      var before := Scheduled(cfg, mon, s, ticks[..|ticks| - 1]);
      TurnIsWellPlaced(cfg, mon, s, before, ticks[|ticks| - 1]);
      Turn(cfg, mon, s, before, ticks[|ticks| - 1])
  }

  // The recorder on its own, for n steps.
  function Alone(cfg: Config, s: Session, n: nat): (t: Task)
    ensures WellPlaced(s, t)
  {
    if n == 0 then NEW_TASK
    else
      StepIsWellPlaced(cfg, s, Alone(cfg, s, n - 1));
      Step(cfg, s, Alone(cfg, s, n - 1))
  }

  function RecorderTicks(ticks: seq<Tick>): nat {
    if ticks == [] then 0
    else RecorderTicks(ticks[..|ticks| - 1]) + (if ticks[|ticks| - 1].RecorderTick? then 1 else 0)
  }

  // ----- the state machine -----

  // Never a refused transition; HEALTHY or DEGRADED from the start on.
  predicate Steady(m: Machine, started: bool) {
    && !m.refused
    && (if started then m.state == Healthy || m.state == Degraded else m.state == Starting)
  }

  predicate SteadyTask(t: Task) {
    Steady(t.r.machine, !t.point.NotStarted?)
  }

  lemma DegradingIsSteady(m: Machine, at: int, reason: Reason)
    requires Steady(m, true)
    ensures Steady(Degrading(m, at, reason), true)
  {
  }

  lemma FreshnessIsSteady(cfg: Config, r: Recording, env: Env)
    requires Steady(r.machine, true)
    ensures Steady(FreshnessChecked(cfg, r, env).machine, true)
  {
    DegradingIsSteady(r.machine, env.moveAt, NoData);
  }

  lemma ToTradersIsSteady(cfg: Config, t: Task, r: Recording, v: Visit)
    requires v.frame.content.Data? && Steady(r.machine, true)
    ensures SteadyTask(ToTraders(cfg, t, r, v))
  {
    FreshnessIsSteady(cfg, r, v.env);
  }

  lemma GoOnIsSteady(cfg: Config, t: Task, p: Paused, machine: Machine, v: Visit)
    requires v.frame.content.Data? && Steady(machine, true)
    ensures SteadyTask(GoOn(cfg, t, p, machine, v))
  {
    if p.Through? {
      ToTradersIsSteady(cfg, t, Recording(p.core, machine), v);
    }
  }

  lemma AfterRawIsSteady(cfg: Config, t: Task, v: Visit)
    requires Steady(t.r.machine, true)
    ensures SteadyTask(AfterRaw(cfg, t, v))
  {
    DegradingIsSteady(t.r.machine, v.env.failedAt, RawWriteFailed);
    if v.env.rawOk && v.frame.content.Data? {
      var a := Accepting(Parsed(Archived(t.r.core)), []);
      GoOnIsSteady(cfg, t, AcceptUntilGap(cfg, a, v, CurrentId(a.core, v), 0), t.r.machine, v);
    }
  }

  lemma AfterGapIsSteady(cfg: Config, t: Task, v: Visit)
    requires t.point.InGap? && v.frame.content.Data? && t.point.k < |v.frame.content.market|
    requires Steady(t.r.machine, true)
    ensures SteadyTask(AfterGap(cfg, t, v))
  {
    GoOnIsSteady(cfg, t, AcceptPastGap(cfg, t.r.core, t.point.k, t.point.accepted, v), t.r.machine, v);
  }

  lemma TradersReturnedIsSteady(cfg: Config, r: Recording, count: nat, env: Env)
    requires Steady(r.machine, true)
    ensures Steady(TradersReturned(cfg, r, count, env).machine, true)
  {
    DegradingIsSteady(r.machine, env.failedAt, TraderWriteFailed);
    var m := r.core.metrics;
    var settled :=
      if env.tradersOk then r.(core := r.core.(metrics := m.(tradersWritten := m.tradersWritten + count)))
      else Recording(Lost(r.core), Degrading(r.machine, env.failedAt, TraderWriteFailed));
    FreshnessIsSteady(cfg, settled, env);
  }

  lemma StartIsSteady(m: Machine, at: nat -> int)
    requires Steady(m, false)
    ensures Steady(Started(m, at), true)
  {
    var m1 := Advance(m, Connecting, at(0), OpeningSource);
    assert m1.state == Connecting && !m1.refused;
    var m2 := Advance(m1, Connected, at(1), SourceOpen);
    assert m2.state == Connected && !m2.refused;
    var m3 := Advance(m2, Subscribing, at(2), SubscribingNow);
    assert m3.state == Subscribing && !m3.refused;
  }

  lemma StepIsSteady(cfg: Config, s: Session, t: Task)
    requires WellPlaced(s, t) && SteadyTask(t)
    ensures SteadyTask(Step(cfg, s, t))
  {
    match t.point
    case NotStarted => StartIsSteady(t.r.machine, s.at);
    case Between =>
    case InRaw => AfterRawIsSteady(cfg, t, s.visits[t.next]);
    case InGap(_, _) => AfterGapIsSteady(cfg, t, s.visits[t.next]);
    case InMarket(count) =>
      DegradingIsSteady(t.r.machine, s.visits[t.next].env.failedAt, MarketWriteFailed);
      ToTradersIsSteady(cfg, t, MarketKept(t.r, count), s.visits[t.next]);
    case InTraders(count) => TradersReturnedIsSteady(cfg, t.r, count, s.visits[t.next].env);
    case InFlush =>
    case Stopped =>
  }

  lemma MonitorIsSteady(cfg: M.Settings, w: World, now: int)
    requires SteadyTask(w.task)
    ensures SteadyTask(MonitorStep(cfg, w, now).task)
  {
  }

  /** Over every interleaving, no undeclared transition is ever attempted, and from the moment the recorder
      has started the state is HEALTHY or DEGRADED. */
  lemma {:induction false} MachineIsSteady(cfg: Config, mon: M.Settings, s: Session, ticks: seq<Tick>)
    ensures SteadyTask(Scheduled(cfg, mon, s, ticks).task)
  {
    if ticks != [] {
      var front, tick := ticks[..|ticks| - 1], ticks[|ticks| - 1];
      MachineIsSteady(cfg, mon, s, front);
      var w := Scheduled(cfg, mon, s, front);
      match tick
      case RecorderTick => StepIsSteady(cfg, s, w.task);
      case MonitorTick(now) => MonitorIsSteady(mon, w, now);
    }
  }

  // ----- non-interference -----

  // Everything but the state machine agrees.
  predicate Agree(a: Task, b: Task) {
    a.r.core == b.r.core && a.point == b.point && a.next == b.next
  }

  lemma AgreeToTraders(cfg: Config, a: Task, b: Task, r: Recording, r': Recording, v: Visit)
    requires v.frame.content.Data? && r.core == r'.core && a.next == b.next
    ensures Agree(ToTraders(cfg, a, r, v), ToTraders(cfg, b, r', v))
  {
  }

  lemma AgreeGoOn(cfg: Config, a: Task, b: Task, p: Paused, v: Visit)
    requires v.frame.content.Data? && a.next == b.next
    ensures Agree(GoOn(cfg, a, p, a.r.machine, v), GoOn(cfg, b, p, b.r.machine, v))
  {
    if p.Through? {
      AgreeToTraders(cfg, a, b, Recording(p.core, a.r.machine), Recording(p.core, b.r.machine), v);
    }
  }

  lemma AgreeAfterRaw(cfg: Config, a: Task, b: Task, v: Visit)
    requires Agree(a, b)
    ensures Agree(AfterRaw(cfg, a, v), AfterRaw(cfg, b, v))
  {
    if v.env.rawOk && v.frame.content.Data? {
      var start := Accepting(Parsed(Archived(a.r.core)), []);
      AgreeGoOn(cfg, a, b, AcceptUntilGap(cfg, start, v, CurrentId(start.core, v), 0), v);
    }
  }

  lemma AgreeAfterGap(cfg: Config, a: Task, b: Task, v: Visit)
    requires Agree(a, b) && a.point.InGap? && v.frame.content.Data? && a.point.k < |v.frame.content.market|
    ensures Agree(AfterGap(cfg, a, v), AfterGap(cfg, b, v))
  {
    AgreeGoOn(cfg, a, b, AcceptPastGap(cfg, a.r.core, a.point.k, a.point.accepted, v), v);
  }

  // A step does not look at the state machine, except to see whether it may start.
  lemma AgreeStep(cfg: Config, s: Session, a: Task, b: Task)
    requires WellPlaced(s, a) && WellPlaced(s, b) && Agree(a, b) && SteadyTask(a) && SteadyTask(b)
    ensures Agree(Step(cfg, s, a), Step(cfg, s, b))
  {
    match a.point
    case NotStarted =>
    case Between =>
    case InRaw => AgreeAfterRaw(cfg, a, b, s.visits[a.next]);
    case InGap(_, _) => AgreeAfterGap(cfg, a, b, s.visits[a.next]);
    case InMarket(count) =>
      AgreeToTraders(cfg, a, b, MarketKept(a.r, count), MarketKept(b.r, count), s.visits[a.next]);
    case InTraders(count) =>
    case InFlush =>
    case Stopped =>
  }

  lemma NewTaskIsSteady()
    ensures SteadyTask(NEW_TASK)
  {
  }

  lemma AloneOneMore(cfg: Config, s: Session, n: nat)
    ensures Alone(cfg, s, n + 1) == Step(cfg, s, Alone(cfg, s, n))
  {
  }

  lemma AloneStaysSteady(cfg: Config, s: Session, n: nat)
    requires SteadyTask(Alone(cfg, s, n))
    ensures SteadyTask(Alone(cfg, s, n + 1))
  {
    StepIsSteady(cfg, s, Alone(cfg, s, n));
    AloneOneMore(cfg, s, n);
  }

  lemma {:induction false} AloneIsSteady(cfg: Config, s: Session, n: nat)
    ensures SteadyTask(Alone(cfg, s, n))
  {
    if n == 0 {
      NewTaskIsSteady();
    } else {
      AloneIsSteady(cfg, s, n - 1);
      AloneStaysSteady(cfg, s, n - 1);
    }
  }

  lemma {:induction false} ScheduledOneMore(cfg: Config, mon: M.Settings, s: Session, front: seq<Tick>, tick: Tick)
    ensures Scheduled(cfg, mon, s, front + [tick]) == Turn(cfg, mon, s, Scheduled(cfg, mon, s, front), tick)
  {
    assert (front + [tick])[..|front|] == front;
  }

  lemma {:induction false} RecorderTicksOneMore(front: seq<Tick>, tick: Tick)
    ensures RecorderTicks(front + [tick]) == RecorderTicks(front) + if tick.RecorderTick? then 1 else 0
  {
    assert (front + [tick])[..|front|] == front;
  }

  lemma AgreeAlone(cfg: Config, s: Session, t: Task, n: nat)
    requires WellPlaced(s, t) && SteadyTask(t) && Agree(t, Alone(cfg, s, n))
    ensures Agree(Step(cfg, s, t), Alone(cfg, s, n + 1))
  {
    AloneIsSteady(cfg, s, n);
    AgreeStep(cfg, s, t, Alone(cfg, s, n));
    AloneOneMore(cfg, s, n);
  }

  // The monitor moves nothing of the recorder but its state machine.
  lemma MonitorAgrees(mon: M.Settings, w: World, now: int, t: Task)
    requires Agree(w.task, t)
    ensures Agree(MonitorStep(mon, w, now).task, t)
  {
  }

  predicate Undisturbed(cfg: Config, mon: M.Settings, s: Session, ticks: seq<Tick>, n: nat) {
    Agree(Scheduled(cfg, mon, s, ticks).task, Alone(cfg, s, n))
  }

  lemma RecorderTickAgrees(cfg: Config, mon: M.Settings, s: Session, front: seq<Tick>, tick: Tick, n: nat, more: nat)
    requires Undisturbed(cfg, mon, s, front, n) && tick.RecorderTick? && more == n + 1
    ensures Undisturbed(cfg, mon, s, front + [tick], more)
  {
    MachineIsSteady(cfg, mon, s, front);
    AgreeAlone(cfg, s, Scheduled(cfg, mon, s, front).task, n);
    ScheduledOneMore(cfg, mon, s, front, tick);
  }

  lemma MonitorTickAgrees(cfg: Config, mon: M.Settings, s: Session, front: seq<Tick>, tick: Tick, n: nat, more: nat)
    requires Undisturbed(cfg, mon, s, front, n) && tick.MonitorTick? && more == n
    ensures Undisturbed(cfg, mon, s, front + [tick], more)
  {
    ScheduledOneMore(cfg, mon, s, front, tick);
    MonitorAgrees(mon, Scheduled(cfg, mon, s, front), tick.now, Alone(cfg, s, n));
  }

  /** Over every interleaving, the recorder has recorded exactly what it would have recorded, and stands
      exactly where it would stand, after as many steps with no monitor at all. */
  lemma {:induction false} MonitorDoesNotInterfere(cfg: Config, mon: M.Settings, s: Session, ticks: seq<Tick>)
    ensures Agree(Scheduled(cfg, mon, s, ticks).task, Alone(cfg, s, RecorderTicks(ticks)))
  {
    var holds := front => Undisturbed(cfg, mon, s, front, RecorderTicks(front));
    assert holds([]);
    forall front, tick | holds(front)
      ensures holds(front + [tick])
    {
      RecorderTicksOneMore(front, tick);
      var n, more := RecorderTicks(front), RecorderTicks(front + [tick]);
      if tick.RecorderTick? {
        RecorderTickAgrees(cfg, mon, s, front, tick, n, more);
      } else {
        MonitorTickAgrees(cfg, mon, s, front, tick, n, more);
      }
    }
    Growing(ticks, holds);
  }
}

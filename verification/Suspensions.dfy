/** Where the recorder gives way to the monitor: in one sink call at a time, the last it made. */
module Suspensions {
  import opened Events
  import opened Sinks
  import opened RecorderStates
  import opened Recording
  import opened Interleaving
  import opened SilenceReporting
  import M = Monitoring

  // The call the recorder is suspended in.
  predicate WaitsIn(p: Point, c: Call) {
    match p
    case InRaw => c.WriteRaw?
    case InGap(_, _) => c.WriteGap?
    case InMarket(count) => c.WriteMarket? && |c.market| == count
    case InTraders(count) => c.WriteTraders? && |c.traders| == count
    case InFlush => c.Flush?
    case _ => false
  }

  predicate Calling(p: Point) {
    InFrame(p) || p.InFlush?
  }

  // These calls and one more.
  predicate OneMoreCall(before: seq<Outcome>, after: seq<Outcome>) {
    |after| == |before| + 1 && after[..|before|] == before
  }

  // One call was made and is awaited; or none was made, and none is.
  predicate OneCall(before: seq<Outcome>, after: Task) {
    var calls := after.r.core.calls;
    if Calling(after.point) then OneMoreCall(before, calls) && WaitsIn(after.point, calls[|before|].call)
    else calls == before
  }

  // ----- acceptance up to the next gap -----

  predicate OneGap(before: seq<Outcome>, p: Paused) {
    if p.Through? then p.core.calls == before
    else OneMoreCall(before, p.core.calls) && p.core.calls[|before|].call.WriteGap?
  }

  lemma Onward(cfg: Config, a: Accepting, v: Visit, rawId: string, k: nat) returns (pauses: bool, next: Accepting)
    requires v.frame.content.Data? && k < |v.frame.content.market|
    ensures pauses ==> OneGap(a.core.calls, AcceptUntilGap(cfg, a, v, rawId, k))
    ensures !pauses ==>
              && AcceptUntilGap(cfg, a, v, rawId, k) == AcceptUntilGap(cfg, next, v, rawId, k + 1)
              && next.core.calls == a.core.calls
  {
    match Screen(cfg, a.core, EventAt(v, k))
    case Dropped(c) => pauses, next := false, a.(core := c);
    case Passed(c, gap) =>
      pauses, next := gap, Admit(cfg, a.(core := c), EventAt(v, k), v.env.validateAt(k), rawId);
  }

  lemma RunOnward(run: (Accepting, nat) -> Paused, cfg: Config, a: Accepting, v: Visit, rawId: string, k: nat)
    returns (pauses: bool, next: Accepting)
    requires v.frame.content.Data? && k < |v.frame.content.market| && RunsToGap(run, cfg, v, rawId)
    ensures pauses ==> OneGap(a.core.calls, run(a, k))
    ensures !pauses ==> run(a, k) == run(next, k + 1) && next.core.calls == a.core.calls
  {
    pauses, next := Onward(cfg, a, v, rawId, k);
  }

  lemma {:induction false} RunMakesOneGap(
    run: (Accepting, nat) -> Paused, cfg: Config, a: Accepting, v: Visit, rawId: string, k: nat)
    requires v.frame.content.Data? && k <= |v.frame.content.market| && RunsToGap(run, cfg, v, rawId)
    ensures OneGap(a.core.calls, run(a, k))
    decreases |v.frame.content.market| - k
  {
    if k == |v.frame.content.market| {
      RunEnds(run, cfg, a, v, rawId);
    } else {
      var pauses, next := RunOnward(run, cfg, a, v, rawId, k);
      if !pauses {
        RunMakesOneGap(run, cfg, next, v, rawId, k + 1);
      }
    }
  }

  lemma {:induction false} PauseMakesOneGap(cfg: Config, a: Accepting, v: Visit, rawId: string, k: nat)
    requires v.frame.content.Data? && k <= |v.frame.content.market|
    ensures OneGap(a.core.calls, AcceptUntilGap(cfg, a, v, rawId, k))
  {
    var n := |v.frame.content.market|;
    var run := (b: Accepting, i: nat) =>
      if i <= n then AcceptUntilGap(cfg, b, v, rawId, i) else Through(b.core, b.accepted);
    RunMakesOneGap(run, cfg, a, v, rawId, k);
  }

  // ----- steps -----

  lemma FreshnessMakesNoCall(cfg: Config, r: Recording, env: Env)
    ensures FreshnessChecked(cfg, r, env).core == r.core
  {
  }

  lemma ToTradersMakesOne(cfg: Config, t: Task, r: Recording, v: Visit)
    requires v.frame.content.Data?
    ensures OneCall(r.core.calls, ToTraders(cfg, t, r, v))
  {
    FreshnessMakesNoCall(cfg, r, v.env);
  }

  lemma GoOnMakesOne(cfg: Config, t: Task, p: Paused, machine: Machine, v: Visit, before: seq<Outcome>)
    requires v.frame.content.Data? && OneGap(before, p)
    ensures OneCall(before, GoOn(cfg, t, p, machine, v))
  {
    if p.Through? {
      ToTradersMakesOne(cfg, t, Recording(p.core, machine), v);
    }
  }

  lemma AfterRawMakesOne(cfg: Config, t: Task, v: Visit)
    ensures OneCall(t.r.core.calls, AfterRaw(cfg, t, v))
  {
    if v.env.rawOk && v.frame.content.Data? {
      var a := Accepting(Parsed(Archived(t.r.core)), []);
      PauseMakesOneGap(cfg, a, v, CurrentId(a.core, v), 0);
      var p := AcceptUntilGap(cfg, a, v, CurrentId(a.core, v), 0);
      GoOnMakesOne(cfg, t, p, t.r.machine, v, t.r.core.calls);
    }
  }

  lemma PastGapMakesOne(cfg: Config, c: Core, k: nat, accepted: seq<MarketEvent>, v: Visit)
    requires v.frame.content.Data? && k < |v.frame.content.market|
    ensures OneGap(c.calls, AcceptPastGap(cfg, c, k, accepted, v))
  {
    var rawId := CurrentId(c, v);
    var a := Admit(cfg, Accepting(c, accepted), EventAt(v, k), v.env.validateAt(k), rawId);
    PauseMakesOneGap(cfg, a, v, rawId, k + 1);
  }

  lemma AfterGapMakesOne(cfg: Config, t: Task, v: Visit)
    requires t.point.InGap? && v.frame.content.Data? && t.point.k < |v.frame.content.market|
    ensures OneCall(t.r.core.calls, AfterGap(cfg, t, v))
  {
    PastGapMakesOne(cfg, t.r.core, t.point.k, t.point.accepted, v);
    var p := AcceptPastGap(cfg, t.r.core, t.point.k, t.point.accepted, v);
    GoOnMakesOne(cfg, t, p, t.r.machine, v, t.r.core.calls);
  }

  lemma TradersReturnedMakesNone(cfg: Config, r: Recording, count: nat, env: Env)
    ensures TradersReturned(cfg, r, count, env).core.calls == r.core.calls
  {
  }

  /** One step of the recorder makes at most one sink call, its last act; it is then suspended in that call. */
  lemma StepMakesOneCall(cfg: Config, s: Session, t: Task)
    requires WellPlaced(s, t) && !t.point.Stopped?
    ensures OneCall(t.r.core.calls, Step(cfg, s, t))
  {
    match t.point
    case NotStarted =>
    case Between =>
    case InRaw => AfterRawMakesOne(cfg, t, s.visits[t.next]);
    case InGap(_, _) => AfterGapMakesOne(cfg, t, s.visits[t.next]);
    case InMarket(count) => ToTradersMakesOne(cfg, t, MarketKept(t.r, count), s.visits[t.next]);
    case InTraders(count) => TradersReturnedMakesNone(cfg, t.r, count, s.visits[t.next].env);
    case InFlush =>
  }

  // Suspended in the last call made.
  predicate InLastCall(t: Task) {
    var calls := t.r.core.calls;
    Calling(t.point) ==> calls != [] && WaitsIn(t.point, calls[|calls| - 1].call)
  }

  lemma StepIsAwaited(cfg: Config, s: Session, t: Task)
    requires WellPlaced(s, t) && InLastCall(t)
    ensures InLastCall(Step(cfg, s, t))
  {
    if !t.point.Stopped? {
      StepMakesOneCall(cfg, s, t);
    }
  }

  lemma MonitorMakesNoCall(mon: M.Settings, w: World, now: int)
    ensures var t := MonitorStep(mon, w, now).task; t.r.core == w.task.r.core && t.point == w.task.point
  {
  }

  /** Over every interleaving, the recorder is suspended in the last sink call it made, if in any: whatever the
      monitor does in between, no call is made while another is awaited. */
  lemma {:induction false} EveryCallIsAwaited(cfg: Config, mon: M.Settings, s: Session, ticks: seq<Tick>)
    ensures InLastCall(Scheduled(cfg, mon, s, ticks).task)
  {
    if ticks != [] {
      var front, tick := ticks[..|ticks| - 1], ticks[|ticks| - 1];
      EveryCallIsAwaited(cfg, mon, s, front);
      var w := Scheduled(cfg, mon, s, front);
      match tick
      case RecorderTick => StepIsAwaited(cfg, s, w.task);
      case MonitorTick(now) => MonitorMakesNoCall(mon, w, now);
    }
  }
}

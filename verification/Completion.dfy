/** Stepping through a run reaches exactly what the recorder computes in one go, so that every completed
    interleaving with the monitor records exactly the uninterrupted run. */
module Completion {
  import opened Events
  import opened Sinks
  import opened RecorderStates
  import opened Recording
  import opened Accounts
  import opened Interleaving
  import M = Monitoring

  // n applications of a step function.
  function Iterate(f: Task -> Task, t: Task, n: nat): Task {
    if n == 0 then t else f(Iterate(f, t, n - 1))
  }

  lemma {:induction false} IterateAdd(f: Task -> Task, t: Task, m: nat, n: nat)
    ensures Iterate(f, Iterate(f, t, m), n) == Iterate(f, t, m + n)
  {
    if n > 0 {
      IterateAdd(f, t, m, n - 1);
    }
  }

  // Some number of steps leads from one task to the other.
  ghost predicate Reaches(f: Task -> Task, from: Task, to: Task) {
    exists n :: Iterate(f, from, n) == to
  }

  lemma ReachesNow(f: Task -> Task, t: Task)
    ensures Reaches(f, t, t)
  {
    assert Iterate(f, t, 0) == t;
  }

  lemma ReachesNext(f: Task -> Task, t: Task)
    ensures Reaches(f, t, f(t))
  {
    assert Iterate(f, t, 0) == t;
    assert Iterate(f, t, 1) == f(t);
  }

  lemma ReachesOn(f: Task -> Task, from: Task, mid: Task, to: Task)
    requires Reaches(f, from, mid) && Reaches(f, mid, to)
    ensures Reaches(f, from, to)
  {
    var m :| Iterate(f, from, m) == mid;
    var n :| Iterate(f, mid, n) == to;
    IterateAdd(f, from, m, n);
  }

  lemma ReachesAfter(f: Task -> Task, from: Task, to: Task)
    requires Reaches(f, f(from), to)
    ensures Reaches(f, from, to)
  {
    ReachesNext(f, from);
    ReachesOn(f, from, f(from), to);
  }

  // f is the recorder's step. Proofs below work with f, and look at the step only where it is named.
  ghost predicate Follows(f: Task -> Task, cfg: Config, s: Session) {
    forall t {:trigger Step(cfg, s, t)} :: WellPlaced(s, t) ==> f(t) == Step(cfg, s, t)
  }

  lemma {:induction false} FixedPoint(f: Task -> Task, t: Task, n: nat)
    requires f(t) == t
    ensures Iterate(f, t, n) == t
  {
    if n > 0 {
      FixedPoint(f, t, n - 1);
    }
  }

  // ----- acceptance -----

  // Where acceptance pauses, what remains of it.
  function Resumed(cfg: Config, p: Paused, v: Visit, rawId: string): Accepting
    requires v.frame.content.Data? && (p.AtGap? ==> p.k < |v.frame.content.market|)
  {
    match p
    case Through(core, accepted) => Accepting(core, accepted)
    case AtGap(core, k, accepted) =>
      AcceptFrom(
        cfg, Admit(cfg, Accepting(core, accepted), EventAt(v, k), v.env.validateAt(k), rawId), v, rawId, k + 1)
  }

  // Acceptance from event k on, paused at the first gap write and resumed.
  function WholeOf(cfg: Config, a: Accepting, v: Visit, rawId: string, k: nat): Accepting
    requires v.frame.content.Data? && k <= |v.frame.content.market|
  {
    Resumed(cfg, AcceptUntilGap(cfg, a, v, rawId, k), v, rawId)
  }

  predicate PausesAt(cfg: Config, a: Accepting, v: Visit, k: nat)
    requires v.frame.content.Data? && k < |v.frame.content.market|
  {
    var screened := Screen(cfg, a.core, EventAt(v, k));
    screened.Passed? && screened.gap
  }

  function NextAccepting(cfg: Config, a: Accepting, v: Visit, rawId: string, k: nat): Accepting
    requires v.frame.content.Data? && k < |v.frame.content.market|
  {
    AcceptOne(cfg, a, EventAt(v, k), v.env.validateAt(k), rawId)
  }

  lemma UnpausedResumes(cfg: Config, a: Accepting, v: Visit, rawId: string, k: nat, next: Accepting)
    requires v.frame.content.Data? && k < |v.frame.content.market| && !PausesAt(cfg, a, v, k)
    requires next == NextAccepting(cfg, a, v, rawId, k)
    ensures AcceptUntilGap(cfg, a, v, rawId, k) == AcceptUntilGap(cfg, next, v, rawId, k + 1)
  {
  }

  lemma PausedHere(cfg: Config, a: Accepting, v: Visit, rawId: string, k: nat) returns (core: Core)
    requires v.frame.content.Data? && k < |v.frame.content.market| && PausesAt(cfg, a, v, k)
    ensures AcceptUntilGap(cfg, a, v, rawId, k) == AtGap(core, k, a.accepted)
    ensures Admit(cfg, Accepting(core, a.accepted), EventAt(v, k), v.env.validateAt(k), rawId) ==
            NextAccepting(cfg, a, v, rawId, k)
  {
    core := Screen(cfg, a.core, EventAt(v, k)).core;
  }

  lemma ResumedFrom(cfg: Config, p: Paused, v: Visit, rawId: string, next: Accepting)
    requires v.frame.content.Data? && p.AtGap? && p.k < |v.frame.content.market|
    requires next == Admit(cfg, Accepting(p.core, p.accepted), EventAt(v, p.k), v.env.validateAt(p.k), rawId)
    ensures Resumed(cfg, p, v, rawId) == AcceptFrom(cfg, next, v, rawId, p.k + 1)
  {
  }

  lemma PausedWhole(cfg: Config, a: Accepting, v: Visit, rawId: string, k: nat, next: Accepting)
    requires v.frame.content.Data? && k < |v.frame.content.market| && PausesAt(cfg, a, v, k)
    requires next == NextAccepting(cfg, a, v, rawId, k)
    ensures WholeOf(cfg, a, v, rawId, k) == AcceptFrom(cfg, next, v, rawId, k + 1)
  {
    var core := PausedHere(cfg, a, v, rawId, k);
    ResumedFrom(cfg, AtGap(core, k, a.accepted), v, rawId, next);
  }

  lemma UnpausedWhole(cfg: Config, a: Accepting, v: Visit, rawId: string, k: nat, next: Accepting)
    requires v.frame.content.Data? && k < |v.frame.content.market| && !PausesAt(cfg, a, v, k)
    requires next == NextAccepting(cfg, a, v, rawId, k)
    ensures WholeOf(cfg, a, v, rawId, k) == WholeOf(cfg, next, v, rawId, k + 1)
  {
    UnpausedResumes(cfg, a, v, rawId, k, next);
  }

  lemma OneMore(cfg: Config, a: Accepting, v: Visit, rawId: string, k: nat) returns (next: Accepting)
    requires v.frame.content.Data? && k < |v.frame.content.market|
    ensures AcceptFrom(cfg, a, v, rawId, k) == AcceptFrom(cfg, next, v, rawId, k + 1)
    ensures || WholeOf(cfg, a, v, rawId, k) == AcceptFrom(cfg, next, v, rawId, k + 1)
            || WholeOf(cfg, a, v, rawId, k) == WholeOf(cfg, next, v, rawId, k + 1)
  {
    next := NextAccepting(cfg, a, v, rawId, k);
    AcceptFromStep(cfg, a, v, rawId, k, next);
    if PausesAt(cfg, a, v, k) {
      PausedWhole(cfg, a, v, rawId, k, next);
    } else {
      UnpausedWhole(cfg, a, v, rawId, k, next);
    }
  }

  // At step i, the computation goes on from c, and the one that may pause pauses here or also goes on from c.
  predicate GoesOn<T(==)>(whole: (T, nat) -> T, resumed: (T, nat) -> T, b: T, i: nat, c: T) {
    && whole(b, i) == whole(c, i + 1)
    && (resumed(b, i) == whole(c, i + 1) || resumed(b, i) == resumed(c, i + 1))
  }

  ghost predicate Continues<T(!new)>(whole: (T, nat) -> T, resumed: (T, nat) -> T, b: T, i: nat) {
    exists c :: GoesOn(whole, resumed, b, i, c)
  }

  lemma {:induction false} PausesAgree<T(!new)>(
    whole: (T, nat) -> T, resumed: (T, nat) -> T, n: nat, a: T, k: nat)
    requires k <= n
    requires forall b, i: nat | i < n :: Continues(whole, resumed, b, i)
    requires forall b :: resumed(b, n) == whole(b, n)
    ensures resumed(a, k) == whole(a, k)
    decreases n - k
  {
    if k < n {
      assert Continues(whole, resumed, a, k);
      var c :| GoesOn(whole, resumed, a, k, c);
      PausesAgree(whole, resumed, n, c, k + 1);
    }
  }

  function WholeFrom(cfg: Config, v: Visit, rawId: string): (Accepting, nat) -> Accepting
    requires v.frame.content.Data?
  {
    (b: Accepting, i: nat) => if i <= |v.frame.content.market| then AcceptFrom(cfg, b, v, rawId, i) else b
  }

  function PausingFrom(cfg: Config, v: Visit, rawId: string): (Accepting, nat) -> Accepting
    requires v.frame.content.Data?
  {
    (b: Accepting, i: nat) => if i <= |v.frame.content.market| then WholeOf(cfg, b, v, rawId, i) else b
  }

  lemma GoesOnFrom(cfg: Config, b: Accepting, v: Visit, rawId: string, i: nat) returns (c: Accepting)
    requires v.frame.content.Data? && i < |v.frame.content.market|
    ensures GoesOn(WholeFrom(cfg, v, rawId), PausingFrom(cfg, v, rawId), b, i, c)
  {
    c := OneMore(cfg, b, v, rawId, i);
  }

  lemma {:induction false} PausingLosesNothing(cfg: Config, a: Accepting, v: Visit, rawId: string, k: nat)
    requires v.frame.content.Data? && k <= |v.frame.content.market|
    ensures WholeOf(cfg, a, v, rawId, k) == AcceptFrom(cfg, a, v, rawId, k)
  {
    var whole, resumed := WholeFrom(cfg, v, rawId), PausingFrom(cfg, v, rawId);
    forall b, i: nat | i < |v.frame.content.market|
      ensures Continues(whole, resumed, b, i)
    {
      var c := GoesOnFrom(cfg, b, v, rawId, i);
    }
    PausesAgree(whole, resumed, |v.frame.content.market|, a, k);
  }

  // ----- from the accepted events to the end of the frame -----

  predicate HasData(s: Session, t: Task) {
    t.next < |s.visits| && s.visits[t.next].frame.content.Data?
  }

  lemma TradersStep(cfg: Config, s: Session, t: Task, r: Recording)
    requires HasData(s, t) && ToTraders(cfg, t, r, s.visits[t.next]).point.InTraders?
    ensures var v := s.visits[t.next];
            var start := ToTraders(cfg, t, r, v);
            WellPlaced(s, start)
            && Step(cfg, s, start) == FrameDone(t, PersistTraders(cfg, r, v, CurrentId(r.core, v)))
  {
  }

  lemma TradersReach(f: Task -> Task, cfg: Config, s: Session, t: Task, r: Recording)
    requires Follows(f, cfg, s) && HasData(s, t)
    ensures var v := s.visits[t.next];
            Reaches(f, ToTraders(cfg, t, r, v), FrameDone(t, PersistTraders(cfg, r, v, CurrentId(r.core, v))))
  {
    var v := s.visits[t.next];
    var start := ToTraders(cfg, t, r, v);
    if start.point.InTraders? {
      TradersStep(cfg, s, t, r);
      ReachesNext(f, start);
    } else {
      ReachesNow(f, start);
    }
  }

  lemma MarketStep(cfg: Config, s: Session, t: Task, r: Recording, accepted: seq<MarketEvent>)
    requires HasData(s, t) && accepted != []
    ensures var v := s.visits[t.next];
            var start := ToMarket(cfg, t, r, accepted, v);
            && WellPlaced(s, start)
            && Step(cfg, s, start) ==
               if v.env.marketOk then ToTraders(cfg, t, MarketKept(start.r, |accepted|), v)
               else FrameDone(t, MarketLost(start.r, v.env))
  {
  }

  lemma PersistedParts(cfg: Config, r: Recording, accepted: seq<MarketEvent>, v: Visit, rawId: string)
    requires v.frame.content.Data? && accepted != []
    ensures var sent := r.(core := Called(r.core, WriteMarket(accepted), v.env.marketOk));
            Persisted(cfg, r, accepted, v, rawId) ==
            if v.env.marketOk then PersistTraders(cfg, MarketKept(sent, |accepted|), v, rawId)
            else MarketLost(sent, v.env)
  {
  }

  lemma PersistReaches(f: Task -> Task, cfg: Config, s: Session, t: Task, r: Recording, accepted: seq<MarketEvent>)
    requires Follows(f, cfg, s) && HasData(s, t)
    ensures var v := s.visits[t.next];
            Reaches(
              f, ToMarket(cfg, t, r, accepted, v),
              FrameDone(t, Persisted(cfg, r, accepted, v, CurrentId(r.core, v))))
  {
    var v := s.visits[t.next];
    if accepted == [] {
      TradersReach(f, cfg, s, t, r);
      return;
    }
    var start := ToMarket(cfg, t, r, accepted, v);
    MarketStep(cfg, s, t, r, accepted);
    PersistedParts(cfg, r, accepted, v, CurrentId(r.core, v));
    if v.env.marketOk {
      TradersReach(f, cfg, s, t, MarketKept(start.r, |accepted|));
      ReachesAfter(f, start, FrameDone(t, Persisted(cfg, r, accepted, v, CurrentId(r.core, v))));
    } else {
      ReachesNext(f, start);
    }
  }

  // Where the recorder is suspended while the frame's acceptance stands at p.
  function At(cfg: Config, s: Session, t: Task, p: Paused, machine: Machine): Task
    requires HasData(s, t)
  {
    GoOn(cfg, t, p, machine, s.visits[t.next])
  }

  // The end of the frame, once acceptance has ended with a.
  function FrameEnd(cfg: Config, s: Session, t: Task, a: Accepting, machine: Machine): Task
    requires HasData(s, t)
  {
    var v := s.visits[t.next];
    FrameDone(t, Persisted(cfg, Recording(a.core, machine), a.accepted, v, CurrentId(a.core, v)))
  }

  // Where a task goes on depends on its frame only.
  lemma SameGoOn(cfg: Config, t: Task, u: Task, p: Paused, machine: Machine, v: Visit)
    requires v.frame.content.Data? && t.next == u.next
    ensures GoOn(cfg, t, p, machine, v) == GoOn(cfg, u, p, machine, v)
  {
  }

  lemma GapTask(cfg: Config, s: Session, t: Task, p: Paused, machine: Machine)
    requires HasData(s, t) && p.AtGap? && p.k < |s.visits[t.next].frame.content.market|
    ensures var at := At(cfg, s, t, p, machine);
            && at == Task(Recording(p.core, machine), InGap(p.k, p.accepted), t.next)
            && WellPlaced(s, at)
            && Step(cfg, s, at) == AfterGap(cfg, at, s.visits[t.next])
  {
  }

  lemma GapGoesOn(cfg: Config, at: Task, p: Paused, v: Visit, rawId: string) returns (next: Accepting)
    requires v.frame.content.Data? && p.AtGap? && p.k < |v.frame.content.market|
    requires at.point == InGap(p.k, p.accepted) && at.r.core == p.core && rawId == CurrentId(p.core, v)
    ensures rawId == CurrentId(next.core, v)
    ensures Resumed(cfg, p, v, rawId) == AcceptFrom(cfg, next, v, rawId, p.k + 1)
    ensures AfterGap(cfg, at, v) ==
            GoOn(cfg, at, AcceptUntilGap(cfg, next, v, rawId, p.k + 1), at.r.machine, v)
  {
    next := Admit(cfg, Accepting(p.core, p.accepted), EventAt(v, p.k), v.env.validateAt(p.k), rawId);
    ResumedFrom(cfg, p, v, rawId, next);
  }

  // The step out of a gap write, and what the rest of the acceptance comes to.
  lemma GapStep(cfg: Config, s: Session, t: Task, p: Paused, machine: Machine, rawId: string)
    returns (next: Accepting)
    requires HasData(s, t) && p.AtGap? && p.k < |s.visits[t.next].frame.content.market|
    requires rawId == CurrentId(p.core, s.visits[t.next])
    ensures var v := s.visits[t.next];
            && rawId == CurrentId(next.core, v)
            && Resumed(cfg, p, v, rawId) == AcceptFrom(cfg, next, v, rawId, p.k + 1)
            && WellPlaced(s, At(cfg, s, t, p, machine))
            && Step(cfg, s, At(cfg, s, t, p, machine)) ==
               At(cfg, s, t, AcceptUntilGap(cfg, next, v, rawId, p.k + 1), machine)
  {
    var v := s.visits[t.next];
    var at := At(cfg, s, t, p, machine);
    GapTask(cfg, s, t, p, machine);
    next := GapGoesOn(cfg, at, p, v, rawId);
    SameGoOn(cfg, at, t, AcceptUntilGap(cfg, next, v, rawId, p.k + 1), machine, v);
  }

  // Resuming from a gap write is accepting from a later event on.
  lemma GapResumes(
    cfg: Config, s: Session, t: Task, a: Accepting, k: nat, machine: Machine, rawId: string, p: Paused)
    returns (next: Accepting, j: nat)
    requires HasData(s, t) && k <= |s.visits[t.next].frame.content.market|
    requires var v := s.visits[t.next];
             rawId == CurrentId(a.core, v) && p == AcceptUntilGap(cfg, a, v, rawId, k) && p.AtGap?
    ensures var v := s.visits[t.next];
            && k < j <= |v.frame.content.market| && rawId == CurrentId(next.core, v)
            && AcceptFrom(cfg, a, v, rawId, k) == AcceptFrom(cfg, next, v, rawId, j)
            && WellPlaced(s, At(cfg, s, t, p, machine))
            && Step(cfg, s, At(cfg, s, t, p, machine)) ==
               At(cfg, s, t, AcceptUntilGap(cfg, next, v, rawId, j), machine)
  {
    var v := s.visits[t.next];
    PausingLosesNothing(cfg, a, v, rawId, k);
    j := p.k + 1;
    next := GapStep(cfg, s, t, p, machine, rawId);
  }

  lemma {:induction false} AcceptedThrough(
    f: Task -> Task, cfg: Config, s: Session, t: Task, a: Accepting, k: nat, machine: Machine, rawId: string)
    requires Follows(f, cfg, s) && HasData(s, t) && k <= |s.visits[t.next].frame.content.market|
    requires rawId == CurrentId(a.core, s.visits[t.next])
    requires AcceptUntilGap(cfg, a, s.visits[t.next], rawId, k).Through?
    ensures var v := s.visits[t.next];
            Reaches(
              f, At(cfg, s, t, AcceptUntilGap(cfg, a, v, rawId, k), machine),
              FrameEnd(cfg, s, t, AcceptFrom(cfg, a, v, rawId, k), machine))
  {
    var v := s.visits[t.next];
    var p := AcceptUntilGap(cfg, a, v, rawId, k);
    PausingLosesNothing(cfg, a, v, rawId, k);
    PersistReaches(f, cfg, s, t, Recording(p.core, machine), p.accepted);
  }

  lemma {:induction false} AcceptReaches(
    f: Task -> Task, cfg: Config, s: Session, t: Task, a: Accepting, k: nat, machine: Machine, rawId: string,
    start: Task, end: Task)
    requires Follows(f, cfg, s) && HasData(s, t) && k <= |s.visits[t.next].frame.content.market|
    requires var v := s.visits[t.next];
             && rawId == CurrentId(a.core, v)
             && start == At(cfg, s, t, AcceptUntilGap(cfg, a, v, rawId, k), machine)
             && end == FrameEnd(cfg, s, t, AcceptFrom(cfg, a, v, rawId, k), machine)
    ensures Reaches(f, start, end)
    decreases |s.visits[t.next].frame.content.market| - k
  {
    var p := AcceptUntilGap(cfg, a, s.visits[t.next], rawId, k);
    if p.Through? {
      AcceptedThrough(f, cfg, s, t, a, k, machine, rawId);
    } else {
      var next, j := GapResumes(cfg, s, t, a, k, machine, rawId, p);
      AcceptReaches(f, cfg, s, t, next, j, machine, rawId, f(start), end);
      ReachesAfter(f, start, end);
    }
  }

  // ----- frames and runs -----

  lemma {:induction false} DataStep(cfg: Config, s: Session, t: Task, a: Accepting)
    requires WellPlaced(s, t) && t.point.InRaw? && s.visits[t.next].env.rawOk && HasData(s, t)
    requires a == Accepting(Parsed(Archived(t.r.core)), [])
    ensures var v := s.visits[t.next];
            var rawId := CurrentId(a.core, v);
            && rawId == CurrentId(t.r.core, v)
            && Step(cfg, s, t) == At(cfg, s, t, AcceptUntilGap(cfg, a, v, rawId, 0), t.r.machine)
  {
    assert Step(cfg, s, t) == AfterRaw(cfg, t, s.visits[t.next]);
  }

  lemma {:induction false} DataEnd(cfg: Config, s: Session, t: Task, a: Accepting)
    requires HasData(s, t) && a == Accepting(Parsed(Archived(t.r.core)), [])
    ensures var v := s.visits[t.next];
            var rawId := CurrentId(t.r.core, v);
            FrameEnd(cfg, s, t, AcceptFrom(cfg, a, v, rawId, 0), t.r.machine) ==
            FrameDone(t, Process(cfg, t.r.(core := Archived(t.r.core)), v, rawId))
  {
    AcceptIntake(cfg, a, s.visits[t.next], CurrentId(t.r.core, s.visits[t.next]), 0);
  }

  lemma OtherStep(cfg: Config, s: Session, t: Task)
    requires WellPlaced(s, t) && t.point.InRaw? && s.visits[t.next].env.rawOk && !s.visits[t.next].frame.content.Data?
    ensures var v := s.visits[t.next];
            Step(cfg, s, t) == FrameDone(t, Process(cfg, t.r.(core := Archived(t.r.core)), v, CurrentId(t.r.core, v)))
  {
  }

  lemma ProcessReaches(f: Task -> Task, cfg: Config, s: Session, t: Task)
    requires Follows(f, cfg, s) && WellPlaced(s, t) && t.point.InRaw? && s.visits[t.next].env.rawOk
    ensures var v := s.visits[t.next];
            Reaches(f, t, FrameDone(t, Process(cfg, t.r.(core := Archived(t.r.core)), v, CurrentId(t.r.core, v))))
  {
    var v := s.visits[t.next];
    if v.frame.content.Data? {
      var a := Accepting(Parsed(Archived(t.r.core)), []);
      DataStep(cfg, s, t, a);
      DataEnd(cfg, s, t, a);
      var rawId := CurrentId(a.core, v);
      var end := FrameEnd(cfg, s, t, AcceptFrom(cfg, a, v, rawId, 0), t.r.machine);
      AcceptReaches(f, cfg, s, t, a, 0, t.r.machine, rawId, f(t), end);
      ReachesAfter(f, t, end);
    } else {
      OtherStep(cfg, s, t);
      ReachesNext(f, t);
    }
  }

  lemma ReceiveStep(cfg: Config, s: Session, t: Task)
    requires WellPlaced(s, t) && t.point.Between? && t.next < |s.visits|
    ensures Step(cfg, s, t) == Task(t.r.(core := Submitted(t.r.core, s.visits[t.next])), InRaw, t.next)
  {
  }

  lemma LostStep(cfg: Config, s: Session, t: Task)
    requires WellPlaced(s, t) && t.point.InRaw? && !s.visits[t.next].env.rawOk
    ensures Step(cfg, s, t) == FrameDone(t, RawLost(t.r, s.visits[t.next].env))
  {
  }

  lemma HandleParts(cfg: Config, r: Recording, v: Visit)
    ensures var submitted := r.(core := Submitted(r.core, v));
            Handle(cfg, r, v) ==
            if v.env.rawOk
            then Process(cfg, submitted.(core := Archived(submitted.core)), v, CurrentId(submitted.core, v))
            else RawLost(submitted, v.env)
  {
  }

  lemma FrameReaches(f: Task -> Task, cfg: Config, s: Session, t: Task)
    requires Follows(f, cfg, s) && WellPlaced(s, t) && t.point.Between? && t.next < |s.visits|
    ensures Reaches(f, t, FrameDone(t, Handle(cfg, t.r, s.visits[t.next])))
  {
    var v := s.visits[t.next];
    ReceiveStep(cfg, s, t);
    HandleParts(cfg, t.r, v);
    var submitted := f(t);
    if v.env.rawOk {
      ProcessReaches(f, cfg, s, submitted);
    } else {
      LostStep(cfg, s, submitted);
      ReachesNext(f, submitted);
    }
    ReachesAfter(f, t, FrameDone(t, Handle(cfg, t.r, v)));
  }

  // A task between frames, the first i having been handled.
  function Handled(cfg: Config, r: Recording, visits: seq<Visit>, i: nat): Task
    requires i <= |visits|
  {
    Task(HandleAll(cfg, r, visits[..i]), Between, i)
  }

  lemma NextFrameReaches(f: Task -> Task, cfg: Config, s: Session, r: Recording, i: nat)
    requires Follows(f, cfg, s) && i < |s.visits|
    ensures Reaches(f, Handled(cfg, r, s.visits, i), Handled(cfg, r, s.visits, i + 1))
  {
    HandledOneMore(cfg, r, s.visits, i);
    FrameReaches(f, cfg, s, Handled(cfg, r, s.visits, i));
  }

  lemma {:induction false} ReachesAlong(f: Task -> Task, stops: nat -> Task, n: nat)
    requires forall i :: 0 <= i < n ==> Reaches(f, stops(i), stops(i + 1))
    ensures Reaches(f, stops(0), stops(n))
  {
    if n == 0 {
      ReachesNow(f, stops(0));
    } else {
      ReachesAlong(f, stops, n - 1);
      assert Reaches(f, stops(n - 1), stops(n - 1 + 1));
      ReachesOn(f, stops(0), stops(n - 1), stops(n));
    }
  }

  lemma FramesReach(f: Task -> Task, cfg: Config, s: Session, start: Task, n: nat, end: Task)
    requires Follows(f, cfg, s) && n <= |s.visits| && start.point.Between? && start.next == 0
    requires end == Handled(cfg, start.r, s.visits, n)
    ensures Reaches(f, start, end)
  {
    var stops := (i: nat) => if i <= n then Handled(cfg, start.r, s.visits, i) else end;
    forall i | 0 <= i < n
      ensures Reaches(f, stops(i), stops(i + 1))
    {
      NextFrameReaches(f, cfg, s, start.r, i);
    }
    ReachesAlong(f, stops, n);
  }

  // The uninterrupted run of a new recorder.
  function Uninterrupted(cfg: Config, s: Session): Recording {
    Run(cfg, Recording(NEW_CORE, NewMachine(HISTORY_LIMIT)), s.visits, s.at, s.flushOk)
  }

  lemma OpeningStep(cfg: Config, s: Session)
    ensures WellPlaced(s, NEW_TASK)
    ensures Step(cfg, s, NEW_TASK) ==
            Task(Recording(NEW_CORE, Started(NewMachine(HISTORY_LIMIT), s.at)), Between, 0)
  {
  }

  lemma ClosingSteps(cfg: Config, s: Session, r: Recording)
    ensures var t := Task(r, Between, |s.visits|);
            var flushing := Task(r.(core := Called(r.core, Flush, s.flushOk)), InFlush, |s.visits|);
            && WellPlaced(s, t) && Step(cfg, s, t) == flushing
            && WellPlaced(s, flushing) && Step(cfg, s, flushing) == flushing.(point := Stopped)
  {
  }

  lemma {:induction false} UninterruptedIs(cfg: Config, s: Session)
    ensures var r := Recording(NEW_CORE, Started(NewMachine(HISTORY_LIMIT), s.at));
            var done := HandleAll(cfg, r, s.visits[..|s.visits|]);
            Uninterrupted(cfg, s) == done.(core := Called(done.core, Flush, s.flushOk))
  {
    assert s.visits[..|s.visits|] == s.visits;
  }

  lemma {:induction false} OrbitIsIterate(f: Task -> Task, orbit: nat -> Task, n: nat)
    requires forall i: nat :: orbit(i + 1) == f(orbit(i))
    ensures orbit(n) == Iterate(f, orbit(0), n)
  {
    if n > 0 {
      OrbitIsIterate(f, orbit, n - 1);
      assert orbit(n - 1 + 1) == f(orbit(n - 1));
    }
  }

  lemma AloneFollows(f: Task -> Task, cfg: Config, s: Session, n: nat)
    requires Follows(f, cfg, s)
    ensures Alone(cfg, s, n + 1) == f(Alone(cfg, s, n))
  {
    AloneOneMore(cfg, s, n);
  }

  lemma {:induction false} AloneIsIterate(f: Task -> Task, cfg: Config, s: Session, n: nat)
    requires Follows(f, cfg, s)
    ensures Alone(cfg, s, n) == Iterate(f, NEW_TASK, n)
  {
    var orbit: nat -> Task := (i: nat) => Alone(cfg, s, i);
    forall i: nat
      ensures orbit(i + 1) == f(orbit(i))
    {
      AloneFollows(f, cfg, s, i);
    }
    assert orbit(0) == NEW_TASK;
    OrbitIsIterate(f, orbit, n);
  }

  lemma FollowingReaches(f: Task -> Task, cfg: Config, s: Session, end: Task)
    requires Follows(f, cfg, s) && end == Task(Uninterrupted(cfg, s), Stopped, |s.visits|)
    ensures Reaches(f, NEW_TASK, end)
  {
    OpeningStep(cfg, s);
    var ready := f(NEW_TASK);
    var handled := HandleAll(cfg, ready.r, s.visits[..|s.visits|]);
    var t := Task(handled, Between, |s.visits|);
    FramesReach(f, cfg, s, ready, |s.visits|, t);
    ClosingSteps(cfg, s, handled);
    UninterruptedIs(cfg, s);
    ReachesNext(f, f(t));
    ReachesAfter(f, t, end);
    ReachesOn(f, ready, t, end);
    ReachesAfter(f, NEW_TASK, end);
  }

  // Stepping alone passes the point where all frames are handled and the next one is awaited.
  lemma AloneHandles(cfg: Config, s: Session) returns (n: nat)
    ensures Alone(cfg, s, n) ==
            Task(HandleAll(cfg, Recording(NEW_CORE, Started(NewMachine(HISTORY_LIMIT), s.at)), s.visits),
                 Between, |s.visits|)
  {
    var f: Task -> Task := t => if WellPlaced(s, t) then Step(cfg, s, t) else t;
    assert Follows(f, cfg, s);
    OpeningStep(cfg, s);
    var ready := f(NEW_TASK);
    var end := Task(HandleAll(cfg, ready.r, s.visits), Between, |s.visits|);
    assert s.visits[..|s.visits|] == s.visits;
    FramesReach(f, cfg, s, ready, |s.visits|, end);
    ReachesAfter(f, NEW_TASK, end);
    var m :| Iterate(f, NEW_TASK, m) == end;
    n := m;
    AloneIsIterate(f, cfg, s, n);
  }

  // Stepping alone ends stopped, with the uninterrupted run recorded.
  lemma AloneFinishes(cfg: Config, s: Session) returns (n: nat)
    ensures Alone(cfg, s, n) == Task(Uninterrupted(cfg, s), Stopped, |s.visits|)
  {
    var f: Task -> Task := t => if WellPlaced(s, t) then Step(cfg, s, t) else t;
    assert Follows(f, cfg, s);
    var end := Task(Uninterrupted(cfg, s), Stopped, |s.visits|);
    FollowingReaches(f, cfg, s, end);
    var m :| Iterate(f, NEW_TASK, m) == end;
    n := m;
    AloneIsIterate(f, cfg, s, n);
  }

  lemma {:induction false} StoppedIterates(f: Task -> Task, cfg: Config, s: Session, t: Task, m: nat, n: nat)
    requires Follows(f, cfg, s) && m <= n
    requires WellPlaced(s, Iterate(f, t, m)) && Iterate(f, t, m).point.Stopped?
    ensures Iterate(f, t, n) == Iterate(f, t, m)
  {
    var stopped := Iterate(f, t, m);
    assert Step(cfg, s, stopped) == stopped;
    FixedPoint(f, stopped, n - m);
    IterateAdd(f, t, m, n - m);
  }

  lemma {:induction false} StoppedStays(cfg: Config, s: Session, m: nat, n: nat)
    requires m <= n && Alone(cfg, s, m).point.Stopped?
    ensures Alone(cfg, s, n) == Alone(cfg, s, m)
  {
    var f: Task -> Task := t => if WellPlaced(s, t) then Step(cfg, s, t) else t;
    assert Follows(f, cfg, s);
    AloneIsIterate(f, cfg, s, m);
    AloneIsIterate(f, cfg, s, n);
    StoppedIterates(f, cfg, s, NEW_TASK, m, n);
  }

  /** Every interleaving in which the recorder has finished recorded exactly the uninterrupted run: same
      events, same gaps, same counters, same sink calls in the same order. */
  lemma {:induction false} CompletedRunsAreUninterrupted(cfg: Config, mon: M.Settings, s: Session, ticks: seq<Tick>)
    requires Scheduled(cfg, mon, s, ticks).task.point.Stopped?
    ensures Scheduled(cfg, mon, s, ticks).task.r.core == Uninterrupted(cfg, s).core
  {
    MonitorDoesNotInterfere(cfg, mon, s, ticks);
    var k := RecorderTicks(ticks);
    var n := AloneFinishes(cfg, s);
    if k <= n {
      StoppedStays(cfg, s, k, n);
    } else {
      StoppedStays(cfg, s, n, k);
    }
  }

  // n recorder ticks are enough, whatever the monitor does in between.
  ghost predicate FinishesBy(cfg: Config, s: Session, n: nat) {
    forall mon, ticks | RecorderTicks(ticks) >= n :: Scheduled(cfg, mon, s, ticks).task.point.Stopped?
  }

  // With enough recorder ticks, however many monitor ticks lie between them, every interleaving finishes.
  lemma EnoughTicksFinish(cfg: Config, s: Session)
    ensures exists n :: FinishesBy(cfg, s, n)
  {
    var n := AloneFinishes(cfg, s);
    forall mon, ticks | RecorderTicks(ticks) >= n
      ensures Scheduled(cfg, mon, s, ticks).task.point.Stopped?
    {
      MonitorDoesNotInterfere(cfg, mon, s, ticks);
      StoppedStays(cfg, s, n, RecorderTicks(ticks));
    }
    assert FinishesBy(cfg, s, n);
  }
}

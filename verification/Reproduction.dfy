/** What a replay gives back of the live run it was captured from: of one whose sink failed in part, and of one a
    monitor ran beside. */
module Reproduction {
  import opened Events
  import opened Sinks
  import opened RecorderStates
  import opened Recording
  import opened Accounts
  import opened Detection
  import opened LiveReplay
  import opened ClockSkew
  import opened Replaying
  import opened Interleaving
  import opened Completion
  import Monitoring

  function FramesOf(visits: seq<Visit>): seq<Frame> {
    seq(|visits|, i requires 0 <= i < |visits| => visits[i].frame)
  }

  lemma FlushOffersNothing(c: Core, ok: bool)
    ensures GapsOf(Called(c, Flush, ok).calls) == GapsOf(c.calls)
    ensures Offered(Called(c, Flush, ok).calls) == Offered(c.calls)
  {
    GapsOneMore(c.calls, Outcome(Flush, ok));
    OfferedOneMore(c.calls, Outcome(Flush, ok));
  }

  // What the two runs hand over and write before their last flush.
  lemma {:induction false} HandledAlike(cfg: Config, r: Recording, live: seq<Visit>, frames: seq<Frame>, ids: Ids)
    requires r.core == NEW_CORE && live != [] && frames == FramesOf(live)
    requires forall i :: 0 <= i < |live| ==> live[i].env.rawOk
    ensures var a, b := HandleAll(cfg, r, live).core, HandleAll(cfg, Opened(frames), ReplayVisits(frames, ids)).core;
            && GapsOf(a.calls) == GapsOf(b.calls)
            && (UnnamedAll(Offered(a.calls)) == UnnamedAll(Offered(b.calls)) <==>
                AllHarmless(cfg.quality, Novel(cfg.dedup, Arrivals(live))))
  {
    var replay := ReplayVisits(frames, ids);
    ReplayVisitsMatch(frames, ids, ids);
    assert SameArchived(live, replay);
    SameDetectionsExactly(cfg, r, Opened(frames), live, replay);
  }

  /** If every raw write of a live run returned, whatever else failed, its replay writes the same gaps; and it
      hands over the same market events, ids apart, exactly when no event that repeats nothing was judged by a
      clock reading before its receipt, unless it is invalid at any reading. */
  lemma {:induction false} ReplayDetectsLive(
    cfg: Config, machine: Machine, live: seq<Visit>, at: nat -> int, flushOk: bool, ids: Ids)
    requires Permitted(machine.state, Connecting) && live != []
    requires forall i :: 0 <= i < |live| ==> live[i].env.rawOk
    ensures var a := Run(cfg, Recording(NEW_CORE, machine), live, at, flushOk).core.calls;
            var b := ReplayOf(cfg, FramesOf(live), ids).calls;
            && GapsOf(a) == GapsOf(b)
            && (UnnamedAll(Offered(a)) == UnnamedAll(Offered(b)) <==>
                AllHarmless(cfg.quality, Novel(cfg.dedup, Arrivals(live))))
  {
    var frames := FramesOf(live);
    var r := Recording(NEW_CORE, Started(machine, at));
    HandledAlike(cfg, r, live, frames, ids);
    RunEnds(cfg, machine, live, at, flushOk);
    FlushOffersNothing(HandleAll(cfg, r, live).core, flushOk);
    FlushOffersNothing(HandleAll(cfg, Opened(frames), ReplayVisits(frames, ids)).core, true);
  }

  // Every sink call of the session returns.
  predicate Unfailing(s: Session) {
    && s.flushOk
    && forall i :: 0 <= i < |s.visits| ==>
         s.visits[i].env.rawOk && s.visits[i].env.marketOk && s.visits[i].env.tradersOk
  }

  /** A session recorded with the monitor running beside, its two tasks interleaved in any way, has once the
      recorder has finished the counters, the signature and the gaps of its replay, if no sink call failed and the
      clock read no earlier than a frame's receipt when its events were validated. */
  lemma {:induction false} MonitoredRunReplays(
    cfg: Config, mon: Monitoring.Settings, s: Session, ticks: seq<Tick>, ids: Ids)
    requires s.visits != [] && Unfailing(s) && AllInTime(s.visits)
    requires Scheduled(cfg, mon, s, ticks).task.point.Stopped?
    ensures var a, b := Scheduled(cfg, mon, s, ticks).task.r.core, ReplayOf(cfg, FramesOf(s.visits), ids);
            a.metrics == b.metrics && Signature(a.calls) == Signature(b.calls) && GapsOf(a.calls) == GapsOf(b.calls)
  {
    CompletedRunsAreUninterrupted(cfg, mon, s, ticks);
    ReplayReproducesLive(cfg, NewMachine(HISTORY_LIMIT), s.visits, s.at, FramesOf(s.visits), ids);
  }
}

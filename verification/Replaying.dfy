/** Replaying a captured session: the recorder, unchanged, on a clock set to each frame's receipt. */
module Replaying {
  import opened Prelude
  import opened Events
  import opened Sinks
  import opened RecorderStates
  import opened Recording
  import opened Accounts
  import opened LiveReplay
  import Clocks

  // The event ids one run generates, by frame and position within the frame.
  datatype Ids = Ids(market: (nat, nat) -> string, traders: (nat, nat) -> string)

  datatype ReplayError = NoFrames | TimeMovedBackwards

  datatype Replay = Replay(metrics: Metrics, calls: seq<Outcome>, finalState: State)

  // An in-memory sink never fails, and the clock reads the receipt throughout the frame.
  function ReplayEnv(f: Frame, i: nat, ids: Ids): Env {
    var t := f.receipt.time;
    Env(true, true, true, _ => t, t, t, t, (k: nat) => ids.market(i, k), (k: nat) => ids.traders(i, k))
  }

  function ReplayVisits(frames: seq<Frame>, ids: Ids): seq<Visit> {
    seq(|frames|, i requires 0 <= i < |frames| => Visit(frames[i], ReplayEnv(frames[i], i, ids)))
  }

  function Opened(frames: seq<Frame>): Recording
    requires frames != []
  {
    Recording(NEW_CORE, Started(NewMachine(HISTORY_LIMIT), _ => frames[0].receipt.time))
  }

  predicate NonDecreasing(frames: seq<Frame>) {
    forall i :: 0 < i < |frames| ==> frames[i - 1].receipt.time <= frames[i].receipt.time
  }

  function ReplayOf(cfg: Config, frames: seq<Frame>, ids: Ids): Replay
    requires frames != []
  {
    var done := HandleAll(cfg, Opened(frames), ReplayVisits(frames, ids));
    Replay(done.core.metrics, done.core.calls + [Outcome(Flush, true)], done.machine.state)
  }

  // Every reading of the clock is this one, and no sink call fails.
  ghost predicate Undisturbed(env: Env, reading: int) {
    && env.rawOk && env.marketOk && env.tradersOk
    && (forall k: nat :: env.validateAt(k) == reading)
    && env.freshAt == reading && env.failedAt == reading && env.moveAt == reading
  }

  // One frame: set the clock to its receipt, then handle it; nothing happens if the clock refuses.
  method ReplayFrame(recorder: Recorder, clock: Clocks.ReplayClock, v: Visit) returns (ok: bool)
    requires recorder.Wired() && Undisturbed(v.env, v.frame.receipt.time)
    modifies clock, recorder, recorder.dedup, recorder.gaps, recorder.heartbeat, recorder.machine
    ensures ok <==> old(clock.now) <= v.frame.receipt.time
    ensures ok ==> clock.now == v.frame.receipt.time
    ensures ok ==> recorder.Value() == Handle(recorder.cfg, old(recorder.Value()), v)
  {
    var advanced := clock.SetEventTime(v.frame.receipt.time);
    ok := advanced.Success?;
    if ok {
      recorder.HandleFrame(v);
    }
  }

  // The frames in order; stops where the clock refuses.
  method ReplayFrames(recorder: Recorder, clock: Clocks.ReplayClock, frames: seq<Frame>, ids: Ids) returns (ok: bool)
    requires recorder.Wired() && frames != [] && clock.now == frames[0].receipt.time
    modifies clock, recorder, recorder.dedup, recorder.gaps, recorder.heartbeat, recorder.machine
    ensures ok <==> NonDecreasing(frames)
    ensures ok ==> recorder.Value() == HandleAll(recorder.cfg, old(recorder.Value()), ReplayVisits(frames, ids))
  {
    var visits := ReplayVisits(frames, ids);
    for i := 0 to |visits|
      invariant clock.now == if i == 0 then frames[0].receipt.time else frames[i - 1].receipt.time
      invariant forall j :: 0 < j < i ==> frames[j - 1].receipt.time <= frames[j].receipt.time
      invariant recorder.Value() == HandleAll(recorder.cfg, old(recorder.Value()), visits[..i])
    {
      ok := ReplayFrame(recorder, clock, visits[i]);
      if !ok {
        return;
      }
      HandledOneMore(recorder.cfg, old(recorder.Value()), visits, i);
    }
    assert visits[..|visits|] == visits;
    ok := true;
  }

  /** A replay succeeds exactly on a non-empty session whose receipts never decrease. */
  method RunReplay(cfg: Config, frames: seq<Frame>, ids: Ids) returns (r: Result<Replay, ReplayError>)
    requires cfg.dedup.capacity >= 1
    ensures r.Success? <==> frames != [] && NonDecreasing(frames)
    ensures r.Success? ==> r.value == ReplayOf(cfg, frames, ids)
    ensures r == Failure(NoFrames) <==> frames == []
  {
    if frames == [] {
      return Failure(NoFrames);
    }
    var start := frames[0].receipt.time;
    var clock := new Clocks.ReplayClock(start);
    var recorder := new Recorder(cfg);
    var _ := recorder.Open(_ => start);
    assert recorder.Value() == Opened(frames);
    var played := ReplayFrames(recorder, clock, frames, ids);
    if !played {
      return Failure(TimeMovedBackwards);
    }
    var _ := recorder.CallSink(Flush, true);
    r := Success(Replay(recorder.metrics, recorder.calls, recorder.machine.state));
  }

  // ----- determinism -----

  lemma ReplayVisitsMatch(frames: seq<Frame>, ids: Ids, others: Ids)
    ensures SameFates(ReplayVisits(frames, ids), ReplayVisits(frames, others))
    ensures AllInTime(ReplayVisits(frames, ids))
  {
  }

  lemma OpenedSame(frames: seq<Frame>)
    requires frames != []
    ensures Same(Opened(frames).core, NEW_CORE)
  {
  }

  // Two replays of one session agree on everything but the ids they generate.
  lemma ReplayIsDeterministic(cfg: Config, frames: seq<Frame>, ids: Ids, others: Ids)
    requires frames != []
    ensures var a, b := ReplayOf(cfg, frames, ids), ReplayOf(cfg, frames, others);
            a.metrics == b.metrics && Signature(a.calls) == Signature(b.calls)
  {
    ReplayVisitsMatch(frames, ids, others);
    ReplayVisitsMatch(frames, others, ids);
    var r := Opened(frames);
    var vs, ws := ReplayVisits(frames, ids), ReplayVisits(frames, others);
    LiveEqualsReplay(cfg, r, r, vs, ws);
    SameFlushed(HandleAll(cfg, r, vs).core, HandleAll(cfg, r, ws).core);
  }

  lemma SameFlushed(a: Core, b: Core)
    requires Same(a, b)
    ensures Signature(a.calls + [Outcome(Flush, true)]) == Signature(b.calls + [Outcome(Flush, true)])
  {
    SameCalled(a, b, Flush, Flush, true);
    SameSignature(Called(a, Flush, true).calls, Called(b, Flush, true).calls);
  }

  lemma {:induction false} KeptIsRecorded(calls: seq<Outcome>)
    ensures TallyOf(calls).marketKept == |RecordedMarket(calls)|
    ensures TallyOf(calls).tradersKept == |RecordedTraders(calls)|
  {
    if calls != [] {
      KeptIsRecorded(calls[..|calls| - 1]);
    }
  }

  // A replay's signature has one entry for every event its counters say was written.
  lemma ReplaySigns(cfg: Config, frames: seq<Frame>, ids: Ids)
    requires frames != []
    ensures var r := ReplayOf(cfg, frames, ids);
            |Signature(r.calls)| == r.metrics.marketWritten + r.metrics.tradersWritten
  {
    var done := HandleAll(cfg, Opened(frames), ReplayVisits(frames, ids)).core;
    RunIsInBalance(cfg, Opened(frames), ReplayVisits(frames, ids));
    TallyCalled(done, Flush, true);
    SignatureCounts(Called(done, Flush, true).calls);
    KeptIsRecorded(Called(done, Flush, true).calls);
  }

  datatype Comparison = Comparison(identical: bool, first: nat, second: nat, metricsMatch: bool)

  /** Replaying twice and comparing signatures and counters always finds the two identical, on every
      session that can be replayed at all. */
  method VerifyDeterminism(cfg: Config, frames: seq<Frame>, ids: Ids, others: Ids)
    returns (r: Result<Comparison, ReplayError>)
    requires cfg.dedup.capacity >= 1
    ensures r.Success? <==> frames != [] && NonDecreasing(frames)
    ensures r.Success? ==> r.value.identical && r.value.metricsMatch && r.value.first == r.value.second
    ensures r.Success? ==>
              var m := ReplayOf(cfg, frames, ids).metrics; r.value.first == m.marketWritten + m.tradersWritten
  {
    var first := RunReplay(cfg, frames, ids);
    if first.Failure? {
      return Failure(first.error);
    }
    var second := RunReplay(cfg, frames, others);
    assert second.Success?;
    ReplayIsDeterministic(cfg, frames, ids, others);
    ReplaySigns(cfg, frames, ids);
    var a, b := Signature(first.value.calls), Signature(second.value.calls);
    var metricsMatch := first.value.metrics == second.value.metrics;
    r := Success(Comparison(a == b && metricsMatch, |a|, |b|, metricsMatch));
  }

  /** A replay reproduces the live run it was captured from: same events (but for ids), same verdicts, same
      gaps and counters, provided no live sink call failed and the live clock read at or after each frame's
      receipt while its events were validated. */
  lemma {:induction false} ReplayReproducesLive(
    cfg: Config, machine: Machine, live: seq<Visit>, at: nat -> int, frames: seq<Frame>, ids: Ids)
    requires Permitted(machine.state, Connecting)
    requires frames != [] && |live| == |frames|
    requires forall i :: 0 <= i < |live| ==> live[i].frame == frames[i]
    requires forall i :: 0 <= i < |live| ==> live[i].env.rawOk && live[i].env.marketOk && live[i].env.tradersOk
    requires AllInTime(live)
    ensures var a := Run(cfg, Recording(NEW_CORE, machine), live, at, true).core;
            var b := ReplayOf(cfg, frames, ids);
            && a.metrics == b.metrics
            && Signature(a.calls) == Signature(b.calls)
            && GapsOf(a.calls) == GapsOf(b.calls)
  {
    var ws := ReplayVisits(frames, ids);
    ReplayVisitsMatch(frames, ids, ids);
    assert SameFates(live, ws);
    var r := Recording(NEW_CORE, Started(machine, at));
    OpenedSame(frames);
    LiveEqualsReplay(cfg, r, Opened(frames), live, ws);
    var a, b := HandleAll(cfg, r, live).core, HandleAll(cfg, Opened(frames), ws).core;
    assert Run(cfg, Recording(NEW_CORE, machine), live, at, true).core == Called(a, Flush, true);
    SameFlushed(a, b);
    SameCalled(a, b, Flush, Flush, true);
    SameGaps(Called(a, Flush, true).calls, Called(b, Flush, true).calls);
  }

  lemma {:induction false} SameGaps(a: seq<Outcome>, b: seq<Outcome>)
    requires UnnamedCalls(a) == UnnamedCalls(b)
    ensures GapsOf(a) == GapsOf(b)
  {
    SameLast(a, b);
    if a != [] {
      SameGaps(a[..|a| - 1], b[..|b| - 1]);
    }
  }
}

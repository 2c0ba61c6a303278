/** The state a frame leaves the recorder in, and the state a replay ends in. */
module RecorderHealth {
  import opened Prelude
  import opened Events
  import opened RecorderStates
  import opened Recording
  import opened Accounts
  import opened Replaying
  import Gaps
  import Sinks

  predicate IsRecording(s: State) {
    s == Healthy || s == Degraded
  }

  lemma DegradingDegrades(m: Machine, at: int, reason: Reason)
    requires IsRecording(m.state)
    ensures Degrading(m, at, reason).state == Degraded
  {
  }

  lemma FreshnessDecides(cfg: Config, r: Recording, env: Env)
    requires IsRecording(r.machine.state)
    ensures var after := FreshnessChecked(cfg, r, env);
            && after.core == r.core
            && after.machine.state ==
               if Gaps.ConnectionSilent(r.core.beat, env.freshAt, cfg.heartbeat) then Degraded else Healthy
  {
  }

  // The frame came too long before the freshness check that ends its processing.
  predicate Stale(cfg: Config, v: Visit) {
    v.env.freshAt - v.frame.receipt.time > cfg.heartbeat
  }

  lemma TradersEndFresh(cfg: Config, r: Recording, v: Visit, rawId: string)
    requires v.frame.content.Data? && IsRecording(r.machine.state)
    requires r.core.beat.lastDataAt == Some(v.frame.receipt.time)
    ensures PersistTraders(cfg, r, v, rawId).machine.state == if Stale(cfg, v) then Degraded else Healthy
  {
    var stamped := StampedTraders(v, rawId);
    var sent := r.(core := Called(r.core, Sinks.WriteTraders(stamped), v.env.tradersOk));
    if stamped == [] {
      FreshnessDecides(cfg, r, v.env);
    } else if v.env.tradersOk {
      var m := sent.core.metrics;
      FreshnessDecides(
        cfg, sent.(core := sent.core.(metrics := m.(tradersWritten := m.tradersWritten + |stamped|))), v.env);
    } else {
      DegradingDegrades(sent.machine, v.env.failedAt, TraderWriteFailed);
      FreshnessDecides(
        cfg, Recording(Lost(sent.core), Degrading(sent.machine, v.env.failedAt, TraderWriteFailed)), v.env);
    }
  }

  lemma PersistEnds(cfg: Config, r: Recording, accepted: seq<MarketEvent>, v: Visit, rawId: string)
    requires v.frame.content.Data? && IsRecording(r.machine.state)
    requires r.core.beat.lastDataAt == Some(v.frame.receipt.time)
    ensures Persisted(cfg, r, accepted, v, rawId).machine.state ==
            if (accepted != [] && !v.env.marketOk) || Stale(cfg, v) then Degraded else Healthy
  {
    if accepted == [] {
      TradersEndFresh(cfg, r, v, rawId);
    } else {
      var sent := r.(core := Called(r.core, Sinks.WriteMarket(accepted), v.env.marketOk));
      if v.env.marketOk {
        TradersEndFresh(cfg, MarketKept(sent, |accepted|), v, rawId);
      } else {
        DegradingDegrades(sent.machine, v.env.failedAt, MarketWriteFailed);
      }
    }
  }

  lemma {:induction false} AcceptKeepsBeat(cfg: Config, a: Accepting, v: Visit, rawId: string)
    requires v.frame.content.Data?
    ensures AcceptFrom(cfg, a, v, rawId, 0).core.beat == a.core.beat
  {
    var holds := (q: Accepting, k: nat) => q.core.beat == a.core.beat;
    forall q, k: nat
      ensures KeptByAccept(cfg, v, rawId, holds, q, k)
    {
    }
    AcceptInduction(cfg, a, v, rawId, 0, holds);
  }

  lemma PersistKeepsBeat(cfg: Config, r: Recording, accepted: seq<MarketEvent>, v: Visit, rawId: string)
    requires v.frame.content.Data?
    ensures Persisted(cfg, r, accepted, v, rawId).core.beat == r.core.beat
  {
  }

  lemma ProcessKeepsBeat(cfg: Config, r: Recording, v: Visit, rawId: string)
    ensures Process(cfg, r, v, rawId).core.beat == r.core.beat
  {
    if v.frame.content.Data? {
      var start := Accepting(Parsed(r.core), []);
      var a := AcceptFrom(cfg, start, v, rawId, 0);
      AcceptKeepsBeat(cfg, start, v, rawId);
      ProcessParts(cfg, r, v, rawId, a);
      PersistKeepsBeat(cfg, r.(core := a.core), a.accepted, v, rawId);
    }
  }

  lemma HandleBeats(cfg: Config, r: Recording, v: Visit)
    ensures Handle(cfg, r, v).core.beat == Gaps.Beat(Some(v.frame.receipt.time), r.core.beat.messages + 1)
  {
    if v.env.rawOk {
      HandleIsProcess(cfg, r, v);
      ProcessKeepsBeat(cfg, ArchivedBy(r, v), v, RawIdOf(r.core, v));
    }
  }

  // What the heartbeat says after these frames: every frame counts as data, archived or not.
  function BeatOf(visits: seq<Visit>): Gaps.Beat {
    if visits == [] then Gaps.Beat(None, 0)
    else Gaps.Beat(Some(visits[|visits| - 1].frame.receipt.time), |visits|)
  }

  /** Whatever fails, the heartbeat of a run last heard data at the receipt of its last frame, and counts its
      frames. */
  lemma {:induction false} BeatExactly(cfg: Config, r: Recording, visits: seq<Visit>)
    requires r.core == NEW_CORE
    ensures HandleAll(cfg, r, visits).core.beat == BeatOf(visits)
  {
    if visits != [] {
      var front, v := visits[..|visits| - 1], visits[|visits| - 1];
      BeatExactly(cfg, r, front);
      HandleBeats(cfg, HandleAll(cfg, r, front), v);
    }
  }

  // The state after a frame that was archived.
  function StateAfter(cfg: Config, r: Recording, v: Visit, rawId: string): State {
    if !v.frame.content.Data? then r.machine.state
    else
      var accepted := AcceptFrom(cfg, Accepting(Parsed(r.core), []), v, rawId, 0).accepted;
      if (accepted != [] && !v.env.marketOk) || Stale(cfg, v) then Degraded else Healthy
  }

  lemma ProcessEnds(cfg: Config, r: Recording, v: Visit, rawId: string)
    requires IsRecording(r.machine.state) && r.core.beat.lastDataAt == Some(v.frame.receipt.time)
    ensures Process(cfg, r, v, rawId).machine.state == StateAfter(cfg, r, v, rawId)
  {
    if v.frame.content.Data? {
      var start := Accepting(Parsed(r.core), []);
      var a := AcceptFrom(cfg, start, v, rawId, 0);
      AcceptKeepsBeat(cfg, start, v, rawId);
      ProcessParts(cfg, r, v, rawId, a);
      PersistEnds(cfg, r.(core := a.core), a.accepted, v, rawId);
    }
  }

  /** While recording, a frame whose raw write fails, or whose accepted market events cannot be written, or
      whose receipt is older than the heartbeat limit once it is persisted, leaves the recorder DEGRADED;
      any other data frame leaves it HEALTHY, even if its trader write failed; and a frame without data
      leaves the state alone. */
  lemma StateAfterFrame(cfg: Config, r: Recording, v: Visit)
    requires IsRecording(r.machine.state)
    ensures var archived := r.(core := Archived(Submitted(r.core, v)));
            Handle(cfg, r, v).machine.state ==
            if v.env.rawOk then StateAfter(cfg, archived, v, RawIdOf(r.core, v)) else Degraded
  {
    var submitted := r.(core := Submitted(r.core, v));
    if v.env.rawOk {
      ProcessEnds(cfg, submitted.(core := Archived(submitted.core)), v, RawIdOf(r.core, v));
    } else {
      DegradingDegrades(submitted.machine, v.env.failedAt, RawWriteFailed);
    }
  }

  lemma ReplayedFrameEnds(cfg: Config, r: Recording, f: Frame, i: nat, ids: Ids)
    requires IsRecording(r.machine.state)
    ensures Handle(cfg, r, Visit(f, ReplayEnv(f, i, ids))).machine.state ==
            if !f.content.Data? then r.machine.state else if cfg.heartbeat < 0 then Degraded else Healthy
  {
    StateAfterFrame(cfg, r, Visit(f, ReplayEnv(f, i, ids)));
  }

  // While recording, a frame with data settles the state and any other frame leaves it.
  predicate Follows(before: State, after: State, data: bool, settled: State) {
    IsRecording(before) ==> after == if data then settled else before
  }

  predicate SomeData(data: nat -> bool, n: nat) {
    exists i :: 0 <= i < n && data(i)
  }

  lemma {:induction false} StatesEnd(states: nat -> State, data: nat -> bool, settled: State, n: nat)
    requires IsRecording(settled) && states(0) == Healthy
    requires forall i | 0 <= i < n :: Follows(states(i), states(i + 1), data(i), settled)
    ensures states(n) == if SomeData(data, n) then settled else Healthy
  {
    if n > 0 {
      StatesEnd(states, data, settled, n - 1);
      assert SomeData(data, n) <==> SomeData(data, n - 1) || data(n - 1);
      assert Follows(states(n - 1), states(n - 1 + 1), data(n - 1), settled);
    }
  }

  // The state after the first n frames of a replay.
  function StatesOf(cfg: Config, frames: seq<Frame>, ids: Ids): nat -> State
    requires frames != []
  {
    (n: nat) =>
      if n <= |frames| then HandleAll(cfg, Opened(frames), ReplayVisits(frames, ids)[..n]).machine.state else Healthy
  }

  function DataAt(frames: seq<Frame>): nat -> bool {
    (i: nat) => i < |frames| && frames[i].content.Data?
  }

  lemma ReplayFollows(cfg: Config, frames: seq<Frame>, ids: Ids, i: nat)
    requires i < |frames|
    ensures var states := StatesOf(cfg, frames, ids);
            Follows(states(i), states(i + 1), DataAt(frames)(i), if cfg.heartbeat < 0 then Degraded else Healthy)
  {
    var visits := ReplayVisits(frames, ids);
    var before := HandleAll(cfg, Opened(frames), visits[..i]);
    HandledOneMore(cfg, Opened(frames), visits, i);
    if IsRecording(before.machine.state) {
      ReplayedFrameEnds(cfg, before, frames[i], i, ids);
    }
  }

  lemma OpenedIsHealthy(frames: seq<Frame>)
    requires frames != []
    ensures Opened(frames).machine.state == Healthy
  {
    var at: nat -> int := _ => frames[0].receipt.time;
    var m1 := Advance(NewMachine(HISTORY_LIMIT), Connecting, at(0), OpeningSource);
    assert m1.state == Connecting;
    var m2 := Advance(m1, Connected, at(1), SourceOpen);
    assert m2.state == Connected;
    var m3 := Advance(m2, Subscribing, at(2), SubscribingNow);
    assert m3.state == Subscribing;
  }

  lemma ReplayEnds(cfg: Config, frames: seq<Frame>, ids: Ids)
    requires frames != []
    ensures StatesOf(cfg, frames, ids)(|frames|) ==
            if SomeData(DataAt(frames), |frames|) && cfg.heartbeat < 0 then Degraded else Healthy
  {
    var states, data := StatesOf(cfg, frames, ids), DataAt(frames);
    var settled := if cfg.heartbeat < 0 then Degraded else Healthy;
    OpenedIsHealthy(frames);
    assert ReplayVisits(frames, ids)[..0] == [];
    forall i | 0 <= i < |frames|
      ensures Follows(states(i), states(i + 1), data(i), settled)
    {
      ReplayFollows(cfg, frames, ids, i);
    }
    StatesEnd(states, data, settled, |frames|);
  }

  predicate HasData(frames: seq<Frame>) {
    exists f <- frames :: f.content.Data?
  }

  lemma DataIsSeen(frames: seq<Frame>)
    ensures SomeData(DataAt(frames), |frames|) <==> HasData(frames)
  {
    if HasData(frames) {
      var f :| f in frames && f.content.Data?;
      var i :| 0 <= i < |frames| && frames[i] == f;
      assert DataAt(frames)(i);
    }
  }

  /** A replay ends HEALTHY exactly when the heartbeat limit is not negative or no frame carries data: its
      sink never fails, and its clock never runs ahead of the frame. */
  lemma ReplayEndsHealthy(cfg: Config, frames: seq<Frame>, ids: Ids)
    requires frames != []
    ensures ReplayOf(cfg, frames, ids).finalState == Healthy <==> cfg.heartbeat >= 0 || !HasData(frames)
  {
    ReplayEnds(cfg, frames, ids);
    DataIsSeen(frames);
    assert ReplayVisits(frames, ids)[..|frames|] == ReplayVisits(frames, ids);
  }
}

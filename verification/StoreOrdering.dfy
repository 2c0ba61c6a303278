/** The recorder driving the batching sink: each sink call's outcome is what the stores make of it. */
module StoreOrdering {
  import opened Events
  import opened Sinks
  import opened Recording
  import opened Accounts
  import opened Deliveries
  import S = StoreSink

  // Luck of the three kinds of calls one frame can make.
  datatype Fate = Fate(raw: S.Luck, market: S.Luck, traders: S.Luck)

  datatype Joint = Joint(r: Recording, s: S.Store)

  function LuckOf(fate: Fate, c: Call): S.Luck {
    match c
    case WriteMarket(_) => fate.market
    case WriteTraders(_) => fate.traders
    case _ => fate.raw
  }

  // The sink after a sequence of calls.
  function Fed(o: S.Options, s: S.Store, calls: seq<Outcome>, fate: Fate): S.Store {
    if calls == [] then s
    else
      var c := calls[|calls| - 1].call;
      S.Effect(Fed(o, s, calls[..|calls| - 1], fate), c, o, LuckOf(fate, c)).0
  }

  // The frame's environment with every sink outcome replaced by what the stores answer.
  function Answered(cfg: Config, o: S.Options, j: Joint, v: Visit, fate: Fate): Env {
    var raw := WriteRaw(RawOf(Arrived(j.r.core, v.frame), v.frame));
    var (s1, rawOk) := S.Effect(j.s, raw, o, fate.raw);
    if !rawOk || !v.frame.content.Data? then v.env.(rawOk := rawOk)
    else
      var accepted := AcceptedOf(cfg, j.r.core, v.(env := v.env.(rawOk := true)));
      var traders := StampedTraders(v, RawIdOf(j.r.core, v));
      var (s2, marketOk) := if accepted == [] then (s1, true) else S.Effect(s1, WriteMarket(accepted), o, fate.market);
      v.env.(rawOk := true, marketOk := marketOk, tradersOk := S.Effect(s2, WriteTraders(traders), o, fate.traders).1)
  }

  function Settled(cfg: Config, o: S.Options, j: Joint, v: Visit, fate: Fate): Visit {
    v.(env := Answered(cfg, o, j, v, fate))
  }

  function Drive(cfg: Config, o: S.Options, j: Joint, v: Visit, fate: Fate): Joint {
    var settled := Settled(cfg, o, j, v, fate);
    Joint(Handle(cfg, j.r, settled), Fed(o, j.s, CallsOf(cfg, j.r, settled), fate))
  }

  datatype Turn = Turn(visit: Visit, fate: Fate)

  function DriveAll(cfg: Config, o: S.Options, j: Joint, turns: seq<Turn>): Joint {
    if turns == [] then j
    else
      var t := turns[|turns| - 1];
      Drive(cfg, o, DriveAll(cfg, o, j, turns[..|turns| - 1]), t.visit, t.fate)
  }

  // ----- the outcomes the recorder saw are the ones the stores produced -----

  // Call i ended as the sink, fed the calls before it, ends it.
  predicate TrueOutcome(o: S.Options, s: S.Store, calls: seq<Outcome>, fate: Fate, i: nat)
    requires i < |calls|
  {
    calls[i].ok == S.Effect(Fed(o, s, calls[..i], fate), calls[i].call, o, LuckOf(fate, calls[i].call)).1
  }

  predicate TrueOutcomes(o: S.Options, s: S.Store, calls: seq<Outcome>, fate: Fate) {
    forall i :: 0 <= i < |calls| ==> TrueOutcome(o, s, calls, fate, i)
  }

  lemma {:induction false} FedGaps(o: S.Options, s: S.Store, calls: seq<Outcome>, gaps: seq<Outcome>, fate: Fate)
    requires AllGaps(gaps) && TrueOutcomes(o, s, calls, fate)
    ensures Fed(o, s, calls + gaps, fate) == Fed(o, s, calls, fate) && TrueOutcomes(o, s, calls + gaps, fate)
  {
    if gaps == [] {
      assert calls + gaps == calls;
    } else {
      var n := |gaps| - 1;
      FedGaps(o, s, calls, gaps[..n], fate);
      assert calls + gaps == (calls + gaps[..n]) + [gaps[n]];
      FedOne(o, s, calls + gaps[..n], gaps[n], fate);
    }
  }

  lemma {:induction false} FedOne(o: S.Options, s: S.Store, calls: seq<Outcome>, last: Outcome, fate: Fate)
    requires TrueOutcomes(o, s, calls, fate)
    requires last.ok == S.Effect(Fed(o, s, calls, fate), last.call, o, LuckOf(fate, last.call)).1
    ensures TrueOutcomes(o, s, calls + [last], fate)
    ensures Fed(o, s, calls + [last], fate) ==
            S.Effect(Fed(o, s, calls, fate), last.call, o, LuckOf(fate, last.call)).0
  {
    var all := calls + [last];
    assert all[..|calls|] == calls;
    forall i | 0 <= i < |all|
      ensures TrueOutcome(o, s, all, fate, i)
    {
      if i < |calls| {
        assert TrueOutcome(o, s, calls, fate, i);
        assert all[..i] == calls[..i];
      }
    }
  }

  lemma AcceptsAlike(cfg: Config, a: Accepting, v: Visit, w: Visit, rawId: string, k: nat)
    requires v.frame == w.frame && v.env.validateAt == w.env.validateAt && v.env.marketIds == w.env.marketIds
    requires v.frame.content.Data? && k < |v.frame.content.market|
    ensures AcceptFrom(cfg, a, w, rawId, k) ==
            AcceptFrom(cfg, AcceptOne(cfg, a, EventAt(v, k), v.env.validateAt(k), rawId), w, rawId, k + 1)
  {
    assert EventAt(v, k) == EventAt(w, k);
    AcceptFromStep(cfg, a, w, rawId, k, AcceptOne(cfg, a, EventAt(w, k), w.env.validateAt(k), rawId));
  }

  // rest is acceptance of w, looked at only here.
  lemma RestFollows(cfg: Config, v: Visit, w: Visit, rawId: string, rest: (Accepting, nat) -> Accepting)
    requires v.frame == w.frame && v.env.validateAt == w.env.validateAt && v.env.marketIds == w.env.marketIds
    requires v.frame.content.Data?
    requires forall q, k: nat {:trigger AcceptFrom(cfg, q, w, rawId, k)} {:trigger rest(q, k)} ::
               k <= |v.frame.content.market| ==> rest(q, k) == AcceptFrom(cfg, q, w, rawId, k)
    ensures forall q, k: nat | k < |v.frame.content.market| ::
              rest(q, k) == rest(AcceptOne(cfg, q, EventAt(v, k), v.env.validateAt(k), rawId), k + 1)
    ensures forall q :: rest(q, |v.frame.content.market|) == q
  {
    forall q, k: nat | k < |v.frame.content.market|
      ensures rest(q, k) == rest(AcceptOne(cfg, q, EventAt(v, k), v.env.validateAt(k), rawId), k + 1)
    {
      AcceptsAlike(cfg, q, v, w, rawId, k);
    }
  }

  // A rest that every accepted event leaves as it is, and that nothing follows at the end, is acceptance.
  lemma {:induction false} AcceptFollows(
    cfg: Config, a: Accepting, v: Visit, rawId: string, rest: (Accepting, nat) -> Accepting)
    requires v.frame.content.Data?
    requires forall q, k: nat | k < |v.frame.content.market| ::
               rest(q, k) == rest(AcceptOne(cfg, q, EventAt(v, k), v.env.validateAt(k), rawId), k + 1)
    requires forall q :: rest(q, |v.frame.content.market|) == q
    ensures AcceptFrom(cfg, a, v, rawId, 0) == rest(a, 0)
  {
    var holds := (q: Accepting, k: nat) => rest(q, k) == rest(a, 0);
    forall q, k: nat
      ensures KeptByAccept(cfg, v, rawId, holds, q, k)
    {
    }
    AcceptInduction(cfg, a, v, rawId, 0, holds);
  }

  // Acceptance does not look at the outcomes of sink calls.
  lemma {:induction false} AcceptIgnoresOutcomes(cfg: Config, a: Accepting, v: Visit, w: Visit, rawId: string)
    requires v.frame == w.frame && v.env.validateAt == w.env.validateAt && v.env.marketIds == w.env.marketIds
    requires v.frame.content.Data?
    ensures AcceptFrom(cfg, a, v, rawId, 0) == AcceptFrom(cfg, a, w, rawId, 0)
  {
    var n := |v.frame.content.market|;
    var rest := (q: Accepting, k: nat) => if k <= n then AcceptFrom(cfg, q, w, rawId, k) else q;
    RestFollows(cfg, v, w, rawId, rest);
    AcceptFollows(cfg, a, v, rawId, rest);
  }

  lemma {:induction false} FedNothing(o: S.Options, s: S.Store, fate: Fate)
    ensures Fed(o, s, [], fate) == s && TrueOutcomes(o, s, [], fate)
  {
  }

  lemma {:induction false} RawIsTrue(cfg: Config, o: S.Options, j: Joint, v: Visit, fate: Fate)
    ensures var raw := RawCall(j.r.core, Settled(cfg, o, j, v, fate));
            && TrueOutcomes(o, j.s, [raw], fate)
            && Fed(o, j.s, [raw], fate) == S.Effect(j.s, raw.call, o, fate.raw).0
  {
    var raw := RawCall(j.r.core, Settled(cfg, o, j, v, fate));
    FedNothing(o, j.s, fate);
    FedOne(o, j.s, [], raw, fate);
    assert [] + [raw] == [raw];
  }

  lemma {:induction false} TailIsTrue(
    o: S.Options, s: S.Store, calls: seq<Outcome>, accepted: seq<MarketEvent>, v: Visit, rawId: string, fate: Fate)
    requires v.frame.content.Data? && TrueOutcomes(o, s, calls, fate)
    requires var s1 := Fed(o, s, calls, fate);
             var (s2, ok2) :=
               if accepted == [] then (s1, true) else S.Effect(s1, WriteMarket(accepted), o, fate.market);
             && v.env.marketOk == ok2
             && v.env.tradersOk == S.Effect(s2, WriteTraders(StampedTraders(v, rawId)), o, fate.traders).1
    ensures TrueOutcomes(o, s, calls + Tail(accepted, v, rawId), fate)
  {
    var market, traders := MarketCall(accepted, v.env), TraderCall(v, rawId);
    if accepted == [] {
      assert calls + market == calls;
    } else {
      FedOne(o, s, calls, Outcome(WriteMarket(accepted), v.env.marketOk), fate);
    }
    assert TrueOutcomes(o, s, calls + market, fate);
    if accepted != [] && !v.env.marketOk {
      assert Tail(accepted, v, rawId) == market;
    } else {
      if traders == [] {
        assert calls + market + traders == calls + market;
      } else {
        FedOne(o, s, calls + market, traders[0], fate);
      }
      assert calls + Tail(accepted, v, rawId) == calls + market + traders;
    }
  }

  /** Driving is honest: every sink call the recorder makes for the frame ends, as far as the recorder can
      tell, exactly as the batching sink ends it. */
  lemma DriveIsTrue(cfg: Config, o: S.Options, j: Joint, v: Visit, fate: Fate)
    ensures TrueOutcomes(o, j.s, CallsOf(cfg, j.r, Settled(cfg, o, j, v, fate)), fate)
  {
    var settled := Settled(cfg, o, j, v, fate);
    var raw := RawCall(j.r.core, settled);
    RawIsTrue(cfg, o, j, v, fate);
    if !settled.env.rawOk || !v.frame.content.Data? {
      CallsWithoutData(cfg, j.r, settled);
    } else {
      var gaps := HandleShape(cfg, j.r, settled);
      FedGaps(o, j.s, [raw], gaps, fate);
      var start := Accepting(Parsed(Archived(Submitted(j.r.core, settled))), []);
      var willing := v.(env := v.env.(rawOk := true));
      AcceptIgnoresOutcomes(cfg, start, settled, willing, RawIdOf(j.r.core, v));
      assert AcceptedOf(cfg, j.r.core, settled) == AcceptedOf(cfg, j.r.core, willing);
      TailIsTrue(o, j.s, [raw] + gaps, AcceptedOf(cfg, j.r.core, settled), settled, RawIdOf(j.r.core, v), fate);
    }
  }

  // ----- ordering -----

  lemma {:induction false} ServingInOrder(
    o: S.Options, s: S.Store, calls: seq<Outcome>, rawId: string, fate: Fate, ids: set<string>)
    requires S.InOrder(s, ids) && rawId in ids && AllServe(calls, rawId)
    ensures S.InOrder(Fed(o, s, calls, fate), ids)
  {
    if calls != [] {
      var front, c := calls[..|calls| - 1], calls[|calls| - 1].call;
      ServingInOrder(o, s, front, rawId, fate, ids);
      assert Serves(c, rawId);
      S.EffectInOrder(Fed(o, s, front, fate), c, o, LuckOf(fate, c), ids);
    }
  }

  lemma {:induction false} FedSplits(o: S.Options, s: S.Store, a: seq<Outcome>, b: seq<Outcome>, fate: Fate)
    ensures Fed(o, s, a + b, fate) == Fed(o, Fed(o, s, a, fate), b, fate)
  {
    if b == [] {
      assert a + b == a;
    } else {
      assert (a + b)[..|a + b| - 1] == a + b[..|b| - 1];
      FedSplits(o, s, a, b[..|b| - 1], fate);
    }
  }

  lemma DriveInOrder(cfg: Config, o: S.Options, j: Joint, v: Visit, fate: Fate, ids: set<string>)
    returns (ids': set<string>)
    requires S.InOrder(j.s, ids)
    ensures S.InOrder(Drive(cfg, o, j, v, fate).s, ids')
  {
    var settled := Settled(cfg, o, j, v, fate);
    var raw := RawCall(j.r.core, settled);
    var more := FrameCalls(cfg, j.r, settled);
    RawIsTrue(cfg, o, j, v, fate);
    S.EffectInOrder(j.s, raw.call, o, fate.raw, ids);
    ids' := S.Grown(ids, raw.call, settled.env.rawOk);
    var s1 := S.Effect(j.s, raw.call, o, fate.raw).0;
    FedSplits(o, j.s, [raw], more, fate);
    if settled.env.rawOk {
      ServingInOrder(o, s1, more, RawIdOf(j.r.core, settled), fate, ids');
    } else {
      FedNothing(o, s1, fate);
    }
  }

  lemma EmptyInOrder()
    ensures S.InOrder(S.EMPTY, {})
  {
  }

  lemma {:induction false} RunInOrder(cfg: Config, o: S.Options, r: Recording, turns: seq<Turn>)
    returns (ids: set<string>)
    ensures S.InOrder(DriveAll(cfg, o, Joint(r, S.EMPTY), turns).s, ids)
  {
    if turns == [] {
      EmptyInOrder();
      ids := {};
    } else {
      var front, t := turns[..|turns| - 1], turns[|turns| - 1];
      ids := RunInOrder(cfg, o, r, front);
      ids := DriveInOrder(cfg, o, DriveAll(cfg, o, Joint(r, S.EMPTY), front), t.visit, t.fate, ids);
    }
  }

  /** Whatever object writes and inserts fail, no market or trader row is ever inserted before both the
      object and the index row of the raw frame it references, the final flush included. */
  lemma {:induction false} NoRowBeforeItsFrame(cfg: Config, o: S.Options, r: Recording, turns: seq<Turn>, last: S.Luck)
    ensures S.RawBeforeRows(DriveAll(cfg, o, Joint(r, S.EMPTY), turns).s.log)
    ensures S.RawBeforeRows(S.FlushAll(DriveAll(cfg, o, Joint(r, S.EMPTY), turns).s, last).0.log)
  {
    var ids := RunInOrder(cfg, o, r, turns);
    S.FlushInOrder(DriveAll(cfg, o, Joint(r, S.EMPTY), turns).s, last, ids);
  }

  // ----- conservation -----

  // The frames the recorder handles in a driven run, each with what the stores answered.
  function Handled(cfg: Config, o: S.Options, j: Joint, turns: seq<Turn>): (visits: seq<Visit>)
    ensures |visits| == |turns|
  {
    if turns == [] then []
    else
      var front, t := turns[..|turns| - 1], turns[|turns| - 1];
      Handled(cfg, o, j, front) + [Settled(cfg, o, DriveAll(cfg, o, j, front), t.visit, t.fate)]
  }

  lemma {:induction false} HandledFrame(cfg: Config, o: S.Options, j: Joint, turns: seq<Turn>, i: nat)
    requires i < |turns|
    ensures Handled(cfg, o, j, turns)[i].frame == turns[i].visit.frame
  {
    if i < |turns| - 1 {
      HandledFrame(cfg, o, j, turns[..|turns| - 1], i);
    }
  }

  // A driven run is a run of the recorder over the same frames, so what holds of every run holds of it.
  lemma {:induction false} DrivenIsRun(cfg: Config, o: S.Options, j: Joint, turns: seq<Turn>)
    ensures DriveAll(cfg, o, j, turns).r == HandleAll(cfg, j.r, Handled(cfg, o, j, turns))
    ensures forall i :: 0 <= i < |turns| ==> Handled(cfg, o, j, turns)[i].frame == turns[i].visit.frame
  {
    forall i | 0 <= i < |turns|
      ensures Handled(cfg, o, j, turns)[i].frame == turns[i].visit.frame
    {
      HandledFrame(cfg, o, j, turns, i);
    }
    if turns != [] {
      var front := turns[..|turns| - 1];
      DrivenIsRun(cfg, o, j, front);
      var visits := Handled(cfg, o, j, turns);
      assert visits[..|visits| - 1] == Handled(cfg, o, j, front);
    }
  }

  // The rows these calls owe, on top of t.
  function OwedBy(t: S.Tables, calls: seq<Outcome>, put: bool): S.Tables {
    S.Tables(
      t.raw + (if put then RawsOf(calls) else []), t.market + Offered(calls), t.traders + OfferedTraders(calls))
  }

  lemma NothingMoreOwed(t: S.Tables, put: bool)
    ensures OwedBy(t, [], put) == t
  {
    assert t.raw + [] == t.raw && t.market + [] == t.market && t.traders + [] == t.traders;
  }

  lemma OneMoreOwed(t: S.Tables, calls: seq<Outcome>, o: Outcome, put: bool)
    ensures OwedBy(t, calls + [o], put) == S.Owing(OwedBy(t, calls, put), o.call, put)
  {
    RawsOneMore(calls, o);
    OfferedOneMore(calls, o);
    TradersOneMore(calls, o);
    match o.call
    case WriteRaw(f) => Regroup(t.raw, RawsOf(calls), [f]);
    case WriteMarket(events) => Regroup(t.market, Offered(calls), events);
    case WriteTraders(events) => Regroup(t.traders, OfferedTraders(calls), events);
    case _ =>
  }

  lemma SamePutOwes(t: S.Tables, fate: Fate, c: Call)
    ensures S.Owing(t, c, LuckOf(fate, c).put) == S.Owing(t, c, fate.raw.put)
  {
  }

  lemma {:induction false} FedConserves(
    o: S.Options, s: S.Store, calls: seq<Outcome>, fate: Fate, t: S.Tables)
    requires S.Holds(s, t)
    ensures S.Holds(Fed(o, s, calls, fate), OwedBy(t, calls, fate.raw.put))
  {
    if calls == [] {
      NothingMoreOwed(t, fate.raw.put);
    } else {
      var front, last := calls[..|calls| - 1], calls[|calls| - 1];
      var owed := OwedBy(t, front, fate.raw.put);
      FedConserves(o, s, front, fate, t);
      S.EffectConserves(Fed(o, s, front, fate), last.call, o, LuckOf(fate, last.call), owed);
      SamePutOwes(owed, fate, last.call);
      OneMoreOwed(t, front, last, fate.raw.put);
      assert calls == front + [last];
    }
  }

  // The raw frames whose object was written, told from the frames received.
  function RawStored(turns: seq<Turn>): seq<RawFrame> {
    if turns == [] then []
    else
      var f, put := turns[|turns| - 1].visit.frame, turns[|turns| - 1].fate.raw.put;
      var raw := RawFrame(RawId(|turns|, f.receipt.time), f.channel, f.payload, f.receipt);
      RawStored(turns[..|turns| - 1]) + (if put then [raw] else [])
  }

  // What the recorder handed over, and the frames stored.
  function DueRows(raw: seq<RawFrame>, calls: seq<Outcome>): S.Tables {
    S.Tables(raw, Offered(calls), OfferedTraders(calls))
  }

  lemma {:induction false} CallsJoinDue(raw: seq<RawFrame>, before: seq<Outcome>, more: seq<Outcome>, put: bool)
    ensures OwedBy(DueRows(raw, before), more, put) ==
            DueRows(raw + (if put then RawsOf(more) else []), before + more)
  {
    OfferedSplit(before, more);
    TradersSplit(before, more);
  }

  lemma DriveConserves(cfg: Config, o: S.Options, j: Joint, v: Visit, fate: Fate, raw: seq<RawFrame>)
    requires S.Holds(j.s, DueRows(raw, j.r.core.calls))
    ensures var d := Drive(cfg, o, j, v, fate);
            var f := RawOf(Arrived(j.r.core, v.frame), v.frame);
            S.Holds(d.s, DueRows(raw + (if fate.raw.put then [f] else []), d.r.core.calls))
  {
    var settled := Settled(cfg, o, j, v, fate);
    var calls := CallsOf(cfg, j.r, settled);
    FedConserves(o, j.s, calls, fate, DueRows(raw, j.r.core.calls));
    var _ := FrameCalls(cfg, j.r, settled);
    FrameHasOneRaw(cfg, j.r, settled);
    CallsJoinDue(raw, j.r.core.calls, calls, fate.raw.put);
  }

  lemma {:induction false} StoredOneMore(turns: seq<Turn>, c: Core)
    requires turns != [] && c.metrics.received == |turns| - 1
    ensures var t := turns[|turns| - 1];
            RawStored(turns) ==
            RawStored(turns[..|turns| - 1])
            + (if t.fate.raw.put then [RawOf(Arrived(c, t.visit.frame), t.visit.frame)] else [])
  {
  }

  lemma {:induction false} DrivenReceives(cfg: Config, o: S.Options, r: Recording, turns: seq<Turn>)
    requires r.core == NEW_CORE
    ensures DriveAll(cfg, o, Joint(r, S.EMPTY), turns).r.core.metrics.received == |turns|
  {
    var j := Joint(r, S.EMPTY);
    DrivenIsRun(cfg, o, j, turns);
    RunIntake(cfg, r, Handled(cfg, o, j, turns));
  }

  /** A driven run loses, repeats and reorders nothing the recorder handed over: in each table the rows
      inserted, then those pending, are all market events and all trader events of the recorder's calls, and
      the raw frames received whose object was written. */
  lemma {:induction false} DrivenRowsAreConserved(cfg: Config, o: S.Options, r: Recording, turns: seq<Turn>)
    requires r.core == NEW_CORE
    ensures var d := DriveAll(cfg, o, Joint(r, S.EMPTY), turns);
            S.Holds(d.s, S.Tables(RawStored(turns), Offered(d.r.core.calls), OfferedTraders(d.r.core.calls)))
  {
    if turns == [] {
      S.NothingOwed();
      assert DueRows([], NEW_CORE.calls) == S.NO_ROWS;
    } else {
      var front, t := turns[..|turns| - 1], turns[|turns| - 1];
      DrivenRowsAreConserved(cfg, o, r, front);
      DrivenReceives(cfg, o, r, front);
      var before := DriveAll(cfg, o, Joint(r, S.EMPTY), front);
      DriveConserves(cfg, o, before, t.visit, t.fate, RawStored(front));
      StoredOneMore(turns, before.r.core);
    }
  }

  // Once the last flush returns, everything handed over is in its table.
  lemma {:induction false} DrivenRowsAreInserted(
    cfg: Config, o: S.Options, r: Recording, turns: seq<Turn>, last: S.Luck)
    requires r.core == NEW_CORE && S.FlushAll(DriveAll(cfg, o, Joint(r, S.EMPTY), turns).s, last).1
    ensures var d := DriveAll(cfg, o, Joint(r, S.EMPTY), turns);
            S.Inserted(S.FlushAll(d.s, last).0.log) ==
            S.Tables(RawStored(turns), Offered(d.r.core.calls), OfferedTraders(d.r.core.calls))
  {
    var d := DriveAll(cfg, o, Joint(r, S.EMPTY), turns);
    DrivenRowsAreConserved(cfg, o, r, turns);
    S.FlushEmpties(d.s, last, DueRows(RawStored(turns), d.r.core.calls));
  }
}

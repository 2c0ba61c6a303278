/** Which market records are handed over and which are dropped as duplicates, told by the records alone. */
module Novelty {
  import opened Prelude
  import opened Events
  import opened Sinks
  import opened RecorderStates
  import opened Recording
  import opened Detection
  import Dedup

  // ----- what the duplicate detector accepted are the novel arrivals -----

  function EntryOf(a: Arrival): Dedup.Entry {
    Dedup.Entry(IdentityOf(Normalized(a)), a.receipt.time)
  }

  function EntriesOf(arrivals: seq<Arrival>): seq<Dedup.Entry> {
    seq(|arrivals|, i requires 0 <= i < |arrivals| => EntryOf(arrivals[i]))
  }

  function SightingOf(a: Arrival): Dedup.Sighting {
    Dedup.Sighting(IdentityOf(Normalized(a)), a.receipt.time)
  }

  lemma {:induction false} NextAccepted(limits: Dedup.Limits, arrivals: seq<Arrival>, a: Arrival)
    ensures Dedup.Run(limits, Sightings(arrivals + [a])) ==
            Dedup.Next(limits, Dedup.Run(limits, Sightings(arrivals)), SightingOf(a))
  {
    assert Sightings(arrivals + [a]) == Sightings(arrivals) + [SightingOf(a)];
    assert (Sightings(arrivals) + [SightingOf(a)])[..|arrivals|] == Sightings(arrivals);
  }

  lemma EntriesOneMore(novel: seq<Arrival>, a: Arrival)
    ensures EntriesOf(novel + [a]) == EntriesOf(novel) + [EntryOf(a)]
  {
  }

  predicate Matches(limits: Dedup.Limits, arrivals: seq<Arrival>) {
    Dedup.Run(limits, Sightings(arrivals)).accepted == EntriesOf(Novel(limits, arrivals))
  }

  lemma OneMoreMatches(limits: Dedup.Limits, arrivals: seq<Arrival>, a: Arrival)
    requires Matches(limits, arrivals)
    ensures Matches(limits, arrivals + [a])
  {
    NextAccepted(limits, arrivals, a);
    Dedup.NextAccepts(limits, Dedup.Run(limits, Sightings(arrivals)), SightingOf(a));
    NovelOneMore(limits, arrivals, a);
    EntriesOneMore(Novel(limits, arrivals), a);
  }

  lemma AcceptedAreNovel(limits: Dedup.Limits, arrivals: seq<Arrival>)
    ensures Matches(limits, arrivals)
  {
    var holds := front => Matches(limits, front);
    assert holds([]) by {
      assert Sightings([]) == [];
    }
    forall front, a | holds(front)
      ensures holds(front + [a])
    {
      OneMoreMatches(limits, front, a);
    }
    Growing(arrivals, holds);
  }

  lemma {:induction false} NovelArrived(limits: Dedup.Limits, arrivals: seq<Arrival>, k: nat) returns (i: nat)
    requires k < |Novel(limits, arrivals)|
    ensures i < |arrivals| && arrivals[i] == Novel(limits, arrivals)[k]
  {
    var front := arrivals[..|arrivals| - 1];
    if k < |Novel(limits, front)| {
      i := NovelArrived(limits, front, k);
    } else {
      i := |arrivals| - 1;
    }
  }

  // ----- a record that never came before is handed over -----

  predicate CameBefore(arrivals: seq<Arrival>, a: Arrival) {
    exists i :: 0 <= i < |arrivals| && SameRecord(arrivals[i].record, a.record)
  }

  /** Whatever the times and limits, an arrival repeats something only if a record with its stream and number,
      or without numbers its stream and digest, arrived before. */
  lemma FirstIsNovel(limits: Dedup.Limits, arrivals: seq<Arrival>, a: Arrival)
    ensures Repeats(limits, arrivals, a) ==> CameBefore(arrivals, a)
  {
    if Repeats(limits, arrivals, a) {
      var k := Dedup.DuplicateWasAccepted(limits, Sightings(arrivals), SightingOf(a));
      AcceptedAreNovel(limits, arrivals);
      var i := NovelArrived(limits, arrivals, k);
      IdentifiesExactly(Normalized(arrivals[i]), Normalized(a));
    }
  }

  // ----- exactly what is dropped -----

  predicate InTimeOrder(arrivals: seq<Arrival>) {
    forall i, j :: 0 <= i < j < |arrivals| ==> arrivals[i].receipt.time <= arrivals[j].receipt.time
  }

  // Such a record was handed over, within the window of a's receipt, and fewer than capacity others since.
  predicate RecentlyHandedOver(limits: Dedup.Limits, novel: seq<Arrival>, a: Arrival) {
    exists k :: 0 <= k < |novel| && RecentAt(limits, novel, a, k)
  }

  predicate RecentAt(limits: Dedup.Limits, novel: seq<Arrival>, a: Arrival, k: nat)
    requires k < |novel|
  {
    && SameRecord(novel[k].record, a.record)
    && a.receipt.time - novel[k].receipt.time <= limits.window
    && |novel| - k <= limits.capacity
  }

  lemma OrderedSightings(arrivals: seq<Arrival>, a: Arrival)
    requires InTimeOrder(arrivals + [a])
    ensures Dedup.OrderedBefore(Sightings(arrivals), a.receipt.time)
  {
    var all := arrivals + [a];
    forall i | 0 <= i < |arrivals|
      ensures arrivals[i].receipt.time <= a.receipt.time
    {
      assert all[i].receipt.time <= all[|arrivals|].receipt.time;
    }
    forall i, j | 0 <= i < j < |arrivals|
      ensures arrivals[i].receipt.time <= arrivals[j].receipt.time
    {
      assert all[i].receipt.time <= all[j].receipt.time;
    }
  }

  lemma {:induction false} DroppedWasRecent(limits: Dedup.Limits, arrivals: seq<Arrival>, a: Arrival)
    requires InTimeOrder(arrivals + [a]) && limits.window >= 0 && Repeats(limits, arrivals, a)
    ensures RecentlyHandedOver(limits, Novel(limits, arrivals), a)
  {
    OrderedSightings(arrivals, a);
    AcceptedAreNovel(limits, arrivals);
    var k := Dedup.DuplicateWasRecent(limits, Sightings(arrivals), SightingOf(a));
    IdentifiesExactly(Normalized(Novel(limits, arrivals)[k]), Normalized(a));
    assert RecentAt(limits, Novel(limits, arrivals), a, k);
  }

  lemma {:induction false} RecentIsDropped(limits: Dedup.Limits, arrivals: seq<Arrival>, a: Arrival)
    requires InTimeOrder(arrivals + [a]) && limits.window >= 0
    requires RecentlyHandedOver(limits, Novel(limits, arrivals), a)
    ensures Repeats(limits, arrivals, a)
  {
    var novel := Novel(limits, arrivals);
    var k :| 0 <= k < |novel| && RecentAt(limits, novel, a, k);
    OrderedSightings(arrivals, a);
    AcceptedAreNovel(limits, arrivals);
    IdentifiesExactly(Normalized(novel[k]), Normalized(a));
    assert EntriesOf(novel)[k] == EntryOf(novel[k]);
    Dedup.RedeliveryIsRecognised(limits, Sightings(arrivals), SightingOf(a), k);
  }

  /** With receipts in order of time and a window that is not negative, an arrival is dropped exactly when a
      record with its stream and number, or without numbers its stream and digest, was handed over within the
      window, with fewer than capacity others since; whatever its other fields. */
  lemma {:induction false} RepeatsExactly(limits: Dedup.Limits, arrivals: seq<Arrival>, a: Arrival)
    requires InTimeOrder(arrivals + [a]) && limits.window >= 0
    ensures Repeats(limits, arrivals, a) <==> RecentlyHandedOver(limits, Novel(limits, arrivals), a)
  {
    if Repeats(limits, arrivals, a) {
      DroppedWasRecent(limits, arrivals, a);
    }
    if RecentlyHandedOver(limits, Novel(limits, arrivals), a) {
      RecentIsDropped(limits, arrivals, a);
    }
  }

  // ----- runs -----

  lemma {:induction false} NovelIsKept(limits: Dedup.Limits, arrivals: seq<Arrival>, i: nat)
    requires i < |arrivals| && !Repeats(limits, arrivals[..i], arrivals[i])
    ensures arrivals[i] in Novel(limits, arrivals)
  {
    var front := arrivals[..|arrivals| - 1];
    if i < |front| {
      assert front[..i] == arrivals[..i];
      NovelIsKept(limits, front, i);
    }
  }

  /** In any run, whatever fails, the first market record of its kind to be archived, by stream and number or
      without numbers by stream and digest, is handed to the sink. */
  lemma {:induction false} FirstsAreHandedOver(
    cfg: Config, machine: Machine, visits: seq<Visit>, at: nat -> int, flushOk: bool, i: nat)
    requires Permitted(machine.state, Connecting) && i < |Arrivals(visits)|
    requires !CameBefore(Arrivals(visits)[..i], Arrivals(visits)[i])
    ensures Judgement(cfg.quality, Arrivals(visits)[i]) in
            Offered(Run(cfg, Recording(NEW_CORE, machine), visits, at, flushOk).core.calls)
  {
    var arrivals := Arrivals(visits);
    var novel := Novel(cfg.dedup, arrivals);
    RunsDetect(cfg, machine, visits, at, flushOk);
    FirstIsNovel(cfg.dedup, arrivals[..i], arrivals[i]);
    NovelIsKept(cfg.dedup, arrivals, i);
    var k :| 0 <= k < |novel| && novel[k] == arrivals[i];
    assert Judgements(cfg.quality, novel)[k] == Judgement(cfg.quality, arrivals[i]);
  }

  // The market records to hand over: each one that no such record handed over before makes a duplicate.
  function HandedOver(limits: Dedup.Limits, arrivals: seq<Arrival>): seq<Arrival> {
    if arrivals == [] then []
    else
      var before, last := HandedOver(limits, arrivals[..|arrivals| - 1]), arrivals[|arrivals| - 1];
      before + (if RecentlyHandedOver(limits, before, last) then [] else [last])
  }

  lemma {:induction false} NovelIsHandedOver(limits: Dedup.Limits, arrivals: seq<Arrival>)
    requires InTimeOrder(arrivals) && limits.window >= 0
    ensures Novel(limits, arrivals) == HandedOver(limits, arrivals)
  {
    if arrivals != [] {
      var front, last := arrivals[..|arrivals| - 1], arrivals[|arrivals| - 1];
      assert front + [last] == arrivals;
      NovelIsHandedOver(limits, front);
      RepeatsExactly(limits, front, last);
    }
  }

  /** In any run over frames received in order of time, whatever fails, the market events handed to the sink are
      exactly the records so chosen, each judged and referring to its raw frame: duplicate detection, told
      without the cache. */
  lemma {:induction false} RunsHandOverExactly(
    cfg: Config, machine: Machine, visits: seq<Visit>, at: nat -> int, flushOk: bool)
    requires Permitted(machine.state, Connecting)
    requires InTimeOrder(Arrivals(visits)) && cfg.dedup.window >= 0
    ensures Offered(Run(cfg, Recording(NEW_CORE, machine), visits, at, flushOk).core.calls) ==
            Judgements(cfg.quality, HandedOver(cfg.dedup, Arrivals(visits)))
  {
    RunsDetect(cfg, machine, visits, at, flushOk);
    NovelIsHandedOver(cfg.dedup, Arrivals(visits));
  }
}

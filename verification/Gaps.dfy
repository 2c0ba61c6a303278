/** Continuity: sequence gaps proven by a jump, silence gaps suspected from quiet, and the heartbeat. */
module Gaps {
  import opened Prelude
  import opened Events

  datatype Kind = SequenceGap | SilenceGap

  // gap_id, generated per report, is not part of the model.
  datatype Report = Report(
    kind: Kind, stream: Stream, start: int, end: Option<int>,
    expected: Option<int>, actual: Option<int>, suspected: bool)

  function MissingCount(r: Report): Option<int> {
    if r.expected.None? || r.actual.None? then None else Some(Max(0, r.actual.value - r.expected.value))
  }

  datatype Position = Position(lastSequence: Option<int>, lastSeenAt: Option<int>, messages: nat)

  // The dictionary of streams: its keys in insertion order, and the position of each.
  datatype Tracker = Tracker(order: seq<Stream>, positions: map<Stream, Position>)

  const NOTHING := Tracker([], map[])

  ghost predicate Valid(t: Tracker) {
    && (forall s :: s in t.positions <==> s in t.order)
    && (forall i, j :: 0 <= i < j < |t.order| ==> t.order[i] != t.order[j])
  }

  function PositionOf(t: Tracker, s: Stream): Position {
    if s in t.positions then t.positions[s] else Position(None, None, 0)
  }

  function Moved(p: Position, sequence: Option<int>, at: int): Position {
    Position(
      if sequence.Some? && (p.lastSequence.None? || sequence.value > p.lastSequence.value) then sequence
      else p.lastSequence,
      Some(at),
      p.messages + 1)
  }

  function JumpReport(p: Position, s: Stream, sequence: Option<int>, at: int): Option<Report> {
    if sequence.None? || p.lastSequence.None? then None
    else
      var expected := p.lastSequence.value + 1;
      if sequence.value <= p.lastSequence.value || sequence.value == expected then None
      else Some(Report(SequenceGap, s, if p.lastSeenAt.Some? then p.lastSeenAt.value else at, Some(at),
                       Some(expected), sequence, false))
  }

  function Observing(t: Tracker, s: Stream, sequence: Option<int>, at: int): (Tracker, Option<Report>) {
    var p := PositionOf(t, s);
    (Tracker(if s in t.positions then t.order else t.order + [s], t.positions[s := Moved(p, sequence, at)]),
     JumpReport(p, s, sequence, at))
  }

  // Quiet for longer than the threshold.
  predicate Silent(t: Tracker, s: Stream, now: int, threshold: int) {
    s in t.positions && t.positions[s].lastSeenAt.Some? && now - t.positions[s].lastSeenAt.value > threshold
  }

  function SilenceReport(t: Tracker, s: Stream): Report
    requires s in t.positions && t.positions[s].lastSeenAt.Some?
  {
    Report(SilenceGap, s, t.positions[s].lastSeenAt.value, None, None, None, true)
  }

  // One report per silent stream, in the order the streams first appeared.
  function SilenceReports(t: Tracker, order: seq<Stream>, now: int, threshold: int): seq<Report> {
    if order == [] then []
    else
      var s := order[|order| - 1];
      SilenceReports(t, order[..|order| - 1], now, threshold)
      + (if Silent(t, s, now, threshold) then [SilenceReport(t, s)] else [])
  }

  class GapDetector {
    const silenceThreshold: int
    var order: seq<Stream>
    var positions: map<Stream, Position>

    constructor (silenceThreshold: int)
      ensures this.silenceThreshold == silenceThreshold && Value() == NOTHING
    {
      this.silenceThreshold := silenceThreshold;
      order, positions := [], map[];
    }

    function Value(): Tracker
      reads this
    {
      Tracker(order, positions)
    }

    method Observe(s: Stream, sequence: Option<int>, at: int) returns (report: Option<Report>)
      modifies this
      ensures (Value(), report) == Observing(old(Value()), s, sequence, at)
    {
      if s !in positions {
        order := order + [s];
        positions := positions[s := Position(None, None, 0)];
      }
      var position := positions[s];
      var previousSequence, previousSeen := position.lastSequence, position.lastSeenAt;
      position := position.(messages := position.messages + 1, lastSeenAt := Some(at));
      if sequence.Some? && (position.lastSequence.None? || sequence.value > position.lastSequence.value) {
        position := position.(lastSequence := sequence);
      }
      positions := positions[s := position];
      assert positions == old(positions)[s := position];
      if sequence.None? || previousSequence.None? {
        return None;
      }
      var expected := previousSequence.value + 1;
      if sequence.value <= previousSequence.value || sequence.value == expected {
        return None;
      }
      report := Some(Report(SequenceGap, s, if previousSeen.Some? then previousSeen.value else at, Some(at),
                            Some(expected), sequence, false));
    }

    method CheckSilence(now: int) returns (reports: seq<Report>)
      ensures reports == SilenceReports(Value(), order, now, silenceThreshold)
    {
      reports := [];
      for i := 0 to |order|
        invariant reports == SilenceReports(Value(), order[..i], now, silenceThreshold)
      {
        assert order[..i + 1][..i] == order[..i];
        var s := order[i];
        if s in positions && positions[s].lastSeenAt.Some? {
          var seen := positions[s].lastSeenAt.value;
          if now - seen > silenceThreshold {
            reports := reports + [Report(SilenceGap, s, seen, None, None, None, true)];
          }
        }
      }
      assert order[..|order|] == order;
    }
  }

  // Data-flow liveness of the whole connection.
  datatype Beat = Beat(lastDataAt: Option<int>, messages: nat)

  function Heard(b: Beat, at: int): Beat {
    Beat(Some(at), b.messages + 1)
  }

  predicate ConnectionSilent(b: Beat, now: int, threshold: int) {
    b.lastDataAt.Some? && now - b.lastDataAt.value > threshold
  }

  class Heartbeat {
    const threshold: int
    var lastDataAt: Option<int>
    var messages: nat

    constructor (threshold: int)
      ensures this.threshold == threshold && Value() == Beat(None, 0)
    {
      this.threshold := threshold;
      lastDataAt, messages := None, 0;
    }

    function Value(): Beat
      reads this
    {
      Beat(lastDataAt, messages)
    }

    method RecordData(at: int)
      modifies this
      ensures Value() == Heard(old(Value()), at)
    {
      lastDataAt := Some(at);
      messages := messages + 1;
    }
  }

  // ----- sequence gaps over whole histories -----

  datatype Observation = Observation(stream: Stream, sequence: Option<int>, at: int)

  datatype History = History(tracker: Tracker, reports: seq<Report>)

  function After(h: History, o: Observation): History {
    var (tracker, report) := Observing(h.tracker, o.stream, o.sequence, o.at);
    History(tracker, h.reports + if report.Some? then [report.value] else [])
  }

  // The tracker and all reports after any interleaving of streams.
  function Run(obs: seq<Observation>): History {
    if obs == [] then History(NOTHING, []) else After(Run(obs[..|obs| - 1]), obs[|obs| - 1])
  }

  // The sequence numbers observed on one stream, in order.
  function Numbers(obs: seq<Observation>, s: Stream): seq<int> {
    if obs == [] then []
    else
      var o := obs[|obs| - 1];
      Numbers(obs[..|obs| - 1], s) + (if o.stream == s && o.sequence.Some? then [o.sequence.value] else [])
  }

  // The [expected, actual) intervals reported on one stream, in order.
  datatype Interval = Interval(from: int, to: int)

  function Intervals(reports: seq<Report>, s: Stream): seq<Interval> {
    if reports == [] then []
    else
      var r := reports[|reports| - 1];
      Intervals(reports[..|reports| - 1], s)
      + (if r.stream == s && r.expected.Some? && r.actual.Some?
         then [Interval(r.expected.value, r.actual.value)]
         else [])
  }

  function Highest(numbers: seq<int>): int
    requires numbers != []
  {
    var last := numbers[|numbers| - 1];
    if |numbers| == 1 then last else Max(Highest(numbers[..|numbers| - 1]), last)
  }

  // The running maxima: the numbers that were higher than everything before them.
  function Records(numbers: seq<int>): set<int> {
    if numbers == [] then {}
    else
      var front, last := numbers[..|numbers| - 1], numbers[|numbers| - 1];
      if front == [] || last > Highest(front) then Records(front) + {last} else Records(front)
  }

  // How many numbers after the first were strict advances.
  function Advances(numbers: seq<int>): nat {
    if |numbers| <= 1 then 0
    else
      var front, last := numbers[..|numbers| - 1], numbers[|numbers| - 1];
      Advances(front) + (if last > Highest(front) then 1 else 0)
  }

  predicate Inside(x: int, i: Interval) {
    i.from <= x < i.to
  }

  predicate Covered(x: int, intervals: seq<Interval>) {
    exists i :: 0 <= i < |intervals| && Inside(x, intervals[i])
  }

  function Length(intervals: seq<Interval>): int {
    if intervals == [] then 0
    else
      var last := intervals[|intervals| - 1];
      Length(intervals[..|intervals| - 1]) + Max(0, last.to - last.from)
  }

  // Non-empty, increasing, pairwise separated intervals within (first, highest].
  predicate Separated(intervals: seq<Interval>, first: int, highest: int) {
    && (forall i :: 0 <= i < |intervals| ==> first < intervals[i].from < intervals[i].to <= highest)
    && (forall i, j :: 0 <= i < j < |intervals| ==> intervals[i].to < intervals[j].from)
  }

  // The reported intervals hold exactly the integers between first and highest that were never a running maximum.
  ghost predicate ExactlyMissing(intervals: seq<Interval>, numbers: seq<int>)
    requires numbers != []
  {
    forall x :: Covered(x, intervals) <==> numbers[0] <= x <= Highest(numbers) && x !in Records(numbers)
  }

  ghost predicate Complete(numbers: seq<int>, intervals: seq<Interval>, last: Option<int>) {
    if numbers == [] then last == None && intervals == []
    else
      && last == Some(Highest(numbers))
      && Separated(intervals, numbers[0], Highest(numbers))
      && ExactlyMissing(intervals, numbers)
      && Length(intervals) == Highest(numbers) - numbers[0] - Advances(numbers)
  }

  lemma {:induction false} HighestBounds(numbers: seq<int>, i: nat)
    requires i < |numbers|
    ensures numbers[i] <= Highest(numbers)
  {
    if i < |numbers| - 1 {
      HighestBounds(numbers[..|numbers| - 1], i);
    }
  }

  lemma {:induction false} HighestIsRecord(numbers: seq<int>)
    requires numbers != []
    ensures Highest(numbers) in Records(numbers)
  {
    if |numbers| > 1 {
      HighestIsRecord(numbers[..|numbers| - 1]);
    }
  }

  lemma {:induction false} RecordWasObserved(numbers: seq<int>, x: int) returns (i: nat)
    requires x in Records(numbers)
    ensures i < |numbers| && numbers[i] == x
  {
    var n := |numbers| - 1;
    if numbers[n] == x {
      i := n;
    } else {
      i := RecordWasObserved(numbers[..n], x);
    }
  }

  lemma {:induction false} HighestIsHighest(numbers: seq<int>)
    requires numbers != []
    ensures Highest(numbers) in Records(numbers)
    ensures forall x <- numbers :: x <= Highest(numbers)
    ensures forall x <- Records(numbers) :: x in numbers
  {
    HighestIsRecord(numbers);
    forall x | x in numbers
      ensures x <= Highest(numbers)
    {
      var i :| 0 <= i < |numbers| && numbers[i] == x;
      HighestBounds(numbers, i);
    }
    forall x | x in Records(numbers)
      ensures x in numbers
    {
      var i := RecordWasObserved(numbers, x);
    }
  }

  // ----- the intervals told from the numbers alone -----

  function Skipped(highest: int, n: int): seq<Interval> {
    if n > highest + 1 then [Interval(highest + 1, n)] else []
  }

  // What each number in turn skips over.
  function Skips(numbers: seq<int>): seq<Interval> {
    if |numbers| <= 1 then []
    else
      var front, last := numbers[..|numbers| - 1], numbers[|numbers| - 1];
      Skips(front) + Skipped(Highest(front), last)
  }

  function Top(numbers: seq<int>): Option<int> {
    if numbers == [] then None else Some(Highest(numbers))
  }

  lemma CoveredFurther(x: int, intervals: seq<Interval>, highest: int, n: int)
    ensures Covered(x, intervals + Skipped(highest, n)) <==> Covered(x, intervals) || highest < x < n
  {
    var more := intervals + Skipped(highest, n);
    if Covered(x, intervals) {
      var k :| 0 <= k < |intervals| && Inside(x, intervals[k]);
      assert Inside(x, more[k]);
    }
    if highest < x < n {
      assert Inside(x, more[|intervals|]);
    }
  }

  lemma {:induction false} SkipsAreTheMissing(numbers: seq<int>)
    requires numbers != []
    ensures ExactlyMissing(Skips(numbers), numbers)
  {
    if |numbers| > 1 {
      var front, last := numbers[..|numbers| - 1], numbers[|numbers| - 1];
      SkipsAreTheMissing(front);
      HighestIsHighest(front);
      assert front[0] in front;
      forall x
        ensures Covered(x, Skips(numbers)) <==> numbers[0] <= x <= Highest(numbers) && x !in Records(numbers)
      {
        CoveredFurther(x, Skips(front), Highest(front), last);
        assert x in Records(front) ==> x in front;
      }
    }
  }

  lemma SeparatedFurther(intervals: seq<Interval>, first: int, highest: int, n: int)
    requires Separated(intervals, first, highest) && first <= highest
    ensures Separated(intervals + Skipped(highest, n), first, Max(highest, n))
  {
  }

  lemma {:induction false} SkipsAreSeparated(numbers: seq<int>)
    requires numbers != []
    ensures Separated(Skips(numbers), numbers[0], Highest(numbers))
  {
    if |numbers| > 1 {
      var front, last := numbers[..|numbers| - 1], numbers[|numbers| - 1];
      SkipsAreSeparated(front);
      HighestBounds(front, 0);
      SeparatedFurther(Skips(front), front[0], Highest(front), last);
    }
  }

  lemma {:induction false} LengthFurther(intervals: seq<Interval>, highest: int, n: int)
    ensures Length(intervals + Skipped(highest, n)) == Length(intervals) + Max(0, n - highest - 1)
  {
    var more := intervals + Skipped(highest, n);
    if n > highest + 1 {
      assert more[..|more| - 1] == intervals;
    } else {
      assert more == intervals;
    }
  }

  lemma {:induction false} SkipsAddUp(numbers: seq<int>)
    requires numbers != []
    ensures Length(Skips(numbers)) == Highest(numbers) - numbers[0] - Advances(numbers)
  {
    if |numbers| > 1 {
      var front, last := numbers[..|numbers| - 1], numbers[|numbers| - 1];
      SkipsAddUp(front);
      LengthFurther(Skips(front), Highest(front), last);
    }
  }

  lemma {:induction false} SkipsAreComplete(numbers: seq<int>)
    ensures Complete(numbers, Skips(numbers), Top(numbers))
  {
    if numbers != [] {
      SkipsAreTheMissing(numbers);
      SkipsAreSeparated(numbers);
      SkipsAddUp(numbers);
    }
  }

  // ----- what the tracker reports is just that -----

  function IntervalOf(r: Option<Report>, s: Stream): seq<Interval> {
    if r.Some? && r.value.stream == s && r.value.expected.Some? && r.value.actual.Some?
    then [Interval(r.value.expected.value, r.value.actual.value)]
    else []
  }

  lemma {:induction false} IntervalsOfOneMore(reports: seq<Report>, r: Option<Report>, s: Stream)
    ensures Intervals(reports + (if r.Some? then [r.value] else []), s) == Intervals(reports, s) + IntervalOf(r, s)
  {
    if r.Some? {
      assert (reports + [r.value])[..|reports|] == reports;
    } else {
      assert reports + [] == reports;
    }
  }

  lemma {:induction false} SkipsOneMore(numbers: seq<int>, n: int)
    ensures Skips(numbers + [n]) == if numbers == [] then [] else Skips(numbers) + Skipped(Highest(numbers), n)
  {
    assert (numbers + [n])[..|numbers|] == numbers;
  }

  lemma {:induction false} TopOneMore(numbers: seq<int>, n: int)
    ensures Top(numbers + [n]) == Some(if numbers == [] then n else Max(Highest(numbers), n))
  {
    assert (numbers + [n])[..|numbers|] == numbers;
  }

  // What one numbered observation is reported as, and leaves as the last number.
  lemma ReportedSkip(p: Position, s: Stream, n: int, at: int)
    ensures IntervalOf(JumpReport(p, s, Some(n), at), s) ==
            if p.lastSequence.None? then [] else Skipped(p.lastSequence.value, n)
    ensures Moved(p, Some(n), at).lastSequence ==
            Some(if p.lastSequence.None? then n else Max(p.lastSequence.value, n))
  {
  }

  lemma {:induction false} OneMoreTracked(numbers: seq<int>, p: Position, s: Stream, n: int, at: int)
    requires p.lastSequence == Top(numbers)
    ensures Skips(numbers) + IntervalOf(JumpReport(p, s, Some(n), at), s) == Skips(numbers + [n])
    ensures Moved(p, Some(n), at).lastSequence == Top(numbers + [n])
  {
    ReportedSkip(p, s, n, at);
    SkipsOneMore(numbers, n);
    TopOneMore(numbers, n);
  }

  // The account kept of a stream, from its numbers alone.
  predicate Tracks(h: History, s: Stream, numbers: seq<int>) {
    PositionOf(h.tracker, s).lastSequence == Top(numbers) && Intervals(h.reports, s) == Skips(numbers)
  }

  lemma NumberTracked(h: History, s: Stream, numbers: seq<int>, n: int, at: int)
    requires Tracks(h, s, numbers)
    ensures Tracks(After(h, Observation(s, Some(n), at)), s, numbers + [n])
  {
    var p := PositionOf(h.tracker, s);
    IntervalsOfOneMore(h.reports, JumpReport(p, s, Some(n), at), s);
    OneMoreTracked(numbers, p, s, n, at);
  }

  // Another stream's observation, or one without a number, reports nothing here.
  lemma OtherTracked(h: History, s: Stream, numbers: seq<int>, o: Observation)
    requires Tracks(h, s, numbers) && (o.stream != s || o.sequence.None?)
    ensures Tracks(After(h, o), s, numbers)
  {
    var report := JumpReport(PositionOf(h.tracker, o.stream), o.stream, o.sequence, o.at);
    IntervalsOfOneMore(h.reports, report, s);
    assert Skips(numbers) + [] == Skips(numbers);
  }

  lemma {:induction false} ReportsAreSkips(obs: seq<Observation>, s: Stream)
    ensures Tracks(Run(obs), s, Numbers(obs, s))
  {
    if obs != [] {
      var front, o := obs[..|obs| - 1], obs[|obs| - 1];
      ReportsAreSkips(front, s);
      assert Run(obs) == After(Run(front), o);
      if o.stream == s && o.sequence.Some? {
        NumberTracked(Run(front), s, Numbers(front, s), o.sequence.value, o.at);
        assert o == Observation(s, Some(o.sequence.value), o.at);
      } else {
        OtherTracked(Run(front), s, Numbers(front, s), o);
        assert Numbers(obs, s) == Numbers(front, s);
      }
    }
  }

  /** On every stream, after any interleaving: the last sequence is the highest observed, the reported
      intervals are separated and increasing, they hold exactly the integers up to the highest that never
      were a running maximum, and their lengths add up to the range less the strict advances. */
  lemma {:induction false} GapsAreComplete(obs: seq<Observation>, s: Stream)
    ensures Complete(
              Numbers(obs, s), Intervals(Run(obs).reports, s), PositionOf(Run(obs).tracker, s).lastSequence)
  {
    ReportsAreSkips(obs, s);
    SkipsAreComplete(Numbers(obs, s));
  }

  // The sum of missing_count over the reports of one stream.
  function MissingTotal(reports: seq<Report>, s: Stream): int {
    if reports == [] then 0
    else
      var r := reports[|reports| - 1];
      MissingTotal(reports[..|reports| - 1], s)
      + (if r.stream == s && MissingCount(r).Some? then MissingCount(r).value else 0)
  }

  lemma {:induction false} MissingTotalIsLength(reports: seq<Report>, s: Stream)
    ensures MissingTotal(reports, s) == Length(Intervals(reports, s))
  {
    if reports != [] {
      var front, r := reports[..|reports| - 1], reports[|reports| - 1];
      MissingTotalIsLength(front, s);
      var more := Intervals(reports, s);
      if r.stream == s && MissingCount(r).Some? {
        assert more[..|more| - 1] == Intervals(front, s);
      } else {
        assert more == Intervals(front, s);
      }
    }
  }

  // Reported missing messages and strict advances together account for the whole range seen on a stream.
  lemma {:induction false} MissingIsConserved(obs: seq<Observation>, s: Stream)
    requires Numbers(obs, s) != []
    ensures var numbers := Numbers(obs, s);
            MissingTotal(Run(obs).reports, s) + Advances(numbers) == Highest(numbers) - numbers[0]
  {
    GapsAreComplete(obs, s);
    MissingTotalIsLength(Run(obs).reports, s);
  }

  // When this stream was last observed.
  function LastSeen(obs: seq<Observation>, s: Stream): Option<int> {
    if obs == [] then None
    else if obs[|obs| - 1].stream == s then Some(obs[|obs| - 1].at)
    else LastSeen(obs[..|obs| - 1], s)
  }

  lemma {:induction false} LastSeenIsKept(obs: seq<Observation>, s: Stream)
    ensures PositionOf(Run(obs).tracker, s).lastSeenAt == LastSeen(obs, s)
  {
    if obs != [] {
      LastSeenIsKept(obs[..|obs| - 1], s);
    }
  }

  lemma {:induction false} NumberedIsSeen(obs: seq<Observation>, s: Stream)
    requires Numbers(obs, s) != []
    ensures LastSeen(obs, s).Some?
  {
    var front, o := obs[..|obs| - 1], obs[|obs| - 1];
    if o.stream != s {
      NumberedIsSeen(front, s);
    }
  }

  lemma {:induction false} LastIsTop(obs: seq<Observation>, s: Stream)
    ensures PositionOf(Run(obs).tracker, s).lastSequence == Top(Numbers(obs, s))
  {
    ReportsAreSkips(obs, s);
  }

  lemma {:induction false} JumpExactly(p: Position, numbers: seq<int>, seen: Option<int>, o: Observation)
    requires p.lastSequence == Top(numbers) && p.lastSeenAt == seen && (numbers != [] ==> seen.Some?)
    ensures var report := JumpReport(p, o.stream, o.sequence, o.at);
            && (report.Some? <==> numbers != [] && o.sequence.Some? && o.sequence.value > Highest(numbers) + 1)
            && (report.Some? ==>
                  && seen.Some?
                  && report.value == Report(SequenceGap, o.stream, seen.value, Some(o.at),
                                            Some(Highest(numbers) + 1), o.sequence, false))
  {
  }

  /** After any history, an observation is reported exactly when it skips past the highest number of its
      stream; the report names the first number skipped and the number that came, and dates the gap from
      the stream's previous observation to this one. */
  lemma {:induction false} ReportExactly(front: seq<Observation>, o: Observation)
    ensures var report := Observing(Run(front).tracker, o.stream, o.sequence, o.at).1;
            var numbers := Numbers(front, o.stream);
            && (report.Some? <==> numbers != [] && o.sequence.Some? && o.sequence.value > Highest(numbers) + 1)
            && (report.Some? ==>
                  && LastSeen(front, o.stream).Some?
                  && report.value == Report(SequenceGap, o.stream, LastSeen(front, o.stream).value, Some(o.at),
                                            Some(Highest(numbers) + 1), o.sequence, false))
  {
    LastIsTop(front, o.stream);
    LastSeenIsKept(front, o.stream);
    if Numbers(front, o.stream) != [] {
      NumberedIsSeen(front, o.stream);
    }
    JumpExactly(
      PositionOf(Run(front).tracker, o.stream), Numbers(front, o.stream), LastSeen(front, o.stream), o);
  }

  // x lies in interval i and in no other.
  predicate OnlyInside(x: int, intervals: seq<Interval>, i: nat) {
    && i < |intervals| && Inside(x, intervals[i])
    && forall j :: 0 <= j < |intervals| && j != i ==> !Inside(x, intervals[j])
  }

  // A number that never arrived, between the first and the highest that did, lies in exactly one reported interval.
  lemma {:induction false} NeverObservedIsReportedOnce(obs: seq<Observation>, s: Stream, x: int)
    requires var numbers := Numbers(obs, s);
             numbers != [] && numbers[0] < x < Highest(numbers) && x !in numbers
    ensures exists i :: OnlyInside(x, Intervals(Run(obs).reports, s), i)
  {
    GapsAreComplete(obs, s);
    var numbers, intervals := Numbers(obs, s), Intervals(Run(obs).reports, s);
    HighestIsHighest(numbers);
    assert x !in Records(numbers);
    assert Covered(x, intervals);
    var i :| 0 <= i < |intervals| && Inside(x, intervals[i]);
    forall j | 0 <= j < |intervals| && j != i
      ensures !Inside(x, intervals[j])
    {
      assert if j < i then intervals[j].to < intervals[i].from else intervals[i].to < intervals[j].from;
    }
    assert OnlyInside(x, intervals, i);
  }

  lemma {:induction false} RunIsValid(obs: seq<Observation>)
    ensures Valid(Run(obs).tracker)
  {
    if obs != [] {
      RunIsValid(obs[..|obs| - 1]);
    }
  }

  // ----- silence -----

  predicate Reported(reports: seq<Report>, s: Stream) {
    exists i :: 0 <= i < |reports| && reports[i].stream == s
  }

  // Reports of distinct streams of the given order, each silent and reported as such.
  predicate SilentOnes(reports: seq<Report>, t: Tracker, order: seq<Stream>, now: int, threshold: int) {
    && (forall i :: 0 <= i < |reports| ==>
          && reports[i].stream in order
          && Silent(t, reports[i].stream, now, threshold)
          && reports[i] == SilenceReport(t, reports[i].stream))
    && (forall i, j :: 0 <= i < j < |reports| ==> reports[i].stream != reports[j].stream)
  }

  lemma {:induction false} SilenceIsSound(t: Tracker, order: seq<Stream>, now: int, threshold: int)
    requires forall i, j :: 0 <= i < j < |order| ==> order[i] != order[j]
    ensures SilentOnes(SilenceReports(t, order, now, threshold), t, order, now, threshold)
  {
    if order != [] {
      var front, s := order[..|order| - 1], order[|order| - 1];
      SilenceIsSound(t, front, now, threshold);
      assert s !in front;
      assert forall x <- front :: x in order;
      assert s in order;
    }
  }

  lemma {:induction false} SilenceIsComplete(t: Tracker, order: seq<Stream>, now: int, threshold: int, s: Stream)
    requires s in order && Silent(t, s, now, threshold)
    ensures Reported(SilenceReports(t, order, now, threshold), s)
  {
    var front, last := order[..|order| - 1], order[|order| - 1];
    var before, reports := SilenceReports(t, front, now, threshold), SilenceReports(t, order, now, threshold);
    if last == s {
      assert reports[|reports| - 1].stream == s;
    } else {
      SilenceIsComplete(t, front, now, threshold, s);
      var i :| 0 <= i < |before| && before[i].stream == s;
      assert reports[i].stream == s;
    }
  }

  // A silence check reports every silent stream, each once, and no other.
  lemma {:induction false} SilenceExactly(t: Tracker, now: int, threshold: int)
    requires Valid(t)
    ensures var reports := SilenceReports(t, t.order, now, threshold);
            && SilentOnes(reports, t, t.order, now, threshold)
            && forall s :: Silent(t, s, now, threshold) <==> Reported(reports, s)
  {
    SilenceIsSound(t, t.order, now, threshold);
    forall s | Silent(t, s, now, threshold) {
      SilenceIsComplete(t, t.order, now, threshold, s);
    }
  }

  // Heard before, and not within the threshold.
  predicate Quiet(obs: seq<Observation>, s: Stream, now: int, threshold: int) {
    var seen := LastSeen(obs, s);
    seen.Some? && now - seen.value > threshold
  }

  lemma {:induction false} SilentIsQuiet(obs: seq<Observation>, s: Stream, now: int, threshold: int)
    ensures Silent(Run(obs).tracker, s, now, threshold) <==> Quiet(obs, s, now, threshold)
    ensures Quiet(obs, s, now, threshold) ==>
              SilenceReport(Run(obs).tracker, s) ==
              Report(SilenceGap, s, LastSeen(obs, s).value, None, None, None, true)
  {
    LastSeenIsKept(obs, s);
  }

  /** After any history, a silence check reports exactly the streams whose last observation is further back
      than the threshold: each once, open and suspected, from that observation on. */
  lemma {:induction false} QuietStreamsExactly(obs: seq<Observation>, now: int, threshold: int)
    ensures var t := Run(obs).tracker;
            var reports := SilenceReports(t, t.order, now, threshold);
            && (forall s :: Quiet(obs, s, now, threshold) <==> Reported(reports, s))
            && (forall i, j :: 0 <= i < j < |reports| ==> reports[i].stream != reports[j].stream)
            && (forall r <- reports ::
                  && Quiet(obs, r.stream, now, threshold)
                  && r == Report(SilenceGap, r.stream, LastSeen(obs, r.stream).value, None, None, None, true))
  {
    var t := Run(obs).tracker;
    var reports := SilenceReports(t, t.order, now, threshold);
    RunIsValid(obs);
    SilenceExactly(t, now, threshold);
    forall s
      ensures Quiet(obs, s, now, threshold) <==> Reported(reports, s)
    {
      SilentIsQuiet(obs, s, now, threshold);
    }
    forall r | r in reports
      ensures Quiet(obs, r.stream, now, threshold)
      ensures r == Report(SilenceGap, r.stream, LastSeen(obs, r.stream).value, None, None, None, true)
    {
      SilentIsQuiet(obs, r.stream, now, threshold);
    }
  }
}

/** Duplicate detection: an ordered cache of recently seen identities, bounded in age and in number. */
module Dedup {
  import opened Events

  datatype Entry = Entry(identity: Identity, seenAt: int)

  // expired is not a counter the source keeps: it counts the entries _expire has dropped.
  datatype Cache = Cache(entries: seq<Entry>, seen: nat, duplicates: nat, evicted: nat, expired: nat)

  datatype Limits = Limits(window: int, capacity: nat)

  const EMPTY := Cache([], 0, 0, 0, 0)

  predicate Remembers(entries: seq<Entry>, identity: Identity) {
    exists i :: 0 <= i < |entries| && entries[i].identity == identity
  }

  // Drop from the front while the first entry is older than the cutoff.
  function Unexpired(entries: seq<Entry>, cutoff: int): (r: seq<Entry>)
    ensures |r| <= |entries|
  {
    if entries != [] && entries[0].seenAt < cutoff then Unexpired(entries[1..], cutoff) else entries
  }

  function Newest(entries: seq<Entry>, capacity: nat): seq<Entry> {
    if |entries| > capacity then entries[|entries| - capacity..] else entries
  }

  lemma OldestGoes(entries: seq<Entry>, capacity: nat)
    requires |entries| > capacity
    ensures Newest(entries[1..], capacity) == Newest(entries, capacity)
  {
  }

  function Expire(c: Cache, cutoff: int): Cache {
    var kept := Unexpired(c.entries, cutoff);
    c.(entries := kept, expired := c.expired + |c.entries| - |kept|)
  }

  function Admit(c: Cache, e: Entry, capacity: nat): Cache {
    var grown := c.entries + [e];
    var kept := Newest(grown, capacity);
    c.(entries := kept, evicted := c.evicted + |grown| - |kept|)
  }

  // The cache after one query, and the answer.
  function Query(c: Cache, identity: Identity, now: int, limits: Limits): (Cache, bool) {
    var recent := Expire(c, now - limits.window);
    var counted := recent.(seen := recent.seen + 1);
    if Remembers(recent.entries, identity) then (counted.(duplicates := counted.duplicates + 1), true)
    else (Admit(counted, Entry(identity, now), limits.capacity), false)
  }

  class DuplicateDetector {
    const limits: Limits
    var entries: seq<Entry>
    var count: nat
    var duplicates: nat
    var evicted: nat
    ghost var expired: nat

    // The source's constructor refuses a capacity below one.
    constructor (limits: Limits)
      requires limits.capacity >= 1
      ensures this.limits == limits && Value() == EMPTY
    {
      this.limits := limits;
      entries, count, duplicates, evicted, expired := [], 0, 0, 0, 0;
    }

    ghost function Value(): Cache
      reads this
    {
      Cache(entries, count, duplicates, evicted, expired)
    }

    method ExpireBefore(now: int)
      modifies this
      ensures Value() == Expire(old(Value()), now - limits.window)
    {
      var cutoff := now - limits.window;
      while |entries| > 0
        invariant Expire(Value(), cutoff) == Expire(old(Value()), cutoff)
        decreases |entries|
      {
        if entries[0].seenAt >= cutoff {
          break;
        }
        entries := entries[1..];
        expired := expired + 1;
      }
    }

    method IsDuplicate(event: MarketEvent) returns (duplicate: bool)
      modifies this
      ensures (Value(), duplicate) == Query(old(Value()), IdentityOf(event), event.receipt.time, limits)
    {
      var now := event.receipt.time;
      ExpireBefore(now);
      var identity := IdentityOf(event);
      count := count + 1;
      if Remembers(entries, identity) {
        duplicates := duplicates + 1;
        return true;
      }
      ghost var before := Value();
      entries := entries + [Entry(identity, now)];
      ghost var grown := entries;
      while |entries| > limits.capacity
        invariant |entries| <= |grown|
        invariant Newest(entries, limits.capacity) == Newest(grown, limits.capacity)
        invariant Value() == before.(entries := entries, evicted := before.evicted + |grown| - |entries|)
        decreases |entries|
      {
        OldestGoes(entries, limits.capacity);
        entries := entries[1..];
        evicted := evicted + 1;
      }
      duplicate := false;
    }
  }

  // ----- runs -----

  datatype Sighting = Sighting(identity: Identity, at: int)

  // The cache after the sightings, and every event accepted (answered "not a duplicate") so far.
  datatype Trace = Trace(cache: Cache, accepted: seq<Entry>)

  function Next(limits: Limits, before: Trace, s: Sighting): Trace {
    var (cache, duplicate) := Query(before.cache, s.identity, s.at, limits);
    Trace(cache, if duplicate then before.accepted else before.accepted + [Entry(s.identity, s.at)])
  }

  function Run(limits: Limits, sightings: seq<Sighting>): Trace {
    if sightings == [] then Trace(EMPTY, [])
    else Next(limits, Run(limits, sightings[..|sightings| - 1]), sightings[|sightings| - 1])
  }

  // The accepted events from index start on fit the cache: few enough, and all recent enough.
  predicate Fits(accepted: seq<Entry>, start: nat, capacity: nat, cutoff: int) {
    && start <= |accepted|
    && |accepted| - start <= capacity
    && forall i :: start <= i < |accepted| ==> accepted[i].seenAt >= cutoff
  }

  // The suffix from start fits, and one entry more would not; then no longer suffix fits (NoneLongerFits).
  predicate LongestFit(accepted: seq<Entry>, start: nat, capacity: nat, cutoff: int) {
    Fits(accepted, start, capacity, cutoff) && (start > 0 ==> !Fits(accepted, start - 1, capacity, cutoff))
  }

  lemma NoneLongerFits(accepted: seq<Entry>, start: nat, capacity: nat, cutoff: int, j: nat)
    requires LongestFit(accepted, start, capacity, cutoff) && j < start
    ensures !Fits(accepted, j, capacity, cutoff)
  {
    assert !Fits(accepted, start - 1, capacity, cutoff);
  }

  // end is the last part of the whole.
  predicate EndOf<T(==)>(end: seq<T>, whole: seq<T>) {
    |end| <= |whole| && forall i :: 0 <= i < |end| ==> end[i] == whole[|whole| - |end| + i]
  }

  lemma EndOfEnd<T>(a: seq<T>, b: seq<T>, c: seq<T>)
    requires EndOf(a, b) && EndOf(b, c)
    ensures EndOf(a, c)
  {
    forall i | 0 <= i < |a|
      ensures a[i] == c[|c| - |a| + i]
    {
      assert a[i] == b[|b| - |a| + i];
    }
  }

  lemma EndExtends<T>(a: seq<T>, b: seq<T>, x: T)
    requires EndOf(a, b)
    ensures EndOf(a + [x], b + [x])
  {
  }

  lemma NewestIsEnd(entries: seq<Entry>, capacity: nat)
    ensures EndOf(Newest(entries, capacity), entries)
  {
  }

  // entries is, in order, the longest suffix of the accepted events that fits.
  predicate RemembersLongestSuffix(accepted: seq<Entry>, entries: seq<Entry>, capacity: nat, cutoff: int) {
    EndOf(entries, accepted) && LongestFit(accepted, |accepted| - |entries|, capacity, cutoff)
  }

  predicate Ordered(sightings: seq<Sighting>) {
    forall i, j :: 0 <= i < j < |sightings| ==> sightings[i].at <= sightings[j].at
  }

  // Ordered, and nothing later than now.
  predicate OrderedBefore(sightings: seq<Sighting>, now: int) {
    Ordered(sightings) && forall i :: 0 <= i < |sightings| ==> sightings[i].at <= now
  }

  predicate OrderedUpTo(accepted: seq<Entry>, now: int) {
    && (forall i, j :: 0 <= i < j < |accepted| ==> accepted[i].seenAt <= accepted[j].seenAt)
    && (forall i :: 0 <= i < |accepted| ==> accepted[i].seenAt <= now)
  }

  lemma OrderedFront(sightings: seq<Sighting>)
    requires Ordered(sightings) && sightings != []
    ensures OrderedBefore(sightings[..|sightings| - 1], sightings[|sightings| - 1].at)
  {
  }

  lemma OrderedLast(sightings: seq<Sighting>, now: int)
    requires OrderedBefore(sightings, now) && sightings != []
    ensures Ordered(sightings) && sightings[|sightings| - 1].at <= now
  {
  }

  lemma OrderedAppend(accepted: seq<Entry>, earlier: int, e: Entry, now: int)
    requires OrderedUpTo(accepted, earlier) && earlier <= e.seenAt <= now
    ensures OrderedUpTo(accepted, now) && OrderedUpTo(accepted + [e], now)
  {
  }

  lemma {:induction false} UnexpiredIsEnd(entries: seq<Entry>, cutoff: int)
    ensures var kept := Unexpired(entries, cutoff);
            && EndOf(kept, entries)
            && (forall i :: 0 <= i < |entries| - |kept| ==> entries[i].seenAt < cutoff)
            && (kept != [] ==> kept[0].seenAt >= cutoff)
  {
    if entries != [] && entries[0].seenAt < cutoff {
      UnexpiredIsEnd(entries[1..], cutoff);
      EndOfEnd(Unexpired(entries, cutoff), entries[1..], entries);
    }
  }

  // In order of time, a suffix whose first entry is recent enough fits if it is short enough.
  lemma FitsLater(accepted: seq<Entry>, kept: seq<Entry>, capacity: nat, cutoff: int, now: int)
    requires EndOf(kept, accepted) && OrderedUpTo(accepted, now)
    requires |kept| <= capacity && (kept != [] ==> kept[0].seenAt >= cutoff)
    ensures Fits(accepted, |accepted| - |kept|, capacity, cutoff)
  {
    if kept != [] {
      assert kept[0] == accepted[|accepted| - |kept|];
    }
  }

  // Dropping what is older than a later cutoff leaves the longest suffix that fits the later cutoff.
  lemma ExpiryKeepsLongest(
    accepted: seq<Entry>, entries: seq<Entry>, kept: seq<Entry>, capacity: nat, cutoff: int, now: int)
    requires EndOf(entries, accepted) && EndOf(kept, entries) && OrderedUpTo(accepted, now)
    requires entries == kept ==>
               |entries| < |accepted| ==> !Fits(accepted, |accepted| - |entries| - 1, capacity, cutoff)
    requires |entries| <= capacity && (kept != [] ==> kept[0].seenAt >= cutoff)
    requires |kept| < |entries| ==> entries[|entries| - |kept| - 1].seenAt < cutoff
    ensures RemembersLongestSuffix(accepted, kept, capacity, cutoff)
  {
    EndOfEnd(kept, entries, accepted);
    FitsLater(accepted, kept, capacity, cutoff, now);
    if |kept| == |entries| {
      assert kept == entries;
    } else {
      var last := |accepted| - |kept| - 1;
      assert accepted[last] == entries[|entries| - |kept| - 1];
      assert !Fits(accepted, last, capacity, cutoff);
    }
  }

  lemma UnfitLater(accepted: seq<Entry>, start: nat, capacity: nat, earlier: int, cutoff: int)
    requires start <= |accepted| && earlier <= cutoff && !Fits(accepted, start, capacity, earlier)
    ensures !Fits(accepted, start, capacity, cutoff)
  {
  }

  lemma {:induction false} UnexpiredKeepsLongest(
    accepted: seq<Entry>, entries: seq<Entry>, capacity: nat, earlier: int, cutoff: int, now: int)
    requires RemembersLongestSuffix(accepted, entries, capacity, earlier) && earlier <= cutoff
    requires OrderedUpTo(accepted, now)
    ensures RemembersLongestSuffix(accepted, Unexpired(entries, cutoff), capacity, cutoff)
  {
    UnexpiredIsEnd(entries, cutoff);
    if |entries| < |accepted| {
      UnfitLater(accepted, |accepted| - |entries| - 1, capacity, earlier, cutoff);
    }
    ExpiryKeepsLongest(accepted, entries, Unexpired(entries, cutoff), capacity, cutoff, now);
  }

  lemma StillUnfit(accepted: seq<Entry>, j: nat, capacity: nat, cutoff: int, e: Entry)
    requires j <= |accepted| && !Fits(accepted, j, capacity, cutoff)
    ensures !Fits(accepted + [e], j, capacity, cutoff)
  {
    if |accepted| - j <= capacity {
      var i :| j <= i < |accepted| && accepted[i].seenAt < cutoff;
      assert (accepted + [e])[i].seenAt < cutoff;
    }
  }

  // Admitting an event that fits, and dropping the oldest beyond capacity, again leaves the longest suffix.
  lemma AdmissionKeepsLongest(accepted: seq<Entry>, entries: seq<Entry>, capacity: nat, cutoff: int, e: Entry)
    requires RemembersLongestSuffix(accepted, entries, capacity, cutoff) && e.seenAt >= cutoff
    ensures RemembersLongestSuffix(accepted + [e], Newest(entries + [e], capacity), capacity, cutoff)
  {
    var longer := accepted + [e];
    var kept := Newest(entries + [e], capacity);
    var before, start := |accepted| - |entries|, |longer| - |kept|;
    EndExtends(entries, accepted, e);
    NewestIsEnd(entries + [e], capacity);
    EndOfEnd(kept, entries + [e], longer);
    assert Fits(longer, start, capacity, cutoff);
    if 0 < start <= before {
      StillUnfit(accepted, start - 1, capacity, cutoff, e);
    }
  }

  // What one query does to the remembered entries and the accepted events.
  predicate Steps(limits: Limits, before: Trace, s: Sighting, after: Trace) {
    var kept := Unexpired(before.cache.entries, s.at - limits.window);
    var e := Entry(s.identity, s.at);
    if Remembers(kept, s.identity) then after.cache.entries == kept && after.accepted == before.accepted
    else after.cache.entries == Newest(kept + [e], limits.capacity) && after.accepted == before.accepted + [e]
  }

  lemma {:induction false} QueryEntries(c: Cache, identity: Identity, now: int, limits: Limits)
    ensures var kept := Unexpired(c.entries, now - limits.window);
            var (after, duplicate) := Query(c, identity, now, limits);
            && duplicate == Remembers(kept, identity)
            && after.entries == if duplicate then kept else Newest(kept + [Entry(identity, now)], limits.capacity)
  {
  }

  lemma NextSteps(limits: Limits, before: Trace, s: Sighting)
    ensures Steps(limits, before, s, Next(limits, before, s))
  {
    QueryEntries(before.cache, s.identity, s.at, limits);
  }

  lemma StepKeepsOrder(limits: Limits, before: Trace, s: Sighting, after: Trace, now: int)
    requires Steps(limits, before, s, after) && OrderedUpTo(before.accepted, s.at) && s.at <= now
    ensures OrderedUpTo(after.accepted, now)
  {
    OrderedAppend(before.accepted, s.at, Entry(s.identity, s.at), now);
  }

  lemma {:induction false} AcceptedIsOrdered(limits: Limits, sightings: seq<Sighting>, now: int)
    requires OrderedBefore(sightings, now)
    ensures OrderedUpTo(Run(limits, sightings).accepted, now)
  {
    if sightings != [] {
      var front, s := sightings[..|sightings| - 1], sightings[|sightings| - 1];
      OrderedLast(sightings, now);
      OrderedFront(sightings);
      AcceptedIsOrdered(limits, front, s.at);
      NextSteps(limits, Run(limits, front), s);
      StepKeepsOrder(limits, Run(limits, front), s, Run(limits, sightings), now);
    }
  }

  lemma StepKeepsLongest(limits: Limits, before: Trace, s: Sighting, after: Trace)
    requires Steps(limits, before, s, after) && limits.window >= 0
    requires var cutoff := s.at - limits.window;
             RemembersLongestSuffix(before.accepted, Unexpired(before.cache.entries, cutoff), limits.capacity, cutoff)
    ensures RemembersLongestSuffix(after.accepted, after.cache.entries, limits.capacity, s.at - limits.window)
  {
    var cutoff := s.at - limits.window;
    var kept := Unexpired(before.cache.entries, cutoff);
    if !Remembers(kept, s.identity) {
      AdmissionKeepsLongest(before.accepted, kept, limits.capacity, cutoff, Entry(s.identity, s.at));
    }
  }

  /** With non-decreasing receipt times and a non-negative window, what is remembered is, in order, the
      longest suffix of the accepted events with at most capacity entries, none older than the window. */
  lemma {:induction false} CacheIsLongestSuffix(limits: Limits, sightings: seq<Sighting>)
    requires Ordered(sightings) && limits.window >= 0 && sightings != []
    ensures var t := Run(limits, sightings);
            RemembersLongestSuffix(
              t.accepted, t.cache.entries, limits.capacity, sightings[|sightings| - 1].at - limits.window)
    decreases |sightings|, 0
  {
    var front, s := sightings[..|sightings| - 1], sightings[|sightings| - 1];
    OrderedFront(sightings);
    SuffixAtQuery(limits, front, s.at);
    NextSteps(limits, Run(limits, front), s);
    StepKeepsLongest(limits, Run(limits, front), s, Run(limits, sightings));
  }

  lemma {:induction false} NothingFitsNothing(capacity: nat, cutoff: int)
    ensures RemembersLongestSuffix([], Unexpired([], cutoff), capacity, cutoff)
  {
  }

  lemma {:induction false} SuffixLater(limits: Limits, t: Trace, last: int, now: int)
    requires RemembersLongestSuffix(t.accepted, t.cache.entries, limits.capacity, last - limits.window)
    requires OrderedUpTo(t.accepted, now) && last <= now
    ensures RemembersLongestSuffix(
              t.accepted, Unexpired(t.cache.entries, now - limits.window), limits.capacity, now - limits.window)
  {
    UnexpiredKeepsLongest(
      t.accepted, t.cache.entries, limits.capacity, last - limits.window, now - limits.window, now);
  }

  // The same suffix, as a query at time now sees it before answering.
  lemma {:induction false} SuffixAtQuery(limits: Limits, front: seq<Sighting>, now: int)
    requires OrderedBefore(front, now) && limits.window >= 0
    ensures var t := Run(limits, front);
            RemembersLongestSuffix(
              t.accepted, Unexpired(t.cache.entries, now - limits.window), limits.capacity, now - limits.window)
    decreases |front|, 1
  {
    if front == [] {
      NothingFitsNothing(limits.capacity, now - limits.window);
    } else {
      var last := front[|front| - 1].at;
      OrderedLast(front, now);
      CacheIsLongestSuffix(limits, front);
      AcceptedIsOrdered(limits, front, now);
      SuffixLater(limits, Run(limits, front), last, now);
    }
  }

  lemma LongestFitIsUnique(accepted: seq<Entry>, a: nat, b: nat, capacity: nat, cutoff: int)
    requires LongestFit(accepted, a, capacity, cutoff) && LongestFit(accepted, b, capacity, cutoff)
    ensures a == b
  {
  }

  lemma SuffixAnswers(accepted: seq<Entry>, kept: seq<Entry>, capacity: nat, cutoff: int, identity: Identity)
    requires RemembersLongestSuffix(accepted, kept, capacity, cutoff)
    ensures Remembers(kept, identity) <==>
            exists start: nat :: LongestFit(accepted, start, capacity, cutoff) && Remembers(accepted[start..], identity)
  {
    var start: nat := |accepted| - |kept|;
    assert LongestFit(accepted, start, capacity, cutoff) && accepted[start..] == kept;
    if other: nat :| LongestFit(accepted, other, capacity, cutoff) && Remembers(accepted[other..], identity) {
      LongestFitIsUnique(accepted, start, other, capacity, cutoff);
    }
  }

  /** A query is answered "duplicate" exactly when the identity is among the longest suffix of accepted
      events that fits the cache at the moment of the query. */
  lemma {:induction false} DuplicateExactly(limits: Limits, front: seq<Sighting>, s: Sighting)
    requires OrderedBefore(front, s.at) && limits.window >= 0
    ensures var t := Run(limits, front);
            Query(t.cache, s.identity, s.at, limits).1 <==>
            exists start: nat :: LongestFit(t.accepted, start, limits.capacity, s.at - limits.window)
                                 && Remembers(t.accepted[start..], s.identity)
  {
    var t := Run(limits, front);
    var cutoff := s.at - limits.window;
    SuffixAtQuery(limits, front, s.at);
    var kept := Unexpired(t.cache.entries, cutoff);
    assert Query(t.cache, s.identity, s.at, limits).1 <==> Remembers(kept, s.identity);
    SuffixAnswers(t.accepted, kept, limits.capacity, cutoff, s.identity);
  }

  lemma RecentIsRemembered(
    accepted: seq<Entry>, kept: seq<Entry>, capacity: nat, cutoff: int, i: nat, now: int)
    requires RemembersLongestSuffix(accepted, kept, capacity, cutoff) && OrderedUpTo(accepted, now)
    requires i < |accepted| && |accepted| - i <= capacity && accepted[i].seenAt >= cutoff
    ensures Remembers(kept, accepted[i].identity)
  {
    var start := |accepted| - |kept|;
    assert Fits(accepted, i, capacity, cutoff);
    if i < start {
      NoneLongerFits(accepted, start, capacity, cutoff, i);
    } else {
      assert kept[i - start] == accepted[i];
    }
  }

  lemma {:induction false} RememberedIsDuplicate(c: Cache, identity: Identity, now: int, limits: Limits)
    requires Remembers(Unexpired(c.entries, now - limits.window), identity)
    ensures Query(c, identity, now, limits).1
  {
  }

  lemma RecentIsAnswered(t: Trace, s: Sighting, limits: Limits, i: nat)
    requires var cutoff := s.at - limits.window;
             && RemembersLongestSuffix(t.accepted, Unexpired(t.cache.entries, cutoff), limits.capacity, cutoff)
             && i < |t.accepted| && |t.accepted| - i <= limits.capacity && t.accepted[i].seenAt >= cutoff
    requires OrderedUpTo(t.accepted, s.at) && t.accepted[i].identity == s.identity
    ensures Query(t.cache, s.identity, s.at, limits).1
  {
    var cutoff := s.at - limits.window;
    RecentIsRemembered(t.accepted, Unexpired(t.cache.entries, cutoff), limits.capacity, cutoff, i, s.at);
    RememberedIsDuplicate(t.cache, s.identity, s.at, limits);
  }

  /** What the cache is for: an identity accepted within the window, with fewer than capacity events
      accepted since, is recognised when it is delivered again. */
  lemma {:induction false} RedeliveryIsRecognised(limits: Limits, front: seq<Sighting>, s: Sighting, i: nat)
    requires OrderedBefore(front, s.at) && limits.window >= 0
    requires var accepted := Run(limits, front).accepted;
             && i < |accepted| && accepted[i].identity == s.identity
             && accepted[i].seenAt >= s.at - limits.window
             && |accepted| - i <= limits.capacity
    ensures Query(Run(limits, front).cache, s.identity, s.at, limits).1
  {
    var t := Run(limits, front);
    SuffixAtQuery(limits, front, s.at);
    AcceptedIsOrdered(limits, front, s.at);
    RecentIsAnswered(t, s, limits, i);
  }

  // And conversely: what is answered "duplicate" was accepted that recently.
  lemma DuplicateWasRecent(limits: Limits, front: seq<Sighting>, s: Sighting) returns (i: nat)
    requires OrderedBefore(front, s.at) && limits.window >= 0
    requires Query(Run(limits, front).cache, s.identity, s.at, limits).1
    ensures var accepted := Run(limits, front).accepted;
            && i < |accepted| && accepted[i].identity == s.identity
            && accepted[i].seenAt >= s.at - limits.window
            && |accepted| - i <= limits.capacity
  {
    DuplicateExactly(limits, front, s);
    var accepted := Run(limits, front).accepted;
    var start: nat :| LongestFit(accepted, start, limits.capacity, s.at - limits.window)
                      && Remembers(accepted[start..], s.identity);
    i := MemberOf(accepted, start, s.identity);
  }

  lemma MemberOf(accepted: seq<Entry>, start: nat, identity: Identity) returns (i: nat)
    requires start <= |accepted| && Remembers(accepted[start..], identity)
    ensures start <= i < |accepted| && accepted[i].identity == identity
  {
    var j :| 0 <= j < |accepted[start..]| && accepted[start..][j].identity == identity;
    i := start + j;
  }

  // ----- what holds whatever the times -----

  lemma QueryCounts(c: Cache, identity: Identity, now: int, limits: Limits)
    ensures var (after, duplicate) := Query(c, identity, now, limits);
            after.seen == c.seen + 1 && after.duplicates == c.duplicates + if duplicate then 1 else 0
  {
  }

  predicate Distinct(entries: seq<Entry>) {
    forall i, j :: 0 <= i < j < |entries| ==> entries[i].identity != entries[j].identity
  }

  // Nothing is lost between the counters.
  predicate Balanced(c: Cache) {
    c.seen == c.duplicates + |c.entries| + c.evicted + c.expired
  }

  predicate Sound(c: Cache, capacity: nat) {
    Distinct(c.entries) && |c.entries| <= capacity && Balanced(c)
  }

  lemma EndIsDistinct(end: seq<Entry>, whole: seq<Entry>)
    requires EndOf(end, whole) && Distinct(whole)
    ensures Distinct(end)
  {
    var n := |whole| - |end|;
    forall i, j | 0 <= i < j < |end|
      ensures end[i].identity != end[j].identity
    {
      assert end[i] == whole[n + i] && end[j] == whole[n + j];
    }
  }

  lemma DistinctExtends(kept: seq<Entry>, e: Entry)
    requires Distinct(kept) && !Remembers(kept, e.identity)
    ensures Distinct(kept + [e])
  {
  }

  lemma QueryKeepsDistinct(c: Cache, identity: Identity, now: int, limits: Limits)
    requires Distinct(c.entries)
    ensures Distinct(Query(c, identity, now, limits).0.entries)
  {
    var kept := Unexpired(c.entries, now - limits.window);
    QueryEntries(c, identity, now, limits);
    UnexpiredIsEnd(c.entries, now - limits.window);
    EndIsDistinct(kept, c.entries);
    if !Remembers(kept, identity) {
      var grown := kept + [Entry(identity, now)];
      DistinctExtends(kept, Entry(identity, now));
      NewestIsEnd(grown, limits.capacity);
      EndIsDistinct(Newest(grown, limits.capacity), grown);
    }
  }

  lemma QueryKeepsCount(c: Cache, identity: Identity, now: int, limits: Limits)
    requires |c.entries| <= limits.capacity && Balanced(c)
    ensures var after := Query(c, identity, now, limits).0; |after.entries| <= limits.capacity && Balanced(after)
  {
  }

  lemma QueryKeepsSound(c: Cache, identity: Identity, now: int, limits: Limits)
    requires Sound(c, limits.capacity)
    ensures Sound(Query(c, identity, now, limits).0, limits.capacity)
  {
    QueryKeepsDistinct(c, identity, now, limits);
    QueryKeepsCount(c, identity, now, limits);
  }

  lemma StepKeepsLatest(limits: Limits, before: Trace, s: Sighting, after: Trace)
    requires Steps(limits, before, s, after) && EndOf(before.cache.entries, before.accepted)
    ensures EndOf(after.cache.entries, after.accepted)
  {
    UnexpiredIsEnd(before.cache.entries, s.at - limits.window);
    var kept := Unexpired(before.cache.entries, s.at - limits.window);
    EndOfEnd(kept, before.cache.entries, before.accepted);
    if !Remembers(kept, s.identity) {
      var e := Entry(s.identity, s.at);
      EndExtends(kept, before.accepted, e);
      NewestIsEnd(kept + [e], limits.capacity);
      EndOfEnd(after.cache.entries, kept + [e], after.accepted);
    }
  }

  /** For any times at all: remembered identities are distinct and at most capacity, they are the latest
      accepted events in order, and every query is accounted for as a duplicate, or as an event still
      tracked, evicted or expired. */
  lemma {:induction false} CacheIsSound(limits: Limits, sightings: seq<Sighting>)
    ensures var t := Run(limits, sightings);
            && Sound(t.cache, limits.capacity)
            && EndOf(t.cache.entries, t.accepted)
            && t.cache.seen == |sightings|
            && |t.accepted| == t.cache.seen - t.cache.duplicates
  {
    if sightings != [] {
      var front, s := sightings[..|sightings| - 1], sightings[|sightings| - 1];
      CacheIsSound(limits, front);
      var before := Run(limits, front);
      QueryKeepsSound(before.cache, s.identity, s.at, limits);
      NextSteps(limits, before, s);
      StepKeepsLatest(limits, before, s, Run(limits, sightings));
    }
  }

  lemma MemberOfEnd(end: seq<Entry>, whole: seq<Entry>, identity: Identity) returns (i: nat)
    requires EndOf(end, whole) && Remembers(end, identity)
    ensures i < |whole| && whole[i].identity == identity
  {
    var j :| 0 <= j < |end| && end[j].identity == identity;
    i := |whole| - |end| + j;
  }

  lemma HitWasAccepted(t: Trace, s: Sighting, limits: Limits) returns (i: nat)
    requires EndOf(t.cache.entries, t.accepted) && Query(t.cache, s.identity, s.at, limits).1
    ensures i < |t.accepted| && t.accepted[i].identity == s.identity
  {
    var kept := Unexpired(t.cache.entries, s.at - limits.window);
    QueryEntries(t.cache, s.identity, s.at, limits);
    UnexpiredIsEnd(t.cache.entries, s.at - limits.window);
    EndOfEnd(kept, t.cache.entries, t.accepted);
    i := MemberOfEnd(kept, t.accepted, s.identity);
  }

  // For any times at all, what is answered "duplicate" was accepted before.
  lemma DuplicateWasAccepted(limits: Limits, front: seq<Sighting>, s: Sighting) returns (i: nat)
    requires Query(Run(limits, front).cache, s.identity, s.at, limits).1
    ensures i < |Run(limits, front).accepted| && Run(limits, front).accepted[i].identity == s.identity
  {
    CacheIsSound(limits, front);
    i := HitWasAccepted(Run(limits, front), s, limits);
  }

  lemma NextAccepts(limits: Limits, before: Trace, s: Sighting)
    ensures Next(limits, before, s).accepted ==
            if Query(before.cache, s.identity, s.at, limits).1 then before.accepted
            else before.accepted + [Entry(s.identity, s.at)]
  {
  }
}

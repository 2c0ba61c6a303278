/** The gap registry: gaps are registered, retried and closed, never removed. */
module Registry {
  import opened Prelude
  import opened Events
  import Gaps

  datatype Status = Pending | InProgress | Recovered | Partial | Unrecoverable

  datatype Impact = UnknownImpact | NoImpact | Minor | Material | Invalidating

  predicate LeavesDataMissing(s: Status) {
    s.Pending? || s.InProgress? || s.Partial? || s.Unrecoverable?
  }

  datatype Gap = Gap(
    id: string, stream: Stream, start: int, end: Option<int>, status: Status, attempts: nat, impact: Impact,
    expected: Option<int>, actual: Option<int>, resolution: Option<string>)

  function Duration(g: Gap): Option<int> {
    if g.end.None? then None else Some(g.end.value - g.start)
  }

  datatype RegistryError = NotRegistered | EndsBeforeStart

  // ----- operations on the dictionary of gaps, kept as its values in insertion order -----

  function IndexOf(gaps: seq<Gap>, id: string): (i: nat)
    ensures i <= |gaps|
    ensures i < |gaps| ==> gaps[i].id == id
    ensures forall j :: 0 <= j < i ==> gaps[j].id != id
  {
    if gaps == [] || gaps[0].id == id then 0
    else
      var rest := IndexOf(gaps[1..], id);
      assert forall j :: 1 <= j < 1 + rest ==> gaps[j] == gaps[1..][j - 1];
      1 + rest
  }

  datatype Operation =
    | Register(id: string, report: Gaps.Report)
    | Close(id: string, endedAt: int, status: Status, resolution: string)
    | Attempt(id: string, outcome: string)

  function NewGap(id: string, r: Gaps.Report): Gap {
    Gap(id, r.stream, r.start, r.end, Pending, 0, if r.suspected then UnknownImpact else Material,
        r.expected, r.actual, None)
  }

  function Closed(g: Gap, endedAt: int, status: Status, resolution: string): Gap {
    g.(end := Some(endedAt), status := status, impact := if status == Recovered then NoImpact else g.impact,
       resolution := Some(resolution))
  }

  function Retried(g: Gap, outcome: string): Gap {
    g.(attempts := g.attempts + 1, status := InProgress, resolution := Some(outcome))
  }

  // The gap an operation returns, or the error it raises.
  function Answer(gaps: seq<Gap>, op: Operation): Result<Gap, RegistryError> {
    var i := IndexOf(gaps, op.id);
    match op
    case Register(id, report) => if i < |gaps| then Success(gaps[i]) else Success(NewGap(id, report))
    case Close(_, endedAt, status, resolution) =>
      if i == |gaps| then Failure(NotRegistered)
      else if status == Recovered && endedAt < gaps[i].start then Failure(EndsBeforeStart)
      else Success(Closed(gaps[i], endedAt, status, resolution))
    case Attempt(_, outcome) =>
      if i == |gaps| then Failure(NotRegistered) else Success(Retried(gaps[i], outcome))
  }

  // The dictionary afterwards: the answer stored under its id, or nothing changed on an error.
  function Stored(gaps: seq<Gap>, op: Operation): seq<Gap> {
    match Answer(gaps, op)
    case Failure(_) => gaps
    case Success(g) =>
      var i := IndexOf(gaps, op.id);
      if i < |gaps| then gaps[i := g] else gaps + [g]
  }

  // ----- summary -----

  datatype Summary = Summary(
    total: nat, open: nat, recovered: nat, partial: nat, unrecoverable: nat, byStream: map<Stream, nat>,
    longest: Option<int>)

  predicate HasMissingData(s: Summary) {
    s.open + s.partial + s.unrecoverable > 0
  }

  function Count(gaps: seq<Gap>, status: Status): nat {
    if gaps == [] then 0
    else Count(gaps[..|gaps| - 1], status) + (if gaps[|gaps| - 1].status == status then 1 else 0)
  }

  function CountStream(gaps: seq<Gap>, s: Stream): nat {
    if gaps == [] then 0
    else CountStream(gaps[..|gaps| - 1], s) + (if gaps[|gaps| - 1].stream == s then 1 else 0)
  }

  function Durations(gaps: seq<Gap>): seq<int> {
    if gaps == [] then []
    else
      var d := Duration(gaps[|gaps| - 1]);
      Durations(gaps[..|gaps| - 1]) + (if d.Some? then [d.value] else [])
  }

  ghost function Total(m: map<Stream, nat>): nat
    decreases |m|
  {
    if m == map[] then 0
    else
      var s :| s in m;
      m[s] + Total(m - {s})
  }

  lemma {:induction false} TotalWithout(m: map<Stream, nat>, s: Stream)
    requires s in m
    ensures Total(m) == m[s] + Total(m - {s})
    decreases |m|
  {
    var t :| t in m && Total(m) == m[t] + Total(m - {t});
    if t != s {
      TotalWithout(m - {t}, s);
      TotalWithout(m - {s}, t);
      assert m - {t} - {s} == m - {s} - {t};
    }
  }

  function Bump(m: map<Stream, nat>, s: Stream): map<Stream, nat> {
    m[s := (if s in m then m[s] else 0) + 1]
  }

  lemma {:induction false} TotalOfBump(m: map<Stream, nat>, s: Stream)
    ensures Total(Bump(m, s)) == Total(m) + 1
  {
    TotalWithout(Bump(m, s), s);
    if s in m {
      TotalWithout(m, s);
      assert Bump(m, s) - {s} == m - {s};
    } else {
      assert Bump(m, s) - {s} == m;
    }
  }

  // byStream counts exactly the streams that have gaps.
  ghost predicate CountsStreams(m: map<Stream, nat>, gaps: seq<Gap>) {
    forall s :: (s in m <==> CountStream(gaps, s) > 0) && (s in m ==> m[s] == CountStream(gaps, s))
  }

  lemma BumpCounts(m: map<Stream, nat>, gaps: seq<Gap>, g: Gap)
    requires CountsStreams(m, gaps)
    ensures CountsStreams(Bump(m, g.stream), gaps + [g])
  {
    assert (gaps + [g])[..|gaps|] == gaps;
    forall s
      ensures var m' := Bump(m, g.stream);
              (s in m' <==> CountStream(gaps + [g], s) > 0) && (s in m' ==> m'[s] == CountStream(gaps + [g], s))
    {
      assert s in m <==> CountStream(gaps, s) > 0;
    }
  }

  lemma {:induction false} CountsAddUp(gaps: seq<Gap>)
    ensures Count(gaps, Pending) + Count(gaps, InProgress) + Count(gaps, Recovered) + Count(gaps, Partial)
            + Count(gaps, Unrecoverable) == |gaps|
  {
    if gaps != [] {
      CountsAddUp(gaps[..|gaps| - 1]);
    }
  }

  lemma {:induction false} CountPositive(gaps: seq<Gap>, status: Status)
    ensures Count(gaps, status) > 0 <==> exists g <- gaps :: g.status == status
  {
    if gaps != [] {
      var front, last := gaps[..|gaps| - 1], gaps[|gaps| - 1];
      CountPositive(front, status);
      assert gaps == front + [last];
    }
  }

  lemma {:induction false} DurationsExactly(gaps: seq<Gap>, d: int)
    ensures d in Durations(gaps) <==> exists g <- gaps :: Duration(g) == Some(d)
  {
    if gaps != [] {
      var front, last := gaps[..|gaps| - 1], gaps[|gaps| - 1];
      DurationsExactly(front, d);
      assert gaps == front + [last];
    }
  }

  predicate IsLongest(longest: Option<int>, durations: seq<int>) {
    match longest
    case None => durations == []
    case Some(d) => d in durations && forall x <- durations :: x <= d
  }

  method Longest(durations: seq<int>) returns (r: Option<int>)
    ensures IsLongest(r, durations)
  {
    if durations == [] {
      return None;
    }
    var most := durations[0];
    for i := 0 to |durations|
      invariant most in durations && forall j :: 0 <= j < i ==> durations[j] <= most
    {
      most := if durations[i] > most then durations[i] else most;
    }
    r := Some(most);
  }

  // What the summary of a dictionary of gaps must say.
  ghost predicate Describes(r: Summary, gaps: seq<Gap>) {
    && r.total == |gaps|
    && r.open == Count(gaps, Pending) + Count(gaps, InProgress)
    && r.recovered == Count(gaps, Recovered)
    && r.partial == Count(gaps, Partial)
    && r.unrecoverable == Count(gaps, Unrecoverable)
    && CountsStreams(r.byStream, gaps)
    && Total(r.byStream) == |gaps|
    && IsLongest(r.longest, Durations(gaps))
  }

  method Summarise(gaps: seq<Gap>) returns (r: Summary)
    ensures Describes(r, gaps)
  {
    var byStream: map<Stream, nat> := map[];
    var durations: seq<int> := [];
    var pending, inProgress, recovered, partial, unrecoverable := 0, 0, 0, 0, 0;
    for i := 0 to |gaps|
      invariant CountsStreams(byStream, gaps[..i]) && Total(byStream) == i
      invariant durations == Durations(gaps[..i])
      invariant pending == Count(gaps[..i], Pending) && inProgress == Count(gaps[..i], InProgress)
      invariant recovered == Count(gaps[..i], Recovered) && partial == Count(gaps[..i], Partial)
      invariant unrecoverable == Count(gaps[..i], Unrecoverable)
    {
      var g := gaps[i];
      assert gaps[..i + 1] == gaps[..i] + [g];
      assert gaps[..i + 1][..i] == gaps[..i];
      BumpCounts(byStream, gaps[..i], g);
      TotalOfBump(byStream, g.stream);
      byStream := Bump(byStream, g.stream);
      match g.status {
        case Pending => pending := pending + 1;
        case InProgress => inProgress := inProgress + 1;
        case Recovered => recovered := recovered + 1;
        case Partial => partial := partial + 1;
        case Unrecoverable => unrecoverable := unrecoverable + 1;
      }
      var d := Duration(g);
      if d.Some? {
        durations := durations + [d.value];
      }
    }
    assert gaps[..|gaps|] == gaps;
    var longest := Longest(durations);
    r := Summary(|gaps|, pending + inProgress, recovered, partial, unrecoverable, byStream, longest);
  }

  /** A summary adds up both by status and by stream; it reports missing data exactly when some gap's
      status leaves data missing; and its longest duration is that of the longest gap with an end. */
  lemma SummaryIsFaithful(r: Summary, gaps: seq<Gap>)
    requires Describes(r, gaps)
    ensures r.total == r.open + r.recovered + r.partial + r.unrecoverable == Total(r.byStream)
    ensures HasMissingData(r) <==> exists g <- gaps :: LeavesDataMissing(g.status)
    ensures r.longest == None <==> forall g <- gaps :: g.end.None?
    ensures r.longest.Some? ==>
              && (exists g <- gaps :: g.end.Some? && g.end.value - g.start == r.longest.value)
              && (forall g <- gaps :: g.end.Some? ==> g.end.value - g.start <= r.longest.value)
  {
    CountsAddUp(gaps);
    CountPositive(gaps, Pending);
    CountPositive(gaps, InProgress);
    CountPositive(gaps, Partial);
    CountPositive(gaps, Unrecoverable);
    forall g | g in gaps && g.end.Some?
      ensures Duration(g).value in Durations(gaps)
    {
      DurationsExactly(gaps, Duration(g).value);
    }
    if r.longest.Some? {
      DurationsExactly(gaps, r.longest.value);
    }
  }

  class InMemoryGapRegistry {
    var gaps: seq<Gap>

    constructor ()
      ensures gaps == []
    {
      gaps := [];
    }

    method RegisterGap(id: string, report: Gaps.Report) returns (r: Gap)
      modifies this
      ensures gaps == Stored(old(gaps), Register(id, report))
      ensures Answer(old(gaps), Register(id, report)) == Success(r)
    {
      var i := IndexOf(gaps, id);
      if i < |gaps| {
        return gaps[i];
      }
      r := NewGap(id, report);
      gaps := gaps + [r];
    }

    method CloseGap(id: string, endedAt: int, status: Status, resolution: string)
      returns (r: Result<Gap, RegistryError>)
      modifies this
      ensures gaps == Stored(old(gaps), Close(id, endedAt, status, resolution))
      ensures r == Answer(old(gaps), Close(id, endedAt, status, resolution))
    {
      var i := IndexOf(gaps, id);
      if i == |gaps| {
        return Failure(NotRegistered);
      }
      if status == Recovered && endedAt < gaps[i].start {
        return Failure(EndsBeforeStart);
      }
      var updated := Closed(gaps[i], endedAt, status, resolution);
      gaps := gaps[i := updated];
      r := Success(updated);
    }

    method RecordAttempt(id: string, outcome: string) returns (r: Result<Gap, RegistryError>)
      modifies this
      ensures gaps == Stored(old(gaps), Attempt(id, outcome))
      ensures r == Answer(old(gaps), Attempt(id, outcome))
    {
      var i := IndexOf(gaps, id);
      if i == |gaps| {
        return Failure(NotRegistered);
      }
      var updated := Retried(gaps[i], outcome);
      gaps := gaps[i := updated];
      r := Success(updated);
    }

    method Summary() returns (r: Summary)
      ensures Describes(r, gaps)
    {
      r := Summarise(gaps);
    }
  }

  // ----- runs -----

  function Run(ops: seq<Operation>): seq<Gap> {
    if ops == [] then [] else Stored(Run(ops[..|ops| - 1]), ops[|ops| - 1])
  }

  predicate DistinctIds(gaps: seq<Gap>) {
    forall i, j :: 0 <= i < j < |gaps| ==> gaps[i].id != gaps[j].id
  }

  // A recovered gap has a known extent and no remaining impact.
  predicate Resolved(g: Gap) {
    g.status == Recovered ==> g.end.Some? && g.end.value >= g.start && g.impact == NoImpact
  }

  predicate Sound(gaps: seq<Gap>) {
    DistinctIds(gaps) && forall g <- gaps :: Resolved(g)
  }

  // Same gaps in the same places, perhaps followed by more: identity, stream and start are fixed.
  predicate Extends(later: seq<Gap>, gaps: seq<Gap>) {
    && |gaps| <= |later|
    && forall i :: 0 <= i < |gaps| ==>
         later[i].id == gaps[i].id && later[i].stream == gaps[i].stream && later[i].start == gaps[i].start
  }

  lemma StoredIsSound(gaps: seq<Gap>, op: Operation)
    requires Sound(gaps)
    ensures Sound(Stored(gaps, op)) && Extends(Stored(gaps, op), gaps)
  {
    var after := Stored(gaps, op);
    var i := IndexOf(gaps, op.id);
    var answer := Answer(gaps, op);
    if answer.Success? {
      var g := answer.value;
      if i < |gaps| {
        assert gaps[i] in gaps;
      }
      assert g.id == op.id && Resolved(g);
      forall x | x in after
        ensures Resolved(x)
      {
        assert x == g || x in gaps;
      }
    }
  }

  /** After any run of operations, failed ones included, ids are distinct and every recovered gap ends at
      or after its start with no impact left. */
  lemma {:induction false} RunIsSound(ops: seq<Operation>)
    ensures Sound(Run(ops))
  {
    if ops != [] {
      RunIsSound(ops[..|ops| - 1]);
      StoredIsSound(Run(ops[..|ops| - 1]), ops[|ops| - 1]);
    }
  }

  // Nothing registered is ever removed, and its id, stream and start never change.
  lemma {:induction false} GapsPersist(ops: seq<Operation>, upTo: nat)
    requires upTo <= |ops|
    ensures Extends(Run(ops), Run(ops[..upTo]))
    decreases |ops|
  {
    if upTo == |ops| {
      assert ops[..upTo] == ops;
    } else {
      var front := ops[..|ops| - 1];
      assert front[..upTo] == ops[..upTo];
      GapsPersist(front, upTo);
      RunIsSound(front);
      StoredIsSound(Run(front), ops[|ops| - 1]);
    }
  }

  // ----- what the registry holds, told from the operations alone -----

  function FirstReport(ops: seq<Operation>, id: string): Option<Gaps.Report> {
    if ops == [] then None
    else
      var earlier, op := FirstReport(ops[..|ops| - 1], id), ops[|ops| - 1];
      if earlier.None? && op.Register? && op.id == id then Some(op.report) else earlier
  }

  // What these operations leave the next one to find: no gap of its id, or one it would recover before its start.
  function Objection(ops: seq<Operation>, op: Operation): Option<RegistryError> {
    var report := FirstReport(ops, op.id);
    if op.Register? then None
    else if report.None? then Some(NotRegistered)
    else if op.Close? && op.status == Recovered && op.endedAt < report.value.start then Some(EndsBeforeStart)
    else None
  }

  // Operation op changes the gap of this id.
  predicate Changes(ops: seq<Operation>, op: Operation, id: string) {
    !op.Register? && op.id == id && Objection(ops, op).None?
  }

  function LastChange(ops: seq<Operation>, id: string): Option<Operation> {
    if ops == [] then None
    else
      var front, op := ops[..|ops| - 1], ops[|ops| - 1];
      if Changes(front, op, id) then Some(op) else LastChange(front, id)
  }

  function LastEnd(ops: seq<Operation>, id: string): Option<int> {
    if ops == [] then None
    else
      var front, op := ops[..|ops| - 1], ops[|ops| - 1];
      if op.Close? && Changes(front, op, id) then Some(op.endedAt) else LastEnd(front, id)
  }

  // The attempts recorded on this id; one on an id not registered is refused.
  function Attempts(ops: seq<Operation>, id: string): nat {
    if ops == [] then 0
    else
      var front, op := ops[..|ops| - 1], ops[|ops| - 1];
      Attempts(front, id) + (if op.Attempt? && Changes(front, op, id) then 1 else 0)
  }

  // Operation j closed this gap as recovered.
  predicate RecoveredAt(ops: seq<Operation>, id: string, j: nat)
    requires j < |ops|
  {
    ops[j].Close? && ops[j].status == Recovered && Changes(ops[..j], ops[j], id)
  }

  ghost predicate RecoveredOnce(ops: seq<Operation>, id: string) {
    exists j: nat :: j < |ops| && RecoveredAt(ops, id, j)
  }

  lemma RecoveredLater(ops: seq<Operation>, id: string)
    requires ops != []
    ensures var n := |ops| - 1;
            RecoveredOnce(ops, id) <==> RecoveredOnce(ops[..n], id) || RecoveredAt(ops, id, n)
  {
    var n := |ops| - 1;
    forall j: nat | j < n
      ensures RecoveredAt(ops, id, j) <==> RecoveredAt(ops[..n], id, j)
    {
      assert ops[..n][..j] == ops[..j];
    }
  }

  function Found(gaps: seq<Gap>, id: string): Option<Gap> {
    var i := IndexOf(gaps, id);
    if i < |gaps| then Some(gaps[i]) else None
  }

  lemma FoundAt(gaps: seq<Gap>, i: nat)
    requires DistinctIds(gaps) && i < |gaps|
    ensures Found(gaps, gaps[i].id) == Some(gaps[i])
  {
    var k := IndexOf(gaps, gaps[i].id);
    assert k == i;
  }

  lemma FoundAfter(gaps: seq<Gap>, op: Operation, id: string)
    ensures Found(Stored(gaps, op), id) ==
            if id == op.id && Answer(gaps, op).Success? then Some(Answer(gaps, op).value) else Found(gaps, id)
  {
    var after := Stored(gaps, op);
    var k, k' := IndexOf(gaps, id), IndexOf(after, id);
    if Answer(gaps, op).Success? {
      var i := IndexOf(gaps, op.id);
      assert Answer(gaps, op).value.id == op.id;
      assert forall j :: 0 <= j < |gaps| ==> after[j].id == gaps[j].id;
      if k < |gaps| {
        assert k' == k;
      } else if id == op.id {
        assert after[i].id == id;
      } else {
        assert after[|after| - 1].id != id;
      }
    }
  }

  // A gap is as first reported, with the end, status and resolution last given, the attempts counted, and no impact
  // once it was recovered.
  ghost predicate AsTold(g: Gap, ops: seq<Operation>, id: string) {
    var report, change, end := FirstReport(ops, id), LastChange(ops, id), LastEnd(ops, id);
    && report.Some?
    && g.id == id && g.stream == report.value.stream && g.start == report.value.start
    && g.expected == report.value.expected && g.actual == report.value.actual
    && g.end == (if end.Some? then end else report.value.end)
    && g.attempts == Attempts(ops, id)
    && g.impact ==
       (if RecoveredOnce(ops, id) then NoImpact else if report.value.suspected then UnknownImpact else Material)
    && match change
       case None => g.status == Pending && g.resolution == None
       case Some(Close(_, _, status, resolution)) => g.status == status && g.resolution == Some(resolution)
       case Some(Attempt(_, outcome)) => g.status == InProgress && g.resolution == Some(outcome)
       case Some(Register(_, _)) => false
  }

  ghost predicate Tells(ops: seq<Operation>, gaps: seq<Gap>, id: string) {
    var found := Found(gaps, id);
    if found.None? then FirstReport(ops, id).None? else AsTold(found.value, ops, id)
  }

  lemma AnswerObjects(ops: seq<Operation>, gaps: seq<Gap>, op: Operation)
    requires Tells(ops, gaps, op.id)
    ensures match Objection(ops, op)
            case None => Answer(gaps, op).Success?
            case Some(e) => Answer(gaps, op) == Failure(e)
  {
  }

  lemma {:induction false} NothingBeforeReport(ops: seq<Operation>, id: string)
    requires FirstReport(ops, id).None?
    ensures LastChange(ops, id) == None && LastEnd(ops, id) == None && Attempts(ops, id) == 0
    ensures !RecoveredOnce(ops, id)
  {
    if ops != [] {
      NothingBeforeReport(ops[..|ops| - 1], id);
      RecoveredLater(ops, id);
    }
  }

  lemma ReportedTells(ops: seq<Operation>, front: seq<Operation>, gaps: seq<Gap>, op: Operation)
    requires ops == front + [op] && op.Register? && Tells(front, gaps, op.id)
    ensures AsTold(Answer(gaps, op).value, ops, op.id)
  {
    assert ops[..|front|] == front;
    RecoveredLater(ops, op.id);
    if FirstReport(front, op.id).None? {
      NothingBeforeReport(front, op.id);
    }
  }

  lemma ChangedTells(ops: seq<Operation>, front: seq<Operation>, gaps: seq<Gap>, op: Operation)
    requires ops == front + [op] && !op.Register? && Tells(front, gaps, op.id) && Answer(gaps, op).Success?
    ensures AsTold(Answer(gaps, op).value, ops, op.id)
  {
    assert ops[..|front|] == front;
    RecoveredLater(ops, op.id);
    AnswerObjects(front, gaps, op);
  }

  lemma OtherTells(ops: seq<Operation>, front: seq<Operation>, gaps: seq<Gap>, op: Operation, id: string)
    requires ops == front + [op] && Tells(front, gaps, id)
    requires op.id == id ==> Objection(front, op).Some?
    ensures Tells(ops, gaps, id)
  {
    assert ops[..|front|] == front;
    RecoveredLater(ops, id);
  }

  lemma {:induction false} RunTells(ops: seq<Operation>, id: string)
    ensures Tells(ops, Run(ops), id)
  {
    if ops != [] {
      var front, op := ops[..|ops| - 1], ops[|ops| - 1];
      var gaps := Run(front);
      RunTells(front, id);
      FoundAfter(gaps, op, id);
      assert ops == front + [op];
      if op.id == id {
        AnswerObjects(front, gaps, op);
      }
      if op.id != id || Objection(front, op).Some? {
        OtherTells(ops, front, gaps, op, id);
      } else if op.Register? {
        ReportedTells(ops, front, gaps, op);
      } else {
        ChangedTells(ops, front, gaps, op);
      }
    }
  }

  /** After any operations, refused ones included: a gap is held for exactly the ids ever reported, once each, and
      is as first reported but for the end, status and resolution last given it, its attempts and its impact. */
  lemma {:induction false} HeldExactly(ops: seq<Operation>)
    ensures forall id: string :: FirstReport(ops, id).Some? <==> exists g <- Run(ops) :: g.id == id
    ensures forall g <- Run(ops) :: AsTold(g, ops, g.id)
  {
    var gaps := Run(ops);
    RunIsSound(ops);
    forall id: string
      ensures FirstReport(ops, id).Some? <==> exists g <- gaps :: g.id == id
    {
      RunTells(ops, id);
      if FirstReport(ops, id).Some? {
        assert gaps[IndexOf(gaps, id)] in gaps;
      }
    }
    forall g | g in gaps
      ensures AsTold(g, ops, g.id)
    {
      var i :| 0 <= i < |gaps| && gaps[i] == g;
      FoundAt(gaps, i);
      RunTells(ops, g.id);
    }
  }

  /** An operation is refused exactly when no gap was ever reported under its id, or it would close the gap as
      recovered before the start first reported. */
  lemma {:induction false} RefusedExactly(ops: seq<Operation>, op: Operation)
    ensures var answer := Answer(Run(ops), op);
            && (answer == Failure(NotRegistered) <==> !op.Register? && FirstReport(ops, op.id).None?)
            && (answer == Failure(EndsBeforeStart) <==>
                && op.Close? && op.status == Recovered && FirstReport(ops, op.id).Some?
                && op.endedAt < FirstReport(ops, op.id).value.start)
  {
    RunTells(ops, op.id);
    AnswerObjects(ops, Run(ops), op);
  }

  /** After any run, a gap has no impact exactly when it was once closed as recovered, whatever was done to it
      since. So one that is retried, or closed again as partial, leaves data missing with no impact, and
      these are the only ones that do. */
  lemma {:induction false} NoImpactExactly(ops: seq<Operation>, g: Gap)
    requires g in Run(ops)
    ensures g.impact == NoImpact <==> RecoveredOnce(ops, g.id)
    ensures LeavesDataMissing(g.status) && g.impact == NoImpact <==>
            RecoveredOnce(ops, g.id) && g.status != Recovered
  {
    HeldExactly(ops);
  }

  // One such run: a gap registered, recovered, then retried.
  lemma RetriedLosesImpact(id: string, report: Gaps.Report, endedAt: int)
    requires endedAt >= report.start
    ensures var gaps := Run([Register(id, report), Close(id, endedAt, Recovered, ""), Attempt(id, "")]);
            |gaps| == 1 && gaps[0].id == id && LeavesDataMissing(gaps[0].status) && gaps[0].impact == NoImpact
  {
    var a, b, c := Register(id, report), Close(id, endedAt, Recovered, ""), Attempt(id, "");
    var g := NewGap(id, report);
    assert [a][..0] == [] && [a, b][..1] == [a] && [a, b, c][..2] == [a, b];
    assert Run([]) == [] && IndexOf([], id) == 0 && [] + [g] == [g];
    assert Run([a]) == Stored([], a) == [g];
    assert IndexOf([g], id) == 0;
    var closed := Closed(g, endedAt, Recovered, "");
    assert Run([a, b]) == Stored([g], b) == [closed];
    assert IndexOf([closed], id) == 0;
  }
}

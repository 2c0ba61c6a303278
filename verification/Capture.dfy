/** Loading a capture file: envelopes carry their receipt time, bare frames are given a synthetic one. */
module Capture {
  import opened Prelude
  import opened Events
  import Replaying

  // Microseconds since the epoch: 2000-01-01 and 2001-01-01; and the synthetic delay of one millisecond.
  const FALLBACK_BASE := 946_684_800_000_000
  const ANCHOR_CUTOFF := 978_307_200_000_000
  const DELAY := 1_000

  // The last microsecond of the year 9999; a later datetime cannot be built.
  const LATEST := 253_402_300_799_999_999

  datatype Captured = Captured(payload: string, receipt: Receipt)

  // Where a bare frame may carry the venue's time in milliseconds: in its data, or in the first of a list.
  datatype VenueData = InObject(time: Option<int>) | InFirstRecord(time: Option<int>) | Elsewhere

  // What an envelope yields: nothing without a usable frame or receipt time; an exception if its monotonic
  // reading is no integer.
  datatype Enveloped = Nothing | Raises | Yields(frame: Captured)

  // One line of the file, as json.loads and the shape checks classify it. A header's version is read if it is
  // absent or an integer.
  datatype Line =
    | Blank
    | Unreadable
    | Header(isObject: bool, readsVersion: bool)
    | Envelope(content: Enveloped)
    | Bare(text: string, data: VenueData)

  datatype CaptureError =
    | HeaderNotFirst(line: nat)
    | HeaderNotObject
    | HeaderVersion
    | EnvelopeRaised(line: nat)
    | OutOfRange(line: nat)

  datatype Session = Session(hasHeader: bool, frames: seq<Captured>, malformed: seq<nat>, synthetic: bool)

  function VenueTimeMs(d: VenueData): Option<int> {
    if d.Elsewhere? || d.time.None? || d.time.value <= 0 then None else d.time
  }

  // Derived from the venue's time if there is one, else carried forward; never before the previous bare frame.
  function BareReceipt(venueMs: Option<int>, previous: Option<int>): int {
    var received :=
      if venueMs.Some? then venueMs.value * 1_000 + DELAY
      else if previous.Some? then previous.value + DELAY
      else FALLBACK_BASE;
    if previous.Some? && received < previous.value then previous.value + DELAY else received
  }

  // What the loader holds after some lines.
  datatype Loading = Loading(
    hasHeader: bool, frames: seq<Captured>, malformed: seq<nat>, synthesized: nat, lastReceipt: Option<int>)

  const NOTHING_LOADED := Loading(false, [], [], 0, None)

  function ReadLine(l: Loading, line: Line, number: nat): Result<Loading, CaptureError> {
    match line
    case Blank => Success(l)
    case Unreadable => Success(l.(malformed := l.malformed + [number]))
    case Header(isObject, readsVersion) =>
      if number != 1 then Failure(HeaderNotFirst(number))
      else if !isObject then Failure(HeaderNotObject)
      else if !readsVersion then Failure(HeaderVersion)
      else Success(l.(hasHeader := true))
    case Envelope(Nothing) => Success(l.(malformed := l.malformed + [number]))
    case Envelope(Raises) => Failure(EnvelopeRaised(number))
    case Envelope(Yields(frame)) => Success(l.(frames := l.frames + [frame]))
    case Bare(text, data) =>
      var t := BareReceipt(VenueTimeMs(data), l.lastReceipt);
      if t > LATEST then Failure(OutOfRange(number))
      else Success(l.(frames := l.frames + [Captured(text, Receipt(t, |l.frames| * DELAY * 1_000))],
                 synthesized := l.synthesized + 1, lastReceipt := Some(t)))
  }

  // The first error ends the load.
  function ReadLines(lines: seq<Line>): Result<Loading, CaptureError> {
    if lines == [] then Success(NOTHING_LOADED)
    else
      match ReadLines(lines[..|lines| - 1])
      case Failure(e) => Failure(e)
      case Success(l) => ReadLine(l, lines[|lines| - 1], |lines|)
  }

  // ----- re-anchoring -----

  // How many frames at the front carry a fallback receipt.
  function Leading(frames: seq<Captured>): (n: nat)
    ensures n <= |frames|
    ensures forall i :: 0 <= i < n ==> frames[i].receipt.time < ANCHOR_CUTOFF
    ensures n < |frames| ==> frames[n].receipt.time >= ANCHOR_CUTOFF
  {
    if frames == [] || frames[0].receipt.time >= ANCHOR_CUTOFF then 0
    else
      var rest := Leading(frames[1..]);
      assert forall i :: 1 <= i < 1 + rest ==> frames[i] == frames[1..][i - 1];
      1 + rest
  }

  function Rebased(f: Captured, anchor: int, before: int): Captured {
    f.(receipt := f.receipt.(time := anchor - before * DELAY))
  }

  // The first n frames, each that many milliseconds before the anchor as frames are left before leading.
  function Rebasing(frames: seq<Captured>, anchor: int, leading: nat, n: nat): (r: seq<Captured>)
    requires n <= leading <= |frames|
    ensures |r| == n
  {
    seq(n, i requires 0 <= i < n => Rebased(frames[i], anchor, leading - i))
  }

  lemma RebasingOneMore(frames: seq<Captured>, anchor: int, leading: nat, n: nat)
    requires n < leading <= |frames|
    ensures Rebasing(frames, anchor, leading, n + 1) ==
            Rebasing(frames, anchor, leading, n) + [Rebased(frames[n], anchor, leading - n)]
  {
  }

  function Anchored(frames: seq<Captured>): (r: seq<Captured>)
    ensures |r| == |frames|
  {
    var leading := Leading(frames);
    if leading == 0 || leading == |frames| then frames
    else Rebasing(frames, frames[leading].receipt.time, leading, leading) + frames[leading..]
  }

  lemma {:induction false} LeadingIs(frames: seq<Captured>, n: nat)
    requires n <= |frames| && forall i :: 0 <= i < n ==> frames[i].receipt.time < ANCHOR_CUTOFF
    requires n < |frames| ==> frames[n].receipt.time >= ANCHOR_CUTOFF
    ensures Leading(frames) == n
  {
  }

  method AnchorLeadingFrames(frames: seq<Captured>) returns (r: seq<Captured>)
    ensures r == Anchored(frames)
  {
    var leading := 0;
    while leading < |frames| && frames[leading].receipt.time < ANCHOR_CUTOFF
      invariant leading <= |frames|
      invariant forall i :: 0 <= i < leading ==> frames[i].receipt.time < ANCHOR_CUTOFF
    {
      leading := leading + 1;
    }
    LeadingIs(frames, leading);
    if leading == 0 || leading == |frames| {
      return frames;
    }
    var anchor := frames[leading].receipt.time;
    var rebased: seq<Captured> := [];
    for i := 0 to leading
      invariant rebased == Rebasing(frames, anchor, leading, i)
    {
      RebasingOneMore(frames, anchor, leading, i);
      rebased := rebased + [Rebased(frames[i], anchor, leading - i)];
    }
    r := rebased + frames[leading..];
  }

  function Loaded(lines: seq<Line>): Result<Session, CaptureError> {
    match ReadLines(lines)
    case Failure(e) => Failure(e)
    case Success(l) => Success(Session(l.hasHeader, Anchored(l.frames), l.malformed, l.synthesized > 0))
  }

  lemma {:induction false} ErrorSticks(lines: seq<Line>, i: nat)
    requires i <= |lines| && ReadLines(lines[..i]).Failure?
    ensures ReadLines(lines) == ReadLines(lines[..i])
    decreases |lines|
  {
    if i == |lines| {
      assert lines[..i] == lines;
    } else {
      assert lines[..|lines| - 1][..i] == lines[..i];
      ErrorSticks(lines[..|lines| - 1], i);
    }
  }

  lemma {:induction false} ErrorSticksHere(lines: seq<Line>, i: nat)
    requires i <= |lines|
    ensures ReadLines(lines[..i]).Failure? ==> ReadLines(lines) == ReadLines(lines[..i])
  {
    if ReadLines(lines[..i]).Failure? {
      ErrorSticks(lines, i);
    }
  }

  method LoadSession(lines: seq<Line>) returns (r: Result<Session, CaptureError>)
    ensures r == Loaded(lines)
  {
    var hasHeader := false;
    var frames: seq<Captured>, malformed: seq<nat> := [], [];
    var synthesized, lastReceipt := 0, None;
    for i := 0 to |lines|
      invariant ReadLines(lines[..i]) == Success(Loading(hasHeader, frames, malformed, synthesized, lastReceipt))
    {
      assert lines[..i + 1][..i] == lines[..i];
      ErrorSticksHere(lines, i + 1);
      var number := i + 1;
      match lines[i] {
        case Blank =>
        case Unreadable => malformed := malformed + [number];
        case Header(isObject, readsVersion) =>
          if number != 1 {
            return Failure(HeaderNotFirst(number));
          }
          if !isObject {
            return Failure(HeaderNotObject);
          }
          if !readsVersion {
            return Failure(HeaderVersion);
          }
          hasHeader := true;
        case Envelope(content) =>
          match content {
            case Nothing => malformed := malformed + [number];
            case Raises => return Failure(EnvelopeRaised(number));
            case Yields(frame) => frames := frames + [frame];
          }
        case Bare(text, data) =>
          var received := BareReceipt(VenueTimeMs(data), lastReceipt);
          if received > LATEST {
            return Failure(OutOfRange(number));
          }
          lastReceipt := Some(received);
          frames := frames + [Captured(text, Receipt(received, |frames| * DELAY * 1_000))];
          synthesized := synthesized + 1;
      }
    }
    assert lines[..|lines|] == lines;
    frames := AnchorLeadingFrames(frames);
    r := Success(Session(hasHeader, frames, malformed, synthesized > 0));
  }

  // ----- properties -----

  // One frame after re-anchoring.
  function AnchoredFrame(frames: seq<Captured>, i: nat): Captured
    requires i < |frames|
  {
    var n := Leading(frames);
    if i < n < |frames| then Rebased(frames[i], frames[n].receipt.time, n - i) else frames[i]
  }

  lemma AnchoredAt(frames: seq<Captured>, i: nat)
    requires i < |frames|
    ensures Anchored(frames)[i] == AnchoredFrame(frames, i)
  {
  }

  // Re-anchoring keeps the length, every payload and monotonic reading, and every frame from the first timed one on.
  lemma {:induction false} AnchoringKeeps(frames: seq<Captured>, i: nat)
    requires i < |frames|
    ensures |Anchored(frames)| == |frames|
    ensures Anchored(frames)[i].payload == frames[i].payload
    ensures Anchored(frames)[i].receipt.monotonicNs == frames[i].receipt.monotonicNs
    ensures Leading(frames) <= i ==> Anchored(frames)[i] == frames[i]
  {
    AnchoredAt(frames, i);
  }

  // What re-anchoring is for: the leading frames stand a millisecond apart, right before the first timed one.
  lemma {:induction false} AnchoringPlaces(frames: seq<Captured>, i: nat)
    requires i < Leading(frames) < |frames|
    ensures Anchored(frames)[i].receipt.time ==
            frames[Leading(frames)].receipt.time - (Leading(frames) - i) * DELAY
  {
    AnchoredAt(frames, i);
  }

  // From frame n to the last receipt; the session reports it from frame 0 as its duration.
  function Span(frames: seq<Captured>, n: nat): int
    requires n < |frames|
  {
    frames[|frames| - 1].receipt.time - frames[n].receipt.time
  }

  lemma {:induction false} LastIsKept(frames: seq<Captured>)
    requires frames != [] && Leading(frames) < |frames|
    ensures Anchored(frames)[|frames| - 1] == frames[|frames| - 1]
  {
    AnchoringKeeps(frames, |frames| - 1);
  }

  lemma {:induction false} FirstIsPlaced(frames: seq<Captured>)
    requires Leading(frames) < |frames|
    ensures Anchored(frames)[0].receipt.time == frames[Leading(frames)].receipt.time - Leading(frames) * DELAY
  {
    if Leading(frames) > 0 {
      AnchoringPlaces(frames, 0);
    } else {
      AnchoringKeeps(frames, 0);
    }
  }

  /** So the session lasts as long as its timed frames do, and a millisecond more for each leading one; a
      file without a timed frame keeps its duration. */
  lemma {:induction false} AnchoredSpan(frames: seq<Captured>)
    requires frames != []
    ensures var n := Leading(frames);
            Span(Anchored(frames), 0) == if n == |frames| then Span(frames, 0) else Span(frames, n) + n * DELAY
  {
    var n := Leading(frames);
    if n < |frames| {
      LastIsKept(frames);
      FirstIsPlaced(frames);
    }
  }

  // The payloads of the lines that carry a frame.
  function PayloadsOf(lines: seq<Line>): seq<string> {
    if lines == [] then []
    else
      PayloadsOf(lines[..|lines| - 1])
      + match lines[|lines| - 1]
        case Bare(text, _) => [text]
        case Envelope(Yields(frame)) => [frame.payload]
        case _ => []
  }

  predicate CarryPayloads(frames: seq<Captured>, payloads: seq<string>) {
    |frames| == |payloads| && forall i :: 0 <= i < |frames| ==> frames[i].payload == payloads[i]
  }

  lemma {:induction false} ReadingKeepsPayloads(lines: seq<Line>)
    requires ReadLines(lines).Success?
    ensures CarryPayloads(ReadLines(lines).value.frames, PayloadsOf(lines))
  {
    if lines != [] {
      ReadingKeepsPayloads(lines[..|lines| - 1]);
    }
  }

  /** Loading and re-anchoring keep every payload, once and in the order of the file. */
  lemma {:induction false} LoadKeepsPayloads(lines: seq<Line>)
    requires Loaded(lines).Success?
    ensures CarryPayloads(Loaded(lines).value.frames, PayloadsOf(lines))
  {
    var frames := ReadLines(lines).value.frames;
    ReadingKeepsPayloads(lines);
    forall i | 0 <= i < |frames|
      ensures Anchored(frames)[i].payload == frames[i].payload
    {
      AnchoringKeeps(frames, i);
    }
  }

  // ----- every line of a loaded file, before re-anchoring -----

  predicate CarriesFrame(line: Line) {
    line.Bare? || (line.Envelope? && line.content.Yields?)
  }

  function FrameCount(lines: seq<Line>): nat {
    if lines == [] then 0
    else FrameCount(lines[..|lines| - 1]) + (if CarriesFrame(lines[|lines| - 1]) then 1 else 0)
  }

  // The last bare line of these, if there is one.
  function LastBare(lines: seq<Line>): (j: Option<nat>)
    ensures j.Some? ==> j.value < |lines| && lines[j.value].Bare?
    ensures j.None? ==> forall i :: 0 <= i < |lines| ==> !lines[i].Bare?
    ensures j.Some? ==> forall i :: j.value < i < |lines| ==> !lines[i].Bare?
  {
    if lines == [] then None
    else if lines[|lines| - 1].Bare? then Some(|lines| - 1)
    else LastBare(lines[..|lines| - 1])
  }

  // When a bare frame must be taken to be received, the previous one having been received when it was: a
  // millisecond after its venue time, if that is positive and this not before the previous receipt; else a
  // millisecond after the previous receipt, or at the fallback base.
  predicate ReceivedRight(t: int, d: VenueData, previous: Option<int>) {
    if !d.Elsewhere? && d.time.Some? && d.time.value > 0
       && (previous.Some? ==> d.time.value * 1_000 + 1_000 >= previous.value)
    then t == d.time.value * 1_000 + 1_000
    else if previous.Some? then t == previous.value + 1_000
    else t == 946_684_800_000_000
  }

  // The receipt of the last bare frame of these lines.
  function PreviousReceipt(lines: seq<Line>, frames: seq<Captured>): Option<int>
    requires FrameCount(lines) <= |frames|
  {
    match LastBare(lines)
    case None => None
    case Some(j) =>
      CountsUpTo(lines, j);
      Some(frames[FrameCount(lines[..j])].receipt.time)
  }

  lemma {:induction false} CountsUpTo(lines: seq<Line>, j: nat)
    requires j < |lines|
    ensures FrameCount(lines[..j]) + (if CarriesFrame(lines[j]) then 1 else 0) <= FrameCount(lines)
  {
    var front := lines[..|lines| - 1];
    if j < |front| {
      assert front[..j] == lines[..j];
      CountsUpTo(front, j);
    }
  }

  // The line gave frame n as it must, the previous bare frame having been received then.
  predicate Gives(line: Line, frames: seq<Captured>, n: nat, previous: Option<int>) {
    match line
    case Envelope(Yields(frame)) => n < |frames| && frames[n] == frame
    case Bare(text, data) =>
      && n < |frames|
      && frames[n].payload == text && frames[n].receipt.monotonicNs == n * 1_000_000
      && ReceivedRight(frames[n].receipt.time, data, previous)
    case _ => true
  }

  // Line i gave the frame it must.
  predicate LineRead(lines: seq<Line>, frames: seq<Captured>, i: nat)
    requires i < |lines| && FrameCount(lines) <= |frames|
  {
    CountsUpTo(lines, i);
    Gives(lines[i], frames, FrameCount(lines[..i]), PreviousReceipt(lines[..i], frames))
  }

  lemma BareReceiptIsRight(d: VenueData, previous: Option<int>)
    ensures ReceivedRight(BareReceipt(VenueTimeMs(d), previous), d, previous)
  {
  }

  // What is read of a line does not depend on the frames to come.
  lemma {:induction false} LineStaysRead(
    lines: seq<Line>, longer: seq<Line>, frames: seq<Captured>, more: seq<Captured>, i: nat)
    requires i < |lines| && lines <= longer && frames <= more
    requires FrameCount(lines) <= |frames| && FrameCount(longer) <= |more|
    requires LineRead(lines, frames, i)
    ensures LineRead(longer, more, i)
  {
    assert lines[..i] == longer[..i];
    CountsUpTo(lines, i);
    var j := LastBare(lines[..i]);
    if j.Some? {
      CountsUpTo(lines[..i], j.value);
    }
  }

  // After these lines: how many frames, when the last bare one was received, and every line read right.
  predicate ReadSoFar(lines: seq<Line>, l: Loading) {
    && |l.frames| == FrameCount(lines)
    && l.lastReceipt == PreviousReceipt(lines, l.frames)
    && forall i :: 0 <= i < |lines| ==> LineRead(lines, l.frames, i)
  }

  lemma OneMoreRead(front: seq<Line>, l: Loading, line: Line, after: Loading)
    requires ReadSoFar(front, l) && ReadLine(l, line, |front| + 1) == Success(after)
    ensures ReadSoFar(front + [line], after)
  {
    var lines := front + [line];
    assert lines[..|front|] == front;
    assert l.frames <= after.frames;
    OneMorePrevious(front, l, line, after);
    forall i | 0 <= i < |lines|
      ensures LineRead(lines, after.frames, i)
    {
      if i < |front| {
        LineStaysRead(front, lines, l.frames, after.frames, i);
      } else {
        LastLineRead(front, l, line, after);
      }
    }
  }

  lemma {:induction false} SamePrevious(lines: seq<Line>, frames: seq<Captured>, more: seq<Captured>)
    requires frames <= more && FrameCount(lines) <= |frames|
    ensures PreviousReceipt(lines, more) == PreviousReceipt(lines, frames)
  {
    var j := LastBare(lines);
    if j.Some? {
      CountsUpTo(lines, j.value);
    }
  }

  lemma {:induction false} OneMorePrevious(front: seq<Line>, l: Loading, line: Line, after: Loading)
    requires ReadSoFar(front, l) && ReadLine(l, line, |front| + 1) == Success(after)
    ensures |after.frames| == FrameCount(front + [line])
    ensures after.lastReceipt == PreviousReceipt(front + [line], after.frames)
  {
    var lines := front + [line];
    assert lines[..|front|] == front;
    SamePrevious(front, l.frames, after.frames);
    if !line.Bare? {
      var j := LastBare(front);
      if j.Some? {
        assert lines[..j.value] == front[..j.value];
      }
    }
  }

  lemma ReadGives(l: Loading, line: Line, number: nat, after: Loading)
    requires ReadLine(l, line, number) == Success(after)
    ensures Gives(line, after.frames, |l.frames|, l.lastReceipt)
  {
    if line.Bare? {
      BareReceiptIsRight(line.data, l.lastReceipt);
    }
  }

  lemma {:induction false} LastLineRead(front: seq<Line>, l: Loading, line: Line, after: Loading)
    requires |l.frames| == FrameCount(front) && l.lastReceipt == PreviousReceipt(front, l.frames)
    requires ReadLine(l, line, |front| + 1) == Success(after)
    ensures FrameCount(front + [line]) <= |after.frames|
    ensures LineRead(front + [line], after.frames, |front|)
  {
    var lines := front + [line];
    assert lines[..|front|] == front;
    SamePrevious(front, l.frames, after.frames);
    ReadGives(l, line, |front| + 1, after);
  }

  /** Before re-anchoring, a loaded file has one frame for each line that carries one, in order: an envelope's as
      it is; a bare line's with its text, a millisecond of monotonic time per frame before it, and the receipt its
      venue time and the previous bare frame call for, whatever envelopes lie between. */
  lemma {:induction false} LinesReadExactly(lines: seq<Line>)
    requires ReadLines(lines).Success?
    ensures ReadSoFar(lines, ReadLines(lines).value)
  {
    if lines != [] {
      var front, line := lines[..|lines| - 1], lines[|lines| - 1];
      LinesReadExactly(front);
      assert front + [line] == lines;
      OneMoreRead(front, ReadLines(front).value, line, ReadLines(lines).value);
    }
  }

  // ----- malformed lines, header and synthetic flag -----

  predicate Malformed(line: Line) {
    line.Unreadable? || line == Envelope(Nothing)
  }

  ghost predicate ListsMalformed(numbers: seq<nat>, lines: seq<Line>) {
    && (forall i, j :: 0 <= i < j < |numbers| ==> numbers[i] < numbers[j])
    && (forall n: nat :: n in numbers <==> 1 <= n <= |lines| && Malformed(lines[n - 1]))
  }

  lemma OneMoreListed(numbers: seq<nat>, front: seq<Line>, line: Line)
    requires ListsMalformed(numbers, front)
    ensures var n := |front| + 1;
            ListsMalformed(if Malformed(line) then numbers + [n] else numbers, front + [line])
  {
    var lines := front + [line];
    assert lines[|front|] == line && forall i :: 0 <= i < |front| ==> lines[i] == front[i];
    forall i | 0 <= i < |numbers|
      ensures numbers[i] <= |front|
    {
      assert numbers[i] in numbers;
    }
  }

  predicate HeaderFirst(hasHeader: bool, lines: seq<Line>) {
    && (hasHeader <==> lines != [] && lines[0].Header?)
    && forall i :: 0 < i < |lines| ==> !lines[i].Header?
  }

  predicate CountsBare(synthesized: nat, lines: seq<Line>) {
    synthesized > 0 <==> exists i :: 0 <= i < |lines| && lines[i].Bare?
  }

  lemma OneMoreHeader(front: seq<Line>, l: Loading, line: Line, after: Loading)
    requires HeaderFirst(l.hasHeader, front) && ReadLine(l, line, |front| + 1) == Success(after)
    ensures HeaderFirst(after.hasHeader, front + [line])
  {
  }

  lemma OneMoreBare(front: seq<Line>, l: Loading, line: Line, after: Loading)
    requires CountsBare(l.synthesized, front) && ReadLine(l, line, |front| + 1) == Success(after)
    ensures CountsBare(after.synthesized, front + [line])
  {
    var lines := front + [line];
    assert lines[|front|] == line && forall i :: 0 <= i < |front| ==> lines[i] == front[i];
  }

  lemma OneMoreMalformed(l: Loading, line: Line, number: nat, after: Loading)
    requires ReadLine(l, line, number) == Success(after)
    ensures after.malformed == if Malformed(line) then l.malformed + [number] else l.malformed
  {
  }

  /** A loaded session lists, in order, exactly the numbers of the lines that could not be read or held nothing
      usable; it has a header exactly if the first line is one, which no other is; and its receipts count as
      synthetic exactly if some line is bare. */
  lemma {:induction false} SessionTellsLines(lines: seq<Line>)
    requires ReadLines(lines).Success?
    ensures var l := ReadLines(lines).value;
            && ListsMalformed(l.malformed, lines)
            && HeaderFirst(l.hasHeader, lines)
            && CountsBare(l.synthesized, lines)
  {
    if lines != [] {
      var front, line := lines[..|lines| - 1], lines[|lines| - 1];
      var l, after := ReadLines(front).value, ReadLines(lines).value;
      SessionTellsLines(front);
      assert front + [line] == lines;
      OneMoreListed(l.malformed, front, line);
      OneMoreMalformed(l, line, |lines|, after);
      OneMoreHeader(front, l, line, after);
      OneMoreBare(front, l, line, after);
    }
  }

  // ----- recorded files, and bare ones -----

  predicate OnlyEnvelopes(lines: seq<Line>) {
    forall line <- lines :: !line.Bare?
  }

  // The frames of a recorded file, as its envelopes hold them.
  function EnvelopeFrames(lines: seq<Line>): seq<Captured> {
    if lines == [] then []
    else
      EnvelopeFrames(lines[..|lines| - 1])
      + match lines[|lines| - 1]
        case Envelope(Yields(frame)) => [frame]
        case _ => []
  }

  lemma {:induction false} ReadingKeepsEnvelopes(lines: seq<Line>)
    requires OnlyEnvelopes(lines) && ReadLines(lines).Success?
    ensures ReadLines(lines).value.frames == EnvelopeFrames(lines) && ReadLines(lines).value.synthesized == 0
  {
    if lines != [] {
      ReadingKeepsEnvelopes(lines[..|lines| - 1]);
      assert lines[|lines| - 1] in lines;
    }
  }

  /** A recorded file, one without bare frames, loads with no synthetic receipt; and unless its first receipt is
      before the cutoff, to exactly the frames its envelopes hold, payloads and both clock readings. */
  lemma {:induction false} RecordedFilesAreKept(lines: seq<Line>)
    requires OnlyEnvelopes(lines) && Loaded(lines).Success?
    ensures !Loaded(lines).value.synthetic
    ensures var frames := EnvelopeFrames(lines);
            frames == [] || frames[0].receipt.time >= ANCHOR_CUTOFF ==> Loaded(lines).value.frames == frames
  {
    ReadingKeepsEnvelopes(lines);
  }

  // Anchoring again, the new leading frames are a prefix of the old ones.
  lemma {:induction false} LeadingShrinks(frames: seq<Captured>)
    requires Leading(frames) < |frames|
    ensures Leading(Anchored(frames)) <= Leading(frames)
  {
    AnchoredAt(frames, Leading(frames));
  }

  lemma AnchoringTwiceAt(frames: seq<Captured>, i: nat)
    requires i < |frames|
    ensures AnchoredFrame(Anchored(frames), i) == AnchoredFrame(frames, i)
  {
    var n, r := Leading(frames), Anchored(frames);
    AnchoredAt(frames, i);
    if n < |frames| {
      LeadingShrinks(frames);
      AnchoredAt(frames, Leading(r));
    } else {
      assert r == frames;
    }
  }

  // On any list of frames, re-anchoring twice is re-anchoring once.
  lemma AnchoringIsIdempotent(frames: seq<Captured>)
    ensures Anchored(Anchored(frames)) == Anchored(frames)
  {
    var r := Anchored(frames);
    forall i | 0 <= i < |frames|
      ensures Anchored(r)[i] == r[i]
    {
      AnchoringTwiceAt(frames, i);
      AnchoredAt(r, i);
      AnchoredAt(frames, i);
    }
  }

  predicate NonDecreasing(frames: seq<Captured>) {
    forall i, j :: 0 <= i < j < |frames| ==> frames[i].receipt.time <= frames[j].receipt.time
  }

  lemma AnchoringKeepsOrder(frames: seq<Captured>)
    requires NonDecreasing(frames)
    ensures NonDecreasing(Anchored(frames))
  {
    var n, r := Leading(frames), Anchored(frames);
    if 0 < n < |frames| {
      var anchor := frames[n].receipt.time;
      assert forall i :: 0 <= i < n ==> r[i].receipt.time == anchor - (n - i) * DELAY;
      assert forall i :: n <= i < |r| ==> r[i] == frames[i];
    }
  }

  // No line contributes a frame with a receipt time of its own.
  predicate OnlyBare(lines: seq<Line>) {
    forall i :: 0 <= i < |lines| && lines[i].Envelope? ==> !lines[i].content.Yields?
  }

  predicate OrderedUpTo(l: Loading) {
    && NonDecreasing(l.frames)
    && (if l.lastReceipt.None? then l.frames == []
        else l.frames != [] && l.frames[|l.frames| - 1].receipt.time == l.lastReceipt.value)
  }

  lemma {:induction false} BareLoadsInOrder(lines: seq<Line>)
    requires OnlyBare(lines) && ReadLines(lines).Success?
    ensures OrderedUpTo(ReadLines(lines).value)
  {
    if lines != [] {
      BareLoadsInOrder(lines[..|lines| - 1]);
      var l := ReadLines(lines[..|lines| - 1]).value;
      var line := lines[|lines| - 1];
      if line.Bare? {
        assert l.lastReceipt.Some? ==> BareReceipt(VenueTimeMs(line.data), l.lastReceipt) >= l.lastReceipt.value;
      }
    }
  }

  // A captured frame as the recorder will receive it, read giving its channel and content.
  function AsFrames(frames: seq<Captured>, read: Captured -> (string, Content)): seq<Frame> {
    seq(|frames|, i requires 0 <= i < |frames| =>
      Frame(frames[i].payload, read(frames[i]).0, frames[i].receipt, read(frames[i]).1))
  }

  /** A file of bare frames, with any mix of present, absent and out-of-order venue times, loads to receipts
      that never decrease, so its replay can only fail for want of frames. */
  lemma BareFilesReplay(lines: seq<Line>, read: Captured -> (string, Content))
    requires OnlyBare(lines) && Loaded(lines).Success?
    ensures NonDecreasing(Loaded(lines).value.frames)
    ensures Replaying.NonDecreasing(AsFrames(Loaded(lines).value.frames, read))
  {
    BareLoadsInOrder(lines);
    AnchoringKeepsOrder(ReadLines(lines).value.frames);
  }

  // ----- what a bare file's venue times make of its duration -----

  // Lines of bare frames only, all with a venue time, none before the one before it.
  predicate TimedBare(lines: seq<Line>) {
    && (forall i :: 0 <= i < |lines| ==> lines[i].Bare? && VenueTimeMs(lines[i].data).Some?)
    && (forall i, j :: 0 <= i < j < |lines| ==> VenueMs(lines[i]) <= VenueMs(lines[j]))
  }

  function VenueMs(line: Line): int {
    if line.Bare? && !line.data.Elsewhere? && line.data.time.Some? then line.data.time.value else 0
  }

  // One frame per line, each received a millisecond after its venue time.
  predicate ReceivedAfterVenue(frames: seq<Captured>, lines: seq<Line>) {
    |frames| == |lines| && forall i :: 0 <= i < |lines| ==> frames[i].receipt.time == VenueMs(lines[i]) * 1_000 + 1_000
  }

  // Each line read, and the receipt of the last.
  predicate TimedSoFar(lines: seq<Line>, l: Loading) {
    && ReceivedAfterVenue(l.frames, lines)
    && l.lastReceipt == if lines == [] then None else Some(VenueMs(lines[|lines| - 1]) * 1_000 + 1_000)
  }

  lemma OneMoreTimed(front: seq<Line>, l: Loading, line: Line, after: Loading)
    requires TimedSoFar(front, l) && ReadLine(l, line, |front| + 1) == Success(after)
    requires line.Bare? && VenueTimeMs(line.data).Some?
    requires front != [] ==> VenueMs(front[|front| - 1]) <= VenueMs(line)
    ensures TimedSoFar(front + [line], after)
  {
  }

  lemma {:induction false} TimedBareReceipts(lines: seq<Line>)
    requires TimedBare(lines) && ReadLines(lines).Success?
    ensures TimedSoFar(lines, ReadLines(lines).value)
  {
    if lines != [] {
      var front, line := lines[..|lines| - 1], lines[|lines| - 1];
      assert forall i :: 0 <= i < |front| ==> front[i] == lines[i];
      TimedBareReceipts(front);
      assert front + [line] == lines;
      OneMoreTimed(front, ReadLines(front).value, line, ReadLines(lines).value);
    }
  }

  // How many lines at the start are received before the cutoff.
  function Early(lines: seq<Line>): (n: nat)
    ensures n <= |lines|
  {
    if lines == [] || VenueMs(lines[0]) * 1_000 + 1_000 >= 978_307_200_000_000 then 0 else 1 + Early(lines[1..])
  }

  lemma {:induction false} EarlyLead(frames: seq<Captured>, lines: seq<Line>)
    requires ReceivedAfterVenue(frames, lines)
    ensures Leading(frames) == Early(lines)
  {
    if lines != [] {
      EarlyLead(frames[1..], lines[1..]);
    }
  }

  /** So a bare file whose venue times never decrease lasts exactly from its first venue time to its last, if all of
      them or none are before the cutoff; otherwise from the first past it, and a millisecond for each before. */
  lemma {:induction false} TimedBareSpan(lines: seq<Line>)
    requires lines != [] && TimedBare(lines) && Loaded(lines).Success?
    ensures var frames, n := Loaded(lines).value.frames, Early(lines);
            && frames != []
            && Span(frames, 0) ==
               if n == |lines| then (VenueMs(lines[n - 1]) - VenueMs(lines[0])) * 1_000
               else (VenueMs(lines[|lines| - 1]) - VenueMs(lines[n])) * 1_000 + n * 1_000
  {
    TimedBareReceipts(lines);
    var frames := ReadLines(lines).value.frames;
    EarlyLead(frames, lines);
    AnchoredSpan(frames);
  }

  // ----- the constants -----

  const DAY := 86_400_000_000

  // Days from 1970-01-01 to the first of January of a later year, a leap year being every fourth but for three
  // centuries in four.
  function DaysBefore(year: int): int
    requires year >= 1970
  {
    365 * (year - 1970) + LeapYearsBefore(year) - LeapYearsBefore(1970)
  }

  function LeapYearsBefore(year: int): int {
    (year - 1) / 4 - (year - 1) / 100 + (year - 1) / 400
  }

  lemma ConstantsAreDates()
    ensures FALLBACK_BASE == DaysBefore(2000) * DAY
    ensures ANCHOR_CUTOFF == DaysBefore(2001) * DAY
    ensures LATEST == DaysBefore(10000) * DAY - 1
  {
  }
}

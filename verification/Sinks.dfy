// What the recorder hands to a sink.
module Sinks {
  import opened Prelude
  import opened Events
  import opened DecimalText
  import Gaps

  datatype RawFrame = RawFrame(rawId: string, channel: string, payload: string, receipt: Receipt)

  // raw_<count>_<receipt in microseconds>, count being the number of frames received so far.
  function RawId(count: nat, micros: int): string {
    "raw_" + Digits(count) + "_" + Signed(micros)
  }

  lemma ThreeParts(a: string, b: string, c: string)
    ensures (a + b + c)[|a|..|a| + |b|] == b && (a + b + c)[|a| + |b|..] == c
  {
  }

  lemma {:induction false} RawIdText(a: nat, x: int)
    ensures var d := Digits(a);
            && |RawId(a, x)| > 4 + |d|
            && RawId(a, x)[4..4 + |d|] == d
            && RawId(a, x)[4 + |d|..] == "_" + Signed(x)
  {
    ThreeParts("raw_", Digits(a), "_" + Signed(x));
    assert RawId(a, x) == "raw_" + Digits(a) + ("_" + Signed(x));
  }

  // A raw id reads back as its count and its receipt time, each written without needless zeros.
  lemma RawIdReads(count: nat, micros: int) returns (n: string, t: string)
    ensures RawId(count, micros) == "raw_" + n + "_" + t
    ensures Natural(n) && Value(n) == count
    ensures Integer(t) == micros && Natural(if micros < 0 then t[1..] else t)
  {
    n, t := Digits(count), Signed(micros);
    DigitsExactly(n, count);
    SignedReads(micros);
  }

  lemma {:induction false} ShorterDiffers(a: nat, x: int, b: nat, y: int)
    requires |Digits(a)| < |Digits(b)|
    ensures RawId(a, x) != RawId(b, y)
  {
    RawIdText(a, x);
    RawIdText(b, y);
    DigitsAreDigits(b);
    var k := |Digits(a)|;
    assert RawId(b, y)[4 + k] == RawId(b, y)[4..4 + |Digits(b)|][k];
    assert Digits(b)[k] in Digits(b);
    assert RawId(a, x)[4 + k] == ("_" + Signed(x))[0];
  }

  // The count alone makes an id unique, whatever the receipt times; and it holds the receipt time as well.
  lemma RawIdsDiffer(a: nat, x: int, b: nat, y: int)
    requires RawId(a, x) == RawId(b, y)
    ensures a == b && x == y
  {
    if |Digits(a)| < |Digits(b)| {
      ShorterDiffers(a, x, b, y);
    } else if |Digits(b)| < |Digits(a)| {
      ShorterDiffers(b, y, a, x);
    }
    RawIdText(a, x);
    RawIdText(b, y);
    ValueOfDigits(a);
    ValueOfDigits(b);
    assert ("_" + Signed(x))[1..] == Signed(x) && ("_" + Signed(y))[1..] == Signed(y);
    SignedReads(x);
    SignedReads(y);
  }

  lemma RawIdNotEmpty(a: nat, x: int)
    ensures RawId(a, x) != ""
  {
    RawIdText(a, x);
  }

  datatype Call =
    | WriteRaw(frame: RawFrame)
    | WriteMarket(market: seq<MarketEvent>)
    | WriteTraders(traders: seq<TraderEvent>)
    | WriteGap(gap: Gaps.Report)
    | Flush

  // A call and whether it returned normally.
  datatype Outcome = Outcome(call: Call, ok: bool)

  // ----- what a sequence of calls hands over, in order, whether or not the calls returned -----

  function RawsOf(calls: seq<Outcome>): seq<RawFrame> {
    if calls == [] then []
    else
      var c := calls[|calls| - 1].call;
      RawsOf(calls[..|calls| - 1]) + (if c.WriteRaw? then [c.frame] else [])
  }

  function Offered(calls: seq<Outcome>): seq<MarketEvent> {
    if calls == [] then []
    else
      var c := calls[|calls| - 1].call;
      Offered(calls[..|calls| - 1]) + (if c.WriteMarket? then c.market else [])
  }

  function OfferedTraders(calls: seq<Outcome>): seq<TraderEvent> {
    if calls == [] then []
    else
      var c := calls[|calls| - 1].call;
      OfferedTraders(calls[..|calls| - 1]) + (if c.WriteTraders? then c.traders else [])
  }

  function GapsOf(calls: seq<Outcome>): seq<Gaps.Report> {
    if calls == [] then []
    else
      var c := calls[|calls| - 1].call;
      GapsOf(calls[..|calls| - 1]) + (if c.WriteGap? then [c.gap] else [])
  }

  lemma {:induction false} OfferedOneMore(calls: seq<Outcome>, o: Outcome)
    ensures Offered(calls + [o]) == if o.call.WriteMarket? then Offered(calls) + o.call.market else Offered(calls)
  {
    assert (calls + [o])[..|calls|] == calls;
    assert Offered(calls) + [] == Offered(calls);
  }

  lemma {:induction false} GapsOneMore(calls: seq<Outcome>, o: Outcome)
    ensures GapsOf(calls + [o]) == if o.call.WriteGap? then GapsOf(calls) + [o.call.gap] else GapsOf(calls)
  {
    assert (calls + [o])[..|calls|] == calls;
    assert GapsOf(calls) + [] == GapsOf(calls);
  }

  lemma {:induction false} TradersOneMore(calls: seq<Outcome>, o: Outcome)
    ensures OfferedTraders(calls + [o]) ==
            if o.call.WriteTraders? then OfferedTraders(calls) + o.call.traders else OfferedTraders(calls)
  {
    assert (calls + [o])[..|calls|] == calls;
    assert OfferedTraders(calls) + [] == OfferedTraders(calls);
  }

  lemma {:induction false} RawsOneMore(calls: seq<Outcome>, o: Outcome)
    ensures RawsOf(calls + [o]) == if o.call.WriteRaw? then RawsOf(calls) + [o.call.frame] else RawsOf(calls)
  {
    assert (calls + [o])[..|calls|] == calls;
    assert RawsOf(calls) + [] == RawsOf(calls);
  }

  // b is not empty: its last element, and everything before that.
  lemma LastOf<T>(a: seq<T>, b: seq<T>)
    requires b != []
    ensures b == b[..|b| - 1] + [b[|b| - 1]] && a + b == (a + b[..|b| - 1]) + [b[|b| - 1]]
  {
  }

  lemma Regroup<T>(a: seq<T>, b: seq<T>, c: seq<T>)
    ensures a + b + c == a + (b + c)
  {
  }

  lemma {:induction false} OfferedSplit(a: seq<Outcome>, b: seq<Outcome>)
    ensures Offered(a + b) == Offered(a) + Offered(b)
  {
    if b == [] {
      assert a + b == a;
    } else {
      var front, last := b[..|b| - 1], b[|b| - 1];
      LastOf(a, b);
      OfferedSplit(a, front);
      OfferedOneMore(a + front, last);
      OfferedOneMore(front, last);
      if last.call.WriteMarket? {
        Regroup(Offered(a), Offered(front), last.call.market);
      }
    }
  }

  lemma {:induction false} TradersSplit(a: seq<Outcome>, b: seq<Outcome>)
    ensures OfferedTraders(a + b) == OfferedTraders(a) + OfferedTraders(b)
  {
    if b == [] {
      assert a + b == a;
    } else {
      var front, last := b[..|b| - 1], b[|b| - 1];
      LastOf(a, b);
      TradersSplit(a, front);
      TradersOneMore(a + front, last);
      TradersOneMore(front, last);
      if last.call.WriteTraders? {
        Regroup(OfferedTraders(a), OfferedTraders(front), last.call.traders);
      }
    }
  }

  lemma {:induction false} RawsSplit(a: seq<Outcome>, b: seq<Outcome>)
    ensures RawsOf(a + b) == RawsOf(a) + RawsOf(b)
  {
    if b == [] {
      assert a + b == a;
    } else {
      var front, last := b[..|b| - 1], b[|b| - 1];
      LastOf(a, b);
      RawsSplit(a, front);
      RawsOneMore(a + front, last);
      RawsOneMore(front, last);
      if last.call.WriteRaw? {
        Regroup(RawsOf(a), RawsOf(front), [last.call.frame]);
      }
    }
  }

  function Reference(r: Option<string>): string {
    match r
    case None => ""
    case Some(id) => id
  }
}

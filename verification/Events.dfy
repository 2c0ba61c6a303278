/** Frames and the events normalized from them.

    Times are integer microseconds. A record carries what normalization derives from a payload; the
    receipt and the generated id are added when the event is built, as normalize does. */
module Events {
  import opened Prelude

  datatype EventType =
    Trade | Bbo | L2Snapshot | L2Update | Funding | OpenInterest | MarkPrice | OraclePrice | AssetContext

  // One (asset, event type) pair.
  datatype Stream = Stream(asset: string, eventType: EventType)

  datatype Quality = Valid | Warning | Invalid | Unknown

  datatype Receipt = Receipt(time: int, monotonicNs: int)

  // venueTime: the first present of the consensus, exchange and block times.
  // digest: the hash over the content fields. other: every field no modelled code reads.
  datatype MarketRecord = MarketRecord(
    stream: Stream,
    sequence: Option<int>,
    venueTime: Option<int>,
    quantity: Option<real>,
    bidPrice: Option<real>,
    askPrice: Option<real>,
    txHash: Option<string>,
    digest: string,
    other: string)

  datatype MarketEvent = MarketEvent(
    eventId: string, record: MarketRecord, receipt: Receipt, rawReference: Option<string>, quality: Quality)

  datatype TraderRecord = TraderRecord(wallet: string, txHash: Option<string>, other: string)

  datatype TraderEvent = TraderEvent(
    eventId: string, record: TraderRecord, receipt: Receipt, rawReference: Option<string>)

  // What parse_message and normalize make of a payload.
  datatype Content =
    | Unparseable
    | Control
    | NotNormalizable
    | Data(market: seq<MarketRecord>, traders: seq<TraderRecord>)

  datatype Frame = Frame(payload: string, channel: string, receipt: Receipt, content: Content)

  // A freshly normalized event: unknown quality, the venue's transaction hash as its reference.
  function NewMarketEvent(r: MarketRecord, receipt: Receipt, id: string): MarketEvent {
    MarketEvent(id, r, receipt, r.txHash, Unknown)
  }

  function NewTraderEvent(r: TraderRecord, receipt: Receipt, id: string): TraderEvent {
    TraderEvent(id, r, receipt, r.txHash)
  }

  // The venue's identifier where there is one, else the content digest.
  datatype Identity = BySequence(stream: Stream, sequence: int) | ByContent(stream: Stream, digest: string)

  function IdentityOf(e: MarketEvent): Identity {
    match e.record.sequence
    case Some(n) => BySequence(e.record.stream, n)
    case None => ByContent(e.record.stream, e.record.digest)
  }

  // The same stream, and the same number; or neither has a number, and the digests agree.
  predicate SameRecord(a: MarketRecord, b: MarketRecord) {
    && a.stream == b.stream
    && (if a.sequence.Some? then b.sequence == a.sequence else b.sequence.None? && a.digest == b.digest)
  }

  // Nothing else tells two events apart.
  lemma IdentifiesExactly(a: MarketEvent, b: MarketEvent)
    ensures IdentityOf(a) == IdentityOf(b) <==> SameRecord(a.record, b.record)
  {
  }
}

/**
  The already-decoded inbound frames of the ticker stream, their dispatch
  into kinds, and the abstract console lines both bots print.
 */
module Messages {
  import opened Wrappers
  import opened TickerStore

  /** The one topic both bots subscribe to. */
  const TickerTopic: string := "tickers.BTCUSDT"

  /**
    A decoded JSON object. `topic` is None when the key is absent or not a
    string; `data` is None when the key is absent or null; `success` is the
    Python truthiness of the `success` value.
   */
  datatype Frame = Frame(topic: Option<string>, data: Option<Partial>, success: bool)

  /**
    One event of the receive loop: a decoded frame, a message that did not
    decode to a JSON object, or a transport fault (peer closed with an error,
    network failure).
   */
  datatype Inbound = Message(frame: Frame) | Malformed | Dropped

  /** What a frame is, in the order the handler tests for it. */
  datatype Kind =
    | TickerUpdate(partial: Partial)  // matching topic, non-empty data
    | EmptyTicker                     // matching topic, data missing, null or empty
    | SubscriptionAck                 // other topic, truthy success
    | Ignored                         // anything else

  /** A console line, with numeric formatting left abstract. */
  datatype Line =
    | Subscribed                                // "Subscribed to BTCUSDT ticker data..."
    | Header                                    // "Bitcoin Price Update:"
    | Symbol(symbol: string)                    // "  Symbol: ..."
    | Field(name: string, raw: string)          // one formatted field line for `name`
    | FormatError(raw: string)                  // "  Error formatting price data: ..."
    | Separator                                 // fifty dashes
    | Ack                                       // "Successfully subscribed to ticker data"
    | RawField(name: string, shown: Option<string>) // the older bot's unformatted field line
    | SocketError                               // "WebSocket error: ..."

  /** The topic test the handler makes first. */
  predicate IsTicker(f: Frame)
  {
    f.topic == Some(TickerTopic)
  }

  /**
    The dispatch both handlers share: the topic test wins over `success`, and
    a ticker frame with no data is recognised but does nothing.
   */
  function Classify(f: Frame): (k: Kind)
    ensures IsTicker(f) <==> k.TickerUpdate? || k.EmptyTicker?
    ensures k.TickerUpdate? ==> f.data == Some(k.partial) && k.partial != map[]
    ensures k.EmptyTicker? <==> IsTicker(f) && (f.data.None? || f.data == Some(map[]))
    ensures k.SubscriptionAck? <==> !IsTicker(f) && f.success
  {
    if IsTicker(f) then
      var p := f.data.GetOr(map[]);
      if p == map[] then EmptyTicker else TickerUpdate(p)
    else if f.success then SubscriptionAck
    else Ignored
  }
}

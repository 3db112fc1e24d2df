/**
  The older bot (`BybitTradingBot` in trading_bot.py): the same dispatch,
  but no stored ticker and no significance gate. Every non-empty ticker
  frame prints the same eight lines from that frame's data alone.
 */
module LegacyBot {
  import opened Wrappers
  import opened TickerStore
  import opened Messages
  import opened Exchange
  import BybitBot

  /**
    `__init__`: the arguments are taken as given, `testnet` defaults to true,
    and the HTTP session is authenticated exactly when key and secret are truthy.
   */
  function Configure(apiKey: Option<string> := None, apiSecret: Option<string> := None, testnet: bool := true): (c: Config)
    ensures c.apiKey == apiKey && c.apiSecret == apiSecret
    ensures c.wsUrl == TestnetUrl <==> testnet
    ensures c.http.Authenticated? <==> Truthy(apiKey) && Truthy(apiSecret)
  {
    MakeConfig(apiKey, apiSecret, testnet)
  }

  /** A bot built with no arguments streams from the testnet and cannot place orders. */
  lemma DefaultsToTestnetMarketData(req: OrderRequest)
    ensures Configure().wsUrl == TestnetUrl
    ensures PlaceOrder(Configure(), req) == Refused
  {
  }

  /** `place_order` refuses exactly when key or secret is missing or empty. */
  lemma PlaceOrderGuard(apiKey: Option<string>, apiSecret: Option<string>, testnet: bool, req: OrderRequest)
    ensures PlaceOrder(Configure(apiKey, apiSecret, testnet), req).Refused? <==> !Truthy(apiKey) || !Truthy(apiSecret)
  {
  }

  /** The field lines of the block, in the order they are printed. */
  const BlockFields: seq<string> := ["symbol", "lastPrice", "price24hPcnt", "volume24h", "highPrice24h", "lowPrice24h"]

  /** The block for one frame's data: every field, printed raw, `None` when absent. */
  function Block(p: Partial): (out: seq<Line>)
    ensures |out| == |BlockFields| + 2
    ensures out[0] == Header && out[|out| - 1] == Separator
    ensures forall i :: 1 <= i < |out| - 1 ==> out[i].RawField? && out[i].name == BlockFields[i - 1]
    ensures forall i :: 1 <= i < |out| - 1 ==>
      (out[i].shown.Some? <==> BlockFields[i - 1] in p) &&
      (out[i].shown.Some? ==> out[i].shown.value == p[BlockFields[i - 1]])
  {
    [ Header,
      RawField("symbol", Lookup(p, "symbol")),
      RawField("lastPrice", Lookup(p, "lastPrice")),
      RawField("price24hPcnt", Lookup(p, "price24hPcnt")),
      RawField("volume24h", Lookup(p, "volume24h")),
      RawField("highPrice24h", Lookup(p, "highPrice24h")),
      RawField("lowPrice24h", Lookup(p, "lowPrice24h")),
      Separator ]
  }

  /**
    The handler body for one frame: every non-empty ticker frame prints the
    full block whatever keys it carries; an acknowledgement prints one line.
   */
  function Step(f: Frame): (out: seq<Line>)
    ensures Classify(f).TickerUpdate? ==> out == Block(f.data.value)
    ensures |out| > 0 <==> Classify(f).TickerUpdate? || (!IsTicker(f) && f.success)
    ensures IsTicker(f) ==> Ack !in out
    ensures !IsTicker(f) ==> out == (if f.success then [Ack] else [])
    ensures SocketError !in out
  {
    match Classify(f)
    case TickerUpdate(p) => Block(p)
    case SubscriptionAck => [Ack]
    case _ => []
  }

  /** Everything printed so far, and whether the loop still runs. */
  datatype Session = Session(trace: seq<Line>, open: bool)

  /** Connecting and subscribing, or the error line when that fails. */
  function Connect(connected: bool): (sess: Session)
    ensures sess.open <==> connected
    ensures sess.trace == (if connected then [Subscribed] else [SocketError])
  {
    if connected then Session([Subscribed], true) else Session([SocketError], false)
  }

  /** One loop iteration; a malformed frame or transport fault ends the loop. */
  function Receive(sess: Session, msg: Inbound): (next: Session)
    ensures |sess.trace| <= |next.trace| && next.trace[..|sess.trace|] == sess.trace
    ensures !sess.open ==> next == sess
    ensures sess.open && msg.Message? ==> next == Session(sess.trace + Step(msg.frame), true)
    ensures sess.open && !msg.Message? ==> next == Session(sess.trace + [SocketError], false)
  {
    if !sess.open then sess
    else match msg
      case Message(f) => Session(sess.trace + Step(f), true)
      case _ => Session(sess.trace + [SocketError], false)
  }

  /** The loop run over the messages `msgs`, in order. */
  function ReceiveAll(sess: Session, msgs: seq<Inbound>): (r: Session)
    ensures |sess.trace| <= |r.trace| && r.trace[..|sess.trace|] == sess.trace
    ensures !sess.open ==> r == sess
    decreases |msgs|
  {
    if msgs == [] then sess else Receive(ReceiveAll(sess, msgs[..|msgs| - 1]), msgs[|msgs| - 1])
  }

  /** `subscribe_to_bitcoin_ticker` from connection to the end of the stream. */
  function Run(connected: bool, msgs: seq<Inbound>): (r: Session)
    ensures |r.trace| >= 1 && r.trace[0] == (if connected then Subscribed else SocketError)
    ensures !connected ==> r == Session([SocketError], false)
  {
    ReceiveAll(Connect(connected), msgs)
  }

  /** Reference: the lines each frame prints on its own, concatenated in order. */
  function Outputs(msgs: seq<Inbound>): seq<Line>
    decreases |msgs|
  {
    if msgs == [] then []
    else
      var last := msgs[|msgs| - 1];
      Outputs(msgs[..|msgs| - 1]) + (if last.Message? then Step(last.frame) else [])
  }

  /**
    No state is carried between frames: with no fault, the whole trace is the
    subscription line followed by what each frame prints on its own.
   */
  lemma {:induction false} RunIsStateless(msgs: seq<Inbound>)
    requires forall i :: 0 <= i < |msgs| ==> msgs[i].Message?
    ensures Run(true, msgs) == Session([Subscribed] + Outputs(msgs), true)
    decreases |msgs|
  {
    if msgs != [] {
      var init := msgs[..|msgs| - 1];
      assert forall i :: 0 <= i < |init| ==> init[i] == msgs[i];
      RunIsStateless(init);
      AppendFrame(Run(true, init), Outputs(init), msgs[|msgs| - 1].frame);
    }
  }

  /** One decoded frame appends exactly its own lines to a running session. */
  lemma AppendFrame(sess: Session, outputs: seq<Line>, f: Frame)
    requires sess == Session([Subscribed] + outputs, true)
    ensures Receive(sess, Message(f)) == Session([Subscribed] + (outputs + Step(f)), true)
  {
  }

  /** Two sessions at any point of their history print the same lines for the same frame. */
  lemma HistoryIndependent(a: Session, b: Session, f: Frame)
    requires a.open && b.open
    ensures Receive(a, Message(f)).trace[|a.trace|..] == Receive(b, Message(f)).trace[|b.trace|..]
  {
  }

  /**
    The current bot's field lines for a store holding a change and a last
    price: only the change is printed, lastPrice never is.
   */
  lemma ChangeAndLastPriceFields(merged: Snapshot, parses: string -> bool)
    requires merged == map["price24hPcnt" := "-0.0120", "lastPrice" := "65000"]
    requires parses("-0.0120")
    ensures BybitBot.RenderFields(BybitBot.DisplayFields, merged, parses) == [Field("price24hPcnt", "-0.0120")]
  {
  }

  /**
    The two versions disagree on a partial that omits a field sent earlier:
    the current bot prints the remembered change, the older one prints None.
   */
  lemma CarriedStateContrast(parses: string -> bool)
    requires parses("-0.0120")
    ensures var first := Frame(Some(TickerTopic), Some(map["price24hPcnt" := "-0.0120"]), false);
      var second := Frame(Some(TickerTopic), Some(map["lastPrice" := "65000"]), false);
      var s := BybitBot.Step(map[], first, parses).state;
      && Field("price24hPcnt", "-0.0120") in BybitBot.Step(s, second, parses).lines
      && RawField("price24hPcnt", None) in Step(second)
  {
    var p1 := map["price24hPcnt" := "-0.0120"];
    var p2 := map["lastPrice" := "65000"];
    assert "price24hPcnt" in p1 && "lastPrice" in p2;
    var s := BybitBot.Step(map[], Frame(Some(TickerTopic), Some(p1), false), parses).state;
    assert s == p1;
    var merged := Merge(s, p2);
    assert merged == map["price24hPcnt" := "-0.0120", "lastPrice" := "65000"];
    ChangeAndLastPriceFields(merged, parses);
    var lines := BybitBot.Step(s, Frame(Some(TickerTopic), Some(p2), false), parses).lines;
    assert lines[2] == Field("price24hPcnt", "-0.0120");
    assert Step(Frame(Some(TickerTopic), Some(p2), false))[3] == RawField("price24hPcnt", None);
  }

  /**
    The two versions disagree on the gate: a volume-only partial prints the
    full block here and nothing in the current bot.
   */
  lemma GateContrast(s: Snapshot, volume: string, parses: string -> bool)
    ensures var f := Frame(Some(TickerTopic), Some(map["volume24h" := volume]), false);
      |Step(f)| == 8 && BybitBot.Step(s, f, parses).lines == []
  {
    var p := map["volume24h" := volume];
    assert "volume24h" in p && !IsSignificant(p);
  }
}

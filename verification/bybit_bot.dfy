/**
  The current bot (`BybitTradingBot` in src/bybit_trading_bot.py): its
  constructor, its stateful ticker handler and its receive loop. The handler
  merges every non-empty ticker partial into the stored ticker and prints a
  block only when the partial carries a price-relevant field.
 */
module BybitBot {
  import opened Wrappers
  import opened TickerStore
  import opened Messages
  import opened Exchange

  // ---------------------------------------------------------------------------
  // Construction

  /** The environment the constructor reads: BYBIT_API_KEY, BYBIT_API_SECRET, BYBIT_TESTNET. */
  datatype Env = Env(apiKey: Option<string>, apiSecret: Option<string>, testnet: Option<string>)

  /** `str.lower()` on one character, for the ASCII range. */
  function LowerChar(c: char): char
  {
    if 'A' <= c <= 'Z' then (c as int + 32) as char else c
  }

  /** `str.lower()`, lowering ASCII letters only. */
  function Lower(s: string): (r: string)
    ensures |r| == |s|
    ensures forall i :: 0 <= i < |s| ==> r[i] == LowerChar(s[i])
  {
    if s == [] then [] else [LowerChar(s[0])] + Lower(s[1..])
  }

  /** `s` is "true" in some mix of upper and lower case. */
  predicate SpellsTrue(s: string)
  {
    |s| == 4 && s[0] in "tT" && s[1] in "rR" && s[2] in "uU" && s[3] in "eE"
  }

  /**
    The testnet flag: an explicit argument wins; otherwise the environment
    value compared case-insensitively with "true", which is the default.
   */
  function EffectiveTestnet(arg: Option<bool>, env: Option<string>): (t: bool)
    ensures arg.Some? ==> t == arg.value
    ensures arg.None? && env.None? ==> t
    ensures arg.None? && env.Some? ==> (t <==> SpellsTrue(env.value))
  {
    if arg.Some? then arg.value
    else
      var lowered := Lower(env.GetOr("true"));
      assert lowered == "true" <==> SpellsTrue(env.GetOr("true")) by {
        if SpellsTrue(env.GetOr("true")) {
          assert lowered == ['t', 'r', 'u', 'e'];
        }
      }
      lowered == "true"
  }

  /** Python's `a or b` on optional strings. */
  function OrElse(a: Option<string>, b: Option<string>): (r: Option<string>)
    ensures Truthy(a) ==> r == a
    ensures !Truthy(a) ==> r == b
    ensures Truthy(r) <==> Truthy(a) || Truthy(b)
  {
    if Truthy(a) then a else b
  }

  /**
    `BybitTradingBot.__init__`: truthy arguments win over the environment,
    the endpoint follows the effective flag, and the HTTP session is
    authenticated exactly when both resolved credentials are truthy.
   */
  function Configure(apiKey: Option<string>, apiSecret: Option<string>, testnet: Option<bool>, env: Env): (c: Config)
    ensures Truthy(apiKey) ==> c.apiKey == apiKey
    ensures !Truthy(apiKey) ==> c.apiKey == env.apiKey
    ensures Truthy(apiSecret) ==> c.apiSecret == apiSecret
    ensures !Truthy(apiSecret) ==> c.apiSecret == env.apiSecret
    ensures testnet.Some? ==> c.testnet == testnet.value
    ensures testnet.None? ==> (c.testnet <==> env.testnet.None? || SpellsTrue(env.testnet.value))
    ensures c.wsUrl == TestnetUrl <==> c.testnet
    ensures c.http.Authenticated? <==> Truthy(c.apiKey) && Truthy(c.apiSecret)
  {
    MakeConfig(OrElse(apiKey, env.apiKey), OrElse(apiSecret, env.apiSecret), EffectiveTestnet(testnet, env.testnet))
  }

  /**
    `place_order` refuses, without touching the session, exactly when neither
    the argument nor the environment supplies a truthy key, or likewise a secret.
   */
  lemma PlaceOrderGuard(apiKey: Option<string>, apiSecret: Option<string>, testnet: Option<bool>, env: Env, req: OrderRequest)
    ensures PlaceOrder(Configure(apiKey, apiSecret, testnet, env), req).Refused?
        <==> !(Truthy(apiKey) || Truthy(env.apiKey)) || !(Truthy(apiSecret) || Truthy(env.apiSecret))
  {
  }

  // ---------------------------------------------------------------------------
  // Rendering

  /** Printed when the stored ticker has no `symbol`. */
  const DefaultSymbol: string := "BTCUSDT"

  /** The fields the block may show, in the order it tries them. `lastPrice` is not among them. */
  const DisplayFields: seq<string> := ["indexPrice", "price24hPcnt", "volume24h", "highPrice24h", "lowPrice24h"]

  /** The stored field is truthy, so the block tries to print it. */
  predicate Shown(s: Snapshot, name: string)
  {
    Truthy(Lookup(s, name))
  }

  /**
    The field lines inside the one `try`: each shown field is formatted in
    turn; the first that does not parse prints one error line and ends the
    `try`, so no later field is attempted.
   */
  function RenderFields(names: seq<string>, s: Snapshot, parses: string -> bool): (out: seq<Line>)
    ensures |out| <= |names|
    ensures forall i :: 0 <= i < |out| ==> out[i].Field? || out[i].FormatError?
    ensures forall i :: 0 <= i < |out| - 1 ==> out[i].Field?
    ensures forall i :: 0 <= i < |out| && out[i].Field? ==>
      out[i].name in names && Shown(s, out[i].name) && s[out[i].name] == out[i].raw && parses(out[i].raw)
    ensures forall i :: 0 <= i < |out| && out[i].FormatError? ==> !parses(out[i].raw)
    decreases |names|
  {
    if names == [] then []
    else if Shown(s, names[0]) then
      if parses(s[names[0]]) then [Field(names[0], s[names[0]])] + RenderFields(names[1..], s, parses)
      else [FormatError(s[names[0]])]
    else RenderFields(names[1..], s, parses)
  }

  /** Reference: the shown fields of `names`, in order. */
  function Present(names: seq<string>, s: Snapshot): (ns: seq<string>)
    ensures forall i :: 0 <= i < |ns| ==> ns[i] in s
    decreases |names|
  {
    if names == [] then []
    else (if Shown(s, names[0]) then [names[0]] else []) + Present(names[1..], s)
  }

  /** Reference: one field line per name, showing its stored value. */
  function FieldLines(ns: seq<string>, s: Snapshot): seq<Line>
    requires forall i :: 0 <= i < |ns| ==> ns[i] in s
    decreases |ns|
  {
    if ns == [] then [] else [Field(ns[0], s[ns[0]])] + FieldLines(ns[1..], s)
  }

  /** When every shown field parses, the block prints all of them, in order, and no error. */
  lemma {:induction false} RenderAllParse(names: seq<string>, s: Snapshot, parses: string -> bool)
    requires forall i :: 0 <= i < |names| && Shown(s, names[i]) ==> parses(s[names[i]])
    ensures RenderFields(names, s, parses) == FieldLines(Present(names, s), s)
    decreases |names|
  {
    if names != [] {
      var rest := names[1..];
      assert forall i :: 0 <= i < |rest| ==> rest[i] == names[i + 1];
      RenderAllParse(rest, s, parses);
      if Shown(s, names[0]) {
        var ns := [names[0]] + Present(rest, s);
        assert ns[1..] == Present(rest, s);
      } else {
        assert Present(names, s) == Present(rest, s);
      }
    }
  }

  /**
    When field `j` is the first shown field that does not parse, the block
    prints the shown fields before it, then exactly one error line, and
    nothing for any field after it.
   */
  lemma {:induction false} RenderStopsAtFirstFailure(names: seq<string>, s: Snapshot, parses: string -> bool, j: nat)
    requires j < |names| && Shown(s, names[j]) && !parses(s[names[j]])
    requires forall i :: 0 <= i < j && Shown(s, names[i]) ==> parses(s[names[i]])
    ensures RenderFields(names, s, parses) == FieldLines(Present(names[..j], s), s) + [FormatError(s[names[j]])]
    decreases |names|
  {
    if j > 0 {
      var rest := names[1..];
      assert names[..j][0] == names[0];
      assert names[..j][1..] == rest[..j - 1];
      assert forall i :: 0 <= i < |rest| ==> rest[i] == names[i + 1];
      RenderStopsAtFirstFailure(rest, s, parses, j - 1);
      var tail := FieldLines(Present(rest[..j - 1], s), s) + [FormatError(s[names[j]])];
      if Shown(s, names[0]) {
        var ns := [names[0]] + Present(rest[..j - 1], s);
        assert Present(names[..j], s) == ns;
        assert ns[1..] == Present(rest[..j - 1], s);
        assert FieldLines(ns, s) == [Field(names[0], s[names[0]])] + FieldLines(Present(rest[..j - 1], s), s);
      } else {
        assert Present(names[..j], s) == Present(rest[..j - 1], s);
      }
    } else {
      assert Present(names[..0], s) == [];
    }
  }

  /**
    The printed block: header, symbol (defaulting to BTCUSDT), the field
    lines, and the separator, which is printed even after a format error.
   */
  function RenderBlock(s: Snapshot, parses: string -> bool): (out: seq<Line>)
    ensures 3 <= |out| <= 3 + |DisplayFields|
    ensures out[0] == Header && out[|out| - 1] == Separator
    ensures "symbol" in s ==> out[1] == Symbol(s["symbol"])
    ensures "symbol" !in s ==> out[1] == Symbol(DefaultSymbol)
    ensures forall i :: 2 <= i < |out| - 2 ==> out[i].Field?
    ensures forall i :: 2 <= i < |out| - 1 ==>
      (out[i].Field? && out[i].name in DisplayFields) || out[i].FormatError?
    ensures forall i :: 0 <= i < |out| && out[i].Field? ==> out[i].name != "lastPrice"
    ensures Ack !in out && Subscribed !in out && SocketError !in out
  {
    [Header, Symbol(Lookup(s, "symbol").GetOr(DefaultSymbol))] + RenderFields(DisplayFields, s, parses) + [Separator]
  }

  // ---------------------------------------------------------------------------
  // The handler

  /** The stored ticker after a frame and the lines the frame printed. */
  datatype StepResult = StepResult(state: Snapshot, lines: seq<Line>)

  /**
    The body of the receive loop for one decoded frame: dispatch, merge of a
    non-empty ticker partial, the significance gate and the render block.
   */
  function Step(s: Snapshot, f: Frame, parses: string -> bool): (r: StepResult)
    ensures s.Keys <= r.state.Keys
    ensures Classify(f).TickerUpdate? ==> r.state == Merge(s, f.data.value)
    ensures !Classify(f).TickerUpdate? ==> r.state == s
    ensures |r.lines| > 0 <==>
      (Classify(f).TickerUpdate? && IsSignificant(f.data.value)) || (!IsTicker(f) && f.success)
    ensures IsTicker(f) ==> Ack !in r.lines
    ensures !IsTicker(f) ==> r.lines == (if f.success then [Ack] else [])
    ensures SocketError !in r.lines
  {
    match Classify(f)
    case TickerUpdate(p) =>
      var merged := Merge(s, p);
      StepResult(merged, if IsSignificant(p) then RenderBlock(merged, parses) else [])
    case SubscriptionAck => StepResult(s, [Ack])
    case _ => StepResult(s, [])
  }

  /** A ticker frame with missing, null or empty data changes nothing and prints nothing. */
  lemma EmptyTickerIsNoOp(s: Snapshot, f: Frame, parses: string -> bool)
    requires IsTicker(f) && (f.data.None? || f.data == Some(map[]))
    ensures Step(s, f, parses) == StepResult(s, [])
  {
  }

  /**
    A partial carrying only volume, high and low fields updates the store
    and prints nothing.
   */
  lemma QuietPartialUpdatesSilently(s: Snapshot, p: Partial, success: bool, parses: string -> bool)
    requires p != map[] && p.Keys <= {"volume24h", "highPrice24h", "lowPrice24h"}
    ensures Step(s, Frame(Some(TickerTopic), Some(p), success), parses) == StepResult(Merge(s, p), [])
  {
  }

  /**
    A significant partial prints the block rendered from the merged store,
    so fields it omits show their earlier values.
   */
  lemma SignificantRendersMergedStore(s: Snapshot, p: Partial, success: bool, parses: string -> bool)
    requires IsSignificant(p)
    ensures Step(s, Frame(Some(TickerTopic), Some(p), success), parses).lines == RenderBlock(Merge(s, p), parses)
  {
  }

  /**
    A change that does not parse blanks the volume line after it: from an
    empty store, the block is header, default symbol, one error line and
    the separator.
   */
  lemma MalformedChangeScenario(parses: string -> bool)
    requires !parses("not-a-number")
    ensures var p := map["lastPrice" := "65000", "price24hPcnt" := "not-a-number", "volume24h" := "500"];
      Step(map[], Frame(Some(TickerTopic), Some(p), false), parses).lines
        == [Header, Symbol(DefaultSymbol), FormatError("not-a-number"), Separator]
  {
    var p := map["lastPrice" := "65000", "price24hPcnt" := "not-a-number", "volume24h" := "500"];
    assert "lastPrice" in p;
    var merged := Merge(map[], p);
    assert merged == p;
    assert !Shown(merged, DisplayFields[0]) && Shown(merged, DisplayFields[1]);
    RenderStopsAtFirstFailure(DisplayFields, merged, parses, 1);
    assert DisplayFields[..1] == ["indexPrice"];
    assert Present(DisplayFields[..1], merged) == [];
  }

  /**
    Snapshot build-up: a symbol and last price print a block with no field
    lines; a later index price and change print both, under the stored symbol.
   */
  lemma BuildUpScenario(parses: string -> bool)
    requires parses("65010.50") && parses("-0.0120")
    ensures var p1 := map["symbol" := "BTCUSDT", "lastPrice" := "65000.00"];
      var p2 := map["indexPrice" := "65010.50", "price24hPcnt" := "-0.0120"];
      var r1 := Step(map[], Frame(Some(TickerTopic), Some(p1), false), parses);
      var r2 := Step(r1.state, Frame(Some(TickerTopic), Some(p2), false), parses);
      && r1.lines == [Header, Symbol("BTCUSDT"), Separator]
      && r2.lines == [Header, Symbol("BTCUSDT"), Field("indexPrice", "65010.50"), Field("price24hPcnt", "-0.0120"), Separator]
  {
    var p1 := map["symbol" := "BTCUSDT", "lastPrice" := "65000.00"];
    BuildUpFirst(p1, parses);
    BuildUpSecond(p1, parses);
  }

  /** The first build-up frame stores its partial and prints a block with no field lines. */
  lemma BuildUpFirst(p1: Partial, parses: string -> bool)
    requires p1 == map["symbol" := "BTCUSDT", "lastPrice" := "65000.00"]
    ensures var r1 := Step(map[], Frame(Some(TickerTopic), Some(p1), false), parses);
      r1.state == p1 && r1.lines == [Header, Symbol("BTCUSDT"), Separator]
  {
    assert "lastPrice" in p1;
    assert Merge(map[], p1) == p1;
    var df := DisplayFields;
    assert !Shown(p1, "indexPrice") && !Shown(p1, "price24hPcnt");
    assert !Shown(p1, "volume24h") && !Shown(p1, "highPrice24h") && !Shown(p1, "lowPrice24h");
    assert RenderFields(df[4..], p1, parses) == [];
    assert df[3..][1..] == df[4..];
    assert RenderFields(df[3..], p1, parses) == [];
    assert df[2..][1..] == df[3..];
    assert RenderFields(df[2..], p1, parses) == [];
    assert df[1..][1..] == df[2..];
    assert RenderFields(df[1..], p1, parses) == [];
    assert RenderFields(df, p1, parses) == [];
  }

  /** The second build-up frame prints the index price and the change under the stored symbol. */
  lemma BuildUpSecond(p1: Partial, parses: string -> bool)
    requires p1 == map["symbol" := "BTCUSDT", "lastPrice" := "65000.00"]
    requires parses("65010.50") && parses("-0.0120")
    ensures var p2 := map["indexPrice" := "65010.50", "price24hPcnt" := "-0.0120"];
      Step(p1, Frame(Some(TickerTopic), Some(p2), false), parses).lines
        == [Header, Symbol("BTCUSDT"), Field("indexPrice", "65010.50"), Field("price24hPcnt", "-0.0120"), Separator]
  {
    var p2 := map["indexPrice" := "65010.50", "price24hPcnt" := "-0.0120"];
    assert "indexPrice" in p2 && "symbol" !in p2;
    SignificantRendersMergedStore(p1, p2, false, parses);
    var s2 := Merge(p1, p2);
    assert "symbol" in p1 && "volume24h" !in p1 && "highPrice24h" !in p1 && "lowPrice24h" !in p1;
    assert Lookup(s2, "symbol") == Some("BTCUSDT");
    assert Lookup(s2, "indexPrice") == Some("65010.50") && Lookup(s2, "price24hPcnt") == Some("-0.0120");
    BuildUpSecondBlock(s2, parses);
  }

  /** The block for the built-up store: stored symbol, index price, change. */
  lemma BuildUpSecondBlock(s2: Snapshot, parses: string -> bool)
    requires Lookup(s2, "symbol") == Some("BTCUSDT")
    requires Lookup(s2, "indexPrice") == Some("65010.50") && Lookup(s2, "price24hPcnt") == Some("-0.0120")
    requires "volume24h" !in s2 && "highPrice24h" !in s2 && "lowPrice24h" !in s2
    requires parses("65010.50") && parses("-0.0120")
    ensures RenderBlock(s2, parses)
      == [Header, Symbol("BTCUSDT"), Field("indexPrice", "65010.50"), Field("price24hPcnt", "-0.0120"), Separator]
  {
  }

  // ---------------------------------------------------------------------------
  // The receive loop

  /** The stored ticker, everything printed so far, and whether the loop still runs. */
  datatype Session = Session(state: Snapshot, trace: seq<Line>, open: bool)

  /**
    Connecting and sending the subscription: on success the loop runs and
    has printed the subscription line; on failure it has printed the error
    line and ended. The stored ticker belongs to the bot, not the connection.
   */
  function Connect(stored: Snapshot, connected: bool): (sess: Session)
    ensures sess.state == stored
    ensures sess.open <==> connected
    ensures connected ==> sess.trace == [Subscribed]
    ensures !connected ==> sess.trace == [SocketError]
  {
    if connected then Session(stored, [Subscribed], true)
    else Session(stored, [SocketError], false)
  }

  /**
    One loop iteration: a decoded frame goes through the handler, and the loop
    goes on even when a field failed to format; a malformed frame or a
    transport fault prints the error line and ends the loop.
   */
  function Receive(sess: Session, msg: Inbound, parses: string -> bool): (next: Session)
    ensures sess.state.Keys <= next.state.Keys
    ensures |sess.trace| <= |next.trace| && next.trace[..|sess.trace|] == sess.trace
    ensures !sess.open ==> next == sess
    ensures sess.open && msg.Message? ==>
      var r := Step(sess.state, msg.frame, parses);
      next == Session(r.state, sess.trace + r.lines, true)
    ensures sess.open && !msg.Message? ==>
      !next.open && next.state == sess.state && next.trace == sess.trace + [SocketError]
  {
    if !sess.open then sess
    else match msg
      case Message(f) =>
        var r := Step(sess.state, f, parses);
        Session(r.state, sess.trace + r.lines, true)
      case _ => Session(sess.state, sess.trace + [SocketError], false)
  }

  /** The loop run over the messages `msgs`, in order. */
  function ReceiveAll(sess: Session, msgs: seq<Inbound>, parses: string -> bool): (r: Session)
    ensures sess.state.Keys <= r.state.Keys
    ensures |sess.trace| <= |r.trace| && r.trace[..|sess.trace|] == sess.trace
    ensures !sess.open ==> r == sess
    decreases |msgs|
  {
    if msgs == [] then sess
    else Receive(ReceiveAll(sess, msgs[..|msgs| - 1], parses), msgs[|msgs| - 1], parses)
  }

  /** `subscribe_to_bitcoin_ticker` from connection to the end of the stream. */
  function Run(stored: Snapshot, connected: bool, msgs: seq<Inbound>, parses: string -> bool): (r: Session)
    ensures stored.Keys <= r.state.Keys
    ensures |r.trace| >= 1 && r.trace[0] == (if connected then Subscribed else SocketError)
    ensures !connected ==> r == Session(stored, [SocketError], false)
  {
    ReceiveAll(Connect(stored, connected), msgs, parses)
  }

  /** Every message is a decoded frame: no fault ends the loop. */
  predicate AllDecoded(msgs: seq<Inbound>)
  {
    forall i :: 0 <= i < |msgs| ==> msgs[i].Message?
  }

  /** The partials of the ticker frames among `msgs`, in order. */
  function TickerPartials(msgs: seq<Inbound>): (ps: seq<Partial>)
    ensures forall i :: 0 <= i < |ps| ==> ps[i] != map[]
    ensures forall i :: 0 <= i < |ps| ==>
      exists j :: 0 <= j < |msgs| && msgs[j].Message? && Classify(msgs[j].frame) == TickerUpdate(ps[i])
    decreases |msgs|
  {
    if msgs == [] then []
    else
      var init := msgs[..|msgs| - 1];
      var last := msgs[|msgs| - 1];
      assert forall j :: 0 <= j < |init| ==> init[j] == msgs[j];
      TickerPartials(init)
        + (if last.Message? && Classify(last.frame).TickerUpdate? then [last.frame.data.value] else [])
  }

  /** A frame that prints: a significant ticker update or a subscription acknowledgement. */
  predicate Prints(f: Frame)
  {
    || (Classify(f).TickerUpdate? && IsSignificant(Classify(f).partial))
    || Classify(f).SubscriptionAck?
  }

  /**
    Reference for a fault-free stream: the frames handled one after another
    by `Step`, the store carried from each frame to the next, their lines
    concatenated in order.
   */
  function Handled(stored: Snapshot, msgs: seq<Inbound>, parses: string -> bool): StepResult
    decreases |msgs|
  {
    if msgs == [] then StepResult(stored, [])
    else
      var before := Handled(stored, msgs[..|msgs| - 1], parses);
      var last := msgs[|msgs| - 1];
      if last.Message? then
        var r := Step(before.state, last.frame, parses);
        StepResult(r.state, before.lines + r.lines)
      else before
  }

  /**
    With no fault, the whole output is the subscription line followed by each
    frame's own lines, and the store is the one carried through the frames.
   */
  lemma {:induction false} RunTraceIsHandled(stored: Snapshot, msgs: seq<Inbound>, parses: string -> bool)
    requires AllDecoded(msgs)
    ensures Run(stored, true, msgs, parses)
      == Session(Handled(stored, msgs, parses).state, [Subscribed] + Handled(stored, msgs, parses).lines, true)
    decreases |msgs|
  {
    if msgs != [] {
      var init := msgs[..|msgs| - 1];
      assert AllDecoded(init);
      RunTraceIsHandled(stored, init, parses);
      HandleOneMore(Run(stored, true, init, parses), Handled(stored, init, parses), msgs[|msgs| - 1].frame, parses);
    }
  }

  /** One decoded frame extends a running session exactly as it extends the reference. */
  lemma HandleOneMore(sess: Session, before: StepResult, f: Frame, parses: string -> bool)
    requires sess == Session(before.state, [Subscribed] + before.lines, true)
    ensures var r := Step(before.state, f, parses);
      Receive(sess, Message(f), parses) == Session(r.state, [Subscribed] + (before.lines + r.lines), true)
  {
    var r := Step(before.state, f, parses);
    assert [Subscribed] + before.lines + r.lines == [Subscribed] + (before.lines + r.lines);
  }

  /**
    Handling a stream prints nothing at all exactly when no frame of it is a
    significant ticker update or an acknowledgement.
   */
  lemma {:induction false} HandledSilentIff(stored: Snapshot, msgs: seq<Inbound>, parses: string -> bool)
    requires AllDecoded(msgs)
    ensures Handled(stored, msgs, parses).lines == []
      <==> forall i :: 0 <= i < |msgs| ==> !Prints(msgs[i].frame)
    decreases |msgs|
  {
    if msgs != [] {
      var init := msgs[..|msgs| - 1];
      assert forall i :: 0 <= i < |init| ==> init[i] == msgs[i];
      HandledSilentIff(stored, init, parses);
      var last := msgs[|msgs| - 1].frame;
      var r := Step(Handled(stored, init, parses).state, last, parses);
      assert r.lines == [] <==> !Prints(last);
    }
  }

  /**
    Over a fault-free stream, the loop prints nothing beyond the subscription
    line exactly when every frame fails the gate and is no acknowledgement.
   */
  lemma RunSilentIff(stored: Snapshot, msgs: seq<Inbound>, parses: string -> bool)
    requires AllDecoded(msgs)
    ensures Run(stored, true, msgs, parses).trace == [Subscribed]
      <==> forall i :: 0 <= i < |msgs| ==> !Prints(msgs[i].frame)
  {
    RunTraceIsHandled(stored, msgs, parses);
    HandledSilentIff(stored, msgs, parses);
    var lines := Handled(stored, msgs, parses).lines;
    assert [Subscribed] + lines == [Subscribed] <==> lines == [];
  }

  /** Running over `a + b` is running over `a`, then over `b`. */
  lemma {:induction false} ReceiveAllAppend(sess: Session, a: seq<Inbound>, b: seq<Inbound>, parses: string -> bool)
    ensures ReceiveAll(sess, a + b, parses) == ReceiveAll(ReceiveAll(sess, a, parses), b, parses)
    decreases |b|
  {
    if b == [] {
      assert a + b == a;
    } else {
      assert (a + b)[..|a + b| - 1] == a + b[..|b| - 1];
      assert (a + b)[|a + b| - 1] == b[|b| - 1];
      ReceiveAllAppend(sess, a, b[..|b| - 1], parses);
    }
  }

  /** The loop keeps running exactly when it connected and every message decoded. */
  lemma {:induction false} RunOpenIff(stored: Snapshot, connected: bool, msgs: seq<Inbound>, parses: string -> bool)
    ensures Run(stored, connected, msgs, parses).open <==> connected && AllDecoded(msgs)
    decreases |msgs|
  {
    if msgs != [] {
      var init := msgs[..|msgs| - 1];
      RunOpenIff(stored, connected, init, parses);
      assert AllDecoded(msgs) <==> AllDecoded(init) && msgs[|msgs| - 1].Message?;
    }
  }

  /**
    With no fault, the stored ticker after the loop is the bot's earlier
    ticker with every non-empty ticker partial merged in, in arrival order.
   */
  lemma {:induction false} RunStateIsMergedPartials(stored: Snapshot, msgs: seq<Inbound>, parses: string -> bool)
    requires AllDecoded(msgs)
    ensures Run(stored, true, msgs, parses).state == MergeAll(stored, TickerPartials(msgs))
    ensures Run(stored, true, msgs, parses).open
    decreases |msgs|
  {
    if msgs != [] {
      var init := msgs[..|msgs| - 1];
      assert AllDecoded(init);
      RunStateIsMergedPartials(stored, init, parses);
      var ps := TickerPartials(msgs);
      var last := msgs[|msgs| - 1];
      if Classify(last.frame).TickerUpdate? {
        assert ps[..|ps| - 1] == TickerPartials(init);
      } else {
        assert ps == TickerPartials(init);
      }
    }
  }

  /** Once a fault ends the loop, later messages change nothing. */
  lemma StopsAtFault(stored: Snapshot, connected: bool, msgs: seq<Inbound>, i: nat, parses: string -> bool)
    requires i < |msgs| && !msgs[i].Message?
    ensures Run(stored, connected, msgs, parses) == Run(stored, connected, msgs[..i + 1], parses)
    ensures !Run(stored, connected, msgs, parses).open
  {
    var before := Run(stored, connected, msgs[..i + 1], parses);
    assert msgs == msgs[..i + 1] + msgs[i + 1..];
    ReceiveAllAppend(Connect(stored, connected), msgs[..i + 1], msgs[i + 1..], parses);
    assert msgs[..i + 1][..i] == msgs[..i];
  }

  /**
    While the loop runs no error line has been printed; once it has ended the
    error line is the last line and appears nowhere before it.
   */
  predicate ErrorLast(sess: Session)
  {
    if sess.open then SocketError !in sess.trace
    else
      && |sess.trace| > 0
      && sess.trace[|sess.trace| - 1] == SocketError
      && SocketError !in sess.trace[..|sess.trace| - 1]
  }

  /** One iteration keeps the error line last. */
  lemma ReceiveKeepsErrorLast(sess: Session, msg: Inbound, parses: string -> bool)
    requires ErrorLast(sess)
    ensures ErrorLast(Receive(sess, msg, parses))
  {
  }

  /** Over the whole stream, the loop's error line is printed at most once, as the last line, exactly when the loop ended. */
  lemma {:induction false} SocketErrorIsLast(stored: Snapshot, connected: bool, msgs: seq<Inbound>, parses: string -> bool)
    ensures ErrorLast(Run(stored, connected, msgs, parses))
    decreases |msgs|
  {
    if msgs != [] {
      SocketErrorIsLast(stored, connected, msgs[..|msgs| - 1], parses);
      ReceiveKeepsErrorLast(Run(stored, connected, msgs[..|msgs| - 1], parses), msgs[|msgs| - 1], parses);
    }
  }

  /**
    Across the whole stream, the stored value of a field is the one carried by
    the latest ticker frame that carried it, however many frames omit it since.
   */
  lemma RunKeepsLatestValue(stored: Snapshot, msgs: seq<Inbound>, parses: string -> bool, i: nat, k: string)
    requires AllDecoded(msgs)
    requires i < |TickerPartials(msgs)| && k in TickerPartials(msgs)[i]
    requires forall j :: i < j < |TickerPartials(msgs)| ==> k !in TickerPartials(msgs)[j]
    ensures k in Run(stored, true, msgs, parses).state
    ensures Run(stored, true, msgs, parses).state[k] == TickerPartials(msgs)[i][k]
  {
    RunStateIsMergedPartials(stored, msgs, parses);
    MergeAllLatestWins(stored, TickerPartials(msgs), i, k);
  }

  /**
    The receive loop as the program runs it: handle each message until the
    stream ends or a fault ends the loop.
   */
  method ConsumeStream(stored: Snapshot, connected: bool, msgs: seq<Inbound>, parses: string -> bool)
    returns (state: Snapshot, trace: seq<Line>, open: bool)
    ensures Session(state, trace, open) == Run(stored, connected, msgs, parses)
    ensures stored.Keys <= state.Keys
    ensures open ==> AllDecoded(msgs)
  {
    var sess := Connect(stored, connected);
    var i := 0;
    while i < |msgs| && sess.open
      invariant 0 <= i <= |msgs|
      invariant sess == ReceiveAll(Connect(stored, connected), msgs[..i], parses)
    {
      assert msgs[..i + 1][..i] == msgs[..i];
      sess := Receive(sess, msgs[i], parses);
      i := i + 1;
    }
    if i < |msgs| {
      assert msgs == msgs[..i] + msgs[i..];
      ReceiveAllAppend(Connect(stored, connected), msgs[..i], msgs[i..], parses);
    } else {
      assert msgs[..i] == msgs;
    }
    RunOpenIff(stored, connected, msgs, parses);
    state, trace, open := sess.state, sess.trace, sess.open;
  }
}

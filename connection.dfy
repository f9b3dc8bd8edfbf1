/** untws/connection.py: the connection facade. Each query registers for some message
    types, sends one request, pops messages from the inbound queue until a terminator
    arrives, folding them into a result, and unregisters. */
module Connection {
  import opened Errors
  import opened Instruments
  import opened Positions
  import opened MarketData

  /** MKT_DATA_FIELDS: tick-price field codes and the quote fields they fill. */
  const MktDataFields: map<int, string> :=
    map[1 := "bid", 2 := "ask", 4 := "last", 6 := "high", 7 := "low", 9 := "close"]

  /** No price field is called "option", the field the option quote goes under. */
  lemma OptionIsNotAPriceField()
    ensures "option" !in MktDataFields.Values
  {
  }

  /** OPT_DATA_FIELDS: option-computation field codes and the option quote fields they
      fill. */
  const OptDataFields: map<int, string> := map[10 := "bid", 11 := "ask", 12 := "last", 13 := "model"]

  /** The type names of the messages the facade handles. */
  const KnownTypeNames: set<string> :=
    {"currentTime", "updatePortfolio", "accountDownloadEnd", "tickPrice",
     "tickOptionComputation", "tickSnapshotEnd"}

  /** The type name of any other message the dispatcher may deliver. */
  type ForeignTypeName = s: string | s !in KnownTypeNames witness "error"

  /** An inbound message, with the attributes the facade reads. */
  datatype Event =
    | CurrentTime(time: int)
    | UpdatePortfolio(
        contract: Contract, position: int, marketPrice: real, marketValue: real,
        averageCost: real, unrealizedPnl: real, realizedPnl: real, accountName: string)
    | AccountDownloadEnd(accountName: string)
    | TickPrice(field: int, price: real)
    | TickOptionComputation(
        field: int, impliedVol: real, delta: real, optPrice: real, pvDividend: real,
        gamma: real, vega: real, theta: real, undPrice: real)
    | TickSnapshotEnd
    | Other(name: ForeignTypeName)
  {
    /** The message's typeName attribute: each known name belongs to exactly one kind
        of message. */
    function TypeName(): (n: string)
      ensures n == "currentTime" <==> CurrentTime?
      ensures n == "updatePortfolio" <==> UpdatePortfolio?
      ensures n == "accountDownloadEnd" <==> AccountDownloadEnd?
      ensures n == "tickPrice" <==> TickPrice?
      ensures n == "tickOptionComputation" <==> TickOptionComputation?
      ensures n == "tickSnapshotEnd" <==> TickSnapshotEnd?
    {
      match this
      case CurrentTime(_) => "currentTime"
      case UpdatePortfolio(_, _, _, _, _, _, _, _) => "updatePortfolio"
      case AccountDownloadEnd(_) => "accountDownloadEnd"
      case TickPrice(_, _) => "tickPrice"
      case TickOptionComputation(_, _, _, _, _, _, _, _, _) => "tickOptionComputation"
      case TickSnapshotEnd => "tickSnapshotEnd"
      case Other(name) => name
    }
  }

  /** The message types a callback can be registered for. */
  datatype Selector =
    | CurrentTimeMessages | UpdatePortfolioMessages | AccountDownloadEndMessages
    | TickPriceMessages | TickSnapshotEndMessages | TickOptionComputationMessages

  const TimeSelectors: set<Selector> := {CurrentTimeMessages}
  const PositionSelectors: set<Selector> := {UpdatePortfolioMessages, AccountDownloadEndMessages}
  const MarketSelectors: set<Selector> :=
    {TickPriceMessages, TickSnapshotEndMessages, TickOptionComputationMessages}

  /** The outbound requests. */
  datatype Request =
    | ReqCurrentTime
    | ReqAccountUpdates(subscribe: int, accountCode: string)
    | ReqMktData(tickerId: int, contract: Contract, genericTicks: string, snapshot: bool)

  /** One call into the transport, as recorded in the connection's log. */
  datatype TransportCall =
    | RegisterCall(selectors: set<Selector>)
    | UnregisterCall(selectors: set<Selector>)
    | RequestCall(request: Request)

  /** The outcome of a drain: what the query returns or raises, and how many messages
      it popped from the queue. */
  datatype Drain<T> = Drain(result: Result<T>, consumed: nat)

  // ---------------------------------------------------------------------------------
  // Contract tickets

  /** A fresh ib.ext.Contract: every field empty or zero. */
  const DefaultContract: Contract := Contract("", "", "", 0, "", "", "", "", "", 0.0, "")

  /** create_stock: a stock contract for the ticker; every other field keeps its
      default. */
  function CreateStock(ticker: string, currency: string := "USD", exchange: string := "SMART"): (c: Contract)
    ensures c.secType == "STK" && c.localSymbol == ticker && c.currency == currency && c.exchange == exchange
    ensures c.(secType := "", localSymbol := "", currency := "", exchange := "") == DefaultContract
  {
    DefaultContract.(secType := "STK", localSymbol := ticker, currency := currency, exchange := exchange)
  }

  /** create_option_ticker: an option contract for the ticker; every other field keeps
      its default. */
  function CreateOptionTicker(ticker: string, currency: string := "USD", exchange: string := "SMART"): (c: Contract)
    ensures c.secType == "OPT" && c.localSymbol == ticker && c.currency == currency && c.exchange == exchange
    ensures c.(secType := "", localSymbol := "", currency := "", exchange := "") == DefaultContract
  {
    DefaultContract.(secType := "OPT", localSymbol := ticker, currency := currency, exchange := exchange)
  }

  /** Translating a stock ticket gives a Stock with the ticker and currency asked for;
      the routing exchange asked for is not carried over, since the instrument's
      exchange is the (empty) primary exchange. */
  lemma StockTicketTranslation<C>(connection: C, ticker: string, currency: string, exchange: string)
    ensures CreateInstrument(connection, CreateStock(ticker, currency, exchange))
         == Ok(Stock(connection, ticker, 0, currency, ""))
  {
  }

  /** An option ticket has no expiry, so it cannot be translated into an instrument. */
  lemma OptionTicketNotTranslatable<C>(connection: C, ticker: string, currency: string, exchange: string)
    ensures CreateInstrument(connection, CreateOptionTicker(ticker, currency, exchange)) == Err(ValueError)
  {
  }

  // ---------------------------------------------------------------------------------
  // The market data drain

  predicate IsTick(e: Event) { e.TickPrice? || e.TickOptionComputation? }

  predicate AllTicks(s: seq<Event>) { forall i :: 0 <= i < |s| ==> IsTick(s[i]) }

  /** The queue holds a message that ends the market data drain. */
  predicate EndsMarketDrain(q: seq<Event>) { exists i :: 0 <= i < |q| && !IsTick(q[i]) }

  /** The figures of an option computation, under the names the option quote uses:
      eight fields, each holding the message attribute of the same meaning. */
  function OptionFigures(e: Event): (figures: Quote<real>)
    requires e.TickOptionComputation?
    ensures figures.AvailableFields() == {"price", "delta", "gamma", "vega", "theta",
                                          "underlying_price", "pv_dividends", "implied_vol"}
    ensures figures.Get("price") == Ok(e.optPrice) && figures.Get("underlying_price") == Ok(e.undPrice)
    ensures figures.Get("pv_dividends") == Ok(e.pvDividend) && figures.Get("implied_vol") == Ok(e.impliedVol)
    ensures figures.Get("delta") == Ok(e.delta) && figures.Get("gamma") == Ok(e.gamma)
    ensures figures.Get("vega") == Ok(e.vega) && figures.Get("theta") == Ok(e.theta)
  {
    Quote(map[
      "price" := e.optPrice, "delta" := e.delta, "gamma" := e.gamma, "vega" := e.vega,
      "theta" := e.theta, "underlying_price" := e.undPrice, "pv_dividends" := e.pvDividend,
      "implied_vol" := e.impliedVol])
  }

  /** The drain's two accumulators: prices by field name, option quotes by field name. */
  datatype Ticks = Ticks(data: map<string, real>, opts: map<string, Quote<real>>)

  /** One loop iteration on a tick: a known code overwrites its field, an unknown one is
      skipped; every other field keeps its value. */
  function TickStep(acc: Ticks, e: Event): (next: Ticks)
    requires IsTick(e)
    ensures forall f :: f in next.data <==> f in acc.data || PriceSeen([e], 0, f)
    ensures forall f :: f in next.data ==> next.data[f] == if PriceSeen([e], 0, f) then e.price else acc.data[f]
    ensures forall f :: f in next.opts <==> f in acc.opts || OptionSeen([e], 0, f)
    ensures forall f :: f in next.opts ==>
              next.opts[f] == if OptionSeen([e], 0, f) then OptionFigures(e) else acc.opts[f]
  {
    if e.TickPrice? then
      if e.field in MktDataFields then acc.(data := acc.data[MktDataFields[e.field] := e.price]) else acc
    else
      if e.field in OptDataFields then acc.(opts := acc.opts[OptDataFields[e.field] := OptionFigures(e)]) else acc
  }

  /** The accumulators after a sequence of ticks, starting from empty ones. Only field
      names from the tables ever appear. */
  function FoldTicks(s: seq<Event>): (acc: Ticks)
    requires AllTicks(s)
    ensures acc.data.Keys <= MktDataFields.Values
    ensures acc.opts.Keys <= OptDataFields.Values
  {
    if s == [] then Ticks(map[], map[])
    else
      var init := s[..|s| - 1];
      assert AllTicks(init) by {
        forall i | 0 <= i < |init| ensures IsTick(init[i]) { assert init[i] == s[i]; }
      }
      TickStep(FoldTicks(init), s[|s| - 1])
  }

  /** The index of the first message that ends the drain: the first one that is not a
      tick. */
  function MarketDataStop(q: seq<Event>): (k: nat)
    requires EndsMarketDrain(q)
    ensures k < |q| && !IsTick(q[k]) && AllTicks(q[..k])
    decreases |q|
  {
    if !IsTick(q[0]) then 0
    else
      assert EndsMarketDrain(q[1..]) by {
        var i :| 0 <= i < |q| && !IsTick(q[i]);
        assert q[1..][i - 1] == q[i];
      }
      var k := MarketDataStop(q[1..]);
      var prefix, later := q[..k + 1], q[1..][..k];
      assert AllTicks(prefix) by {
        forall i | 0 <= i < |prefix| ensures IsTick(prefix[i]) {
          if i > 0 { assert prefix[i] == later[i - 1]; }
        }
      }
      k + 1
  }

  /** get_market_data's drain: it pops through the first non-tick message; the snapshot
      end returns the folded ticks, anything else raises naming its type. */
  function MarketDataDrain(q: seq<Event>): (d: Drain<Ticks>)
    requires EndsMarketDrain(q)
    ensures d.consumed == MarketDataStop(q) + 1 && d.consumed <= |q|
    ensures d.result.Ok? <==> q[d.consumed - 1].TickSnapshotEnd?
    ensures d.result.Ok? ==> && d.result.value.data.Keys <= MktDataFields.Values
                             && d.result.value.opts.Keys <= OptDataFields.Values
    ensures d.result.Err? ==> && d.result.error.UnexpectedMessage?
                              && d.result.error.typeName != "tickPrice"
                              && d.result.error.typeName != "tickOptionComputation"
                              && d.result.error.typeName != "tickSnapshotEnd"
  {
    var k := MarketDataStop(q);
    if q[k].TickSnapshotEnd? then Drain(Ok(FoldTicks(q[..k])), k + 1)
    else Drain(Err(UnexpectedMessage(q[k].TypeName())), k + 1)
  }

  /** Any index that ends a run of ticks with a non-tick is the stop. */
  lemma {:induction false} MarketDataStopIsFirst(q: seq<Event>, k: nat)
    requires k < |q| && !IsTick(q[k]) && AllTicks(q[..k])
    ensures EndsMarketDrain(q) && MarketDataStop(q) == k
  {
    if k > 0 {
      assert IsTick(q[..k][0]);
      assert q[1..][k - 1] == q[k];
      var prefix, later := q[..k], q[1..][..k - 1];
      assert AllTicks(later) by {
        forall i | 0 <= i < |later| ensures IsTick(later[i]) { assert later[i] == prefix[i + 1]; }
      }
      MarketDataStopIsFirst(q[1..], k - 1);
    }
  }

  /** Messages queued behind the terminator neither are consumed nor change the
      result. */
  lemma MarketDataDrainIgnoresTail(q: seq<Event>, tail: seq<Event>)
    requires EndsMarketDrain(q)
    ensures EndsMarketDrain(q + tail) && MarketDataDrain(q + tail) == MarketDataDrain(q)
  {
    var k := MarketDataStop(q);
    assert (q + tail)[..k] == q[..k];
    assert (q + tail)[k] == q[k];
    MarketDataStopIsFirst(q + tail, k);
  }

  /** A tick price with a known code for field f at index j. */
  predicate PriceSeen(s: seq<Event>, j: int, f: string)
  {
    0 <= j < |s| && s[j].TickPrice? && s[j].field in MktDataFields && MktDataFields[s[j].field] == f
  }

  /** An option computation with a known code for field f at index j. */
  predicate OptionSeen(s: seq<Event>, j: int, f: string)
  {
    0 <= j < |s| && s[j].TickOptionComputation? && s[j].field in OptDataFields && OptDataFields[s[j].field] == f
  }

  /** A price field is present exactly when a tick price with a known code for it was
      seen. */
  lemma {:induction false} PriceKeysSeen(s: seq<Event>, f: string)
    requires AllTicks(s)
    ensures f in FoldTicks(s).data <==> exists j :: PriceSeen(s, j, f)
  {
    if s != [] {
      var init := s[..|s| - 1];
      assert AllTicks(init) by {
        forall i | 0 <= i < |init| ensures IsTick(init[i]) { assert init[i] == s[i]; }
      }
      PriceKeysSeen(init, f);
      if PriceSeen(s, |s| - 1, f) {
        assert f in FoldTicks(s).data;
      } else {
        assert (f in FoldTicks(s).data) == (f in FoldTicks(init).data);
      }
      if exists j :: PriceSeen(init, j, f) {
        var j :| PriceSeen(init, j, f);
        assert init[j] == s[j];
        assert PriceSeen(s, j, f);
      }
      if exists j :: PriceSeen(s, j, f) {
        var j :| PriceSeen(s, j, f);
        if j < |s| - 1 {
          assert init[j] == s[j];
          assert PriceSeen(init, j, f);
        }
      }
    }
  }

  /** A price field holds the price of the last tick delivered for it. */
  lemma {:induction false} LastPriceWins(s: seq<Event>, j: nat, f: string)
    requires AllTicks(s) && PriceSeen(s, j, f)
    requires forall l :: j < l < |s| ==> !PriceSeen(s, l, f)
    ensures f in FoldTicks(s).data && FoldTicks(s).data[f] == s[j].price
  {
    var init := s[..|s| - 1];
    assert AllTicks(init) by {
      forall i | 0 <= i < |init| ensures IsTick(init[i]) { assert init[i] == s[i]; }
    }
    if j < |s| - 1 {
      assert init[j] == s[j];
      forall l | j < l < |init| ensures !PriceSeen(init, l, f) {
        assert init[l] == s[l];
        assert !PriceSeen(s, l, f);
      }
      LastPriceWins(init, j, f);
      assert !PriceSeen(s, |s| - 1, f);
    }
  }

  /** The option quote holds a field exactly when an option computation with a known
      code for it was seen. */
  lemma {:induction false} OptionKeysSeen(s: seq<Event>, f: string)
    requires AllTicks(s)
    ensures f in FoldTicks(s).opts <==> exists j :: OptionSeen(s, j, f)
  {
    if s != [] {
      var init := s[..|s| - 1];
      assert AllTicks(init) by {
        forall i | 0 <= i < |init| ensures IsTick(init[i]) { assert init[i] == s[i]; }
      }
      OptionKeysSeen(init, f);
      if OptionSeen(s, |s| - 1, f) {
        assert f in FoldTicks(s).opts;
      } else {
        assert (f in FoldTicks(s).opts) == (f in FoldTicks(init).opts);
      }
      if exists j :: OptionSeen(init, j, f) {
        var j :| OptionSeen(init, j, f);
        assert init[j] == s[j];
        assert OptionSeen(s, j, f);
      }
      if exists j :: OptionSeen(s, j, f) {
        var j :| OptionSeen(s, j, f);
        if j < |s| - 1 {
          assert init[j] == s[j];
          assert OptionSeen(init, j, f);
        }
      }
    }
  }

  /** An option quote field holds the eight figures of the last computation delivered
      for it. */
  lemma {:induction false} LastOptionWins(s: seq<Event>, j: nat, f: string)
    requires AllTicks(s) && OptionSeen(s, j, f)
    requires forall l :: j < l < |s| ==> !OptionSeen(s, l, f)
    ensures f in FoldTicks(s).opts && FoldTicks(s).opts[f] == OptionFigures(s[j])
  {
    var init := s[..|s| - 1];
    assert AllTicks(init) by {
      forall i | 0 <= i < |init| ensures IsTick(init[i]) { assert init[i] == s[i]; }
    }
    if j < |s| - 1 {
      assert init[j] == s[j];
      forall l | j < l < |init| ensures !OptionSeen(init, l, f) {
        assert init[l] == s[l];
        assert !OptionSeen(s, l, f);
      }
      LastOptionWins(init, j, f);
      assert !OptionSeen(s, |s| - 1, f);
    }
  }

  /** A tick whose code is in neither table. */
  predicate UnknownCode(e: Event)
  {
    (e.TickPrice? && e.field !in MktDataFields) || (e.TickOptionComputation? && e.field !in OptDataFields)
  }

  /** A tick with an unknown code is skipped: removing it does not change the result. */
  lemma {:induction false} UnknownCodesIgnored(s: seq<Event>, j: nat)
    requires AllTicks(s) && j < |s| && UnknownCode(s[j])
    ensures AllTicks(s[..j] + s[j + 1..])
    ensures FoldTicks(s[..j] + s[j + 1..]) == FoldTicks(s)
  {
    var t := s[..j] + s[j + 1..];
    var init := s[..|s| - 1];
    assert AllTicks(t) by {
      forall i | 0 <= i < |t| ensures IsTick(t[i]) {
        if i < j { assert t[i] == s[i]; } else { assert t[i] == s[i + 1]; }
      }
    }
    assert AllTicks(init) by {
      forall i | 0 <= i < |init| ensures IsTick(init[i]) { assert init[i] == s[i]; }
    }
    if j == |s| - 1 {
      assert t == init;
    } else {
      UnknownCodesIgnored(init, j);
      var rest := init[..j] + init[j + 1..];
      assert t == rest + [s[|s| - 1]];
      assert t[..|t| - 1] == rest;
    }
  }

  /** The quote get_market_data returns for the accumulated ticks: one price per price
      field, and under "option" an option quote holding the option fields exactly when
      there are any. */
  ghost predicate QuoteHolds(quote: InstrumentQuote<Contract>, instrument: Contract, ticks: Ticks)
    reads if "option" in quote.quote.dataPoints && quote.quote.dataPoints["option"].OptionQuote?
          then {quote.quote.dataPoints["option"].options} else {}
  {
    var fields := quote.quote.dataPoints;
    && quote.instrument == instrument
    && fields.Keys == ticks.data.Keys + (if ticks.opts == map[] then {} else {"option"})
    && (forall f :: f in ticks.data ==> fields[f] == Price(ticks.data[f]))
    && (ticks.opts != map[] ==> && fields["option"].OptionQuote?
                                && fields["option"].options.dataPoints == ticks.opts)
  }

  // ---------------------------------------------------------------------------------
  // The positions drain

  /** The queue holds a message that ends the positions drain. */
  predicate EndsPositionDrain(q: seq<Event>) { exists i :: 0 <= i < |q| && !q[i].UpdatePortfolio? }

  /** The Position an updatePortfolio message describes, or the error translating its
      contract raises. */
  function PositionOf(connection: IBConnection, e: Event): (r: Result<Position<IBConnection>>)
    requires e.UpdatePortfolio?
    ensures r.Ok? <==> CreateInstrument(connection, e.contract).Ok?
    ensures r.Err? ==> r.error == CreateInstrument(connection, e.contract).error
    ensures r.Ok? ==> && r.value.connection == connection && r.value.accountName == e.accountName
                      && r.value.instrument == CreateInstrument(connection, e.contract).value
                      && r.value.quantity == e.position && r.value.price == e.marketPrice
                      && r.value.averageCost == e.averageCost && r.value.marketValue == e.marketValue
                      && r.value.realizedPnl == e.realizedPnl && r.value.unrealizedPnl == e.unrealizedPnl
  {
    NewPosition(connection, e.accountName, e.contract, e.position, e.marketPrice,
                e.averageCost, e.marketValue, e.realizedPnl, e.unrealizedPnl)
  }

  /** get_positions' drain: accountDownloadEnd ends it, an updatePortfolio adds a
      Position, anything else fails the assertion; the message that ends it, or whose
      translation raises, is consumed. */
  function PositionsDrain(connection: IBConnection, q: seq<Event>): (d: Drain<seq<Position<IBConnection>>>)
    requires EndsPositionDrain(q)
    ensures 1 <= d.consumed <= |q|
    ensures d.result.Ok? ==> |d.result.value| == d.consumed - 1 && q[d.consumed - 1].AccountDownloadEnd?
    decreases |q|
  {
    var e := q[0];
    if e.AccountDownloadEnd? then Drain(Ok([]), 1)
    else if !e.UpdatePortfolio? then Drain(Err(AssertionFailed), 1)
    else
      match PositionOf(connection, e)
      case Err(error) => Drain(Err(error), 1)
      case Ok(p) =>
        assert EndsPositionDrain(q[1..]) by {
          var i :| 0 <= i < |q| && !q[i].UpdatePortfolio?;
          assert q[1..][i - 1] == q[i];
        }
        Resume([p], 1, PositionsDrain(connection, q[1..]))
  }

  /** The drain of the whole queue, given the positions collected from the first
      `done` messages and the drain of the rest. */
  function Resume<T>(out: seq<T>, done: nat, rest: Drain<seq<T>>): Drain<seq<T>>
  {
    Drain(if rest.result.Ok? then Ok(out + rest.result.value) else rest.result, done + rest.consumed)
  }

  lemma ResumeFromStart<T>(d: Drain<seq<T>>)
    ensures Resume([], 0, d) == d
  {
    if d.result.Ok? { assert [] + d.result.value == d.result.value; }
  }

  lemma ResumeAfter<T>(out: seq<T>, p: T, done: nat, rest: Drain<seq<T>>)
    ensures Resume(out, done, Resume([p], 1, rest)) == Resume(out + [p], done + 1, rest)
  {
    if rest.result.Ok? { assert out + ([p] + rest.result.value) == (out + [p]) + rest.result.value; }
  }

  lemma ResumeAtEnd<T>(out: seq<T>, done: nat)
    ensures Resume(out, done, Drain(Ok([]), 1)) == Drain(Ok(out), done + 1)
  {
    assert out + [] == out;
  }

  /** One step of the positions drain, on the message at the head of the queue. */
  lemma PositionsDrainStep(connection: IBConnection, q: seq<Event>)
    requires EndsPositionDrain(q)
    ensures q[0].AccountDownloadEnd? ==> PositionsDrain(connection, q) == Drain(Ok([]), 1)
    ensures !q[0].AccountDownloadEnd? && !q[0].UpdatePortfolio? ==>
              PositionsDrain(connection, q) == Drain(Err(AssertionFailed), 1)
    ensures q[0].UpdatePortfolio? && PositionOf(connection, q[0]).Err? ==>
              PositionsDrain(connection, q) == Drain(Err(PositionOf(connection, q[0]).error), 1)
    ensures q[0].UpdatePortfolio? && PositionOf(connection, q[0]).Ok? ==>
              && EndsPositionDrain(q[1..])
              && PositionsDrain(connection, q) == Resume([PositionOf(connection, q[0]).value], 1, PositionsDrain(connection, q[1..]))
  {
    if q[0].UpdatePortfolio? {
      var i :| 0 <= i < |q| && !q[i].UpdatePortfolio?;
      assert q[1..][i - 1] == q[i];
    }
  }

  /** The index of the first message that is not an updatePortfolio. */
  function PositionsStop(q: seq<Event>): (k: nat)
    requires EndsPositionDrain(q)
    ensures k < |q| && !q[k].UpdatePortfolio?
    ensures forall j :: 0 <= j < k ==> q[j].UpdatePortfolio?
    decreases |q|
  {
    if !q[0].UpdatePortfolio? then 0
    else
      assert EndsPositionDrain(q[1..]) by {
        var i :| 0 <= i < |q| && !q[i].UpdatePortfolio?;
        assert q[1..][i - 1] == q[i];
      }
      var k := PositionsStop(q[1..]);
      assert forall j :: 0 < j <= k ==> q[j] == q[1..][j - 1];
      k + 1
  }

  /** When every update before the first other message translates, the drain consumes
      through that message; it succeeds exactly when that message is
      accountDownloadEnd, with one Position per update in arrival order, and otherwise
      fails the assertion. */
  lemma {:induction false} PositionsDrainAllTranslate(connection: IBConnection, q: seq<Event>)
    requires EndsPositionDrain(q)
    requires forall j :: 0 <= j < PositionsStop(q) ==> PositionOf(connection, q[j]).Ok?
    ensures var k, d := PositionsStop(q), PositionsDrain(connection, q);
      && d.consumed == k + 1
      && (d.result.Ok? <==> q[k].AccountDownloadEnd?)
      && (d.result.Err? ==> d.result.error == AssertionFailed)
      && (d.result.Ok? ==>
            && |d.result.value| == k
            && forall j :: 0 <= j < k ==> d.result.value[j] == PositionOf(connection, q[j]).value)
    decreases |q|
  {
    var k := PositionsStop(q);
    if k > 0 {
      var rest := q[1..];
      assert EndsPositionDrain(rest) by { assert rest[k - 1] == q[k]; }
      assert PositionsStop(rest) == k - 1;
      forall j | 0 <= j < k - 1 ensures PositionOf(connection, rest[j]).Ok? { assert rest[j] == q[j + 1]; }
      PositionsDrainAllTranslate(connection, rest);
      var d := PositionsDrain(connection, q);
      if d.result.Ok? {
        forall j | 0 <= j < k ensures d.result.value[j] == PositionOf(connection, q[j]).value {
          if j > 0 { assert rest[j - 1] == q[j]; }
        }
      }
    }
  }

  /** The first update whose contract does not translate ends the drain with that
      error, and it is the last message consumed. */
  lemma {:induction false} PositionsDrainStopsAtFailure(connection: IBConnection, q: seq<Event>, j: nat)
    requires EndsPositionDrain(q)
    requires j < PositionsStop(q) && PositionOf(connection, q[j]).Err?
    requires forall l :: 0 <= l < j ==> PositionOf(connection, q[l]).Ok?
    ensures PositionsDrain(connection, q) == Drain(Err(PositionOf(connection, q[j]).error), j + 1)
    decreases j
  {
    if j > 0 {
      var rest := q[1..];
      assert EndsPositionDrain(rest) by { assert rest[PositionsStop(q) - 1] == q[PositionsStop(q)]; }
      assert PositionsStop(rest) == PositionsStop(q) - 1;
      assert rest[j - 1] == q[j];
      forall l | 0 <= l < j - 1 ensures PositionOf(connection, rest[l]).Ok? { assert rest[l] == q[l + 1]; }
      PositionsDrainStopsAtFailure(connection, rest, j - 1);
    }
  }

  lemma DropFirstOfConcat<T>(a: seq<T>, b: seq<T>)
    requires a != []
    ensures (a + b)[1..] == a[1..] + b
  {
  }

  /** Messages queued behind the message that ends the drain neither are consumed nor
      change the result. */
  lemma {:induction false} PositionsDrainIgnoresTail(connection: IBConnection, q: seq<Event>, tail: seq<Event>)
    requires EndsPositionDrain(q)
    ensures EndsPositionDrain(q + tail)
    ensures PositionsDrain(connection, q + tail) == PositionsDrain(connection, q)
    decreases |q|
  {
    var i :| 0 <= i < |q| && !q[i].UpdatePortfolio?;
    var longer := q + tail;
    assert longer[i] == q[i];
    assert longer[0] == q[0];
    assert EndsPositionDrain(longer);
    PositionsDrainStep(connection, q);
    PositionsDrainStep(connection, longer);
    if q[0].UpdatePortfolio? {
      var first := PositionOf(connection, q[0]);
      if first.Ok? {
        DropFirstOfConcat(q, tail);
        PositionsDrainIgnoresTail(connection, q[1..], tail);
        assert PositionsDrain(connection, longer) == Resume([first.value], 1, PositionsDrain(connection, q[1..]));
      }
    }
  }

  // ---------------------------------------------------------------------------------
  // The connection

  /** IBConnection: the inbound queue the dispatcher fills, the message types a
      callback is registered for, and (as a log) every call made into the transport. */
  class IBConnection {
    var messages: seq<Event>
    var registered: set<Selector>
    ghost var calls: seq<TransportCall>

    /** A new connection: nothing queued, nothing registered, nothing sent. */
    constructor ()
      ensures messages == [] && registered == {} && calls == []
    {
      messages := [];
      registered := {};
      calls := [];
    }

    /** _process_message: the callback appends the message to the queue. */
    method ProcessMessage(e: Event)
      modifies this
      ensures messages == old(messages) + [e]
      ensures registered == old(registered) && calls == old(calls)
    {
      messages := messages + [e];
    }

    /** Takes the oldest message off the queue. */
    method Pop() returns (e: Event)
      requires messages != []
      modifies this
      ensures e == old(messages)[0] && messages == old(messages)[1..]
      ensures registered == old(registered) && calls == old(calls)
    {
      e := messages[0];
      messages := messages[1..];
    }

    /** Registers the callback for the given message types. */
    method Register(selectors: set<Selector>)
      modifies this
      ensures registered == old(registered) + selectors
      ensures calls == old(calls) + [RegisterCall(selectors)] && messages == old(messages)
    {
      registered := registered + selectors;
      calls := calls + [RegisterCall(selectors)];
    }

    /** Unregisters the callback for the given message types. */
    method Unregister(selectors: set<Selector>)
      modifies this
      ensures registered == old(registered) - selectors
      ensures calls == old(calls) + [UnregisterCall(selectors)] && messages == old(messages)
    {
      registered := registered - selectors;
      calls := calls + [UnregisterCall(selectors)];
    }

    /** Sends a request. */
    method Send(request: Request)
      modifies this
      ensures calls == old(calls) + [RequestCall(request)]
      ensures registered == old(registered) && messages == old(messages)
    {
      calls := calls + [RequestCall(request)];
    }

    /** get_current_time: the one message popped must be currentTime, whose time (in
        seconds since the epoch) is returned; any other message fails the assertion and
        leaves the callback registered. */
    method GetCurrentTime() returns (r: Result<int>)
      requires messages != []
      modifies this
      ensures messages == old(messages)[1..]
      ensures r.Ok? <==> old(messages)[0].CurrentTime?
      ensures r.Ok? ==> && r.value == old(messages)[0].time
                        && registered == old(registered) - TimeSelectors
                        && calls == old(calls) + [RegisterCall(TimeSelectors), RequestCall(ReqCurrentTime),
                                                  UnregisterCall(TimeSelectors)]
      ensures r.Ok? && TimeSelectors !! old(registered) ==> registered == old(registered)
      ensures r.Err? ==> && r.error == AssertionFailed
                         && registered == old(registered) + TimeSelectors
                         && calls == old(calls) + [RegisterCall(TimeSelectors), RequestCall(ReqCurrentTime)]
    {
      Register(TimeSelectors);
      Send(ReqCurrentTime);
      var e := Pop();
      if !e.CurrentTime? {
        r := Err(AssertionFailed);
        return;
      }
      Unregister(TimeSelectors);
      r := Ok(e.time);
    }

    /** The loop of get_positions: pops account updates, turning each into a Position,
        up to accountDownloadEnd; any other message fails the assertion, and a contract
        that does not translate raises. */
    method DrainPositions() returns (r: Result<seq<Position<IBConnection>>>)
      requires EndsPositionDrain(messages)
      modifies this
      ensures var d := PositionsDrain(this, old(messages));
        r == d.result && messages == old(messages)[d.consumed..]
      ensures registered == old(registered) && calls == old(calls)
    {
      var out: seq<Position<IBConnection>> := [];
      ghost var q := messages;
      ghost var i := 0;
      ResumeFromStart(PositionsDrain(this, q));
      while true
        invariant 0 <= i <= |q| && messages == q[i..]
        invariant EndsPositionDrain(messages)
        invariant PositionsDrain(this, q) == Resume(out, i, PositionsDrain(this, messages))
        invariant registered == old(registered) && calls == old(calls)
        decreases |messages|
      {
        ghost var before := messages;
        var e := Pop();
        assert messages == before[1..] == q[i + 1..];
        PositionsDrainStep(this, before);
        if e.TypeName() == "accountDownloadEnd" {
          ResumeAtEnd(out, i);
          break;
        }
        if e.TypeName() != "updatePortfolio" {
          r := Err(AssertionFailed);
          return;
        }
        var position := NewPosition(this, e.accountName, e.contract, e.position, e.marketPrice,
                                    e.averageCost, e.marketValue, e.realizedPnl, e.unrealizedPnl);
        assert position == PositionOf(this, e);
        if position.Err? {
          r := Err(position.error);
          return;
        }
        ResumeAfter(out, position.value, i, PositionsDrain(this, messages));
        out := out + [position.value];
        i := i + 1;
        assert messages == q[i..];
      }
      r := Ok(out);
    }

    /** get_positions: subscribes to account updates, drains them as PositionsDrain
        says, then unsubscribes and unregisters; when the drain raises, neither the
        unsubscription nor the unregistration happens. */
    method GetPositions() returns (r: Result<seq<Position<IBConnection>>>)
      requires EndsPositionDrain(messages)
      modifies this
      ensures var d := PositionsDrain(this, old(messages));
        r == d.result && messages == old(messages)[d.consumed..]
      ensures r.Ok? ==> && registered == old(registered) - PositionSelectors
                        && calls == old(calls) + [RegisterCall(PositionSelectors),
                                                  RequestCall(ReqAccountUpdates(1, "")),
                                                  RequestCall(ReqAccountUpdates(0, "")),
                                                  UnregisterCall(PositionSelectors)]
      ensures r.Ok? && PositionSelectors !! old(registered) ==> registered == old(registered)
      ensures r.Err? ==> && registered == old(registered) + PositionSelectors
                         && calls == old(calls) + [RegisterCall(PositionSelectors),
                                                   RequestCall(ReqAccountUpdates(1, ""))]
    {
      Register(PositionSelectors);
      Send(ReqAccountUpdates(1, ""));
      r := DrainPositions();
      if r.Err? {
        return;
      }
      Send(ReqAccountUpdates(0, ""));
      Unregister(PositionSelectors);
    }

    /** The loop of get_market_data: pops ticks, overwriting the field each known code
        names and skipping unknown codes, up to the first other message; the snapshot
        end returns the accumulated fields, anything else raises naming its type. */
    method DrainTicks() returns (r: Result<Ticks>)
      requires EndsMarketDrain(messages)
      modifies this
      ensures var d := MarketDataDrain(old(messages));
        r == d.result && messages == old(messages)[d.consumed..]
      ensures registered == old(registered) && calls == old(calls)
    {
      ghost var q := messages;
      ghost var k := MarketDataStop(q);
      ghost var i := 0;
      var data: map<string, real> := map[];
      var opts: map<string, Quote<real>> := map[];
      while true
        invariant 0 <= i <= k && messages == q[i..]
        invariant AllTicks(q[..i])
        invariant Ticks(data, opts) == FoldTicks(q[..i])
        invariant registered == old(registered) && calls == old(calls)
        decreases k - i
      {
        var e := Pop();
        assert e == q[i];
        assert i < k ==> IsTick(e) by { if i < k { assert q[..k][i] == q[i]; } }
        if e.TickSnapshotEnd? {
          break;
        } else if e.TickPrice? {
          if e.field in MktDataFields {
            data := data[MktDataFields[e.field] := e.price];
          }
        } else if e.TickOptionComputation? {
          if e.field in OptDataFields {
            opts := opts[OptDataFields[e.field] := OptionFigures(e)];
          }
        } else {
          r := Err(UnexpectedMessage(e.TypeName()));
          return;
        }
        assert q[..i + 1][..i] == q[..i];
        assert q[..i + 1][i] == e;
        i := i + 1;
      }
      r := Ok(Ticks(data, opts));
    }

    /** The end of get_market_data: the prices, and the option quote when any arrived,
        with the instrument they are about. Both quotes are built with the corrected
        constructors (InstrumentQuoteInit and OptionDataQuote's constructor); the
        initializers as written always raise TypeError here, so the source never
        returns a quote (see InstrumentQuoteInitAlwaysRaises). */
    method QuoteOf(instrument: Contract, ticks: Ticks) returns (quote: InstrumentQuote<Contract>)
      requires "option" !in ticks.data
      ensures QuoteHolds(quote, instrument, ticks)
      ensures "option" in quote.quote.dataPoints && quote.quote.dataPoints["option"].OptionQuote? ==>
                fresh(quote.quote.dataPoints["option"].options)
    {
      var data, opts := ticks.data, ticks.opts;
      var fields: map<string, QuoteValue> := map f | f in data :: Price(data[f]);
      assert fields.Keys == data.Keys;
      if |opts| > 0 {
        var options := new OptionDataQuote(opts);
        fields := fields["option" := OptionQuote(options)];
      } else {
        assert opts == map[];
      }
      quote := InstrumentQuoteInit(instrument, fields).value;
    }

    /** get_market_data: requests a snapshot quote for the instrument and drains the
        ticks as MarketDataDrain says; on the snapshot end it unregisters and returns the
        prices, plus under "option" an option quote when any option computation with a
        known code arrived. A foreign message raises before the unregistration. The quote
        is the one the corrected constructors build: as written, the source raises
        TypeError at this point, after unregistering (see QuoteOf). */
    method GetMarketData(instrument: Contract) returns (r: Result<InstrumentQuote<Contract>>)
      requires EndsMarketDrain(messages)
      modifies this
      ensures var d := MarketDataDrain(old(messages));
        && messages == old(messages)[d.consumed..]
        && (r.Ok? <==> d.result.Ok?)
        && (r.Err? ==> r.error == d.result.error)
      ensures r.Ok? ==> && registered == old(registered) - MarketSelectors
                        && calls == old(calls) + [RegisterCall(MarketSelectors),
                                                  RequestCall(ReqMktData(1, instrument, "", true)),
                                                  UnregisterCall(MarketSelectors)]
      ensures r.Ok? && MarketSelectors !! old(registered) ==> registered == old(registered)
      ensures r.Err? ==> && registered == old(registered) + MarketSelectors
                         && calls == old(calls) + [RegisterCall(MarketSelectors),
                                                   RequestCall(ReqMktData(1, instrument, "", true))]
      ensures r.Ok? ==> QuoteHolds(r.value, instrument, MarketDataDrain(old(messages)).result.value)
      ensures r.Ok? && "option" in r.value.quote.dataPoints && r.value.quote.dataPoints["option"].OptionQuote? ==>
                fresh(r.value.quote.dataPoints["option"].options)
    {
      Register(MarketSelectors);
      Send(ReqMktData(1, instrument, "", true));
      var ticks := DrainTicks();
      if ticks.Err? {
        r := Err(ticks.error);
        return;
      }
      Unregister(MarketSelectors);
      OptionIsNotAPriceField();
      var quote := QuoteOf(instrument, ticks.value);
      r := Ok(quote);
    }
  }
}

/** untws/market_data.py: market data quotes, a read-only map from field names to
    values, and the option quote whose mid point is derived from bid and ask on first
    use and then cached. */
module MarketData {
  import opened Errors

  /** MarketDataQuoteBase: the quote's fields and their values. */
  datatype Quote<V> = Quote(dataPoints: map<string, V>) {

    /** available_fields: the names of the fields the quote holds. */
    function AvailableFields(): (fields: set<string>)
      ensures forall f :: f in fields <==> f in dataPoints
    {
      dataPoints.Keys
    }

    /** get(field): the stored value, or AttributeError naming the missing field. */
    function Get(field: string): (r: Result<V>)
      ensures r.Ok? <==> field in AvailableFields()
      ensures r.Ok? ==> r.value == dataPoints[field]
      ensures r.Err? ==> r.error == AttributeError(field)
    {
      if field in dataPoints then Ok(dataPoints[field]) else Err(AttributeError(field))
    }
  }

  /** The value of a field of an instrument quote: a price, or (under "option") the
      option quote. */
  datatype QuoteValue = Price(price: real) | OptionQuote(options: OptionDataQuote)

  /** MarketDataQuoteInstrument: a quote together with the instrument it is about. */
  datatype InstrumentQuote<I> = InstrumentQuote(instrument: I, quote: Quote<QuoteValue>)

  /** Calling MarketDataQuoteBase.__init__(self, data_points) through a bound super()
      object: the receiver is already bound, so the call takes exactly one explicit
      argument, the data points (the last one passed); any other number of arguments
      raises TypeError before the body runs. */
  function BoundBaseInit<V>(explicitArguments: nat, points: map<string, V>): (r: Result<Quote<V>>)
    ensures r.Ok? <==> explicitArguments == 1
    ensures r.Ok? ==> r.value.AvailableFields() == points.Keys
    ensures r.Ok? ==> forall f :: f in points ==> r.value.Get(f) == Ok(points[f])
    ensures r.Err? ==> r.error == TypeError
  {
    if explicitArguments == 1 then Ok(Quote(points)) else Err(TypeError)
  }

  /** MarketDataQuoteInstrument.__init__ as written: super().__init__(self, data_points)
      passes the receiver a second time, two explicit arguments. */
  function InstrumentQuoteInitAsWritten<I>(instrument: I, points: map<string, QuoteValue>): (r: Result<InstrumentQuote<I>>)
    ensures r.Ok? ==> r.value.instrument == instrument
  {
    match BoundBaseInit(2, points)
    case Ok(base) => Ok(InstrumentQuote(instrument, base))
    case Err(e) => Err(e)
  }

  /** As written, no instrument quote can be built. */
  lemma InstrumentQuoteInitAlwaysRaises<I>(instrument: I, points: map<string, QuoteValue>)
    ensures InstrumentQuoteInitAsWritten(instrument, points) == Err(TypeError)
  {
  }

  /** MarketDataQuoteInstrument(instrument, data_points) as intended: the base stores the
      data points and the instrument property returns the instrument passed in. */
  function InstrumentQuoteInit<I>(instrument: I, points: map<string, QuoteValue>): (r: Result<InstrumentQuote<I>>)
    ensures r.Ok?
    ensures r.value.instrument == instrument && r.value.quote == Quote(points)
    ensures r.value.quote.AvailableFields() == points.Keys
    ensures forall f :: f in points ==> r.value.quote.Get(f) == Ok(points[f])
  {
    match BoundBaseInit(1, points)
    case Ok(base) => Ok(InstrumentQuote(instrument, base))
    case Err(e) => Err(e)
  }

  /** OptionDataQuote.__init__ as written: the same doubled receiver. */
  function OptionQuoteInitAsWritten(points: map<string, Quote<real>>): (r: Result<Quote<Quote<real>>>)
    ensures r.Ok? ==> r.value.dataPoints == points
  {
    BoundBaseInit(2, points)
  }

  /** As written, no option quote can be built. */
  lemma OptionQuoteInitAlwaysRaises(points: map<string, Quote<real>>)
    ensures OptionQuoteInitAsWritten(points) == Err(TypeError)
  {
  }

  /** The mid point of two quotes: the fields both carry, each at the average of the
      two values. */
  function MidOf(bid: Quote<real>, ask: Quote<real>): (mid: Quote<real>)
    ensures mid.AvailableFields() == bid.AvailableFields() * ask.AvailableFields()
    ensures forall f :: f in mid.dataPoints ==>
              mid.dataPoints[f] - bid.dataPoints[f] == ask.dataPoints[f] - mid.dataPoints[f]
  {
    Quote(map f | f in bid.dataPoints && f in ask.dataPoints :: (bid.dataPoints[f] + ask.dataPoints[f]) / 2.0)
  }

  /** The mid has exactly the fields common to bid and ask. */
  lemma MidFieldsAreCommon(bid: Quote<real>, ask: Quote<real>)
    ensures MidOf(bid, ask).AvailableFields() == bid.AvailableFields() * ask.AvailableFields()
  {
  }

  /** Each mid value lies between the bid and ask values it is derived from, and is
      their average. */
  lemma MidBetweenBidAndAsk(bid: Quote<real>, ask: Quote<real>, f: string)
    requires f in bid.dataPoints && f in ask.dataPoints
    ensures var b, a, m := bid.dataPoints[f], ask.dataPoints[f], MidOf(bid, ask).Get(f);
      && m.Ok? && m.value == (b + a) / 2.0
      && (b <= a ==> b <= m.value <= a)
      && (a <= b ==> a <= m.value <= b)
  {
  }

  /** Swapping bid and ask does not change the mid. */
  lemma MidSymmetric(bid: Quote<real>, ask: Quote<real>)
    ensures MidOf(bid, ask) == MidOf(ask, bid)
  {
  }

  /** The mid of a quote with itself is that quote. */
  lemma MidOfSameQuote(q: Quote<real>)
    ensures MidOf(q, q) == q
  {
  }

  /** Bid {price 1.0, delta 0.5} and ask {price 1.2, delta 0.7} give the mid
      {price 1.1, delta 0.6}. */
  lemma MidExample()
    ensures MidOf(Quote(map["price" := 1.0, "delta" := 0.5]), Quote(map["price" := 1.2, "delta" := 0.7]))
         == Quote(map["price" := 1.1, "delta" := 0.6])
  {
  }

  /** The loop that builds the mid map: for each field of bid that ask also has, store
      the average. */
  method MidPoints(bid: Quote<real>, ask: Quote<real>) returns (mid: Quote<real>)
    ensures mid == MidOf(bid, ask)
  {
    var points: map<string, real> := map[];
    var todo := bid.AvailableFields();
    while todo != {}
      invariant todo <= bid.dataPoints.Keys
      invariant forall f :: f in points <==> f in bid.dataPoints && f !in todo && f in ask.dataPoints
      invariant forall f :: f in points ==> points[f] == (bid.dataPoints[f] + ask.dataPoints[f]) / 2.0
      decreases todo
    {
      var f :| f in todo;
      if f in ask.AvailableFields() {
        points := points[f := (bid.dataPoints[f] + ask.dataPoints[f]) / 2.0];
      }
      todo := todo - {f};
    }
    mid := Quote(points);
  }

  /** OptionDataQuote: a quote whose fields (bid, ask, last, model, and once derived
      mid) are themselves quotes of option figures. */
  class OptionDataQuote {
    var dataPoints: map<string, Quote<real>>

    /** OptionDataQuote(data_points), as intended: the base stores the data points. */
    constructor (points: map<string, Quote<real>>)
      ensures dataPoints == points
    {
      dataPoints := points;
    }

    /** The quote the object currently is. */
    function AsQuote(): Quote<Quote<real>>
      reads this
    {
      Quote(dataPoints)
    }

    /** The mid property: a stored mid is returned as it is; otherwise both bid and ask
        are needed, the mid is derived from them, stored under "mid" and returned. No
        other field changes. */
    method Mid() returns (r: Result<Quote<real>>)
      modifies this
      ensures "mid" in old(dataPoints) ==> r == Ok(old(dataPoints)["mid"]) && dataPoints == old(dataPoints)
      ensures "mid" !in old(dataPoints) && ("bid" !in old(dataPoints) || "ask" !in old(dataPoints)) ==>
                r == Err(MidUnavailable) && dataPoints == old(dataPoints)
      ensures "mid" !in old(dataPoints) && "bid" in old(dataPoints) && "ask" in old(dataPoints) ==>
                && r == Ok(MidOf(old(dataPoints)["bid"], old(dataPoints)["ask"]))
                && dataPoints == old(dataPoints)["mid" := r.value]
      ensures r.Ok? ==> AsQuote().Get("mid") == r
    {
      if "mid" in AsQuote().AvailableFields() {
        r := AsQuote().Get("mid");
        return;
      }
      if !("bid" in AsQuote().AvailableFields() && "ask" in AsQuote().AvailableFields()) {
        r := Err(MidUnavailable);
        return;
      }
      var mid := MidPoints(dataPoints["bid"], dataPoints["ask"]);
      dataPoints := dataPoints["mid" := mid];
      r := AsQuote().Get("mid");
    }
  }

  /** Asking for the mid twice: the second call returns what the first one derived,
      and leaves the fields as the first call left them. */
  method MidTwice(q: OptionDataQuote) returns (first: Result<Quote<real>>, second: Result<Quote<real>>)
    modifies q
    ensures first.Ok? ==> second == first && q.dataPoints == old(q.dataPoints)["mid" := first.value]
    ensures first.Err? ==> second == first && q.dataPoints == old(q.dataPoints)
  {
    first := q.Mid();
    second := q.Mid();
  }
}

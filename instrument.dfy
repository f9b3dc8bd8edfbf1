/** untws/instrument.py: translating a raw contract descriptor into a Stock or a
    StockOption. */
module Instruments {
  import opened Errors
  import opened PyDates

  /** The fields of an ib.ext.Contract descriptor that the facade sets or reads. */
  datatype Contract = Contract(
    secType: string, localSymbol: string, symbol: string, conId: int,
    currency: string, exchange: string, primaryExch: string,
    multiplier: string, right: string, strike: real, expiry: string)

  datatype OptionType = Call | Put

  /** Instrument and its two variants. `connection` is the back-reference to the
      connection the instrument was translated by; its type is left open so that the
      connection, which builds instruments, can be modelled on top of this module. */
  datatype Instrument<C> =
    | Stock(connection: C, ticker: string, conid: int, currency: string, exchange: string)
    | StockOption(
        connection: C, ticker: string, conid: int, currency: string, exchange: string,
        underlying: string, contractSize: string, optionType: OptionType,
        strikePrice: real, expirationDate: Date)

  /** The fields Instrument.__init__ copies: the local symbol is the ticker and the
      primary exchange (not the routing exchange) is the exchange. */
  ghost predicate BaseFieldsCopied<C>(i: Instrument<C>, connection: C, contract: Contract)
  {
    && i.connection == connection
    && i.ticker == contract.localSymbol
    && i.conid == contract.conId
    && i.currency == contract.currency
    && i.exchange == contract.primaryExch
  }

  /** StockOption(connection, contract): the base fields, then the option fields; the
      expiry must be a YYYYMMDD date or the construction raises. */
  function NewStockOption<C>(connection: C, contract: Contract): (r: Result<Instrument<C>>)
    ensures r.Ok? <==> StrptimeYmd(contract.expiry).Ok?
    ensures r.Err? ==> r.error == StrptimeYmd(contract.expiry).error
    ensures r.Ok? ==> && r.value.StockOption?
                      && BaseFieldsCopied(r.value, connection, contract)
                      && r.value.underlying == contract.symbol
                      && r.value.contractSize == contract.multiplier
                      && r.value.strikePrice == contract.strike
                      && (r.value.optionType == Call <==> contract.right == "C")
                      && r.value.expirationDate == StrptimeYmd(contract.expiry).value
  {
    var expiration :- StrptimeYmd(contract.expiry);
    Ok(StockOption(
      connection, contract.localSymbol, contract.conId, contract.currency, contract.primaryExch,
      contract.symbol, contract.multiplier,
      if contract.right == "C" then Call else Put,
      contract.strike, expiration))
  }

  /** create_instrument: dispatch on the security type. */
  function CreateInstrument<C>(connection: C, contract: Contract): (r: Result<Instrument<C>>)
    ensures (r.Ok? && r.value.Stock?) <==> contract.secType == "STK"
    ensures r.Ok? && r.value.StockOption? ==> contract.secType == "OPT"
    ensures contract.secType == "OPT" ==> r == NewStockOption(connection, contract)
    ensures contract.secType != "STK" && contract.secType != "OPT" ==>
              r == Err(UnsupportedSecType(contract.secType, contract.localSymbol))
    ensures r.Ok? ==> BaseFieldsCopied(r.value, connection, contract)
  {
    if contract.secType == "STK" then
      Ok(Stock(connection, contract.localSymbol, contract.conId, contract.currency, contract.primaryExch))
    else if contract.secType == "OPT" then
      NewStockOption(connection, contract)
    else
      Err(UnsupportedSecType(contract.secType, contract.localSymbol))
  }

  /** A Stock carries only the base fields: contracts that agree on them translate to
      the same Stock, whatever their option fields and routing exchange. */
  lemma StockCarriesOnlyBaseFields<C>(connection: C, a: Contract, b: Contract)
    requires a.secType == "STK" && b.secType == "STK"
    requires a.localSymbol == b.localSymbol && a.conId == b.conId
    requires a.currency == b.currency && a.primaryExch == b.primaryExch
    ensures CreateInstrument(connection, a) == CreateInstrument(connection, b)
  {
  }

  /** An option contract whose expiry is eight ASCII digits translates exactly when
      those digits are a valid YYYYMMDD date, and then expires on that date. */
  lemma OptionExpiryFromDigits<C>(connection: C, contract: Contract)
    requires contract.secType == "OPT" && |contract.expiry| == 8 && AllDigits(contract.expiry)
    ensures var e := contract.expiry;
      var y, m, d := DigitsValue(e[..4]), DigitsValue(e[4..6]), DigitsValue(e[6..]);
      && (CreateInstrument(connection, contract).Ok? <==> IsValidDate(y, m, d))
      && (CreateInstrument(connection, contract).Ok? ==>
            CreateInstrument(connection, contract).value.expirationDate == Date(y, m, d))
  {
    StrptimeOfDigits(contract.expiry);
  }

  /** An expiry written from a valid date translates back to that date. */
  lemma OptionExpiryRoundTrip<C>(connection: C, contract: Contract, expiry: Date)
    requires contract.secType == "OPT" && IsValidDate(expiry.year, expiry.month, expiry.day)
    requires contract.expiry == FormatYmd(expiry)
    ensures CreateInstrument(connection, contract).Ok?
    ensures CreateInstrument(connection, contract).value.expirationDate == expiry
  {
    StrptimeRoundTrip(expiry);
  }

  /** Example: a call on strike 50 expiring 18 January 2014. */
  lemma CallOptionExample<C>(connection: C, contract: Contract)
    requires contract.secType == "OPT" && contract.right == "C" && contract.strike == 50.0
    requires contract.expiry == FormatYmd(Date(2014, 1, 18))
    ensures var r := CreateInstrument(connection, contract);
      && r.Ok? && r.value.optionType == Call && r.value.strikePrice == 50.0
      && r.value.expirationDate == Date(2014, 1, 18)
  {
    OptionExpiryRoundTrip(connection, contract, Date(2014, 1, 18));
  }
}

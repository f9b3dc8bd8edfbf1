/** untws/position.py: one account position, with its contract translated into an
    instrument. */
module Positions {
  import opened Errors
  import opened Instruments

  /** Position: read-only after construction; `connection` is the back-reference to the
      connection that produced it. */
  datatype Position<C> = Position(
    connection: C, accountName: string, instrument: Instrument<C>, quantity: int,
    price: real, averageCost: real, marketValue: real, realizedPnl: real, unrealizedPnl: real)

  /** Position(connection, account_name, instrument, ...): every argument is stored as
      given except the contract, which goes through create_instrument; when that raises,
      so does the construction, with the same error. */
  function NewPosition<C>(
    connection: C, accountName: string, contract: Contract, quantity: int, price: real,
    averageCost: real, marketValue: real, realizedPnl: real, unrealizedPnl: real): (r: Result<Position<C>>)
    ensures r.Ok? <==> CreateInstrument(connection, contract).Ok?
    ensures r.Err? ==> r.error == CreateInstrument(connection, contract).error
    ensures r.Ok? ==> && r.value.instrument == CreateInstrument(connection, contract).value
                      && r.value.connection == connection && r.value.accountName == accountName
                      && r.value.quantity == quantity && r.value.price == price
                      && r.value.averageCost == averageCost && r.value.marketValue == marketValue
                      && r.value.realizedPnl == realizedPnl && r.value.unrealizedPnl == unrealizedPnl
  {
    var instrument :- CreateInstrument(connection, contract);
    Ok(Position(connection, accountName, instrument, quantity, price, averageCost, marketValue,
                realizedPnl, unrealizedPnl))
  }

  /** A position on a contract that is neither a stock nor an option cannot be built:
      the construction raises create_instrument's error. */
  lemma PositionOfUnsupportedContract<C>(
    connection: C, accountName: string, contract: Contract, quantity: int, price: real,
    averageCost: real, marketValue: real, realizedPnl: real, unrealizedPnl: real)
    requires contract.secType != "STK" && contract.secType != "OPT"
    ensures NewPosition(connection, accountName, contract, quantity, price, averageCost,
                        marketValue, realizedPnl, unrealizedPnl)
         == Err(UnsupportedSecType(contract.secType, contract.localSymbol))
  {
  }

  /** The instrument of a position on a stock has the stock's ticker, and the position
      refers to the same connection as its instrument. */
  lemma StockPositionShape<C>(
    connection: C, accountName: string, contract: Contract, quantity: int, price: real,
    averageCost: real, marketValue: real, realizedPnl: real, unrealizedPnl: real)
    requires contract.secType == "STK"
    ensures var r := NewPosition(connection, accountName, contract, quantity, price, averageCost,
                                 marketValue, realizedPnl, unrealizedPnl);
      && r.Ok? && r.value.instrument.Stock?
      && r.value.instrument.ticker == contract.localSymbol
      && r.value.instrument.connection == r.value.connection
  {
  }
}

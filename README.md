# untws core, modelled in Dafny

untws is a thin Python facade over the Interactive Brokers TWS API. A connection object
registers a callback for a few message types, sends one request, and pops messages from
its inbound queue until a terminator arrives. It folds the messages into a result and
then unregisters. The messages it reads are translated into values: account positions,
stocks and options, market data quotes and historical bars.

This project models that core in Dafny, one module per source file:

- `connection.dfy` (module `Connection`): the field-code tables, the message and request
  types, and the contract tickets. It also holds the `IBConnection` class: a queue of
  inbound messages, the set of message types the callback is registered for, and a
  ghost log of the calls made into the transport. Its three queries, `GetCurrentTime`,
  `GetPositions` and `GetMarketData`, are methods whose drain loops are proved against
  pure specifications. `MarketDataDrain` folds ticks with `FoldTicks`; `PositionsDrain`
  translates account updates one by one.
- `market_data.dfy` (module `MarketData`): the quote as a read-only field map with
  `Get` and `AvailableFields`. `OptionDataQuote` is a class whose `Mid` derives the mid
  point from bid and ask on first use and caches it. The loop that builds the mid
  (`MidPoints`) is proved against `MidOf`.
- `instrument.dfy` (module `Instruments`): `CreateInstrument` dispatches on the
  security type to a `Stock` or a `StockOption`.
- `position.dfy` (module `Positions`): `NewPosition` stores its arguments and
  translates the contract through `CreateInstrument`.
- `historical_data.dfy` (module `HistoricalData`): `ParseDate` covers both the
  eight-character `YYYYMMDD` form and the split-on-spaces date-and-time form, and
  `NewHistoricalDataPoint` builds a bar.
- `pydates.dfy` (module `PyDates`) and `errors.dfy` (module `Errors`): the Python 2
  library behaviour the core relies on, and the exceptions it raises. The library part
  is `int()` on a string, the proleptic Gregorian calendar, and the regular expression
  `datetime.strptime` uses for `'%Y%m%d'`. Exceptions are results of type `Result`.

Python exceptions are `Err` values. A query that raises still changes the connection
state exactly as the source does before the raise.

Two behaviours of the code on its error paths are modelled as written:
- The code does not tear the registration down on an error path. The callback stays
  registered and the messages already popped are gone.
- A foreign message in `get_current_time` or `get_positions` fails an `assert`
  (`AssertionFailed`); only `get_market_data` raises an unexpected-message error.

One behaviour is not modelled as written. `get_market_data` builds its result with the quote
initializers, and as written those always raise TypeError (see "## Findings"). The model
builds the quote with the corrected initializers instead, so `GetMarketData` returns a
quote where the source raises. "## Left out" says so under that member.

## Model

| member | source | states |
|---|---|---|
| PyDates.PyInt | untws/historical_data.py:17 | `int()` succeeds only on a string that holds an ASCII digit; anything else raises ValueError |
| PyDates.StrptimeYmd | untws/instrument.py:77-80 | strptime('%Y%m%d') raises only ValueError; a result is a valid date whose year is the first four digits, from a string of six to eight characters |
| PyDates.ConvertMatch | untws/instrument.py:77-80 | after the regular expression matches, the conversion succeeds only when the whole string was matched and the fields form a valid date, keeping the four-digit year |
| PyDates.DaysInMonth | untws/historical_data.py:17 | every month has 28 to 31 days, and 29 exactly for February of a leap year |
| PyDates.IsValidDate | untws/historical_data.py:17-27 | what `date()` and `datetime()` accept: every day up to the 28th of a month of years 1 to 9999, never a day past the 31st or a month outside 1 to 12, and 29 February only in a leap year |
| PyDates.IsValidTime | untws/historical_data.py:20-27 | what `datetime()` accepts as a time of day: a moment within the 86400 seconds of one day |
| PyDates.PyIntOfDigits | untws/historical_data.py:17 | `int()` of a non-empty run of ASCII digits is the number the digits write |
| PyDates.ZeroPadValue | untws/historical_data.py:16-17 | writing a number zero-padded to a width it fits in and reading the digits back gives the number (the inverse used by the round trips) |
| PyDates.FormatYmdFields | untws/historical_data.py:16-17 | the `YYYYMMDD` text of a valid date has the year, month and day in slices [0:4], [4:6] and [6:8] |
| PyDates.StrptimeOfDigits | untws/instrument.py:77-80 | on eight ASCII digits `strptime('%Y%m%d')` succeeds exactly when slices [0:4], [4:6], [6:8] form a valid date, and returns that date; otherwise ValueError |
| PyDates.StrptimeOfShortMatch | untws/instrument.py:77-80 | on eight characters, if the regular expression does not match two-digit month and day groups first, strptime raises ValueError |
| PyDates.ValidDateMatchesTwoDigitFields | untws/instrument.py:77-80 | when the digit pairs form a valid date, the first match of the regular expression is two-digit month and day |
| PyDates.StrptimeRoundTrip | untws/instrument.py:77-80 | strptime of the `YYYYMMDD` text of a valid date gives the date back |
| HistoricalData.SplitOn | untws/historical_data.py:19 | `str.split(' ')` yields at least one piece, and no piece contains the separator |
| HistoricalData.JoinSplit | untws/historical_data.py:19 | joining the pieces of a split with the separator gives the string back: splitting loses nothing |
| HistoricalData.NonEmpty | untws/historical_data.py:19 | the filter keeps only non-empty pieces, each one of the input pieces, and keeps every non-empty input piece |
| HistoricalData.NonEmptySingle | untws/historical_data.py:19 | a single piece is kept exactly when it is non-empty |
| HistoricalData.NonEmptyCons | untws/historical_data.py:19 | the filter on a piece followed by more pieces is the piece (if non-empty) followed by the filter on the rest |
| HistoricalData.NonEmptyConcat | untws/historical_data.py:19 | the filter distributes over concatenation, so the kept pieces stay in input order |
| HistoricalData.SplitWithoutSeparator | untws/historical_data.py:19 | a string without the separator splits into itself alone |
| HistoricalData.SplitAfterWord | untws/historical_data.py:19 | a separator-free word followed by the separator splits off as the first piece |
| HistoricalData.LeadingSpacesDropped | untws/historical_data.py:19 | leading spaces add only empty pieces, which the filter drops |
| HistoricalData.TwoWords | untws/historical_data.py:19 | two space-free words separated by any positive number of spaces yield exactly those two pieces |
| HistoricalData.ParseDate | untws/historical_data.py:15-27 | parse_date raises only ValueError; it gives a date exactly for eight-character input and a timestamp otherwise, always a valid date and, with a time part, a valid time |
| HistoricalData.ParseYmd | untws/historical_data.py:16-17 | the eight-character branch gives a valid calendar date or ValueError |
| HistoricalData.ParseDateTime | untws/historical_data.py:20-27 | the two-piece branch gives a valid date with a valid time of day, or ValueError |
| HistoricalData.PySlice | untws/historical_data.py:21-26 | Python's `s[i:j]` clamps both ends to the length: the plain slice when `j` is in range, the tail from `i` when only `i` is, the empty string otherwise, never longer than `j - i` |
| HistoricalData.DateFieldsOfDigits | untws/historical_data.py:21-23 | on an eight-digit date piece, slices [0:4], [4:6] and [6:8] convert to the numbers they write |
| HistoricalData.TimeFieldsOfDigits | untws/historical_data.py:24-26 | on a time piece with digits at [0:2], [3:5] and [6:8], those slices convert to the numbers they write, whatever stands between them |
| HistoricalData.ParseDateTimeOfDigits | untws/historical_data.py:20-27 | on such pieces the two-piece branch gives the timestamp of the six slices exactly when they form a valid date and time of day, and ValueError otherwise |
| HistoricalData.ParseDateOfDateAndTime | untws/historical_data.py:18-27 | parse_date of a date piece, one or more spaces and a time piece gives the timestamp of the six slices when valid and raises ValueError otherwise |
| HistoricalData.ParseDateExampleBadHour | untws/historical_data.py:20-27 | "20130101 24:00:00" (hour 24) is rejected with ValueError |
| HistoricalData.ParseDateNeedsTwoPieces | untws/historical_data.py:18-19 | a string not eight long that does not yield exactly two pieces is rejected with ValueError |
| HistoricalData.TimeSeparatorsUnchecked | untws/historical_data.py:20-27 | the characters at positions 2 and 5 of the time piece do not affect the result |
| HistoricalData.ParseDateOfDigits | untws/historical_data.py:16-17 | on eight digits parse_date returns the date of slices [0:4], [4:6], [6:8] when valid and raises ValueError otherwise |
| HistoricalData.ParseDateAgreesWithStrptime | untws/historical_data.py:16-17 | on eight digits parse_date and strptime('%Y%m%d') accept the same strings and give the same date |
| HistoricalData.ParseDateRoundTrip | untws/historical_data.py:16-17 | parsing the `YYYYMMDD` text of a valid date gives the date back |
| HistoricalData.FormatHms | untws/historical_data.py:20-27 | the `HH:MM:SS` text of a valid time is eight characters without spaces |
| HistoricalData.FormattedDateFields | untws/historical_data.py:20-23 | the date piece of a formatted timestamp reads back, slice by slice, as its year, month and day |
| HistoricalData.FormattedTimeFields | untws/historical_data.py:24-26 | the time piece of a formatted timestamp reads back, slice by slice, as its hour, minute and second |
| HistoricalData.PyIntOfDigitSlice | untws/historical_data.py:21-26 | a clamped slice of digits inside the string converts to the number it writes |
| HistoricalData.FormattedPiecesParse | untws/historical_data.py:20-27 | the date and time pieces of a valid timestamp convert back to that timestamp |
| HistoricalData.ParseDateTimeRoundTrip | untws/historical_data.py:18-27 | `YYYYMMDD`, any positive number of spaces, then `HH:MM:SS` of a valid timestamp parses back to that timestamp |
| HistoricalData.NewHistoricalDataPoint | untws/historical_data.py:32-41 | a bar is built exactly when its date parses, with the parsed date and every other field copied; otherwise the parse error is raised |
| HistoricalData.ParseDateExampleBadMonth | untws/historical_data.py:16-17 | "20131301" (month 13) is rejected with ValueError |
| Instruments.NewStockOption | untws/instrument.py:68-80 | an option is built exactly when the expiry parses; the base fields are copied, the underlying, contract size and strike are kept, the type is call exactly when the right is "C", and the expiry is the parsed date |
| Instruments.CreateInstrument | untws/instrument.py:13-32 | STK gives a Stock, OPT gives the StockOption translation, any other security type raises naming it and the local symbol; the ticker is the local symbol and the exchange is the primary exchange |
| Instruments.StockCarriesOnlyBaseFields | untws/instrument.py:62-66 | two stock contracts that agree on the base fields translate to the same Stock |
| Instruments.OptionExpiryFromDigits | untws/instrument.py:77-80 | an option with an eight-digit expiry translates exactly when the digits form a valid date, and then expires on that date |
| Instruments.OptionExpiryRoundTrip | untws/instrument.py:77-80 | an option whose expiry is the `YYYYMMDD` text of a valid date translates and expires on that date |
| Instruments.CallOptionExample | untws/instrument.py:71-80 | a call on strike 50 expiring 20140118 translates to a call with strike 50 expiring 18 January 2014 |
| Positions.NewPosition | untws/position.py:16-25 | a position is built exactly when its contract translates, storing every other argument unchanged and the translated instrument; otherwise the translation error is raised |
| Positions.PositionOfUnsupportedContract | untws/position.py:19 | a contract that is neither STK nor OPT makes the construction raise create_instrument's error |
| Positions.StockPositionShape | untws/position.py:17-19 | a position on a stock holds a Stock with the stock's ticker and the same connection |
| MarketData.Quote.AvailableFields | untws/market_data.py:19-25 | the available fields are exactly the keys of the stored map |
| MarketData.Quote.Get | untws/market_data.py:30-35 | get returns the stored value of a present field and raises AttributeError naming a missing one |
| MarketData.BoundBaseInit | untws/market_data.py:16-17 | the base initializer, called through super(), accepts exactly one explicit argument and then stores it as the field map; any other count raises TypeError |
| MarketData.InstrumentQuoteInitAsWritten | untws/market_data.py:38-40 | as written the instrument quote is built only through a base call with two explicit arguments |
| MarketData.InstrumentQuoteInitAlwaysRaises | untws/market_data.py:39 | as written every instrument quote construction raises TypeError |
| MarketData.InstrumentQuoteInit | untws/market_data.py:38-45 | as intended the construction succeeds, the instrument property is the instrument passed in, and the quote holds exactly the given fields |
| MarketData.OptionQuoteInitAsWritten | untws/market_data.py:48-49 | as written the option quote is built only through a base call with two explicit arguments |
| MarketData.OptionQuoteInitAlwaysRaises | untws/market_data.py:49 | as written every option quote construction raises TypeError |
| MarketData.OptionDataQuote.constructor | untws/market_data.py:48-49 | as intended the option quote stores the given fields |
| MarketData.MidOf | untws/market_data.py:63-66 | the mid has exactly the fields that bid and ask share, and each value lies as far from the bid value as from the ask value |
| MarketData.MidFieldsAreCommon | untws/market_data.py:63-66 | the mid has exactly the fields that bid and ask both have |
| MarketData.MidBetweenBidAndAsk | untws/market_data.py:66 | each mid value is the average of its bid and ask values and lies between them |
| MarketData.MidSymmetric | untws/market_data.py:63-66 | swapping bid and ask leaves the mid unchanged |
| MarketData.MidOfSameQuote | untws/market_data.py:63-66 | the mid of a quote with itself is that quote |
| MarketData.MidExample | untws/market_data.py:63-66 | bid {price 1.0, delta 0.5} and ask {price 1.2, delta 0.7} give mid {price 1.1, delta 0.6} |
| MarketData.MidPoints | untws/market_data.py:63-66 | the loop over bid's fields builds exactly the mid of bid and ask |
| MarketData.OptionDataQuote.Mid | untws/market_data.py:52-68 | a stored mid is returned unchanged; without both bid and ask the call raises and changes nothing; otherwise the mid of bid and ask is stored under "mid" and returned, and no other field changes |
| MarketData.MidTwice | untws/market_data.py:53-54 | a second mid call returns what the first returned and leaves the fields as the first left them |
| Connection.Event.TypeName | untws/connection.py:75-77 | each known type name belongs to exactly one kind of message |
| Connection.MktDataFields | untws/connection.py:18-25 | the tick-price codes 1, 2, 4, 6, 7 and 9 name the fields bid, ask, last, high, low and close |
| Connection.OptDataFields | untws/connection.py:27-32 | the option-computation codes 10, 11, 12 and 13 name the option quotes bid, ask, last and model |
| Connection.DefaultContract | untws/connection.py:148 | a fresh contract descriptor, with every field empty or zero, which the tickets start from |
| Connection.CreateStock | untws/connection.py:147-153 | the stock ticket has security type STK, the ticker as local symbol, the currency and exchange asked for (USD and SMART by default), and every other field at its default |
| Connection.CreateOptionTicker | untws/connection.py:155-161 | the option ticket is the same with security type OPT |
| Connection.StockTicketTranslation | untws/connection.py:147-153 | a stock ticket translates to a Stock with its ticker and currency and an empty exchange: the routing exchange asked for is not carried over |
| Connection.OptionTicketNotTranslatable | untws/connection.py:155-161 | an option ticket has no expiry, so translating it raises ValueError |
| Connection.OptionIsNotAPriceField | untws/connection.py:18-25 | no price field is named "option", so the option quote never replaces a price |
| Connection.OptionFigures | untws/connection.py:125-134 | the option quote built from an option computation has exactly the eight figure names, each holding the message attribute of the same meaning |
| Connection.TickStep | untws/connection.py:116-134 | one iteration adds or overwrites only the field a known code names (a price for tickPrice, the figures for an option computation), and every other field keeps its value |
| Connection.FoldTicks | untws/connection.py:110-134 | the accumulated price and option fields are only names from the two tables |
| Connection.MarketDataStop | untws/connection.py:112-115 | the market data drain stops at the first message that is not a tick price or option computation |
| Connection.MarketDataStopIsFirst | untws/connection.py:112-115 | any index that ends a run of ticks with another message is that stop |
| Connection.MarketDataDrain | untws/connection.py:112-136 | the drain consumes through the first non-tick; it succeeds exactly when that is tickSnapshotEnd, with fields named only from the tables, and otherwise raises an unexpected-message error naming a type that is not a tick type |
| Connection.MarketDataDrainIgnoresTail | untws/connection.py:112-115 | messages queued after the terminator are neither consumed nor change the result |
| Connection.PriceKeysSeen | untws/connection.py:116-120 | a price field is present exactly when a tick price with a known code for it arrived before the terminator |
| Connection.LastPriceWins | untws/connection.py:120 | a price field holds the price of the last tick delivered for it |
| Connection.OptionKeysSeen | untws/connection.py:121-134 | an option field is present exactly when an option computation with a known code for it arrived |
| Connection.LastOptionWins | untws/connection.py:125-134 | an option field holds the eight figures of the last computation delivered for it |
| Connection.UnknownCodesIgnored | untws/connection.py:117-124 | a tick whose code is in neither table is skipped: removing it changes nothing |
| Connection.PositionOf | untws/connection.py:78-88 | an update's Position is built exactly when its contract translates; it holds the connection, account, quantity, market price, average cost, market value and realized and unrealized P&L of the message |
| Connection.PositionsDrain | untws/connection.py:72-88 | the positions drain consumes at least one message; on success it returns one position per consumed update and ended at accountDownloadEnd |
| Connection.PositionsStop | untws/connection.py:73-77 | the first message that is not an account update |
| Connection.PositionsDrainStep | untws/connection.py:73-88 | one loop iteration: the terminator ends the drain, a foreign message fails the assertion, an update that does not translate raises, any other update is prepended to the rest |
| Connection.PositionsDrainAllTranslate | untws/connection.py:72-88 | when every update translates, the drain consumes through the first other message; it succeeds exactly when that is accountDownloadEnd, with the positions in arrival order, and otherwise fails the assertion |
| Connection.PositionsDrainStopsAtFailure | untws/connection.py:78-88 | the first update whose contract does not translate ends the drain with that error and is the last message consumed |
| Connection.PositionsDrainIgnoresTail | untws/connection.py:73-76 | messages queued after the message that ends the drain are neither consumed nor change the result |
| Connection.IBConnection.constructor | untws/connection.py:45 | a new connection has an empty queue, nothing registered and nothing sent |
| Connection.IBConnection.ProcessMessage | untws/connection.py:47-49 | the callback appends the message to the queue and changes nothing else |
| Connection.IBConnection.Pop | untws/connection.py:57 | the oldest message is taken off the queue |
| Connection.IBConnection.Register | untws/connection.py:55 | registering adds the message types and logs the call |
| Connection.IBConnection.Unregister | untws/connection.py:59 | unregistering removes the message types and logs the call |
| Connection.IBConnection.Send | untws/connection.py:56 | sending logs the request and changes nothing else |
| Connection.IBConnection.GetCurrentTime | untws/connection.py:51-60 | exactly one message is popped; a currentTime yields its time, after register, request and unregister; anything else fails the assertion with the callback still registered |
| Connection.IBConnection.DrainPositions | untws/connection.py:72-88 | the loop returns what PositionsDrain says and pops exactly the messages it consumes |
| Connection.IBConnection.GetPositions | untws/connection.py:62-95 | register, subscribe with flag 1, drain, subscribe with flag 0, unregister, in that order; on an error neither of the last two happens; on success the registered set loses the position message types, which restores it only when none of them was registered before the call |
| Connection.IBConnection.DrainTicks | untws/connection.py:110-136 | the loop returns what MarketDataDrain says and pops exactly the messages it consumes |
| Connection.IBConnection.QuoteOf | untws/connection.py:143-145 | the result quote holds one price per price field, and under "option" a new option quote with the option fields exactly when there are any |
| Connection.IBConnection.GetMarketData | untws/connection.py:97-145 | register, snapshot request for the instrument, drain, unregister; the quote is built from the folded ticks; a foreign message raises naming its type and skips the unregistration |

## Left out

- The network transport is not modelled. Opening the connection with a random client
  id, the wire protocol and the IbPy dispatcher are foreign-library I/O. The transport
  appears only as the registered set and the ghost log of calls.
- The background reader thread and the blocking `Queue.get` are not modelled. The
  queue is filled by `ProcessMessage` beforehand, and each query requires that the
  queue already holds a message that ends its drain (for `GetCurrentTime`, any
  message).
- Connection.IBConnection.GetPositions: requires a queued message that is not an
  updatePortfolio (`EndsPositionDrain`). This excludes a queue of updates only, one of
  whose contracts does not translate, where the source raises without blocking. Such a
  queue is covered only by appending any terminator, which `PositionsDrainIgnoresTail`
  shows does not change the result. The same holds for `DrainPositions`.
- Connection.IBConnection.GetMarketData: returns the quote that the corrected
  initializers (`InstrumentQuoteInit` and `OptionDataQuote`'s constructor) build. As
  written, untws/connection.py:145 (and :144 when option ticks arrived) calls
  initializers that always raise TypeError. That happens after the unregistration, so
  the source never returns a quote. The as-written behaviour is stated by
  `InstrumentQuoteInitAlwaysRaises` and `OptionQuoteInitAlwaysRaises` and is not
  threaded through `GetMarketData`.
- Connection.IBConnection.GetCurrentTime: returns the epoch seconds instead of
  `datetime.fromtimestamp`, whose result depends on the local time zone.
- Prices are mathematical reals. Float rounding in the mid point, and Python 2 integer
  division when both prices are integers, are not modelled.
- MarketData.OptionDataQuote.Mid: states value equality of the returned quotes. It does
  not model that Python returns the same object on the second call.
- MarketData.Quote.AvailableFields: a set of names rather than Python 2's key list,
  whose order the source does not fix.
- Attribute access through `__getattr__` (e.g. `quote.bid`) is modelled as `Get`, which
  is all that `__getattr__` calls.
- `__repr__`, the read-only properties that only return a stored field, and the
  `__main__` block are not modelled. The `__main__` block refers to an undefined
  `Connection`.
- Host and port resolution from the environment in `untws/__init__.py` is not
  modelled. It is configuration that ends in a network connect.
- Historical-data requests are not modelled: `get_historical_data` is not part of
  `untws/connection.py`. Only the bar translation and `parse_date` are.
- ib.ext.Contract is not part of this model. A fresh contract descriptor is taken to
  have empty strings and zeros; the lemmas on the tickets depend on those defaults.
- Messages carry only the attributes the core reads. The ticker id of tick messages
  is not checked by the source and is left out.
- Python `assert` statements are modelled as always enabled (no `-O`).
- Strings are sequences of characters, while a Python 2 `str` is bytes. So
  `len(s) == 8` in `parse_date` counts characters here and bytes in the source. The two
  differ only for non-ASCII text, which a date string from the server does not hold.

## Findings

| source | as written | input that shows it | evidently intended | confidence | as-written member | corrected member |
|---|---|---|---|---|---|---|
| untws/market_data.py:39 | MarketDataQuoteInstrument's initializer calls the base initializer through `super()`, which already binds the receiver, and passes the receiver again, so the call gets two explicit arguments where one is accepted; `InstrumentQuoteInitAlwaysRaises` shows that every construction raises TypeError | any instrument and field map, e.g. the result of any `get_market_data` call whose drain reaches the snapshot end | the base stores the field map and the quote holds the instrument | high, not executed | MarketData.InstrumentQuoteInitAsWritten | MarketData.InstrumentQuoteInit |
| untws/market_data.py:49 | OptionDataQuote's initializer makes the same call with the receiver passed twice; `OptionQuoteInitAlwaysRaises` shows that every construction raises TypeError | any option field map, e.g. a snapshot that delivered one option computation with a known code | the base stores the option fields | high, not executed | MarketData.OptionQuoteInitAsWritten | MarketData.OptionDataQuote.constructor |

/** `get_portfolio_info`: one row per portfolio position, in portfolio order. */
module Portfolio {
  import opened Brokerage

  /** The dictionary the source builds per position. */
  datatype PortfolioRow = PortfolioRow(
    ticker: string,
    name: string,
    currency: Currency,
    currentTotal: real,
    lots: real,
    avgPrice: real)

  /**
    The row of one position: its ticker, its display name (which ends with
    its figi in parentheses), the currency and value of its average price,
    its balance as the lot count, and its current total (balance times
    average price plus expected yield, rounded by `round2`).
   */
  ghost predicate Describes(row: PortfolioRow, p: Position, search: string -> MarketInstrument, round2: real -> real) {
    && row.ticker == p.ticker
    && row.name == NameByFigi(p.figi, search)
    && |row.name| >= |p.figi| + 2
    && row.name[|row.name| - |p.figi| - 2..] == "(" + p.figi + ")"
    && row.currency == p.averagePositionPrice.currency
    && row.currentTotal == round2(PositionValue(p))
    && row.lots == p.balance
    && row.avgPrice == p.averagePositionPrice.value
  }

  /** One row per position, in portfolio order. */
  method PortfolioInfo(positions: seq<Position>, search: string -> MarketInstrument, round2: real -> real)
    returns (rows: seq<PortfolioRow>)
    ensures |rows| == |positions|
    ensures forall i :: 0 <= i < |rows| ==> Describes(rows[i], positions[i], search, round2)
  {
    rows := [];
    for i := 0 to |positions|
      invariant |rows| == i
      invariant forall k :: 0 <= k < i ==> Describes(rows[k], positions[k], search, round2)
    {
      var item := positions[i];
      NameByFigiParts(item.figi, search);
      assert item.averagePositionPrice.value * item.balance + item.expectedYield.value == PositionValue(item);
      var currentTotal := round2(item.averagePositionPrice.value * item.balance + item.expectedYield.value);
      var row := PortfolioRow(item.ticker, NameByFigi(item.figi, search), item.averagePositionPrice.currency,
                              currentTotal, item.balance, item.averagePositionPrice.value);
      assert Describes(row, item, search, round2);
      rows := rows + [row];
    }
  }
}

/**
  The records the brokerage interface hands to the calculator: operations,
  portfolio positions and the market data used for display names. Amounts
  are exact reals; the source holds them as floating-point numbers.
 */
module Brokerage {
  import opened Wrappers

  /** Operation types the brokerage reports (its `OperationTypeWithCommission`). */
  datatype OperationType =
    | Buy | BuyCard | Sell
    | BrokerCommission | ExchangeCommission | ServiceCommission | MarginCommission | OtherCommission
    | PayIn | PayOut
    | Tax | TaxLucre | TaxDividend | TaxCoupon | TaxBack
    | Repayment | PartRepayment | Coupon | Dividend
    | SecurityIn | SecurityOut

  datatype Currency = RUB | USD | EUR | GBP | HKD | CHF | JPY | CNY | TRY

  datatype InstrumentType = Stock | Bond | Etf | CurrencyInstrument

  /** The calculator's default currency (common.py line 10). */
  const DefaultCurrency: Currency := RUB

  /** How a currency key prints: the API's currency codes are strings. */
  function CurrencyName(c: Currency): (s: string)
    ensures |s| == 3
  {
    match c
    case RUB => "RUB" case USD => "USD" case EUR => "EUR"
    case GBP => "GBP" case HKD => "HKD" case CHF => "CHF"
    case JPY => "JPY" case CNY => "CNY" case TRY => "TRY"
  }

  datatype MoneyAmount = MoneyAmount(currency: Currency, value: real)

  /**
    One operation. `instrumentType` is `None` for operations that concern no
    instrument (pay-ins, service fees); `commission` is `None` when the
    brokerage reports no commission.
   */
  datatype Operation = Operation(
    opType: OperationType,
    currency: Currency,
    payment: real,
    figi: string,
    instrumentType: Option<InstrumentType>,
    commission: Option<MoneyAmount>)

  /** One held position of the portfolio. */
  datatype Position = Position(
    figi: string,
    ticker: string,
    balance: real,
    averagePositionPrice: MoneyAmount,
    expectedYield: MoneyAmount)

  /** What the market search by figi answers: the instrument's ticker and name. */
  datatype MarketInstrument = MarketInstrument(ticker: string, name: string)

  /**
    The value of a position: balance times average price plus expected yield
    (the same quantity serves the profit map and the portfolio listing).
   */
  function PositionValue(p: Position): real {
    p.balance * p.averagePositionPrice.value + p.expectedYield.value
  }

  /**
    The display name of an instrument, `"<ticker> - <name> (<figi>)"`; the
    market search is a parameter. It always ends with `)`.
   */
  function NameByFigi(figi: string, search: string -> MarketInstrument): (s: string)
    ensures |s| > 0 && s[|s| - 1] == ')'
  {
    var m := search(figi);
    m.ticker + " - " + m.name + " (" + figi + ")"
  }

  /** The display name starts with the ticker and ends with the figi in parentheses. */
  lemma NameByFigiParts(figi: string, search: string -> MarketInstrument)
    ensures var s := NameByFigi(figi, search);
      && |s| >= |search(figi).ticker| + |figi| + 6
      && s[..|search(figi).ticker|] == search(figi).ticker
      && s[|s| - 2 - |figi|..] == "(" + figi + ")"
  {
    var m := search(figi);
    var s := NameByFigi(figi, search);
    assert s == m.ticker + (" - " + m.name + " (" + figi + ")");
    assert s == (m.ticker + " - " + m.name + " ") + ("(" + figi + ")");
  }

  /** A shorter figi cannot end the display name of a longer one without a `(` inside the longer one. */
  lemma NameByFigiShorter(f1: string, f2: string, search: string -> MarketInstrument)
    requires |f1| < |f2| && '(' !in f2
    ensures NameByFigi(f1, search) != NameByFigi(f2, search)
  {
    NameByFigiParts(f1, search);
    NameByFigiParts(f2, search);
    var s1, s2 := NameByFigi(f1, search), NameByFigi(f2, search);
    if |s1| == |s2| {
      var j := |s1| - 2 - |f1|;
      assert s1[j] == ("(" + f1 + ")")[0] == '(';
      var k := j - (|s2| - 2 - |f2|);
      assert 1 <= k <= |f2|;
      assert s2[j] == ("(" + f2 + ")")[k] == f2[k - 1];
      assert f2[k - 1] in f2;
    }
  }

  /**
    Figis without `(` have distinct display names: the name ends with the
    figi in parentheses, so its last `(` tells where the figi starts.
   */
  lemma NameByFigiInjective(f1: string, f2: string, search: string -> MarketInstrument)
    requires '(' !in f1 && '(' !in f2
    requires NameByFigi(f1, search) == NameByFigi(f2, search)
    ensures f1 == f2
  {
    if |f1| < |f2| {
      NameByFigiShorter(f1, f2, search);
    } else if |f2| < |f1| {
      NameByFigiShorter(f2, f1, search);
    } else {
      NameByFigiParts(f1, search);
      NameByFigiParts(f2, search);
      var s := NameByFigi(f1, search);
      assert "(" + f1 + ")" == s[|s| - 2 - |f1|..] == "(" + f2 + ")";
      assert f1 == ("(" + f1 + ")")[1..|f1| + 1];
      assert f2 == ("(" + f2 + ")")[1..|f2| + 1];
    }
  }
}

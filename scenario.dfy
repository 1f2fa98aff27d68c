/**
  A worked account: a pay-in of 1000 RUB, a broker commission of 5 RUB and a
  buy of shares of instrument `X` for 300 RUB, with an empty portfolio.
 */
module Scenario {
  import opened Wrappers
  import opened Dicts
  import opened Brokerage
  import opened Aggregation
  import opened Statistics
  import opened Profit
  import opened Formatting

  const PayInOp: Operation := Operation(PayIn, RUB, 1000.0, "", None, None)
  const CommissionOp: Operation := Operation(BrokerCommission, RUB, -5.0, "", None, None)
  const BuyOp: Operation := Operation(Buy, RUB, -300.0, "X", Some(Stock), None)
  const Account: seq<Operation> := [PayInOp, CommissionOp, BuyOp]

  lemma FilterThree(x: Operation, y: Operation, z: Operation, keep: Operation -> bool)
    ensures OperationsByFilter([x, y, z], keep)
            == (if keep(x) then [x] else []) + (if keep(y) then [y] else []) + (if keep(z) then [z] else [])
  {
    assert [x, y, z][..2] == [x, y] && [x, y][..1] == [x] && [x][..0] == [];
    var fx := if keep(x) then [x] else [];
    assert OperationsByFilter([x], keep) == fx by {
      assert OperationsByFilter([x], keep) == OperationsByFilter([], keep) + fx;
    }
    assert OperationsByFilter([x, y], keep) == fx + (if keep(y) then [y] else []);
  }

  lemma SumsOne(o: Operation)
    ensures Sums([o], Payment) == [(o.currency, o.payment)]
  {
    assert [o][..0] == [];
  }

  lemma AccountCommissionTotals()
    ensures Totals(Account, TypeIn(CommissionTypes)) == [(RUB, -5.0)]
  {
    FilterThree(PayInOp, CommissionOp, BuyOp, TypeIn(CommissionTypes));
    SumsOne(CommissionOp);
  }

  /** Only the broker commission is a commission. */
  lemma AccountCommissions()
    ensures Commissions(Account) == [(RUB, -5.0)]
  {
    AccountCommissionTotals();
  }

  lemma AccountPayIn()
    ensures PayInTotals(Account) == [(RUB, 1000.0)]
  {
    FilterThree(PayInOp, CommissionOp, BuyOp, TypeIn({PayIn}));
    SumsOne(PayInOp);
  }

  lemma AccountOperations()
    ensures OperationsBalance(Account) == [(RUB, -300.0)]
  {
    FilterThree(PayInOp, CommissionOp, BuyOp, TypeIn(TradeTypes));
    SumsOne(BuyOp);
  }

  /** Every operation is in roubles, so the balance is 1000 - 5 - 300. */
  lemma AccountBalance()
    ensures Balance(Account) == [(RUB, 695.0)]
  {
    FilterThree(PayInOp, CommissionOp, BuyOp, InDefaultCurrency);
    assert OperationsByFilter(Account, InDefaultCurrency) == Account;
    var a2 := [PayInOp, CommissionOp];
    assert Account[..2] == a2 && a2[..1] == [PayInOp];
    SumsOne(PayInOp);
    assert Sums(a2, Payment) == [(RUB, 995.0)];
  }

  lemma AccountFigiTotals()
    ensures FigiTotalsOf(Account) == [("X", [(RUB, -300.0)])]
  {
    FilterThree(PayInOp, CommissionOp, BuyOp, IsInstrumentTrade);
    assert Trades(Account) == [BuyOp];
    assert [BuyOp][..0] == [];
    assert TradeAmount(BuyOp) == -300.0;
    assert Add([], RUB, -300.0) == [(RUB, -300.0)];
    assert TradeSums([BuyOp]) == AddNested([], "X", RUB, -300.0);
  }

  lemma AccountBase()
    ensures Dividends(Account) == [] && Coupons(Account) == []
  {
    FilterThree(PayInOp, CommissionOp, BuyOp, TypeIn(DividendTypes));
    FilterThree(PayInOp, CommissionOp, BuyOp, TypeIn(CouponTypes));
  }

  /** An instrument outside the portfolio with one currency is appended after the base entries. */
  lemma AssignOutsidePortfolio(figi: string, c: Currency, sum: real, search: string -> MarketInstrument)
    ensures var base: ProfitMap := [("dividend", []), ("coupon", [])];
      AssignFigis(base, [(figi, [(c, sum)])], [], search) == base + [(NameByFigi(figi, search), [(c, sum)])]
  {
    var base: ProfitMap := [("dividend", []), ("coupon", [])];
    var sums: Dict<Currency, real> := [(c, sum)];
    var ft: FigiTotals := [(figi, sums)];
    var name := NameByFigi(figi, search);
    assert ft[..0] == [] && sums[..0] == [];
    assert AssignFigis(base, ft, [], search) == AssignAll(base, figi, sums, [], search);
    assert AssignAll(base, figi, sums, [], search) == Assign(base, figi, c, sum, [], search);
    BaseHasNoName([], [], name);
    FindKeys(base, name);
  }

  /** With no trades in the base and an empty portfolio, `get_profit` runs the loops over `X` alone. */
  lemma AccountProfitInputs(search: string -> MarketInstrument)
    ensures ProfitOf(Account, [], search)
            == AssignFigis([("dividend", []), ("coupon", [])], [("X", [(RUB, -300.0)])], [], search)
  {
    AccountBase();
    AccountFigiTotals();
    assert BaseProfit(Account) == [("dividend", []), ("coupon", [])];
    assert Holdings([]) == [];
  }

  /**
    The profit map is the empty dividend and coupon entries followed by the
    buy under the instrument's display name, since `X` is not in the
    portfolio.
   */
  lemma AccountProfit(search: string -> MarketInstrument)
    ensures ProfitOf(Account, [], search)
            == [("dividend", []), ("coupon", []), (NameByFigi("X", search), [(RUB, -300.0)])]
    ensures |ProfitOf(Account, [], search)| >= 2
    ensures ProfitOf(Account, [], search)[0] == ("dividend", [])
    ensures ProfitOf(Account, [], search)[1] == ("coupon", [])
    ensures Find(ProfitOf(Account, [], search), NameByFigi("X", search)) == Some([(RUB, -300.0)])
  {
    var base: ProfitMap := [("dividend", []), ("coupon", [])];
    var name := NameByFigi("X", search);
    var sums: Dict<Currency, real> := [(RUB, -300.0)];
    AccountProfitInputs(search);
    AssignOutsidePortfolio("X", RUB, -300.0, search);
    BaseHasNoName([], [], name);
    FindKeys(base, name);
    FindSnocNew(base, (name, sums), name);
  }

  /** A commission renders with the cross and a pay-in with the check mark. */
  lemma AccountMarks(display: Display)
    ensures var s := AmountEmoji(-5.0, display); s[|s| - 1] == Cross
    ensures var s := AmountEmoji(1000.0, display); s[|s| - 1] == Check
  {
  }

  /** A position of 5 lots at 100 with an expected yield of 12.345 is worth 512.345 before rounding. */
  lemma PositionExample()
    ensures PositionValue(Position("X", "XT", 5.0, MoneyAmount(RUB, 100.0), MoneyAmount(RUB, 12.345))) == 512.345
  {
  }
}

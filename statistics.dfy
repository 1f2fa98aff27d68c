/**
  The named statistics of the calculator: the aggregation primitive with
  fixed predicates over the operation type or the currency.
 */
module Statistics {
  import opened Dicts
  import opened Brokerage
  import opened Aggregation

  /** `operation_type in types` (a single `==` is the one-element case). */
  function TypeIn(types: set<OperationType>): Operation -> bool {
    (o: Operation) => o.opType in types
  }

  /** `commission_operations_types` (common.py lines 37-42). */
  const CommissionTypes: set<OperationType> := {BrokerCommission, ServiceCommission, TaxDividend, TaxCoupon}
  const PayTypes: set<OperationType> := {PayOut, PayIn}
  const TradeTypes: set<OperationType> := {Buy, Sell, BuyCard}
  const DividendTypes: set<OperationType> := {Dividend, TaxDividend}
  const CouponTypes: set<OperationType> := {Coupon, TaxCoupon}

  predicate InDefaultCurrency(o: Operation) { o.currency == DefaultCurrency }

  /**
    `r` is what the primitive yields for `keep`: each currency once, the keys
    are the currencies of the operations `keep` accepts, and each value is
    the sum of their payments in that currency.
   */
  ghost predicate Aggregates(r: Dict<Currency, real>, ops: seq<Operation>, keep: Operation -> bool) {
    && DistinctKeys(r)
    && Keys(r) == Currencies(ops, keep)
    && forall c :: GetOr(r, c, 0.0) == TotalIn(ops, keep, Payment, c)
  }

  lemma AggregatesOfTotals(ops: seq<Operation>, keep: Operation -> bool)
    ensures Aggregates(Totals(ops, keep), ops, keep)
  {
    TotalsMeaning(ops, keep);
  }

  /** Type predicates over disjoint type sets are disjoint, and their union is the union's predicate. */
  lemma TypeInUnion(a: set<OperationType>, b: set<OperationType>)
    requires a !! b
    ensures forall o :: TypeIn(a + b)(o) == (TypeIn(a)(o) || TypeIn(b)(o))
    ensures forall o :: !(TypeIn(a)(o) && TypeIn(b)(o))
  {
  }

  /** Sums per currency for a single operation type. */
  function TotalsOfType(ops: seq<Operation>, t: OperationType): (r: Dict<Currency, real>)
    ensures Aggregates(r, ops, TypeIn({t}))
  {
    AggregatesOfTotals(ops, TypeIn({t}));
    Totals(ops, TypeIn({t}))
  }

  /** `get_service_commission`. */
  function ServiceCommissions(ops: seq<Operation>): (r: Dict<Currency, real>)
    ensures Aggregates(r, ops, TypeIn({ServiceCommission}))
  {
    TotalsOfType(ops, ServiceCommission)
  }

  /**
    `get_commissions`: per currency, the service commissions plus the broker
    commissions plus the taxes on dividends and on coupons; a service
    commission is one of the commission types, so its currencies are among
    the commissions' currencies.
   */
  function Commissions(ops: seq<Operation>): (r: Dict<Currency, real>)
    ensures Aggregates(r, ops, TypeIn(CommissionTypes))
    ensures forall c ::
              GetOr(r, c, 0.0) ==
              GetOr(ServiceCommissions(ops), c, 0.0) + GetOr(TotalsOfType(ops, BrokerCommission), c, 0.0)
              + GetOr(TotalsOfType(ops, TaxDividend), c, 0.0) + GetOr(TotalsOfType(ops, TaxCoupon), c, 0.0)
    ensures Keys(ServiceCommissions(ops)) <= Keys(r)
  {
    var taxes := TypeIn({TaxDividend, TaxCoupon});
    var feesAndTaxes := TypeIn({BrokerCommission, TaxDividend, TaxCoupon});
    TypeInUnion({TaxDividend}, {TaxCoupon});
    TotalsOfDisjointUnion(ops, TypeIn({TaxDividend}), TypeIn({TaxCoupon}), taxes);
    TypeInUnion({BrokerCommission}, {TaxDividend, TaxCoupon});
    TotalsOfDisjointUnion(ops, TypeIn({BrokerCommission}), taxes, feesAndTaxes);
    TypeInUnion({ServiceCommission}, {BrokerCommission, TaxDividend, TaxCoupon});
    assert CommissionTypes == {ServiceCommission} + {BrokerCommission, TaxDividend, TaxCoupon};
    TotalsOfDisjointUnion(ops, TypeIn({ServiceCommission}), feesAndTaxes, TypeIn(CommissionTypes));
    AggregatesOfTotals(ops, TypeIn(CommissionTypes));
    Totals(ops, TypeIn(CommissionTypes))
  }

  /** `get_pay_in`. */
  function PayInTotals(ops: seq<Operation>): (r: Dict<Currency, real>)
    ensures Aggregates(r, ops, TypeIn({PayIn}))
  {
    TotalsOfType(ops, PayIn)
  }

  /** `get_pay_out`. */
  function PayOutTotals(ops: seq<Operation>): (r: Dict<Currency, real>)
    ensures Aggregates(r, ops, TypeIn({PayOut}))
  {
    TotalsOfType(ops, PayOut)
  }

  /**
    `get_pay_total`: pay-ins and pay-outs are disjoint and together make up
    the pay-total filter, so per currency the pay total is pay-in plus
    pay-out, and its currencies are theirs together.
   */
  function PayTotal(ops: seq<Operation>): (r: Dict<Currency, real>)
    ensures Aggregates(r, ops, TypeIn(PayTypes))
    ensures forall c :: GetOr(r, c, 0.0) == GetOr(PayInTotals(ops), c, 0.0) + GetOr(PayOutTotals(ops), c, 0.0)
    ensures Keys(r) == Keys(PayInTotals(ops)) + Keys(PayOutTotals(ops))
  {
    TypeInUnion({PayIn}, {PayOut});
    assert PayTypes == {PayIn} + {PayOut};
    TotalsOfDisjointUnion(ops, TypeIn({PayIn}), TypeIn({PayOut}), TypeIn(PayTypes));
    AggregatesOfTotals(ops, TypeIn(PayTypes));
    Totals(ops, TypeIn(PayTypes))
  }

  /**
    `get_balance`: the payments in the default currency. Its only possible
    key is the default currency, present exactly when some operation is in
    that currency.
   */
  function Balance(ops: seq<Operation>): (r: Dict<Currency, real>)
    ensures Aggregates(r, ops, InDefaultCurrency)
    ensures Keys(r) <= {DefaultCurrency}
    ensures DefaultCurrency in Keys(r) <==> exists o :: o in ops && o.currency == DefaultCurrency
  {
    AggregatesOfTotals(ops, InDefaultCurrency);
    Totals(ops, InDefaultCurrency)
  }

  /**
    `get_total_operations_balance`: the payments of buys, sells and card
    buys, in every currency (the source applies no currency restriction here).
   */
  function OperationsBalance(ops: seq<Operation>): (r: Dict<Currency, real>)
    ensures Aggregates(r, ops, TypeIn(TradeTypes))
  {
    AggregatesOfTotals(ops, TypeIn(TradeTypes));
    Totals(ops, TypeIn(TradeTypes))
  }

  /** The `dividend` entry of the profit map: dividends and the tax on them. */
  function Dividends(ops: seq<Operation>): (r: Dict<Currency, real>)
    ensures Aggregates(r, ops, TypeIn(DividendTypes))
  {
    AggregatesOfTotals(ops, TypeIn(DividendTypes));
    Totals(ops, TypeIn(DividendTypes))
  }

  /** The `coupon` entry of the profit map: coupons and the tax on them. */
  function Coupons(ops: seq<Operation>): (r: Dict<Currency, real>)
    ensures Aggregates(r, ops, TypeIn(CouponTypes))
  {
    AggregatesOfTotals(ops, TypeIn(CouponTypes));
    Totals(ops, TypeIn(CouponTypes))
  }
}
